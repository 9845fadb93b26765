/** The banner carousel of the home page: the decision rule that turns the
    result of the banner request into carousel items or a fallback item and
    an error text, and the render priority of spinner, error screen and
    carousel. The request itself is an abstract outcome. */
module Home {
  import opened Wrappers
  import opened ApiModels
  import Seqs

  /** How the banner request ended: a response that is not ok, an exception
      with its message (the request failed, or the body was not JSON), or a
      body read into a `BannerViewModel`. */
  datatype FetchOutcome = HttpNotOk | Thrown(message: string) | Parsed(model: BannerViewModel)

  /** What the page renders. */
  datatype Screen = LoadingScreen | ErrorScreen(message: string) | CarouselScreen(slides: seq<BannerItem>)

  const HTTP_ERROR := "Failed to fetch carousel data"
  const API_ERRORS_PREFIX := "API returned errors: "
  const NO_DATA_ERROR := "No valid banner data received from API"

  /** The single slide shown whenever the banner data cannot be used. */
  const FALLBACK_ITEM := NewBannerItem(BannerItemInput(
    Some("Welcome to AVAMAE"),
    Some("Professional software solutions for modern businesses"),
    Some("https://via.placeholder.com/800x600/4a90e2/ffffff?text=Office+Image")))

  lemma FallbackItemIsValid()
    ensures FALLBACK_ITEM.HasValidData()
  {
  }

  /** `Errors.map(err => err.MessageCode)` as `join` writes it: a missing
      code becomes the empty string. */
  function ErrorCodes(errors: seq<ErrorInput>): (r: seq<string>)
    ensures |r| == |errors|
    ensures forall i :: 0 <= i < |r| ==> r[i] == errors[i].MessageCode.GetOr("")
  {
    if errors == [] then [] else [errors[0].MessageCode.GetOr("")] + ErrorCodes(errors[1..])
  }

  /** Whether the response is used as it is: a successful result with at
      least one item, whatever its `Errors` say. */
  predicate HasBannerItems(outcome: FetchOutcome) {
    outcome.Parsed? && outcome.model.IsSuccess() && |outcome.model.Details| > 0
  }

  /** The message of the error `fetchCarouselData` throws, or `None` when it
      shows the response's items. */
  function FetchFailure(outcome: FetchOutcome): (r: Option<string>)
    ensures r.None? <==> HasBannerItems(outcome)
  {
    match outcome
    case HttpNotOk => Some(HTTP_ERROR)
    case Thrown(message) => Some(message)
    case Parsed(vm) =>
      if vm.IsSuccess() && |vm.Details| > 0 then None
      else if vm.HasErrors() then Some(API_ERRORS_PREFIX + Seqs.Join(ErrorCodes(vm.Result.Errors), ", "))
      else Some(NO_DATA_ERROR)
  }

  /** The error texts: a fixed one for a response that is not ok, the codes
      of the result's errors after a fixed prefix, or a fixed one for a
      result without items and without errors. */
  lemma FailureMessages(outcome: FetchOutcome)
    requires !HasBannerItems(outcome)
    ensures outcome.HttpNotOk? ==> FetchFailure(outcome) == Some(HTTP_ERROR)
    ensures outcome.Thrown? ==> FetchFailure(outcome) == Some(outcome.message)
    ensures outcome.Parsed? && outcome.model.HasErrors() ==>
      var codes := ErrorCodes(outcome.model.Result.Errors);
      && FetchFailure(outcome).value[..|API_ERRORS_PREFIX|] == API_ERRORS_PREFIX
      && FetchFailure(outcome) == Some(API_ERRORS_PREFIX + Seqs.Join(codes, ", "))
      && (|codes| == 1 ==> FetchFailure(outcome).value == API_ERRORS_PREFIX + codes[0])
    ensures outcome.Parsed? && !outcome.model.HasErrors() ==> FetchFailure(outcome) == Some(NO_DATA_ERROR)
  {
    if outcome.Parsed? && outcome.model.HasErrors() {
      var joined := Seqs.Join(ErrorCodes(outcome.model.Result.Errors), ", ");
      assert FetchFailure(outcome).value == API_ERRORS_PREFIX + joined;
      assert (API_ERRORS_PREFIX + joined)[..|API_ERRORS_PREFIX|] == API_ERRORS_PREFIX;
    }
  }

  /** Two error codes, joined. */
  lemma TwoCodesMessage(status: string)
    requires status != "1"
    ensures FetchFailure(Parsed(BannerViewModel(BaseResult(status,
      [ErrorInput(None, Some("A")), ErrorInput(Some("Title"), Some("B"))]), [])))
      == Some("API returned errors: A, B")
  {
    var errors := [ErrorInput(None, Some("A")), ErrorInput(Some("Title"), Some("B"))];
    assert ErrorCodes(errors) == ["A"] + ["B"];
    Seqs.JoinSnoc(["A"], ", ", "B");
    assert ["A"] + ["B"] == ["A", "B"];
    assert Seqs.Join(["A", "B"], ", ") == "A" + ", " + "B";
    assert API_ERRORS_PREFIX + ("A" + ", " + "B") == "API returned errors: A, B";
  }

  class HomePage {
    var carouselData: seq<BannerItem>
    var loading: bool
    var error: Option<string>

    /** Every slide the carousel holds has complete data. */
    predicate Valid()
      reads this
    {
      forall i :: 0 <= i < |carouselData| ==> carouselData[i].HasValidData()
    }

    /** The error screen shows when the error text is truthy. */
    predicate ErrorShown()
      reads this
    {
      error.Some? && error.value != ""
    }

    constructor ()
      ensures Valid()
      ensures carouselData == [] && loading && error == None
    {
      carouselData := [];
      loading := true;
      error := None;
    }

    /** The render priority: the spinner while loading, else the error screen
        while an error text is set, else the carousel. */
    function Render(): (s: Screen)
      reads this
      ensures s == LoadingScreen <==> loading
      ensures !loading && ErrorShown() ==> s == ErrorScreen(error.value)
      ensures !loading && !ErrorShown() ==> s == CarouselScreen(carouselData)
    {
      if loading then LoadingScreen
      else if ErrorShown() then ErrorScreen(error.value)
      else CarouselScreen(carouselData)
    }

    /** `fetchCarouselData`, the request replaced by its outcome. Usable items
        replace the carousel and leave the error as it was; otherwise the error
        text is set and the carousel holds the fallback slide alone. Loading
        always ends, and an error, once set, is never cleared. */
    method FetchCarouselData(outcome: FetchOutcome)
      requires Valid()
      modifies this
      ensures Valid()
      ensures !loading
      ensures HasBannerItems(outcome) ==>
        carouselData == Seqs.Filter(IsValidItem, outcome.model.Details) && error == old(error)
      ensures !HasBannerItems(outcome) ==>
        carouselData == [FALLBACK_ITEM] && error == FetchFailure(outcome)
      ensures old(error).Some? ==> error.Some?
      ensures old(ErrorShown()) && HasBannerItems(outcome) ==> Render() == ErrorScreen(old(error).value)
    {
      loading := true;
      var failure: Option<string> := None;
      match outcome {
        case HttpNotOk =>
          failure := Some(HTTP_ERROR);
        case Thrown(message) =>
          failure := Some(message);
        case Parsed(bannerViewModel) =>
          if bannerViewModel.IsSuccess() && |bannerViewModel.Details| > 0 {
            var validItems := Seqs.Filter(IsValidItem, bannerViewModel.Details);
            carouselData := validItems;
          } else if bannerViewModel.HasErrors() {
            var errorMessages := Seqs.Join(ErrorCodes(bannerViewModel.Result.Errors), ", ");
            failure := Some(API_ERRORS_PREFIX + errorMessages);
          } else {
            failure := Some(NO_DATA_ERROR);
          }
      }
      if failure.Some? {
        error := failure;
        FallbackItemIsValid();
        carouselData := [FALLBACK_ITEM];
      }
      loading := false;
    }

    /** `fetchCarouselData` with the error text cleared when a request
        starts, so that a retry that succeeds shows the carousel again. */
    method FetchCarouselDataResettingError(outcome: FetchOutcome)
      requires Valid()
      modifies this
      ensures Valid()
      ensures !loading && error == FetchFailure(outcome)
      ensures HasBannerItems(outcome) ==>
        Render() == CarouselScreen(Seqs.Filter(IsValidItem, outcome.model.Details))
      ensures !HasBannerItems(outcome) ==> carouselData == [FALLBACK_ITEM]
    {
      error := None;
      FetchCarouselData(outcome);
    }
  }

  /** A response with one complete banner item. */
  const ONE_ITEM_RESPONSE := Parsed(BannerViewModel(BaseResult("1", []), [BannerItem("Title", "Subtitle", "image.png")]))

  /** As written: after a failed load, "Try Again" with a good response still
      shows the error screen. */
  method RetryAfterFailure() returns (before: Screen, after: Screen)
    ensures before == ErrorScreen(HTTP_ERROR) && after == ErrorScreen(HTTP_ERROR)
  {
    var page := new HomePage();
    page.FetchCarouselData(HttpNotOk);
    before := page.Render();
    page.FetchCarouselData(ONE_ITEM_RESPONSE);
    after := page.Render();
  }

  /** With the error cleared at the start of each request, the same retry
      shows the carousel. */
  method RetryAfterFailureResettingError() returns (before: Screen, after: Screen)
    ensures before == ErrorScreen(HTTP_ERROR)
    ensures after == CarouselScreen([BannerItem("Title", "Subtitle", "image.png")])
  {
    var page := new HomePage();
    page.FetchCarouselDataResettingError(HttpNotOk);
    before := page.Render();
    page.FetchCarouselDataResettingError(ONE_ITEM_RESPONSE);
    after := page.Render();
    Seqs.FilterKeepsAll(IsValidItem, ONE_ITEM_RESPONSE.model.Details);
  }
}
