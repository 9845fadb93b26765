/** The API models of the site: the result envelope, the banner models and
    the contact-form command with its validation and JSON payload.

    Every constructor of the source fills a missing or falsy property with a
    default (`data.X || ''`); here an input record holds an `Option` per
    property and the constructor function applies the default. */
module ApiModels {
  import opened Wrappers
  import opened Text
  import Seqs

  // ---------------------------------------------------------------------
  // Error codes and their user-facing texts
  // ---------------------------------------------------------------------

  const REQUIRED_FIELD := "REQUIRED_FIELD"
  const INVALID_EMAIL := "INVALID_EMAIL"
  const MESSAGE_TOO_LONG := "MESSAGE_TOO_LONG"
  const INVALID_PHONE := "INVALID_PHONE"

  /** The code-to-text table. */
  const ERROR_MESSAGES: map<string, string> := map[
    REQUIRED_FIELD := "This field is required",
    INVALID_EMAIL := "Please enter a valid email address",
    MESSAGE_TOO_LONG := "Message must be 1000 characters or less",
    INVALID_PHONE := "Please enter a valid phone number"
  ]

  /** The text shown when an error carries no code at all. */
  const FALLBACK_USER_MESSAGE := "Validation error"

  /** The longest message, after trimming, that validation accepts. */
  const MAX_MESSAGE_LENGTH := 1000

  // ---------------------------------------------------------------------
  // BaseErrorViewModel
  // ---------------------------------------------------------------------

  /** Constructor input of an error: the raw `{FieldName, MessageCode}` object. */
  datatype ErrorInput = ErrorInput(FieldName: Option<string>, MessageCode: Option<string>)

  datatype ErrorViewModel = ErrorViewModel(FieldName: string, MessageCode: string) {

    /** The code's text from the table, else the code itself, else the fallback. */
    function GetUserMessage(): (r: string)
      ensures MessageCode in ERROR_MESSAGES ==> r == ERROR_MESSAGES[MessageCode]
      ensures MessageCode !in ERROR_MESSAGES && MessageCode != "" ==> r == MessageCode
      ensures MessageCode == "" ==> r == FALLBACK_USER_MESSAGE
      ensures r != ""
    {
      if MessageCode in ERROR_MESSAGES && ERROR_MESSAGES[MessageCode] != "" then ERROR_MESSAGES[MessageCode]
      else if MessageCode != "" then MessageCode
      else FALLBACK_USER_MESSAGE
    }
  }

  /** `new BaseErrorViewModel(data)` */
  function NewErrorViewModel(d: ErrorInput): (e: ErrorViewModel)
    ensures d.FieldName.Some? ==> e.FieldName == d.FieldName.value
    ensures d.MessageCode.Some? ==> e.MessageCode == d.MessageCode.value
    ensures d.FieldName.None? ==> e.FieldName == ""
    ensures d.MessageCode.None? ==> e.MessageCode == ""
  {
    ErrorViewModel(d.FieldName.GetOr(""), d.MessageCode.GetOr(""))
  }

  /** The three cases of the apiModels tests of `getUserMessage`. */
  lemma UserMessageExamples()
    ensures NewErrorViewModel(ErrorInput(None, Some(REQUIRED_FIELD))).GetUserMessage() == "This field is required"
    ensures NewErrorViewModel(ErrorInput(None, Some("UNKNOWN_CODE"))).GetUserMessage() == "UNKNOWN_CODE"
    ensures NewErrorViewModel(ErrorInput(None, Some(""))).GetUserMessage() == FALLBACK_USER_MESSAGE
  {
  }

  // ---------------------------------------------------------------------
  // BaseResult and the banner models
  // ---------------------------------------------------------------------

  /** The result envelope. `Errors` keeps the raw error objects of the
      response: the constructor does not turn them into view models. */
  datatype BaseResult = BaseResult(Status: string, Errors: seq<ErrorInput>) {

    predicate IsSuccess() {
      Status == "1"
    }

    predicate HasErrors() {
      |Errors| > 0
    }
  }

  datatype BannerItemInput = BannerItemInput(Title: Option<string>, Subtitle: Option<string>, ImageUrl: Option<string>)

  datatype BannerItem = BannerItem(Title: string, Subtitle: string, ImageUrl: string) {

    /** All three texts are present (non-empty). */
    predicate HasValidData() {
      Title != "" && Subtitle != "" && ImageUrl != ""
    }
  }

  /** `item => item.hasValidData()`, as a filter callback. */
  predicate IsValidItem(item: BannerItem) {
    item.HasValidData()
  }

  /** `new BannerItem(data)` */
  function NewBannerItem(d: BannerItemInput): (b: BannerItem)
    ensures b.Title == d.Title.GetOr("") && b.Subtitle == d.Subtitle.GetOr("") && b.ImageUrl == d.ImageUrl.GetOr("")
  {
    BannerItem(d.Title.GetOr(""), d.Subtitle.GetOr(""), d.ImageUrl.GetOr(""))
  }

  /** An item built from raw data is valid exactly when all three
      properties were given and non-empty. */
  lemma NewBannerItemValidIff(d: BannerItemInput)
    ensures NewBannerItem(d).HasValidData() <==>
      && d.Title.Some? && d.Title.value != ""
      && d.Subtitle.Some? && d.Subtitle.value != ""
      && d.ImageUrl.Some? && d.ImageUrl.value != ""
  {
  }

  /** Raw `{Status, Errors, Details}` response data. */
  datatype BannerInput = BannerInput(Status: Option<string>, Errors: Option<seq<ErrorInput>>, Details: Option<seq<BannerItemInput>>)

  /** A `BaseResult` with the banner items. */
  datatype BannerViewModel = BannerViewModel(Result: BaseResult, Details: seq<BannerItem>) {

    /** `isSuccess`, which `BannerViewModel` inherits from `BaseResult`. */
    predicate IsSuccess() {
      Result.IsSuccess()
    }

    /** `hasErrors`, which `BannerViewModel` inherits from `BaseResult`. */
    predicate HasErrors() {
      Result.HasErrors()
    }
  }

  /** `new BaseResult(data)` */
  function NewBaseResult(status: Option<string>, errors: Option<seq<ErrorInput>>): (r: BaseResult)
    ensures r.IsSuccess() <==> status == Some("1")
    ensures r.HasErrors() <==> errors.Some? && |errors.value| > 0
    ensures errors.Some? ==> r.Errors == errors.value
  {
    BaseResult(status.GetOr(""), errors.GetOr([]))
  }

  /** `new BannerViewModel(data)`: every raw item becomes a `BannerItem`,
      with the same length and in the same order. */
  function NewBannerViewModel(d: BannerInput): (vm: BannerViewModel)
    ensures vm.Result == NewBaseResult(d.Status, d.Errors)
    ensures |vm.Details| == |d.Details.GetOr([])|
    ensures forall i :: 0 <= i < |vm.Details| ==> vm.Details[i] == NewBannerItem(d.Details.GetOr([])[i])
  {
    var raw := d.Details.GetOr([]);
    BannerViewModel(NewBaseResult(d.Status, d.Errors), seq(|raw|, i requires 0 <= i < |raw| => NewBannerItem(raw[i])))
  }

  // ---------------------------------------------------------------------
  // AddressDetails
  // ---------------------------------------------------------------------

  datatype AddressInput = AddressInput(
    AddressLine1: Option<string>, AddressLine2: Option<string>, CityTown: Option<string>,
    StateCounty: Option<string>, Postcode: Option<string>, Country: Option<string>)

  datatype AddressDetails = AddressDetails(
    AddressLine1: string, AddressLine2: string, CityTown: string,
    StateCounty: string, Postcode: string, Country: string)

  /** The JSON object that `AddressDetails.toJSON` produces. */
  datatype AddressPayload = AddressPayload(
    AddressLine1: string, AddressLine2: string, CityTown: string,
    StateCounty: string, Postcode: string, Country: string)

  const NO_ADDRESS_INPUT := AddressInput(None, None, None, None, None, None)

  /** `new AddressDetails(data)` */
  function NewAddressDetails(d: AddressInput): (a: AddressDetails)
    ensures a.AddressLine1 == d.AddressLine1.GetOr("") && a.AddressLine2 == d.AddressLine2.GetOr("")
    ensures a.CityTown == d.CityTown.GetOr("") && a.StateCounty == d.StateCounty.GetOr("")
    ensures a.Postcode == d.Postcode.GetOr("") && a.Country == d.Country.GetOr("")
  {
    AddressDetails(d.AddressLine1.GetOr(""), d.AddressLine2.GetOr(""), d.CityTown.GetOr(""),
                   d.StateCounty.GetOr(""), d.Postcode.GetOr(""), d.Country.GetOr(""))
  }

  /** `AddressDetails.toJSON()`: all six fields, verbatim, so that building an
      address from the payload gives the original address back. */
  function AddressToJson(a: AddressDetails): (p: AddressPayload)
    ensures NewAddressDetails(AddressInputOf(p)) == a
  {
    AddressPayload(a.AddressLine1, a.AddressLine2, a.CityTown, a.StateCounty, a.Postcode, a.Country)
  }

  /** Reading a payload back as constructor input. */
  function AddressInputOf(p: AddressPayload): AddressInput {
    AddressInput(Some(p.AddressLine1), Some(p.AddressLine2), Some(p.CityTown),
                 Some(p.StateCounty), Some(p.Postcode), Some(p.Country))
  }

  /** A `REQUIRED_FIELD` error for `field` when `value` is blank. */
  function RequiredError(field: string, value: string): (r: seq<ErrorViewModel>)
    ensures r == [] <==> !IsBlank(value)
  {
    if IsBlank(value) then [ErrorViewModel(field, REQUIRED_FIELD)] else []
  }

  /** The errors `AddressDetails.validate()` returns (AddressLine2 is optional). */
  function AddressErrors(a: AddressDetails): seq<ErrorViewModel> {
    RequiredError("AddressLine1", a.AddressLine1)
    + RequiredError("CityTown", a.CityTown)
    + RequiredError("StateCounty", a.StateCounty)
    + RequiredError("Country", a.Country)
    + RequiredError("Postcode", a.Postcode)
  }

  /** `AddressDetails.validate()` */
  method ValidateAddress(a: AddressDetails) returns (errors: seq<ErrorViewModel>)
    ensures errors == AddressErrors(a)
  {
    errors := [];
    if IsBlank(a.AddressLine1) {
      errors := errors + [ErrorViewModel("AddressLine1", REQUIRED_FIELD)];
    }
    assert errors == RequiredError("AddressLine1", a.AddressLine1);
    ghost var done := errors;
    if IsBlank(a.CityTown) {
      errors := errors + [ErrorViewModel("CityTown", REQUIRED_FIELD)];
    }
    assert errors == done + RequiredError("CityTown", a.CityTown);
    done := errors;
    if IsBlank(a.StateCounty) {
      errors := errors + [ErrorViewModel("StateCounty", REQUIRED_FIELD)];
    }
    assert errors == done + RequiredError("StateCounty", a.StateCounty);
    done := errors;
    if IsBlank(a.Country) {
      errors := errors + [ErrorViewModel("Country", REQUIRED_FIELD)];
    }
    assert errors == done + RequiredError("Country", a.Country);
    done := errors;
    if IsBlank(a.Postcode) {
      errors := errors + [ErrorViewModel("Postcode", REQUIRED_FIELD)];
    }
    assert errors == done + RequiredError("Postcode", a.Postcode);
  }

  /** A default address fails all five required checks, in order. */
  lemma DefaultAddressErrors()
    ensures AddressErrors(NewAddressDetails(NO_ADDRESS_INPUT)) == [
      ErrorViewModel("AddressLine1", REQUIRED_FIELD),
      ErrorViewModel("CityTown", REQUIRED_FIELD),
      ErrorViewModel("StateCounty", REQUIRED_FIELD),
      ErrorViewModel("Country", REQUIRED_FIELD),
      ErrorViewModel("Postcode", REQUIRED_FIELD)]
  {
  }

  // ---------------------------------------------------------------------
  // SubmitContactUsFormCommand
  // ---------------------------------------------------------------------

  /** Raw form data handed to the command's constructor. */
  datatype CommandInput = CommandInput(
    FullName: Option<string>, EmailAddress: Option<string>, PhoneNumbers: Option<seq<string>>,
    Message: Option<string>, bIncludeAddressDetails: Option<bool>, AddressDetails: Option<AddressInput>)

  /** The command; `AddressDetails == None` is the source's `null`. */
  datatype SubmitContactUsFormCommand = SubmitContactUsFormCommand(
    FullName: string, EmailAddress: string, PhoneNumbers: seq<string>,
    Message: string, bIncludeAddressDetails: bool, AddressDetails: Option<AddressDetails>)

  /** The JSON payload; `AddressDetails == None` is a payload without that key. */
  datatype ContactPayload = ContactPayload(
    FullName: string, EmailAddress: string, PhoneNumbers: seq<string>,
    Message: string, bIncludeAddressDetails: bool, AddressDetails: Option<AddressPayload>)

  const NO_COMMAND_INPUT := CommandInput(None, None, None, None, None, None)

  /** `new SubmitContactUsFormCommand(data)` */
  function NewCommand(d: CommandInput): (c: SubmitContactUsFormCommand)
    ensures c.FullName == d.FullName.GetOr("") && c.EmailAddress == d.EmailAddress.GetOr("")
    ensures c.PhoneNumbers == d.PhoneNumbers.GetOr([]) && c.Message == d.Message.GetOr("")
    ensures c.bIncludeAddressDetails == d.bIncludeAddressDetails.GetOr(false)
    ensures c.AddressDetails.Some? <==> d.AddressDetails.Some?
    ensures d.AddressDetails.Some? ==> c.AddressDetails.value == NewAddressDetails(d.AddressDetails.value)
  {
    SubmitContactUsFormCommand(
      d.FullName.GetOr(""), d.EmailAddress.GetOr(""), d.PhoneNumbers.GetOr([]),
      d.Message.GetOr(""), d.bIncludeAddressDetails.GetOr(false),
      if d.AddressDetails.Some? then Some(NewAddressDetails(d.AddressDetails.value)) else None)
  }

  /** Whether the command's address block takes part in validation and in
      the payload. */
  predicate AddressIncluded(c: SubmitContactUsFormCommand) {
    c.bIncludeAddressDetails && c.AddressDetails.Some?
  }

  /** What `toJSON` promises about `p`: the four scalar fields copied
      untrimmed, the non-blank phone numbers in their order, and the address
      block exactly when it is included. */
  predicate IsPayloadFor(c: SubmitContactUsFormCommand, p: ContactPayload) {
    && p.FullName == c.FullName
    && p.EmailAddress == c.EmailAddress
    && p.Message == c.Message
    && p.bIncludeAddressDetails == c.bIncludeAddressDetails
    && p.PhoneNumbers == Seqs.Filter(HasContent, c.PhoneNumbers)
    && (p.AddressDetails.Some? <==> AddressIncluded(c))
    && (p.AddressDetails.Some? ==> p.AddressDetails.value == AddressToJson(c.AddressDetails.value))
  }

  /** `SubmitContactUsFormCommand.toJSON()` */
  method CommandToJson(c: SubmitContactUsFormCommand) returns (payload: ContactPayload)
    ensures IsPayloadFor(c, payload)
  {
    payload := ContactPayload(
      c.FullName, c.EmailAddress, Seqs.Filter(HasContent, c.PhoneNumbers),
      c.Message, c.bIncludeAddressDetails, None);
    if c.bIncludeAddressDetails && c.AddressDetails.Some? {
      payload := payload.(AddressDetails := Some(AddressToJson(c.AddressDetails.value)));
    }
  }

  /** The payload description leaves no freedom: one command, one payload. */
  lemma PayloadUnique(c: SubmitContactUsFormCommand, p: ContactPayload, q: ContactPayload)
    requires IsPayloadFor(c, p) && IsPayloadFor(c, q)
    ensures p == q
  {
  }

  /** The payload's phone numbers are exactly the non-blank entries of the
      command, each as often as it occurs there, in their order. */
  lemma PayloadPhoneNumbers(c: SubmitContactUsFormCommand, p: ContactPayload, x: string)
    requires IsPayloadFor(c, p)
    ensures forall i :: 0 <= i < |p.PhoneNumbers| ==> !IsBlank(p.PhoneNumbers[i])
    ensures multiset(p.PhoneNumbers)[x] == if IsBlank(x) then 0 else multiset(c.PhoneNumbers)[x]
    ensures Seqs.Filter(HasContent, p.PhoneNumbers) == p.PhoneNumbers
  {
    Seqs.FilterMultiplicity(HasContent, c.PhoneNumbers, x);
    Seqs.FilterIdempotent(HasContent, c.PhoneNumbers);
  }

  /** The test case: a blank phone entry is dropped and no address appears
      while the flag is off. */
  lemma PayloadExample(p: ContactPayload)
    requires IsPayloadFor(SubmitContactUsFormCommand("John Doe", "john@example.com", ["1234567890", ""], "Hello", false, None), p)
    ensures p.PhoneNumbers == ["1234567890"] && p.AddressDetails.None?
  {
    var phones := ["1234567890", ""];
    assert !AllWhitespace(phones[0]) by { assert !IsWhitespace(phones[0][0]); }
    assert phones[1..][1..] == [];
  }

  /** The errors `SubmitContactUsFormCommand.validate()` returns: name, then
      email, then message, then the address errors when the address is
      included. */
  function CommandErrors(c: SubmitContactUsFormCommand): seq<ErrorViewModel> {
    RequiredError("FullName", c.FullName)
    + EmailErrors(c.EmailAddress)
    + MessageErrors(c.Message)
    + (if AddressIncluded(c) then AddressErrors(c.AddressDetails.value) else [])
  }

  function EmailErrors(email: string): seq<ErrorViewModel> {
    if IsBlank(email) then [ErrorViewModel("EmailAddress", REQUIRED_FIELD)]
    else if !MatchesEmailPattern(email) then [ErrorViewModel("EmailAddress", INVALID_EMAIL)]
    else []
  }

  function MessageErrors(message: string): seq<ErrorViewModel> {
    if IsBlank(message) then [ErrorViewModel("Message", REQUIRED_FIELD)]
    else if |Trim(message)| > MAX_MESSAGE_LENGTH then [ErrorViewModel("Message", MESSAGE_TOO_LONG)]
    else []
  }

  /** `SubmitContactUsFormCommand.validate()` */
  method Validate(c: SubmitContactUsFormCommand) returns (errors: seq<ErrorViewModel>)
    ensures errors == CommandErrors(c)
  {
    errors := [];
    if IsBlank(c.FullName) {
      errors := errors + [ErrorViewModel("FullName", REQUIRED_FIELD)];
    }
    assert errors == RequiredError("FullName", c.FullName);
    ghost var afterName := errors;
    if IsBlank(c.EmailAddress) {
      errors := errors + [ErrorViewModel("EmailAddress", REQUIRED_FIELD)];
    } else if !MatchesEmailPattern(c.EmailAddress) {
      errors := errors + [ErrorViewModel("EmailAddress", INVALID_EMAIL)];
    }
    assert errors == afterName + EmailErrors(c.EmailAddress);
    ghost var afterEmail := errors;
    if IsBlank(c.Message) {
      errors := errors + [ErrorViewModel("Message", REQUIRED_FIELD)];
    } else if |Trim(c.Message)| > MAX_MESSAGE_LENGTH {
      errors := errors + [ErrorViewModel("Message", MESSAGE_TOO_LONG)];
    }
    assert errors == afterEmail + MessageErrors(c.Message);
    ghost var top := errors;
    if c.bIncludeAddressDetails && c.AddressDetails.Some? {
      var addressErrors := ValidateAddress(c.AddressDetails.value);
      errors := errors + addressErrors;
      assert errors == top + AddressErrors(c.AddressDetails.value);
    } else {
      assert errors == top + [];
    }
  }

  // ---------------------------------------------------------------------
  // Properties of validation
  // ---------------------------------------------------------------------

  /** The codes of the errors reported for `field`, in order. */
  function CodesFor(errors: seq<ErrorViewModel>, field: string): (r: seq<string>) {
    if errors == [] then []
    else (if errors[0].FieldName == field then [errors[0].MessageCode] else []) + CodesFor(errors[1..], field)
  }

  lemma {:induction false} CodesForConcat(a: seq<ErrorViewModel>, b: seq<ErrorViewModel>, field: string)
    ensures CodesFor(a + b, field) == CodesFor(a, field) + CodesFor(b, field)
  {
    if a == [] {
      assert a + b == b;
    } else {
      var head := if a[0].FieldName == field then [a[0].MessageCode] else [];
      assert (a + b)[0] == a[0] && (a + b)[1..] == a[1..] + b;
      assert CodesFor(a + b, field) == head + CodesFor(a[1..] + b, field);
      CodesForConcat(a[1..], b, field);
      assert CodesFor(a, field) == head + CodesFor(a[1..], field);
    }
  }

  /** The codes a single required check reports for `f`. */
  lemma CodesForRequired(field: string, value: string, f: string)
    ensures CodesFor(RequiredError(field, value), f) == if f == field && IsBlank(value) then [REQUIRED_FIELD] else []
  {
    if IsBlank(value) {
      assert RequiredError(field, value)[1..] == [];
    }
  }

  lemma CodesForEmail(email: string, f: string)
    ensures CodesFor(EmailErrors(email), f) ==
      if f != "EmailAddress" then []
      else if IsBlank(email) then [REQUIRED_FIELD]
      else if !MatchesEmailPattern(email) then [INVALID_EMAIL] else []
  {
    if EmailErrors(email) != [] {
      assert EmailErrors(email)[1..] == [];
    }
  }

  lemma CodesForMessage(message: string, f: string)
    ensures CodesFor(MessageErrors(message), f) ==
      if f != "Message" then []
      else if IsBlank(message) then [REQUIRED_FIELD]
      else if |Trim(message)| > MAX_MESSAGE_LENGTH then [MESSAGE_TOO_LONG] else []
  {
    if MessageErrors(message) != [] {
      assert MessageErrors(message)[1..] == [];
    }
  }

  /** The address errors of a command, when its address is included. */
  function IncludedAddressErrors(c: SubmitContactUsFormCommand): seq<ErrorViewModel> {
    if AddressIncluded(c) then AddressErrors(c.AddressDetails.value) else []
  }

  /** The four parts of a command's errors. */
  lemma CommandErrorsSplit(c: SubmitContactUsFormCommand)
    ensures CommandErrors(c) ==
      RequiredError("FullName", c.FullName) + EmailErrors(c.EmailAddress)
      + MessageErrors(c.Message) + IncludedAddressErrors(c)
  {
  }

  /** The codes of a command's errors, part by part. */
  lemma CommandErrorsParts(c: SubmitContactUsFormCommand, f: string)
    ensures CodesFor(CommandErrors(c), f) ==
      CodesFor(RequiredError("FullName", c.FullName), f) + CodesFor(EmailErrors(c.EmailAddress), f)
      + CodesFor(MessageErrors(c.Message), f) + CodesFor(IncludedAddressErrors(c), f)
  {
    var a, b, m, d := RequiredError("FullName", c.FullName), EmailErrors(c.EmailAddress),
                      MessageErrors(c.Message), IncludedAddressErrors(c);
    CommandErrorsSplit(c);
    CodesForConcat(a + b + m, d, f);
    CodesForConcat(a + b, m, f);
    CodesForConcat(a, b, f);
  }

  /** The codes one address reports for `f`, check by check. */
  lemma AddressCodes(a: AddressDetails, f: string)
    ensures CodesFor(AddressErrors(a), f) ==
      CodesFor(RequiredError("AddressLine1", a.AddressLine1), f) + CodesFor(RequiredError("CityTown", a.CityTown), f)
      + CodesFor(RequiredError("StateCounty", a.StateCounty), f) + CodesFor(RequiredError("Country", a.Country), f)
      + CodesFor(RequiredError("Postcode", a.Postcode), f)
  {
    var l1, ct, sc, co, pc := RequiredError("AddressLine1", a.AddressLine1), RequiredError("CityTown", a.CityTown),
      RequiredError("StateCounty", a.StateCounty), RequiredError("Country", a.Country), RequiredError("Postcode", a.Postcode);
    CodesForConcat(l1 + ct + sc + co, pc, f);
    CodesForConcat(l1 + ct + sc, co, f);
    CodesForConcat(l1 + ct, sc, f);
    CodesForConcat(l1, ct, f);
  }

  /** The address field that the form names `f`. */
  function AddressFieldValue(a: AddressDetails, f: string): string {
    if f == "AddressLine1" then a.AddressLine1
    else if f == "AddressLine2" then a.AddressLine2
    else if f == "CityTown" then a.CityTown
    else if f == "StateCounty" then a.StateCounty
    else if f == "Country" then a.Country
    else if f == "Postcode" then a.Postcode
    else ""
  }

  /** The two cases of `CodesForRequired` as separate lemmas, so that a
      proof can take exactly the facts it needs (this keeps the solver's work
      small). A required check reports nothing for another field. */
  lemma CodesForOtherField(field: string, value: string, f: string)
    requires f != field
    ensures CodesFor(RequiredError(field, value), f) == []
  {
    CodesForRequired(field, value, f);
  }

  /** A required check reports its own field exactly when it is blank. */
  lemma CodesForOwnField(field: string, value: string)
    ensures CodesFor(RequiredError(field, value), field) == if IsBlank(value) then [REQUIRED_FIELD] else []
  {
    CodesForRequired(field, value, field);
  }

  /** The five required checks of an address, field by field. */
  lemma AddressFieldCodes(a: AddressDetails, f: string)
    requires f in {"AddressLine1", "AddressLine2", "CityTown", "StateCounty", "Country", "Postcode"}
    ensures CodesFor(AddressErrors(a), f) ==
      if f != "AddressLine2" && IsBlank(AddressFieldValue(a, f)) then [REQUIRED_FIELD] else []
  {
    AddressCodes(a, f);
    if f == "AddressLine1" {
      CodesForOwnField("AddressLine1", a.AddressLine1);
      CodesForOtherField("CityTown", a.CityTown, f);
      CodesForOtherField("StateCounty", a.StateCounty, f);
      CodesForOtherField("Country", a.Country, f);
      CodesForOtherField("Postcode", a.Postcode, f);
    } else if f == "CityTown" {
      CodesForOtherField("AddressLine1", a.AddressLine1, f);
      CodesForOwnField("CityTown", a.CityTown);
      CodesForOtherField("StateCounty", a.StateCounty, f);
      CodesForOtherField("Country", a.Country, f);
      CodesForOtherField("Postcode", a.Postcode, f);
    } else if f == "StateCounty" {
      CodesForOtherField("AddressLine1", a.AddressLine1, f);
      CodesForOtherField("CityTown", a.CityTown, f);
      CodesForOwnField("StateCounty", a.StateCounty);
      CodesForOtherField("Country", a.Country, f);
      CodesForOtherField("Postcode", a.Postcode, f);
    } else if f == "Country" {
      CodesForOtherField("AddressLine1", a.AddressLine1, f);
      CodesForOtherField("CityTown", a.CityTown, f);
      CodesForOtherField("StateCounty", a.StateCounty, f);
      CodesForOwnField("Country", a.Country);
      CodesForOtherField("Postcode", a.Postcode, f);
    } else if f == "Postcode" {
      CodesForOtherField("AddressLine1", a.AddressLine1, f);
      CodesForOtherField("CityTown", a.CityTown, f);
      CodesForOtherField("StateCounty", a.StateCounty, f);
      CodesForOtherField("Country", a.Country, f);
      CodesForOwnField("Postcode", a.Postcode);
    } else {
      CodesForOtherField("AddressLine1", a.AddressLine1, f);
      CodesForOtherField("CityTown", a.CityTown, f);
      CodesForOtherField("StateCounty", a.StateCounty, f);
      CodesForOtherField("Country", a.Country, f);
      CodesForOtherField("Postcode", a.Postcode, f);
    }
  }

  /** The codes a whole command reports for `f`. */
  lemma CommandCodes(c: SubmitContactUsFormCommand, f: string)
    ensures CodesFor(CommandErrors(c), f) ==
      CodesFor(RequiredError("FullName", c.FullName), f) + CodesFor(EmailErrors(c.EmailAddress), f)
      + CodesFor(MessageErrors(c.Message), f)
      + (if AddressIncluded(c) then CodesFor(AddressErrors(c.AddressDetails.value), f) else [])
  {
    CommandErrorsParts(c, f);
  }

  /** Each top-level field gets at most one error: `REQUIRED_FIELD` when
      blank, otherwise `INVALID_EMAIL` for an address the pattern rejects and
      `MESSAGE_TOO_LONG` for a trimmed message over the limit. Phone numbers
      are never validated. */
  lemma ValidateTopLevelCodes(c: SubmitContactUsFormCommand)
    ensures CodesFor(CommandErrors(c), "FullName") == (if IsBlank(c.FullName) then [REQUIRED_FIELD] else [])
    ensures CodesFor(CommandErrors(c), "EmailAddress") ==
      (if IsBlank(c.EmailAddress) then [REQUIRED_FIELD]
       else if !MatchesEmailPattern(c.EmailAddress) then [INVALID_EMAIL] else [])
    ensures CodesFor(CommandErrors(c), "Message") ==
      (if IsBlank(c.Message) then [REQUIRED_FIELD]
       else if |Trim(c.Message)| > MAX_MESSAGE_LENGTH then [MESSAGE_TOO_LONG] else [])
    ensures CodesFor(CommandErrors(c), "PhoneNumbers") == []
  {
    TopLevelField(c, "FullName");
    TopLevelField(c, "EmailAddress");
    TopLevelField(c, "Message");
    TopLevelField(c, "PhoneNumbers");
  }

  /** The codes of one top-level field, from its three checks. */
  lemma TopLevelField(c: SubmitContactUsFormCommand, f: string)
    requires f in {"FullName", "EmailAddress", "Message", "PhoneNumbers"}
    ensures CodesFor(CommandErrors(c), f) ==
      CodesFor(RequiredError("FullName", c.FullName), f) + CodesFor(EmailErrors(c.EmailAddress), f)
      + CodesFor(MessageErrors(c.Message), f)
    ensures CodesFor(RequiredError("FullName", c.FullName), f) ==
      if f == "FullName" && IsBlank(c.FullName) then [REQUIRED_FIELD] else []
    ensures CodesFor(EmailErrors(c.EmailAddress), f) ==
      if f != "EmailAddress" then []
      else if IsBlank(c.EmailAddress) then [REQUIRED_FIELD]
      else if !MatchesEmailPattern(c.EmailAddress) then [INVALID_EMAIL] else []
    ensures CodesFor(MessageErrors(c.Message), f) ==
      if f != "Message" then []
      else if IsBlank(c.Message) then [REQUIRED_FIELD]
      else if |Trim(c.Message)| > MAX_MESSAGE_LENGTH then [MESSAGE_TOO_LONG] else []
  {
    TopLevelCodesFor(c, f);
    CodesForRequired("FullName", c.FullName, f);
    CodesForEmail(c.EmailAddress, f);
    CodesForMessage(c.Message, f);
  }

  /** The first clause of `TopLevelField`, split out to keep the solver's
      work on `CommandErrors` small. */
  lemma TopLevelCodesFor(c: SubmitContactUsFormCommand, f: string)
    requires f in {"FullName", "EmailAddress", "Message", "PhoneNumbers"}
    ensures CodesFor(CommandErrors(c), f) ==
      CodesFor(RequiredError("FullName", c.FullName), f) + CodesFor(EmailErrors(c.EmailAddress), f)
      + CodesFor(MessageErrors(c.Message), f)
  {
    CommandCodes(c, f);
    CodesForRequired("FullName", c.FullName, f);
    CodesForEmail(c.EmailAddress, f);
    CodesForMessage(c.Message, f);
    if AddressIncluded(c) {
      var a := c.AddressDetails.value;
      AddressCodes(a, f);
      CodesForRequired("AddressLine1", a.AddressLine1, f);
      CodesForRequired("CityTown", a.CityTown, f);
      CodesForRequired("StateCounty", a.StateCounty, f);
      CodesForRequired("Country", a.Country, f);
      CodesForRequired("Postcode", a.Postcode, f);
    }
  }

  /** The codes validation reports for the email field: the email clause of
      `ValidateTopLevelCodes` on its own, for proofs that need only it (the
      whole lemma costs the solver noticeably more). */
  lemma EmailCodes(c: SubmitContactUsFormCommand)
    ensures CodesFor(CommandErrors(c), "EmailAddress") ==
      (if IsBlank(c.EmailAddress) then [REQUIRED_FIELD]
       else if !MatchesEmailPattern(c.EmailAddress) then [INVALID_EMAIL] else [])
  {
    TopLevelField(c, "EmailAddress");
  }

  /** Address errors appear only when the flag is set and an address is
      present; then each of the five required fields gets `REQUIRED_FIELD`
      exactly when it is blank; AddressLine2 is never checked. */
  lemma ValidateAddressCodes(c: SubmitContactUsFormCommand, f: string)
    requires f in {"AddressLine1", "AddressLine2", "CityTown", "StateCounty", "Country", "Postcode"}
    ensures CodesFor(CommandErrors(c), f) ==
      if AddressIncluded(c) && f != "AddressLine2" && IsBlank(AddressFieldValue(c.AddressDetails.value, f))
      then [REQUIRED_FIELD] else []
  {
    CommandCodes(c, f);
    CodesForRequired("FullName", c.FullName, f);
    CodesForEmail(c.EmailAddress, f);
    CodesForMessage(c.Message, f);
    if AddressIncluded(c) {
      AddressFieldCodes(c.AddressDetails.value, f);
    }
  }

  /** The order in which validation reports fields. */
  function FieldRank(field: string): (r: nat)
    ensures r <= 8
  {
    if field == "FullName" then 0
    else if field == "EmailAddress" then 1
    else if field == "Message" then 2
    else if field == "AddressLine1" then 3
    else if field == "CityTown" then 4
    else if field == "StateCounty" then 5
    else if field == "Country" then 6
    else if field == "Postcode" then 7
    else 8
  }

  predicate InFieldOrder(errors: seq<ErrorViewModel>) {
    forall i, j :: 0 <= i < j < |errors| ==> FieldRank(errors[i].FieldName) < FieldRank(errors[j].FieldName)
  }

  predicate RanksWithin(errors: seq<ErrorViewModel>, lo: nat, hi: nat) {
    forall i :: 0 <= i < |errors| ==> lo <= FieldRank(errors[i].FieldName) < hi
  }

  lemma InFieldOrderConcat(a: seq<ErrorViewModel>, b: seq<ErrorViewModel>, lo: nat, mid: nat, hi: nat)
    requires lo <= mid <= hi
    requires InFieldOrder(a) && RanksWithin(a, lo, mid)
    requires InFieldOrder(b) && RanksWithin(b, mid, hi)
    ensures InFieldOrder(a + b) && RanksWithin(a + b, lo, hi)
  {
    forall i, j | 0 <= i < j < |a + b|
      ensures FieldRank((a + b)[i].FieldName) < FieldRank((a + b)[j].FieldName)
    {
      if j < |a| {
        assert (a + b)[i] == a[i] && (a + b)[j] == a[j];
      } else if i >= |a| {
        assert (a + b)[i] == b[i - |a|] && (a + b)[j] == b[j - |a|];
      } else {
        assert (a + b)[i] == a[i] && (a + b)[j] == b[j - |a|];
      }
    }
    forall i | 0 <= i < |a + b| ensures lo <= FieldRank((a + b)[i].FieldName) < hi {
      if i < |a| {
        assert (a + b)[i] == a[i];
      } else {
        assert (a + b)[i] == b[i - |a|];
      }
    }
  }

  lemma RequiredErrorRanked(field: string, value: string)
    ensures InFieldOrder(RequiredError(field, value))
    ensures RanksWithin(RequiredError(field, value), FieldRank(field), FieldRank(field) + 1)
  {
  }

  /** Errors come out in the fixed order FullName, EmailAddress, Message,
      AddressLine1, CityTown, StateCounty, Country, Postcode, so no field is
      reported twice. */
  lemma ValidateOrder(c: SubmitContactUsFormCommand)
    ensures InFieldOrder(CommandErrors(c))
    ensures RanksWithin(CommandErrors(c), 0, 8)
  {
    CommandErrorsSplit(c);
    TopLevelRanked(c);
    if AddressIncluded(c) {
      AddressErrorsRanked(c.AddressDetails.value);
    }
    OrderOfParts(RequiredError("FullName", c.FullName), EmailErrors(c.EmailAddress),
                 MessageErrors(c.Message), IncludedAddressErrors(c));
  }

  /** The three top-level checks each report their own field only. */
  lemma TopLevelRanked(c: SubmitContactUsFormCommand)
    ensures InFieldOrder(RequiredError("FullName", c.FullName)) && RanksWithin(RequiredError("FullName", c.FullName), 0, 1)
    ensures InFieldOrder(EmailErrors(c.EmailAddress)) && RanksWithin(EmailErrors(c.EmailAddress), 1, 2)
    ensures InFieldOrder(MessageErrors(c.Message)) && RanksWithin(MessageErrors(c.Message), 2, 3)
  {
    assert FieldRank("FullName") == 0;
    assert FieldRank("EmailAddress") == 1;
    assert FieldRank("Message") == 2;
  }

  lemma OrderOfParts(n: seq<ErrorViewModel>, e: seq<ErrorViewModel>, m: seq<ErrorViewModel>, d: seq<ErrorViewModel>)
    requires InFieldOrder(n) && RanksWithin(n, 0, 1)
    requires InFieldOrder(e) && RanksWithin(e, 1, 2)
    requires InFieldOrder(m) && RanksWithin(m, 2, 3)
    requires InFieldOrder(d) && RanksWithin(d, 3, 8)
    ensures InFieldOrder(n + e + m + d) && RanksWithin(n + e + m + d, 0, 8)
  {
    InFieldOrderConcat(n, e, 0, 1, 2);
    InFieldOrderConcat(n + e, m, 0, 2, 3);
    InFieldOrderConcat(n + e + m, d, 0, 3, 8);
  }

  lemma AddressErrorsRanked(a: AddressDetails)
    ensures InFieldOrder(AddressErrors(a)) && RanksWithin(AddressErrors(a), 3, 8)
  {
    var l1, ct, sc, co, pc := RequiredError("AddressLine1", a.AddressLine1), RequiredError("CityTown", a.CityTown),
      RequiredError("StateCounty", a.StateCounty), RequiredError("Country", a.Country), RequiredError("Postcode", a.Postcode);
    RequiredErrorRanked("AddressLine1", a.AddressLine1);
    RequiredErrorRanked("CityTown", a.CityTown);
    RequiredErrorRanked("StateCounty", a.StateCounty);
    RequiredErrorRanked("Country", a.Country);
    RequiredErrorRanked("Postcode", a.Postcode);
    assert FieldRank("AddressLine1") == 3;
    assert FieldRank("CityTown") == 4;
    assert FieldRank("StateCounty") == 5;
    assert FieldRank("Country") == 6;
    assert FieldRank("Postcode") == 7;
    InFieldOrderConcat(l1, ct, 3, 4, 5);
    InFieldOrderConcat(l1 + ct, sc, 3, 5, 6);
    InFieldOrderConcat(l1 + ct + sc, co, 3, 6, 7);
    InFieldOrderConcat(l1 + ct + sc + co, pc, 3, 7, 8);
  }

  /** A command is valid exactly when every rule is met. */
  lemma ValidIff(c: SubmitContactUsFormCommand)
    ensures CommandErrors(c) == [] <==>
      && !IsBlank(c.FullName)
      && MatchesEmailPattern(c.EmailAddress)
      && !IsBlank(c.Message) && |Trim(c.Message)| <= MAX_MESSAGE_LENGTH
      && (AddressIncluded(c) ==>
            var a := c.AddressDetails.value;
            !IsBlank(a.AddressLine1) && !IsBlank(a.CityTown) && !IsBlank(a.StateCounty)
            && !IsBlank(a.Country) && !IsBlank(a.Postcode))
  {
    if MatchesEmailPattern(c.EmailAddress) {
      EmailPatternNeedsAtAndDot(c.EmailAddress);
    }
  }

  /** Without an included address the result depends only on the name, the
      email address and the message. */
  lemma ValidationIgnoresRest(c: SubmitContactUsFormCommand, c': SubmitContactUsFormCommand)
    requires !AddressIncluded(c) && !AddressIncluded(c')
    requires c.FullName == c'.FullName && c.EmailAddress == c'.EmailAddress && c.Message == c'.Message
    ensures CommandErrors(c) == CommandErrors(c')
  {
  }

  /** The phone numbers never influence validation. */
  lemma ValidationIgnoresPhoneNumbers(c: SubmitContactUsFormCommand, phones: seq<string>)
    ensures CommandErrors(c.(PhoneNumbers := phones)) == CommandErrors(c)
  {
  }

  /** A default command reports name, email and message as required. */
  lemma DefaultCommandErrors()
    ensures CommandErrors(NewCommand(NO_COMMAND_INPUT)) == [
      ErrorViewModel("FullName", REQUIRED_FIELD),
      ErrorViewModel("EmailAddress", REQUIRED_FIELD),
      ErrorViewModel("Message", REQUIRED_FIELD)]
  {
  }

  /** A command without an address whose three top-level checks give
      `name`, `email` and `message` reports exactly those errors, in order. */
  lemma ErrorsWithoutAddress(c: SubmitContactUsFormCommand,
                             name: seq<ErrorViewModel>, email: seq<ErrorViewModel>, message: seq<ErrorViewModel>)
    requires !AddressIncluded(c)
    requires RequiredError("FullName", c.FullName) == name
    requires EmailErrors(c.EmailAddress) == email
    requires MessageErrors(c.Message) == message
    ensures CommandErrors(c) == name + email + message
  {
    CommandErrorsSplit(c);
    assert IncludedAddressErrors(c) == [];
  }

  /** The message of the apiModels test of the length limit. */
  const TOO_LONG_MESSAGE: string := seq(1001, _ => 'a')

  /** The apiModels test case of a complete command. */
  lemma CompleteCommandExample()
    ensures CommandErrors(NewCommand(CommandInput(Some("John Doe"), Some("john@example.com"), None, Some("Hello"), None, None))) == []
  {
    var c := NewCommand(CommandInput(Some("John Doe"), Some("john@example.com"), None, Some("Hello"), None, None));
    assert RequiredError("FullName", c.FullName) == [] by { assert !IsWhitespace("John Doe"[0]); }
    assert EmailErrors(c.EmailAddress) == [] by {
      EmailPatternAcceptsExample();
      assert !IsWhitespace("john@example.com"[0]);
    }
    assert MessageErrors(c.Message) == [] by {
      assert !IsWhitespace("Hello"[0]);
      TrimUntrimmed("Hello");
    }
    ErrorsWithoutAddress(c, [], [], []);
  }

  /** The apiModels test case of a malformed email address. */
  lemma MalformedEmailExample()
    ensures CommandErrors(NewCommand(CommandInput(Some("John Doe"), Some("invalid-email"), None, Some("Hello"), None, None)))
      == [ErrorViewModel("EmailAddress", INVALID_EMAIL)]
  {
    var c := NewCommand(CommandInput(Some("John Doe"), Some("invalid-email"), None, Some("Hello"), None, None));
    assert RequiredError("FullName", c.FullName) == [] by { assert !IsWhitespace("John Doe"[0]); }
    assert EmailErrors(c.EmailAddress) == [ErrorViewModel("EmailAddress", INVALID_EMAIL)] by {
      EmailPatternRejectsExample();
      assert !IsWhitespace("invalid-email"[0]);
    }
    assert MessageErrors(c.Message) == [] by {
      assert !IsWhitespace("Hello"[0]);
      TrimUntrimmed("Hello");
    }
    ErrorsWithoutAddress(c, [], [ErrorViewModel("EmailAddress", INVALID_EMAIL)], []);
  }

  /** The apiModels test case of a 1001-character message. */
  lemma LongMessageExample()
    ensures CommandErrors(NewCommand(CommandInput(Some("John Doe"), Some("john@example.com"), None, Some(TOO_LONG_MESSAGE), None, None)))
      == [ErrorViewModel("Message", MESSAGE_TOO_LONG)]
  {
    var c := NewCommand(CommandInput(Some("John Doe"), Some("john@example.com"), None, Some(TOO_LONG_MESSAGE), None, None));
    assert RequiredError("FullName", c.FullName) == [] by { assert !IsWhitespace("John Doe"[0]); }
    assert EmailErrors(c.EmailAddress) == [] by {
      EmailPatternAcceptsExample();
      assert !IsWhitespace("john@example.com"[0]);
    }
    assert MessageErrors(c.Message) == [ErrorViewModel("Message", MESSAGE_TOO_LONG)] by {
      assert |TOO_LONG_MESSAGE| == 1001;
      assert !IsWhitespace(TOO_LONG_MESSAGE[0]) && !IsWhitespace(TOO_LONG_MESSAGE[1000]);
      TrimUntrimmed(TOO_LONG_MESSAGE);
    }
    ErrorsWithoutAddress(c, [], [], [ErrorViewModel("Message", MESSAGE_TOO_LONG)]);
  }
}
