/** The state of the contact page: the form data, the per-field error
    texts, the submission status and the in-flight flag, and the handlers
    that change them. The network request of a submission is an abstract
    outcome. */
module ContactForm {
  import opened Wrappers
  import opened Text
  import opened ApiModels

  /** The component's `formData`; its address block is always present. */
  datatype FormData = FormData(
    FullName: string, EmailAddress: string, PhoneNumbers: seq<string>,
    Message: string, bIncludeAddressDetails: bool, AddressDetails: AddressDetails)

  /** The form on first render and after a successful submission: one empty
      phone entry, the address flag off, every text empty. */
  const INITIAL_FORM_DATA := FormData("", "", [""], "", false, AddressDetails("", "", "", "", "", ""))

  /** `'success'` and `'error'`; `None` is the source's `null`. */
  datatype SubmitStatus = Succeeded | Failed

  /** The three text inputs wired to `handleInputChange`. */
  datatype TextInput = FullNameInput | EmailAddressInput | MessageInput

  /** A change event of an input wired to `handleInputChange`: a text input
      delivers its `value`, the address checkbox its `checked`. */
  datatype InputChange = TextChange(input: TextInput, value: string) | CheckboxChange(checked: bool)

  /** The `name` attribute of the input the event comes from. */
  function InputName(change: InputChange): string {
    match change
    case TextChange(FullNameInput, _) => "FullName"
    case TextChange(EmailAddressInput, _) => "EmailAddress"
    case TextChange(MessageInput, _) => "Message"
    case CheckboxChange(_) => "bIncludeAddressDetails"
  }

  /** The six address inputs, which have their own inline handlers. */
  datatype AddressField = AddressLine1Field | AddressLine2Field | CityTownField | StateCountyField | PostcodeField | CountryField

  /** What the submission request came back with: an ok response, a response
      that is not ok with the `Message` of its JSON body, or an exception
      (the request failed or the error body could not be read). */
  datatype SubmitOutcome = Ok | NotOk(serverMessage: Option<string>) | NetworkError

  const SUBMIT_ERROR_KEY := "submit"
  const DEFAULT_SUBMIT_ERROR := "Failed to submit form. Please try again."
  const NETWORK_ERROR := "Network error. Please check your connection and try again."

  /** `errorData.Message || 'Failed to submit form. Please try again.'` */
  function ServerErrorText(serverMessage: Option<string>): (r: string)
    ensures r != ""
    ensures serverMessage.Some? && serverMessage.value != "" ==> r == serverMessage.value
    ensures serverMessage.None? || serverMessage.value == "" ==> r == DEFAULT_SUBMIT_ERROR
  {
    if serverMessage.Some? && serverMessage.value != "" then serverMessage.value else DEFAULT_SUBMIT_ERROR
  }

  /** The form data object as constructor input of the command. */
  function CommandInputOf(fd: FormData): CommandInput {
    var a := fd.AddressDetails;
    CommandInput(
      Some(fd.FullName), Some(fd.EmailAddress), Some(fd.PhoneNumbers), Some(fd.Message),
      Some(fd.bIncludeAddressDetails),
      Some(AddressInput(Some(a.AddressLine1), Some(a.AddressLine2), Some(a.CityTown),
                        Some(a.StateCounty), Some(a.Postcode), Some(a.Country))))
  }

  /** `createContactUsCommand(formData)`: the command carries the form data
      unchanged, with its address block. */
  function CommandOf(fd: FormData): (c: SubmitContactUsFormCommand)
    ensures c == SubmitContactUsFormCommand(
      fd.FullName, fd.EmailAddress, fd.PhoneNumbers, fd.Message, fd.bIncludeAddressDetails, Some(fd.AddressDetails))
  {
    NewCommand(CommandInputOf(fd))
  }

  /** The initial (and reset) form fails the three top-level checks only. */
  lemma InitialFormErrors()
    ensures CommandErrors(CommandOf(INITIAL_FORM_DATA)) == [
      ErrorViewModel("FullName", REQUIRED_FIELD),
      ErrorViewModel("EmailAddress", REQUIRED_FIELD),
      ErrorViewModel("Message", REQUIRED_FIELD)]
  {
    var c := CommandOf(INITIAL_FORM_DATA);
    assert !AddressIncluded(c);
    assert !MatchesEmailPattern("");
    ErrorsWithoutAddress(c, [ErrorViewModel("FullName", REQUIRED_FIELD)],
      [ErrorViewModel("EmailAddress", REQUIRED_FIELD)], [ErrorViewModel("Message", REQUIRED_FIELD)]);
  }

  /** The `newErrors` dictionary that `validateForm` fills: each error's
      field name maps to its user message, applied in order, so that a later
      error for a name overwrites an earlier one. */
  function ErrorMap(errors: seq<ErrorViewModel>): map<string, string> {
    if errors == [] then map[]
    else
      var last := errors[|errors| - 1];
      ErrorMap(errors[..|errors| - 1])[last.FieldName := last.GetUserMessage()]
  }

  /** The dictionary's keys are exactly the reported field names. */
  lemma {:induction false} ErrorMapKeys(errors: seq<ErrorViewModel>)
    ensures ErrorMap(errors).Keys == set i | 0 <= i < |errors| :: errors[i].FieldName
  {
    if errors != [] {
      var init := errors[..|errors| - 1];
      ErrorMapKeys(init);
      assert forall i :: 0 <= i < |init| ==> init[i] == errors[i];
      assert (set i | 0 <= i < |errors| :: errors[i].FieldName)
          == (set i | 0 <= i < |init| :: init[i].FieldName) + {errors[|errors| - 1].FieldName};
    }
  }

  /** The value for a name is the message of the last error with that name. */
  lemma {:induction false} ErrorMapLastWins(errors: seq<ErrorViewModel>, j: nat)
    requires j < |errors|
    requires forall i :: j < i < |errors| ==> errors[i].FieldName != errors[j].FieldName
    ensures errors[j].FieldName in ErrorMap(errors)
    ensures ErrorMap(errors)[errors[j].FieldName] == errors[j].GetUserMessage()
  {
    if j < |errors| - 1 {
      var init := errors[..|errors| - 1];
      ErrorMapLastWins(init, j);
    }
  }

  /** For a field reported at most once, the dictionary holds a text for it
      exactly when it was reported, and that text is its code's message. */
  lemma {:induction false} ErrorMapCodes(errors: seq<ErrorViewModel>, f: string)
    requires |CodesFor(errors, f)| <= 1
    ensures f in ErrorMap(errors) <==> CodesFor(errors, f) != []
    ensures CodesFor(errors, f) != [] ==>
      ErrorMap(errors)[f] == ErrorViewModel(f, CodesFor(errors, f)[0]).GetUserMessage()
  {
    if errors != [] {
      var init, last := errors[..|errors| - 1], errors[|errors| - 1];
      assert errors == init + [last];
      CodesForConcat(init, [last], f);
      assert [last][1..] == [];
      ErrorMapCodes(init, f);
    }
  }

  /** A field reported once with `code` shows that code's message. */
  lemma FieldShowsCode(errors: seq<ErrorViewModel>, f: string, code: string)
    requires CodesFor(errors, f) == [code]
    ensures f in ErrorMap(errors) && ErrorMap(errors)[f] == ErrorViewModel(f, code).GetUserMessage()
  {
    ErrorMapCodes(errors, f);
  }

  /** A field never reported has no text. */
  lemma FieldShowsNothing(errors: seq<ErrorViewModel>, f: string)
    requires CodesFor(errors, f) == []
    ensures f !in ErrorMap(errors)
  {
    ErrorMapCodes(errors, f);
  }

  /** The email text that a list of errors produces, from the codes it
      reports for the email field. */
  lemma EmailTextOfCodes(errors: seq<ErrorViewModel>, email: string)
    requires CodesFor(errors, "EmailAddress") ==
      if IsBlank(email) then [REQUIRED_FIELD]
      else if !MatchesEmailPattern(email) then [INVALID_EMAIL] else []
    ensures var m := ErrorMap(errors);
      && ("EmailAddress" in m <==> !MatchesEmailPattern(email))
      && ("EmailAddress" in m ==>
            m["EmailAddress"] == if IsBlank(email) then "This field is required"
                                 else "Please enter a valid email address")
  {
    if IsBlank(email) {
      assert !MatchesEmailPattern(email) by {
        if MatchesEmailPattern(email) {
          EmailPatternNeedsAtAndDot(email);
        }
      }
      FieldShowsCode(errors, "EmailAddress", REQUIRED_FIELD);
      assert ErrorViewModel("EmailAddress", REQUIRED_FIELD).GetUserMessage() == "This field is required";
    } else if !MatchesEmailPattern(email) {
      FieldShowsCode(errors, "EmailAddress", INVALID_EMAIL);
      assert ErrorViewModel("EmailAddress", INVALID_EMAIL).GetUserMessage() == "Please enter a valid email address";
    } else {
      FieldShowsNothing(errors, "EmailAddress");
    }
  }

  /** The text a validated command shows for its email field: one exactly
      when the address fails the pattern, the required-field text for a
      blank address and the invalid-address text otherwise. */
  lemma EmailErrorText(c: SubmitContactUsFormCommand)
    ensures var m := ErrorMap(CommandErrors(c));
      && ("EmailAddress" in m <==> !MatchesEmailPattern(c.EmailAddress))
      && ("EmailAddress" in m ==>
            m["EmailAddress"] == if IsBlank(c.EmailAddress) then "This field is required"
                                 else "Please enter a valid email address")
  {
    EmailCodes(c);
    EmailTextOfCodes(CommandErrors(c), c.EmailAddress);
  }

  /** `filter((_, i) => i !== index)`: the entry at `index` is dropped and
      the others keep their order; an index outside the list drops nothing. */
  function RemoveAt(s: seq<string>, index: nat): (r: seq<string>)
    ensures index < |s| ==> |r| == |s| - 1
    ensures index < |s| ==> forall k :: 0 <= k < |r| ==> r[k] == if k < index then s[k] else s[k + 1]
    ensures index >= |s| ==> r == s
  {
    if index < |s| then s[..index] + s[index + 1..] else s
  }

  /** The `forEach` of `validateForm`: starting from an empty dictionary,
      each error in turn sets its field name to its user message. */
  method CollectErrorTexts(validationErrors: seq<ErrorViewModel>) returns (newErrors: map<string, string>)
    ensures newErrors == ErrorMap(validationErrors)
  {
    newErrors := map[];
    var i := 0;
    while i < |validationErrors|
      invariant 0 <= i <= |validationErrors|
      invariant newErrors == ErrorMap(validationErrors[..i])
    {
      var error := validationErrors[i];
      ghost var upTo := validationErrors[..i + 1];
      assert upTo[..|upTo| - 1] == validationErrors[..i] && upTo[|upTo| - 1] == error;
      newErrors := newErrors[error.FieldName := error.GetUserMessage()];
      i := i + 1;
    }
    assert validationErrors[..i] == validationErrors;
  }

  class ContactPage {
    var formData: FormData
    var errors: map<string, string>
    var isSubmitting: bool
    var submitStatus: Option<SubmitStatus>

    /** The form always shows at least one phone entry. */
    predicate Valid()
      reads this
    {
      |formData.PhoneNumbers| >= 1
    }

    constructor ()
      ensures Valid()
      ensures formData == INITIAL_FORM_DATA && errors == map[] && !isSubmitting && submitStatus == None
    {
      formData := INITIAL_FORM_DATA;
      errors := map[];
      isSubmitting := false;
      submitStatus := None;
    }

    /** `handleInputChange`: sets the named field, clears that field's error
        text when it had one, and clears the status when the address
        checkbox changes. */
    method HandleInputChange(change: InputChange)
      requires Valid()
      modifies this
      ensures Valid()
      ensures formData == match change
        case TextChange(FullNameInput, v) => old(formData).(FullName := v)
        case TextChange(EmailAddressInput, v) => old(formData).(EmailAddress := v)
        case TextChange(MessageInput, v) => old(formData).(Message := v)
        case CheckboxChange(b) => old(formData).(bIncludeAddressDetails := b)
      ensures var name := InputName(change);
        errors == if name in old(errors) && old(errors)[name] != "" then old(errors)[name := ""] else old(errors)
      ensures submitStatus == if InputName(change) == "bIncludeAddressDetails" then None else old(submitStatus)
      ensures isSubmitting == old(isSubmitting)
    {
      var name := InputName(change);
      match change {
        case TextChange(FullNameInput, v) => formData := formData.(FullName := v);
        case TextChange(EmailAddressInput, v) => formData := formData.(EmailAddress := v);
        case TextChange(MessageInput, v) => formData := formData.(Message := v);
        case CheckboxChange(b) => formData := formData.(bIncludeAddressDetails := b);
      }
      if name in errors && errors[name] != "" {
        errors := errors[name := ""];
      }
      if name == "bIncludeAddressDetails" {
        submitStatus := None;
      }
    }

    /** The inline handlers of the address inputs: set one address field,
        nothing else. */
    method HandleAddressChange(field: AddressField, value: string)
      requires Valid()
      modifies this`formData
      ensures Valid()
      ensures var a := old(formData).AddressDetails;
        formData == old(formData).(AddressDetails := match field
          case AddressLine1Field => a.(AddressLine1 := value)
          case AddressLine2Field => a.(AddressLine2 := value)
          case CityTownField => a.(CityTown := value)
          case StateCountyField => a.(StateCounty := value)
          case PostcodeField => a.(Postcode := value)
          case CountryField => a.(Country := value))
    {
      var a := formData.AddressDetails;
      var a' := match field
        case AddressLine1Field => a.(AddressLine1 := value)
        case AddressLine2Field => a.(AddressLine2 := value)
        case CityTownField => a.(CityTown := value)
        case StateCountyField => a.(StateCounty := value)
        case PostcodeField => a.(Postcode := value)
        case CountryField => a.(Country := value);
      formData := formData.(AddressDetails := a');
    }

    /** `handlePhoneChange(index, value)`: entry `index` becomes `value`. */
    method HandlePhoneChange(index: nat, value: string)
      requires Valid()
      requires index < |formData.PhoneNumbers|
      modifies this`formData
      ensures Valid()
      ensures formData == old(formData).(PhoneNumbers := old(formData.PhoneNumbers)[index := value])
      ensures |formData.PhoneNumbers| == |old(formData.PhoneNumbers)|
      ensures forall k :: 0 <= k < |formData.PhoneNumbers| && k != index ==>
        formData.PhoneNumbers[k] == old(formData.PhoneNumbers)[k]
    {
      var newPhoneNumbers := formData.PhoneNumbers[index := value];
      formData := formData.(PhoneNumbers := newPhoneNumbers);
    }

    /** `addPhoneNumber`: one empty entry at the end. */
    method AddPhoneNumber()
      requires Valid()
      modifies this`formData
      ensures Valid()
      ensures formData == old(formData).(PhoneNumbers := old(formData.PhoneNumbers) + [""])
    {
      formData := formData.(PhoneNumbers := formData.PhoneNumbers + [""]);
    }

    /** `removePhoneNumber(index)`: drops entry `index` unless it is the only one. */
    method RemovePhoneNumber(index: nat)
      requires Valid()
      modifies this`formData
      ensures Valid()
      ensures formData == old(formData).(PhoneNumbers :=
        if |old(formData.PhoneNumbers)| > 1 then RemoveAt(old(formData.PhoneNumbers), index)
        else old(formData.PhoneNumbers))
    {
      if |formData.PhoneNumbers| > 1 {
        var newPhoneNumbers := RemoveAt(formData.PhoneNumbers, index);
        formData := formData.(PhoneNumbers := newPhoneNumbers);
      }
    }

    /** `validateForm`: replaces the error texts with those of the command's
        validation and reports whether there were none. */
    method ValidateForm() returns (ok: bool)
      modifies this`errors
      ensures errors == ErrorMap(CommandErrors(CommandOf(formData)))
      ensures ok <==> CommandErrors(CommandOf(formData)) == []
    {
      var contactCommand := CommandOf(formData);
      var validationErrors := Validate(contactCommand);
      var newErrors := CollectErrorTexts(validationErrors);
      errors := newErrors;
      ok := |validationErrors| == 0;
    }

    /** `handleSubmit`. An invalid form is not sent and only its error texts
        change. A valid form is sent as its command's payload, which is
        returned, and the state then reflects the outcome (`SendForm`). */
    method HandleSubmit(outcome: SubmitOutcome) returns (sent: Option<ContactPayload>)
      requires Valid()
      modifies this
      ensures Valid()
      ensures var command := CommandOf(old(formData));
        CommandErrors(command) != [] ==>
          && sent == None
          && errors == ErrorMap(CommandErrors(command))
          && formData == old(formData)
          && isSubmitting == old(isSubmitting)
          && submitStatus == old(submitStatus)
      ensures var command := CommandOf(old(formData));
        CommandErrors(command) == [] ==>
          && sent.Some? && IsPayloadFor(command, sent.value)
          && SentState(outcome, old(formData))
    {
      var valid := ValidateForm();
      if !valid {
        return None;
      }
      var payload := SendForm(outcome);
      sent := Some(payload);
    }

    /** The state after a sent form's request came back with `outcome`: no
        longer submitting; on success the form is reset, otherwise the status
        is `'error'` and the only error text is the submission's. */
    ghost predicate SentState(outcome: SubmitOutcome, sentForm: FormData)
      reads this
    {
      && !isSubmitting
      && match outcome
         case Ok =>
           submitStatus == Some(Succeeded) && formData == INITIAL_FORM_DATA && errors == map[]
         case NotOk(m) =>
           submitStatus == Some(Failed) && formData == sentForm
           && errors == map[SUBMIT_ERROR_KEY := ServerErrorText(m)]
         case NetworkError =>
           submitStatus == Some(Failed) && formData == sentForm
           && errors == map[SUBMIT_ERROR_KEY := NETWORK_ERROR]
    }

    /** The part of `handleSubmit` after validation passed: build the payload,
        send it, and record the outcome. */
    method SendForm(outcome: SubmitOutcome) returns (payload: ContactPayload)
      requires Valid()
      requires errors == map[]
      modifies this
      ensures Valid()
      ensures IsPayloadFor(CommandOf(old(formData)), payload)
      ensures SentState(outcome, old(formData))
    {
      isSubmitting := true;
      submitStatus := None;
      var contactCommand := CommandOf(formData);
      payload := CommandToJson(contactCommand);
      match outcome {
        case Ok =>
          submitStatus := Some(Succeeded);
          formData := INITIAL_FORM_DATA;
        case NotOk(m) =>
          submitStatus := Some(Failed);
          errors := map[SUBMIT_ERROR_KEY := ServerErrorText(m)];
        case NetworkError =>
          submitStatus := Some(Failed);
          errors := map[SUBMIT_ERROR_KEY := NETWORK_ERROR];
      }
      isSubmitting := false;
    }
  }
}
