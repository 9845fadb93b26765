# AVAMAE website — a Dafny model of its form and data logic

The site is a React front end with three pages. This project models the
logic behind two of them, together with the API models both use:

- **API models** (`api_models.dfy`, module `ApiModels`). This covers the result
  envelope `BaseResult`, the error view model and its table of user messages,
  and the banner models `BannerViewModel` and `BannerItem`. It also covers the
  contact-form command `SubmitContactUsFormCommand`, its address block
  `AddressDetails`, their field-by-field validation and their JSON payloads.
  Every constructor in the source fills a missing or falsy property with a
  default (`data.X || ''`). Here that is an input record with one `Option` per
  property, and a constructor function that applies the default.
- **Contact page** (`contact_page.dfy`, module `ContactForm`). A class
  `ContactPage` holds the component's state: `formData`, the `errors`
  dictionary, `isSubmitting` and `submitStatus`. Its methods are the input
  handlers, the phone-number list operations, `validateForm` and
  `handleSubmit`.
- **Home page** (`home_page.dfy`, module `Home`). A class `HomePage` holds
  `carouselData`, `loading` and `error`. It has the banner fetch rule, with its
  fallback slide and error texts, and the render priority: spinner, then error
  screen, then carousel.
- Supporting modules: `Text` (`text.dfy`) has JavaScript's `trim`, the `\s`
  character class and the email pattern `/\S+@\S+\.\S+/`. `Seqs` (`seqs.dfy`)
  has `Array.prototype.filter` and `join`. `Wrappers` (`wrappers.dfy`) has
  `Option`.

Network requests are not modelled as I/O. Each request becomes a parameter
that says how it ended. For a submission that is `SubmitOutcome`: ok, not ok
with the body's `Message`, or an exception. For the banner request it is
`FetchOutcome`: not ok, an exception with its message, or the parsed view
model.

Whitespace is the full ECMAScript WhiteSpace and LineTerminator set, which is
what `trim` strips and what `\S` excludes. "Blank" means empty or whitespace
only, and `Text.BlankIffEmptyTrim` proves that this is the same as an empty
`trim()`.

## Model

| member | source | states |
|---|---|---|
| Wrappers.Option.GetOr | src/models/apiModels.js:14-15 | a present value is kept; an absent one gives the default |
| Seqs.Filter | src/models/apiModels.js:73 | the result keeps only elements satisfying the predicate, keeps every such element, and is no longer than the input |
| Seqs.FilterConcat | src/models/apiModels.js:73 | filtering a concatenation is the concatenation of the filtered parts (order is kept) |
| Seqs.FilterKeepsAll | src/pages/HomePage.js:37 | a list whose elements all pass is returned unchanged |
| Seqs.FilterIdempotent | src/models/apiModels.js:73 | filtering twice gives the same as filtering once |
| Seqs.FilterMultiplicity | src/models/apiModels.js:73 | each passing element keeps its number of occurrences; failing elements occur zero times |
| Seqs.Join | src/pages/HomePage.js:40 | one part joins to itself; the result always starts with the first part |
| Seqs.JoinSnoc | src/pages/HomePage.js:40 | appending a part appends the separator and that part |
| Text.IsWhitespace | src/models/apiModels.js:88 | the ECMAScript WhiteSpace and LineTerminator code points: the characters `trim` removes and `\s` matches, so `\S` is every other character |
| Text.TrimStart | src/models/apiModels.js:88 | the result is a suffix of the input that does not start with whitespace; everything removed is whitespace |
| Text.TrimEnd | src/models/apiModels.js:88 | the result is a prefix of the input that does not end with whitespace; everything removed is whitespace |
| Text.Trim | src/models/apiModels.js:112 | the trim is a slice of the input with only whitespace cut off before and after it; it is empty exactly when the string is all whitespace, and otherwise starts and ends with non-whitespace |
| Text.BlankIffEmptyTrim | src/models/apiModels.js:88 | `!s.trim()` (blank) holds exactly when the trim is empty |
| Text.IsBlank | src/models/apiModels.js:88 | `!s.trim()`: the string is empty or consists of whitespace only (its equivalence with an empty trim is `Text.BlankIffEmptyTrim`) |
| Text.HasContent | src/models/apiModels.js:73 | `phone => phone.trim()` as a filter callback: the trim is non-empty, that is, the string is not blank |
| Text.TrimUntrimmed | src/models/apiModels.js:112 | a string without whitespace at either end is its own trim |
| Text.TrimIdempotent | src/models/apiModels.js:112 | trimming twice gives the same as trimming once |
| Text.EmailPatternNeedsAtAndDot | src/models/apiModels.js:100 | a string the email pattern matches contains `@` and `.` and is not blank |
| Text.MatchesEmailPattern | src/models/apiModels.js:100 | `/\S+@\S+\.\S+/.test(s)`: somewhere in the string a non-whitespace character, `@`, one or more non-whitespace characters, `.` and a non-whitespace character follow one another |
| Text.EmailPatternUnanchored | src/models/apiModels.js:100 | the pattern is unanchored: text added before or after a match still matches |
| Text.EmailPatternAcceptsExample | src/models/apiModels.test.js:197-206 | `john@example.com` matches |
| Text.EmailPatternRejectsExample | src/models/apiModels.test.js:208-219 | `invalid-email` does not match |
| ApiModels.ErrorViewModel.GetUserMessage | src/models/apiModels.js:33-35 | a mapped code gives its table text, an unmapped non-empty code gives the code itself, an empty code gives "Validation error"; the text is never empty |
| ApiModels.NewErrorViewModel | src/models/apiModels.js:28-31 | given properties are kept and missing ones become empty |
| ApiModels.UserMessageExamples | src/models/apiModels.test.js:63-76 | the messages for REQUIRED_FIELD, an unknown code and the empty code |
| ApiModels.NewBannerItem | src/models/apiModels.js:47-51 | each text is the given one or empty |
| ApiModels.IsValidItem | src/pages/HomePage.js:37 | `item => item.hasValidData()` as a filter callback |
| ApiModels.NewBannerItemValidIff | src/models/apiModels.js:53-55 | a built item has valid data exactly when all three texts were given and are non-empty |
| ApiModels.BannerItem.HasValidData | src/models/apiModels.js:53-55 | all three texts are non-empty |
| ApiModels.NewBaseResult | src/models/apiModels.js:13-24 | success exactly when the status is "1"; errors reported exactly when a non-empty error list was given, and that list is kept |
| ApiModels.BaseResult.IsSuccess | src/models/apiModels.js:18-20 | the status is exactly the string "1" |
| ApiModels.BaseResult.HasErrors | src/models/apiModels.js:22-24 | the error list is non-empty |
| ApiModels.BannerViewModel.IsSuccess | src/models/apiModels.js:39-44 | the inherited `isSuccess` of the banner result |
| ApiModels.BannerViewModel.HasErrors | src/models/apiModels.js:39-44 | the inherited `hasErrors` of the banner result |
| ApiModels.NewBannerViewModel | src/models/apiModels.js:39-44 | one item per raw item, in the same order, and a missing list gives no items |
| ApiModels.NewAddressDetails | src/models/apiModels.js:129-136 | each of the six fields is the given one or empty |
| ApiModels.AddressToJson | src/models/apiModels.js:138-147 | the payload holds all six fields verbatim: building an address from it gives the same address back |
| ApiModels.RequiredError | src/models/apiModels.js:152-157 | a required check reports an error exactly when the value is blank |
| ApiModels.EmailErrors | src/models/apiModels.js:95-105 | the email rule: REQUIRED_FIELD when the address is blank, otherwise INVALID_EMAIL when the pattern does not match, otherwise no error; never more than one EmailAddress error |
| ApiModels.MessageErrors | src/models/apiModels.js:107-117 | the message rule: REQUIRED_FIELD when the message is blank, otherwise MESSAGE_TOO_LONG when its trim is longer than 1000 characters, otherwise no error |
| ApiModels.AddressErrors | src/models/apiModels.js:149-188 | the errors of `AddressDetails.validate()`: a REQUIRED_FIELD error for each blank one of AddressLine1, CityTown, StateCounty, Country, Postcode, in that order |
| ApiModels.ValidateAddress | src/models/apiModels.js:149-188 | returns the address errors: REQUIRED_FIELD for each blank value of AddressLine1, CityTown, StateCounty, Country, Postcode, in that order |
| ApiModels.AddressFieldCodes | src/models/apiModels.js:149-188 | per field: REQUIRED_FIELD exactly when one of the five required fields is blank; AddressLine2 is never checked |
| ApiModels.AddressErrorsRanked | src/models/apiModels.js:149-188 | address errors come out in the fixed field order, each field at most once |
| ApiModels.DefaultAddressErrors | src/models/apiModels.test.js:280-290 | a default address fails all five required checks, in order |
| ApiModels.NewCommand | src/models/apiModels.js:60-67 | each field is the given one or its default; an address block is present exactly when one was given |
| ApiModels.AddressIncluded | src/models/apiModels.js:78 | `this.bIncludeAddressDetails && this.AddressDetails`: the flag is on and an address block is present (the same test guards the address errors at line 119) |
| ApiModels.IsPayloadFor | src/models/apiModels.js:69-83 | what `toJSON` returns: the four scalar fields copied untrimmed, the non-blank phone numbers in their order, and the address JSON exactly when the address is included |
| ApiModels.CommandToJson | src/models/apiModels.js:69-83 | the payload copies the four scalar fields untrimmed, keeps the non-blank phone numbers in order, and has the address JSON exactly when the flag is on and an address is present |
| ApiModels.PayloadUnique | src/models/apiModels.js:69-83 | the payload description allows exactly one payload per command |
| ApiModels.PayloadPhoneNumbers | src/models/apiModels.js:73 | payload phone numbers are all non-blank, each non-blank entry keeps its number of occurrences, blank entries occur zero times, and filtering them again changes nothing |
| ApiModels.PayloadExample | src/models/apiModels.test.js:159-175 | a blank phone entry is dropped and no address appears while the flag is off |
| ApiModels.Validate | src/models/apiModels.js:85-125 | returns the command's errors: name, email and message checks, then the address errors only when the flag is on and an address is present |
| ApiModels.CommandErrors | src/models/apiModels.js:85-125 | the errors of `validate()`: the name check, the email check (required, then the pattern), the message check (required, then the 1000-character limit on the trim), then the address errors when the flag is on and an address is present |
| ApiModels.CodesForRequired | src/models/apiModels.js:88-93 | the name check reports REQUIRED_FIELD for its own field exactly when blank, and nothing for any other field |
| ApiModels.CodesForEmail | src/models/apiModels.js:95-105 | email: REQUIRED_FIELD when blank, otherwise INVALID_EMAIL when the pattern fails, otherwise nothing |
| ApiModels.CodesForMessage | src/models/apiModels.js:107-117 | message: REQUIRED_FIELD when blank, otherwise MESSAGE_TOO_LONG when the trim exceeds 1000 characters, otherwise nothing |
| ApiModels.ValidateTopLevelCodes | src/models/apiModels.js:85-117 | each of FullName, EmailAddress and Message gets at most one code (as above); PhoneNumbers never gets one |
| ApiModels.EmailCodes | src/models/apiModels.js:95-105 | the email field gets REQUIRED_FIELD when blank, otherwise INVALID_EMAIL when the pattern fails, otherwise no code |
| ApiModels.ValidateAddressCodes | src/models/apiModels.js:119-122 | an address field is reported only when the flag is on and an address is present, and then with REQUIRED_FIELD exactly when it is a blank required field |
| ApiModels.ValidateOrder | src/models/apiModels.js:85-125 | errors follow the order FullName, EmailAddress, Message, AddressLine1, CityTown, StateCounty, Country, Postcode, with no field twice |
| ApiModels.ValidIff | src/models/apiModels.js:85-125 | a command has no errors exactly when the name is not blank, the email matches, the message is not blank and trims to at most 1000 characters, and (with an included address) its five required fields are not blank |
| ApiModels.ValidationIgnoresRest | src/models/apiModels.js:85-125 | without an included address, the errors depend only on name, email and message |
| ApiModels.ValidationIgnoresPhoneNumbers | src/models/apiModels.js:85-125 | phone numbers never change the errors |
| ApiModels.DefaultCommandErrors | src/models/apiModels.test.js:188-195 | a default command reports name, email and message as required |
| ApiModels.CompleteCommandExample | src/models/apiModels.test.js:197-206 | a complete command without an address is valid |
| ApiModels.MalformedEmailExample | src/models/apiModels.test.js:208-219 | a malformed email address gives INVALID_EMAIL and nothing else |
| ApiModels.LongMessageExample | src/models/apiModels.test.js:221-233 | a 1001-character message gives MESSAGE_TOO_LONG and nothing else |
| ContactForm.ServerErrorText | src/pages/ContactPage.js:122 | the server's message when it is non-empty, otherwise the default submit text; never empty |
| ContactForm.CommandOf | src/pages/ContactPage.js:66 | `createContactUsCommand(formData)`: the command carries the form's values unchanged, with its address block |
| ContactForm.InitialFormErrors | src/pages/ContactPage.js:6-20 | the initial (and reset) form fails exactly the three top-level required checks |
| ContactForm.ErrorMap | src/pages/ContactPage.js:69-72 | the dictionary `forEach` builds: each error in order sets its field name to its user message |
| ContactForm.ErrorMapKeys | src/pages/ContactPage.js:69-72 | the error dictionary's keys are exactly the reported field names |
| ContactForm.ErrorMapLastWins | src/pages/ContactPage.js:69-72 | each name maps to the message of the last error reported for it |
| ContactForm.ErrorMapCodes | src/pages/ContactPage.js:69-72 | a field reported at most once has an entry exactly when reported, holding its code's message |
| ContactForm.FieldShowsCode | src/pages/ContactPage.js:69-72 | a field reported once with a code has an entry holding that code's message |
| ContactForm.FieldShowsNothing | src/pages/ContactPage.js:69-72 | a field never reported has no entry |
| ContactForm.EmailTextOfCodes | src/pages/ContactPage.js:69-72 | the email entry that the email codes produce: present exactly when the pattern fails, with the required text for a blank address and the invalid-address text otherwise |
| ContactForm.EmailErrorText | src/pages/ContactPage.js:64-76 | after validation the email field has a text exactly when the pattern fails: the required text if blank, otherwise the invalid-address text |
| ContactForm.RemoveAt | src/pages/ContactPage.js:59 | drops the entry at the index and keeps the others in order; an index outside the list drops nothing |
| ContactForm.CollectErrorTexts | src/pages/ContactPage.js:69-72 | the loop builds exactly the dictionary in which each error, in order, sets its field name to its user message |
| ContactForm.ContactPage.constructor | src/pages/ContactPage.js:6-24 | initial form, no errors, not submitting, no status |
| ContactForm.ContactPage.HandleInputChange | src/pages/ContactPage.js:26-42 | sets only the named field; clears that field's error text if it had a non-empty one; clears the status only for the address checkbox |
| ContactForm.ContactPage.HandleAddressChange | src/pages/ContactPage.js:243-360 | sets exactly one address field; nothing else changes |
| ContactForm.ContactPage.HandlePhoneChange | src/pages/ContactPage.js:44-48 | replaces exactly one entry; the list keeps its length and its other entries |
| ContactForm.ContactPage.AddPhoneNumber | src/pages/ContactPage.js:50-55 | appends one empty entry |
| ContactForm.ContactPage.RemovePhoneNumber | src/pages/ContactPage.js:57-62 | removes the entry unless it is the only one, so at least one entry always remains |
| ContactForm.ContactPage.ValidateForm | src/pages/ContactPage.js:64-76 | error texts become the dictionary of the command's validation errors; returns true exactly when there are none |
| ContactForm.ContactPage.HandleSubmit | src/pages/ContactPage.js:78-130 | an invalid form is not sent and only the error texts change; a valid form is sent as its command's payload, then the outcome decides: success resets the form and sets `'success'`; otherwise `'error'` with the form kept and a single `submit` text (server message or default, or the network text); submitting ends in every case |
| ContactForm.ContactPage.SendForm | src/pages/ContactPage.js:85-129 | the sent payload is the command's payload, and the state afterwards is as described for `HandleSubmit` |
| ContactForm.ContactPage.SentState | src/pages/ContactPage.js:101-129 | the state after a sent form: not submitting; on success status "success", the initial form and no errors (the empty dictionary validation left); on a not-ok response status "error", the form kept and only the `submit` error with the body's `Message` or the default text; on an exception the same with the network-error text |
| Home.FallbackItemIsValid | src/pages/HomePage.js:48-54 | the fallback slide has valid data |
| Home.ErrorCodes | src/pages/HomePage.js:40 | one code per error, in order, with a missing code as the empty string |
| Home.HasBannerItems | src/pages/HomePage.js:35 | the response is used as it is: a successful result with at least one item, whatever its errors say |
| Home.FetchFailure | src/pages/HomePage.js:26-44 | no error exactly when the result succeeded and has at least one item, even if it also carries errors |
| Home.FailureMessages | src/pages/HomePage.js:26-44 | the error texts: a fixed one for a response that is not ok, the thrown message as is, "API returned errors: " followed by all codes joined with ", " (so one code appears alone after the prefix), or the fixed no-data text |
| Home.TwoCodesMessage | src/pages/HomePage.js:39-41 | two codes are joined with ", " after the prefix |
| Home.HomePage.constructor | src/pages/HomePage.js:13-15 | no slides, loading, no error |
| Home.HomePage.ErrorShown | src/pages/HomePage.js:69 | `if (error)`: an error text is set and is non-empty |
| Home.HomePage.Render | src/pages/HomePage.js:60-79 | spinner exactly while loading; otherwise the error screen when the error text is non-empty, otherwise the carousel |
| Home.HomePage.FetchCarouselData | src/pages/HomePage.js:21-58 | loading ends and the spinner goes away; usable items replace the slides (invalid ones dropped) and leave the error as it was; any failure sets the error text and shows the fallback slide alone; an existing error is never cleared, so the error screen stays up even after a successful retry ("Try Again", line 74); every slide has valid data |
| Home.HomePage.FetchCarouselDataResettingError | src/pages/HomePage.js:21-58 | corrected fetch: the error is exactly the failure of this request, so success shows the carousel of valid items |
| Home.RetryAfterFailure | src/pages/HomePage.js:74 | as written: a failed load, then a successful "Try Again", still shows the error screen |
| Home.RetryAfterFailureResettingError | src/pages/HomePage.js:74 | corrected: the same sequence ends on the carousel |

## Left out

- Network I/O, `async`/`await`, `fetch`, `response.json()` and `JSON.stringify` are not modelled. Each request is a parameter saying how it ended. A not-ok response whose body is not JSON counts as a `NetworkError` (the `catch` branch).
- Rendering is not modelled: JSX, CSS classes, Swiper, client-side navigation, the header menu, the footer and the about page's `scrollTo`. Only the home page's choice between spinner, error screen and carousel is modelled.
- `ContactUsSubmitResult` is not modelled separately: it adds nothing to `BaseResult`.
- The `create*` helpers are not modelled separately: each only calls a constructor. `createContactUsCommand(formData)` is `ContactForm.CommandOf`.
- `INVALID_PHONE` is present in the message table, but nothing in the source reports it.
- Constructor inputs are modelled with `Option`. Any falsy JavaScript value (`undefined`, `null`, `0`, `false`, `''`) is `None` or the empty string. No non-string value is carried into a string field.
- ApiModels.NewBaseResult: `Status` is a string, so a numeric status `1` (which fails `=== "1"`) cannot be expressed.
- ApiModels.ErrorViewModel.GetUserMessage: does not model lookups of codes that hit `Object.prototype` members, such as `"toString"`, because codes are modelled as table keys only.
- ApiModels.BannerItem.HasValidData: is a boolean in the model. The source returns the last truthy string, which is used only for its truthiness.
- ApiModels.CodesForMessage: counts message length in characters, not UTF-16 code units. A character outside the Basic Multilingual Plane counts 2 towards the 1000-character limit in the source and 1 here.
- ContactForm.ContactPage.HandleInputChange: covers only the four inputs wired to it (FullName, EmailAddress, Message and the address checkbox). It does not cover an arbitrary `name` attribute.
- ContactForm.ContactPage.HandlePhoneChange: requires an existing index. The page only passes indices of rendered entries; an index past the end would make a sparse array in the source.
- React state updates are applied immediately. Batching, stale closures and re-render timing are not modelled.
- ContactForm.ContactPage.HandleSubmit: the intermediate in-flight state (`isSubmitting` true, status `null`) is not visible to callers. Only the state after the request is stated. A second submit while one is in flight is not modelled.
- Home.HomePage.FetchCarouselData: failures the source would raise while reading the body (for example a `null` item in `Details`) are part of `Thrown` with their message. Mount-time fetching (`useEffect`) is the caller constructing the page and then calling the fetch.

## Findings

| source | as written | input that shows it | evidently intended | confidence | as-written member | corrected member |
|---|---|---|---|---|---|---|
| src/pages/HomePage.js:21-58 | `fetchCarouselData` never resets `error`, so after one failure the page renders the error screen forever | a response that is not ok, then "Try Again" with a successful response holding one complete item | a successful retry shows the carousel (the error is cleared when a request starts) | medium, not executed | Home.RetryAfterFailure | Home.RetryAfterFailureResettingError |
