# Form screens of a React Native record manager

This project models the record-management logic behind four screens of a
React Native app and proves properties about that model.

- **Tutorial manager** (`Tutorials`). A form draft with name, description,
  duration, type and posting date, plus the key and record being edited.
  - Five validation rules set five error texts.
  - `hasChanges` is a dirty check against an empty form or against the
    record being edited.
  - Saving creates or updates a child of `tutoriais`, depending on whether
    a key is set.
  - The cancel protocol either leaves straight away or asks first.
  - The realtime list is replaced on every snapshot.
  - The screen switches between list mode and form mode.
- **Comment manager** (`CrudApi`).
  - A validator builds an error map from three checks: field lengths, a
    rating that must parse as an integer in [1, 5], and an image-URL regular
    expression.
  - Submitting sends a `POST` or a `PUT`.
  - Deleting takes two steps: the id is kept aside while a modal asks for
    confirmation.
- **Project form** (`Projects`). Four rules, one of them across two fields
  (the start date must not be after the end date). A valid submit hands the
  project on and resets the form. Validation sets errors but never clears
  them; editing a field clears its own error.
- **Login** (`Login`). The email check is a regular expression on the
  lower-cased address. An invalid address blocks every authentication call.
  A toggle switches between signing in and signing up.

Shared modules:

- `JsText` holds the JavaScript string operations the screens use:
  - `trim` and the `\s` class, with the ECMAScript white-space set;
  - `toLowerCase`;
  - `toString`, `padStart(2, '0')`, `split` and `parseInt`.
- `Dates` holds the calendar day of a `Date` (or the Invalid Date):
  - `formatDate`;
  - the reading of `dd/mm/yyyy` text back into a date;
  - the `>` comparison.

Each screen whose state the source updates in place is a class. Its fields
are the screen's `useState` variables and its methods are the handlers.
The rules themselves are functions on values, and the methods are proved
against those functions. Whatever the outside world answers is a parameter
of the method that asks:

- the realtime database and its snapshots;
- the HTTP endpoint;
- the authentication service and the current user;
- the confirmation dialogs;
- the current date.

Among the results:

- `formatDate` text reads back as the same date for the Invalid Date and
  for every calendar date outside the years 0–99, negative years included.
  So editing a record stored with such a date shows no changes. (The
  `Date` constructor reads years 0–99 as 1900 plus the year.)
- A comment can only be submitted with a rating in [1, 5], so the clamp
  before sending never changes it.
- The email check accepts exactly the addresses of its regular expression,
  whatever their letter case.
- Project validation is idempotent and never clears an error.

## Model

| member | source | states |
|---|---|---|
| JsText.TrimStartCutsSpace | src/components/Tutorials.js:139 | `trimStart` keeps a suffix of its input, removes only white space, and stops at the first other character |
| JsText.TrimEndCutsSpace | src/components/Tutorials.js:139 | `trimEnd` keeps a prefix of its input, removes only white space, and stops at the last other character |
| JsText.TrimIsStripped | src/components/Projects.js:62 | `trim` leaves a slice of its input after cutting only white space from both ends; what remains neither starts nor ends with white space; it is empty exactly when the input is all white space |
| JsText.ToLower | src/components/Login.js:15 | `toLowerCase` keeps the length, leaves no letter `A`–`Z`, and changes a character only by mapping an upper-case letter to its lower-case one |
| JsText.NatToString | src/components/Tutorials.js:11 | `toString` of a non-negative integer is a non-empty run of decimal digits whose value is the integer; it has one digit exactly below 10 and two digits from 10 to 99 |
| JsText.PadStart2 | src/components/Tutorials.js:11 | `padStart(2, '0')` gives at least two characters, ends with the input and pads only with `0` |
| JsText.PadStart2OfSmall | src/components/Tutorials.js:11 | a number below 100, written and padded, is exactly two digits that read back as the number |
| JsText.DigitPrefix | src/components/crudapi.js:60 | the digits `parseInt` reads: the longest run of digits at the front of the text |
| JsText.IntToString | src/components/Tutorials.js:11 | `toString` of an integer is its decimal digits, with a leading `-` when it is negative, and those digits read as its magnitude |
| JsText.ParseIntIgnoresTail | src/components/crudapi.js:60 | `parseInt` reads the leading decimal digits and ignores everything from the first other character on, so `4.5` reads as 4 |
| JsText.ParseIntOfIntToString | src/components/crudapi.js:94 | `parseInt` reads back every integer that `toString` writes |
| JsText.TrimOfUnpadded | src/components/Tutorials.js:139 | `trim` leaves text that neither starts nor ends with white space unchanged |
| JsText.StringToNumberOfNumeral | src/components/Tutorials.js:99 | `Number` of a run of decimal digits is their value, leading zeros included |
| JsText.StringToNumberOfIntToString | src/components/Tutorials.js:99 | `Number` reads back every integer that `toString` writes, sign included |
| JsText.Split | src/components/Tutorials.js:98 | `split` on one character gives at least one piece, and no piece contains the separator |
| JsText.JoinSplit | src/components/Tutorials.js:98 | joining the pieces of `split` with the separator gives the original text back |
| JsText.SplitAtSeparator | src/components/Tutorials.js:98 | the first separator ends the first piece of `split` |
| Dates.FormatDateLayout | src/components/Tutorials.js:9-12 | `formatDate` writes two digits of day, `/`, two digits of the one-based month, `/`, then the year |
| Dates.FullYear | src/components/Tutorials.js:99 | the `Date` constructor reads a year from 0 to 99 as 1900 plus the year and keeps every other year |
| Dates.ParseOfLayout | src/components/Tutorials.js:97-100 | text laid out as `dd/mm/yyyy` reads back, through `split('/')` and the `Date` constructor, as that day with month `mm - 1` and the year after the 0–99 mapping |
| Dates.NaNIsNotANumber | src/components/Tutorials.js:99 | `Number("NaN")` is NaN |
| Dates.ParseOfNonNumber | src/components/Tutorials.js:97-100 | a date text whose day part is not a number reads as the Invalid Date |
| Dates.ParseOfNaN | src/components/Tutorials.js:97-100 | the text that `formatDate` gives an Invalid Date is `NaN/NaN/NaN`, and it reads back as an Invalid Date |
| Dates.LeadingBlankIgnored | src/components/Tutorials.js:99 | a blank in front of a part does not change the number `Number` reads from it |
| Dates.ParseIsLenient | src/components/Tutorials.js:97-100 | blanks in front of the three parts do not change the date that is read |
| Dates.FormatParseRoundTrip | src/components/Tutorials.js:97-100 | reading back the `formatDate` text of the Invalid Date, or of a calendar date outside the years 0–99 (negative years included), gives the same date |
| Dates.NegativeYearText | src/components/Tutorials.js:11 | `formatDate` writes 1 January of year -50 with its sign, as `01/01/-50` |
| Dates.NegativeYearRoundTrip | src/components/Tutorials.js:97-100 | `01/01/-50` reads back as 1 January of year -50 |
| Dates.AfterIsStrictOrder | src/components/Projects.js:77 | `>` on dates is irreflexive, asymmetric, transitive and total on distinct days, and false whenever an Invalid Date takes part |
| Tutorials.ValidateShowsFailedRules | src/components/Tutorials.js:139-162 | exactly these errors are shown: name when its trimmed length is under 3, description when under 10, duration when blank, type when empty, date when missing; each shows its own message, and none is shown exactly when the draft is complete |
| Tutorials.FormatOptDate | src/components/Tutorials.js:9-12 | `formatDate` of a missing date is the empty text and of any date is not |
| Tutorials.HasChanges | src/components/Tutorials.js:272-288 | with no record being edited, the form has changes exactly when some field differs from the empty draft; with one, exactly when saving the draft over that record (keeping its owner and creation time) would store something other than the record |
| Tutorials.Payload | src/components/Tutorials.js:177-185 | the written object carries the four text fields of the draft, the date as its `formatDate` text, the signed-in user's id and a server timestamp |
| Tutorials.EditedRecordHasNoChanges | src/components/Tutorials.js:272-288 | straight after a record is loaded whose date is the `formatDate` text of the Invalid Date or of a calendar date outside the years 0–99, `hasChanges` is false, whatever the form held before |
| Tutorials.SaveThenEditRoundTrip | src/components/Tutorials.js:177-185 | loading a saved complete draft back into any form gives the same draft, when its date is the Invalid Date or a calendar date outside the years 0–99 |
| Tutorials.TutorialForm.constructor | src/components/Tutorials.js:47-62 | the screen starts as an empty form (not the list), with no errors, no key, no record being edited, nothing loading and an empty list |
| Tutorials.TutorialForm.LoadTutorials | src/components/Tutorials.js:103-127 | loading subscribes exactly when a user is signed in and the subscribe does not throw; the loading flag stays up unless the subscribe throws, which the catch answers by lowering it; the list is left as it was |
| Tutorials.TutorialForm.OnSnapshot | src/components/Tutorials.js:113-123 | the list becomes the snapshot's children in order, each with its key, and loading ends |
| Tutorials.TutorialForm.ValidateForm | src/components/Tutorials.js:131-165 | the five errors become those of the rules for the current draft, and the result is true exactly when the draft is complete |
| Tutorials.TutorialForm.ClearFields | src/components/Tutorials.js:209-217 | the draft is emptied and both the key and the record being edited are dropped |
| Tutorials.TutorialForm.SaveTutorial | src/components/Tutorials.js:168-206 | an incomplete draft or a missing user writes nothing; otherwise the payload is written as an update of the key, or as a new child when there is no key; a successful write empties the form, reloads the list and shows it, with the loading flag up unless the reload's subscribe throws; any other outcome leaves draft, key, record, mode and loading flag as they were |
| Tutorials.TutorialForm.SelectTipoTutorial | src/components/Tutorials.js:220-224 | picking a type sets it, clears its error and closes the option list |
| Tutorials.TutorialForm.ToggleTipoOptions | src/components/Tutorials.js:444 | the type button opens or closes the option list |
| Tutorials.TutorialForm.DeleteTutorial | src/components/Tutorials.js:227-235 | the child is removed at once, with no confirmation; the list is reloaded only when the removal succeeds, and the loading flag then ends as `loadTutorials` leaves it; the list itself is untouched |
| Tutorials.TutorialForm.LoadTutorialData | src/components/Tutorials.js:90-101 | the record's key and fields are copied into the form and its date is read back; a record without a date leaves the form's date alone |
| Tutorials.TutorialForm.EditTutorial | src/components/Tutorials.js:238-242 | editing loads the record, remembers it as the one being edited and shows the form |
| Tutorials.TutorialForm.OpenFromRoute | src/components/Tutorials.js:77-83 | a tutorial passed by navigation is loaded and remembered as the one being edited, and the mode is unchanged |
| Tutorials.TutorialForm.AddPressed | src/components/Tutorials.js:328-331 | the add button shows an empty form with no key and no record being edited |
| Tutorials.TutorialForm.ConfirmCancel | src/components/Tutorials.js:245-269 | it asks exactly when `hasChanges` holds; with no changes it goes straight to the list; "Sim" reloads the edited record (or empties a new draft) and shows the list; "Não" changes nothing |
| Tutorials.TutorialForm.SetNomeTutorial | src/components/Tutorials.js:382-385 | typing a name clears the name error |
| Tutorials.TutorialForm.SetDescricaoTutorial | src/components/Tutorials.js:401-404 | typing a description clears the description error |
| Tutorials.TutorialForm.SetDuracaoTutorial | src/components/Tutorials.js:418-421 | typing a duration clears the duration error |
| Tutorials.TutorialForm.SetDataPostagem | src/components/Tutorials.js:432-435 | picking a posting date clears the date error |
| CrudApi.LetterRunEnd | src/components/crudapi.js:67 | the `[a-zA-Z]+` run of the data-URI branch ends at the first character that is not an ASCII letter |
| CrudApi.DotExtensionFromFinds | src/components/crudapi.js:67 | the scan of `.*\.` and an image extension (png, jpg, jpeg, gif or webp) succeeds exactly when some dot followed by such an extension comes before any line break |
| CrudApi.ImageUrlMatchesPattern | src/components/crudapi.js:67-70 | the image test accepts exactly an HTTPS URL with a dotted image extension, or a `data:image/<letters>;base64,` URI |
| CrudApi.HttpsPngMatches | src/components/crudapi.js:67-70 | an HTTPS PNG URL is accepted |
| CrudApi.DataJpegMatches | src/components/crudapi.js:67-70 | a base64 JPEG data URI is accepted |
| CrudApi.HttpPngFails | src/components/crudapi.js:67-70 | the same PNG over plain HTTP is refused |
| CrudApi.RatingError | src/components/crudapi.js:60-65 | an empty or unparsable rating gets the "deve ser um número" error; a parsed rating outside [1, 5] gets the "será ajustada" error; a rating in [1, 5] gets none |
| CrudApi.ValidationErrors | src/components/crudapi.js:49-74 | the map has a title entry exactly when the untrimmed length is outside [3, 20], a comment entry exactly when outside [3, 100], a rating entry exactly when the rating rule fails, and an image entry exactly when the image matches neither branch of the pattern; each entry holds its message |
| CrudApi.ClampRating | src/components/crudapi.js:89 | `Math.max(1, Math.min(5, n))` lies in [1, 5] and passes NaN on; it leaves a rating in [1, 5] unchanged, turns one above 5 into 5 and one below 1 into 1 |
| CrudApi.RequestBody | src/components/crudapi.js:89-97 | the body carries every field as typed except the rating |
| CrudApi.RequestRatingReadsBack | src/components/crudapi.js:89-94 | the rating text sent reads back through `parseInt` as the clamped rating, NaN for a rating that is not a number |
| CrudApi.OutOfRangeRatingBlocks | src/components/crudapi.js:60-65 | a parsed rating outside [1, 5] leaves the "será ajustada" error, so the error map is not empty |
| CrudApi.SubmittedRatingIsTyped | src/components/crudapi.js:87-97 | a form that passes validation has a rating in [1, 5]; the clamp leaves it unchanged; the body carries its decimal text, which reads back as the typed rating; every other field goes out as typed |
| CrudApi.CrudComments.constructor | src/components/crudapi.js:22-33 | the screen starts with an empty list, empty fields, no errors, no comment being edited, and a closed modal with no id kept aside |
| CrudApi.CrudComments.BuscarComentarios | src/components/crudapi.js:39-47 | a response replaces the list wholesale; a failed fetch alerts and leaves the list alone |
| CrudApi.CrudComments.ValidarFormulario | src/components/crudapi.js:49-74 | the error map becomes exactly the map of the current fields, and the result is true exactly when that map is empty |
| CrudApi.CrudComments.ResetFormulario | src/components/crudapi.js:76-84 | the fields are emptied, and the edited comment and the errors are dropped |
| CrudApi.CrudComments.HandleCreateOrUpdate | src/components/crudapi.js:86-112 | an invalid form sends nothing; a valid one is sent as a `PUT` to the edited comment's id or as a `POST`; a successful request refetches the list and resets the form; a failed one leaves form, edited comment and list as they were; the delete state is untouched |
| CrudApi.CrudComments.HandleCarregar | src/components/crudapi.js:114-122 | loading a comment copies its five fields, marks it as edited and clears the errors |
| CrudApi.CrudComments.ConfirmarExclusao | src/components/crudapi.js:124-127 | the id is kept aside and the modal opens; nothing is deleted |
| CrudApi.CrudComments.CancelarExclusao | src/components/crudapi.js:244-248 | cancelling closes the modal and keeps the id |
| CrudApi.CrudComments.ExcluirComentario | src/components/crudapi.js:129-138 | a `DELETE` of the kept id (the text `null` when there is none) is sent; success refetches, closes the modal and drops the id; failure leaves modal, id and list as they were |
| CrudApi.CrudComments.SetTitulo | src/components/crudapi.js:159 | typing a title sets it and leaves the errors alone |
| CrudApi.CrudComments.SetComentario | src/components/crudapi.js:167 | typing a comment sets it and leaves the errors alone |
| CrudApi.CrudComments.SetAvaliacao | src/components/crudapi.js:175 | typing a rating sets it and leaves the errors alone |
| CrudApi.CrudComments.SetTutorialId | src/components/crudapi.js:184 | typing a tutorial id sets it and leaves the errors alone |
| CrudApi.CrudComments.SetImagemUrl | src/components/crudapi.js:191 | typing an image URL sets it and leaves the errors alone |
| Projects.AfterValidation | src/components/Projects.js:59-83 | each rule that fires sets its message (trimmed name under 3, trimmed description under 10, empty type, start after end), and every other error keeps its text |
| Projects.ValidationNeverClears | src/components/Projects.js:59-83 | validation never clears an error that was shown |
| Projects.ValidationFromNoErrors | src/components/Projects.js:62-80 | starting from no errors, each error is shown exactly when its rule fires, and none is shown exactly when the draft is valid |
| Projects.ValidationIdempotent | src/components/Projects.js:59-83 | validating twice shows the same errors as validating once |
| Projects.DateRuleIgnoresOtherFields | src/components/Projects.js:77-80 | the date rule depends on the two dates alone, and in a valid draft of two days the start is not after the end |
| Projects.Submission | src/components/Projects.js:87-93 | the handed-on project carries the draft's name, description and type, and both dates as their `formatDate` text |
| Projects.SubmissionDatesReadBack | src/components/Projects.js:87-93 | the handed-on dates read back as the draft's dates, when each is the Invalid Date or a calendar date outside the years 0–99 |
| Projects.ProjetoForm.constructor | src/components/Projects.js:40-49 | the form starts with empty texts, both dates today, no errors and the option list closed |
| Projects.ProjetoForm.ValidateForm | src/components/Projects.js:59-83 | the errors become those of `AfterValidation` from the previous errors, and the result is true exactly when no rule fires |
| Projects.ProjetoForm.HandleSubmit | src/components/Projects.js:85-103 | a valid draft is handed on with the success alert naming it, and the form is reset with both dates set to today; an invalid draft stays as it was |
| Projects.ProjetoForm.SelectTipoProjeto | src/components/Projects.js:106-110 | picking a type sets it, clears its error and closes the option list |
| Projects.ProjetoForm.ToggleTipoOptions | src/components/Projects.js:183 | the type button opens or closes the option list |
| Projects.ProjetoForm.SetNomeProjeto | src/components/Projects.js:127-130 | typing a name clears the name error |
| Projects.ProjetoForm.SetDescricaoProjeto | src/components/Projects.js:146-149 | typing a description clears the description error |
| Projects.ProjetoForm.SetDataInicio | src/components/Projects.js:159-162 | picking a start date clears the date error |
| Projects.ProjetoForm.SetDataFim | src/components/Projects.js:170-173 | picking an end date clears the date error |
| Login.IndexOf | src/components/Login.js:14 | the first `@` of the address: no `@` before it, and an `@` at it when there is one |
| Login.EmailShapeMatches | src/components/Login.js:14 | an address with no white space, one `@` with text before it, and a dot after it that is neither the first nor the last character there matches `/^[^\s@]+@[^\s@]+\.[^\s@]+$/` |
| Login.PatternHasEmailShape | src/components/Login.js:14 | every address matching the pattern has that shape |
| Login.EmailShapeIsPattern | src/components/Login.js:14 | the shape and the pattern accept the same addresses |
| Login.ToLowerKeepsShape | src/components/Login.js:15 | lower-casing neither makes nor breaks the shape of an address |
| Login.ValidateEmailIsPattern | src/components/Login.js:13-16 | `validateEmail` accepts exactly the addresses of the pattern, and lower-casing first changes nothing |
| Login.MixedCaseEmailPasses | src/components/Login.js:13-16 | an address in mixed case is accepted |
| Login.MalformedEmailsFail | src/components/Login.js:13-16 | an address without a dot after the `@`, or with nothing before the `@`, is refused |
| Login.NextKind | src/components/Login.js:93-95 | the toggle turns `login` into `cadastrar` and anything else into `login` |
| Login.ToggleTwiceRestores | src/components/Login.js:93-95 | the toggle always changes the mode between the two, and toggling twice restores it |
| Login.LoginScreen.constructor | src/components/Login.js:8-11 | the screen starts in `login` mode with empty fields and no error |
| Login.LoginScreen.HandleLogin | src/components/Login.js:18-49 | an invalid address sets "Email inválido" and calls nothing; a valid one signs in when the mode is `login` and signs up otherwise; a user id goes to the app; a sign-in for an unknown address sets "Email não cadastrado"; every other failure alerts |
| Login.LoginScreen.ToggleKind | src/components/Login.js:93-95 | the mode link switches between the two modes |
| Login.LoginScreen.SetEmail | src/components/Login.js:63-66 | typing an address clears the email error |
| Login.LoginScreen.SetPassword | src/components/Login.js:77 | typing a password leaves the email error alone |

## Left out

- I/O. Firebase authentication, the realtime database and the axios HTTP
  calls are not modelled. Their results are method parameters: success or
  failure, the snapshot's children, the fetched list, and the answer of the
  authentication service. Alerts, `console` output and `Keyboard.dismiss`
  are not modelled beyond the outcome a method returns.
- Listener lifetime. Each `loadTutorials` registers a new `value` listener,
  and deliveries are asynchronous. The model keeps only what one delivery
  does to the state (`OnSnapshot`).
- Asynchronous ordering. `handleCreateOrUpdate` and `excluirComentario` do
  not await their refetch. The model applies the refetch's result before
  the reset, which touches other fields.
- Dates. JavaScript `Date` values are reduced to their calendar day or the
  Invalid Date. Not modelled:
  - time of day (so `>` in the project form compares days only);
  - UTC versus local midnight from the web date input;
  - the constructor's normalisation of out-of-range days and months;
  - the range limit of a `Date` (8.64e15 ms either side of 1970).
  
  The current date is a parameter, and both `new Date()` calls of a reset
  receive the same day.
- Dates.FormatParseRoundTrip: holds for the Invalid Date and for calendar
  dates outside the years 0–99. `formatDate` writes a year from 0 to 99 as
  it is, and the constructor reads it back as 1900 plus the year, as
  `Dates.FullYear` states.
- Dates.ParseDate: `Number` is modelled for blank text (read as 0),
  surrounding white space, one sign and decimal digits. Hexadecimal,
  binary and octal prefixes, fractions, exponents and `Infinity` are read
  as NaN here.
- `parseInt`. Only leading white space, an optional sign and the decimal
  digit prefix are modelled. The `0x` prefix is not.
- `toLowerCase` maps only the ASCII letters `A`–`Z`.
- Characters. Strings are sequences of Unicode scalar values. JavaScript
  `length` counts UTF-16 code units, so the lengths differ for characters
  outside the Basic Multilingual Plane.
- `trim() === ""` checks. The rules' tests of the form
  `trim() === "" || trim().length < n` are kept as written, once, in
  `JsText.TrimmedTooShort`; the empty test is subsumed by the length test.
- User interface. Rendering, styles, the `DatePicker` platform branches,
  `prompt()` and the image picker (`selecionarImagem`) are not modelled.
  Dialog answers are boolean parameters.
- Other files. `src/components/Menu.js` (tab icons and navigator set-up)
  and `App.js` (an authentication gate) are not part of this model.
