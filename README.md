# Record-entry form: validation engine and positional delete

A Dafny model of the logic in the CRUD record-entry application's two components:

- **`Form`** (src/components/Form.jsx) keeps the form data, an `errors` map, a `success` map and an image slot. Its handlers validate fields as they change (`validateField`), validate the whole form on submit (`validateForm`), accept only PNG images (`handleImageChange`) and update one key of the form data (`handleChange`).
- **`Table`** (src/components/Table.jsx) deletes a record by its position (`handleDelete`, a `filter` on the index) and formats the date-of-birth cell.

Layout:

- `wrappers.dfy`, module `Wrappers`: `Option`, used for `null`.
- `field_rules.dfy`, module `FieldRules`: the pure rules. It covers the per-field verdicts, the phone regular expression `^\d{7,}$`, the message maps after one field is validated, the submit-time error map and the image verdict. It also holds lemmas that relate the per-field checks to the whole-form checks.
- `form_state.dfy`, module `FormState`: class `Form`. Its fields are the component's state slots. Its methods are the handlers, written step by step as the source writes them. Each method is proved against the functions in `FieldRules`.
- `record_table.dfy`, module `RecordTable`: `DeleteAt`, its reference definition as a splice, and its subsequence, multiset and round-trip lemmas. Also the DOB cell and a parser that recovers its three parts.

Modelling choices:

- A JavaScript test `!value` on a string holds exactly for `""`. A form-data key that is missing reads as `undefined`. That is also falsy, so `FieldValue` reads a missing key as `""`.
- `validator.isEmail` and `validator.isMobilePhone` are library code that is not part of this model. They are uninterpreted predicates of type `string -> bool`. They are passed to the `Form` constructor and kept as constants.
- JavaScript's `\d` without the `u` flag is `[0-9]`. `MatchesPhonePattern` is proved equal to "at least 7 characters, all decimal digits".
- The emoji prefixes of the messages (U+2757, U+2713) are kept.
- React state updates are taken as sequential assignments: no batching, no stale closures.
- The two phone checks differ. The per-field rule is the 7-digit pattern (Form.jsx:103). The submit rule is `validator.isMobilePhone` (Form.jsx:132). The model follows both as written. `SubmitPhoneCheck` and `PhoneShownBothWays` state the consequence: if the library rejects a value that the pattern accepts, the phone field shows both a success message and an error.
- `validateForm` replaces `errors` with a fresh map. This drops any `errors.image` message on submit (`ValidateForm` ensures `"image" !in errors`).

## Model

| member | source | states |
|---|---|---|
| `FieldRules.DigitRun` | src/components/Form.jsx:103 | the result is the length of the longest all-digit prefix; the character after it, if any, is not a digit |
| `FieldRules.MatchesPhonePattern` | src/components/Form.jsx:103 | `^\d{7,}$` matches iff the string has at least 7 characters and every one is a decimal digit |
| `FieldRules.FieldVerdict` | src/components/Form.jsx:75-114 | a verdict exists iff the field is name, email or phone; exactly one of error and success is non-empty; success iff the reference acceptance holds (non-empty; for email also isEmail; for phone also 7+ digits only); an empty value always gets the required message (required before format); a non-empty rejected value gets the format message; success carries the field's ok message |
| `FieldRules.FieldFeedback` | src/components/Form.jsx:71-118 | for a required field, both maps hold the field and exactly one of its messages is non-empty, success iff accepted; an empty value writes the field's required message, a rejected non-empty value its format message, an accepted value its ok message; every other key of both maps is unchanged; any other field name leaves both maps as they were |
| `FieldRules.FormErrors` | src/components/Form.jsx:120-137 | the fresh error map has keys only among name, email and phone; a field is present iff the submit-time check rejects it (empty; email not isEmail; phone not isMobilePhone); the message is the required one for an empty value and the format one otherwise; the map is empty iff the whole form passes |
| `FieldRules.SubmitAgreesOnNameAndEmail` | src/components/Form.jsx:76-129 | for name and email, the submit-time error is present iff the per-field verdict has an error, and the two messages are equal |
| `FieldRules.SubmitPhoneCheck` | src/components/Form.jsx:99-134 | the submit-time phone error is present iff the value is empty or isMobilePhone rejects it; for a non-empty value it agrees with the per-field verdict iff isMobilePhone agrees with the 7-digit pattern |
| `FieldRules.OnlyNameMissing` | src/components/Form.jsx:120-137 | an empty name with a library-accepted email "x@y.com" and phone "1234567" yields exactly the name-required error |
| `FieldRules.ImageVerdict` | src/components/Form.jsx:47-69 | success iff a file is present and its type is exactly image/png; exactly one message is non-empty; the messages are the upload ones |
| `FormState.InitialFormData` | src/components/Form.jsx:9-19 | the initial form data has exactly the nine field keys, all empty |
| `FormState.Form.constructor` | src/components/Form.jsx:5-21 | no image, country "Nepal", the initial form data, empty error and success maps |
| `FormState.Form.ValidateField` | src/components/Form.jsx:71-118 | the new maps are the field's verdict written into copies of the old maps, as `FieldFeedback` states; the shape invariant is kept |
| `FormState.Form.HandleChange` | src/components/Form.jsx:38-45 | the form data becomes the old form data with only `name` set to `value`; the maps are then re-validated for that key; success messages stay consistent with the form data |
| `FormState.Form.HandleImageChange` | src/components/Form.jsx:47-69 | a PNG file is stored, errors.image cleared and success.image set; otherwise the image is kept, errors.image set and success.image cleared; no other key changes |
| `FormState.Form.ValidateForm` | src/components/Form.jsx:120-138 | errors is replaced by the fresh `FormErrors` map (so errors.image is gone); the result is true iff that map is empty iff the form passes; if success messages reflect the data, name and email never show both an error and a success |
| `FormState.Form.HandleSubmit` | src/components/Form.jsx:140-146 | the form data is handed on iff the whole form passes; errors is the fresh submit-time map |
| `FormState.PhoneShownBothWays` | src/components/Form.jsx:99-134 | a phone value that the pattern accepts and isMobilePhone rejects ends up showing both messages after a change and a submit |
| `RecordTable.DeleteAt` | src/components/Table.jsx:4-7 | in range: one element shorter, elements before the index keep their position, elements after it move down by one; out of range (negative or too large): the list is unchanged |
| `RecordTable.DeleteAtIsSplice` | src/components/Table.jsx:5 | in range, the result equals the list before the index followed by the list after it |
| `RecordTable.DeleteAtMultiset` | src/components/Table.jsx:5 | the input's multiset is the result's plus the deleted element (nothing otherwise), so nothing is added |
| `RecordTable.DeleteAtSubsequence` | src/components/Table.jsx:5 | the result is an order-preserving subsequence of the input |
| `RecordTable.AppendThenDeleteLast` | src/components/Table.jsx:5 | appending a record and deleting the last position gives back the original list |
| `RecordTable.DobCell` | src/components/Table.jsx:39 | the cell is day, a dash, month, a dash, year, at those exact positions |
| `RecordTable.DobCellRoundTrip` | src/components/Table.jsx:39 | when day and month contain no dash, splitting the cell at its first two dashes recovers day, month and year |

## Left out

- Country list fetch (Form.jsx:24-36): network I/O and asynchronous code. Only the default country "Nepal" is modelled, as the initial value of `selectedCountry`.
- The country selector's own `onChange` (Form.jsx:279): a single assignment to `selectedCountry` with no logic.
- The inner grammar of `validator.isEmail` and `validator.isMobilePhone`: library code that is not part of this model. They stay uninterpreted.
- `URL.createObjectURL`, image rendering and all JSX markup and styling: browser object handles and presentation.
- `console.log` in `handleSubmit`: modelled as returning the submitted form data.
- The "No records found." branch, row rendering and the `onEdit(index)` callback (Table.jsx:27-55): presentation, and a callback whose code is not part of this model.
- `setRecords` in `handleDelete`: the parent's state update is modelled as returning the new list.
- Search, sort, pagination, local-storage persistence and the create/edit logic: these do not appear in Form.jsx or Table.jsx, so there is no code to model them against.
