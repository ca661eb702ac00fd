/**
  The validation rules of the record-entry form (src/components/Form.jsx),
  as pure functions over field names and values.

  A JavaScript test `!value` on a string is true exactly for the empty
  string; a key that is missing from the form data reads as `undefined`,
  which is falsy as well, so both are modelled as "".

  The two checks borrowed from the `validator` library, `isEmail` and
  `isMobilePhone`, are taken as uninterpreted predicates passed in as
  parameters; nothing here assumes anything about their grammar.
 */
module FieldRules {
  import opened Wrappers

  /** A file picked in the image input; only its declared media type is inspected. */
  datatype File = File(fileName: string, mediaType: string)

  /** The pair of messages one validation writes for one field: `errors[field]` and `success[field]`. */
  datatype Verdict = Verdict(error: string, success: string)

  /** The two message maps the form keeps, `errors` and `success`. */
  datatype Feedback = Feedback(errors: map<string, string>, success: map<string, string>)

  const NameRequired: string := "\U{2757} Name is required."
  const EmailRequired: string := "\U{2757} Email is required."
  const EmailInvalid: string := "\U{2757} Email format is invalid."
  const PhoneRequired: string := "\U{2757} Phone number is required."
  const PhoneTooShort: string := "\U{2757} Phone number must be at least 7 digits long."
  const NameOk: string := "\U{2713} Looks good!"
  const EmailOk: string := "\U{2713} Valid email!"
  const PhoneOk: string := "\U{2713} Valid phone number!"
  const ImageInvalid: string := "Only PNG images are allowed."
  const ImageOk: string := "Image uploaded successfully!"
  const PngType: string := "image/png"

  /** The fields that have a validation rule; every other field name is passed through. */
  const RequiredFields: set<string> := {"name", "email", "phone"}

  /** A field shows exactly one of its error and its success message. */
  predicate Exclusive(v: Verdict) {
    (v.error != "") != (v.success != "")
  }

  /** The message shown when a required field is left empty. */
  function RequiredMessage(field: string): string {
    if field == "name" then NameRequired
    else if field == "email" then EmailRequired
    else if field == "phone" then PhoneRequired
    else ""
  }

  /** The message shown when a non-empty email or phone value is rejected. */
  function FormatMessage(field: string): string {
    if field == "email" then EmailInvalid
    else if field == "phone" then PhoneTooShort
    else ""
  }

  /** The message shown when a field is accepted. */
  function OkMessage(field: string): string {
    if field == "name" then NameOk
    else if field == "email" then EmailOk
    else if field == "phone" then PhoneOk
    else ""
  }

  /** The value of a form-data key; a missing key reads as the empty string. */
  function FieldValue(data: map<string, string>, key: string): string {
    if key in data then data[key] else ""
  }

  /** The character class `\d` of a JavaScript regular expression without the `u` flag. */
  predicate IsDigit(c: char) {
    '0' <= c <= '9'
  }

  /** The length of the longest prefix of `s` made of decimal digits. */
  function DigitRun(s: string): (n: nat)
    ensures n <= |s|
    ensures forall i :: 0 <= i < n ==> IsDigit(s[i])
    ensures n < |s| ==> !IsDigit(s[n])
  {
    if s == [] || !IsDigit(s[0]) then 0 else 1 + DigitRun(s[1..])
  }

  /**
    The test `/^\d{7,}$/.test(value)`: the digit run from the start reaches
    the end of the string and is at least seven long.
   */
  function MatchesPhonePattern(s: string): (b: bool)
    ensures b <==> |s| >= 7 && forall i :: 0 <= i < |s| ==> IsDigit(s[i])
  {
    var run := DigitRun(s);
    run == |s| && run >= 7
  }

  /** Reference statement of when the per-field validation accepts a value. */
  ghost predicate FieldAccepts(field: string, value: string, isEmail: string -> bool) {
    && field in RequiredFields
    && value != ""
    && (field == "email" ==> isEmail(value))
    && (field == "phone" ==> |value| >= 7 && forall i :: 0 <= i < |value| ==> IsDigit(value[i]))
  }

  /**
    The `switch` of `validateField`: the verdict for one of the three
    required fields, or None for any other field name.
   */
  function FieldVerdict(field: string, value: string, isEmail: string -> bool): (r: Option<Verdict>)
    ensures r.Some? <==> field in RequiredFields
    ensures r.Some? ==> Exclusive(r.value)
    ensures r.Some? ==> (r.value.success != "" <==> FieldAccepts(field, value, isEmail))
    ensures r.Some? && r.value.success != "" ==> r.value.success == OkMessage(field)
    ensures r.Some? && value == "" ==> r.value.error == RequiredMessage(field)
    ensures r.Some? && value != "" && r.value.error != "" ==> r.value.error == FormatMessage(field)
  {
    if field == "name" then
      if value == "" then Some(Verdict(NameRequired, ""))
      else Some(Verdict("", NameOk))
    else if field == "email" then
      if value == "" then Some(Verdict(EmailRequired, ""))
      else if !isEmail(value) then Some(Verdict(EmailInvalid, ""))
      else Some(Verdict("", EmailOk))
    else if field == "phone" then
      if value == "" then Some(Verdict(PhoneRequired, ""))
      else if !MatchesPhonePattern(value) then Some(Verdict(PhoneTooShort, ""))
      else Some(Verdict("", PhoneOk))
    else None
  }

  /** `m` and `m'` hold the same entries on every key other than `key`. */
  ghost predicate AgreeExcept(m: map<string, string>, m': map<string, string>, key: string) {
    forall k :: k != key ==> (k in m <==> k in m') && (k in m ==> m[k] == m'[k])
  }

  /**
    The message maps after `validateField(field, value)`: the copies of
    `errors` and `success` with the field's verdict written in.
   */
  function FieldFeedback(fb: Feedback, field: string, value: string, isEmail: string -> bool): (r: Feedback)
    ensures field !in RequiredFields ==> r == fb
    ensures field in RequiredFields ==> field in r.errors && field in r.success
    ensures field in RequiredFields ==> Exclusive(Verdict(r.errors[field], r.success[field]))
    ensures field in RequiredFields ==> (r.success[field] != "" <==> FieldAccepts(field, value, isEmail))
    ensures field in RequiredFields && value == "" ==> r.errors[field] == RequiredMessage(field)
    ensures field in RequiredFields && value != "" && r.errors[field] != "" ==> r.errors[field] == FormatMessage(field)
    ensures field in RequiredFields && r.success[field] != "" ==> r.success[field] == OkMessage(field)
    ensures AgreeExcept(fb.errors, r.errors, field) && AgreeExcept(fb.success, r.success, field)
    ensures r.errors.Keys == fb.errors.Keys + (if field in RequiredFields then {field} else {})
    ensures r.success.Keys == fb.success.Keys + (if field in RequiredFields then {field} else {})
  {
    match FieldVerdict(field, value, isEmail)
    case None => fb
    case Some(v) => Feedback(fb.errors[field := v.error], fb.success[field := v.success])
  }

  /** Reference statement of when the whole-form validation accepts a required field. */
  ghost predicate SubmitAccepts(field: string, value: string, isEmail: string -> bool, isMobilePhone: string -> bool) {
    && value != ""
    && (field == "email" ==> isEmail(value))
    && (field == "phone" ==> isMobilePhone(value))
  }

  /** The whole form passes `validateForm`. */
  ghost predicate FormPasses(data: map<string, string>, isEmail: string -> bool, isMobilePhone: string -> bool) {
    forall field :: field in RequiredFields ==> SubmitAccepts(field, FieldValue(data, field), isEmail, isMobilePhone)
  }

  /** The error map `validateForm` builds from scratch out of the form data. */
  function FormErrors(data: map<string, string>, isEmail: string -> bool, isMobilePhone: string -> bool): (r: map<string, string>)
    ensures r.Keys <= RequiredFields
    ensures forall field :: field in RequiredFields ==>
      (field in r <==> !SubmitAccepts(field, FieldValue(data, field), isEmail, isMobilePhone))
    ensures forall field :: field in r ==>
      r[field] == if FieldValue(data, field) == "" then RequiredMessage(field) else FormatMessage(field)
    ensures forall field :: field in r ==> r[field] != ""
    ensures r == map[] <==> FormPasses(data, isEmail, isMobilePhone)
  {
    var name, email, phone := FieldValue(data, "name"), FieldValue(data, "email"), FieldValue(data, "phone");
    var withName: map<string, string> := if name == "" then map["name" := NameRequired] else map[];
    var withEmail :=
      if email == "" then withName["email" := EmailRequired]
      else if !isEmail(email) then withName["email" := EmailInvalid]
      else withName;
    var withPhone :=
      if phone == "" then withEmail["phone" := PhoneRequired]
      else if !isMobilePhone(phone) then withEmail["phone" := PhoneTooShort]
      else withEmail;
    assert RequiredFields == {"name", "email", "phone"};
    assert withPhone == map[] ==> "name" !in withPhone && "email" !in withPhone && "phone" !in withPhone;
    withPhone
  }

  /**
    For `name` and `email` the whole-form check is the per-field check:
    the submit-time error appears exactly when the per-field rule rejects
    the value, with the same message.
   */
  lemma SubmitAgreesOnNameAndEmail(data: map<string, string>, field: string, isEmail: string -> bool, isMobilePhone: string -> bool)
    requires field == "name" || field == "email"
    ensures var v := FieldVerdict(field, FieldValue(data, field), isEmail).value;
      && (field in FormErrors(data, isEmail, isMobilePhone) <==> v.error != "")
      && (field in FormErrors(data, isEmail, isMobilePhone) ==> FormErrors(data, isEmail, isMobilePhone)[field] == v.error)
  {
  }

  /**
    For `phone` the two checks differ: the per-field rule is the seven-digit
    pattern, the whole-form rule is `isMobilePhone`. They agree on a value
    exactly when the library predicate agrees with the pattern there.
   */
  lemma SubmitPhoneCheck(data: map<string, string>, isEmail: string -> bool, isMobilePhone: string -> bool)
    ensures var value := FieldValue(data, "phone");
      var v := FieldVerdict("phone", value, isEmail).value;
      && ("phone" in FormErrors(data, isEmail, isMobilePhone) <==> value == "" || !isMobilePhone(value))
      && (value != "" ==> (("phone" in FormErrors(data, isEmail, isMobilePhone) <==> v.error != "")
                          <==> (isMobilePhone(value) <==> MatchesPhonePattern(value))))
  {
  }

  /**
    Submitting with an empty name, an email the library accepts and a phone
    number the library accepts is blocked with the name error alone.
   */
  lemma OnlyNameMissing(data: map<string, string>, isEmail: string -> bool, isMobilePhone: string -> bool)
    requires FieldValue(data, "name") == ""
    requires FieldValue(data, "email") == "x@y.com" && isEmail("x@y.com")
    requires FieldValue(data, "phone") == "1234567" && isMobilePhone("1234567")
    ensures FormErrors(data, isEmail, isMobilePhone) == map["name" := NameRequired]
  {
  }

  /** The verdict of `handleImageChange`: only a present file of type `image/png` is accepted. */
  function ImageVerdict(file: Option<File>): (v: Verdict)
    ensures Exclusive(v)
    ensures v.success != "" <==> file.Some? && file.value.mediaType == PngType
    ensures v.error != "" ==> v.error == ImageInvalid
    ensures v.success != "" ==> v.success == ImageOk
  {
    if file.Some? && file.value.mediaType == PngType then Verdict("", ImageOk)
    else Verdict(ImageInvalid, "")
  }
}
