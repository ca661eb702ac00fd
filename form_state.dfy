/**
  The state of the `Form` component (src/components/Form.jsx) and the event
  handlers that update it. Each React state slot is a field of the class;
  each `setX` call is an assignment, and the calls are taken to run in
  order (no batching, no stale closures).
 */
module FormState {
  import opened Wrappers
  import opened FieldRules

  /** The nine keys the form data starts with, all empty. */
  const FormFields: set<string> :=
    {"name", "email", "phone", "city", "district", "province", "day", "month", "year"}

  /** The keys a message can be shown for: the three required fields and the image. */
  const MessageKeys: set<string> := RequiredFields + {"image"}

  /** The country the selector starts on before the reference list arrives. */
  const DefaultCountry: string := "Nepal"

  function InitialFormData(): (d: map<string, string>)
    ensures d.Keys == FormFields
    ensures forall k :: k in d ==> d[k] == ""
  {
    map k | k in FormFields :: ""
  }

  class Form {
    var image: Option<File>
    var selectedCountry: string
    var formData: map<string, string>
    var errors: map<string, string>
    var success: map<string, string>
    /** `validator.isEmail` and `validator.isMobilePhone`. */
    const isEmail: string -> bool
    const isMobilePhone: string -> bool

    /**
      The shape every handler keeps: the initial form keys stay, and messages
      exist only for known keys. It records shape only; no contract depends
      on it, since form data is always read through `FieldValue`.
     */
    ghost predicate Valid()
      reads this
    {
      && FormFields <= formData.Keys
      && errors.Keys <= MessageKeys
      && success.Keys <= MessageKeys
    }

    /**
      Every success message shown for a required field is the one its
      current form value earns under the per-field rule.
     */
    ghost predicate SuccessReflectsData()
      reads this
    {
      forall k :: k in RequiredFields && k in success ==>
        (success[k] != "" <==> FieldAccepts(k, FieldValue(formData, k), isEmail))
    }

    /** The field shows both an error and a success message at once. */
    ghost predicate ShowsBoth(k: string)
      reads this
    {
      k in errors && errors[k] != "" && k in success && success[k] != ""
    }

    constructor (isEmail: string -> bool, isMobilePhone: string -> bool)
      ensures Valid() && SuccessReflectsData()
      ensures this.isEmail == isEmail && this.isMobilePhone == isMobilePhone
      ensures image == None && selectedCountry == DefaultCountry
      ensures formData == InitialFormData() && errors == map[] && success == map[]
    {
      this.isEmail := isEmail;
      this.isMobilePhone := isMobilePhone;
      image := None;
      selectedCountry := DefaultCountry;
      formData := InitialFormData();
      errors := map[];
      success := map[];
    }

    /** `validateField`: copy both maps, write the field's verdict into the copies, store them back. */
    method ValidateField(name: string, value: string)
      requires Valid()
      modifies this`errors, this`success
      ensures Valid()
      ensures Feedback(errors, success) == FieldFeedback(Feedback(old(errors), old(success)), name, value, isEmail)
    {
      var newErrors := errors;
      var newSuccess := success;
      if name == "name" {
        if value == "" {
          newErrors := newErrors["name" := NameRequired];
          newSuccess := newSuccess["name" := ""];
        } else {
          newErrors := newErrors["name" := ""];
          newSuccess := newSuccess["name" := NameOk];
        }
      } else if name == "email" {
        if value == "" {
          newErrors := newErrors["email" := EmailRequired];
          newSuccess := newSuccess["email" := ""];
        } else if !isEmail(value) {
          newErrors := newErrors["email" := EmailInvalid];
          newSuccess := newSuccess["email" := ""];
        } else {
          newErrors := newErrors["email" := ""];
          newSuccess := newSuccess["email" := EmailOk];
        }
      } else if name == "phone" {
        if value == "" {
          newErrors := newErrors["phone" := PhoneRequired];
          newSuccess := newSuccess["phone" := ""];
        } else if !MatchesPhonePattern(value) {
          newErrors := newErrors["phone" := PhoneTooShort];
          newSuccess := newSuccess["phone" := ""];
        } else {
          newErrors := newErrors["phone" := ""];
          newSuccess := newSuccess["phone" := PhoneOk];
        }
      }
      errors := newErrors;
      success := newSuccess;
    }

    /** `handleChange`: set one key of the form data, then re-validate that key. */
    method HandleChange(name: string, value: string)
      requires Valid()
      modifies this`formData, this`errors, this`success
      ensures Valid()
      ensures formData == old(formData)[name := value]
      ensures Feedback(errors, success) == FieldFeedback(Feedback(old(errors), old(success)), name, value, isEmail)
      ensures old(SuccessReflectsData()) ==> SuccessReflectsData()
    {
      formData := formData[name := value];
      ValidateField(name, value);
    }

    /**
      `handleImageChange`: a PNG file is stored and earns the success
      message; anything else, or no file, earns the error and keeps the
      previous image.
     */
    method HandleImageChange(file: Option<File>)
      requires Valid()
      modifies this`image, this`errors, this`success
      ensures Valid()
      ensures image == if ImageVerdict(file).success != "" then file else old(image)
      ensures errors == old(errors)["image" := ImageVerdict(file).error]
      ensures success == old(success)["image" := ImageVerdict(file).success]
      ensures old(SuccessReflectsData()) ==> SuccessReflectsData()
    {
      if file.Some? && file.value.mediaType == PngType {
        image := file;
        errors := errors["image" := ""];
        success := success["image" := ImageOk];
      } else {
        errors := errors["image" := ImageInvalid];
        success := success["image" := ""];
      }
    }

    /**
      `validateForm`: build a fresh error map from the three required
      fields, replace `errors` with it, and report whether it is empty.
     */
    method ValidateForm() returns (ok: bool)
      requires Valid()
      modifies this`errors
      ensures Valid()
      ensures errors == FormErrors(formData, isEmail, isMobilePhone)
      ensures ok <==> FormPasses(formData, isEmail, isMobilePhone)
      ensures ok <==> errors == map[]
      ensures "image" !in errors
      ensures SuccessReflectsData() ==> !ShowsBoth("name") && !ShowsBoth("email")
    {
      var newErrors: map<string, string> := map[];
      var name := FieldValue(formData, "name");
      var email := FieldValue(formData, "email");
      var phone := FieldValue(formData, "phone");
      if name == "" {
        newErrors := newErrors["name" := NameRequired];
      }
      if email == "" {
        newErrors := newErrors["email" := EmailRequired];
      } else if !isEmail(email) {
        newErrors := newErrors["email" := EmailInvalid];
      }
      if phone == "" {
        newErrors := newErrors["phone" := PhoneRequired];
      } else if !isMobilePhone(phone) {
        newErrors := newErrors["phone" := PhoneTooShort];
      }
      errors := newErrors;
      ok := |errors| == 0;
      assert "image" !in RequiredFields;
      SubmitAgreesOnNameAndEmail(formData, "name", isEmail, isMobilePhone);
      SubmitAgreesOnNameAndEmail(formData, "email", isEmail, isMobilePhone);
    }

    /**
      `handleSubmit`: the form data is handed on (to `console.log` in the
      source) exactly when `validateForm` passes.
     */
    method HandleSubmit() returns (submitted: Option<map<string, string>>)
      requires Valid()
      modifies this`errors
      ensures Valid()
      ensures errors == FormErrors(formData, isEmail, isMobilePhone)
      ensures submitted == if FormPasses(formData, isEmail, isMobilePhone) then Some(formData) else None
    {
      var ok := ValidateForm();
      submitted := if ok then Some(formData) else None;
    }
  }

  /**
    If the library accepts fewer phone numbers than the seven-digit pattern,
    a phone number the pattern accepts shows the success message from the
    per-field check and, after a submit, the error from the whole-form check.
   */
  method PhoneShownBothWays(isEmail: string -> bool, isMobilePhone: string -> bool, phone: string) returns (form: Form)
    requires MatchesPhonePattern(phone) && !isMobilePhone(phone)
    ensures form.ShowsBoth("phone")
  {
    form := new Form(isEmail, isMobilePhone);
    form.HandleChange("phone", phone);
    var ok := form.ValidateForm();
    assert !ok;
  }
}
