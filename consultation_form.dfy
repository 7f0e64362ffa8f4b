/** The consultation request form: four fields, a validator sharing the name,
    e-mail and phone rules with the schedule form, a length-capped change
    handler, and the submit gate in front of `createConsultation`. */
module ConsultationForm {
  import opened Wrappers
  import opened JsText
  import opened FormPatterns

  datatype Field = Name | Email | Phone | Message

  datatype FormData = FormData(name: string, email: string, phone: string, message: string)
  {
    function Get(f: Field): string {
      match f
      case Name => name
      case Email => email
      case Phone => phone
      case Message => message
    }

    /** `{ ...prev, [name]: value }`. */
    function With(f: Field, v: string): (r: FormData)
      ensures r.Get(f) == v
      ensures forall g :: g != f ==> r.Get(g) == Get(g)
    {
      match f
      case Name => this.(name := v)
      case Email => this.(email := v)
      case Phone => this.(phone := v)
      case Message => this.(message := v)
    }
  }

  const EmptyForm := FormData("", "", "", "")

  /** The longest value `handleChange` accepts; the e-mail field is not capped. */
  function Cap(f: Field): Option<nat> {
    match f
    case Name => Some(50)
    case Message => Some(500)
    case Phone => Some(15)
    case Email => None
  }

  predicate TooLong(f: Field, v: string) {
    Cap(f).Some? && |v| > Cap(f).value
  }

  predicate WithinCaps(d: FormData) {
    forall f :: !TooLong(f, d.Get(f))
  }

  /** The message rule: required, and at least ten characters once trimmed. */
  function MessageError(message: string): (r: Option<string>)
    ensures r.None? <==> |Trim(message)| >= 10
  {
    if Trim(message) == "" then Some("Message is required")
    else if |Trim(message)| < 10 then Some("Message is too short (minimum 10 characters)")
    else None
  }

  function FieldError(d: FormData, f: Field): Option<string> {
    match f
    case Name => NameError(d.name)
    case Email => EmailError(d.email)
    case Phone => PhoneError(d.phone)
    case Message => MessageError(d.message)
  }

  /** The error map `validateForm` builds, rule by rule. */
  function ValidationErrors(d: FormData): map<Field, string> {
    var m0 := Put(map[], Name, FieldError(d, Name));
    var m1 := Put(m0, Email, FieldError(d, Email));
    var m2 := Put(m1, Phone, FieldError(d, Phone));
    Put(m2, Message, FieldError(d, Message))
  }

  /** A field has an entry exactly when its rule fails, holding that rule's message. */
  lemma ErrorsAreFieldErrors(d: FormData, f: Field)
    ensures f in ValidationErrors(d) <==> FieldError(d, f).Some?
    ensures f in ValidationErrors(d) ==> ValidationErrors(d)[f] == FieldError(d, f).value
  {
    var m0 := Put(map[], Name, FieldError(d, Name));
    var m1 := Put(m0, Email, FieldError(d, Email));
    var m2 := Put(m1, Phone, FieldError(d, Phone));
    PutLookup(map[], Name, FieldError(d, Name), f);
    PutLookup(m0, Email, FieldError(d, Email), f);
    PutLookup(m1, Phone, FieldError(d, Phone), f);
    PutLookup(m2, Message, FieldError(d, Message), f);
  }

  /** The form is valid exactly when every rule holds. */
  lemma ValidIffRulesHold(d: FormData)
    ensures ValidationErrors(d) == map[] <==>
      |Trim(d.name)| >= 2 && EmailPattern(d.email)
      && (d.phone == "" || PhonePattern(d.phone))
      && |Trim(d.message)| >= 10
  {
    var e := ValidationErrors(d);
    if e == map[] {
      ErrorsAreFieldErrors(d, Name);
      ErrorsAreFieldErrors(d, Email);
      ErrorsAreFieldErrors(d, Phone);
      ErrorsAreFieldErrors(d, Message);
    }
  }

  /** An emptied form reports every field except the optional phone. */
  lemma EmptyFormErrors()
    ensures ValidationErrors(EmptyForm) == map[
      Name := "Full name is required", Email := "Email address is required",
      Message := "Message is required"]
  {
    assert Trim(EmptyForm.name) == "" && Trim(EmptyForm.email) == "" && Trim(EmptyForm.message) == "";
  }

  datatype Reply = Reply(success: bool, message: Option<string>)

  const InvalidNotice := "❌ Please fill in all required information correctly"
  const SuccessNotice := "✅ Consultation request submitted successfully! We will contact you soon."
  const NetworkNotice := "❌ Network error. Please try again later."

  /** The notice a sent request ends with. The thrown Error carries no
      `response`, so a thrown request always shows the network message. */
  function ReplyNotice(result: Result<Reply, string>): (r: string)
    ensures result.Success? && result.value.success ==> r == SuccessNotice
    ensures result.Success? && !result.value.success ==> r == "❌ " + OrElse(result.value.message, "Failed to submit request")
    ensures result.Failure? ==> r == NetworkNotice
  {
    match result
    case Success(reply) =>
      if reply.success then SuccessNotice else "❌ " + OrElse(reply.message, "Failed to submit request")
    case Failure(_) => NetworkNotice
  }

  class ConsultationFormState {
    var formData: FormData
    var errors: map<Field, string>
    var message: string
    var isSubmitting: bool

    ghost predicate Valid()
      reads this
    {
      WithinCaps(formData)
    }

    constructor ()
      ensures Valid()
      ensures formData == EmptyForm && errors == map[] && message == "" && !isSubmitting
    {
      formData := EmptyForm;
      errors := map[];
      message := "";
      isSubmitting := false;
    }

    /** `validateForm`: stores the error map and reports whether it is empty. */
    method ValidateForm() returns (ok: bool)
      modifies this`errors
      ensures errors == ValidationErrors(formData)
      ensures ok <==> errors == map[]
    {
      var d := formData;
      var newErrors: map<Field, string> := map[];
      newErrors := Put(newErrors, Name, FieldError(d, Name));
      newErrors := Put(newErrors, Email, FieldError(d, Email));
      newErrors := Put(newErrors, Phone, FieldError(d, Phone));
      newErrors := Put(newErrors, Message, FieldError(d, Message));
      errors := newErrors;
      ok := newErrors == map[];
    }

    /** `handleChange`: a value over the field's cap is ignored; otherwise only
        that field changes and a recorded error for it is blanked. */
    method HandleChange(f: Field, value: string)
      requires Valid()
      modifies this`formData, this`errors
      ensures Valid()
      ensures TooLong(f, value) ==> formData == old(formData) && errors == old(errors)
      ensures !TooLong(f, value) ==> formData == old(formData).With(f, value)
      ensures !TooLong(f, value) && f in old(errors) && old(errors)[f] != "" ==> errors == old(errors)[f := ""]
      ensures !TooLong(f, value) && !(f in old(errors) && old(errors)[f] != "") ==> errors == old(errors)
    {
      if TooLong(f, value) {
        return;
      }
      formData := formData.With(f, value);
      if f in errors && errors[f] != "" {
        errors := errors[f := ""];
      }
      assert forall g :: formData.Get(g) == if g == f then value else old(formData).Get(g);
    }

    /** `resetForm`: clears the fields, the errors and the notice. */
    method ResetForm()
      modifies this`formData, this`errors, this`message
      ensures Valid()
      ensures formData == EmptyForm && errors == map[] && message == ""
    {
      formData := EmptyForm;
      errors := map[];
      message := "";
    }

    /** `handleSubmit`, given what `createConsultation` would return. */
    method HandleSubmit(result: Result<Reply, string>) returns (sent: Option<FormData>)
      requires Valid()
      modifies this
      ensures Valid()
      ensures sent.Some? ==> !isSubmitting
      ensures sent.None? ==> isSubmitting == old(isSubmitting)
      ensures sent.Some? <==> ValidationErrors(old(formData)) == map[]
      ensures sent.Some? ==> sent.value == old(formData)
      ensures sent.None? ==>
        message == InvalidNotice && errors == ValidationErrors(old(formData)) && formData == old(formData)
      ensures sent.Some? && result.Success? && result.value.success ==>
        message == SuccessNotice && formData == EmptyForm && errors == map[]
      ensures sent.Some? && result.Success? && !result.value.success ==>
        message == "❌ " + OrElse(result.value.message, "Failed to submit request")
        && formData == old(formData) && errors == map[]
      ensures sent.Some? && result.Failure? ==>
        message == NetworkNotice && formData == old(formData) && errors == map[]
    {
      message := "";
      var ok := ValidateForm();
      if !ok {
        message := InvalidNotice;
        sent := None;
        return;
      }
      isSubmitting := true;
      sent := Some(formData);
      message := ReplyNotice(result);
      if result.Success? && result.value.success {
        formData := EmptyForm;
        errors := map[];
      }
      isSubmitting := false;
    }
  }
}
