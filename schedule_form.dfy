/** The "schedule a call" form: its field record, the validator that fills
    an error map field by field, the length-capped change handler, reset, and
    the submit gate in front of `createSchedule`. */
module ScheduleForm {
  import opened Wrappers
  import opened JsText
  import opened FormPatterns

  datatype Field =
    | Name | Email | Phone | Company | MeetingType | PreferredDate | PreferredTime | Timezone | Message

  datatype FormData = FormData(
    name: string, email: string, phone: string, company: string, meetingType: string,
    preferredDate: string, preferredTime: string, timezone: string, message: string)
  {
    function Get(f: Field): string {
      match f
      case Name => name
      case Email => email
      case Phone => phone
      case Company => company
      case MeetingType => meetingType
      case PreferredDate => preferredDate
      case PreferredTime => preferredTime
      case Timezone => timezone
      case Message => message
    }

    /** `{ ...prev, [name]: value }`. */
    function With(f: Field, v: string): (r: FormData)
      ensures r.Get(f) == v
      ensures forall g :: g != f ==> r.Get(g) == Get(g)
    {
      match f
      case Name => this.(name := v)
      case Email => this.(email := v)
      case Phone => this.(phone := v)
      case Company => this.(company := v)
      case MeetingType => this.(meetingType := v)
      case PreferredDate => this.(preferredDate := v)
      case PreferredTime => this.(preferredTime := v)
      case Timezone => this.(timezone := v)
      case Message => this.(message := v)
    }
  }

  /** The initial and reset value: everything empty except the meeting type
      and the browser's time zone. */
  function EmptyForm(localTimezone: string): FormData {
    FormData("", "", "", "", "consultation", "", "", localTimezone, "")
  }

  /** The longest value `handleChange` accepts for a field, if it caps it. */
  function Cap(f: Field): Option<nat> {
    match f
    case Name => Some(50)
    case Company => Some(100)
    case Message => Some(500)
    case Phone => Some(15)
    case _ => None
  }

  predicate TooLong(f: Field, v: string) {
    Cap(f).Some? && |v| > Cap(f).value
  }

  /** Every capped field is within its cap. */
  predicate WithinCaps(d: FormData) {
    forall f :: !TooLong(f, d.Get(f))
  }

  /** The message `validateForm` records for one field, if any. */
  function FieldError(d: FormData, f: Field): Option<string> {
    match f
    case Name => NameError(d.name)
    case Email => EmailError(d.email)
    case Phone => PhoneError(d.phone)
    case PreferredDate =>
      if d.preferredDate == "" then Some("Preferred date is required") else None
    case PreferredTime =>
      if d.preferredTime == "" then Some("Preferred time is required") else None
    case Message =>
      if d.message != "" && |d.message| > 500 then Some("Message is too long (maximum 500 characters)") else None
    case _ => None
  }

  /** The whole error map, rule by rule in the order `validateForm` applies them. */
  function ValidationErrors(d: FormData): map<Field, string> {
    var m0 := Put(map[], Name, FieldError(d, Name));
    var m1 := Put(m0, Email, FieldError(d, Email));
    var m2 := Put(m1, Phone, FieldError(d, Phone));
    var m3 := Put(m2, PreferredDate, FieldError(d, PreferredDate));
    var m4 := Put(m3, PreferredTime, FieldError(d, PreferredTime));
    Put(m4, Message, FieldError(d, Message))
  }

  /** A field has an entry exactly when its rule fails, and the entry is that
      rule's message. */
  lemma ErrorsAreFieldErrors(d: FormData, f: Field)
    ensures f in ValidationErrors(d) <==> FieldError(d, f).Some?
    ensures f in ValidationErrors(d) ==> ValidationErrors(d)[f] == FieldError(d, f).value
  {
    var m0 := Put(map[], Name, FieldError(d, Name));
    var m1 := Put(m0, Email, FieldError(d, Email));
    var m2 := Put(m1, Phone, FieldError(d, Phone));
    var m3 := Put(m2, PreferredDate, FieldError(d, PreferredDate));
    var m4 := Put(m3, PreferredTime, FieldError(d, PreferredTime));
    var m5 := Put(m4, Message, FieldError(d, Message));
    assert ValidationErrors(d) == m5;
    PutLookup(map[], Name, FieldError(d, Name), f);
    PutLookup(m0, Email, FieldError(d, Email), f);
    PutLookup(m1, Phone, FieldError(d, Phone), f);
    PutLookup(m2, PreferredDate, FieldError(d, PreferredDate), f);
    PutLookup(m3, PreferredTime, FieldError(d, PreferredTime), f);
    PutLookup(m4, Message, FieldError(d, Message), f);
  }

  /** The form is valid exactly when every rule holds. */
  lemma ValidIffRulesHold(d: FormData)
    ensures ValidationErrors(d) == map[] <==>
      |Trim(d.name)| >= 2
      && EmailPattern(d.email)
      && (d.phone == "" || PhonePattern(d.phone))
      && d.preferredDate != "" && d.preferredTime != ""
      && |d.message| <= 500
  {
    var e := ValidationErrors(d);
    if e == map[] {
      assert Name !in e && Email !in e && Phone !in e;
      assert PreferredDate !in e && PreferredTime !in e && Message !in e;
    }
  }

  /** Within the caps the "message too long" rule can never fire. */
  lemma CapsMakeMessageRuleUnreachable(d: FormData)
    requires WithinCaps(d)
    ensures Message !in ValidationErrors(d)
  {
    assert !TooLong(Message, d.Get(Message));
  }

  /** A fresh or reset form reports exactly the four required fields. */
  lemma EmptyFormErrors(localTimezone: string)
    ensures ValidationErrors(EmptyForm(localTimezone)) == map[
      Name := "Full name is required", Email := "Email address is required",
      PreferredDate := "Preferred date is required", PreferredTime := "Preferred time is required"]
  {
    var d := EmptyForm(localTimezone);
    assert Trim(d.name) == "" && Trim(d.email) == "";
    assert FieldError(d, Phone).None? && FieldError(d, Message).None?;
  }

  /** The parts of a server reply the form reads. */
  datatype Reply = Reply(success: bool, message: Option<string>)

  const InvalidNotice := "❌ Please fill in all required information correctly"
  const SuccessNotice := "✅ Meeting scheduled successfully! We will confirm via email."
  const NetworkNotice := "❌ Network error. Please try again later."

  class ScheduleFormState {
    var formData: FormData
    var errors: map<Field, string>
    var message: string
    var isSubmitting: bool
    const localTimezone: string

    ghost predicate Valid()
      reads this
    {
      WithinCaps(formData)
    }

    constructor (localTimezone: string)
      ensures Valid()
      ensures this.localTimezone == localTimezone
      ensures formData == EmptyForm(localTimezone) && errors == map[] && message == "" && !isSubmitting
    {
      this.localTimezone := localTimezone;
      formData := EmptyForm(localTimezone);
      errors := map[];
      message := "";
      isSubmitting := false;
    }

    /** `validateForm`: builds the error map one rule at a time, stores it,
        and reports whether it is empty. */
    method ValidateForm() returns (ok: bool)
      modifies this`errors
      ensures errors == ValidationErrors(formData)
      ensures ok <==> errors == map[]
    {
      var d := formData;
      var newErrors: map<Field, string> := map[];
      newErrors := Put(newErrors, Name, FieldError(d, Name));
      newErrors := Put(newErrors, Email, FieldError(d, Email));
      newErrors := Put(newErrors, Phone, FieldError(d, Phone));
      newErrors := Put(newErrors, PreferredDate, FieldError(d, PreferredDate));
      newErrors := Put(newErrors, PreferredTime, FieldError(d, PreferredTime));
      newErrors := Put(newErrors, Message, FieldError(d, Message));
      errors := newErrors;
      ok := newErrors == map[];
    }

    /** `handleChange`: a value over the field's cap is ignored; otherwise only
        that field changes and a recorded error for it is blanked. */
    method HandleChange(f: Field, value: string)
      requires Valid()
      modifies this`formData, this`errors
      ensures Valid()
      ensures TooLong(f, value) ==> formData == old(formData) && errors == old(errors)
      ensures !TooLong(f, value) ==> formData == old(formData).With(f, value)
      ensures !TooLong(f, value) && f in old(errors) && old(errors)[f] != "" ==> errors == old(errors)[f := ""]
      ensures !TooLong(f, value) && !(f in old(errors) && old(errors)[f] != "") ==> errors == old(errors)
    {
      if TooLong(f, value) {
        return;
      }
      formData := formData.With(f, value);
      if f in errors && errors[f] != "" {
        errors := errors[f := ""];
      }
      assert forall g :: formData.Get(g) == if g == f then value else old(formData).Get(g);
    }

    /** `resetForm`. */
    method ResetForm()
      modifies this`formData, this`errors
      ensures Valid()
      ensures formData == EmptyForm(localTimezone) && errors == map[]
    {
      formData := EmptyForm(localTimezone);
      errors := map[];
    }

    /** `handleSubmit`, given what `createSchedule` would return. An invalid
        form never sends; `sent` is the record handed to `createSchedule`. */
    method HandleSubmit(result: Result<Reply, string>) returns (sent: Option<FormData>)
      requires Valid()
      modifies this
      ensures Valid()
      ensures sent.Some? ==> !isSubmitting
      ensures sent.None? ==> isSubmitting == old(isSubmitting)
      ensures sent.Some? <==> ValidationErrors(old(formData)) == map[]
      ensures sent.Some? ==> sent.value == old(formData)
      ensures sent.None? ==>
        message == InvalidNotice && errors == ValidationErrors(old(formData)) && formData == old(formData)
      ensures sent.Some? && result.Success? && result.value.success ==>
        message == SuccessNotice && formData == EmptyForm(localTimezone) && errors == map[]
      ensures sent.Some? && result.Success? && !result.value.success ==>
        message == "❌ " + OrElse(result.value.message, "Failed to schedule meeting")
        && formData == old(formData) && errors == map[]
      ensures sent.Some? && result.Failure? ==>
        message == NetworkNotice && formData == old(formData) && errors == map[]
    {
      message := "";
      var ok := ValidateForm();
      if !ok {
        message := InvalidNotice;
        sent := None;
        return;
      }
      isSubmitting := true;
      sent := Some(formData);
      match result {
        case Success(reply) =>
          if reply.success {
            message := SuccessNotice;
            ResetForm();
          } else {
            message := "❌ " + OrElse(reply.message, "Failed to schedule meeting");
          }
        case Failure(_) =>
          // The thrown Error carries no `response`, so the network message is shown.
          message := NetworkNotice;
      }
      isSubmitting := false;
    }
  }
}
