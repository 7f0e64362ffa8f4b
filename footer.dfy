/** The footer's newsletter sign-up: the e-mail test, the two guards in front
    of the request, and the notice and field updates after it. */
module Footer {
  import opened Wrappers
  import opened FormPatterns

  datatype NoticeKind = SuccessNotice | ErrorNotice
  datatype Notice = Notice(kind: NoticeKind, text: string)

  /** The JSON body posted to `/api/newsletter`. */
  datatype Payload = Payload(email: string, consent: bool, source: string)

  /** What the request produced: an answer with its `ok` flag and the body's
      `message`, or a throw (transport failure or unreadable body) with the
      error's `message`. */
  datatype Outcome =
    | Answered(ok: bool, bodyMessage: Option<string>)
    | Threw(errorMessage: Option<string>)

  /** `validateEmail`: the unanchored `\S+@\S+\.\S+` test. */
  predicate ValidateEmail(email: string) {
    EmailPattern(email)
  }

  /** The notice a request outcome leads to. */
  function OutcomeNotice(outcome: Outcome): (r: Notice)
    ensures r.kind == SuccessNotice <==> outcome.Answered? && outcome.ok
    ensures r.kind == SuccessNotice ==> r.text == "Check your inbox for confirmation"
    ensures outcome.Answered? && !outcome.ok ==> r.text == OrElse(outcome.bodyMessage, "Subscription failed")
    ensures outcome.Threw? ==> r.text == OrElse(outcome.errorMessage, "Subscription failed")
    ensures r.text != ""
  {
    match outcome
    case Answered(ok, bodyMessage) =>
      if ok then Notice(SuccessNotice, "Check your inbox for confirmation")
      // The thrown Error's message is the body message or the default, never empty.
      else Notice(ErrorNotice, OrElse(Some(OrElse(bodyMessage, "Subscription failed")), "Subscription failed"))
    case Threw(errorMessage) => Notice(ErrorNotice, OrElse(errorMessage, "Subscription failed"))
  }

  class SubscribeForm {
    var email: string
    var consent: bool
    var loading: bool
    var message: Option<Notice>

    constructor ()
      ensures email == "" && !consent && !loading && message == None
    {
      email := "";
      consent := false;
      loading := false;
      message := None;
    }

    /** `handleSubscribe`, given what the request would produce. `sent` is
        the payload posted, if any. */
    method HandleSubscribe(outcome: Outcome) returns (sent: Option<Payload>)
      modifies this
      ensures sent.Some? <==> ValidateEmail(old(email)) && old(consent)
      ensures sent.Some? ==> sent.value == Payload(old(email), true, "footer") && !loading
      ensures sent.None? ==> loading == old(loading) && email == old(email) && consent == old(consent)
      ensures old(email) == "" || !ValidateEmail(old(email)) ==> message == Some(Notice(ErrorNotice, "Invalid email"))
      ensures old(email) != "" && ValidateEmail(old(email)) && !old(consent) ==>
        message == Some(Notice(ErrorNotice, "Accept privacy policy"))
      ensures sent.Some? ==> message == Some(OutcomeNotice(outcome))
      ensures sent.Some? && message.value.kind == SuccessNotice ==> email == "" && !consent
      ensures sent.Some? && message.value.kind == ErrorNotice ==> email == old(email) && consent == old(consent)
    {
      message := None;
      if email == "" || !ValidateEmail(email) {
        message := Some(Notice(ErrorNotice, "Invalid email"));
        return None;
      }
      if !consent {
        message := Some(Notice(ErrorNotice, "Accept privacy policy"));
        return None;
      }
      loading := true;
      sent := Some(Payload(email, consent, "footer"));
      match outcome {
        case Answered(ok, bodyMessage) =>
          if !ok {
            var thrown := OrElse(bodyMessage, "Subscription failed");
            message := Some(Notice(ErrorNotice, OrElse(Some(thrown), "Subscription failed")));
          } else {
            message := Some(Notice(SuccessNotice, "Check your inbox for confirmation"));
            email := "";
            consent := false;
          }
        case Threw(errorMessage) =>
          message := Some(Notice(ErrorNotice, OrElse(errorMessage, "Subscription failed")));
      }
      loading := false;
    }
  }
}
