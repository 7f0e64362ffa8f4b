/** The cookie banner: it shows until a decision is stored in the
    browser's local storage, and each decision is stored and logged. */
module CookieConsent {
  import opened Wrappers

  const ConsentKey := "corus_cookie_consent"

  /** The body of the consent log request. */
  datatype ConsentLog = ConsentLog(consent: bool, timestamp: string, userAgent: string)

  /** What the stored value means: `true` only for the exact text "true". */
  function StoredDecision(stored: Option<string>): (r: Option<bool>)
    ensures r.None? <==> stored.None?
    ensures r == Some(true) <==> stored == Some("true")
  {
    if stored.None? then None else Some(stored.value == "true")
  }

  /** The text a decision is stored as. */
  function StoredText(decision: bool): (r: string)
    ensures StoredDecision(Some(r)) == Some(decision)
  {
    if decision then "true" else "false"
  }

  class CookieBanner {
    var show: bool
    var accepted: Option<bool>
    var storage: map<string, string>

    /** Mounting reads the stored decision: none shows the banner, one sets
        `accepted` and keeps the banner hidden. */
    constructor (storage: map<string, string>)
      ensures this.storage == storage
      ensures show <==> ConsentKey !in storage
      ensures accepted == StoredDecision(if ConsentKey in storage then Some(storage[ConsentKey]) else None)
    {
      this.storage := storage;
      if ConsentKey in storage {
        show := false;
        accepted := Some(storage[ConsentKey] == "true");
      } else {
        show := true;
        accepted := None;
      }
    }

    /** `acceptAll`: store and log consent, hide the banner, and report the
        `consent_granted` event when analytics is present. */
    method AcceptAll(now: string, userAgent: string, hasAnalytics: bool) returns (log: ConsentLog, event: Option<string>)
      modifies this
      ensures storage == old(storage)[ConsentKey := "true"]
      ensures accepted == Some(true) && !show
      ensures log == ConsentLog(true, now, userAgent)
      ensures event == if hasAnalytics then Some("consent_granted") else None
    {
      Decide(true);
      log := ConsentLog(true, now, userAgent);
      event := if hasAnalytics then Some("consent_granted") else None;
    }

    /** `decline`: store and log the refusal and hide the banner. */
    method Decline(now: string, userAgent: string) returns (log: ConsentLog)
      modifies this
      ensures storage == old(storage)[ConsentKey := "false"]
      ensures accepted == Some(false) && !show
      ensures log == ConsentLog(false, now, userAgent)
    {
      Decide(false);
      log := ConsentLog(false, now, userAgent);
    }

    method Decide(decision: bool)
      modifies this
      ensures storage == old(storage)[ConsentKey := StoredText(decision)]
      ensures accepted == Some(decision) && !show
    {
      storage := storage[ConsentKey := StoredText(decision)];
      accepted := Some(decision);
      show := false;
    }
  }

  /** A decision survives a reload: a banner mounted over the storage a
      decision left behind stays hidden and reads the same decision. */
  method DecisionSurvivesReload(storage: map<string, string>, decision: bool, now: string, userAgent: string)
    returns (reloaded: CookieBanner)
    ensures !reloaded.show && reloaded.accepted == Some(decision)
  {
    var banner := new CookieBanner(storage);
    if decision {
      var _, _ := banner.AcceptAll(now, userAgent, false);
    } else {
      var _ := banner.Decline(now, userAgent);
    }
    reloaded := new CookieBanner(banner.storage);
  }
}
