/** The two regular expressions the forms test values against: the e-mail
    pattern `\S+@\S+\.\S+` (unanchored, shared by the schedule, consultation
    and newsletter forms) and the phone pattern `^[\d\s\-\(\)\+]{10,15}$`. */
module FormPatterns {
  import opened Wrappers
  import opened JsText

  /** The full-name rule the schedule and consultation forms share. */
  function NameError(name: string): (r: Option<string>)
    ensures r.None? <==> |Trim(name)| >= 2
  {
    if Trim(name) == "" then Some("Full name is required")
    else if |Trim(name)| < 2 then Some("Name is too short")
    else None
  }

  /** The e-mail rule the schedule and consultation forms share. */
  function EmailError(email: string): (r: Option<string>)
    ensures r.None? <==> EmailPattern(email)
  {
    if Trim(email) == "" then Some("Email address is required")
    else if !EmailPattern(email) then Some("Please enter a valid email address")
    else None
  }

  /** The optional phone rule: an empty phone is accepted. */
  function PhoneError(phone: string): (r: Option<string>)
    ensures r.None? <==> phone == "" || PhonePattern(phone)
  {
    if phone != "" && !PhonePattern(phone) then Some("Please enter a valid phone number") else None
  }

  /** An `@` at `p` and a `.` at `q` that the e-mail pattern can match around:
      a non-space character before the `@`, at least one non-space character
      between them, and a non-space character after the dot. */
  predicate EmailMatchAt(s: string, p: int, q: int) {
    1 <= p && p + 2 <= q && q + 2 <= |s|
    && s[p] == '@' && s[q] == '.'
    && !IsSpace(s[p - 1]) && !IsSpace(s[q + 1])
    && (forall k :: p < k < q ==> !IsSpace(s[k]))
  }

  /** `/\S+@\S+\.\S+/.test(s)`: some substring of `s` matches. */
  predicate EmailPattern(s: string) {
    exists p, q | 1 <= p < |s| && p < q < |s| :: EmailMatchAt(s, p, q)
  }

  /** `\d\s\-\(\)\+`: an ASCII digit, whitespace, or one of `- ( ) +`. */
  predicate PhoneChar(c: char) {
    ('0' <= c <= '9') || IsSpace(c) || c == '-' || c == '(' || c == ')' || c == '+'
  }

  /** `/^[\d\s\-\(\)\+]{10,15}$/.test(s)`. */
  predicate PhonePattern(s: string) {
    10 <= |s| <= 15 && forall i :: 0 <= i < |s| ==> PhoneChar(s[i])
  }

  predicate SpaceFree(s: string) {
    forall i :: 0 <= i < |s| ==> !IsSpace(s[i])
  }

  /** A plain address `local@domain.tld` with no whitespace in its three parts
      passes the pattern. */
  lemma AddressMatches(local: string, domain: string, tld: string)
    requires local != "" && domain != "" && tld != ""
    requires SpaceFree(local) && SpaceFree(domain) && SpaceFree(tld)
    ensures EmailPattern(local + "@" + domain + "." + tld)
  {
    var s := local + "@" + domain + "." + tld;
    var p, q := |local|, |local| + 1 + |domain|;
    assert s[p - 1] == local[|local| - 1];
    assert s[q + 1] == tld[0];
    forall k | p < k < q ensures !IsSpace(s[k]) {
      assert s[k] == domain[k - p - 1];
    }
    assert EmailMatchAt(s, p, q);
  }

  /** The pattern is unanchored: text around a matching value never makes it fail. */
  lemma EmailPatternUnanchored(a: string, s: string, b: string)
    requires EmailPattern(s)
    ensures EmailPattern(a + s + b)
  {
    var p, q :| 1 <= p < |s| && p < q < |s| && EmailMatchAt(s, p, q);
    var t := a + s + b;
    forall k | 0 <= k < |s| ensures t[|a| + k] == s[k] { }
    assert EmailMatchAt(t, |a| + p, |a| + q);
  }

  /** A value without any `@` never passes. */
  lemma NoAtNoEmail(s: string)
    requires forall i :: 0 <= i < |s| ==> s[i] != '@'
    ensures !EmailPattern(s)
  {
  }

  /** A value of only whitespace (a blank field) never passes. */
  lemma BlankIsNotEmail(s: string)
    requires Trim(s) == ""
    ensures !EmailPattern(s)
  {
  }

  /** Any value the pattern accepts has at least five characters, so it is
      never the blank initial value of a form field. */
  lemma EmailAtLeastFive(s: string)
    requires EmailPattern(s)
    ensures |s| >= 5
  {
  }

  /** A value of ten to fifteen ASCII digits passes the phone pattern. */
  lemma DigitsArePhone(s: string)
    requires 10 <= |s| <= 15
    requires forall i :: 0 <= i < |s| ==> '0' <= s[i] <= '9'
    ensures PhonePattern(s)
  {
  }

  /** `newErrors.k = e` when a rule produced a message `e`. */
  function Put<K>(m: map<K, string>, k: K, e: Option<string>): (r: map<K, string>)
    ensures e.Some? ==> r == m[k := e.value]
    ensures e.None? ==> r == m
  {
    if e.Some? then m[k := e.value] else m
  }

  lemma PutLookup<K>(m: map<K, string>, k: K, e: Option<string>, f: K)
    ensures f in Put(m, k, e) <==> (f == k && e.Some?) || f in m
    ensures f in Put(m, k, e) && f == k && e.Some? ==> Put(m, k, e)[f] == e.value
    ensures f in Put(m, k, e) && f != k ==> Put(m, k, e)[f] == m[f]
  {
  }
}
