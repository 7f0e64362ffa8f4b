/** The blog post editor of the admin dashboard: a draft that starts from
    an optional post, a save that hands a payload to the caller, and a
    cancel that clears the draft when the caller gives no handler. */
module Editor {
  import opened Wrappers

  /** The fields of the `initial` post the editor reads; each may be absent. */
  datatype Initial = Initial(title: Option<string>, excerpt: Option<string>, content: Option<string>,
                             category: Option<string>, status: Option<string>)

  datatype Draft = Draft(title: string, excerpt: string, content: string, category: string, status: string)

  /** The payload handed to `onSave`; `contentHtml` repeats `content`. */
  datatype Payload = Payload(title: string, excerpt: string, content: string, contentHtml: string,
                             category: string, status: string)

  const BlankDraft := Draft("", "", "", "", "draft")

  /** The `useState` initialisers: `initial?.field ?? default`. */
  function StartDraft(initial: Option<Initial>): (r: Draft)
    ensures initial.None? ==> r == BlankDraft
    ensures initial.Some? && initial.value.status.Some? ==> r.status == initial.value.status.value
    ensures initial.Some? && initial.value.status.None? ==> r.status == "draft"
    ensures initial.Some? ==> r.title == OrNullish(initial.value.title, "")
    ensures initial.Some? ==> r.excerpt == OrNullish(initial.value.excerpt, "")
    ensures initial.Some? ==> r.content == OrNullish(initial.value.content, "")
    ensures initial.Some? ==> r.category == OrNullish(initial.value.category, "")
  {
    match initial
    case None => BlankDraft
    case Some(i) =>
      Draft(OrNullish(i.title, ""), OrNullish(i.excerpt, ""), OrNullish(i.content, ""),
            OrNullish(i.category, ""), OrNullish(i.status, "draft"))
  }

  /** The re-sync effect: `initial.field || default`, so an empty status
      becomes `draft`. */
  function SyncedDraft(i: Initial): (r: Draft)
    ensures r.status != ""
    ensures Truthy(i.status) ==> r.status == i.status.value
    ensures !Truthy(i.status) ==> r.status == "draft"
    ensures r.title == OrNullish(i.title, "")
    ensures r.excerpt == OrNullish(i.excerpt, "")
    ensures r.content == OrNullish(i.content, "")
    ensures r.category == OrNullish(i.category, "")
  {
    Draft(OrElse(i.title, ""), OrElse(i.excerpt, ""), OrElse(i.content, ""),
          OrElse(i.category, ""), OrElse(i.status, "draft"))
  }

  /** The payload built from a draft. */
  function PayloadOf(d: Draft): (r: Payload)
    ensures r.contentHtml == r.content == d.content
    ensures Draft(r.title, r.excerpt, r.content, r.category, r.status) == d
  {
    Payload(d.title, d.excerpt, d.content, d.content, d.category, d.status)
  }

  /** The two initialisations agree except on an empty status, which the
      initialiser keeps and the effect replaces by `draft`. */
  lemma StartThenSync(i: Initial)
    ensures StartDraft(Some(i)) == SyncedDraft(i) <==> i.status != Some("")
  {
    if i.status == Some("") {
      assert StartDraft(Some(i)).status == "" != SyncedDraft(i).status;
    }
  }

  class EditorState {
    var initial: Option<Initial>
    var draft: Draft

    /** Mounting runs the initialisers and then the effect. */
    constructor (initial: Option<Initial>)
      ensures this.initial == initial
      ensures draft == if initial.Some? then SyncedDraft(initial.value) else BlankDraft
    {
      this.initial := initial;
      draft := StartDraft(initial);
      if initial.Some? {
        draft := SyncedDraft(initial.value);
      }
    }

    /** A new `initial` prop: the effect re-syncs the draft when it is present. */
    method SetInitial(newInitial: Option<Initial>)
      modifies this
      ensures initial == newInitial
      ensures draft == if newInitial.Some? then SyncedDraft(newInitial.value) else old(draft)
    {
      initial := newInitial;
      if newInitial.Some? {
        draft := SyncedDraft(newInitial.value);
      }
    }

    /** The inputs: each sets one field of the draft. */
    method Edit(d: Draft)
      modifies this`draft
      ensures draft == d
    {
      draft := d;
    }

    /** `handleSave`. Without a user only the login alert shows. Otherwise
        the payload goes to `onSave` when there is one (an alert otherwise),
        and in create mode the draft is cleared. */
    method HandleSave(signedIn: bool, hasOnSave: bool) returns (saved: Option<Payload>, alert: Option<string>)
      modifies this`draft
      ensures !signedIn ==> saved == None && alert == Some("Please login to save content") && draft == old(draft)
      ensures signedIn && hasOnSave ==> saved == Some(PayloadOf(old(draft))) && alert == None
      ensures signedIn && !hasOnSave ==> saved == None && alert == Some("No onSave handler provided")
      ensures signedIn ==> draft == if initial.None? then BlankDraft else old(draft)
    {
      if !signedIn {
        return None, Some("Please login to save content");
      }
      var payload := PayloadOf(draft);
      if hasOnSave {
        saved, alert := Some(payload), None;
      } else {
        saved, alert := None, Some("No onSave handler provided");
      }
      if initial.None? {
        draft := BlankDraft;
      }
    }

    /** `handleCancel`: the caller's handler when there is one, otherwise a
        cleared draft. */
    method HandleCancel(hasOnCancel: bool) returns (cancelled: bool)
      modifies this`draft
      ensures cancelled == hasOnCancel
      ensures draft == if hasOnCancel then old(draft) else BlankDraft
    {
      cancelled := hasOnCancel;
      if !hasOnCancel {
        draft := BlankDraft;
      }
    }
  }
}
