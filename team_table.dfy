/** The admin team table: members are created, edited and deleted by
    request, and after each successful request the whole list is loaded
    again instead of being updated locally. */
module TeamTable {
  import opened Wrappers
  import opened AdminCommon

  /** A team member row; only the fields the table's logic reads are kept. */
  datatype TeamMember = TeamMember(id: string, name: string, email: string, role: string,
                                   department: string, position: string, phone: Option<string>,
                                   status: string)

  datatype MemberForm = MemberForm(name: string, email: string, role: string,
                                   department: string, position: string, phone: string)

  const BlankForm := MemberForm("", "", "", "", "", "")

  /** The request a handler sends to `/api/admin/team`. */
  datatype Call = Post(form: MemberForm) | Put(id: string, form: MemberForm) | Delete(id: string)

  /** The members after `loadMembers`: the returned list on a successful
      reply, the old list otherwise. */
  function Reloaded(members: seq<TeamMember>, reload: Result<Reply<Option<seq<TeamMember>>>, string>): (r: seq<TeamMember>)
    ensures reload.Success? && reload.value.success && reload.value.data.Some? ==> r == reload.value.data.value
    ensures reload.Success? && reload.value.success && reload.value.data.None? ==> r == []
    ensures !(reload.Success? && reload.value.success) ==> r == members
  {
    if reload.Success? && reload.value.success then reload.value.data.GetOr([]) else members
  }

  /** The error after `loadMembers`: cleared before the request, so only a
      thrown request leaves one, and an unsuccessful reply shows none. */
  function ReloadError(reload: Result<Reply<Option<seq<TeamMember>>>, string>): (r: Option<string>)
    ensures r.Some? <==> reload.Failure?
    ensures reload.Failure? && reload.error != "" ==> r == Some(reload.error)
  {
    if reload.Failure? then Some(CaughtMessage(reload.error, "Failed to load team members")) else None
  }

  /** `getStatusColor`. */
  function StatusColor(status: string): (r: string)
    ensures status == "active" ==> r == "bg-green-100 text-green-800"
    ensures status == "on-leave" ==> r == "bg-yellow-100 text-yellow-800"
    ensures status != "active" && status != "on-leave" ==> r == "bg-gray-100 text-gray-800"
  {
    match status
    case "active" => "bg-green-100 text-green-800"
    case "inactive" => "bg-gray-100 text-gray-800"
    case "on-leave" => "bg-yellow-100 text-yellow-800"
    case _ => "bg-gray-100 text-gray-800"
  }

  /** The three fields `create` demands, by JavaScript truthiness. */
  predicate RequiredFilled(f: MemberForm) {
    f.name != "" && f.email != "" && f.role != ""
  }

  class TeamTableState {
    var members: seq<TeamMember>
    var loading: bool
    var mutating: bool
    var form: MemberForm
    var editing: Option<TeamMember>
    var error: Option<string>

    /** Mounting runs `loadMembers` once, whoever is signed in. */
    constructor (reload: Result<Reply<Option<seq<TeamMember>>>, string>)
      ensures members == Reloaded([], reload) && error == ReloadError(reload)
      ensures !loading && !mutating && form == BlankForm && editing == None
    {
      members := [];
      loading := true;
      mutating := false;
      form := BlankForm;
      editing := None;
      error := None;
      new;
      LoadMembers(reload);
    }

    /** `loadMembers`, also the Retry button of the error view. */
    method LoadMembers(reload: Result<Reply<Option<seq<TeamMember>>>, string>)
      modifies this`members, this`error, this`loading
      ensures members == Reloaded(old(members), reload) && error == ReloadError(reload) && !loading
    {
      error := None;
      match reload {
        case Success(reply) =>
          if reply.success {
            members := reply.data.GetOr([]);
          }
        case Failure(message) =>
          error := Some(CaughtMessage(message, "Failed to load team members"));
      }
      loading := false;
    }

    /** `create`: the required fields first, then the admin check, each with
        its alert. A successful reply reloads the list and clears the form;
        a thrown request alerts and keeps the form. */
    method Create(admin: bool, result: Result<Reply<TeamMember>, string>,
                  reload: Result<Reply<Option<seq<TeamMember>>>, string>)
      returns (sent: Option<Call>, alert: Option<string>)
      modifies this`members, this`error, this`loading, this`mutating, this`form
      ensures !RequiredFilled(old(form)) ==> alert == Some("Please fill in required fields: Name, Email, and Role")
      ensures RequiredFilled(old(form)) && !admin ==> alert == Some("Unauthorized access")
      ensures sent == (if RequiredFilled(old(form)) && admin then Some(Post(old(form))) else None)
      ensures sent.None? ==> mutating == old(mutating)
      ensures sent.Some? ==> !mutating
      ensures sent.Some? && result.Success? && result.value.success ==>
        members == Reloaded(old(members), reload) && error == ReloadError(reload) && form == BlankForm && alert == None
      ensures sent.Some? && result.Failure? ==> alert == Some("Failed to create team member. Please try again.")
      ensures !(sent.Some? && result.Success? && result.value.success) ==>
        members == old(members) && error == old(error) && form == old(form)
      ensures sent.Some? && result.Success? ==> alert == None
      ensures sent.Some? && result.Success? && result.value.success ==> !loading
      ensures !(sent.Some? && result.Success? && result.value.success) ==> loading == old(loading)
    {
      if !RequiredFilled(form) {
        return None, Some("Please fill in required fields: Name, Email, and Role");
      }
      if !admin {
        return None, Some("Unauthorized access");
      }
      mutating := true;
      sent, alert := Some(Post(form)), None;
      match result {
        case Success(reply) =>
          if reply.success {
            LoadMembers(reload);
            form := BlankForm;
          }
        case Failure(_) =>
          alert := Some("Failed to create team member. Please try again.");
      }
      mutating := false;
    }

    /** `startEdit`: copy the member into the form; a missing phone becomes
        the empty string. */
    method StartEdit(m: TeamMember)
      modifies this`editing, this`form
      ensures editing == Some(m)
      ensures form == MemberForm(m.name, m.email, m.role, m.department, m.position, OrElse(m.phone, ""))
    {
      editing := Some(m);
      form := MemberForm(m.name, m.email, m.role, m.department, m.position, OrElse(m.phone, ""));
    }

    /** `save`: needs only a member being edited; the admin check is the
        disabled state of the Save button, not part of the handler. */
    method Save(result: Result<Reply<TeamMember>, string>,
                reload: Result<Reply<Option<seq<TeamMember>>>, string>)
      returns (sent: Option<Call>, alert: Option<string>)
      modifies this`members, this`error, this`loading, this`mutating, this`form, this`editing
      ensures sent == (if old(editing).Some? then Some(Put(old(editing).value.id, old(form))) else None)
      ensures sent.None? ==> mutating == old(mutating)
      ensures sent.Some? ==> !mutating
      ensures sent.Some? && result.Success? && result.value.success ==>
        members == Reloaded(old(members), reload) && error == ReloadError(reload)
        && editing == None && form == BlankForm
      ensures !(sent.Some? && result.Success? && result.value.success) ==>
        members == old(members) && error == old(error) && form == old(form) && editing == old(editing)
      ensures alert == (if sent.Some? && result.Failure? then Some("Failed to update team member. Please try again.") else None)
      ensures sent.Some? && result.Success? && result.value.success ==> !loading
      ensures !(sent.Some? && result.Success? && result.value.success) ==> loading == old(loading)
    {
      if editing.None? {
        return None, None;
      }
      mutating := true;
      sent, alert := Some(Put(editing.value.id, form)), None;
      match result {
        case Success(reply) =>
          if reply.success {
            LoadMembers(reload);
            editing := None;
            form := BlankForm;
          }
        case Failure(_) =>
          alert := Some("Failed to update team member. Please try again.");
      }
      mutating := false;
    }

    /** `remove`: nothing unless the user confirms and is an admin; the list
        is reloaded after a successful delete. */
    method Remove(confirmed: bool, admin: bool, id: string, result: Result<Reply<()>, string>,
                  reload: Result<Reply<Option<seq<TeamMember>>>, string>)
      returns (sent: Option<Call>, alert: Option<string>)
      modifies this`members, this`error, this`loading, this`mutating
      ensures sent == (if confirmed && admin then Some(Delete(id)) else None)
      ensures sent.None? ==> mutating == old(mutating)
      ensures sent.Some? ==> !mutating
      ensures sent.Some? && result.Success? && result.value.success ==>
        members == Reloaded(old(members), reload) && error == ReloadError(reload)
      ensures !(sent.Some? && result.Success? && result.value.success) ==>
        members == old(members) && error == old(error)
      ensures alert == (if sent.Some? && result.Failure? then Some("Failed to delete team member. Please try again.") else None)
      ensures sent.Some? && result.Success? && result.value.success ==> !loading
      ensures !(sent.Some? && result.Success? && result.value.success) ==> loading == old(loading)
    {
      if !confirmed || !admin {
        return None, None;
      }
      mutating := true;
      sent, alert := Some(Delete(id)), None;
      match result {
        case Success(reply) =>
          if reply.success {
            LoadMembers(reload);
          }
        case Failure(_) =>
          alert := Some("Failed to delete team member. Please try again.");
      }
      mutating := false;
    }

    /** `cancelEdit`. */
    method CancelEdit()
      modifies this`editing, this`form
      ensures editing == None && form == BlankForm
    {
      editing := None;
      form := BlankForm;
    }
  }
}
