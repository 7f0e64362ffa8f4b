/** The admin projects table: its rows, the create/edit form, and the list
    updates after each request. */
module ProjectTable {
  import opened Wrappers
  import opened ListUpdates
  import opened AdminCommon

  /** A project row; only the fields the table's logic reads are kept. */
  datatype Project = Project(id: string, name: string, client: string, status: string, budget: int)

  datatype ProjectForm = ProjectForm(name: string, client: string, status: string, budget: int)

  const BlankForm := ProjectForm("", "", "planning", 0)

  function ProjectId(p: Project): string {
    p.id
  }

  /** The request a handler sends to `/api/admin/projects`. */
  datatype Call = Post(form: ProjectForm) | Put(id: string, form: ProjectForm) | Delete(id: string)

  /** `getStatusColor`: the badge classes for the five statuses, gray otherwise. */
  function StatusColor(status: string): (r: string)
    ensures status == "planning" ==> r == "bg-blue-100 text-blue-800"
    ensures status == "active" ==> r == "bg-green-100 text-green-800"
    ensures status == "on-hold" ==> r == "bg-yellow-100 text-yellow-800"
    ensures status == "cancelled" ==> r == "bg-red-100 text-red-800"
    ensures status !in {"planning", "active", "on-hold", "cancelled"} ==> r == "bg-gray-100 text-gray-800"
  {
    match status
    case "planning" => "bg-blue-100 text-blue-800"
    case "active" => "bg-green-100 text-green-800"
    case "on-hold" => "bg-yellow-100 text-yellow-800"
    case "completed" => "bg-gray-100 text-gray-800"
    case "cancelled" => "bg-red-100 text-red-800"
    case _ => "bg-gray-100 text-gray-800"
  }

  class ProjectTableState {
    var projects: seq<Project>
    var loading: bool
    var editing: Option<Project>
    var error: Option<string>
    var form: ProjectForm

    constructor ()
      ensures projects == [] && loading && editing == None && error == None && form == BlankForm
    {
      projects := [];
      loading := true;
      editing := None;
      error := None;
      form := BlankForm;
    }

    /** The load effect: nothing happens until a user is signed in. */
    method Load(signedIn: bool, result: Result<Reply<Option<seq<Project>>>, string>)
      modifies this`projects, this`error, this`loading
      ensures !signedIn ==> projects == old(projects) && error == old(error) && loading == old(loading)
      ensures signedIn ==> !loading
      ensures signedIn && result.Success? && result.value.success ==>
        projects == result.value.data.GetOr([]) && error == None
      ensures signedIn && result.Success? && !result.value.success ==>
        projects == old(projects) && error == Some("Failed to load projects")
      ensures signedIn && result.Failure? ==>
        projects == old(projects) && error == Some(CaughtMessage(result.error, "Failed to load projects"))
    {
      if !signedIn {
        return;
      }
      match result {
        case Success(reply) =>
          if reply.success {
            projects := reply.data.GetOr([]);
            error := None;
          } else {
            error := Some("Failed to load projects");
          }
        case Failure(message) =>
          error := Some(CaughtMessage(message, "Failed to load projects"));
      }
      loading := false;
    }

    /** `startEdit`: copy the row's four editable fields into the form. */
    method StartEdit(p: Project)
      modifies this`editing, this`form
      ensures editing == Some(p) && form == ProjectForm(p.name, p.client, p.status, p.budget)
    {
      editing := Some(p);
      form := ProjectForm(p.name, p.client, p.status, p.budget);
    }

    /** `create`: prepend the returned project and clear the form. */
    method Create(signedIn: bool, result: Result<Reply<Project>, string>) returns (sent: Option<Call>)
      modifies this`projects, this`form, this`error
      ensures sent == (if signedIn then Some(Post(old(form))) else None)
      ensures sent.None? || !(result.Success? && result.value.success) ==>
        projects == old(projects) && form == old(form)
      ensures sent.Some? && result.Success? && result.value.success ==>
        projects == [result.value.data] + old(projects) && form == BlankForm && error == None
      ensures sent.Some? && result.Success? && !result.value.success ==> error == Some("Failed to create project")
      ensures sent.Some? && result.Failure? ==> error == Some(CaughtMessage(result.error, "Failed to create project"))
      ensures sent.None? ==> error == old(error)
    {
      if !signedIn {
        return None;
      }
      sent := Some(Post(form));
      match result {
        case Success(reply) =>
          if reply.success {
            projects := [reply.data] + projects;
            form := BlankForm;
            error := None;
          } else {
            error := Some("Failed to create project");
          }
        case Failure(message) =>
          error := Some(CaughtMessage(message, "Failed to create project"));
      }
    }

    /** `save`: replace the row with the returned `_id`, stop editing and
        clear the form. Nothing is sent without a user or a row being edited. */
    method Save(signedIn: bool, result: Result<Reply<Project>, string>) returns (sent: Option<Call>)
      modifies this`projects, this`form, this`error, this`editing
      ensures sent == (if signedIn && old(editing).Some? then Some(Put(old(editing).value.id, old(form))) else None)
      ensures sent.None? || !(result.Success? && result.value.success) ==>
        projects == old(projects) && form == old(form) && editing == old(editing)
      ensures sent.Some? && result.Success? && result.value.success ==>
        projects == ReplaceById(old(projects), ProjectId, result.value.data)
        && editing == None && form == BlankForm && error == None
      ensures UniqueIds(old(projects), ProjectId) ==> UniqueIds(projects, ProjectId)
      ensures sent.Some? && result.Success? && !result.value.success ==> error == Some("Failed to update project")
      ensures sent.Some? && result.Failure? ==> error == Some(CaughtMessage(result.error, "Failed to update project"))
      ensures sent.None? ==> error == old(error)
    {
      if !signedIn || editing.None? {
        return None;
      }
      sent := Some(Put(editing.value.id, form));
      match result {
        case Success(reply) =>
          if reply.success {
            ReplaceKeepsIds(projects, ProjectId, reply.data);
            projects := ReplaceById(projects, ProjectId, reply.data);
            editing := None;
            form := BlankForm;
            error := None;
          } else {
            error := Some("Failed to update project");
          }
        case Failure(message) =>
          error := Some(CaughtMessage(message, "Failed to update project"));
      }
    }

    /** `remove`: after the user confirms, filter out the deleted `_id`. */
    method Remove(signedIn: bool, confirmed: bool, id: string, result: Result<Reply<()>, string>) returns (sent: Option<Call>)
      modifies this`projects, this`error
      ensures sent == (if signedIn && confirmed then Some(Delete(id)) else None)
      ensures sent.None? || !(result.Success? && result.value.success) ==> projects == old(projects)
      ensures sent.Some? && result.Success? && result.value.success ==>
        projects == RemoveById(old(projects), ProjectId, id) && error == None && id !in Ids(projects, ProjectId)
      ensures UniqueIds(old(projects), ProjectId) ==> UniqueIds(projects, ProjectId)
      ensures sent.Some? && result.Success? && !result.value.success ==> error == Some("Failed to delete project")
      ensures sent.Some? && result.Failure? ==> error == Some(CaughtMessage(result.error, "Failed to delete project"))
      ensures sent.None? ==> error == old(error)
    {
      if !signedIn || !confirmed {
        return None;
      }
      sent := Some(Delete(id));
      match result {
        case Success(reply) =>
          if reply.success {
            RemoveSpec(projects, ProjectId, id);
            if UniqueIds(projects, ProjectId) {
              FilterKeepsUnique(projects, ProjectId, IdIsNot(ProjectId, id));
            }
            projects := RemoveById(projects, ProjectId, id);
            error := None;
          } else {
            error := Some("Failed to delete project");
          }
        case Failure(message) =>
          error := Some(CaughtMessage(message, "Failed to delete project"));
      }
    }

    /** `cancelEdit`. */
    method CancelEdit()
      modifies this`editing, this`form
      ensures editing == None && form == BlankForm
    {
      editing := None;
      form := BlankForm;
    }
  }
}
