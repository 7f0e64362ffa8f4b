/** The admin consultations table: the requests received, their status
    select, and the list updates after each request. */
module ConsultationTable {
  import opened Wrappers
  import opened ListUpdates
  import opened AdminCommon

  /** A consultation row; only the fields the table's logic reads are kept. */
  datatype Consultation = Consultation(id: string, name: string, email: string, status: string)

  function ConsultationId(c: Consultation): string {
    c.id
  }

  /** The request a handler sends: `PUT { status }` or `DELETE`. */
  datatype Call = PutStatus(id: string, status: string) | Delete(id: string)

  /** The status badge classes: blue, yellow and purple for the first three
      statuses, green for anything else. */
  function StatusBadge(status: string): (r: string)
    ensures status == "new" ==> r == "bg-blue-100 text-blue-800"
    ensures status == "contacted" ==> r == "bg-yellow-100 text-yellow-800"
    ensures status == "in-progress" ==> r == "bg-purple-100 text-purple-800"
    ensures status !in {"new", "contacted", "in-progress"} ==> r == "bg-green-100 text-green-800"
  {
    if status == "new" then "bg-blue-100 text-blue-800"
    else if status == "contacted" then "bg-yellow-100 text-yellow-800"
    else if status == "in-progress" then "bg-purple-100 text-purple-800"
    else "bg-green-100 text-green-800"
  }

  class ConsultationTableState {
    var items: seq<Consultation>
    var loading: bool
    var error: Option<string>

    constructor ()
      ensures items == [] && loading && error == None
    {
      items := [];
      loading := true;
      error := None;
    }

    /** The load effect. */
    method Load(signedIn: bool, result: Result<Reply<Option<seq<Consultation>>>, string>)
      modifies this`items, this`error, this`loading
      ensures !signedIn ==> items == old(items) && error == old(error) && loading == old(loading)
      ensures signedIn ==> !loading
      ensures signedIn && result.Success? && result.value.success ==>
        items == result.value.data.GetOr([]) && error == None
      ensures signedIn && result.Success? && !result.value.success ==>
        items == old(items) && error == Some("Failed to load consultations")
      ensures signedIn && result.Failure? ==>
        items == old(items) && error == Some(CaughtMessage(result.error, "Failed to load consultations"))
    {
      if !signedIn {
        return;
      }
      match result {
        case Success(reply) =>
          if reply.success {
            items := reply.data.GetOr([]);
            error := None;
          } else {
            error := Some("Failed to load consultations");
          }
        case Failure(message) =>
          error := Some(CaughtMessage(message, "Failed to load consultations"));
      }
      loading := false;
    }

    /** `updateStatus`: replace the row with the returned one. The reply's
        failure and the thrown request use different fallback messages. */
    method UpdateStatus(signedIn: bool, id: string, status: string, result: Result<Reply<Consultation>, string>)
      returns (sent: Option<Call>)
      modifies this`items, this`error
      ensures sent == (if signedIn then Some(PutStatus(id, status)) else None)
      ensures sent.None? || !(result.Success? && result.value.success) ==> items == old(items)
      ensures sent.Some? && result.Success? && result.value.success ==>
        items == ReplaceById(old(items), ConsultationId, result.value.data) && error == None
      ensures UniqueIds(old(items), ConsultationId) ==> UniqueIds(items, ConsultationId)
      ensures sent.Some? && result.Success? && !result.value.success ==>
        error == Some("Failed to update consultation status")
      ensures sent.Some? && result.Failure? ==>
        error == Some(CaughtMessage(result.error, "Failed to update consultation"))
      ensures sent.None? ==> error == old(error)
    {
      if !signedIn {
        return None;
      }
      sent := Some(PutStatus(id, status));
      match result {
        case Success(reply) =>
          if reply.success {
            ReplaceKeepsIds(items, ConsultationId, reply.data);
            items := ReplaceById(items, ConsultationId, reply.data);
            error := None;
          } else {
            error := Some("Failed to update consultation status");
          }
        case Failure(message) =>
          error := Some(CaughtMessage(message, "Failed to update consultation"));
      }
    }

    /** `remove`: after the user confirms, filter out the deleted `_id`. */
    method Remove(signedIn: bool, confirmed: bool, id: string, result: Result<Reply<()>, string>) returns (sent: Option<Call>)
      modifies this`items, this`error
      ensures sent == (if signedIn && confirmed then Some(Delete(id)) else None)
      ensures sent.None? || !(result.Success? && result.value.success) ==> items == old(items)
      ensures sent.Some? && result.Success? && result.value.success ==>
        items == RemoveById(old(items), ConsultationId, id) && error == None && id !in Ids(items, ConsultationId)
      ensures UniqueIds(old(items), ConsultationId) ==> UniqueIds(items, ConsultationId)
      ensures sent.Some? && result.Success? && !result.value.success ==> error == Some("Failed to delete consultation")
      ensures sent.Some? && result.Failure? ==> error == Some(CaughtMessage(result.error, "Failed to delete consultation"))
      ensures sent.None? ==> error == old(error)
    {
      if !signedIn || !confirmed {
        return None;
      }
      sent := Some(Delete(id));
      match result {
        case Success(reply) =>
          if reply.success {
            RemoveSpec(items, ConsultationId, id);
            if UniqueIds(items, ConsultationId) {
              FilterKeepsUnique(items, ConsultationId, IdIsNot(ConsultationId, id));
            }
            items := RemoveById(items, ConsultationId, id);
            error := None;
          } else {
            error := Some("Failed to delete consultation");
          }
        case Failure(message) =>
          error := Some(CaughtMessage(message, "Failed to delete consultation"));
      }
    }
  }
}
