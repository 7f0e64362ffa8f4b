/** The admin scheduled-meetings table: the meetings requested, their
    status select, and the list updates after each request. */
module ScheduleTable {
  import opened Wrappers
  import opened ListUpdates
  import opened AdminCommon

  /** A schedule row; only the fields the table's logic reads are kept. */
  datatype Schedule = Schedule(id: string, name: string, meetingType: string, status: string,
                               meetingLink: Option<string>)

  function ScheduleId(s: Schedule): string {
    s.id
  }

  /** The request a handler sends: `PUT { status, meetingLink }` or `DELETE`. */
  datatype Call = PutStatus(id: string, status: string, meetingLink: Option<string>) | Delete(id: string)

  /** `getStatusColor`: one class set per status, gray with a gray border
      for `completed` and anything unknown. */
  function StatusColor(status: string): (r: string)
    ensures status == "pending" ==> r == "bg-yellow-100 text-yellow-800 border-yellow-200"
    ensures status == "confirmed" ==> r == "bg-green-100 text-green-800 border-green-200"
    ensures status == "cancelled" ==> r == "bg-red-100 text-red-800 border-red-200"
    ensures status !in {"pending", "confirmed", "cancelled"} ==> r == "bg-gray-100 text-gray-800 border-gray-200"
  {
    match status
    case "pending" => "bg-yellow-100 text-yellow-800 border-yellow-200"
    case "confirmed" => "bg-green-100 text-green-800 border-green-200"
    case "cancelled" => "bg-red-100 text-red-800 border-red-200"
    case "completed" => "bg-gray-100 text-gray-800 border-gray-200"
    case _ => "bg-gray-100 text-gray-800 border-gray-200"
  }

  /** `getMeetingTypeIcon`: an icon per meeting type, a calendar otherwise. */
  function MeetingTypeIcon(meetingType: string): (r: string)
    ensures meetingType == "consultation" ==> r == "💬"
    ensures meetingType == "demo" ==> r == "🎯"
    ensures meetingType == "technical" ==> r == "⚙️"
    ensures meetingType == "sales" ==> r == "💰"
    ensures meetingType !in {"consultation", "demo", "technical", "sales"} ==> r == "📅"
  {
    match meetingType
    case "consultation" => "💬"
    case "demo" => "🎯"
    case "technical" => "⚙️"
    case "sales" => "💰"
    case _ => "📅"
  }

  class ScheduleTableState {
    var schedules: seq<Schedule>
    var loading: bool
    var error: Option<string>

    constructor ()
      ensures schedules == [] && loading && error == None
    {
      schedules := [];
      loading := true;
      error := None;
    }

    /** The load effect. */
    method Load(signedIn: bool, result: Result<Reply<Option<seq<Schedule>>>, string>)
      modifies this`schedules, this`error, this`loading
      ensures !signedIn ==> schedules == old(schedules) && error == old(error) && loading == old(loading)
      ensures signedIn ==> !loading
      ensures signedIn && result.Success? && result.value.success ==>
        schedules == result.value.data.GetOr([]) && error == None
      ensures signedIn && result.Success? && !result.value.success ==>
        schedules == old(schedules) && error == Some("Failed to load schedules")
      ensures signedIn && result.Failure? ==>
        schedules == old(schedules) && error == Some(CaughtMessage(result.error, "Failed to load schedules"))
    {
      if !signedIn {
        return;
      }
      match result {
        case Success(reply) =>
          if reply.success {
            schedules := reply.data.GetOr([]);
            error := None;
          } else {
            error := Some("Failed to load schedules");
          }
        case Failure(message) =>
          error := Some(CaughtMessage(message, "Failed to load schedules"));
      }
      loading := false;
    }

    /** `updateStatus`: replace the row with the returned one. The status
        select passes no meeting link. */
    method UpdateStatus(signedIn: bool, id: string, status: string, meetingLink: Option<string>,
                        result: Result<Reply<Schedule>, string>) returns (sent: Option<Call>)
      modifies this`schedules, this`error
      ensures sent == (if signedIn then Some(PutStatus(id, status, meetingLink)) else None)
      ensures sent.None? || !(result.Success? && result.value.success) ==> schedules == old(schedules)
      ensures sent.Some? && result.Success? && result.value.success ==>
        schedules == ReplaceById(old(schedules), ScheduleId, result.value.data) && error == None
      ensures UniqueIds(old(schedules), ScheduleId) ==> UniqueIds(schedules, ScheduleId)
      ensures sent.Some? && result.Success? && !result.value.success ==> error == Some("Failed to update schedule")
      ensures sent.Some? && result.Failure? ==> error == Some(CaughtMessage(result.error, "Failed to update schedule"))
      ensures sent.None? ==> error == old(error)
    {
      if !signedIn {
        return None;
      }
      sent := Some(PutStatus(id, status, meetingLink));
      match result {
        case Success(reply) =>
          if reply.success {
            ReplaceKeepsIds(schedules, ScheduleId, reply.data);
            schedules := ReplaceById(schedules, ScheduleId, reply.data);
            error := None;
          } else {
            error := Some("Failed to update schedule");
          }
        case Failure(message) =>
          error := Some(CaughtMessage(message, "Failed to update schedule"));
      }
    }

    /** `remove`: after the user confirms, filter out the deleted `_id`. */
    method Remove(signedIn: bool, confirmed: bool, id: string, result: Result<Reply<()>, string>) returns (sent: Option<Call>)
      modifies this`schedules, this`error
      ensures sent == (if signedIn && confirmed then Some(Delete(id)) else None)
      ensures sent.None? || !(result.Success? && result.value.success) ==> schedules == old(schedules)
      ensures sent.Some? && result.Success? && result.value.success ==>
        schedules == RemoveById(old(schedules), ScheduleId, id) && error == None && id !in Ids(schedules, ScheduleId)
      ensures UniqueIds(old(schedules), ScheduleId) ==> UniqueIds(schedules, ScheduleId)
      ensures sent.Some? && result.Success? && !result.value.success ==> error == Some("Failed to delete schedule")
      ensures sent.Some? && result.Failure? ==> error == Some(CaughtMessage(result.error, "Failed to delete schedule"))
      ensures sent.None? ==> error == old(error)
    {
      if !signedIn || !confirmed {
        return None;
      }
      sent := Some(Delete(id));
      match result {
        case Success(reply) =>
          if reply.success {
            RemoveSpec(schedules, ScheduleId, id);
            if UniqueIds(schedules, ScheduleId) {
              FilterKeepsUnique(schedules, ScheduleId, IdIsNot(ScheduleId, id));
            }
            schedules := RemoveById(schedules, ScheduleId, id);
            error := None;
          } else {
            error := Some("Failed to delete schedule");
          }
        case Failure(message) =>
          error := Some(CaughtMessage(message, "Failed to delete schedule"));
      }
    }
  }
}
