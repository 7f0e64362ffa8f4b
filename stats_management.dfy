/** The statistics page of the admin dashboard: the current counters, a
    form of four increments that is sent only when one of them is
    positive, and a button that simulates a new order. */
module StatsManagement {
  import opened Wrappers
  import opened JsText
  import opened ApiClient

  datatype StatsData = StatsData(happyClients: int, projectsDone: int, clientSatisfaction: int,
                                 totalRevenue: int, lastUpdated: string)

  /** The four increments of the manual update form. */
  datatype Increments = Increments(happyClients: int, projectsDone: int, clientSatisfaction: int, totalRevenue: int)

  datatype StatField = HappyClients | ProjectsDone | ClientSatisfaction | TotalRevenue

  /** The reply of the three stats calls. */
  datatype StatsReply = StatsReply(success: bool, data: Option<StatsData>, message: Option<string>)

  const NoIncrements := Increments(0, 0, 0, 0)

  /** The form is sent when at least one increment is positive. */
  predicate AnyPositive(m: Increments) {
    m.happyClients > 0 || m.projectsDone > 0 || m.clientSatisfaction > 0 || m.totalRevenue > 0
  }

  /** The increment one input edits. */
  function Increment(m: Increments, f: StatField): int {
    match f
    case HappyClients => m.happyClients
    case ProjectsDone => m.projectsDone
    case ClientSatisfaction => m.clientSatisfaction
    case TotalRevenue => m.totalRevenue
  }

  /** One input changed: `parseInt(value) || 0` into its field. */
  function SetIncrement(m: Increments, f: StatField, text: string): (r: Increments)
    ensures Increment(r, f) == ParseIntOrZero(text)
    ensures forall g :: g != f ==> Increment(r, g) == Increment(m, g)
  {
    var v := ParseIntOrZero(text);
    match f
    case HappyClients => m.(happyClients := v)
    case ProjectsDone => m.(projectsDone := v)
    case ClientSatisfaction => m.(clientSatisfaction := v)
    case TotalRevenue => m.(totalRevenue := v)
  }

  /** Typing a count into an empty form makes the form sendable, and
      typing text that is not a number leaves it unsendable. */
  lemma TypedCountIsSent(f: StatField, n: nat)
    ensures AnyPositive(SetIncrement(NoIncrements, f, NatToString(n))) <==> n > 0
  {
    ParseIntOfNatToString(n);
  }

  lemma NonNumberIsNotSent(f: StatField, text: string)
    requires ParseInt(text).None?
    ensures !AnyPositive(SetIncrement(NoIncrements, f, text))
  {
  }

  class StatsManagementState {
    const admin: bool
    var stats: Option<StatsData>
    var loading: bool
    var updating: bool
    var increments: Increments

    /** Mounting fetches the counters, whoever is signed in. */
    constructor (admin: bool, fetched: Result<StatsReply, string>)
      ensures this.admin == admin && !loading && !updating && increments == NoIncrements
      ensures stats == if fetched.Success? && fetched.value.success then fetched.value.data else None
    {
      this.admin := admin;
      stats := None;
      loading := true;
      updating := false;
      increments := NoIncrements;
      new;
      FetchStats(fetched);
    }

    /** `fetchStats`: the counters are replaced only by a successful reply
        that carries data. */
    method FetchStats(fetched: Result<StatsReply, string>)
      modifies this`stats, this`loading
      ensures !loading
      ensures fetched.Success? && fetched.value.success && fetched.value.data.Some? ==> stats == fetched.value.data
      ensures !(fetched.Success? && fetched.value.success && fetched.value.data.Some?) ==> stats == old(stats)
    {
      loading := true;
      if fetched.Success? && fetched.value.success && fetched.value.data.Some? {
        stats := fetched.value.data;
      }
      loading := false;
    }

    /** An input of the manual update form. */
    method Edit(f: StatField, text: string)
      modifies this`increments
      ensures increments == SetIncrement(old(increments), f, text)
    {
      increments := SetIncrement(increments, f, text);
    }

    /** `handleUpdateStats`: sends the given increments; a successful update
        refetches the counters and clears the form; otherwise the form keeps
        its values. */
    method HandleUpdateStats(sent: Increments, result: Result<StatsReply, string>, fetched: Result<StatsReply, string>)
      returns (call: (ApiCall, Increments), alert: string)
      modifies this`stats, this`loading, this`updating, this`increments
      ensures call == (UpdateStats, sent)
      ensures !updating
      ensures result.Success? && result.value.success ==>
        alert == "Stats updated successfully!" && increments == NoIncrements && !loading
        && stats == if fetched.Success? && fetched.value.success && fetched.value.data.Some?
                    then fetched.value.data else old(stats)
      ensures result.Success? && !result.value.success ==> alert == OrElse(result.value.message, "Failed to update stats")
      ensures result.Failure? ==> alert == "Failed to update stats"
      ensures !(result.Success? && result.value.success) ==>
        increments == old(increments) && stats == old(stats) && loading == old(loading)
    {
      updating := true;
      call := (UpdateStats, sent);
      match result {
        case Success(reply) =>
          if reply.success {
            FetchStats(fetched);
            increments := NoIncrements;
            alert := "Stats updated successfully!";
          } else {
            alert := OrElse(reply.message, "Failed to update stats");
          }
        case Failure(_) =>
          alert := "Failed to update stats";
      }
      updating := false;
    }

    /** `handleManualUpdate`: the increments are sent only when one of them
        is positive. */
    method HandleManualUpdate(result: Result<StatsReply, string>, fetched: Result<StatsReply, string>)
      returns (call: Option<(ApiCall, Increments)>, alert: Option<string>)
      modifies this`stats, this`loading, this`updating, this`increments
      ensures call.Some? <==> admin && AnyPositive(old(increments))
      ensures call.Some? ==> call.value == (UpdateStats, old(increments)) && alert.Some? && !updating
      ensures admin && !AnyPositive(old(increments)) ==> alert == Some("Please enter at least one value to update")
      ensures call.None? ==> increments == old(increments) && stats == old(stats) && updating == old(updating)
      ensures call.Some? && result.Success? && result.value.success ==> increments == NoIncrements
      ensures call.Some? && !(result.Success? && result.value.success) ==>
        increments == old(increments) && stats == old(stats) && loading == old(loading)
      ensures call.Some? && result.Success? && result.value.success ==>
        alert == Some("Stats updated successfully!") && !loading
        && stats == if fetched.Success? && fetched.value.success && fetched.value.data.Some?
                    then fetched.value.data else old(stats)
      ensures call.Some? && result.Success? && !result.value.success ==>
        alert == Some(OrElse(result.value.message, "Failed to update stats"))
      ensures call.Some? && result.Failure? ==> alert == Some("Failed to update stats")
    {
      if !admin {
        return None, None;
      }
      if AnyPositive(increments) {
        var c, a := HandleUpdateStats(increments, result, fetched);
        call, alert := Some(c), Some(a);
      } else {
        call, alert := None, Some("Please enter at least one value to update");
      }
    }

    /** `handleSimulateNewOrder`: a successful reply refetches the counters. */
    method HandleSimulateNewOrder(result: Result<StatsReply, string>, fetched: Result<StatsReply, string>)
      returns (call: Option<ApiCall>, alert: Option<string>)
      modifies this`stats, this`loading, this`updating
      ensures call == if admin then Some(SimulateNewOrder) else None
      ensures call.None? ==> alert == None && stats == old(stats) && updating == old(updating)
      ensures call.Some? ==> !updating
      ensures call.Some? && result.Success? && result.value.success ==>
        alert == Some("New order simulated successfully!") && !loading
        && stats == if fetched.Success? && fetched.value.success && fetched.value.data.Some?
                    then fetched.value.data else old(stats)
      ensures call.Some? && result.Success? && !result.value.success ==>
        alert == Some(OrElse(result.value.message, "Failed to simulate order")) && stats == old(stats)
        && loading == old(loading)
      ensures call.Some? && result.Failure? ==>
        alert == Some("Failed to simulate order") && stats == old(stats) && loading == old(loading)
      ensures call.None? ==> loading == old(loading)
    {
      if !admin {
        return None, None;
      }
      call := Some(SimulateNewOrder);
      updating := true;
      match result {
        case Success(reply) =>
          if reply.success {
            FetchStats(fetched);
            alert := Some("New order simulated successfully!");
          } else {
            alert := Some(OrElse(reply.message, "Failed to simulate order"));
          }
        case Failure(_) =>
          alert := Some("Failed to simulate order");
      }
      updating := false;
    }
  }
}
