/** The recent activity card of the admin dashboard: up to six activities
    with an icon and colour per type, and a link to the full list when
    there are more. */
module RecentActivities {
  import opened Wrappers
  import opened Lists

  datatype Activity = Activity(id: string, activityType: string, title: string, user: Option<string>, priority: string)

  /** The fetched body; `data` may be missing. */
  datatype ActivitiesResponse = ActivitiesResponse(success: bool, data: Option<seq<Activity>>)

  const Shown := 6

  /** `getActivityIcon`. */
  function ActivityIcon(activityType: string): (r: string)
    ensures activityType == "user" ==> r == "👤"
    ensures activityType == "project" ==> r == "📁"
    ensures activityType == "client" ==> r == "💼"
    ensures activityType == "blog" ==> r == "📝"
    ensures activityType == "system" ==> r == "⚙️"
    ensures activityType !in {"user", "project", "client", "blog", "system"} ==> r == "📌"
  {
    match activityType
    case "user" => "👤"
    case "project" => "📁"
    case "client" => "💼"
    case "blog" => "📝"
    case "system" => "⚙️"
    case _ => "📌"
  }

  /** `getActivityColor`: gray for `system` and anything unknown. */
  function ActivityColor(activityType: string): (r: string)
    ensures activityType == "user" ==> r == "text-blue-600"
    ensures activityType == "project" ==> r == "text-green-600"
    ensures activityType == "client" ==> r == "text-purple-600"
    ensures activityType == "blog" ==> r == "text-orange-600"
    ensures activityType !in {"user", "project", "client", "blog"} ==> r == "text-gray-600"
  {
    match activityType
    case "user" => "text-blue-600"
    case "project" => "text-green-600"
    case "client" => "text-purple-600"
    case "blog" => "text-orange-600"
    case "system" => "text-gray-600"
    case _ => "text-gray-600"
  }

  /** The line under an activity names its user, or `System`. */
  function UserLabel(a: Activity): (r: string)
    ensures r != ""
    ensures Truthy(a.user) ==> r == a.user.value
  {
    OrElse(a.user, "System")
  }

  /** The High badge shows for priority `high` only. */
  predicate HighBadge(a: Activity) {
    a.priority == "high"
  }

  /** What the card renders. */
  datatype Card =
    | LoginPrompt | Loading | FetchError(message: string) | NoActivity
    | Listed(shown: seq<Activity>, viewAll: bool)

  /** The card: the sign-in, loading and error states first, then the
      first six activities of `data?.data || []` and the View All button
      when there are more than six. */
  function CardFor(signedIn: bool, loading: bool, error: Option<string>, data: Option<ActivitiesResponse>): (r: Card)
    ensures r.Listed? ==> signedIn && !loading && !Truthy(error)
    ensures r.Listed? ==> data.Some? && data.value.data.Some? && 0 < |r.shown| <= |data.value.data.value|
    ensures r.Listed? ==> |r.shown| <= Shown
    ensures r.Listed? ==> r.shown == data.value.data.value[..|r.shown|]
    ensures r.Listed? ==> (r.viewAll <==> |data.value.data.value| > Shown)
  {
    if !signedIn then LoginPrompt
    else if loading then Loading
    else if Truthy(error) then FetchError(error.value)
    else
      var activities := if data.Some? && data.value.data.Some? then data.value.data.value else [];
      if |activities| == 0 then NoActivity
      else Listed(Slice(activities, 0, Shown), |activities| > Shown)
  }

  /** Every activity is listed when there are at most six, and the first
      six otherwise; nothing is listed out of order. */
  lemma CardListsFirstActivities(data: ActivitiesResponse)
    requires data.data.Some? && |data.data.value| > 0
    ensures CardFor(true, false, None, Some(data)).Listed?
    ensures |data.data.value| <= Shown ==> CardFor(true, false, None, Some(data)).shown == data.data.value
    ensures |data.data.value| > Shown ==> |CardFor(true, false, None, Some(data)).shown| == Shown
  {
    var s := data.data.value;
    var c := CardFor(true, false, None, Some(data));
    assert c.shown == Slice(s, 0, Shown);
    if |s| <= Shown {
      assert c.shown == s[..|s|];
    }
  }
}
