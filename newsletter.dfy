/** The newsletter page of the admin dashboard: a page of subscribers with
    a search box and previous/next controls, three counters, and deletion,
    all shown only to a signed-in admin. */
module Newsletter {
  import opened Wrappers
  import opened ApiClient

  datatype Subscriber = Subscriber(id: string, email: string, name: Option<string>, isActive: bool)

  datatype Pagination = Pagination(page: nat, limit: nat, total: nat, pages: nat)

  datatype SubscriberStats = SubscriberStats(totalSubscribers: nat, activeSubscribers: nat, todaySubscribers: nat)

  /** The reply of the subscriber list; `data` and `pagination` are optional. */
  datatype ListReply = ListReply(success: bool, data: Option<seq<Subscriber>>, pagination: Option<Pagination>)

  datatype StatsReply = StatsReply(success: bool, data: Option<SubscriberStats>)

  /** A successful list reply that carries a pagination. */
  predicate ListPaged(list: Result<ListReply, string>) {
    list.Success? && list.value.success && list.value.pagination.Some?
  }

  const InitialPagination := Pagination(1, 10, 0, 0)

  /** `{ ...prev, ...res.pagination, page }`: every field from the reply
      except the page, which is the one asked for. */
  function MergePagination(server: Pagination, page: nat): (r: Pagination)
    ensures r.page == page
    ensures r.limit == server.limit && r.total == server.total && r.pages == server.pages
  {
    server.(page := page)
  }

  /** The numbers of "Showing first to last of total entries". */
  function ShownRange(p: Pagination): (r: (int, int)) {
    ((p.page - 1) * p.limit + 1, if p.page * p.limit < p.total then p.page * p.limit else p.total)
  }

  /** A pagination the server computed consistently: `pages` is the
      ceiling of `total / limit`. */
  predicate Consistent(p: Pagination) {
    p.limit > 0 && (p.pages - 1) * p.limit < p.total <= p.pages * p.limit
  }

  /** On any page of a consistent pagination the range text names at most
      `limit` entries, all of them within the total, and the last page
      ends at the total. */
  lemma ShownRangeWithinTotal(p: Pagination)
    requires Consistent(p) && 1 <= p.page <= p.pages
    ensures 1 <= ShownRange(p).0 <= ShownRange(p).1 <= p.total
    ensures ShownRange(p).1 - ShownRange(p).0 < p.limit
    ensures p.page == p.pages ==> ShownRange(p).1 == p.total
  {
    var before := (p.page - 1) * p.limit;
    assert before <= (p.pages - 1) * p.limit by {
      MulMonotone(p.page - 1, p.pages - 1, p.limit);
    }
    assert p.page * p.limit == before + p.limit;
  }

  lemma MulMonotone(a: nat, b: nat, c: nat)
    requires a <= b
    ensures a * c <= b * c
  {
    assert b * c == a * c + (b - a) * c;
  }

  /** The Previous and Next buttons are disabled on the first and last page. */
  function PreviousEnabled(p: Pagination): bool {
    p.page != 1
  }

  function NextEnabled(p: Pagination): bool {
    p.page != p.pages
  }

  /** Whenever the controls are shown on a page in range, at least one of
      the two buttons can be pressed. */
  lemma SomeButtonEnabled(p: Pagination)
    requires p.pages > 1 && 1 <= p.page <= p.pages
    ensures PreviousEnabled(p) || NextEnabled(p)
    ensures !PreviousEnabled(p) ==> p.page + 1 <= p.pages
    ensures !NextEnabled(p) ==> p.page - 1 >= 1
  {
  }

  /** The text of an empty list. */
  function EmptyText(search: string): (r: string)
    ensures search != "" <==> r == "No subscribers found matching your search"
    ensures search == "" <==> r == "No subscribers yet"
  {
    if search != "" then "No subscribers found matching your search" else "No subscribers yet"
  }

  /** The name cell: the name, or `-` when it is missing or empty. */
  function NameCell(s: Subscriber): (r: string)
    ensures r != ""
    ensures Truthy(s.name) ==> r == s.name.value
  {
    OrElse(s.name, "-")
  }

  class NewsletterState {
    const admin: bool
    var subscribers: seq<Subscriber>
    var loading: bool
    var mutating: bool
    var search: string
    var stats: SubscriberStats
    var pagination: Pagination

    /** Mounting loads page 1 with no search and the counters, when an
        admin is signed in. */
    constructor (admin: bool, list: Result<ListReply, string>, counters: Result<StatsReply, string>)
      ensures Valid()
      ensures this.admin == admin && search == "" && !mutating
      ensures !admin ==> subscribers == [] && loading && stats == SubscriberStats(0, 0, 0) && pagination == InitialPagination
      ensures admin ==> !loading
      ensures admin && list.Success? && list.value.success ==> subscribers == list.value.data.GetOr([])
      ensures admin && list.Success? && list.value.success && list.value.pagination.Some? ==>
        pagination == MergePagination(list.value.pagination.value, 1)
      ensures admin && !(list.Success? && list.value.success && list.value.pagination.Some?) ==>
        pagination == InitialPagination
      ensures admin && counters.Success? && counters.value.success && counters.value.data.Some? ==>
        stats == counters.value.data.value
    {
      this.admin := admin;
      subscribers := [];
      loading := true;
      mutating := false;
      search := "";
      stats := SubscriberStats(0, 0, 0);
      pagination := InitialPagination;
      new;
      if admin {
        var _ := LoadSubscribers(1, "", list);
        LoadStats(counters);
      }
    }

    /** `loadSubscribers(page, searchQuery)`: a failed request keeps the
        list and the pagination. */
    method LoadSubscribers(page: nat, searchQuery: string, result: Result<ListReply, string>) returns (call: ApiCall)
      requires page >= 1 && Valid()
      modifies this`subscribers, this`pagination, this`loading
      ensures Valid()
      ensures call == GetSubscribers(page, old(pagination).limit, searchQuery)
      ensures !loading
      ensures result.Success? && result.value.success ==> subscribers == result.value.data.GetOr([])
      ensures result.Success? && result.value.success && result.value.pagination.Some? ==>
        pagination == MergePagination(result.value.pagination.value, page)
      ensures !(result.Success? && result.value.success) ==> subscribers == old(subscribers)
      ensures !(result.Success? && result.value.success && result.value.pagination.Some?) ==>
        pagination == old(pagination)
    {
      loading := true;
      call := GetSubscribers(page, pagination.limit, searchQuery);
      if result.Success? && result.value.success {
        subscribers := result.value.data.GetOr([]);
        if result.value.pagination.Some? {
          pagination := MergePagination(result.value.pagination.value, page);
        }
      }
      loading := false;
    }

    /** `loadStats`: the counters change only on a successful reply with data. */
    method LoadStats(result: Result<StatsReply, string>)
      modifies this`stats
      ensures stats == if result.Success? && result.value.success && result.value.data.Some?
                       then result.value.data.value else old(stats)
    {
      if result.Success? && result.value.success && result.value.data.Some? {
        stats := result.value.data.value;
      }
    }

    /** Typing in the search box. */
    method SetSearch(s: string)
      modifies this`search
      ensures search == s
    {
      search := s;
    }

    /** The search form: page 1 with the current search. */
    method HandleSearch(result: Result<ListReply, string>) returns (call: Option<ApiCall>)
      requires Valid()
      modifies this`subscribers, this`pagination, this`loading
      ensures Valid()
      ensures call == if admin then Some(GetSubscribers(1, old(pagination).limit, search)) else None
      ensures !admin ==> subscribers == old(subscribers) && pagination == old(pagination) && loading == old(loading)
      ensures admin && result.Success? && result.value.success && result.value.pagination.Some? ==>
        pagination.page == 1
      ensures admin && result.Success? && result.value.success ==>
        subscribers == result.value.data.GetOr([]) && !loading
      ensures admin && result.Success? && result.value.success && result.value.pagination.Some? ==>
        pagination == MergePagination(result.value.pagination.value, 1)
      ensures admin && !(result.Success? && result.value.success) ==>
        subscribers == old(subscribers) && !loading
      ensures admin && !(result.Success? && result.value.success && result.value.pagination.Some?) ==>
        pagination == old(pagination)
    {
      if !admin {
        return None;
      }
      var c := LoadSubscribers(1, search, result);
      call := Some(c);
    }

    /** The Clear button, shown while the search is non-empty: an empty
        search and page 1. */
    method Clear(result: Result<ListReply, string>) returns (call: Option<ApiCall>)
      requires Valid()
      modifies this`search, this`subscribers, this`pagination, this`loading
      ensures Valid()
      ensures call == if admin && old(search) != "" then Some(GetSubscribers(1, old(pagination).limit, "")) else None
      ensures call.Some? ==> search == ""
      ensures call.None? ==>
        search == old(search) && subscribers == old(subscribers) && pagination == old(pagination)
        && loading == old(loading)
      ensures call.Some? && result.Success? && result.value.success ==>
        subscribers == result.value.data.GetOr([]) && !loading
      ensures call.Some? && result.Success? && result.value.success && result.value.pagination.Some? ==>
        pagination == MergePagination(result.value.pagination.value, 1)
      ensures call.Some? && !(result.Success? && result.value.success) ==>
        subscribers == old(subscribers) && !loading
      ensures call.Some? && !(result.Success? && result.value.success && result.value.pagination.Some?) ==>
        pagination == old(pagination)
    {
      if !admin || search == "" {
        return None;
      }
      search := "";
      var c := LoadSubscribers(1, "", result);
      call := Some(c);
    }

    /** Every page asked for is at least 1. */
    predicate Valid()
      reads this
    {
      pagination.page >= 1
    }

    /** The controls show only with more than one page and a non-empty list. */
    predicate ControlsShown()
      reads this
    {
      admin && !loading && |subscribers| > 0 && pagination.pages > 1
    }

    /** The Previous button: the page before, with the current search. */
    method Previous(result: Result<ListReply, string>) returns (call: Option<ApiCall>)
      requires Valid()
      modifies this`subscribers, this`pagination, this`loading
      ensures Valid()
      ensures old(ControlsShown() && PreviousEnabled(pagination)) <==> call.Some?
      ensures call.Some? ==> call.value == GetSubscribers(old(pagination).page - 1, old(pagination).limit, search)
      ensures call.Some? && result.Success? && result.value.success && result.value.pagination.Some? ==>
        pagination.page == old(pagination).page - 1
      ensures call.Some? && result.Success? && result.value.success ==>
        subscribers == result.value.data.GetOr([]) && !loading
      ensures call.Some? && result.Success? && result.value.success && result.value.pagination.Some? ==>
        pagination == MergePagination(result.value.pagination.value, old(pagination).page - 1)
      ensures call.Some? && !(result.Success? && result.value.success) ==>
        subscribers == old(subscribers) && !loading
      ensures call.Some? && !(result.Success? && result.value.success && result.value.pagination.Some?) ==>
        pagination == old(pagination)
      ensures call.None? ==> subscribers == old(subscribers) && pagination == old(pagination) && loading == old(loading)
    {
      if !ControlsShown() || !PreviousEnabled(pagination) {
        return None;
      }
      var c := LoadSubscribers(pagination.page - 1, search, result);
      call := Some(c);
    }

    /** The Next button: the page after, with the current search. */
    method Next(result: Result<ListReply, string>) returns (call: Option<ApiCall>)
      requires Valid()
      modifies this`subscribers, this`pagination, this`loading
      ensures Valid()
      ensures old(ControlsShown() && NextEnabled(pagination)) <==> call.Some?
      ensures call.Some? ==> call.value == GetSubscribers(old(pagination).page + 1, old(pagination).limit, search)
      ensures call.Some? && result.Success? && result.value.success && result.value.pagination.Some? ==>
        pagination.page == old(pagination).page + 1
      ensures call.Some? && result.Success? && result.value.success ==>
        subscribers == result.value.data.GetOr([]) && !loading
      ensures call.Some? && result.Success? && result.value.success && result.value.pagination.Some? ==>
        pagination == MergePagination(result.value.pagination.value, old(pagination).page + 1)
      ensures call.Some? && !(result.Success? && result.value.success) ==>
        subscribers == old(subscribers) && !loading
      ensures call.Some? && !(result.Success? && result.value.success && result.value.pagination.Some?) ==>
        pagination == old(pagination)
      ensures call.None? ==> subscribers == old(subscribers) && pagination == old(pagination) && loading == old(loading)
    {
      if !ControlsShown() || !NextEnabled(pagination) {
        return None;
      }
      var c := LoadSubscribers(pagination.page + 1, search, result);
      call := Some(c);
    }

    /** `handleDelete`: after the user confirms, a successful delete reloads
        the current page with the current search and then the counters. */
    method HandleDelete(confirmed: bool, id: string, result: Result<bool, string>,
                        list: Result<ListReply, string>, counters: Result<StatsReply, string>)
      returns (calls: seq<ApiCall>)
      requires Valid()
      modifies this`subscribers, this`pagination, this`loading, this`mutating, this`stats
      ensures Valid()
      ensures !(admin && confirmed) ==> calls == [] && mutating == old(mutating)
      ensures admin && confirmed ==> !mutating
      ensures admin && confirmed && !(result.Success? && result.value) ==> calls == [DeleteSubscriber(id)]
      ensures admin && confirmed && result.Success? && result.value ==>
        calls == [DeleteSubscriber(id), GetSubscribers(old(pagination).page, old(pagination).limit, search),
                  GetSubscriberStats]
      ensures !(admin && confirmed && result.Success? && result.value) ==>
        subscribers == old(subscribers) && pagination == old(pagination) && stats == old(stats)
      ensures admin && confirmed && result.Success? && result.value && ListPaged(list) ==>
        pagination.page == old(pagination).page
      ensures admin && confirmed && result.Success? && result.value ==>
        !loading
        && subscribers == (if list.Success? && list.value.success then list.value.data.GetOr([]) else old(subscribers))
        && pagination == (if ListPaged(list) then MergePagination(list.value.pagination.value, old(pagination).page)
                          else old(pagination))
        && stats == if counters.Success? && counters.value.success && counters.value.data.Some?
                    then counters.value.data.value else old(stats)
      ensures !(admin && confirmed && result.Success? && result.value) ==> loading == old(loading)
    {
      if !admin || !confirmed {
        return [];
      }
      mutating := true;
      calls := [DeleteSubscriber(id)];
      if result.Success? && result.value {
        var c := LoadSubscribers(pagination.page, search, list);
        LoadStats(counters);
        calls := calls + [c, GetSubscriberStats];
      }
      mutating := false;
    }
  }
}
