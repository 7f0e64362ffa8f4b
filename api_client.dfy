/** The HTTP client of the site: the five safe helpers that turn a failed
    request into an `Error` with one message, the request interceptor that
    adds the admin bearer token, the public fetches that fall back to the
    static content, and the routes and query strings of the pass-through
    calls. A request's result is an `HttpOutcome` given as input; the
    current time `now` and the fallback module's load time are parameters. */
module ApiClient {
  import opened Wrappers
  import opened JsText
  import opened Content
  import opened FallbackData

  // ---------------------------------------------------------------------
  // Safe helpers

  /** What axios produced: the response body, or a rejection carrying the
      error response body's `message` and the transport error's `message`. */
  datatype HttpOutcome<B> =
    | Responded(body: B)
    | Rejected(bodyMessage: Option<string>, transportMessage: Option<string>)

  /** The message a safe helper throws: the body's message, else the
      transport error's message, else `Unknown error`. */
  function ErrorMessage(bodyMessage: Option<string>, transportMessage: Option<string>): (r: string)
    ensures r != ""
    ensures Truthy(bodyMessage) ==> r == bodyMessage.value
    ensures !Truthy(bodyMessage) && Truthy(transportMessage) ==> r == transportMessage.value
    ensures !Truthy(bodyMessage) && !Truthy(transportMessage) ==> r == "Unknown error"
  {
    OrElse(bodyMessage, OrElse(transportMessage, "Unknown error"))
  }

  /** `safeGet`, `safePost`, `safePut`, `safeDelete`, `safePatch` (they differ
      only in the verb): the body on success, a thrown `Error` otherwise. */
  function Safe<B>(outcome: HttpOutcome<B>): (r: Result<B, string>)
    ensures outcome.Responded? <==> r.Success?
    ensures outcome.Responded? ==> r.value == outcome.body
    ensures outcome.Rejected? ==> r.error == ErrorMessage(outcome.bodyMessage, outcome.transportMessage)
    ensures r.Failure? ==> r.error != ""
  {
    match outcome
    case Responded(body) => Success(body)
    case Rejected(bodyMessage, transportMessage) => Failure(ErrorMessage(bodyMessage, transportMessage))
  }

  // ---------------------------------------------------------------------
  // Request interceptor

  /** The outcome of importing the Firebase module and asking the signed-in
      user for an ID token. */
  datatype TokenLookup = Token(value: string) | LookupFailed

  /** The `Authorization` header value the interceptor adds, if any. */
  function AuthorizationFor(url: string, inBrowser: bool, signedIn: bool, lookup: TokenLookup): (r: Option<string>)
    ensures r.Some? <==> inBrowser && Includes(url, "/admin") && signedIn && lookup.Token?
    ensures r.Some? ==> r.value == "Bearer " + lookup.value
  {
    if inBrowser && Includes(url, "/admin") && signedIn then
      match lookup
      case Token(t) => Some("Bearer " + t)
      case LookupFailed => None
    else None
  }

  /** The part of an axios request config the interceptor reads and writes. */
  class RequestConfig {
    var url: string
    var headers: map<string, string>

    constructor (url: string, headers: map<string, string>)
      ensures this.url == url && this.headers == headers
    {
      this.url := url;
      this.headers := headers;
    }
  }

  /** The request interceptor: sets `Authorization` in place when the bearer
      rule applies; a failed token lookup is swallowed and the request goes
      out unchanged. */
  method Intercept(config: RequestConfig, inBrowser: bool, signedIn: bool, lookup: TokenLookup)
    modifies config
    ensures config.url == old(config.url)
    ensures AuthorizationFor(config.url, inBrowser, signedIn, lookup).Some? ==>
      config.headers == old(config.headers)["Authorization" := AuthorizationFor(config.url, inBrowser, signedIn, lookup).value]
    ensures AuthorizationFor(config.url, inBrowser, signedIn, lookup).None? ==>
      config.headers == old(config.headers)
  {
    if inBrowser {
      if Includes(config.url, "/admin") {
        if signedIn {
          match lookup {
            case Token(t) =>
              config.headers := config.headers["Authorization" := "Bearer " + t];
            case LookupFailed =>
          }
        }
      }
    }
  }

  // ---------------------------------------------------------------------
  // Public list fetches with fallback

  /** The three body shapes a list endpoint may answer with: a bare array, or
      an object with `success`/`data` and a field named after the resource. */
  datatype ListBody<T> =
    | ArrayBody(items: seq<T>)
    | ObjectBody(success: bool, data: Option<seq<T>>, named: Option<seq<T>>)

  /** The list a fetch extracts from a body, trying the three shapes in order. */
  function Unwrap<T>(body: ListBody<T>): (r: seq<T>)
    ensures body.ArrayBody? ==> r == body.items
    ensures body.ObjectBody? && body.success && body.data.Some? ==> r == body.data.value
    ensures body.ObjectBody? && !(body.success && body.data.Some?) ==> r == body.named.GetOr([])
  {
    match body
    case ArrayBody(items) => items
    case ObjectBody(success, data, named) =>
      if success && data.Some? then data.value
      else if named.Some? then named.value
      else []
  }

  /** A list fetch: the unwrapped list when it is non-empty, the fallback list
      when it is empty or the request threw. */
  function ListOrFallback<T>(outcome: HttpOutcome<ListBody<T>>, fallback: seq<T>): (r: seq<T>)
    ensures outcome.Responded? && Unwrap(outcome.body) != [] ==> r == Unwrap(outcome.body)
    ensures outcome.Rejected? || Unwrap(outcome.body) == [] ==> r == fallback
  {
    match Safe(outcome)
    case Success(body) =>
      var list := Unwrap(body);
      if |list| == 0 then fallback else list
    case Failure(_) => fallback
  }

  /** `blog.slug || index` in a synthesized `_id`. */
  function SlugOrIndex(slug: string, index: nat): (r: string)
    ensures r != ""
    ensures slug != "" ==> r == slug
  {
    if slug != "" then slug else NatToString(index)
  }

  /** The fallback menus with `_id = menu-<slug>` and both timestamps set to now. */
  function StampedMenus(now: string): (r: seq<MenuGroup>)
    ensures |r| == |FallbackMenus|
    ensures forall i :: 0 <= i < |r| ==>
      r[i].id == Some("menu-" + FallbackMenus[i].slug)
      && r[i].createdAt == Some(now) && r[i].updatedAt == Some(now)
      && r[i].(id := None, createdAt := None, updatedAt := None) == FallbackMenus[i]
  {
    seq(|FallbackMenus|, i requires 0 <= i < |FallbackMenus| =>
      FallbackMenus[i].(id := Some("menu-" + FallbackMenus[i].slug), createdAt := Some(now), updatedAt := Some(now)))
  }

  /** `_id = solution-<slug>` and both timestamps set to now; nothing else changes. */
  function StampSolution(s: Solution, now: string): (r: Solution)
    ensures r.id == Some("solution-" + s.slug) && r.createdAt == Some(now) && r.updatedAt == Some(now)
    ensures r.(id := s.id, createdAt := s.createdAt, updatedAt := s.updatedAt) == s
  {
    s.(id := Some("solution-" + s.slug), createdAt := Some(now), updatedAt := Some(now))
  }

  /** Solutions with `_id = solution-<slug>` and both timestamps set to now. */
  function StampSolutions(items: seq<Solution>, now: string): (r: seq<Solution>)
    requires forall i :: 0 <= i < |items| ==> items[i].id.None? && items[i].createdAt.None? && items[i].updatedAt.None?
    ensures |r| == |items|
    ensures forall i :: 0 <= i < |r| ==>
      r[i].id == Some("solution-" + items[i].slug)
      && r[i].createdAt == Some(now) && r[i].updatedAt == Some(now)
      && r[i].(id := None, createdAt := None, updatedAt := None) == items[i]
  {
    seq(|items|, i requires 0 <= i < |items| => StampSolution(items[i], now))
  }

  /** The fallback solutions, stamped. */
  function StampedSolutions(now: string): seq<Solution> {
    StampSolutions(FallbackSolutions, now)
  }

  /** `_id = industry-<slug>` and both timestamps set to now; nothing else changes. */
  function StampIndustry(s: Industry, now: string): (r: Industry)
    ensures r.id == Some("industry-" + s.slug) && r.createdAt == Some(now) && r.updatedAt == Some(now)
    ensures r.(id := s.id, createdAt := s.createdAt, updatedAt := s.updatedAt) == s
  {
    s.(id := Some("industry-" + s.slug), createdAt := Some(now), updatedAt := Some(now))
  }

  /** Industries with `_id = industry-<slug>` and both timestamps set to now. */
  function StampIndustries(items: seq<Industry>, now: string): (r: seq<Industry>)
    requires forall i :: 0 <= i < |items| ==> items[i].id.None? && items[i].createdAt.None? && items[i].updatedAt.None?
    ensures |r| == |items|
    ensures forall i :: 0 <= i < |r| ==>
      r[i].id == Some("industry-" + items[i].slug)
      && r[i].createdAt == Some(now) && r[i].updatedAt == Some(now)
      && r[i].(id := None, createdAt := None, updatedAt := None) == items[i]
  {
    seq(|items|, i requires 0 <= i < |items| => StampIndustry(items[i], now))
  }

  /** The fallback industries, stamped. */
  function StampedIndustries(now: string): seq<Industry> {
    StampIndustries(FallbackIndustries, now)
  }

  /** The fallback blogs with `_id = blog-<slug or index>`, both timestamps set
      to now and `publishedAt` kept unless it is missing or empty. */
  function StampedBlogs(now: string, loadedAt: string): (r: seq<Blog>)
    ensures |r| == |FallbackBlogs(loadedAt)|
    ensures forall i :: 0 <= i < |r| ==>
      var b := FallbackBlogs(loadedAt)[i];
      r[i].id == Some("blog-" + SlugOrIndex(b.slug, i))
      && r[i].createdAt == Some(now) && r[i].updatedAt == Some(now)
      && r[i].publishedAt == Some(OrElse(b.publishedAt, now))
      && r[i].(id := None, createdAt := None, updatedAt := None, publishedAt := b.publishedAt) == b
  {
    var blogs := FallbackBlogs(loadedAt);
    seq(|blogs|, i requires 0 <= i < |blogs| =>
      blogs[i].(id := Some("blog-" + SlugOrIndex(blogs[i].slug, i)),
                createdAt := Some(now), updatedAt := Some(now),
                publishedAt := Some(OrElse(blogs[i].publishedAt, now))))
  }

  /** The fallback case studies with `_id = case-study-<slug or index>` and both
      timestamps set to now. */
  function StampedCaseStudies(now: string): (r: seq<CaseStudy>)
    ensures |r| == |FallbackCaseStudies|
    ensures forall i :: 0 <= i < |r| ==>
      r[i].id == Some("case-study-" + SlugOrIndex(FallbackCaseStudies[i].slug, i))
      && r[i].createdAt == Some(now) && r[i].updatedAt == Some(now)
      && r[i].(id := None, createdAt := None, updatedAt := None) == FallbackCaseStudies[i]
  {
    seq(|FallbackCaseStudies|, i requires 0 <= i < |FallbackCaseStudies| =>
      FallbackCaseStudies[i].(id := Some("case-study-" + SlugOrIndex(FallbackCaseStudies[i].slug, i)),
                              createdAt := Some(now), updatedAt := Some(now)))
  }

  /** `fetchMenus` (GET /api/menus). */
  function FetchMenus(outcome: HttpOutcome<ListBody<MenuGroup>>, now: string): (r: seq<MenuGroup>)
    ensures |r| > 0
    ensures outcome.Responded? && Unwrap(outcome.body) != [] ==> r == Unwrap(outcome.body)
    ensures outcome.Rejected? || Unwrap(outcome.body) == [] ==> r == StampedMenus(now)
  {
    assert |StampedMenus(now)| > 0 by { FallbackSizes(""); }
    ListOrFallback(outcome, StampedMenus(now))
  }

  /** `fetchSolutions` (GET /api/menus/solutions/items). */
  function FetchSolutions(outcome: HttpOutcome<ListBody<Solution>>, now: string): (r: seq<Solution>)
    ensures |r| > 0
    ensures outcome.Responded? && Unwrap(outcome.body) != [] ==> r == Unwrap(outcome.body)
    ensures outcome.Rejected? || Unwrap(outcome.body) == [] ==> r == StampedSolutions(now)
  {
    assert |StampedSolutions(now)| > 0 by { FallbackSizes(""); }
    ListOrFallback(outcome, StampedSolutions(now))
  }

  /** `fetchIndustries` (GET /api/menus/industries/items). */
  function FetchIndustries(outcome: HttpOutcome<ListBody<Industry>>, now: string): (r: seq<Industry>)
    ensures |r| > 0
    ensures outcome.Responded? && Unwrap(outcome.body) != [] ==> r == Unwrap(outcome.body)
    ensures outcome.Rejected? || Unwrap(outcome.body) == [] ==> r == StampedIndustries(now)
  {
    assert |StampedIndustries(now)| > 0 by { FallbackSizes(""); }
    ListOrFallback(outcome, StampedIndustries(now))
  }

  /** `fetchBlogs` (GET /api/blogs). */
  function FetchBlogs(outcome: HttpOutcome<ListBody<Blog>>, now: string, loadedAt: string): (r: seq<Blog>)
    ensures |r| > 0
    ensures outcome.Responded? && Unwrap(outcome.body) != [] ==> r == Unwrap(outcome.body)
    ensures outcome.Rejected? || Unwrap(outcome.body) == [] ==> r == StampedBlogs(now, loadedAt)
  {
    assert |StampedBlogs(now, loadedAt)| > 0 by { FallbackSizes(loadedAt); }
    ListOrFallback(outcome, StampedBlogs(now, loadedAt))
  }

  /** `fetchCaseStudies` (GET /api/case-studies). */
  function FetchCaseStudies(outcome: HttpOutcome<ListBody<CaseStudy>>, now: string): (r: seq<CaseStudy>)
    ensures |r| > 0
    ensures outcome.Responded? && Unwrap(outcome.body) != [] ==> r == Unwrap(outcome.body)
    ensures outcome.Rejected? || Unwrap(outcome.body) == [] ==> r == StampedCaseStudies(now)
  {
    assert |StampedCaseStudies(now)| > 0 by { FallbackSizes(""); }
    ListOrFallback(outcome, StampedCaseStudies(now))
  }

  lemma FallbackSizes(loadedAt: string)
    ensures |FallbackMenus| == 2 && |FallbackSolutions| == 3 && |FallbackIndustries| == 3
    ensures |FallbackBlogs(loadedAt)| == 3 && |FallbackCaseStudies| == 2
  {
  }

  /** The public list fetches never hand an empty list to a page: either the
      server's non-empty list or the whole fallback list. */
  lemma ListFetchesNeverEmpty(
    menus: HttpOutcome<ListBody<MenuGroup>>, solutions: HttpOutcome<ListBody<Solution>>,
    industries: HttpOutcome<ListBody<Industry>>, blogs: HttpOutcome<ListBody<Blog>>,
    studies: HttpOutcome<ListBody<CaseStudy>>, now: string, loadedAt: string)
    ensures |FetchMenus(menus, now)| > 0
    ensures |FetchSolutions(solutions, now)| > 0
    ensures |FetchIndustries(industries, now)| > 0
    ensures |FetchBlogs(blogs, now, loadedAt)| > 0
    ensures |FetchCaseStudies(studies, now)| > 0
  {
    assert |FallbackMenus| == 2 && |FallbackSolutions| == 3 && |FallbackIndustries| == 3;
    assert |FallbackBlogs(loadedAt)| == 3 && |FallbackCaseStudies| == 2;
  }

  /** Every fallback blog has a slug and a non-empty `publishedAt`, so the
      index in `_id` and the `publishedAt` default of `fetchBlogs` are never
      used: a fallback blog is `blog-<slug>` and keeps the module-load time. */
  lemma FallbackBlogDefaultsUnused(now: string, loadedAt: string)
    requires loadedAt != ""
    ensures forall i :: 0 <= i < |StampedBlogs(now, loadedAt)| ==>
      StampedBlogs(now, loadedAt)[i].id == Some("blog-" + FallbackBlogs(loadedAt)[i].slug)
      && StampedBlogs(now, loadedAt)[i].publishedAt == Some(loadedAt)
  {
    var b := FallbackBlogs(loadedAt);
    assert b[0].slug != "" && b[1].slug != "" && b[2].slug != "";
    BlogsArePublished(loadedAt);
    assert forall i :: 0 <= i < |b| ==> b[i] in b;
  }

  // ---------------------------------------------------------------------
  // Lookups by slug

  /** The body of a single-item endpoint: `success` and an optional `data`. */
  datatype ItemBody<T> = ItemBody(success: bool, data: Option<T>)

  /** `array.find(x => key(x) === slug)`, as the index of the first match. */
  function FindBySlug<T>(s: seq<T>, key: T -> string, slug: string): (r: Option<nat>)
    ensures r.Some? ==> r.value < |s| && key(s[r.value]) == slug
    ensures r.Some? ==> forall j :: 0 <= j < r.value ==> key(s[j]) != slug
    ensures r.None? ==> forall j :: 0 <= j < |s| ==> key(s[j]) != slug
  {
    if s == [] then None
    else if key(s[0]) == slug then Some(0)
    else match FindBySlug(s[1..], key, slug)
      case Some(i) => Some(i + 1)
      case None => None
  }

  /** With distinct slugs, `find` returns the one element that has the slug. */
  lemma {:induction false} FindUnique<T>(s: seq<T>, key: T -> string, slug: string, i: nat)
    requires DistinctKeys(s, key)
    requires i < |s| && key(s[i]) == slug
    ensures FindBySlug(s, key, slug) == Some(i)
  {
    var r := FindBySlug(s, key, slug);
    assert r.Some?;
  }

  /** A lookup by slug: the server's `data` when `success` and `data` are
      set; else the first fallback element with that slug, stamped; else the
      `notFound` error if the request succeeded, and the request's own error
      if it failed. */
  function BySlug<T>(outcome: HttpOutcome<ItemBody<T>>, fallback: seq<T>, key: T -> string,
                     slug: string, stamp: T -> T, notFound: string): (r: Result<T, string>)
    ensures outcome.Responded? && outcome.body.success && outcome.body.data.Some? ==>
      r == Success(outcome.body.data.value)
    ensures !(outcome.Responded? && outcome.body.success && outcome.body.data.Some?) ==>
      match FindBySlug(fallback, key, slug)
      case Some(i) => r == Success(stamp(fallback[i]))
      case None => r == Failure(if outcome.Responded? then notFound
                                else ErrorMessage(outcome.bodyMessage, outcome.transportMessage))
  {
    match Safe(outcome)
    case Success(body) =>
      if body.success && body.data.Some? then Success(body.data.value)
      else
        (match FindBySlug(fallback, key, slug)
         case Some(i) => Success(stamp(fallback[i]))
         case None => Failure(notFound))
    case Failure(message) =>
      match FindBySlug(fallback, key, slug)
      case Some(i) => Success(stamp(fallback[i]))
      case None => Failure(message)
  }

  /** The server answered a by-slug read with the item itself. */
  predicate Served<T>(outcome: HttpOutcome<ItemBody<T>>) {
    outcome.Responded? && outcome.body.success && outcome.body.data.Some?
  }

  /** `fetchSolutionBySlug` (GET /api/menus/solutions/items/<slug>). */
  function FetchSolutionBySlug(outcome: HttpOutcome<ItemBody<Solution>>, slug: string, now: string): (r: Result<Solution, string>)
    ensures Served(outcome) ==> r == Success(outcome.body.data.value)
    ensures !Served(outcome) && (exists i :: 0 <= i < |FallbackSolutions| && FallbackSolutions[i].slug == slug) ==>
      r.Success? && r.value.slug == slug && r.value.id == Some("solution-" + slug) && r.value.createdAt == Some(now)
    ensures !Served(outcome) && (forall i :: 0 <= i < |FallbackSolutions| ==> FallbackSolutions[i].slug != slug) ==>
      r == Failure(if outcome.Responded? then "Solution not found"
                   else ErrorMessage(outcome.bodyMessage, outcome.transportMessage))
  {
    BySlug(outcome, FallbackSolutions, (s: Solution) => s.slug, slug,
           (s: Solution) => StampSolution(s, now), "Solution not found")
  }

  /** `fetchIndustryBySlug` (GET /api/menus/industries/items/<slug>). */
  function FetchIndustryBySlug(outcome: HttpOutcome<ItemBody<Industry>>, slug: string, now: string): (r: Result<Industry, string>)
    ensures Served(outcome) ==> r == Success(outcome.body.data.value)
    ensures !Served(outcome) && (exists i :: 0 <= i < |FallbackIndustries| && FallbackIndustries[i].slug == slug) ==>
      r.Success? && r.value.slug == slug && r.value.id == Some("industry-" + slug) && r.value.createdAt == Some(now)
    ensures !Served(outcome) && (forall i :: 0 <= i < |FallbackIndustries| ==> FallbackIndustries[i].slug != slug) ==>
      r == Failure(if outcome.Responded? then "Industry not found"
                   else ErrorMessage(outcome.bodyMessage, outcome.transportMessage))
  {
    BySlug(outcome, FallbackIndustries, (s: Industry) => s.slug, slug,
           (s: Industry) => StampIndustry(s, now), "Industry not found")
  }

  /** The stamp of a blog found by slug: `_id`, `createdAt` and `publishedAt`,
      but no `updatedAt`. */
  function StampBlogBySlug(b: Blog, now: string): (r: Blog)
    ensures r.id == Some("blog-" + b.slug) && r.createdAt == Some(now)
    ensures r.publishedAt == Some(if Truthy(b.publishedAt) then b.publishedAt.value else now)
    ensures r.(id := b.id, createdAt := b.createdAt, publishedAt := b.publishedAt) == b
  {
    b.(id := Some("blog-" + b.slug), createdAt := Some(now), publishedAt := Some(OrElse(b.publishedAt, now)))
  }

  /** `fetchBlogBySlug` (GET /api/blogs/<slug>). */
  function FetchBlogBySlug(outcome: HttpOutcome<ItemBody<Blog>>, slug: string, now: string, loadedAt: string): (r: Result<Blog, string>)
    ensures Served(outcome) ==> r == Success(outcome.body.data.value)
    ensures !Served(outcome) && (exists i :: 0 <= i < |FallbackBlogs(loadedAt)| && FallbackBlogs(loadedAt)[i].slug == slug) ==>
      r.Success? && r.value.slug == slug && r.value.id == Some("blog-" + slug) && r.value.createdAt == Some(now)
    ensures !Served(outcome) && (forall i :: 0 <= i < |FallbackBlogs(loadedAt)| ==> FallbackBlogs(loadedAt)[i].slug != slug) ==>
      r == Failure(if outcome.Responded? then "Blog not found"
                   else ErrorMessage(outcome.bodyMessage, outcome.transportMessage))
  {
    BySlug(outcome, FallbackBlogs(loadedAt), (b: Blog) => b.slug, slug,
           (b: Blog) => StampBlogBySlug(b, now), "Blog not found")
  }

  /** `_id = case-study-<slug>` and both timestamps set to now; nothing else changes. */
  function StampCaseStudy(c: CaseStudy, now: string): (r: CaseStudy)
    ensures r.id == Some("case-study-" + c.slug) && r.createdAt == Some(now) && r.updatedAt == Some(now)
    ensures r.(id := c.id, createdAt := c.createdAt, updatedAt := c.updatedAt) == c
  {
    c.(id := Some("case-study-" + c.slug), createdAt := Some(now), updatedAt := Some(now))
  }

  /** `fetchCaseStudyBySlug` (GET /api/case-studies/<slug>). */
  function FetchCaseStudyBySlug(outcome: HttpOutcome<ItemBody<CaseStudy>>, slug: string, now: string): (r: Result<CaseStudy, string>)
    ensures Served(outcome) ==> r == Success(outcome.body.data.value)
    ensures !Served(outcome) && (exists i :: 0 <= i < |FallbackCaseStudies| && FallbackCaseStudies[i].slug == slug) ==>
      r.Success? && r.value.slug == slug && r.value.id == Some("case-study-" + slug) && r.value.createdAt == Some(now)
    ensures !Served(outcome) && (forall i :: 0 <= i < |FallbackCaseStudies| ==> FallbackCaseStudies[i].slug != slug) ==>
      r == Failure(if outcome.Responded? then "Case study not found"
                   else ErrorMessage(outcome.bodyMessage, outcome.transportMessage))
  {
    BySlug(outcome, FallbackCaseStudies, (c: CaseStudy) => c.slug, slug,
           (c: CaseStudy) => StampCaseStudy(c, now), "Case study not found")
  }

  /** When the server has no such solution, the fallback solution with that
      slug is returned, stamped; with no such fallback either, the error is
      `Solution not found` after a successful request and the request's own
      error after a failed one. */
  lemma SolutionBySlugFallback(outcome: HttpOutcome<ItemBody<Solution>>, slug: string, now: string)
    requires !(outcome.Responded? && outcome.body.success && outcome.body.data.Some?)
    ensures forall i :: 0 <= i < |FallbackSolutions| && FallbackSolutions[i].slug == slug ==>
      FetchSolutionBySlug(outcome, slug, now) == Success(StampSolution(FallbackSolutions[i], now))
    ensures (forall i :: 0 <= i < |FallbackSolutions| ==> FallbackSolutions[i].slug != slug) ==>
      FetchSolutionBySlug(outcome, slug, now) ==
        Failure(if outcome.Responded? then "Solution not found"
                else ErrorMessage(outcome.bodyMessage, outcome.transportMessage))
  {
    SlugsDistinct("");
    forall i | 0 <= i < |FallbackSolutions| && FallbackSolutions[i].slug == slug
      ensures FetchSolutionBySlug(outcome, slug, now) == Success(StampSolution(FallbackSolutions[i], now))
    {
      FindUnique(FallbackSolutions, (s: Solution) => s.slug, slug, i);
    }
  }

  /** The blog found by slug in the fallback has no `updatedAt`, while the
      same blog in the `fetchBlogs` fallback list has one. */
  lemma BlogBySlugLacksUpdatedAt(outcome: HttpOutcome<ItemBody<Blog>>, now: string, loadedAt: string)
    requires outcome.Rejected?
    ensures FetchBlogBySlug(outcome, "future-of-web-development", now, loadedAt).Success?
    ensures FetchBlogBySlug(outcome, "future-of-web-development", now, loadedAt).value.updatedAt.None?
    ensures StampedBlogs(now, loadedAt)[0].slug == "future-of-web-development"
    ensures StampedBlogs(now, loadedAt)[0].updatedAt == Some(now)
  {
    var blogs := FallbackBlogs(loadedAt);
    assert blogs[0].slug == "future-of-web-development" && blogs[0].updatedAt.None?;
    assert FindBySlug(blogs, (b: Blog) => b.slug, "future-of-web-development") == Some(0);
  }

  // ---------------------------------------------------------------------
  // Pass-through calls and their routes

  datatype Verb = Get | Post | Put | Delete | Patch

  /** A request: verb, URL, and the ordered `URLSearchParams` pairs appended
      after `?` (empty for the calls that build their URL by hand). */
  datatype Request = Request(verb: Verb, url: string, query: seq<(string, string)>)

  /** The admin collections with create/list/update/delete endpoints. */
  datatype AdminResource =
    | Projects | Clients | Team | AdminSolutions | AdminIndustries | AdminBlogs | AdminCaseStudies

  /** The collections that also have a fetch-by-id endpoint. */
  datatype RecordResource = ProjectRecords | ClientRecords | TeamRecords

  function ResourceSegment(r: AdminResource): string {
    match r
    case Projects => "projects"
    case Clients => "clients"
    case Team => "team"
    case AdminSolutions => "solutions"
    case AdminIndustries => "industries"
    case AdminBlogs => "blogs"
    case AdminCaseStudies => "case-studies"
  }

  function RecordSegment(r: RecordResource): string {
    match r
    case ProjectRecords => "projects"
    case ClientRecords => "clients"
    case TeamRecords => "team"
  }

  /** Every call that goes straight to a safe helper (or, for the two exports,
      to the client itself), with no fallback. */
  datatype ApiCall =
    | CreateConsultation | CreateSchedule | SubscribeNewsletter | RecordConsent | GetStats
    | FetchDashboardSummary
    | ListAdmin(resource: AdminResource) | CreateAdmin(resource: AdminResource)
    | UpdateAdmin(resource: AdminResource, id: string) | DeleteAdmin(resource: AdminResource, id: string)
    | FetchRecordById(record: RecordResource, id: string)
    | FetchFinancialData(dateRange: string) | FetchConsentStats(range: string)
    | FetchConsentRecords(page: nat, limit: nat) | DeleteConsentRecord(id: string)
    | FetchAdminConsultations | UpdateConsultationStatus(id: string) | DeleteConsultation(id: string)
    | FetchAdminSchedules(status: Option<string>) | UpdateAdminScheduleStatus(id: string) | DeleteAdminSchedule(id: string)
    | GetSubscribers(page: nat, limit: nat, search: string) | DeleteSubscriber(id: string) | GetSubscriberStats
    | FetchRecentActivities | FetchAllActivities(page: nat, limit: nat, activityType: Option<string>)
    | FetchUnreadActivitiesCount | MarkActivityAsRead(id: string) | MarkAllActivitiesAsRead
    | SendWeeklyReport | SendMonthlyReport | UpdateStats | SimulateNewOrder
    | ExportConsentData(format: string) | ExportData(exportType: string, format: string)
  {
    /** The calls of the public site; every other call is an admin call. */
    predicate IsPublic() {
      CreateConsultation? || CreateSchedule? || SubscribeNewsletter? || RecordConsent? || GetStats?
    }
  }

  function Admin(path: string): string {
    "/api/admin" + path
  }

  /** `fetchAdminSchedules`: the status filter is appended unless it is empty,
      missing or `all`. */
  function SchedulesUrl(status: Option<string>): (r: string)
    ensures Truthy(status) && status.value != "all" ==> r == "/api/admin/schedules?status=" + status.value
    ensures !(Truthy(status) && status.value != "all") ==> r == "/api/admin/schedules"
  {
    if Truthy(status) && status.value != "all" then Admin("/schedules?status=" + status.value)
    else Admin("/schedules")
  }

  /** The `URLSearchParams` of `getSubscribers`: page, limit, then the search
      term only when it is non-empty. */
  function SubscriberQuery(page: nat, limit: nat, search: string): (r: seq<(string, string)>)
    ensures |r| >= 2 && r[0] == ("page", NatToString(page)) && r[1] == ("limit", NatToString(limit))
    ensures |r| == 3 <==> search != ""
    ensures |r| == 3 ==> r[2] == ("search", search)
    ensures |r| <= 3
  {
    [("page", NatToString(page)), ("limit", NatToString(limit))]
      + (if search != "" then [("search", search)] else [])
  }

  /** The `URLSearchParams` of `fetchAllActivities`: page, limit, then the
      type only when it is set, non-empty and not `all`. */
  function ActivityQuery(page: nat, limit: nat, activityType: Option<string>): (r: seq<(string, string)>)
    ensures |r| >= 2 && r[0] == ("page", NatToString(page)) && r[1] == ("limit", NatToString(limit))
    ensures |r| == 3 <==> Truthy(activityType) && activityType.value != "all"
    ensures |r| == 3 ==> r[2] == ("type", activityType.value)
    ensures |r| <= 3
  {
    [("page", NatToString(page)), ("limit", NatToString(limit))]
      + (if Truthy(activityType) && activityType.value != "all" then [("type", activityType.value)] else [])
  }

  /** Neither query builder ever sends an empty filter or the value `all`. */
  lemma {:induction false} FiltersNeverEmptyOrAll(page: nat, limit: nat, search: string, activityType: Option<string>)
    ensures forall i :: 2 <= i < |SubscriberQuery(page, limit, search)| ==>
      SubscriberQuery(page, limit, search)[i].1 != ""
    ensures forall i :: 2 <= i < |ActivityQuery(page, limit, activityType)| ==>
      ActivityQuery(page, limit, activityType)[i].1 != "" && ActivityQuery(page, limit, activityType)[i].1 != "all"
    ensures SchedulesUrl(Some("all")) == SchedulesUrl(Some("")) == SchedulesUrl(None)
  {
  }

  /** The request each pass-through call sends. */
  function Route(call: ApiCall): (r: Request)
    ensures call.IsPublic() ==> r.query == [] && (r.verb == Get <==> call.GetStats?)
    ensures !call.IsPublic() ==> |r.url| > 11 && r.url[..11] == "/api/admin/"
    ensures r.query != [] <==> call.GetSubscribers? || call.FetchAllActivities?
  {
    match call
    case CreateConsultation => Request(Post, "/api/consultations", [])
    case CreateSchedule => Request(Post, "/api/schedules", [])
    case SubscribeNewsletter => Request(Post, "/api/newsletter/subscribe", [])
    case RecordConsent => Request(Post, "/api/consent", [])
    case GetStats => Request(Get, "/api/stats", [])
    case FetchAdminSchedules(status) => Request(Get, SchedulesUrl(status), [])
    case _ =>
      var (verb, path, query) := AdminRoute(call);
      Request(verb, Admin(path), query)
  }

  /** Verb, path below `/api/admin` and query of the other admin calls. */
  function AdminRoute(call: ApiCall): (r: (Verb, string, seq<(string, string)>))
    requires !call.IsPublic() && !call.FetchAdminSchedules?
    ensures |r.1| > 1 && r.1[0] == '/'
    ensures r.2 != [] <==> call.GetSubscribers? || call.FetchAllActivities?
  {
    match call
    case FetchDashboardSummary => (Get, "/dashboard/summary", [])
    case ListAdmin(r) => (Get, "/" + ResourceSegment(r), [])
    case CreateAdmin(r) => (Post, "/" + ResourceSegment(r), [])
    case UpdateAdmin(r, id) => (Put, "/" + ResourceSegment(r) + "/" + id, [])
    case DeleteAdmin(r, id) => (Delete, "/" + ResourceSegment(r) + "/" + id, [])
    case FetchRecordById(r, id) => (Get, "/" + RecordSegment(r) + "/" + id, [])
    case FetchFinancialData(range) => (Get, "/financial?dateRange=" + range, [])
    case FetchConsentStats(range) => (Get, "/consent/stats?range=" + range, [])
    case FetchConsentRecords(page, limit) =>
      (Get, "/consent/records?page=" + NatToString(page) + "&limit=" + NatToString(limit), [])
    case DeleteConsentRecord(id) => (Delete, "/consent/records/" + id, [])
    case FetchAdminConsultations => (Get, "/consultations", [])
    case UpdateConsultationStatus(id) => (Put, "/consultations/" + id, [])
    case DeleteConsultation(id) => (Delete, "/consultations/" + id, [])
    case UpdateAdminScheduleStatus(id) => (Put, "/schedules/" + id, [])
    case DeleteAdminSchedule(id) => (Delete, "/schedules/" + id, [])
    case GetSubscribers(page, limit, search) => (Get, "/newsletter/subscribers", SubscriberQuery(page, limit, search))
    case DeleteSubscriber(id) => (Delete, "/newsletter/subscribers/" + id, [])
    case GetSubscriberStats => (Get, "/newsletter/subscribers/stats", [])
    case FetchRecentActivities => (Get, "/activities/recent", [])
    case FetchAllActivities(page, limit, t) => (Get, "/activities", ActivityQuery(page, limit, t))
    case FetchUnreadActivitiesCount => (Get, "/activities/unread/count", [])
    case MarkActivityAsRead(id) => (Put, "/activities/" + id + "/read", [])
    case MarkAllActivitiesAsRead => (Put, "/activities/read-all", [])
    case SendWeeklyReport => (Post, "/reports/weekly", [])
    case SendMonthlyReport => (Post, "/reports/monthly", [])
    case UpdateStats => (Put, "/stats/update", [])
    case SimulateNewOrder => (Post, "/stats/simulate-order", [])
    case ExportConsentData(format) => (Get, "/consent/export?format=" + format, [])
    case ExportData(exportType, format) => (Get, "/export/" + exportType + "?format=" + format, [])
  }

  lemma AdminPathHasAdmin(path: string)
    ensures Includes(Admin(path), "/admin")
  {
    assert Admin(path) == "/api" + "/admin" + path;
    IncludesMiddle("/api", "/admin", path);
  }

  /** Every admin call's URL contains `/admin`, so a signed-in browser sends
      it with the bearer token. */
  lemma AdminCallsCarryBearer(call: ApiCall, token: string)
    requires !call.IsPublic()
    ensures Includes(Route(call).url, "/admin")
    ensures AuthorizationFor(Route(call).url, true, true, Token(token)) == Some("Bearer " + token)
  {
    if call.FetchAdminSchedules? {
      var status := call.status;
      if Truthy(status) && status.value != "all" {
        AdminPathHasAdmin("/schedules?status=" + status.value);
      } else {
        AdminPathHasAdmin("/schedules");
      }
    } else {
      AdminPathHasAdmin(AdminRoute(call).1);
    }
  }

  /** The public calls' URLs do not contain `/admin`, so they never carry a
      bearer token. */
  lemma PublicCallsCarryNoBearer(call: ApiCall, inBrowser: bool, signedIn: bool, lookup: TokenLookup)
    requires call.IsPublic()
    ensures AuthorizationFor(Route(call).url, inBrowser, signedIn, lookup).None?
  {
    match call {
      case CreateConsultation => LacksAdmin("/api/consultations", 2);
      case CreateSchedule => LacksAdmin("/api/schedules", 3);
      case SubscribeNewsletter => LacksAdmin("/api/newsletter/subscribe", 2);
      case RecordConsent => LacksAdmin("/api/consent", 2);
      case GetStats => LacksAdmin("/api/stats", 2);
    }
  }

  // ---------------------------------------------------------------------
  // Public reads and the interceptor

  /** The public reads of `fetchMenus` … `fetchCaseStudyBySlug`, which pass
      the same request interceptor as every other call. */
  datatype PublicRead =
    | ReadMenus | ReadSolutions | ReadSolution(slug: string) | ReadIndustries | ReadIndustry(slug: string)
    | ReadBlogs | ReadBlog(slug: string) | ReadCaseStudies | ReadCaseStudy(slug: string)

  /** The fixed part of a read's URL. */
  function ReadBase(r: PublicRead): string {
    match r
    case ReadMenus => "/api/menus"
    case ReadSolutions | ReadSolution(_) => "/api/menus/solutions/items"
    case ReadIndustries | ReadIndustry(_) => "/api/menus/industries/items"
    case ReadBlogs | ReadBlog(_) => "/api/blogs"
    case ReadCaseStudies | ReadCaseStudy(_) => "/api/case-studies"
  }

  /** The interpolated part: `/${slug}` for the by-slug reads, nothing else. */
  function ReadTail(r: PublicRead): string {
    match r
    case ReadSolution(slug) => "/" + slug
    case ReadIndustry(slug) => "/" + slug
    case ReadBlog(slug) => "/" + slug
    case ReadCaseStudy(slug) => "/" + slug
    case _ => ""
  }

  function ReadUrl(r: PublicRead): string {
    ReadBase(r) + ReadTail(r)
  }

  /** No `/` of `p` starts an occurrence of `/admin`, even one that runs
      past the end of `p`. */
  predicate NoAdminStart(p: string) {
    forall i :: 0 <= i < |p| ==> StartsNoAdmin(p, i)
  }

  /** Position `i` of `p` cannot begin `/admin`, whatever follows `p`. */
  predicate StartsNoAdmin(p: string, i: int)
    requires 0 <= i < |p|
  {
    p[i] != '/' || (i + 1 < |p| && p[i + 1] != 'a') || (i + 2 < |p| && p[i + 2] != 'd')
  }

  /** An occurrence of `/admin` that starts inside such a prefix is impossible. */
  lemma NoAdminFromPrefix(p: string, t: string, i: int)
    requires NoAdminStart(p) && 0 <= i < |p|
    ensures !OccursAt(p + t, "/admin", i)
  {
    var u := p + t;
    if i + 6 <= |u| {
      var w := u[i..i + 6];
      assert StartsNoAdmin(p, i);
      if p[i] != '/' {
        assert w[0] == p[i];
      } else {
        if i + 1 < |p| && p[i + 1] != 'a' {
          assert w[1] == p[i + 1];
        } else {
          assert w[2] == p[i + 2];
        }
      }
    }
  }

  /** An occurrence that starts inside the tail is one of the tail's own. */
  lemma NoAdminFromTail(p: string, t: string, i: int)
    requires !Includes(t, "/admin") && |p| <= i <= |p + t| - 6
    ensures !OccursAt(p + t, "/admin", i)
  {
    assert (p + t)[i..i + 6] == t[i - |p|..i - |p| + 6];
    assert !OccursAt(t, "/admin", i - |p|);
  }

  /** Appending to such a prefix creates no `/admin` the tail lacks. */
  lemma PrefixKeepsAdminOut(p: string, t: string)
    requires NoAdminStart(p) && !Includes(t, "/admin")
    ensures !Includes(p + t, "/admin")
  {
    forall i | 0 <= i <= |p + t| - 6
      ensures !OccursAt(p + t, "/admin", i)
    {
      if i < |p| {
        NoAdminFromPrefix(p, t, i);
      } else {
        NoAdminFromTail(p, t, i);
      }
    }
  }

  /** The fixed part of every read URL starts no `/admin`. */
  lemma ReadBaseNoAdminStart(r: PublicRead)
    ensures NoAdminStart(ReadBase(r))
  {
    var p := ReadBase(r);
    forall i | 0 <= i < |p|
      ensures StartsNoAdmin(p, i)
    {
    }
  }

  /** A public read carries no bearer token as long as its interpolated
      slug does not produce `/admin`; the list reads never do. */
  lemma PublicReadsCarryNoBearer(r: PublicRead, inBrowser: bool, signedIn: bool, lookup: TokenLookup)
    requires !Includes(ReadTail(r), "/admin")
    ensures AuthorizationFor(ReadUrl(r), inBrowser, signedIn, lookup).None?
  {
    ReadBaseNoAdminStart(r);
    PrefixKeepsAdminOut(ReadBase(r), ReadTail(r));
  }

  /** The interceptor tests the URL by substring, so a by-slug read whose
      slug is `admin` sends the signed-in user's token to a public endpoint. */
  lemma SlugReadCanCarryBearer(token: string)
    ensures ReadUrl(ReadBlog("admin")) == "/api/blogs/admin"
    ensures AuthorizationFor(ReadUrl(ReadBlog("admin")), true, true, Token(token)) == Some("Bearer " + token)
  {
    assert ReadUrl(ReadBlog("admin")) == "/api/blogs" + "/admin" + "";
    IncludesMiddle("/api/blogs", "/admin", "");
  }

  /** A URL missing one of the characters of `/admin` does not contain it. */
  lemma LacksAdmin(url: string, j: nat)
    requires j < 6 && "/admin"[j] !in url
    ensures !Includes(url, "/admin")
  {
    if Includes(url, "/admin") {
      IncludesHasChars(url, "/admin", j);
    }
  }
}
