# Corus Initiative site — a Dafny model of its client-side core

The Corus Initiative site is a Next.js application. It has public marketing pages (solutions, industries, blog, case studies, consultation and scheduling forms, newsletter footer) and an admin dashboard. This project models the logic those pages run in the browser:

- **API layer** (`lib/api.ts`):
  - the safe request helpers and their error-message priority;
  - the request interceptor that adds a bearer token to admin calls;
  - unwrapping of list bodies;
  - substitution of the bundled fallback data when a public read fails or comes back empty, with synthesised ids and timestamps;
  - lookups by slug;
  - the routes and query strings of the admin calls.
- **Bundled data** (`lib/data.ts`) and the four slug-to-image tables.
- **Public forms**: the consultation form, the schedule-a-call form and the footer newsletter form. Each has its validation rules, per-field length caps, error clearing and submission outcomes.
- **List pages**:
  - the blog page (category and search filter, page-of-six loading, category list);
  - the case-studies page (three-stage filter, industry list, technology badges);
  - the navbar menu ordering and its accordion state.
- **Admin tables**: projects, clients, blog posts, consultations, schedules and team members. For each, the model covers load, create, edit, save, delete and status update, and proves that record ids stay unique.
- **Other admin components**: newsletter management (search and pagination), stats management, the rich-text editor draft and the recent-activities card.
- **Small state machines**: cookie consent, dark mode and the admin layout's auth gate.

Each React component becomes a Dafny `class` whose fields are the component's state. Each handler becomes a `method`:

- Results of network calls are method parameters: `Result<Reply, string>`, where the error string is the message a caught `Error` carries. The request a handler would send is its out-parameter.
- `window.confirm`, the signed-in user and the current time are also parameters.
- Pure helpers (filters, lookups, validators, query builders) are functions, with lemmas stating what they promise.

JavaScript truthiness is modelled on `Option<string>`:

- `a || b` is `Wrappers.OrElse`, where `""` and absence are falsy;
- `a ?? b` is `Wrappers.OrNullish`.

## Model

| member | source | states |
|---|---|---|
| Wrappers.OrElse | src/app/lib/api.ts:387 | `a \|\| b` on an optional string: the value when it is present and non-empty, otherwise the default |
| Wrappers.OrNullish | src/app/admin/dashboard/Editor.tsx:12-16 | `a ?? b`: the value whenever it is present (even `""`), the default only when absent |
| JsText.LeadingSpaces | src/app/components/ConsultationForm.tsx:29 | the length of the longest all-whitespace prefix: every char before it is whitespace and the next one is not |
| JsText.TrailingSpaces | src/app/components/ConsultationForm.tsx:29 | the length of the longest all-whitespace suffix, maximal in the same sense |
| JsText.Trim | src/app/components/ConsultationForm.tsx:29-31 | `String.prototype.trim`: empty exactly when the input is all whitespace, otherwise starts and ends with non-whitespace, never longer than the input, identity on inputs without whitespace |
| JsText.ToLower | src/app/blog/page.tsx:38 | lower-casing keeps the length, maps each ASCII capital to its small letter and leaves every other character as it is |
| JsText.ToLowerIdempotent | src/app/blog/page.tsx:38 | lower-casing twice is lower-casing once, and a lower-cased string has no ASCII capital left |
| JsText.ToLowerIgnoresCase | src/app/blog/page.tsx:38 | two strings that differ only in the case of ASCII letters lower-case to the same string, so the search ignores case |
| JsText.Includes | src/app/lib/api.ts:23 | `url.includes(t)`: only a string no longer than the URL can be included, and the empty string and the URL itself always are |
| JsText.IncludesMiddle | src/app/lib/api.ts:23 | `includes` holds for any string placed between two others |
| JsText.NatToString | src/app/lib/api.ts:1018-1022 | decimal rendering of a page number: non-empty, all digits, no leading zero |
| JsText.DigitRun | src/app/admin/dashboard/StatsManagement.tsx:163 | the longest prefix of digits `parseInt` consumes: all digits up to it, a non-digit right after it |
| JsText.DigitsValueOfNat | src/app/admin/dashboard/StatsManagement.tsx:163 | the digits of `NatToString(n)` are digits and their value is `n` |
| JsText.DigitRunAll | src/app/admin/dashboard/StatsManagement.tsx:163 | an all-digit string is consumed whole |
| JsText.ParseInt | src/app/admin/dashboard/StatsManagement.tsx:163 | `parseInt`: NaN for a blank string; a negative value only after a leading `-`; a number (never negative) whenever the trimmed text starts with a decimal digit other than a `0x` prefix |
| JsText.ParseIntOrZero | src/app/admin/dashboard/StatsManagement.tsx:163 | `parseInt(..) \|\| 0`: zero exactly when the parse is NaN or zero, otherwise the parsed number |
| JsText.ParseIntOfNatToString | src/app/admin/dashboard/StatsManagement.tsx:163 | round trip: `parseInt` of a rendered natural gives it back, and so does `parseInt(..) \|\| 0` |
| Lists.Filter | src/app/blog/page.tsx:37-38 | `Array.filter`: no longer than the input, and every kept element satisfies the predicate |
| Lists.FilterMembership | src/app/blog/page.tsx:37-38 | an element is kept iff it is in the input and satisfies the predicate |
| Lists.FilterAppend | src/app/blog/page.tsx:37-38 | filtering distributes over concatenation |
| Lists.FilterIsSubsequence | src/app/blog/page.tsx:37-38 | the filtered list is an order-preserving subsequence of the input |
| Lists.FilterFilter | src/app/blog/page.tsx:37-38 | two chained filters equal one filter by the conjunction |
| Lists.FilterKeepsSame | src/app/case-studies/page.tsx:47-61 | filters by pointwise equal predicates agree |
| Lists.FilterKeepsAll | src/app/blog/page.tsx:37 | a filter every element passes is the identity |
| Lists.Slice | src/app/blog/page.tsx:40 | `Array.slice(from, to)`: the clamped length, and element `i` is input element `from + i` |
| Lists.FirstIndex | src/app/blog/page.tsx:33 | the first position of a member: it holds the value and no earlier position does |
| Lists.Distinct | src/app/blog/page.tsx:33 | `Array.from(new Set(..))` is no longer than its input |
| Lists.DistinctSpec | src/app/blog/page.tsx:33 | `Array.from(new Set(..))` has the same members, no repeats, and keeps first-occurrence order |
| Lists.DistinctMembers | src/app/blog/page.tsx:33 | same members and no repeats (induction) |
| Lists.DistinctOrder | src/app/blog/page.tsx:33 | members appear in the order of their first occurrence (induction) |
| Lists.FirstIndexOfPrefix | src/app/blog/page.tsx:33 | appending an element keeps the first positions of earlier members, and a new element's first position is the old length |
| Lists.FirstIndexAppend | src/app/blog/page.tsx:33 | the first position of a member of `s` is the same in `s + t` |
| Lists.TruthyValues | src/app/blog/page.tsx:33 | `.filter(Boolean)` on optional strings keeps exactly the present, non-empty values |
| FormPatterns.NameError | src/app/components/ConsultationForm.tsx:29-33 | no name error iff the trimmed name has at least two characters |
| FormPatterns.EmailError | src/app/components/ConsultationForm.tsx:35-39 | no email error iff the email matches `\S+@\S+\.\S+` somewhere |
| FormPatterns.PhoneError | src/app/components/ConsultationForm.tsx:41-43 | no phone error iff the phone is empty or is 10–15 characters from digits, space, `-`, `(`, `)`, `+` |
| FormPatterns.AddressMatches | src/app/components/Footer.tsx:165 | every `local@domain.tld` with non-empty, space-free parts passes the email check |
| FormPatterns.EmailPatternUnanchored | src/app/components/Footer.tsx:165 | the email regex is unanchored: text around a match still matches |
| FormPatterns.NoAtNoEmail | src/app/components/Footer.tsx:165 | a string without `@` is rejected |
| FormPatterns.BlankIsNotEmail | src/app/components/ConsultationForm.tsx:35-37 | a blank string never matches, so the "required" message is the only one an empty field gets |
| FormPatterns.EmailAtLeastFive | src/app/components/Footer.tsx:165 | any accepted email has at least five characters |
| FormPatterns.DigitsArePhone | src/app/components/ConsultationForm.tsx:41 | every string of 10–15 digits is a valid phone |
| FormPatterns.Put | src/app/components/ConsultationForm.tsx:27-51 | conditionally recording an error: the map gains exactly that entry, or is unchanged |
| FormPatterns.PutLookup | src/app/components/ConsultationForm.tsx:27-51 | lookups after a conditional record: the new key has the new message, other keys keep theirs |
| FallbackData.MenuGroupsInOrder | src/app/lib/data.ts:1-32 | the bundled menus are Solutions (8 items) then Industries (10 items) |
| FallbackData.MenuHrefsFollowSlugs | src/app/lib/data.ts:1-32 | every bundled menu link is `/solutions/<slug>` or `/industries/<slug>` |
| FallbackData.LinksFollowSlugs | src/app/lib/data.ts:6-13 | items built by the link helper have `href == section + slug` |
| FallbackData.SlugsDistinct | src/app/lib/data.ts:1-408 | slugs are unique within every bundled collection (menus, items, solutions, industries, blogs, case studies) |
| FallbackData.ItemSlugsDistinct | src/app/lib/data.ts:1-32 | menu item slugs are unique within each menu |
| FallbackData.SolutionItemSlugsDistinct | src/app/lib/data.ts:6-13 | Solutions menu item slugs are unique |
| FallbackData.IndustryItemSlugsDistinct | src/app/lib/data.ts:20-29 | Industries menu item slugs are unique |
| FallbackData.FutureOfWebDevelopmentTitle | src/app/lib/data.ts:317-337 | the bundled post with slug `future-of-web-development` exists and is titled "The Future of Web Development: 2025 and Beyond" |
| FallbackData.BlogsArePublished | src/app/lib/data.ts:317-383 | every bundled post's `publishedAt` is the module load time |
| FallbackData.CaseStudiesHaveNoStatus | src/app/lib/data.ts:385-408 | no bundled case study has a status |
| Images.IndustryImage | src/app/lib/industry-image.ts:1-17 | the mapped image for a known slug, the default image otherwise, never empty |
| Images.SolutionImage | src/app/lib/solution-image.ts:1-13 | the mapped image for a known slug, the default otherwise, never empty |
| Images.BlogImage | src/app/lib/blog-images.ts:1-11 | present iff the slug is in the table, and then the table's image |
| Images.CaseStudyImage | src/app/lib/case-study-images.ts:1-12 | present iff the slug is in the table, and then the table's image |
| Images.IndustryMenuHasImages | src/app/lib/industry-image.ts:1-17 | every bundled Industries menu item has its own mapped image |
| Images.IndustryLookupIsExact | src/app/lib/industry-image.ts:15-17 | lookup is case-sensitive: `Finance-Banking` gets the default |
| Images.SolutionMenuImages | src/app/lib/solution-image.ts:1-13 | two Solutions menu slugs have no image and fall back to the default; all others are mapped |
| Images.BlogImagesMatchFallback | src/app/lib/blog-images.ts:1-11 | the blog table gives each bundled post its bundled image |
| Images.CaseStudyImagesMatchFallback | src/app/lib/case-study-images.ts:1-12 | the case-study table agrees with the bundled case studies, and its two extra keys belong to no bundled study |
| ApiClient.ErrorMessage | src/app/lib/api.ts:61-70 | thrown message priority: response body message, else transport message, else "Unknown error"; never empty |
| ApiClient.Safe | src/app/lib/api.ts:61-114 | a safe helper succeeds with the body iff the request answered, otherwise fails with `ErrorMessage` |
| ApiClient.AuthorizationFor | src/app/lib/api.ts:20-37 | a bearer header is added iff in the browser, the URL contains `/admin`, a user is signed in and a token is obtained, and it is `Bearer <token>` |
| ApiClient.RequestConfig.constructor | src/app/lib/api.ts:20 | a request config holds the given URL and headers |
| ApiClient.Intercept | src/app/lib/api.ts:20-37 | the interceptor keeps the URL, sets `Authorization` exactly when `AuthorizationFor` yields one, and leaves the headers alone otherwise |
| ApiClient.Unwrap | src/app/lib/api.ts:155-161 | a list body: an array as is, `data` when `success` and present, else the named field or `[]` |
| ApiClient.ListOrFallback | src/app/lib/api.ts:148-183 | the unwrapped list when the request answered with a non-empty list, the fallback when it failed or was empty |
| ApiClient.SlugOrIndex | src/app/lib/api.ts:387 | `slug \|\| index` is never empty and is the slug when there is one |
| ApiClient.StampedMenus | src/app/lib/api.ts:163-181 | fallback menus keep their content and carry `menu-<slug>` ids and the current time |
| ApiClient.StampSolutions | src/app/lib/api.ts:221-236 | each unstamped solution gets id `solution-<slug>` and both timestamps set to now, and nothing else changes |
| ApiClient.StampIndustries | src/app/lib/api.ts:302-317 | each unstamped industry gets id `industry-<slug>` and both timestamps set to now, and nothing else changes |
| ApiClient.StampedBlogs | src/app/lib/api.ts:385-407 | fallback posts keep their content, carry `blog-<slug>` ids, now as both timestamps and a defaulted `publishedAt` |
| ApiClient.StampedCaseStudies | src/app/lib/api.ts:483-503 | fallback case studies keep their content and carry `case-study-<slug>` ids and now as both timestamps |
| ApiClient.FetchMenus | src/app/lib/api.ts:148-203 | never empty: the server's list when it is non-empty, otherwise the stamped fallback menus |
| ApiClient.FetchSolutions | src/app/lib/api.ts:205-239 | never empty: the server's list when it is non-empty, otherwise the stamped fallback solutions |
| ApiClient.FetchIndustries | src/app/lib/api.ts:286-320 | never empty: the server's list when it is non-empty, otherwise the stamped fallback industries |
| ApiClient.FetchBlogs | src/app/lib/api.ts:373-409 | never empty: the server's list when it is non-empty, otherwise the stamped fallback posts |
| ApiClient.FetchCaseStudies | src/app/lib/api.ts:471-505 | never empty: the server's list when it is non-empty, otherwise the stamped fallback case studies |
| ApiClient.ListFetchesNeverEmpty | src/app/lib/api.ts:148-505 | every public list fetch returns a non-empty list, whatever the network does |
| ApiClient.FallbackBlogDefaultsUnused | src/app/lib/api.ts:390 | the `publishedAt` default never applies to bundled posts, which already carry one |
| ApiClient.FindBySlug | src/app/lib/api.ts:249 | `Array.find` by slug: the first index holding the slug, or none when no element has it |
| ApiClient.FindUnique | src/app/lib/api.ts:249 | among distinct slugs, the lookup finds exactly the element with that slug |
| ApiClient.StampSolution | src/app/lib/api.ts:251-256 | a found fallback solution gets `_id = solution-<slug>` and both timestamps, and nothing else changes |
| ApiClient.StampIndustry | src/app/lib/api.ts:332-337 | a found fallback industry gets `_id = industry-<slug>` and both timestamps, and nothing else changes |
| ApiClient.StampBlogBySlug | src/app/lib/api.ts:421-426 | a found fallback post gets `_id = blog-<slug>`, `createdAt` and `publishedAt \|\| now`, and keeps its `updatedAt` and everything else |
| ApiClient.StampCaseStudy | src/app/lib/api.ts:517-522 | a found fallback case study gets `_id = case-study-<slug>` and both timestamps, and nothing else changes |
| ApiClient.FetchSolutionBySlug | src/app/lib/api.ts:241-272 | the server's solution when it answered with one; else a fallback slug match, returned with that slug, its generated id and `now`; else "Solution not found" or the request's error |
| ApiClient.FetchIndustryBySlug | src/app/lib/api.ts:322-353 | the same for industries, with "Industry not found" |
| ApiClient.FetchBlogBySlug | src/app/lib/api.ts:411-442 | the same for posts, with "Blog not found" |
| ApiClient.FetchCaseStudyBySlug | src/app/lib/api.ts:507-538 | the same for case studies, with "Case study not found" |
| ApiClient.BySlug | src/app/lib/api.ts:241-272 | a by-slug fetch returns the server's record when it answered with data, otherwise the stamped fallback with that slug, otherwise "not found" |
| ApiClient.SolutionBySlugFallback | src/app/lib/api.ts:241-272 | on failure, a bundled solution's slug yields that solution stamped, and an unknown slug yields an error |
| ApiClient.BlogBySlugLacksUpdatedAt | src/app/lib/api.ts:411-443 | the by-slug blog fallback has no `updatedAt`, while the list fallback of the same post has one |
| ApiClient.SchedulesUrl | src/app/lib/api.ts:999-1004 | the admin schedules URL has `?status=` iff a status other than "all" is given |
| ApiClient.SubscriberQuery | src/app/lib/api.ts:1013-1025 | subscriber query: page and limit always, and `search` iff the search text is non-empty |
| ApiClient.ActivityQuery | src/app/lib/api.ts:1050-1062 | activity query: page and limit always, and `type` iff a type other than "all" is given |
| ApiClient.FiltersNeverEmptyOrAll | src/app/lib/api.ts:999-1062 | no query or URL ever sends an empty filter or the value "all", and "all", "" and no status give the same URL |
| ApiClient.Route | src/app/lib/api.ts:567-1227 | a public call has no query and is a GET only for `getStats`; every admin call's URL starts with `/api/admin/`; only the subscriber and activity lists carry query parameters |
| ApiClient.AdminRoute | src/app/lib/api.ts:762-1227 | every admin path starts with `/` below `/api/admin`, and a query is sent exactly by the subscriber and activity lists |
| ApiClient.AdminPathHasAdmin | src/app/lib/api.ts:762-1227 | every admin path contains `/admin` |
| ApiClient.AdminCallsCarryBearer | src/app/lib/api.ts:762-1227 | every admin call's URL contains `/admin`, so a signed-in browser user's token is attached to it |
| ApiClient.PublicCallsCarryNoBearer | src/app/lib/api.ts:567-666 | none of the four public posts (consultation, schedule, newsletter subscription, consent) nor `getStats` gets an `Authorization` header |
| ApiClient.PublicReadsCarryNoBearer | src/app/lib/api.ts:148-538 | a public menu, solution, industry, blog or case-study read gets no `Authorization` header, provided its slug does not put `/admin` into the URL |
| ApiClient.SlugReadCanCarryBearer | src/app/lib/api.ts:411-413 | the blog read for slug `admin` requests `/api/blogs/admin`, which the interceptor treats as an admin URL and sends with the signed-in user's token |
| ConsultationForm.FormData.With | src/app/components/ConsultationForm.tsx:88-108 | setting one field changes that field and no other |
| ConsultationForm.MessageError | src/app/components/ConsultationForm.tsx:45-49 | no message error iff the trimmed message has at least ten characters |
| ConsultationForm.ErrorsAreFieldErrors | src/app/components/ConsultationForm.tsx:26-53 | a field has an entry in the error map iff its rule fails, with that rule's message |
| ConsultationForm.ValidIffRulesHold | src/app/components/ConsultationForm.tsx:26-53 | the form validates iff name, email, phone and message rules all hold |
| ConsultationForm.EmptyFormErrors | src/app/components/ConsultationForm.tsx:26-53 | an empty form reports name, email and message as required, and no phone error |
| ConsultationForm.ReplyNotice | src/app/components/ConsultationForm.tsx:69-82 | the notice after submitting: success text, the server's message or a default on refusal, the network text on a thrown error |
| ConsultationForm.ConsultationFormState.constructor | src/app/components/ConsultationForm.tsx:7-15 | the form starts empty with no errors, no notice and not submitting |
| ConsultationForm.ConsultationFormState.ValidateForm | src/app/components/ConsultationForm.tsx:26-53 | the stored errors are the validation errors of the current data, and the result says whether there are none |
| ConsultationForm.ConsultationFormState.HandleChange | src/app/components/ConsultationForm.tsx:88-108 | an over-cap value is ignored; otherwise the field is set and its shown error is cleared, and nothing else changes |
| ConsultationForm.ConsultationFormState.ResetForm | src/app/components/ConsultationForm.tsx:110-114 | back to the empty form with no errors and no notice |
| ConsultationForm.ConsultationFormState.HandleSubmit | src/app/components/ConsultationForm.tsx:55-86 | sends the data iff it validates; success resets the form, a refusal or throw keeps it; the notice follows `ReplyNotice` |
| ScheduleForm.FormData.With | src/app/components/ScheduleForm.tsx:105-114 | setting one field changes that field and no other |
| ScheduleForm.ErrorsAreFieldErrors | src/app/components/ScheduleForm.tsx:50-70 | a field has an error entry iff its rule fails, with that rule's message |
| ScheduleForm.ValidIffRulesHold | src/app/components/ScheduleForm.tsx:50-70 | the form validates iff the name, email, phone, date, time and message-length rules hold |
| ScheduleForm.CapsMakeMessageRuleUnreachable | src/app/components/ScheduleForm.tsx:65-66 | with the input caps kept, the "message too long" error never fires |
| ScheduleForm.EmptyFormErrors | src/app/components/ScheduleForm.tsx:50-70 | an empty form reports name, email, date and time as required |
| ScheduleForm.ScheduleFormState.constructor | src/app/components/ScheduleForm.tsx:25-39 | the form starts empty with the local timezone, no errors, no notice and not submitting |
| ScheduleForm.ScheduleFormState.ValidateForm | src/app/components/ScheduleForm.tsx:50-70 | the stored errors are the validation errors of the current data, and the result says whether there are none |
| ScheduleForm.ScheduleFormState.HandleChange | src/app/components/ScheduleForm.tsx:105-114 | an over-cap value is ignored; otherwise the field is set and its shown error cleared |
| ScheduleForm.ScheduleFormState.ResetForm | src/app/components/ScheduleForm.tsx:116-129 | back to the empty form (keeping the local timezone) with no errors |
| ScheduleForm.ScheduleFormState.HandleSubmit | src/app/components/ScheduleForm.tsx:73-102 | sends the data iff it validates; success resets the form, failure keeps it; the notice depends on the outcome |
| Footer.OutcomeNotice | src/app/components/Footer.tsx:31-53 | success iff the server answered ok; otherwise the server's or the error's message, or "Subscription failed"; never empty |
| Footer.SubscribeForm.constructor | src/app/components/Footer.tsx:26-29 | empty email, no consent, not loading, no notice |
| Footer.SubscribeForm.HandleSubscribe | src/app/components/Footer.tsx:31-53 | subscribes iff the email is valid and consent is given, with source "footer"; an invalid email or missing consent gives its own notice; only success clears the form |
| BlogPage.Filtered | src/app/blog/page.tsx:37-39 | the chained filters: never longer than the posts, and every post left is in the category and matches the search |
| BlogPage.FilteredSpec | src/app/blog/page.tsx:36-43 | a post is shown iff it is in the category (or "all") and, for a non-blank search, its title contains the search case-insensitively; order is kept |
| BlogPage.UnfilteredListsAll | src/app/blog/page.tsx:36-43 | category "all" with a blank search shows every post |
| BlogPage.Categories | src/app/blog/page.tsx:34 | the category choices are non-empty and pairwise distinct |
| BlogPage.CategoriesSpec | src/app/blog/page.tsx:34 | the category list holds exactly the non-empty categories of the posts, once each, in order of first appearance |
| BlogPage.WithImages | src/app/blog/page.tsx:21-24 | each post keeps its fields and takes its image from the blog image table |
| BlogPage.BlogPageState.constructor | src/app/blog/page.tsx:10-15 | no posts, nothing displayed, empty search, category "all", nothing more to load |
| BlogPage.BlogPageState.Refresh | src/app/blog/page.tsx:36-43 | displays the first six filtered posts, with more to load iff there are over six |
| BlogPage.BlogPageState.Load | src/app/blog/page.tsx:17-32 | stores the posts with images, and displays the first page of the filtered list |
| BlogPage.BlogPageState.SetSearch | src/app/blog/page.tsx:36-43 | a new search redisplays the first page of the newly filtered list |
| BlogPage.BlogPageState.SetCategory | src/app/blog/page.tsx:36-43 | a new category redisplays the first page of the newly filtered list |
| BlogPage.BlogPageState.LoadMore | src/app/blog/page.tsx:45-54 | appends the next six filtered posts: the display stays a prefix of the filtered list and grows by up to six |
| CaseStudiesPage.Keep | src/app/case-studies/page.tsx:44-61 | with no search and both choices `all` every study is kept; a kept study has an industry when one is chosen and a status when one is chosen |
| CaseStudiesPage.StagesCompose | src/app/case-studies/page.tsx:44-64 | the three optional filter stages equal one filter by search, industry and status together |
| CaseStudiesPage.IndustriesSpec | src/app/case-studies/page.tsx:66 | the industry list holds exactly the non-empty industries, once each, in order of first appearance |
| CaseStudiesPage.StatusFilterHidesStatusless | src/app/case-studies/page.tsx:58-60 | a specific status filter hides every study without a status (all bundled ones) |
| CaseStudiesPage.TechnologyBadges | src/app/case-studies/page.tsx:221-235 | at most three badges, the first technologies in order, and a "+N more" badge iff there are over three |
| CaseStudiesPage.CaseStudiesPageState.constructor | src/app/case-studies/page.tsx:18-23 | no studies, loading, all filters "all" and search empty |
| CaseStudiesPage.CaseStudiesPageState.FilterCaseStudies | src/app/case-studies/page.tsx:44-64 | the shown studies are an in-order subsequence of the loaded ones that pass the filters |
| CaseStudiesPage.CaseStudiesPageState.LoadCaseStudies | src/app/case-studies/page.tsx:33-42 | stores the fetched studies on success, keeps the old ones on failure, and stops loading |
| CaseStudiesPage.CaseStudiesPageState.SetFilters | src/app/case-studies/page.tsx:25-31 | after a filter change, a study is shown iff it is loaded and passes search, industry and status |
| Navbar.Rank | src/app/components/Navbar.tsx:101-114 | a menu's rank in the display order: below 2 iff its title mentions "solutions" |
| Navbar.CompareIsRankOrder | src/app/components/Navbar.tsx:101-114 | the sort comparator orders by rank and is antisymmetric |
| Navbar.GroupedIsPermutation | src/app/components/Navbar.tsx:101-114 | grouping by rank is a permutation (induction) |
| Navbar.GroupedIsSorted | src/app/components/Navbar.tsx:101-114 | grouping by rank gives a list sorted by rank |
| Navbar.GroupedIsStable | src/app/components/Navbar.tsx:101-114 | grouping keeps the input order within each rank |
| Navbar.DisplayOrderSpec | src/app/components/Navbar.tsx:101-114 | the displayed menus are a permutation of the loaded ones, ordered by the comparator, stable within equal ranks |
| Navbar.CollectGroups | src/app/components/Navbar.tsx:101-114 | one pass over the array collects the elements of each rank in order |
| Navbar.CopyInto | src/app/components/Navbar.tsx:101 | the array then holds the given sequence |
| Navbar.SortByKey | src/app/components/Navbar.tsx:101-114 | sorting in place leaves the array grouped by key |
| Navbar.SortMenus | src/app/components/Navbar.tsx:101-114 | `menus.sort(..)` in place leaves the array in display order |
| Navbar.MobileMenu.constructor | src/app/components/Navbar.tsx:17-18 | the mobile menu starts closed with no section open |
| Navbar.MobileMenu.ToggleMobile | src/app/components/Navbar.tsx:234 | the menu button flips the mobile menu |
| Navbar.MobileMenu.Toggle | src/app/components/Navbar.tsx:277-281 | tapping the open section closes it, and tapping another opens that one |
| Navbar.MobileMenu.FollowItem | src/app/components/Navbar.tsx:311-314 | following an item closes the menu and its section |
| Navbar.MobileMenu.FollowLink | src/app/components/Navbar.tsx:342 | following a plain link closes the menu |
| Navbar.ToggleTwice | src/app/components/Navbar.tsx:277-281 | tapping the same section twice opens it and then closes it |
| RecentActivities.ActivityIcon | src/app/admin/dashboard/RecentActivities.tsx:28-37 | the icon of each activity type, with the pin for unknown types |
| RecentActivities.ActivityColor | src/app/admin/dashboard/RecentActivities.tsx:39-48 | the colour of each activity type, with grey for unknown types |
| RecentActivities.UserLabel | src/app/admin/dashboard/RecentActivities.tsx:104 | the activity's user, or "System" when there is none; never empty |
| RecentActivities.CardFor | src/app/admin/dashboard/RecentActivities.tsx:50-118 | a list is shown only when signed in, loaded and error-free with data: at most six, the first ones in order, and "view all" iff there are more than six |
| RecentActivities.CardListsFirstActivities | src/app/admin/dashboard/RecentActivities.tsx:77-118 | with data and no error, the card lists all activities when at most six, else exactly six |
| AdminCommon.CaughtMessage | src/app/admin/dashboard/ProjectTable.tsx:99 | `err.message \|\| fallback`: the caught message when non-empty, else the table's default |
| AdminLayout.ViewFor | src/app/admin/layout.tsx:48-75 | a spinner iff loading or checking; the dashboard iff neither and not on the login page |
| AdminLayout.AdminLayoutState.constructor | src/app/admin/layout.tsx:14 | the layout starts checking |
| AdminLayout.AdminLayoutState.Check | src/app/admin/layout.tsx:18-45 | admins on the login page go to the dashboard, non-admins elsewhere go to login, otherwise the check ends; nothing happens while auth loads |
| AdminLayout.FirstCheck | src/app/admin/layout.tsx:14-75 | after the first check the dashboard is shown only to an admin off the login page, the bare login page only to a non-admin, and a spinner while loading or redirecting |
| CookieConsent.StoredDecision | src/app/components/CookieConsentSection.tsx:11-15 | the stored consent reads as accepted iff it is "true", and as no decision iff absent |
| CookieConsent.StoredText | src/app/components/CookieConsentSection.tsx:29-44 | the stored text of a decision reads back as that decision |
| CookieConsent.CookieBanner.constructor | src/app/components/CookieConsentSection.tsx:8-15 | the banner shows iff no decision is stored, and the stored one is restored |
| CookieConsent.CookieBanner.AcceptAll | src/app/components/CookieConsentSection.tsx:17-37 | stores "true", hides the banner, logs an accepted consent and emits the analytics event when analytics is present |
| CookieConsent.CookieBanner.Decline | src/app/components/CookieConsentSection.tsx:39-44 | stores "false", hides the banner and logs a declined consent |
| CookieConsent.DecisionSurvivesReload | src/app/components/CookieConsentSection.tsx:8-44 | after deciding, a reloaded banner stays hidden and has the same decision |
| DarkMode.InitialDark | src/app/components/ui/DarkModeToggle.tsx:9-22 | a saved "dark" or "light" wins; otherwise the system preference decides |
| DarkMode.ThemeText | src/app/components/ui/DarkModeToggle.tsx:24-31 | the saved theme is "dark" or "light" |
| DarkMode.SavedThemeReadBack | src/app/components/ui/DarkModeToggle.tsx:9-31 | the saved theme is read back as the same mode on the next load, whatever the system preference |
| DarkMode.DarkModeToggle.constructor | src/app/components/ui/DarkModeToggle.tsx:7-22 | the mode starts as `InitialDark` of the storage |
| DarkMode.DarkModeToggle.Toggle | src/app/components/ui/DarkModeToggle.tsx:24-31 | flips the mode and saves the new one |
| DarkMode.ToggleTwice | src/app/components/ui/DarkModeToggle.tsx:24-31 | two toggles restore the mode, with the original theme saved |
| ListUpdates.Ids | src/app/admin/dashboard/ProjectTable.tsx:109 | the ids of a list, position by position |
| ListUpdates.ReplaceById | src/app/admin/dashboard/ProjectTable.tsx:109 | `map(p => p._id === id ? updated : p)`: same length, matching records replaced, others kept |
| ListUpdates.ReplaceKeepsIds | src/app/admin/dashboard/ProjectTable.tsx:109 | replacing keeps the id list and so keeps ids unique |
| ListUpdates.ReplaceUnique | src/app/admin/dashboard/ProjectTable.tsx:109 | with unique ids, replacing changes exactly the one matching position |
| ListUpdates.ReplaceAbsent | src/app/admin/dashboard/ProjectTable.tsx:109 | replacing an absent id changes nothing |
| ListUpdates.ReplaceIdempotent | src/app/admin/dashboard/ProjectTable.tsx:109 | replacing twice equals replacing once |
| ListUpdates.RemoveSpec | src/app/admin/dashboard/ProjectTable.tsx:129 | `filter(p => p._id !== id)` keeps exactly the records with another id, in order |
| ListUpdates.RemoveAbsent | src/app/admin/dashboard/ProjectTable.tsx:129 | removing an absent id changes nothing |
| ListUpdates.RemoveUnique | src/app/admin/dashboard/ProjectTable.tsx:129 | with unique ids, removing drops exactly the one position |
| ListUpdates.FilterKeepsUnique | src/app/admin/dashboard/ProjectTable.tsx:129 | filtering keeps ids unique (induction) |
| ListUpdates.PrependKeepsUnique | src/app/admin/dashboard/ProjectTable.tsx:91 | prepending a record with a new id keeps ids unique |
| ListUpdates.RemoveUndoesPrepend | src/app/admin/dashboard/ProjectTable.tsx:91-129 | deleting a just-created record restores the list |
| ProjectTable.StatusColor | src/app/admin/dashboard/ProjectTable.tsx:145-154 | the badge of each project status, with grey for any other |
| ProjectTable.ProjectTableState.constructor | src/app/admin/dashboard/ProjectTable.tsx:42-51 | no projects, loading, not editing, no error, blank form |
| ProjectTable.ProjectTableState.Load | src/app/admin/dashboard/ProjectTable.tsx:54-73 | signed out: nothing changes; signed in: the server's projects on success, otherwise an error message; loading ends |
| ProjectTable.ProjectTableState.StartEdit | src/app/admin/dashboard/ProjectTable.tsx:75-83 | edits the project, with the form holding its name, client, status and budget |
| ProjectTable.ProjectTableState.Create | src/app/admin/dashboard/ProjectTable.tsx:85-101 | posts the form when signed in; success prepends the new project and clears the form; failures set the table's messages |
| ProjectTable.ProjectTableState.Save | src/app/admin/dashboard/ProjectTable.tsx:103-120 | puts the form for the edited id; success replaces that project and ends editing; ids stay unique |
| ProjectTable.ProjectTableState.Remove | src/app/admin/dashboard/ProjectTable.tsx:122-138 | deletes only when signed in and confirmed; success removes that id; ids stay unique |
| ProjectTable.ProjectTableState.CancelEdit | src/app/admin/dashboard/ProjectTable.tsx:140-143 | not editing and a blank form |
| ClientTable.ClientTableState.constructor | src/app/admin/dashboard/ClientTable.tsx:40-45 | no clients, loading, blank form, not editing, no error |
| ClientTable.ClientTableState.Load | src/app/admin/dashboard/ClientTable.tsx:47-65 | signed out: nothing changes; signed in: the server's clients on success, otherwise an error; loading ends |
| ClientTable.ClientTableState.Create | src/app/admin/dashboard/ClientTable.tsx:67-83 | posts the form when signed in; success prepends the client and clears the form; failures set messages |
| ClientTable.ClientTableState.StartEdit | src/app/admin/dashboard/ClientTable.tsx:85-94 | edits the client, with missing phone and industry shown as empty |
| ClientTable.ClientTableState.Save | src/app/admin/dashboard/ClientTable.tsx:96-113 | puts the form for the edited id; success replaces that client; ids stay unique |
| ClientTable.ClientTableState.Remove | src/app/admin/dashboard/ClientTable.tsx:115-131 | deletes only when signed in and confirmed; success removes that id; ids stay unique |
| ClientTable.ClientTableState.CancelEdit | src/app/admin/dashboard/ClientTable.tsx:133-136 | not editing and a blank form |
| BlogTable.AsInitial | src/app/admin/dashboard/BlogTable.tsx:203-206 | the editor is seeded with the post's title, content and status |
| BlogTable.BlogTableState.constructor | src/app/admin/dashboard/BlogTable.tsx:30-34 | no posts, loading, not editing, no error |
| BlogTable.BlogTableState.Load | src/app/admin/dashboard/BlogTable.tsx:36-54 | signed out: nothing changes; signed in: the server's posts on success, otherwise an error; loading ends |
| BlogTable.BlogTableState.Create | src/app/admin/dashboard/BlogTable.tsx:56-71 | posts the editor payload when signed in; success prepends the post |
| BlogTable.BlogTableState.Update | src/app/admin/dashboard/BlogTable.tsx:73-89 | puts the payload for the id; success replaces that post and ends editing; ids stay unique |
| BlogTable.BlogTableState.Remove | src/app/admin/dashboard/BlogTable.tsx:91-107 | deletes only when signed in and confirmed; success removes that id; ids stay unique |
| BlogTable.BlogTableState.SetEditing | src/app/admin/dashboard/BlogTable.tsx:175-197 | selects or clears the post being edited |
| ConsultationTable.StatusBadge | src/app/admin/dashboard/ConsultationTable.tsx:146-152 | the badge of each request status; any other status shows as completed (green) |
| ConsultationTable.ConsultationTableState.constructor | src/app/admin/dashboard/ConsultationTable.tsx:29-32 | no requests, loading, no error |
| ConsultationTable.ConsultationTableState.Load | src/app/admin/dashboard/ConsultationTable.tsx:34-53 | signed out: nothing changes; signed in: the server's requests on success, otherwise an error; loading ends |
| ConsultationTable.ConsultationTableState.UpdateStatus | src/app/admin/dashboard/ConsultationTable.tsx:55-70 | puts the new status; success replaces that request; ids stay unique |
| ConsultationTable.ConsultationTableState.Remove | src/app/admin/dashboard/ConsultationTable.tsx:72-88 | deletes only when signed in and confirmed; success removes that id; ids stay unique |
| ScheduleTable.StatusColor | src/app/admin/dashboard/ScheduleTable.tsx:95-103 | the badge of each meeting status, with grey for any other |
| ScheduleTable.MeetingTypeIcon | src/app/admin/dashboard/ScheduleTable.tsx:105-113 | the icon of each meeting type, with the calendar for any other |
| ScheduleTable.ScheduleTableState.constructor | src/app/admin/dashboard/ScheduleTable.tsx:31-34 | no meetings, loading, no error |
| ScheduleTable.ScheduleTableState.Load | src/app/admin/dashboard/ScheduleTable.tsx:36-55 | signed out: nothing changes; signed in: the server's meetings on success, otherwise an error; loading ends |
| ScheduleTable.ScheduleTableState.UpdateStatus | src/app/admin/dashboard/ScheduleTable.tsx:57-75 | puts the status and meeting link; success replaces that meeting; ids stay unique |
| ScheduleTable.ScheduleTableState.Remove | src/app/admin/dashboard/ScheduleTable.tsx:77-93 | deletes only when signed in and confirmed; success removes that id; ids stay unique |
| TeamTable.Reloaded | src/app/admin/dashboard/TeamTable.tsx:56-69 | the member list after a reload: the server's list (or empty) on success, unchanged otherwise |
| TeamTable.ReloadError | src/app/admin/dashboard/TeamTable.tsx:56-69 | an error shows iff the reload threw, with its message when it has one |
| TeamTable.StatusColor | src/app/admin/dashboard/TeamTable.tsx:158-165 | the badge of each member status, with grey for any other |
| TeamTable.TeamTableState.constructor | src/app/admin/dashboard/TeamTable.tsx:41-73 | after mounting, the members and error are those of the first reload, with a blank form |
| TeamTable.TeamTableState.LoadMembers | src/app/admin/dashboard/TeamTable.tsx:56-69 | members and error follow the reload, and loading ends |
| TeamTable.TeamTableState.Create | src/app/admin/dashboard/TeamTable.tsx:75-101 | required fields missing or not an admin each give their alert; otherwise posts the form; success reloads and clears the form; loading ends after a reload and is untouched otherwise |
| TeamTable.TeamTableState.StartEdit | src/app/admin/dashboard/TeamTable.tsx:103-113 | edits the member, with a missing phone shown as empty |
| TeamTable.TeamTableState.Save | src/app/admin/dashboard/TeamTable.tsx:115-133 | puts the form for the edited id; success reloads and ends editing; a throw alerts; loading ends after a reload and is untouched otherwise |
| TeamTable.TeamTableState.Remove | src/app/admin/dashboard/TeamTable.tsx:135-151 | deletes only when confirmed by an admin; success reloads; a throw alerts; loading ends after a reload and is untouched otherwise |
| TeamTable.TeamTableState.CancelEdit | src/app/admin/dashboard/TeamTable.tsx:153-156 | not editing and a blank form |
| Editor.StartDraft | src/app/admin/dashboard/Editor.tsx:12-16 | the first draft: blank without an initial post; otherwise title, excerpt, content and category each fall back to the empty string and the status to "draft" when the post lacks them, and a given title or status wins |
| Editor.SyncedDraft | src/app/admin/dashboard/Editor.tsx:19-27 | the effect's draft: `title`, `excerpt`, `content` and `category` each `\|\| ""` (the same as `?? ""` for an empty default), and `status \|\| "draft"`: the post's status when it is non-empty, `draft` otherwise |
| Editor.PayloadOf | src/app/admin/dashboard/Editor.tsx:29-59 | the saved payload carries the draft unchanged, with `contentHtml` equal to the content |
| Editor.StartThenSync | src/app/admin/dashboard/Editor.tsx:12-27 | the initialisers and the effect agree iff the initial status is not the empty string |
| Editor.EditorState.constructor | src/app/admin/dashboard/Editor.tsx:12-27 | after mounting, the draft is the synced draft of the initial post, or blank |
| Editor.EditorState.SetInitial | src/app/admin/dashboard/Editor.tsx:19-27 | a new initial post re-syncs the draft; a missing one keeps it |
| Editor.EditorState.Edit | src/app/admin/dashboard/Editor.tsx:12-16 | editing replaces the draft |
| Editor.EditorState.HandleSave | src/app/admin/dashboard/Editor.tsx:29-59 | signed out: alert only; with a save handler: the draft's payload is saved; a new post's draft is then cleared |
| Editor.EditorState.HandleCancel | src/app/admin/dashboard/Editor.tsx:61-71 | with a cancel handler it is called, otherwise the draft is cleared |
| Newsletter.MergePagination | src/app/admin/dashboard/NewsletterManagement.tsx:66-74 | the server's pagination with the requested page |
| Newsletter.ShownRangeWithinTotal | src/app/admin/dashboard/NewsletterManagement.tsx:313-315 | "showing a to b of total" stays within 1..total, spans fewer than `limit`, and ends at the total on the last page |
| Newsletter.SomeButtonEnabled | src/app/admin/dashboard/NewsletterManagement.tsx:319-327 | with several pages, at least one of Previous and Next is enabled and points to an existing page |
| Newsletter.EmptyText | src/app/admin/dashboard/NewsletterManagement.tsx:241-243 | the empty-table text depends exactly on whether a search is active |
| Newsletter.NameCell | src/app/admin/dashboard/NewsletterManagement.tsx:278 | the subscriber's name, or a dash when there is none; never empty |
| Newsletter.NewsletterState.constructor | src/app/admin/dashboard/NewsletterManagement.tsx:48-100 | after mounting, an admin sees the first list and stats; a non-admin sees the initial empty state, still loading |
| Newsletter.NewsletterState.LoadSubscribers | src/app/admin/dashboard/NewsletterManagement.tsx:60-81 | requests the page with the current limit and search; success stores the list and the merged pagination; loading ends |
| Newsletter.NewsletterState.LoadStats | src/app/admin/dashboard/NewsletterManagement.tsx:83-93 | stats are the server's on success, kept otherwise |
| Newsletter.NewsletterState.SetSearch | src/app/admin/dashboard/NewsletterManagement.tsx:206-207 | the search text is set |
| Newsletter.NewsletterState.HandleSearch | src/app/admin/dashboard/NewsletterManagement.tsx:102-105 | an admin's search reloads page 1 with the search text; on success the list is the reply's data (or empty) and the pagination the reply's merged at page 1, a failed reload keeps both, and loading ends |
| Newsletter.NewsletterState.Clear | src/app/admin/dashboard/NewsletterManagement.tsx:217-228 | with a non-empty search, clears it and reloads page 1 unfiltered, with the new list and merged pagination on success and loading ended; otherwise nothing changes |
| Newsletter.NewsletterState.Previous | src/app/admin/dashboard/NewsletterManagement.tsx:319-320 | requests the previous page iff the controls show and it is enabled; on success the list is the reply's and the pagination is merged at that page, and loading ends |
| Newsletter.NewsletterState.Next | src/app/admin/dashboard/NewsletterManagement.tsx:326-327 | requests the next page iff the controls show and it is enabled; on success the list is the reply's and the pagination is merged at that page, and loading ends |
| Newsletter.NewsletterState.HandleDelete | src/app/admin/dashboard/NewsletterManagement.tsx:107-123 | a confirmed admin delete is sent; on success the current page and the stats are reloaded, and the new list, pagination and stats are stated for every reload outcome |
| StatsManagement.SetIncrement | src/app/admin/dashboard/StatsManagement.tsx:161-212 | an input sets its own increment to `parseInt(text) \|\| 0` and leaves the other three alone |
| StatsManagement.TypedCountIsSent | src/app/admin/dashboard/StatsManagement.tsx:81-88 | typing a number into an empty form makes it sendable iff the number is positive |
| StatsManagement.NonNumberIsNotSent | src/app/admin/dashboard/StatsManagement.tsx:81-88 | typing text that is not a number into an empty form leaves it unsendable |
| StatsManagement.StatsManagementState.constructor | src/app/admin/dashboard/StatsManagement.tsx:17-92 | after mounting, the stats are the fetched ones on success, with no increments |
| StatsManagement.StatsManagementState.FetchStats | src/app/admin/dashboard/StatsManagement.tsx:27-40 | stats are the server's when it answered with data, kept otherwise; loading ends |
| StatsManagement.StatsManagementState.Edit | src/app/admin/dashboard/StatsManagement.tsx:161-212 | one input change updates the increments as `SetIncrement` says |
| StatsManagement.StatsManagementState.HandleUpdateStats | src/app/admin/dashboard/StatsManagement.tsx:42-60 | sends exactly the given increments to the update-stats call; success refetches the stats (kept when the refetch fails), ends loading and clears the increments; failures alert with the server's message or a default |
| StatsManagement.StatsManagementState.HandleManualUpdate | src/app/admin/dashboard/StatsManagement.tsx:81-88 | sends the increments iff an admin entered at least one positive value, with the same alerts and new stats as `HandleUpdateStats`; otherwise alerts and changes nothing |
| StatsManagement.StatsManagementState.HandleSimulateNewOrder | src/app/admin/dashboard/StatsManagement.tsx:62-79 | an admin's simulated order refetches on success (stats kept when the refetch fails) and alerts with the outcome; a failure keeps the stats |

## Left out

- Network, Firebase authentication and the token lookup are not modelled as effects: their outcomes are method parameters (`HttpOutcome`, `Result`, `TokenLookup`, `signedIn`, `admin`).
- The axios instance settings (base URL, JSON content type, 30-second timeout, credentials) and the response interceptor are not modelled. The interceptor only logs and re-throws.
- Console logging is left out everywhere.
- Time is a parameter. The source reads the clock (`new Date().toISOString()`) separately for `createdAt` and `updatedAt` of every fallback record, so those timestamps can differ between fields and records; the model collapses all the reads of one fetch into the single value `now`, so its `createdAt == updatedAt == now` holds only because of that simplification. `loadedAt` stands for the module-load time used by the bundled posts.
- Async scheduling, unmounts during a request and the timers are not modelled. The timers are the auto-hide of form notices and the navbar hover timeout. A handler runs to completion with its outcome given.
- Rendering, styling, motion and scrolling are left out. Only the values a component computes for display are modelled: badges, icons, labels and the shown range.
- `window.confirm` and `alert` are inputs and outputs. A button's `disabled` state and conditional rendering appear as the guard of the handler behind them.
- JsText.ToLower folds ASCII letters only. Full Unicode case mapping and UTF-16 code-unit lengths are not modelled.
- The `\s` class used by `trim` and the regexes is modelled as the ECMAScript WhiteSpace and LineTerminator set (JsText.IsSpace).
- ApiClient.SubscriberQuery and ApiClient.ActivityQuery return key/value pairs. They do not model `URLSearchParams` percent-encoding.
- List bodies that are neither an array nor an object are not modelled.
- Image lookups do not model prototype keys such as `constructor`, which a plain JS object would also "find".
- Navbar.SortMenus does not model the engine's sort algorithm. `Array.prototype.sort` is stable since ES2019, so the result is fixed by the comparator; the model computes it by a stable grouping on the comparator's rank.
- The schedule form's date bounds (`getMinDate`/`getMaxDate`), date formatting and the timezone list are left out. The local timezone is a constructor parameter.
- Pagination fields are natural numbers. Negative values from a server are not modelled.
- Admin export (`exportConsentData`, `exportData`) and report calls are modelled only as routes and their bearer token, because no core component uses their results; the `blob` response type of the exports is not modelled.
- JsText.ParseIntOrZero: `parseInt` is modelled as returning an unbounded integer; JavaScript returns a double, so digits beyond 2^53 lose precision there and not in the model.
- ApiClient.PublicReadsCarryNoBearer: the interceptor's test is a substring test on the URL, so a by-slug read whose slug begins with `admin` or contains `/admin` is sent with the token (ApiClient.SlugReadCanCarryBearer); the model keeps this behaviour.
- The forms' catch branches read `error.response.data.message`. The safe helpers throw a plain `Error`, which has no `response`, so a thrown submission always shows the network-error notice. The model keeps this behaviour.
- The fallback applies when a public list read fails or returns an empty list. It does not apply only on a thrown error.
- Not every fallback record carries `updatedAt`: `fetchBlogBySlug`'s fallback omits it (ApiClient.BlogBySlugLacksUpdatedAt).
- The blog page's source initialises `hasMore` to `true`. BlogPage.BlogPageState.constructor gives the state after the mount-time filter effect has run, where it is `false`.
