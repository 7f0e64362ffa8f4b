/** The public case-study list: the search, industry and status filters, the
    industry choices, and the technology badges on each card. */
module CaseStudiesPage {
  import opened Wrappers
  import opened JsText
  import opened Lists
  import opened Content

  /** `s?.toLowerCase().includes(t)` on an optional field: an absent field
      never matches. */
  predicate FieldContains(field: Option<string>, term: string) {
    field.Some? && Includes(ToLower(field.value), ToLower(term))
  }

  /** The search filter: the term must occur, ignoring ASCII case, in the
      title, the client or the industry. */
  predicate SearchHit(study: CaseStudy, term: string) {
    Includes(ToLower(study.title), ToLower(term)) || FieldContains(study.client, term) || FieldContains(study.industry, term)
  }

  /** Everything a study must pass to be listed: each filter applies only
      when it is set (a non-empty term, a choice other than `"all"`). */
  predicate Keep(study: CaseStudy, term: string, industry: string, status: string): (r: bool)
    ensures term == "" && industry == "all" && status == "all" ==> r
    ensures r && industry != "all" ==> study.industry.Some?
    ensures r && status != "all" ==> study.status.Some?
  {
    (term == "" || SearchHit(study, term))
    && (industry == "all" || study.industry == Some(industry))
    && (status == "all" || study.status == Some(status))
  }

  /** `Keep` as the callback handed to `filter`. */
  function KeepBy(term: string, industry: string, status: string): CaseStudy -> bool {
    s => Keep(s, term, industry, status)
  }

  /** The three filter callbacks, one per filter. */
  function SearchStage(term: string): CaseStudy -> bool {
    (s: CaseStudy) => SearchHit(s, term)
  }

  function IndustryStage(industry: string): CaseStudy -> bool {
    (s: CaseStudy) => s.industry == Some(industry)
  }

  function StatusStage(status: string): CaseStudy -> bool {
    (s: CaseStudy) => s.status == Some(status)
  }

  /** One stage of the filter: the list narrowed by `stage` when the filter
      is set, unchanged otherwise. */
  function Stage(s: seq<CaseStudy>, narrow: bool, stage: CaseStudy -> bool): seq<CaseStudy> {
    if narrow then Filter(s, stage) else s
  }

  /** Applying the set filters one after the other is filtering by `Keep`. */
  lemma StagesCompose(studies: seq<CaseStudy>, term: string, industry: string, status: string)
    ensures Stage(Stage(Stage(studies, term != "", SearchStage(term)), industry != "all", IndustryStage(industry)),
                  status != "all", StatusStage(status))
      == Filter(studies, KeepBy(term, industry, status))
  {
    var k1: CaseStudy -> bool := (s: CaseStudy) => term == "" || SearchHit(s, term);
    var k2: CaseStudy -> bool := (s: CaseStudy) => industry == "all" || s.industry == Some(industry);
    var k3: CaseStudy -> bool := (s: CaseStudy) => status == "all" || s.status == Some(status);
    var k12: CaseStudy -> bool := (s: CaseStudy) => k1(s) && k2(s);
    var a := Stage(studies, term != "", SearchStage(term));
    assert a == Filter(studies, k1) by {
      if term != "" {
        FilterKeepsSame(studies, SearchStage(term), k1);
      } else {
        FilterKeepsAll(studies, k1);
      }
    }
    var b := Stage(a, industry != "all", IndustryStage(industry));
    assert b == Filter(a, k2) by {
      if industry != "all" {
        FilterKeepsSame(a, IndustryStage(industry), k2);
      } else {
        FilterKeepsAll(a, k2);
      }
    }
    FilterFilter(studies, k1, k2, k12);
    var c := Stage(b, status != "all", StatusStage(status));
    assert c == Filter(b, k3) by {
      if status != "all" {
        FilterKeepsSame(b, StatusStage(status), k3);
      } else {
        FilterKeepsAll(b, k3);
      }
    }
    FilterFilter(studies, k12, k3, KeepBy(term, industry, status));
  }

  /** `caseStudies.map(study => study.industry).filter(Boolean)`. */
  function IndustryValues(studies: seq<CaseStudy>): seq<string> {
    TruthyValues(seq(|studies|, i requires 0 <= i < |studies| => studies[i].industry))
  }

  /** The industry choices, each non-empty industry once, in first-occurrence order. */
  function Industries(studies: seq<CaseStudy>): seq<string> {
    Distinct(IndustryValues(studies))
  }

  lemma IndustriesSpec(studies: seq<CaseStudy>)
    ensures forall c :: c in Industries(studies) <==>
      c != "" && exists i :: 0 <= i < |studies| && studies[i].industry == Some(c)
    ensures forall i, j :: 0 <= i < j < |Industries(studies)| ==> Industries(studies)[i] != Industries(studies)[j]
    ensures forall c :: c in Industries(studies) <==> c in IndustryValues(studies)
    ensures forall i, j :: 0 <= i < j < |Industries(studies)| ==>
      FirstIndex(IndustryValues(studies), Industries(studies)[i]) < FirstIndex(IndustryValues(studies), Industries(studies)[j])
  {
    var values := seq(|studies|, i requires 0 <= i < |studies| => studies[i].industry);
    DistinctSpec(IndustryValues(studies));
    forall c
      ensures Some(c) in values <==> exists i :: 0 <= i < |studies| && studies[i].industry == Some(c)
    {
      if Some(c) in values {
        var i :| 0 <= i < |values| && values[i] == Some(c);
        assert studies[i].industry == Some(c);
      }
      if exists i :: 0 <= i < |studies| && studies[i].industry == Some(c) {
        var i :| 0 <= i < |studies| && studies[i].industry == Some(c);
        assert values[i] == Some(c);
      }
    }
  }

  /** A status filter other than `"all"` hides every study without a status. */
  lemma StatusFilterHidesStatusless(study: CaseStudy, term: string, industry: string, status: string)
    requires status != "all" && study.status.None?
    ensures !Keep(study, term, industry, status)
  {
  }

  /** The badges on a card: at most three technologies, then `+k more` for
      the rest. Nothing shows when the list is absent or empty. */
  function TechnologyBadges(technologies: Option<seq<string>>): (r: (seq<string>, Option<string>))
    ensures |r.0| <= 3
    ensures technologies.None? ==> r.0 == [] && r.1.None?
    ensures technologies.Some? ==> |r.0| <= |technologies.value| && r.0 == technologies.value[..|r.0|]
    ensures technologies.Some? ==> (|r.0| < 3 ==> |r.0| == |technologies.value|)
    ensures r.1.Some? <==> technologies.Some? && |technologies.value| > 3
    ensures r.1.Some? ==>
      exists k: nat :: r.1.value == "+" + NatToString(k) + " more" && |r.0| + k == |technologies.value|
  {
    if technologies.None? || |technologies.value| == 0 then ([], None)
    else
      var t := technologies.value;
      var shown := Slice(t, 0, 3);
      assert shown == t[..|shown|];
      (shown, if |t| > 3 then Some("+" + NatToString(|t| - 3) + " more") else None)
  }

  class CaseStudiesPageState {
    var caseStudies: seq<CaseStudy>
    var filteredStudies: seq<CaseStudy>
    var loading: bool
    var searchTerm: string
    var industryFilter: string
    var statusFilter: string

    ghost predicate Valid()
      reads this
    {
      filteredStudies == Filter(caseStudies, KeepBy(searchTerm, industryFilter, statusFilter))
    }

    constructor ()
      ensures Valid() && caseStudies == [] && filteredStudies == [] && loading
      ensures searchTerm == "" && industryFilter == "all" && statusFilter == "all"
    {
      caseStudies := [];
      filteredStudies := [];
      loading := true;
      searchTerm := "";
      industryFilter := "all";
      statusFilter := "all";
    }

    /** `filterCaseStudies`: narrow the list by each filter that is set, in
        turn. The result keeps exactly the studies that pass `Keep`, in order. */
    method FilterCaseStudies()
      modifies this`filteredStudies
      ensures Valid()
      ensures SubsequenceOf(filteredStudies, caseStudies)
    {
      var term, industry, status := searchTerm, industryFilter, statusFilter;
      var filtered := caseStudies;
      if term != "" {
        filtered := Filter(filtered, SearchStage(term));
      }
      if industry != "all" {
        filtered := Filter(filtered, IndustryStage(industry));
      }
      if status != "all" {
        filtered := Filter(filtered, StatusStage(status));
      }
      StagesCompose(caseStudies, term, industry, status);
      FilterIsSubsequence(caseStudies, KeepBy(term, industry, status));
      filteredStudies := filtered;
    }

    /** `loadCaseStudies`: store the fetched list (a failure keeps the old
        one), run the filter effect the new list triggers, and stop loading. */
    method LoadCaseStudies(outcome: Result<seq<CaseStudy>, string>)
      modifies this`caseStudies, this`filteredStudies, this`loading
      ensures Valid() && !loading
      ensures outcome.Success? ==> caseStudies == outcome.value
      ensures outcome.Failure? ==> caseStudies == old(caseStudies)
    {
      if outcome.Success? {
        caseStudies := outcome.value;
      }
      loading := false;
      FilterCaseStudies();
    }

    /** Changing one of the three filters re-runs the filter effect. */
    method SetFilters(term: string, industry: string, status: string)
      modifies this`searchTerm, this`industryFilter, this`statusFilter, this`filteredStudies
      ensures Valid()
      ensures searchTerm == term && industryFilter == industry && statusFilter == status
      ensures forall s :: s in filteredStudies <==> s in caseStudies && Keep(s, term, industry, status)
    {
      searchTerm, industryFilter, statusFilter := term, industry, status;
      FilterCaseStudies();
      forall s
        ensures s in filteredStudies <==> s in caseStudies && Keep(s, term, industry, status)
      {
        FilterMembership(caseStudies, KeepBy(term, industry, status), s);
      }
    }
  }
}
