/** The public blog list: the category and search filters, the category
    choices, and the six-at-a-time "load more" pagination. */
module BlogPage {
  import opened Wrappers
  import opened JsText
  import opened Lists
  import opened Content
  import opened Images

  /** `loadCount`. */
  const LoadCount: nat := 6

  /** The category filter: `"all"` keeps everything, otherwise exact equality. */
  predicate InCategory(b: Blog, category: string) {
    category == "all" || b.category == Some(category)
  }

  /** The search filter: a blank search (after trimming) keeps everything;
      otherwise the lower-cased title must contain the lower-cased, untrimmed
      search text. */
  predicate MatchesSearch(b: Blog, search: string) {
    Trim(search) == "" || Includes(ToLower(b.title), ToLower(search))
  }

  /** The two chained `filter` calls. */
  function Filtered(blogs: seq<Blog>, search: string, category: string): (r: seq<Blog>)
    ensures |r| <= |blogs|
    ensures forall i :: 0 <= i < |r| ==> InCategory(r[i], category) && MatchesSearch(r[i], search)
  {
    var inCategory := Filter(blogs, b => InCategory(b, category));
    var r := Filter(inCategory, b => MatchesSearch(b, search));
    assert forall i :: 0 <= i < |r| ==> InCategory(r[i], category) by {
      forall i | 0 <= i < |r|
        ensures InCategory(r[i], category)
      {
        FilterMembership(inCategory, b => MatchesSearch(b, search), r[i]);
        FilterMembership(blogs, b => InCategory(b, category), r[i]);
      }
    }
    r
  }

  /** A blog is listed exactly when it passes both filters, and the list keeps
      the order of `blogs`. */
  lemma FilteredSpec(blogs: seq<Blog>, search: string, category: string)
    ensures forall b :: b in Filtered(blogs, search, category) <==>
      b in blogs && InCategory(b, category) && MatchesSearch(b, search)
    ensures SubsequenceOf(Filtered(blogs, search, category), blogs)
  {
    var both := b => InCategory(b, category) && MatchesSearch(b, search);
    FilterFilter(blogs, b => InCategory(b, category), b => MatchesSearch(b, search), both);
    forall b
      ensures b in Filtered(blogs, search, category) <==> b in blogs && both(b)
    {
      FilterMembership(blogs, both, b);
    }
    FilterIsSubsequence(blogs, both);
  }

  /** The "all" category and a blank search list every blog. */
  lemma UnfilteredListsAll(blogs: seq<Blog>, search: string)
    requires Trim(search) == ""
    ensures Filtered(blogs, search, "all") == blogs
  {
    FilterKeepsAll(blogs, b => InCategory(b, "all"));
    FilterKeepsAll(blogs, b => MatchesSearch(b, search));
  }

  /** `blogs.map(b => b.category).filter(Boolean)`. */
  function CategoryValues(blogs: seq<Blog>): seq<string> {
    TruthyValues(seq(|blogs|, i requires 0 <= i < |blogs| => blogs[i].category))
  }

  /** `Array.from(new Set(...))`: the category choices. */
  function Categories(blogs: seq<Blog>): (r: seq<string>)
    ensures forall c :: c in r ==> c != ""
    ensures forall i, j :: 0 <= i < j < |r| ==> r[i] != r[j]
  {
    DistinctSpec(CategoryValues(blogs));
    Distinct(CategoryValues(blogs))
  }

  /** Each non-empty category appears exactly once, in the order it first
      appears among the blogs. */
  lemma CategoriesSpec(blogs: seq<Blog>)
    ensures forall c :: c in Categories(blogs) <==>
      c != "" && exists i :: 0 <= i < |blogs| && blogs[i].category == Some(c)
    ensures forall i, j :: 0 <= i < j < |Categories(blogs)| ==> Categories(blogs)[i] != Categories(blogs)[j]
    ensures forall c :: c in Categories(blogs) <==> c in CategoryValues(blogs)
    ensures forall i, j :: 0 <= i < j < |Categories(blogs)| ==>
      FirstIndex(CategoryValues(blogs), Categories(blogs)[i]) < FirstIndex(CategoryValues(blogs), Categories(blogs)[j])
  {
    var values := seq(|blogs|, i requires 0 <= i < |blogs| => blogs[i].category);
    DistinctSpec(CategoryValues(blogs));
    forall c
      ensures Some(c) in values <==> exists i :: 0 <= i < |blogs| && blogs[i].category == Some(c)
    {
      if Some(c) in values {
        var i :| 0 <= i < |values| && values[i] == Some(c);
        assert blogs[i].category == Some(c);
      }
      if exists i :: 0 <= i < |blogs| && blogs[i].category == Some(c) {
        var i :| 0 <= i < |blogs| && blogs[i].category == Some(c);
        assert values[i] == Some(c);
      }
    }
  }

  /** `data.map(b => ({ ...b, image: getBlogImages(b.slug) }))`: the image is
      replaced by the slug lookup, which may be absent. */
  function WithImages(data: seq<Blog>): (r: seq<Blog>)
    ensures |r| == |data|
    ensures forall i :: 0 <= i < |r| ==> r[i] == data[i].(image := BlogImage(data[i].slug))
  {
    seq(|data|, i requires 0 <= i < |data| => data[i].(image := BlogImage(data[i].slug)))
  }

  class BlogPageState {
    var blogs: seq<Blog>
    var displayed: seq<Blog>
    var search: string
    var category: string
    var hasMore: bool

    /** The shown blogs are a prefix of the filtered list, and "load more" is
        offered exactly when that prefix is not the whole list. */
    ghost predicate Valid()
      reads this
    {
      var f := Filtered(blogs, search, category);
      |displayed| <= |f| && displayed == f[..|displayed|] && (hasMore <==> |displayed| < |f|)
    }

    /** The initial state, after the filter effect has run once on mount. */
    constructor ()
      ensures Valid()
      ensures blogs == [] && displayed == [] && search == "" && category == "all" && !hasMore
    {
      blogs := [];
      displayed := [];
      search := "";
      category := "all";
      hasMore := false;
    }

    /** The effect on `[search, category, blogs]`: show the first page of the
        filtered list. */
    method Refresh()
      modifies this`displayed, this`hasMore
      ensures Valid()
      ensures displayed == Slice(Filtered(blogs, search, category), 0, LoadCount)
      ensures hasMore <==> |Filtered(blogs, search, category)| > LoadCount
    {
      var filtered := Filtered(blogs, search, category);
      displayed := Slice(filtered, 0, LoadCount);
      hasMore := |filtered| > LoadCount;
    }

    /** `loadBlogs` with the fetched list, followed by the filter effect its
        update of `blogs` triggers. */
    method Load(data: seq<Blog>)
      modifies this`blogs, this`displayed, this`hasMore
      ensures Valid()
      ensures blogs == WithImages(data)
      ensures displayed == Slice(Filtered(blogs, search, category), 0, LoadCount)
      ensures hasMore <==> |Filtered(blogs, search, category)| > LoadCount
    {
      var withImages := WithImages(data);
      blogs := withImages;
      displayed := Slice(withImages, 0, LoadCount);
      hasMore := |withImages| > LoadCount;
      Refresh();
    }

    /** Typing in the search box. */
    method SetSearch(text: string)
      modifies this`search, this`displayed, this`hasMore
      ensures Valid() && search == text
      ensures displayed == Slice(Filtered(blogs, text, category), 0, LoadCount)
    {
      search := text;
      Refresh();
    }

    /** Choosing a category. */
    method SetCategory(choice: string)
      modifies this`category, this`displayed, this`hasMore
      ensures Valid() && category == choice
      ensures displayed == Slice(Filtered(blogs, search, choice), 0, LoadCount)
    {
      category := choice;
      Refresh();
    }

    /** `loadMore`: append the next six filtered blogs; switch the button off
        once everything is shown. */
    method LoadMore()
      requires Valid()
      modifies this`displayed, this`hasMore
      ensures Valid()
      ensures var f := Filtered(blogs, search, category);
        displayed == old(displayed) + Slice(f, |old(displayed)|, |old(displayed)| + LoadCount)
      ensures |displayed| == Min(|old(displayed)| + LoadCount, |Filtered(blogs, search, category)|)
    {
      var currentCount := |displayed|;
      var filtered := Filtered(blogs, search, category);
      var nextBlogs := Slice(filtered, currentCount, currentCount + LoadCount);
      var shown := displayed;
      displayed := shown + nextBlogs;
      if |shown| + |nextBlogs| >= |filtered| {
        hasMore := false;
      }
      assert displayed == filtered[..|displayed|];
    }
  }

  function Min(a: int, b: int): int {
    if a < b then a else b
  }
}
