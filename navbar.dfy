/** The navigation bar's menu ordering (Solutions groups, then Industries
    groups, then the rest, each in their original order) and the mobile
    accordion. */
module Navbar {
  import opened Wrappers
  import opened JsText
  import opened Lists
  import opened Content

  predicate MentionsSolutions(g: MenuGroup) {
    Includes(ToLower(g.title), "solutions")
  }

  predicate MentionsIndustries(g: MenuGroup) {
    Includes(ToLower(g.title), "industries")
  }

  /** The comparator handed to `menus.sort`. */
  function Compare(a: MenuGroup, b: MenuGroup): int {
    if MentionsSolutions(a) && !MentionsSolutions(b) then -1
    else if !MentionsSolutions(a) && MentionsSolutions(b) then 1
    else if MentionsIndustries(a) && !MentionsIndustries(b) then -1
    else if !MentionsIndustries(a) && MentionsIndustries(b) then 1
    else 0
  }

  /** The position of a group's bucket: 0 for a title mentioning both
      words, 1 for "solutions" only, 2 for "industries" only, 3 otherwise. */
  function Rank(g: MenuGroup): (r: nat)
    ensures r < 4
    ensures r < 2 <==> MentionsSolutions(g)
  {
    (if MentionsSolutions(g) then 0 else 2) + (if MentionsIndustries(g) then 0 else 1)
  }

  /** The comparator orders groups by rank, so it is antisymmetric and a
      total preorder. */
  lemma CompareIsRankOrder(a: MenuGroup, b: MenuGroup)
    ensures Compare(a, b) < 0 <==> Rank(a) < Rank(b)
    ensures Compare(a, b) == 0 <==> Rank(a) == Rank(b)
    ensures Compare(a, b) > 0 <==> Rank(a) > Rank(b)
    ensures Compare(a, b) == -Compare(b, a)
  {
  }

  /** The elements whose key is `k`. */
  function KeyIs<T>(key: T -> nat, k: nat): T -> bool {
    x => key(x) == k
  }

  /** The order a stable sort by a key below 4 produces: the elements of
      key 0, then key 1, 2 and 3, each group in its original order. */
  function GroupedBy<T>(s: seq<T>, key: T -> nat): seq<T> {
    Filter(s, KeyIs(key, 0)) + Filter(s, KeyIs(key, 1)) + Filter(s, KeyIs(key, 2)) + Filter(s, KeyIs(key, 3))
  }

  /** The menus in display order. */
  function DisplayOrder(menus: seq<MenuGroup>): seq<MenuGroup> {
    GroupedBy(menus, Rank)
  }

  lemma GroupSplit<T>(x: T, rest: seq<T>, key: T -> nat, k: nat)
    ensures multiset(Filter([x] + rest, KeyIs(key, k))) ==
      (if key(x) == k then multiset{x} else multiset{}) + multiset(Filter(rest, KeyIs(key, k)))
  {
    FilterAppend([x], rest, KeyIs(key, k));
    assert [x][1..] == [];
  }

  /** Grouping only reorders: same elements, same multiplicities. */
  lemma {:induction false} GroupedIsPermutation<T(!new)>(s: seq<T>, key: T -> nat)
    requires forall x :: key(x) < 4
    ensures multiset(GroupedBy(s, key)) == multiset(s)
    decreases |s|
  {
    if |s| > 0 {
      GroupedIsPermutation(s[1..], key);
      GroupedStep(s[0], s[1..], key);
      assert s == [s[0]] + s[1..];
    }
  }

  /** Putting `x` in front adds it to exactly one group. */
  lemma GroupedStep<T>(x: T, rest: seq<T>, key: T -> nat)
    requires key(x) < 4
    ensures multiset(GroupedBy([x] + rest, key)) == multiset{x} + multiset(GroupedBy(rest, key))
  {
    PairSplit(x, rest, key, 0, 1);
    PairSplit(x, rest, key, 2, 3);
  }

  lemma PairSplit<T>(x: T, rest: seq<T>, key: T -> nat, k1: nat, k2: nat)
    requires k1 != k2
    ensures multiset(Filter([x] + rest, KeyIs(key, k1))) + multiset(Filter([x] + rest, KeyIs(key, k2))) ==
      (if key(x) == k1 || key(x) == k2 then multiset{x} else multiset{})
      + multiset(Filter(rest, KeyIs(key, k1))) + multiset(Filter(rest, KeyIs(key, k2)))
  {
    GroupSplit(x, rest, key, k1);
    GroupSplit(x, rest, key, k2);
  }

  /** Keys never decrease along the grouped sequence. */
  lemma GroupedIsSorted<T(!new)>(s: seq<T>, key: T -> nat)
    requires forall x :: key(x) < 4
    ensures forall i, j :: 0 <= i < j < |GroupedBy(s, key)| ==> key(GroupedBy(s, key)[i]) <= key(GroupedBy(s, key)[j])
  {
    var b0, b1 := Filter(s, KeyIs(key, 0)), Filter(s, KeyIs(key, 1));
    var b2, b3 := Filter(s, KeyIs(key, 2)), Filter(s, KeyIs(key, 3));
    var d := GroupedBy(s, key);
    forall i | 0 <= i < |d|
      ensures key(d[i]) == if i < |b0| then 0 else if i < |b0| + |b1| then 1 else if i < |b0| + |b1| + |b2| then 2 else 3
    {
      if i < |b0| {
        assert d[i] == b0[i];
      } else if i < |b0| + |b1| {
        assert d[i] == b1[i - |b0|];
      } else if i < |b0| + |b1| + |b2| {
        assert d[i] == b2[i - |b0| - |b1|];
      } else {
        assert d[i] == b3[i - |b0| - |b1| - |b2|];
      }
    }
  }

  lemma GroupFilterSame<T>(s: seq<T>, key: T -> nat, r: nat)
    ensures Filter(Filter(s, KeyIs(key, r)), KeyIs(key, r)) == Filter(s, KeyIs(key, r))
  {
    FilterKeepsAll(Filter(s, KeyIs(key, r)), KeyIs(key, r));
  }

  lemma GroupFilterOther<T>(s: seq<T>, key: T -> nat, k: nat, r: nat)
    requires k != r
    ensures Filter(Filter(s, KeyIs(key, k)), KeyIs(key, r)) == []
  {
    FilterNone(Filter(s, KeyIs(key, k)), KeyIs(key, r));
  }

  /** Elements with equal keys keep their relative order: the grouping is stable. */
  lemma GroupedIsStable<T>(s: seq<T>, key: T -> nat, r: nat)
    requires r < 4
    ensures Filter(GroupedBy(s, key), KeyIs(key, r)) == Filter(s, KeyIs(key, r))
  {
    var kr := KeyIs(key, r);
    var own := Filter(s, kr);
    var g0 := Filter(Filter(s, KeyIs(key, 0)), kr);
    var g1 := Filter(Filter(s, KeyIs(key, 1)), kr);
    var g2 := Filter(Filter(s, KeyIs(key, 2)), kr);
    var g3 := Filter(Filter(s, KeyIs(key, 3)), kr);
    assert Filter(GroupedBy(s, key), kr) == g0 + g1 + g2 + g3 by {
      FilterOfGrouped(s, key, r);
    }
    assert g0 == (if r == 0 then own else []) by {
      if r == 0 { GroupFilterSame(s, key, r); } else { GroupFilterOther(s, key, 0, r); }
    }
    assert g1 == (if r == 1 then own else []) by {
      if r == 1 { GroupFilterSame(s, key, r); } else { GroupFilterOther(s, key, 1, r); }
    }
    assert g2 == (if r == 2 then own else []) by {
      if r == 2 { GroupFilterSame(s, key, r); } else { GroupFilterOther(s, key, 2, r); }
    }
    assert g3 == (if r == 3 then own else []) by {
      if r == 3 { GroupFilterSame(s, key, r); } else { GroupFilterOther(s, key, 3, r); }
    }
    ConcatOneOfFour(g0, g1, g2, g3, own, r);
  }

  lemma ConcatOneOfFour<T>(g0: seq<T>, g1: seq<T>, g2: seq<T>, g3: seq<T>, own: seq<T>, r: nat)
    requires r < 4
    requires g0 == (if r == 0 then own else []) && g1 == (if r == 1 then own else [])
    requires g2 == (if r == 2 then own else []) && g3 == (if r == 3 then own else [])
    ensures g0 + g1 + g2 + g3 == own
  {
    if r == 0 {
      assert g0 + g1 + g2 + g3 == own + [] + [] + [];
    } else if r == 1 {
      assert g0 + g1 + g2 + g3 == [] + own + [] + [];
    } else if r == 2 {
      assert g0 + g1 + g2 + g3 == [] + [] + own + [];
    } else {
      assert g0 + g1 + g2 + g3 == [] + [] + [] + own;
    }
  }

  lemma FilterOfGrouped<T>(s: seq<T>, key: T -> nat, r: nat)
    ensures Filter(GroupedBy(s, key), KeyIs(key, r)) ==
      Filter(Filter(s, KeyIs(key, 0)), KeyIs(key, r)) + Filter(Filter(s, KeyIs(key, 1)), KeyIs(key, r))
      + Filter(Filter(s, KeyIs(key, 2)), KeyIs(key, r)) + Filter(Filter(s, KeyIs(key, 3)), KeyIs(key, r))
  {
    var b0, b1 := Filter(s, KeyIs(key, 0)), Filter(s, KeyIs(key, 1));
    var b2, b3 := Filter(s, KeyIs(key, 2)), Filter(s, KeyIs(key, 3));
    FilterAppend(b0 + b1 + b2, b3, KeyIs(key, r));
    FilterAppend(b0 + b1, b2, KeyIs(key, r));
    FilterAppend(b0, b1, KeyIs(key, r));
  }

  lemma {:induction false} FilterNone<T>(s: seq<T>, p: T -> bool)
    requires forall i :: 0 <= i < |s| ==> !p(s[i])
    ensures Filter(s, p) == []
    decreases |s|
  {
    if |s| > 0 {
      FilterNone(s[1..], p);
    }
  }

  /** The display order is a permutation of the menus, sorted by the
      comparator, and stable among groups the comparator calls equal. */
  lemma DisplayOrderSpec(menus: seq<MenuGroup>)
    ensures multiset(DisplayOrder(menus)) == multiset(menus)
    ensures forall i, j :: 0 <= i < j < |DisplayOrder(menus)| ==> Compare(DisplayOrder(menus)[i], DisplayOrder(menus)[j]) <= 0
    ensures forall r :: 0 <= r < 4 ==> Filter(DisplayOrder(menus), KeyIs(Rank, r)) == Filter(menus, KeyIs(Rank, r))
  {
    GroupedIsPermutation(menus, Rank);
    GroupedIsSorted(menus, Rank);
    var d := DisplayOrder(menus);
    forall i, j | 0 <= i < j < |d|
      ensures Compare(d[i], d[j]) <= 0
    {
      CompareIsRankOrder(d[i], d[j]);
    }
    forall r | 0 <= r < 4
      ensures Filter(d, KeyIs(Rank, r)) == Filter(menus, KeyIs(Rank, r))
    {
      GroupedIsStable(menus, Rank, r);
    }
  }

  lemma GroupsGrow<T>(s: seq<T>, key: T -> nat, i: nat)
    requires i < |s|
    ensures forall r: nat :: Filter(s[..i + 1], KeyIs(key, r)) == Filter(s[..i], KeyIs(key, r)) + (if key(s[i]) == r then [s[i]] else [])
  {
    assert s[..i + 1] == s[..i] + [s[i]];
    forall r: nat
      ensures Filter(s[..i + 1], KeyIs(key, r)) == Filter(s[..i], KeyIs(key, r)) + (if key(s[i]) == r then [s[i]] else [])
    {
      FilterAppend(s[..i], [s[i]], KeyIs(key, r));
      assert [s[i]][1..] == [];
    }
  }

  /** One pass over `a` collecting the four groups. */
  method CollectGroups<T>(a: array<T>, key: T -> nat) returns (b0: seq<T>, b1: seq<T>, b2: seq<T>, b3: seq<T>)
    ensures b0 == Filter(a[..], KeyIs(key, 0)) && b1 == Filter(a[..], KeyIs(key, 1))
    ensures b2 == Filter(a[..], KeyIs(key, 2)) && b3 == Filter(a[..], KeyIs(key, 3))
  {
    b0, b1, b2, b3 := [], [], [], [];
    var i := 0;
    while i < a.Length
      invariant 0 <= i <= a.Length
      invariant b0 == Filter(a[..i], KeyIs(key, 0)) && b1 == Filter(a[..i], KeyIs(key, 1))
      invariant b2 == Filter(a[..i], KeyIs(key, 2)) && b3 == Filter(a[..i], KeyIs(key, 3))
    {
      var x := a[i];
      GroupsGrow(a[..], key, i);
      assert a[..][..i] == a[..i] && a[..][..i + 1] == a[..i + 1];
      var k := key(x);
      if k == 0 {
        b0 := b0 + [x];
      } else if k == 1 {
        b1 := b1 + [x];
      } else if k == 2 {
        b2 := b2 + [x];
      } else if k == 3 {
        b3 := b3 + [x];
      }
      i := i + 1;
    }
    assert a[..a.Length] == a[..];
  }

  /** Overwrite `a` with `s`. */
  method CopyInto<T>(a: array<T>, s: seq<T>)
    requires |s| == a.Length
    modifies a
    ensures a[..] == s
  {
    var j := 0;
    while j < a.Length
      invariant 0 <= j <= a.Length
      invariant a[..j] == s[..j]
    {
      a[j] := s[j];
      j := j + 1;
    }
  }

  /** A stable in-place sort of `a` by a key below 4. */
  method SortByKey<T(!new)>(a: array<T>, key: T -> nat)
    requires forall x :: key(x) < 4
    modifies a
    ensures a[..] == GroupedBy(old(a[..]), key)
  {
    var b0, b1, b2, b3 := CollectGroups(a, key);
    var sorted := b0 + b1 + b2 + b3;
    GroupedIsPermutation(a[..], key);
    assert |sorted| == |multiset(sorted)| == a.Length;
    CopyInto(a, sorted);
  }

  /** `menus.sort(compare)`: reorders the menu array in place into the
      display order. */
  method SortMenus(a: array<MenuGroup>)
    modifies a
    ensures a[..] == DisplayOrder(old(a[..]))
  {
    SortByKey(a, Rank);
  }

  /** The mobile menu: whether the panel is shown, and the accordion group
      that is open in it (at most one, named by its title). */
  class MobileMenu {
    var mobileOpen: bool
    var openTitle: Option<string>

    constructor ()
      ensures !mobileOpen && openTitle == None
    {
      mobileOpen := false;
      openTitle := None;
    }

    /** The menu button: shows or hides the panel; the accordion is untouched. */
    method ToggleMobile()
      modifies this`mobileOpen
      ensures mobileOpen == !old(mobileOpen)
    {
      mobileOpen := !mobileOpen;
    }

    /** Clicking a group's header: the open group closes, any other opens
        in its place. */
    method Toggle(title: string)
      modifies this`openTitle
      ensures old(openTitle) == Some(title) ==> openTitle == None
      ensures old(openTitle) != Some(title) ==> openTitle == Some(title)
    {
      openTitle := if openTitle == Some(title) then None else Some(title);
    }

    /** Following a link inside an open group closes the panel and the group. */
    method FollowItem()
      modifies this
      ensures !mobileOpen && openTitle == None
    {
      mobileOpen := false;
      openTitle := None;
    }

    /** Following one of the panel's other links closes the panel only. */
    method FollowLink()
      modifies this`mobileOpen
      ensures !mobileOpen
    {
      mobileOpen := false;
    }
  }

  /** On a fresh menu, the first click on a header opens that group and the
      second closes it again. */
  method ToggleTwice(title: string) returns (first: Option<string>, second: Option<string>)
    ensures first == Some(title) && second == None
  {
    var m := new MobileMenu();
    m.Toggle(title);
    first := m.openTitle;
    m.Toggle(title);
    second := m.openTitle;
  }
}
