/** Sequence operations the list pages are built from: `Array.prototype.filter`,
    the distinct values of `Array.from(new Set(...))` in first-occurrence
    order, and `slice`. */
module Lists {
  import opened Wrappers

  /** `s.filter(p)`. */
  function Filter<T>(s: seq<T>, p: T -> bool): (r: seq<T>)
    ensures |r| <= |s|
    ensures forall i :: 0 <= i < |r| ==> p(r[i])
  {
    if |s| == 0 then [] else (if p(s[0]) then [s[0]] else []) + Filter(s[1..], p)
  }

  /** `r` can be obtained from `s` by deleting elements. */
  predicate SubsequenceOf<T(==)>(r: seq<T>, s: seq<T>)
    decreases |s|
  {
    |r| == 0 || (|s| > 0 && ((r[0] == s[0] && SubsequenceOf(r[1..], s[1..])) || SubsequenceOf(r, s[1..])))
  }

  lemma {:induction false} FilterMembership<T>(s: seq<T>, p: T -> bool, x: T)
    ensures x in Filter(s, p) <==> x in s && p(x)
    decreases |s|
  {
    if |s| > 0 {
      FilterMembership(s[1..], p, x);
      assert s == [s[0]] + s[1..];
    }
  }

  lemma {:induction false} FilterAppend<T>(s: seq<T>, t: seq<T>, p: T -> bool)
    ensures Filter(s + t, p) == Filter(s, p) + Filter(t, p)
    decreases |s|
  {
    if |s| == 0 {
      assert s + t == t;
    } else {
      assert (s + t)[1..] == s[1..] + t;
      FilterAppend(s[1..], t, p);
    }
  }

  /** The filter keeps order: its result is a subsequence of its input. */
  lemma {:induction false} FilterIsSubsequence<T>(s: seq<T>, p: T -> bool)
    ensures SubsequenceOf(Filter(s, p), s)
    decreases |s|
  {
    if |s| > 0 {
      FilterIsSubsequence(s[1..], p);
      var r := Filter(s, p);
      if p(s[0]) {
        assert r[0] == s[0] && r[1..] == Filter(s[1..], p);
      } else {
        assert r == Filter(s[1..], p);
      }
    }
  }

  /** Two filters in a row keep what one filter by the conjunction keeps. */
  lemma {:induction false} FilterFilter<T>(s: seq<T>, p: T -> bool, q: T -> bool, both: T -> bool)
    requires forall x :: both(x) == (p(x) && q(x))
    ensures Filter(Filter(s, p), q) == Filter(s, both)
    decreases |s|
  {
    if |s| > 0 {
      FilterFilter(s[1..], p, q, both);
      var rest := Filter(s[1..], p);
      if p(s[0]) {
        assert Filter(s, p) == [s[0]] + rest;
        FilterAppend([s[0]], rest, q);
        assert [s[0]][1..] == [];
        assert Filter([s[0]], q) == if q(s[0]) then [s[0]] else [];
      } else {
        assert Filter(s, p) == rest;
      }
      assert Filter(s, both) == (if both(s[0]) then [s[0]] else []) + Filter(s[1..], both);
    }
  }

  /** Two predicates that agree give the same filter. */
  lemma {:induction false} FilterKeepsSame<T>(s: seq<T>, p: T -> bool, q: T -> bool)
    requires forall x :: p(x) == q(x)
    ensures Filter(s, p) == Filter(s, q)
    decreases |s|
  {
    if |s| > 0 {
      FilterKeepsSame(s[1..], p, q);
    }
  }

  /** A filter every element passes changes nothing. */
  lemma {:induction false} FilterKeepsAll<T>(s: seq<T>, p: T -> bool)
    requires forall i :: 0 <= i < |s| ==> p(s[i])
    ensures Filter(s, p) == s
    decreases |s|
  {
    if |s| > 0 {
      FilterKeepsAll(s[1..], p);
    }
  }

  /** `s.slice(from, to)` for `0 <= from`, `0 <= to`: the bounds are clamped. */
  function Slice<T>(s: seq<T>, from: nat, to: nat): (r: seq<T>)
    ensures |r| == if from < to && from < |s| then (if to < |s| then to else |s|) - from else 0
    ensures forall i :: 0 <= i < |r| ==> r[i] == s[from + i]
  {
    var hi := if to < |s| then to else |s|;
    if from < hi then s[from..hi] else []
  }

  /** The index where `x` first occurs in `s`. */
  function FirstIndex<T(==)>(s: seq<T>, x: T): (i: nat)
    requires x in s
    ensures i < |s| && s[i] == x
    ensures forall j :: 0 <= j < i ==> s[j] != x
  {
    if s[0] == x then 0 else 1 + FirstIndex(s[1..], x)
  }

  /** The distinct values of `s` in the order they first occur. */
  function Distinct<T(==)>(s: seq<T>): (r: seq<T>)
    ensures |r| <= |s|
  {
    if |s| == 0 then [] else
      var d := Distinct(s[..|s| - 1]);
      if s[|s| - 1] in d then d else d + [s[|s| - 1]]
  }

  /** `Distinct(s)` holds each value of `s` exactly once, ordered by where
      each value first occurs in `s`. */
  lemma DistinctSpec<T(!new)>(s: seq<T>)
    ensures forall x :: x in Distinct(s) <==> x in s
    ensures forall i, j :: 0 <= i < j < |Distinct(s)| ==> Distinct(s)[i] != Distinct(s)[j]
    ensures forall i, j :: 0 <= i < j < |Distinct(s)| ==>
      FirstIndex(s, Distinct(s)[i]) < FirstIndex(s, Distinct(s)[j])
  {
    DistinctMembers(s);
    DistinctOrder(s);
  }

  lemma {:induction false} DistinctMembers<T(!new)>(s: seq<T>)
    ensures forall x :: x in Distinct(s) <==> x in s
    ensures forall i, j :: 0 <= i < j < |Distinct(s)| ==> Distinct(s)[i] != Distinct(s)[j]
    decreases |s|
  {
    if |s| > 0 {
      var front := s[..|s| - 1];
      assert s == front + [s[|s| - 1]];
      DistinctMembers(front);
    }
  }

  lemma {:induction false} DistinctOrder<T(!new)>(s: seq<T>)
    ensures forall x :: x in Distinct(s) ==> x in s
    ensures forall i, j :: 0 <= i < j < |Distinct(s)| ==>
      FirstIndex(s, Distinct(s)[i]) < FirstIndex(s, Distinct(s)[j])
    decreases |s|
  {
    DistinctMembers(s);
    if |s| > 0 {
      var front := s[..|s| - 1];
      var last := s[|s| - 1];
      assert s == front + [last];
      DistinctOrder(front);
      DistinctMembers(front);
      var d := Distinct(front);
      FirstIndexOfPrefix(front, last, d);
      var r := Distinct(s);
      if last !in d {
        assert r == d + [last];
        forall i, j | 0 <= i < j < |r|
          ensures FirstIndex(s, r[i]) < FirstIndex(s, r[j])
        {
          if j < |d| {
            assert r[i] == d[i] && r[j] == d[j];
          } else {
            assert r[i] == d[i] && r[j] == last;
            assert FirstIndex(s, r[i]) == FirstIndex(front, d[i]) < |front|;
          }
        }
      }
    }
  }

  /** Appending `last` to `front` keeps the first index of every value of
      `front`, and puts the first index of a new value at the end. */
  lemma FirstIndexOfPrefix<T>(front: seq<T>, last: T, d: seq<T>)
    requires forall x :: x in d ==> x in front
    ensures forall x :: x in d ==> FirstIndex(front + [last], x) == FirstIndex(front, x)
    ensures last !in front ==> FirstIndex(front + [last], last) == |front|
  {
    forall x | x in d
      ensures FirstIndex(front + [last], x) == FirstIndex(front, x)
    {
      FirstIndexAppend(front, [last], x);
    }
    if last !in front {
      var i := FirstIndex(front + [last], last);
      assert (front + [last])[|front|] == last;
    }
  }

  lemma {:induction false} FirstIndexAppend<T>(s: seq<T>, t: seq<T>, x: T)
    requires x in s
    ensures FirstIndex(s + t, x) == FirstIndex(s, x)
    decreases |s|
  {
    if s[0] != x {
      assert (s + t)[1..] == s[1..] + t;
      FirstIndexAppend(s[1..], t, x);
    }
  }

  /** `values.filter(Boolean)` on optional strings: the present, non-empty
      values in order. */
  function TruthyValues(values: seq<Option<string>>): (r: seq<string>)
    ensures forall c :: c in r <==> c != "" && Some(c) in values
  {
    if |values| == 0 then [] else
      var rest := TruthyValues(values[1..]);
      assert forall v :: v in values <==> v == values[0] || v in values[1..];
      if Truthy(values[0]) then [values[0].value] + rest else rest
  }
}
