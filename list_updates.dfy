/** The list updates every admin table applies to the rows it holds after a
    successful request: prepend the created row, replace the row whose `_id`
    matches the returned one, and filter out the deleted `_id`. */
module ListUpdates {
  import opened Lists

  /** The `_id`s of the rows, in order. */
  function Ids<T>(s: seq<T>, id: T -> string): (r: seq<string>)
    ensures |r| == |s|
    ensures forall i :: 0 <= i < |s| ==> r[i] == id(s[i])
  {
    seq(|s|, i requires 0 <= i < |s| => id(s[i]))
  }

  /** No two rows share an `_id`. */
  predicate UniqueIds<T>(s: seq<T>, id: T -> string) {
    forall i, j :: 0 <= i < j < |s| ==> id(s[i]) != id(s[j])
  }

  /** `s.map(x => x._id === updated._id ? updated : x)`. */
  function ReplaceById<T>(s: seq<T>, id: T -> string, updated: T): (r: seq<T>)
    ensures |r| == |s|
    ensures forall i :: 0 <= i < |s| && id(s[i]) == id(updated) ==> r[i] == updated
    ensures forall i :: 0 <= i < |s| && id(s[i]) != id(updated) ==> r[i] == s[i]
  {
    seq(|s|, i requires 0 <= i < |s| => if id(s[i]) == id(updated) then updated else s[i])
  }

  function IdIsNot<T>(id: T -> string, key: string): T -> bool {
    x => id(x) != key
  }

  /** `s.filter(x => x._id !== key)`. */
  function RemoveById<T>(s: seq<T>, id: T -> string, key: string): seq<T> {
    Filter(s, IdIsNot(id, key))
  }

  /** A replacement never changes the `_id` column, so unique ids stay unique. */
  lemma ReplaceKeepsIds<T>(s: seq<T>, id: T -> string, updated: T)
    ensures Ids(ReplaceById(s, id, updated), id) == Ids(s, id)
    ensures UniqueIds(s, id) ==> UniqueIds(ReplaceById(s, id, updated), id)
  {
    var r := ReplaceById(s, id, updated);
    assert forall i :: 0 <= i < |s| ==> id(r[i]) == id(s[i]);
  }

  /** With unique ids, replacing the row that has the returned `_id` is a
      single-index update. */
  lemma ReplaceUnique<T>(s: seq<T>, id: T -> string, updated: T, k: nat)
    requires UniqueIds(s, id) && k < |s| && id(s[k]) == id(updated)
    ensures ReplaceById(s, id, updated) == s[k := updated]
  {
  }

  /** A returned row whose `_id` is not in the list changes nothing. */
  lemma ReplaceAbsent<T>(s: seq<T>, id: T -> string, updated: T)
    requires id(updated) !in Ids(s, id)
    ensures ReplaceById(s, id, updated) == s
  {
    assert forall i :: 0 <= i < |s| ==> Ids(s, id)[i] != id(updated);
  }

  /** Applying the same update twice is the same as once. */
  lemma ReplaceIdempotent<T>(s: seq<T>, id: T -> string, updated: T)
    ensures ReplaceById(ReplaceById(s, id, updated), id, updated) == ReplaceById(s, id, updated)
  {
  }

  /** A removal keeps exactly the rows with another `_id`, in their order. */
  lemma RemoveSpec<T>(s: seq<T>, id: T -> string, key: string)
    ensures forall x :: x in RemoveById(s, id, key) <==> x in s && id(x) != key
    ensures key !in Ids(RemoveById(s, id, key), id)
    ensures SubsequenceOf(RemoveById(s, id, key), s)
  {
    forall x
      ensures x in RemoveById(s, id, key) <==> x in s && id(x) != key
    {
      FilterMembership(s, IdIsNot(id, key), x);
    }
    var r := RemoveById(s, id, key);
    assert forall i :: 0 <= i < |r| ==> Ids(r, id)[i] != key;
    FilterIsSubsequence(s, IdIsNot(id, key));
  }

  /** Removing an `_id` that is not present changes nothing. */
  lemma RemoveAbsent<T>(s: seq<T>, id: T -> string, key: string)
    requires key !in Ids(s, id)
    ensures RemoveById(s, id, key) == s
  {
    assert forall i :: 0 <= i < |s| ==> Ids(s, id)[i] != key;
    FilterKeepsAll(s, IdIsNot(id, key));
  }

  /** With unique ids, removing a present `_id` drops exactly that one row. */
  lemma RemoveUnique<T>(s: seq<T>, id: T -> string, k: nat)
    requires UniqueIds(s, id) && k < |s|
    ensures RemoveById(s, id, id(s[k])) == s[..k] + s[k + 1..]
  {
    var key := id(s[k]);
    assert s == s[..k] + [s[k]] + s[k + 1..];
    FilterAppend(s[..k] + [s[k]], s[k + 1..], IdIsNot(id, key));
    FilterAppend(s[..k], [s[k]], IdIsNot(id, key));
    FilterKeepsAll(s[..k], IdIsNot(id, key));
    FilterKeepsAll(s[k + 1..], IdIsNot(id, key));
    assert [s[k]][1..] == [];
  }

  /** A filter keeps unique ids unique; in particular so does a removal. */
  lemma {:induction false} FilterKeepsUnique<T>(s: seq<T>, id: T -> string, p: T -> bool)
    requires UniqueIds(s, id)
    ensures UniqueIds(Filter(s, p), id)
    decreases |s|
  {
    if |s| > 0 {
      var rest := Filter(s[1..], p);
      assert UniqueIds(s[1..], id) by {
        forall i, j | 0 <= i < j < |s[1..]|
          ensures id(s[1..][i]) != id(s[1..][j])
        {
          assert s[1..][i] == s[i + 1] && s[1..][j] == s[j + 1];
        }
      }
      FilterKeepsUnique(s[1..], id, p);
      if p(s[0]) {
        var r := Filter(s, p);
        assert r == [s[0]] + rest;
        forall j | 0 <= j < |rest|
          ensures id(rest[j]) != id(s[0])
        {
          FilterMembership(s[1..], p, rest[j]);
          var k :| 0 <= k < |s[1..]| && s[1..][k] == rest[j];
          assert s[k + 1] == rest[j];
        }
        forall i, j | 0 <= i < j < |r|
          ensures id(r[i]) != id(r[j])
        {
          if i == 0 {
            assert r[j] == rest[j - 1];
          } else {
            assert r[i] == rest[i - 1] && r[j] == rest[j - 1];
          }
        }
      }
    }
  }

  /** Prepending a row with a fresh `_id` keeps ids unique. */
  lemma PrependKeepsUnique<T>(x: T, s: seq<T>, id: T -> string)
    requires UniqueIds(s, id) && id(x) !in Ids(s, id)
    ensures UniqueIds([x] + s, id)
  {
    forall i, j | 0 <= i < j < |[x] + s|
      ensures id(([x] + s)[i]) != id(([x] + s)[j])
    {
      if i == 0 {
        assert ([x] + s)[j] == s[j - 1] && Ids(s, id)[j - 1] == id(s[j - 1]);
      } else {
        assert ([x] + s)[i] == s[i - 1] && ([x] + s)[j] == s[j - 1];
      }
    }
  }

  /** Deleting a row that was just created undoes the creation. */
  lemma RemoveUndoesPrepend<T>(x: T, s: seq<T>, id: T -> string)
    requires id(x) !in Ids(s, id)
    ensures RemoveById([x] + s, id, id(x)) == s
  {
    FilterAppend([x], s, IdIsNot(id, id(x)));
    assert [x][1..] == [];
    RemoveAbsent(s, id, id(x));
  }
}
