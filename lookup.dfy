/**
  Lookups by key over a list of keys. The source finds children by id with LINQ's
  FirstOrDefault and First; these functions give the index such a lookup returns.
*/
module Lookup {
  import opened Common

  /** The keys of a list, as a set. */
  function Elems(ids: seq<int>): set<int>
  {
    set x | x in ids
  }

  /** No key occurs twice. */
  predicate Distinct(ids: seq<int>)
  {
    forall i, j :: 0 <= i < j < |ids| ==> ids[i] != ids[j]
  }

  /** The index FirstOrDefault(k => k == x) stops at, or None when no key equals x. */
  function FirstIndex(ids: seq<int>, x: int): (r: Option<nat>)
    ensures r.None? <==> x !in ids
    ensures r.Some? ==> r.value < |ids| && ids[r.value] == x && x !in ids[..r.value]
    decreases |ids|
  {
    if ids == [] then None
    else if ids[0] == x then Some(0)
    else
      match FirstIndex(ids[1..], x)
      case None => None
      case Some(k) =>
        assert ids[..k + 1] == [ids[0]] + ids[1..][..k];
        Some(k + 1)
  }

  /** The index of the last key equal to x, or None. */
  function LastIndex(ids: seq<int>, x: int): (r: Option<nat>)
    ensures r.None? <==> x !in ids
    ensures r.Some? ==> r.value < |ids| && ids[r.value] == x && x !in ids[r.value + 1..]
    decreases |ids|
  {
    if ids == [] then None
    else if ids[|ids| - 1] == x then Some(|ids| - 1)
    else
      var r := LastIndex(ids[..|ids| - 1], x);
      assert r.Some? ==> ids[r.value + 1..] == ids[..|ids| - 1][r.value + 1..] + [ids[|ids| - 1]];
      assert x in ids[..|ids| - 1] <==> x in ids by {
        assert ids == ids[..|ids| - 1] + [ids[|ids| - 1]];
      }
      r
  }

  /** The three ensures of FirstIndex pin its result down: any index meeting them is it. */
  lemma FirstIndexIsFirst(ids: seq<int>, k: nat)
    requires k < |ids| && ids[k] !in ids[..k]
    ensures FirstIndex(ids, ids[k]) == Some(k)
  {
  }

  /** Extending a list of keys at the end does not move the first occurrence of a key it already had. */
  lemma FirstIndexStable(a: seq<int>, b: seq<int>, x: int)
    requires |a| <= |b| && b[..|a|] == a && x in a
    ensures FirstIndex(b, x) == FirstIndex(a, x)
  {
    var k := FirstIndex(a, x).value;
    assert b[k] == a[k];
    assert b[..k] == a[..k];
    FirstIndexIsFirst(b, k);
  }

  /** Dropping the last key leaves the last occurrence of any other key where it was. */
  lemma LastIndexDropLast(ids: seq<int>, x: int)
    requires |ids| > 0 && ids[|ids| - 1] != x
    ensures LastIndex(ids, x) == LastIndex(ids[..|ids| - 1], x)
  {
  }

  /** The last occurrence of a key in a list extended by one key. */
  lemma LastIndexSnoc(front: seq<int>, y: int, x: int)
    ensures LastIndex(front + [y], x) == if y == x then Some(|front|) else LastIndex(front, x)
  {
    if y != x {
      assert (front + [y])[..|front|] == front;
      LastIndexDropLast(front + [y], x);
    }
  }

  /** A list of keys is distinct exactly when every slot is the first occurrence of its key. */
  lemma DistinctIffFirst(ids: seq<int>)
    ensures Distinct(ids) <==> forall k :: 0 <= k < |ids| ==> FirstIndex(ids, ids[k]) == Some(k)
  {
    if Distinct(ids) {
      forall k | 0 <= k < |ids| ensures FirstIndex(ids, ids[k]) == Some(k) {
        FirstIndexIsFirst(ids, k);
      }
    }
    if forall k :: 0 <= k < |ids| ==> FirstIndex(ids, ids[k]) == Some(k) {
      forall i, j | 0 <= i < j < |ids| ensures ids[i] != ids[j] {
        assert FirstIndex(ids, ids[j]) == Some(j);
        assert ids[..j][i] == ids[i];
      }
    }
  }

  lemma ElemsAppend(a: seq<int>, x: int)
    ensures Elems(a + [x]) == Elems(a) + {x}
  {
  }

  lemma ElemsBound(ids: seq<int>)
    ensures |Elems(ids)| <= |ids|
    decreases |ids|
  {
    if ids != [] {
      var front := ids[..|ids| - 1];
      assert ids == front + [ids[|ids| - 1]];
      ElemsAppend(front, ids[|ids| - 1]);
      ElemsBound(front);
    }
  }

  /** A list with one more key at the end is distinct exactly when the list was and lacked that key. */
  lemma DistinctSnoc(front: seq<int>, last: int)
    ensures Distinct(front + [last]) <==> Distinct(front) && last !in front
  {
    var ids := front + [last];
    if last in front {
      var j :| 0 <= j < |front| && front[j] == last;
      assert ids[j] == ids[|front|];
    } else if Distinct(ids) {
      forall i, j | 0 <= i < j < |front| ensures front[i] != front[j] {
        assert ids[i] == front[i] && ids[j] == front[j];
      }
    }
    if Distinct(front) && last !in front {
      forall i, j | 0 <= i < j < |ids| ensures ids[i] != ids[j] {
        assert ids[i] == front[i];
        if j < |front| { assert ids[j] == front[j]; }
      }
    }
  }

  /**
    LINQ's `s.Distinct().Count() == s.Count`, as the validators write it, holds exactly when
    no key occurs twice.
  */
  lemma {:induction false} DistinctCountIffDistinct(ids: seq<int>)
    ensures |Elems(ids)| == |ids| <==> Distinct(ids)
    decreases |ids|
  {
    if ids != [] {
      var n := |ids| - 1;
      var front, last := ids[..n], ids[n];
      assert ids == front + [last];
      ElemsAppend(front, last);
      DistinctCountIffDistinct(front);
      ElemsBound(front);
      DistinctSnoc(front, last);
      if last in front {
        assert Elems(ids) == Elems(front);
      } else {
        assert |Elems(ids)| == |Elems(front)| + 1;
      }
    }
  }
}
