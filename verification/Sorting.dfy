/** The stable sort by address that the instruction builders rely on, and why two strictly
    sorted lists of the same addresses are the same list. */
module Sorting {
  import opened Basics

  ghost predicate IsPermutation(perm: seq<nat>, n: nat)
  {
    && |perm| == n
    && (forall k :: 0 <= k < n ==> perm[k] < n)
    && (forall i, j :: 0 <= i < j < n ==> perm[i] != perm[j])
  }

  /** Positions sorted by key, equal keys in their original order. */
  ghost predicate StablySorted(keys: seq<Address>, perm: seq<nat>)
    requires forall k :: 0 <= k < |perm| ==> perm[k] < |keys|
  {
    forall i, j :: 0 <= i < j < |perm| ==> Before(keys, perm[i], perm[j])
  }

  predicate Before(keys: seq<Address>, x: nat, y: nat)
    requires x < |keys| && y < |keys|
  {
    Less(keys[x], keys[y]) || (keys[x] == keys[y] && x < y)
  }

  function InsertIndex(keys: seq<Address>, perm: seq<nat>, i: nat): (r: seq<nat>)
    requires i < |keys|
    requires forall k :: 0 <= k < |perm| ==> perm[k] < |keys|
    ensures |r| == |perm| + 1
    ensures forall k :: 0 <= k < |r| ==> r[k] == i || r[k] in perm
  {
    if perm == [] then [i]
    else if Less(keys[i], keys[perm[0]]) then [i] + perm
    else [perm[0]] + InsertIndex(keys, perm[1..], i)
  }

  /** The first `n` positions, sorted by key. */
  function SortIndices(keys: seq<Address>, n: nat): (perm: seq<nat>)
    requires n <= |keys|
    ensures |perm| == n
    ensures forall k :: 0 <= k < n ==> perm[k] < n
  {
    if n == 0 then [] else InsertIndex(keys, SortIndices(keys, n - 1), n - 1)
  }

  lemma {:induction false} InsertKeepsOrder(keys: seq<Address>, perm: seq<nat>, i: nat)
    requires i < |keys|
    requires forall k :: 0 <= k < |perm| ==> perm[k] < i
    requires StablySorted(keys, perm)
    ensures StablySorted(keys, InsertIndex(keys, perm, i))
  {
    var r := InsertIndex(keys, perm, i);
    if perm != [] {
      if Less(keys[i], keys[perm[0]]) {
        forall j | 0 < j < |r| ensures Before(keys, r[0], r[j]) {
          if j > 1 && keys[perm[0]] != keys[perm[j - 1]] {
            LessTransitive(keys[i], keys[perm[0]], keys[perm[j - 1]]);
          }
        }
      } else {
        var tail := InsertIndex(keys, perm[1..], i);
        InsertKeepsOrder(keys, perm[1..], i);
        LessTotal(keys[i], keys[perm[0]]);
        forall j | 0 < j < |r| ensures Before(keys, r[0], r[j]) {
          assert r[j] == tail[j - 1];
          if r[j] in perm[1..] {
            var k :| 0 <= k < |perm[1..]| && perm[1..][k] == r[j];
          }
        }
        forall x, y | 0 < x < y < |r| ensures Before(keys, r[x], r[y]) {
          assert r[x] == tail[x - 1] && r[y] == tail[y - 1];
        }
      }
    }
  }

  lemma {:induction false} SortIsStable(keys: seq<Address>, n: nat)
    requires n <= |keys|
    ensures StablySorted(keys, SortIndices(keys, n))
    ensures IsPermutation(SortIndices(keys, n), n)
  {
    if n > 0 {
      SortIsStable(keys, n - 1);
      InsertKeepsOrder(keys, SortIndices(keys, n - 1), n - 1);
      var perm := SortIndices(keys, n);
      forall i, j | 0 <= i < j < n ensures perm[i] != perm[j] {
        assert Before(keys, perm[i], perm[j]);
        LessIrreflexive(keys[perm[i]]);
      }
    }
  }

  /** Gathering a list through an index list, as the builders do with their permutation. */
  function Gather<T>(items: seq<T>, perm: seq<nat>): (r: seq<T>)
    requires forall k :: 0 <= k < |perm| ==> perm[k] < |items|
    ensures |r| == |perm|
    ensures forall k :: 0 <= k < |perm| ==> r[k] == items[perm[k]]
  {
    seq(|perm|, k requires 0 <= k < |perm| => items[perm[k]])
  }

  /** Distinct keys sort strictly. */
  lemma DistinctSortStrictly(keys: seq<Address>)
    requires forall i, j :: 0 <= i < j < |keys| ==> keys[i] != keys[j]
    ensures StrictlySorted(Gather(keys, SortIndices(keys, |keys|)))
  {
    SortIsStable(keys, |keys|);
    var perm := SortIndices(keys, |keys|);
    forall i, j | 0 <= i < j < |perm| ensures Less(keys[perm[i]], keys[perm[j]]) {
      assert Before(keys, perm[i], perm[j]);
      assert perm[i] != perm[j];
    }
  }

  /** The sort drops nothing: every position below `n` appears in it. */
  lemma {:induction false} SortCovers(keys: seq<Address>, n: nat, x: nat)
    requires x < n <= |keys|
    ensures x in SortIndices(keys, n)
  {
    var smaller := SortIndices(keys, n - 1);
    if x < n - 1 {
      SortCovers(keys, n - 1, x);
    }
    InsertKeepsMembers(keys, smaller, n - 1, x);
  }

  lemma {:induction false} InsertKeepsMembers(keys: seq<Address>, perm: seq<nat>, i: nat, x: nat)
    requires i < |keys|
    requires forall k :: 0 <= k < |perm| ==> perm[k] < |keys|
    requires x == i || x in perm
    ensures x in InsertIndex(keys, perm, i)
  {
    if perm != [] && !Less(keys[i], keys[perm[0]]) {
      var r := InsertIndex(keys, perm, i);
      assert r[0] == perm[0] && r[1..] == InsertIndex(keys, perm[1..], i);
      if x != perm[0] {
        assert perm == [perm[0]] + perm[1..];
        InsertKeepsMembers(keys, perm[1..], i, x);
        assert x in r[1..];
      }
    }
  }

  /** A sorted list without duplicates is determined by its elements. */
  lemma {:induction false} SortedListsAgree(x: seq<Address>, y: seq<Address>)
    requires StrictlySorted(x) && StrictlySorted(y)
    requires forall a :: a in x <==> a in y
    ensures x == y
  {
    assert x != [] ==> x[0] in y;
    assert y != [] ==> y[0] in x;
    if x != [] && y != [] {
      if x[0] != y[0] {
        var i :| 0 <= i < |y| && y[i] == x[0];
        var j :| 0 <= j < |x| && x[j] == y[0];
        assert Less(y[0], y[i]) && Less(x[0], x[j]);
        LessAsymmetric(x[0], y[0]);
        assert false;
      }
      forall a ensures a in x[1..] <==> a in y[1..] {
        TailMembers(x, a);
        TailMembers(y, a);
      }
      SortedListsAgree(x[1..], y[1..]);
      assert x == [x[0]] + x[1..] && y == [y[0]] + y[1..];
    }
  }

  lemma TailMembers(x: seq<Address>, a: Address)
    requires StrictlySorted(x) && x != []
    ensures a in x[1..] <==> a in x && a != x[0]
  {
    LessIrreflexive(x[0]);
    if a in x && a != x[0] {
      var i :| 0 <= i < |x| && x[i] == a;
      assert x[1..][i - 1] == a;
    }
  }
}
