/**
 * The `References` walk of `dumpItemAsEmail`: starting from a comment's
 * `parent_id`, the id index (objectID to parent_id) is followed upwards and
 * each ancestor pushed on the front, so the list reads root first.
 */
module Threading {

  /** An id where the walk stops: no entry in the index, or a 0 entry. */
  predicate IsRoot(ids: map<int, int>, x: int)
  {
    x !in ids || ids[x] == 0
  }

  /** Following the index from `x` reaches a stopping id within `d` steps. */
  predicate ReachesRoot(ids: map<int, int>, x: int, d: nat)
    decreases d
  {
    IsRoot(ids, x) || (d > 0 && ReachesRoot(ids, ids[x], d - 1))
  }

  /** Position `k + 1` of `chain` is an indexed id whose entry is the id at position `k`. */
  predicate Linked(ids: map<int, int>, chain: seq<int>, k: int)
    requires 0 <= k < |chain| - 1
  {
    !IsRoot(ids, chain[k + 1]) && ids[chain[k + 1]] == chain[k]
  }

  /**
   * `chain` is the list of ids the walk builds from `p`: it ends with `p`,
   * each id's index entry is the id before it, and the first id is a
   * stopping id.
   */
  predicate IsChain(ids: map<int, int>, p: int, chain: seq<int>)
  {
    |chain| > 0 && chain[|chain| - 1] == p && IsRoot(ids, chain[0]) &&
    forall k :: 0 <= k < |chain| - 1 ==> Linked(ids, chain, k)
  }

  /**
   * The walk, with its `while (true)` loop.  There is no guard against a
   * cycle in the index, so the walk ends only when a stopping id is
   * reachable from `p`, which the precondition states.
   */
  method ParentChain(ids: map<int, int>, p: int) returns (parents: seq<int>)
    requires exists d: nat :: ReachesRoot(ids, p, d)
    ensures IsChain(ids, p, parents)
    ensures ids == map[] ==> parents == [p]
  {
    ghost var d: nat :| ReachesRoot(ids, p, d);
    parents := [p];
    while true
      invariant 0 < |parents| <= d + 1
      invariant ids == map[] ==> |parents| == 1
      invariant parents[|parents| - 1] == p
      invariant forall k :: 0 <= k < |parents| - 1 ==> Linked(ids, parents, k)
      invariant ReachesRoot(ids, parents[0], d + 1 - |parents|)
      decreases d + 1 - |parents|
    {
      var front := parents[0];
      if front !in ids || ids[front] == 0 {
        break;
      }
      var old_parents := parents;
      parents := [ids[front]] + parents;
      forall k | 0 <= k < |parents| - 1 ensures Linked(ids, parents, k) {
        if k > 0 {
          assert Linked(ids, old_parents, k - 1);
        }
      }
    }
  }

  /** The walk from `p` stops at once exactly when `p` is a stopping id. */
  lemma ChainLength(ids: map<int, int>, p: int, chain: seq<int>)
    requires IsChain(ids, p, chain)
    ensures |chain| == 1 <==> IsRoot(ids, p)
  {
    if |chain| > 1 {
      assert Linked(ids, chain, |chain| - 2);
    }
  }

  /** The list is determined by the index and `p`: two lists the walk could build are equal. */
  lemma {:induction false} ChainUnique(ids: map<int, int>, p: int, a: seq<int>, b: seq<int>)
    requires IsChain(ids, p, a) && IsChain(ids, p, b)
    ensures a == b
    decreases |a|
  {
    ChainLength(ids, p, a);
    ChainLength(ids, p, b);
    if !IsRoot(ids, p) {
      assert Linked(ids, a, |a| - 2) && Linked(ids, b, |b| - 2);
      var q := ids[p];
      var a', b' := a[..|a| - 1], b[..|b| - 1];
      assert forall k :: 0 <= k < |a'| - 1 ==> Linked(ids, a', k) by {
        forall k | 0 <= k < |a'| - 1 ensures Linked(ids, a', k) {
          assert Linked(ids, a, k);
        }
      }
      assert forall k :: 0 <= k < |b'| - 1 ==> Linked(ids, b', k) by {
        forall k | 0 <= k < |b'| - 1 ensures Linked(ids, b', k) {
          assert Linked(ids, b, k);
        }
      }
      ChainUnique(ids, q, a', b');
      assert a == a' + [p] && b == b' + [p];
    }
  }

  /** A stopping id is its own chain. */
  lemma ChainOfRoot(ids: map<int, int>, p: int, chain: seq<int>)
    requires IsRoot(ids, p)
    ensures IsChain(ids, p, [p])
    ensures IsChain(ids, p, chain) ==> chain == [p]
  {
    if IsChain(ids, p, chain) {
      ChainUnique(ids, p, chain, [p]);
    }
  }

  /** Each step adds one ancestor at the front: the chain of `p` is the chain of its parent, then `p`. */
  lemma ChainStep(ids: map<int, int>, p: int, chain: seq<int>)
    requires !IsRoot(ids, p) && IsChain(ids, ids[p], chain)
    ensures IsChain(ids, p, chain + [p])
  {
    var c := chain + [p];
    forall k | 0 <= k < |c| - 1 ensures Linked(ids, c, k) {
      if k < |chain| - 1 {
        assert Linked(ids, chain, k);
      }
    }
  }

  /**
   * A corrupt index with the cycle 3 -> 4 -> 3 never reaches a stopping id
   * from 3, so the walk from 3 does not end: the precondition of
   * `ParentChain` is needed.
   */
  lemma {:induction false} CycleNeverReachesRoot(d: nat)
    ensures !ReachesRoot(map[3 := 4, 4 := 3], 3, d)
    ensures !ReachesRoot(map[3 := 4, 4 := 3], 4, d)
  {
    if d > 0 {
      CycleNeverReachesRoot(d - 1);
    }
  }

  /** A chain the walk can build is a witness that a stopping id is reachable from `p`. */
  lemma {:induction false} ChainReachesRoot(ids: map<int, int>, p: int, chain: seq<int>)
    requires IsChain(ids, p, chain)
    ensures ReachesRoot(ids, p, |chain| - 1)
    decreases |chain|
  {
    if |chain| > 1 {
      assert Linked(ids, chain, |chain| - 2);
      var c := chain[..|chain| - 1];
      forall k | 0 <= k < |c| - 1 ensures Linked(ids, c, k) {
        assert Linked(ids, chain, k);
      }
      ChainReachesRoot(ids, ids[p], c);
    }
  }

  /** On the cycle 3 -> 4 -> 3 there is no chain at all: the walk has no result. */
  lemma CycleHasNoChain(chain: seq<int>)
    ensures !IsChain(map[3 := 4, 4 := 3], 3, chain)
  {
    if IsChain(map[3 := 4, 4 := 3], 3, chain) {
      ChainReachesRoot(map[3 := 4, 4 := 3], 3, chain);
      CycleNeverReachesRoot(|chain| - 1);
    }
  }
}
