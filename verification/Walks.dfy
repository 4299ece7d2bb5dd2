/** Directed graphs given by their arcs: walks, cycles, reachability. */
module Walks {
  import opened Sequences

  ghost predicate IsWalk<T>(arcs: set<(T, T)>, p: seq<T>) {
    |p| >= 1 && forall i :: 0 <= i < |p| - 1 ==> (p[i], p[i + 1]) in arcs
  }

  ghost predicate IsCycle<T>(arcs: set<(T, T)>, p: seq<T>) {
    IsWalk(arcs, p) && |p| >= 2 && p[0] == p[|p| - 1]
  }

  ghost predicate HasCycle<T(!new)>(arcs: set<(T, T)>) {
    exists p :: IsCycle(arcs, p)
  }

  ghost predicate WalkFromTo<T>(arcs: set<(T, T)>, p: seq<T>, a: T, b: T) {
    IsWalk(arcs, p) && p[0] == a && p[|p| - 1] == b
  }

  ghost predicate Reachable<T(!new)>(arcs: set<(T, T)>, a: T, b: T) {
    exists p :: WalkFromTo(arcs, p, a, b)
  }

  lemma WalkPrefix<T>(arcs: set<(T, T)>, p: seq<T>, n: nat)
    requires IsWalk(arcs, p) && 1 <= n <= |p|
    ensures IsWalk(arcs, p[..n])
  {
  }

  lemma WalkConsFront<T>(arcs: set<(T, T)>, a: T, p: seq<T>)
    requires IsWalk(arcs, p) && (a, p[0]) in arcs
    ensures IsWalk(arcs, [a] + p)
  {
    var q := [a] + p;
    forall i | 0 <= i < |q| - 1 ensures (q[i], q[i + 1]) in arcs {
      if i > 0 {
        assert q[i] == p[i - 1] && q[i + 1] == p[i - 1 + 1];
      }
    }
  }

  lemma ReachableSelf<T(!new)>(arcs: set<(T, T)>, a: T)
    ensures Reachable(arcs, a, a)
  {
    assert WalkFromTo(arcs, [a], a, a);
  }

  lemma ReachableStep<T(!new)>(arcs: set<(T, T)>, a: T, b: T, c: T)
    requires Reachable(arcs, a, b) && (b, c) in arcs
    ensures Reachable(arcs, a, c)
  {
    var p :| WalkFromTo(arcs, p, a, b);
    var q := p + [c];
    assert WalkFromTo(arcs, q, a, c);
  }

  /** A set that contains the start and is closed under arcs contains everything reachable. */
  lemma {:induction false} ClosedContainsWalk<T(!new)>(arcs: set<(T, T)>, closed: set<T>, p: seq<T>)
    requires IsWalk(arcs, p) && p[0] in closed
    requires forall a, b :: (a, b) in arcs && a in closed ==> b in closed
    ensures p[|p| - 1] in closed
    decreases |p|
  {
    if |p| > 1 {
      var front := p[..|p| - 1];
      WalkPrefix(arcs, p, |p| - 1);
      ClosedContainsWalk(arcs, closed, front);
      assert (p[|p| - 2], p[|p| - 2 + 1]) in arcs;
    }
  }

  /** Every arc runs from an earlier position of the sequence to a later one. */
  ghost predicate Topological<T(!new)>(arcs: set<(T, T)>, order: seq<T>) {
    forall a, b :: (a, b) in arcs ==>
      a in order && b in order && IndexOf(order, a) < IndexOf(order, b)
  }

  lemma {:induction false} IndexGrows<T(!new)>(arcs: set<(T, T)>, order: seq<T>, p: seq<T>)
    requires Topological(arcs, order) && IsWalk(arcs, p) && |p| >= 2
    ensures p[0] in order && p[|p| - 1] in order
    ensures IndexOf(order, p[0]) < IndexOf(order, p[|p| - 1])
    decreases |p|
  {
    assert (p[|p| - 2], p[|p| - 2 + 1]) in arcs;
    if |p| > 2 {
      var front := p[..|p| - 1];
      WalkPrefix(arcs, p, |p| - 1);
      IndexGrows(arcs, order, front);
    }
  }

  lemma TopologicalMeansAcyclic<T(!new)>(arcs: set<(T, T)>, order: seq<T>)
    requires Topological(arcs, order)
    ensures !HasCycle(arcs)
  {
    forall p | IsCycle(arcs, p) ensures false {
      IndexGrows(arcs, order, p);
    }
  }

  ghost predicate HasPredecessorIn<T(!new)>(arcs: set<(T, T)>, stuck: set<T>, b: T) {
    exists a :: a in stuck && (a, b) in arcs
  }

  /** If every member of a non-empty finite set has a predecessor in the set, following predecessors closes a cycle. */
  lemma PredecessorsGiveCycle<T(!new)>(arcs: set<(T, T)>, stuck: set<T>)
    requires stuck != {}
    requires forall b :: b in stuck ==> HasPredecessorIn(arcs, stuck, b)
    ensures HasCycle(arcs)
  {
    var x :| x in stuck;
    WalkBack(arcs, stuck, [x]);
  }

  lemma {:induction false} WalkBack<T(!new)>(arcs: set<(T, T)>, stuck: set<T>, p: seq<T>)
    requires forall b :: b in stuck ==> HasPredecessorIn(arcs, stuck, b)
    requires IsWalk(arcs, p) && p[0] in stuck
    ensures HasCycle(arcs)
    decreases |stuck - Elems(p)|
  {
    assert HasPredecessorIn(arcs, stuck, p[0]);
    var a :| a in stuck && (a, p[0]) in arcs;
    WalkConsFront(arcs, a, p);
    if a in p {
      CloseCycle(arcs, a, p, IndexOf(p, a));
    } else {
      var q := [a] + p;
      assert stuck - Elems(q) == stuck - Elems(p) - {a};
      assert a in stuck - Elems(p);
      WalkBack(arcs, stuck, q);
    }
  }

  lemma CloseCycle<T(!new)>(arcs: set<(T, T)>, a: T, p: seq<T>, k: nat)
    requires IsWalk(arcs, [a] + p) && k < |p| && p[k] == a
    ensures HasCycle(arcs)
  {
    WalkPrefix(arcs, [a] + p, k + 2);
    assert IsCycle(arcs, ([a] + p)[..k + 2]);
  }
}
