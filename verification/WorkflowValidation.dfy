/** Graph validation as the runtime and the API perform it: adjacency, conditions, Kahn's loop, reachability. */
module WorkflowValidation {
  import opened Results
  import opened Sequences
  import opened Walks
  import opened WorkflowDsl

  // ---- counting incoming edges -------------------------------------------------------------

  /** How many edges, repetitions included, enter n from a node that is not done. */
  ghost function CountIn(edges: seq<Edge>, n: string, done: set<string>): nat {
    if edges == [] then 0
    else
      var last := edges[|edges| - 1];
      CountIn(edges[..|edges| - 1], n, done) + if last.target == n && last.source !in done then 1 else 0
  }

  ghost function CountTo(edges: seq<Edge>, n: string): nat {
    if edges == [] then 0
    else
      var last := edges[|edges| - 1];
      CountTo(edges[..|edges| - 1], n) + if last.target == n then 1 else 0
  }

  lemma {:induction false} CountInZero(edges: seq<Edge>, n: string, done: set<string>)
    ensures CountIn(edges, n, done) == 0 <==> forall e :: e in edges && e.target == n ==> e.source in done
  {
    if edges != [] {
      CountInZero(edges[..|edges| - 1], n, done);
      assert edges == edges[..|edges| - 1] + [edges[|edges| - 1]];
    }
  }

  lemma AppendEdge(front: seq<Edge>, e: Edge, n: string, done: set<string>)
    ensures Outgoing(front + [e], n) == if n == e.source then Outgoing(front, n) + [e] else Outgoing(front, n)
    ensures CountIn(front + [e], n, done)
      == CountIn(front, n, done) + if n == e.target && e.source !in done then 1 else 0
  {
    assert (front + [e])[..|front|] == front;
  }

  lemma CountToSnoc(out: seq<Edge>, e: Edge, n: string)
    ensures CountTo(out + [e], n) == CountTo(out, n) + if e.target == n then 1 else 0
  {
    assert (out + [e])[..|out|] == out;
  }

  /** Finishing c lowers each count by the number of c's own edges into that node. */
  lemma {:induction false} CountInDone(edges: seq<Edge>, n: string, done: set<string>, c: string)
    requires c !in done
    ensures CountIn(edges, n, done) == CountIn(edges, n, done + {c}) + CountTo(Outgoing(edges, c), n)
  {
    if edges != [] {
      var last := edges[|edges| - 1];
      var front := edges[..|edges| - 1];
      CountInDone(front, n, done, c);
      assert edges == front + [last];
      AppendEdge(front, last, n, done);
      AppendEdge(front, last, n, done + {c});
      AppendEdge(front, last, c, done);
      CountToSnoc(Outgoing(front, c), last, n);
    }
  }

  lemma {:induction false} CountToPrefix(edges: seq<Edge>, n: string, k: nat)
    requires k < |edges|
    ensures CountTo(edges[..k + 1], n) == CountTo(edges[..k], n) + if edges[k].target == n then 1 else 0
    ensures CountTo(edges[..k + 1], n) <= CountTo(edges, n)
    decreases |edges|
  {
    var front := edges[..|edges| - 1];
    if k + 1 == |edges| {
      assert edges[..k + 1] == edges && edges[..k] == front;
    } else {
      CountToPrefix(front, n, k);
      assert front[..k + 1] == edges[..k + 1] && front[..k] == edges[..k];
    }
  }

  // ---- adjacency ---------------------------------------------------------------------------

  ghost predicate AdjacencyOf(
    ids: seq<string>, edges: seq<Edge>, outgoing: map<string, seq<Edge>>, incoming: map<string, nat>) {
    && outgoing.Keys == Elems(ids)
    && incoming.Keys == Elems(ids)
    && forall n :: n in ids ==> outgoing[n] == Outgoing(edges, n) && incoming[n] == CountIn(edges, n, {})
  }

  /** An edge a validator turns away on sight. */
  ghost predicate BadEdge(ids: seq<string>, edges: seq<Edge>, k: nat, unique: bool, error: GraphError)
    requires k < |edges|
  {
    var e := edges[k];
    match error
    case UnknownEndpoint => e.source !in ids || e.target !in ids
    case SelfCycle => e.source in ids && e.source == e.target
    case DuplicateEdge => unique && e in edges[..k]
    case _ => false
  }

  lemma AdjacencyStep(
    ids: seq<string>, front: seq<Edge>, e: Edge, outgoing: map<string, seq<Edge>>, incoming: map<string, nat>)
    requires AdjacencyOf(ids, front, outgoing, incoming) && e.source in ids && e.target in ids
    ensures AdjacencyOf(ids, front + [e], outgoing[e.source := outgoing[e.source] + [e]],
                        incoming[e.target := incoming[e.target] + 1])
  {
    assert e.source in outgoing && e.target in incoming;
    var outgoing' := outgoing[e.source := outgoing[e.source] + [e]];
    var incoming' := incoming[e.target := incoming[e.target] + 1];
    assert outgoing'.Keys == outgoing.Keys && incoming'.Keys == incoming.Keys;
    forall n | n in ids
      ensures outgoing'[n] == Outgoing(front + [e], n) && incoming'[n] == CountIn(front + [e], n, {})
    {
      AppendEdge(front, e, n, {});
    }
  }

  /** Builds both dictionaries, or raises at the first bad edge. `unique` is the API's extra duplicate check. */
  method BuildAdjacency(ids: seq<string>, edges: seq<Edge>, unique: bool)
    returns (r: Result<(map<string, seq<Edge>>, map<string, nat>), GraphError>)
    ensures r.Ok? ==> EndpointsKnown(ids, edges) && AdjacencyOf(ids, edges, r.value.0, r.value.1)
    ensures r.Ok? && unique ==> Distinct(edges)
    ensures r.Err? ==>
      exists k :: 0 <= k < |edges| && BadEdge(ids, edges, k, unique, r.error) && EndpointsKnown(ids, edges[..k])
  {
    var outgoing: map<string, seq<Edge>> := map n | n in ids :: [];
    var incoming: map<string, nat> := map n | n in ids :: 0;
    var seen: set<Edge> := {};
    for k := 0 to |edges|
      invariant EndpointsKnown(ids, edges[..k])
      invariant AdjacencyOf(ids, edges[..k], outgoing, incoming)
      invariant unique ==> seen == Elems(edges[..k]) && Distinct(edges[..k])
    {
      var e := edges[k];
      assert edges[..k + 1] == edges[..k] + [e];
      Snoc(edges[..k], e);
      if e.source !in ids || e.target !in ids {
        assert BadEdge(ids, edges, k, unique, UnknownEndpoint);
        return Err(UnknownEndpoint);
      }
      if e.source == e.target {
        assert BadEdge(ids, edges, k, unique, SelfCycle);
        return Err(SelfCycle);
      }
      if unique {
        if e in seen {
          assert BadEdge(ids, edges, k, unique, DuplicateEdge);
          return Err(DuplicateEdge);
        }
        seen := seen + {e};
      }
      AdjacencyStep(ids, edges[..k], e, outgoing, incoming);
      outgoing := outgoing[e.source := outgoing[e.source] + [e]];
      incoming := incoming[e.target := incoming[e.target] + 1];
    }
    assert edges[..|edges|] == edges;
    r := Ok((outgoing, incoming));
  }

  // ---- conditions --------------------------------------------------------------------------

  ghost predicate CompatibleWithAll(edges: seq<Edge>, last: Edge) {
    forall e :: e in edges ==> Compatible(e, last)
  }

  lemma DeterministicAtNode(front: seq<Edge>, last: Edge, n: string)
    ensures Deterministic(Outgoing(front + [last], n)) <==>
      Deterministic(Outgoing(front, n)) && (n == last.source ==> CompatibleWithAll(front, last))
  {
    AppendEdge(front, last, n, {});
    if n == last.source {
      OutgoingMembers(front, n);
      AppendDeterministic(Outgoing(front, n), last);
    }
  }

  ghost predicate DeterministicAtAll(edges: seq<Edge>) {
    forall n :: Deterministic(Outgoing(edges, n))
  }

  lemma {:induction false} DeterministicByNode(edges: seq<Edge>)
    ensures Deterministic(edges) <==> DeterministicAtAll(edges)
  {
    if edges != [] {
      var last := edges[|edges| - 1];
      var front := edges[..|edges| - 1];
      assert edges == front + [last];
      DeterministicByNode(front);
      AppendDeterministic(front, last);
      if Deterministic(edges) {
        forall n ensures Deterministic(Outgoing(edges, n)) {
          DeterministicAtNode(front, last, n);
        }
      }
      if DeterministicAtAll(edges) {
        assert Deterministic(Outgoing(edges, last.source));
        DeterministicAtNode(front, last, last.source);
        forall n ensures Deterministic(Outgoing(front, n)) {
          assert Deterministic(Outgoing(edges, n));
          DeterministicAtNode(front, last, n);
        }
      }
    }
  }

  lemma AppendDeterministic(out: seq<Edge>, last: Edge)
    ensures Deterministic(out + [last]) <==> Deterministic(out) && CompatibleWithAll(out, last)
  {
    var all := out + [last];
    assert forall i :: 0 <= i < |out| ==> all[i] == out[i];
    if Deterministic(all) {
      forall e | e in out ensures Compatible(e, last) {
        var i :| 0 <= i < |out| && out[i] == e;
        assert Compatible(all[i], all[|out|]);
      }
    }
  }

  function Conditions(edges: seq<Edge>): (cs: seq<Condition>)
    ensures |cs| == |edges|
    ensures forall i :: 0 <= i < |edges| ==> cs[i] == edges[i].condition
  {
    seq(|edges|, i requires 0 <= i < |edges| => edges[i].condition)
  }

  predicate ConditionsRepeat(out: seq<Edge>) {
    |Elems(Conditions(out))| != |Conditions(out)|
  }

  predicate MixesAlways(out: seq<Edge>) {
    Always in Conditions(out) && |Conditions(out)| > 1
  }

  /** The set-size test and the `always` test together are pairwise compatibility. */
  lemma {:induction false} ConditionTests(out: seq<Edge>, n: string)
    requires forall e :: e in out ==> e.source == n
    ensures !ConditionsRepeat(out) && !MixesAlways(out) <==> Deterministic(out)
  {
    var cs := Conditions(out);
    DistinctByCount(cs);
    if Deterministic(out) {
      assert Distinct(cs) by {
        forall i, j | 0 <= i < j < |cs| ensures cs[i] != cs[j] {
          assert Compatible(out[i], out[j]);
        }
      }
      if |cs| > 1 {
        forall i | 0 <= i < |cs| ensures cs[i] != Always {
          assert if i == 0 then Compatible(out[0], out[1]) else Compatible(out[0], out[i]);
        }
      }
    } else {
      var i, j :| 0 <= i < j < |out| && !Compatible(out[i], out[j]);
      assert out[i] in out && out[j] in out;
      assert cs[i] == cs[j] || Always in cs;
    }
  }

  ghost predicate ConditionFault(out: seq<Edge>, error: GraphError) {
    match error
    case Nondeterministic => ConditionsRepeat(out)
    case AlwaysMixed => MixesAlways(out) && !ConditionsRepeat(out)
    case _ => false
  }

  lemma {:induction false} OutgoingElsewhere(ids: seq<string>, edges: seq<Edge>, n: string)
    requires EndpointsKnown(ids, edges) && n !in ids
    ensures Outgoing(edges, n) == []
  {
    if edges != [] {
      assert edges[|edges| - 1] in edges;
      assert forall e :: e in edges[..|edges| - 1] ==> e in edges;
      OutgoingElsewhere(ids, edges[..|edges| - 1], n);
    }
  }

  method CheckConditions(ids: seq<string>, edges: seq<Edge>, outgoing: map<string, seq<Edge>>)
    returns (error: Option<GraphError>)
    requires EndpointsKnown(ids, edges)
    requires outgoing.Keys == Elems(ids) && forall n :: n in ids ==> outgoing[n] == Outgoing(edges, n)
    ensures error.None? <==> Deterministic(edges)
    ensures error.Some? ==> exists n :: n in ids && ConditionFault(Outgoing(edges, n), error.value)
  {
    error := None;
    for k := 0 to |ids|
      invariant forall i :: 0 <= i < k ==> Deterministic(Outgoing(edges, ids[i]))
    {
      var out := outgoing[ids[k]];
      OutgoingMembers(edges, ids[k]);
      ConditionTests(out, ids[k]);
      DeterministicByNode(edges);
      if ConditionsRepeat(out) {
        assert ConditionFault(Outgoing(edges, ids[k]), Nondeterministic);
        return Some(Nondeterministic);
      }
      if MixesAlways(out) {
        assert ConditionFault(Outgoing(edges, ids[k]), AlwaysMixed);
        return Some(AlwaysMixed);
      }
    }
    forall n ensures Deterministic(Outgoing(edges, n)) {
      if n !in ids {
        OutgoingElsewhere(ids, edges, n);
      }
    }
    DeterministicByNode(edges);
  }

  // ---- Kahn's loop -------------------------------------------------------------------------

  /** Everything already visited has all its predecessors visited before it. */
  ghost predicate PredecessorsFirst(edges: seq<Edge>, visited: seq<string>) {
    forall k, e :: 0 <= k < |visited| && e in edges && e.target == visited[k] ==> e.source in visited[..k]
  }

  ghost predicate Waiting(ids: seq<string>, done: set<string>, incoming: map<string, nat>, pending: seq<string>)
    requires incoming.Keys == Elems(ids)
  {
    && Distinct(pending)
    && (forall n :: n in pending ==> n in ids && n !in done && incoming[n] == 0)
    && (forall n :: n in ids && n !in done && incoming[n] == 0 ==> n in pending)
  }

  /** Part way through retiring `current`: k of its edges have been taken off their targets' counts. */
  ghost predicate Retiring(ids: seq<string>, edges: seq<Edge>, current: string, done: set<string>, k: nat,
                           incoming: map<string, nat>, pending: seq<string>)
    requires k <= |Outgoing(edges, current)|
  {
    && incoming.Keys == Elems(ids)
    && (forall n :: n in ids ==> incoming[n] == CountIn(edges, n, done) - CountTo(Outgoing(edges, current)[..k], n))
    && Waiting(ids, done + {current}, incoming, pending)
  }

  lemma WaitingAfterDecrement(
    ids: seq<string>, done: set<string>, incoming: map<string, nat>, pending: seq<string>, t: string)
    requires incoming.Keys == Elems(ids) && Waiting(ids, done, incoming, pending)
    requires t in incoming && t !in done && incoming[t] >= 1
    ensures incoming[t := incoming[t] - 1].Keys == Elems(ids)
    ensures Waiting(ids, done, incoming[t := incoming[t] - 1], if incoming[t] == 1 then pending + [t] else pending)
  {
    assert t !in pending;
    assert incoming[t := incoming[t] - 1].Keys == incoming.Keys;
  }

  lemma RetireCounts(edges: seq<Edge>, current: string, done: set<string>, k: nat, n: string)
    requires current !in done && k < |Outgoing(edges, current)|
    ensures CountTo(Outgoing(edges, current)[..k + 1], n)
      == CountTo(Outgoing(edges, current)[..k], n) + if n == Outgoing(edges, current)[k].target then 1 else 0
    ensures CountTo(Outgoing(edges, current)[..k + 1], n) <= CountIn(edges, n, done)
  {
    CountInDone(edges, n, done, current);
    CountToPrefix(Outgoing(edges, current), n, k);
  }

  lemma RetireStep(ids: seq<string>, edges: seq<Edge>, current: string, done: set<string>, k: nat,
                   incoming: map<string, nat>, pending: seq<string>)
    requires EndpointsKnown(ids, edges) && current !in done && k < |Outgoing(edges, current)|
    requires forall e :: e in edges && e.target in done ==> e.source in done
    requires Retiring(ids, edges, current, done, k, incoming, pending)
    ensures var t := Outgoing(edges, current)[k].target;
      && t in ids && incoming[t] >= 1
      && Retiring(ids, edges, current, done, k + 1, incoming[t := incoming[t] - 1],
                  if incoming[t] == 1 then pending + [t] else pending)
  {
    var e := Outgoing(edges, current)[k];
    var t := e.target;
    OutgoingMembers(edges, current);
    assert e in edges && e.source == current;
    RetireCounts(edges, current, done, k, t);
    WaitingAfterDecrement(ids, done + {current}, incoming, pending, t);
    forall n | n in ids
      ensures incoming[t := incoming[t] - 1][n]
        == CountIn(edges, n, done) - CountTo(Outgoing(edges, current)[..k + 1], n)
    {
      RetireCounts(edges, current, done, k, n);
    }
  }

  /** Retires one node: its edges are taken off their targets' counts, and targets that reach zero become pending. */
  method Retire(ids: seq<string>, edges: seq<Edge>, current: string, out: seq<Edge>, ghost done: set<string>,
                degrees: map<string, nat>, waiting: seq<string>)
    returns (incoming: map<string, nat>, pending: seq<string>)
    requires EndpointsKnown(ids, edges) && out == Outgoing(edges, current) && current !in done
    requires forall e :: e in edges && e.target in done ==> e.source in done
    requires degrees.Keys == Elems(ids) && forall n :: n in ids ==> degrees[n] == CountIn(edges, n, done)
    requires Waiting(ids, done + {current}, degrees, waiting)
    ensures incoming.Keys == Elems(ids) && forall n :: n in ids ==> incoming[n] == CountIn(edges, n, done + {current})
    ensures Waiting(ids, done + {current}, incoming, pending)
  {
    incoming, pending := degrees, waiting;
    for k := 0 to |out|
      invariant Retiring(ids, edges, current, done, k, incoming, pending)
    {
      RetireStep(ids, edges, current, done, k, incoming, pending);
      var t := out[k].target;
      incoming := incoming[t := incoming[t] - 1];
      if incoming[t] == 0 {
        pending := pending + [t];
      }
    }
    assert out[..|out|] == out;
    forall n | n in ids ensures incoming[n] == CountIn(edges, n, done + {current}) {
      CountInDone(edges, n, done, current);
    }
  }

  function Roots(ids: seq<string>, incoming: map<string, nat>): (roots: seq<string>)
    requires forall n :: n in ids ==> n in incoming
    ensures forall n :: n in roots <==> n in ids && incoming[n] == 0
  {
    if ids == [] then []
    else if incoming[ids[0]] == 0 then [ids[0]] + Roots(ids[1..], incoming)
    else Roots(ids[1..], incoming)
  }

  lemma {:induction false} RootsDistinct(ids: seq<string>, incoming: map<string, nat>)
    requires Distinct(ids) && forall n :: n in ids ==> n in incoming
    ensures Distinct(Roots(ids, incoming))
  {
    if ids != [] {
      RootsDistinct(ids[1..], incoming);
      assert ids[0] !in ids[1..];
    }
  }

  ghost predicate KahnInvariant(ids: seq<string>, edges: seq<Edge>, visited: seq<string>,
                                incoming: map<string, nat>, pending: seq<string>) {
    && Distinct(visited)
    && (forall n :: n in visited ==> n in ids)
    && PredecessorsFirst(edges, visited)
    && incoming.Keys == Elems(ids)
    && (forall n :: n in ids ==> incoming[n] == CountIn(edges, n, Elems(visited)))
    && Waiting(ids, Elems(visited), incoming, pending)
  }

  /** Taking the last pending node: it is new, its predecessors are visited, and visiting it keeps the order. */
  lemma TakePending(
    ids: seq<string>, edges: seq<Edge>, visited: seq<string>, incoming: map<string, nat>, pending: seq<string>)
    requires KahnInvariant(ids, edges, visited, incoming, pending) && pending != []
    ensures var current := pending[|pending| - 1];
      && current in ids && current !in visited
      && Distinct(visited + [current])
      && Elems(visited + [current]) == Elems(visited) + {current}
      && PredecessorsFirst(edges, visited + [current])
      && Waiting(ids, Elems(visited) + {current}, incoming, pending[..|pending| - 1])
  {
    var current := pending[|pending| - 1];
    var rest := pending[..|pending| - 1];
    assert pending == rest + [current];
    assert current in pending;
    CountInZero(edges, current, Elems(visited));
    var next := visited + [current];
    forall k, e | 0 <= k < |next| && e in edges && e.target == next[k] ensures e.source in next[..k] {
      if k < |visited| {
        assert next[..k] == visited[..k] && visited[k] == next[k];
      } else {
        assert next[..k] == visited;
        assert e.source in Elems(visited);
      }
    }
  }

  /** Visits nodes whose predecessors are all visited; the visit is complete exactly when no directed cycle exists. */
  method Kahn(ids: seq<string>, edges: seq<Edge>, outgoing: map<string, seq<Edge>>, degrees: map<string, nat>)
    returns (visited: seq<string>)
    requires Distinct(ids) && EndpointsKnown(ids, edges) && AdjacencyOf(ids, edges, outgoing, degrees)
    ensures Distinct(visited) && forall n :: n in visited ==> n in ids
    ensures (forall n :: n in ids ==> n in visited) <==> !HasCycle(Arcs(edges))
  {
    var incoming := degrees;
    var pending := Roots(ids, incoming);
    RootsDistinct(ids, incoming);
    visited := [];
    assert Elems(visited) == {};
    while pending != []
      invariant KahnInvariant(ids, edges, visited, incoming, pending)
      decreases |ids| - |visited|
    {
      TakePending(ids, edges, visited, incoming, pending);
      VisitedAreClosed(edges, visited);
      var current := pending[|pending| - 1];
      ghost var done := Elems(visited);
      incoming, pending := Retire(ids, edges, current, outgoing[current], done, incoming, pending[..|pending| - 1]);
      visited := visited + [current];
      DistinctWithin(visited, ids);
    }
    KahnVerdict(ids, edges, visited, incoming);
  }

  lemma VisitedAreClosed(edges: seq<Edge>, visited: seq<string>)
    requires PredecessorsFirst(edges, visited)
    ensures forall e :: e in edges && e.target in Elems(visited) ==> e.source in Elems(visited)
  {
    forall e | e in edges && e.target in Elems(visited) ensures e.source in Elems(visited) {
      var k := IndexOf(visited, e.target);
      assert e.source in visited[..k];
    }
  }

  lemma {:induction false} KahnVerdict(
    ids: seq<string>, edges: seq<Edge>, visited: seq<string>, incoming: map<string, nat>)
    requires EndpointsKnown(ids, edges) && KahnInvariant(ids, edges, visited, incoming, [])
    ensures (forall n :: n in ids ==> n in visited) <==> !HasCycle(Arcs(edges))
  {
    var arcs := Arcs(edges);
    if forall n :: n in ids ==> n in visited {
      forall a, b | (a, b) in arcs
        ensures a in visited && b in visited && IndexOf(visited, a) < IndexOf(visited, b)
      {
        var e :| e in edges && e.source == a && e.target == b;
        var k := IndexOf(visited, b);
        assert a in visited[..k];
        assert a !in visited[..IndexOf(visited, a)];
      }
      TopologicalMeansAcyclic(arcs, visited);
    } else {
      var stuck := set n | n in ids && n !in visited;
      var lost :| lost in ids && lost !in visited;
      assert lost in stuck;
      forall b | b in stuck ensures HasPredecessorIn(arcs, stuck, b) {
        CountInZero(edges, b, Elems(visited));
        var e :| e in edges && e.target == b && e.source !in visited;
        assert (e.source, b) in arcs && e.source in stuck;
      }
      PredecessorsGiveCycle(arcs, stuck);
    }
  }

  // ---- reachability ------------------------------------------------------------------------

  ghost predicate FloodInvariant(ids: seq<string>, edges: seq<Edge>, entry: string,
                                 reachable: set<string>, expanded: set<string>, pending: seq<string>) {
    && entry in reachable && expanded <= reachable && reachable <= Elems(ids)
    && (forall n :: n in reachable ==> Reachable(Arcs(edges), entry, n))
    && Distinct(pending) && Elems(pending) == reachable - expanded
    && (forall e :: e in edges && e.source in expanded ==> e.target in reachable)
  }

  /** Adds the targets of one node's edges that were not reached before. */
  method Expand(ids: seq<string>, edges: seq<Edge>, entry: string, out: seq<Edge>, current: string,
                reached: set<string>, ghost expanded: set<string>, waiting: seq<string>)
    returns (reachable: set<string>, pending: seq<string>)
    requires EndpointsKnown(ids, edges) && out == Outgoing(edges, current)
    requires FloodInvariant(ids, edges, entry, reached, expanded, waiting + [current])
    ensures FloodInvariant(ids, edges, entry, reachable, expanded + {current}, pending)
    ensures current !in expanded && current in reached
  {
    OutgoingMembers(edges, current);
    reachable, pending := reached, waiting;
    Snoc(waiting, current);
    assert current in Elems(waiting + [current]);
    assert Elems(waiting) == Elems(waiting + [current]) - {current};
    for k := 0 to |out|
      invariant entry in reachable && reached <= reachable <= Elems(ids)
      invariant forall n :: n in reachable ==> Reachable(Arcs(edges), entry, n)
      invariant Distinct(pending) && Elems(pending) == reachable - expanded - {current}
      invariant forall i :: 0 <= i < k ==> out[i].target in reachable
    {
      var t := out[k].target;
      assert out[k] in out;
      if t !in reachable {
        ReachableStep(Arcs(edges), entry, current, t);
        assert t !in Elems(pending);
        Snoc(pending, t);
        reachable := reachable + {t};
        pending := pending + [t];
      }
    }
    forall e | e in edges && e.source == current ensures e.target in reachable {
      assert e in out;
    }
  }

  method ReachableFrom(ids: seq<string>, edges: seq<Edge>, outgoing: map<string, seq<Edge>>, entry: string)
    returns (reachable: set<string>)
    requires EndpointsKnown(ids, edges) && entry in ids
    requires outgoing.Keys == Elems(ids) && forall n :: n in ids ==> outgoing[n] == Outgoing(edges, n)
    ensures forall n :: n in reachable <==> Reachable(Arcs(edges), entry, n)
    ensures reachable <= Elems(ids)
  {
    ghost var expanded: set<string> := {};
    reachable := {entry};
    var pending := [entry];
    ReachableSelf(Arcs(edges), entry);
    while pending != []
      invariant FloodInvariant(ids, edges, entry, reachable, expanded, pending)
      decreases Elems(ids) - expanded
    {
      var current := pending[|pending| - 1];
      assert pending == pending[..|pending| - 1] + [current];
      assert current in Elems(pending);
      reachable, pending :=
        Expand(ids, edges, entry, outgoing[current], current, reachable, expanded, pending[..|pending| - 1]);
      expanded := expanded + {current};
    }
    assert Elems(pending) == {};
    assert reachable <= expanded + Elems(pending);
    FloodIsClosed(edges, entry, reachable);
  }

  lemma FloodIsClosed(edges: seq<Edge>, entry: string, reachable: set<string>)
    requires entry in reachable && forall e :: e in edges && e.source in reachable ==> e.target in reachable
    ensures forall n :: Reachable(Arcs(edges), entry, n) ==> n in reachable
  {
    forall n | Reachable(Arcs(edges), entry, n) ensures n in reachable {
      var p :| WalkFromTo(Arcs(edges), p, entry, n);
      ClosedContainsWalk(Arcs(edges), reachable, p);
    }
  }

  // ---- the two validators ------------------------------------------------------------------

  /** What each error tells about the graph: everything checked earlier held, and this check found a culprit. */
  ghost predicate Explains(d: Definition, unique: bool, error: GraphError)
    requires |d.nodes| >= 1
  {
    var ids := Ids(d.nodes);
    match error
    case DuplicateIds => !Distinct(ids)
    case UnknownEntrypoint => Distinct(ids) && Entrypoint(d) !in ids
    case UnknownEndpoint | SelfCycle | DuplicateEdge =>
      Distinct(ids) && Entrypoint(d) in ids &&
      exists k :: 0 <= k < |d.edges| && BadEdge(ids, d.edges, k, unique, error) && EndpointsKnown(ids, d.edges[..k])
    case Nondeterministic | AlwaysMixed =>
      Distinct(ids) && Entrypoint(d) in ids && EndpointsKnown(ids, d.edges) &&
      exists n :: n in ids && ConditionFault(Outgoing(d.edges, n), error)
    case Cyclic =>
      Distinct(ids) && EndpointsKnown(ids, d.edges) && Deterministic(d.edges) && HasCycle(Arcs(d.edges))
    case Unreachable =>
      EndpointsKnown(ids, d.edges) && Deterministic(d.edges) && !HasCycle(Arcs(d.edges)) &&
      exists n :: n in ids && !Reachable(Arcs(d.edges), Entrypoint(d), n)
  }

  lemma {:induction false} ExplainedIsUnacceptable(d: Definition, unique: bool, error: GraphError)
    requires |d.nodes| >= 1 && Explains(d, unique, error)
    ensures !Acceptable(d)
  {
    var ids := Ids(d.nodes);
    match error
    case UnknownEndpoint | SelfCycle | DuplicateEdge =>
      var k :| 0 <= k < |d.edges| && BadEdge(ids, d.edges, k, unique, error) && EndpointsKnown(ids, d.edges[..k]);
      assert d.edges[k] in d.edges;
      RepeatedEdgeIsNondeterministic(d.edges);
    case Nondeterministic | AlwaysMixed =>
      var n :| n in ids && ConditionFault(Outgoing(d.edges, n), error);
      OutgoingMembers(d.edges, n);
      ConditionTests(Outgoing(d.edges, n), n);
      DeterministicByNode(d.edges);
    case _ =>
  }

  ghost predicate WellWired(d: Definition)
    requires |d.nodes| >= 1
  {
    && Distinct(Ids(d.nodes)) && Entrypoint(d) in Ids(d.nodes)
    && EndpointsKnown(Ids(d.nodes), d.edges) && Deterministic(d.edges)
  }

  /** The checks both validators make before looking for cycles. */
  method CheckWiring(d: Definition, unique: bool)
    returns (r: Result<(map<string, seq<Edge>>, map<string, nat>), GraphError>)
    requires |d.nodes| >= 1
    ensures r.Ok? ==> WellWired(d) && AdjacencyOf(Ids(d.nodes), d.edges, r.value.0, r.value.1)
    ensures r.Err? ==> Explains(d, unique, r.error)
    ensures r.Err? && !unique ==> r.error != DuplicateEdge
  {
    var ids := Ids(d.nodes);
    DistinctByCount(ids);
    if |ids| != |Elems(ids)| {
      return Err(DuplicateIds);
    }
    if Entrypoint(d) !in Elems(ids) {
      return Err(UnknownEntrypoint);
    }
    r := BuildAdjacency(ids, d.edges, unique);
    if r.Ok? {
      var conflict := CheckConditions(ids, d.edges, r.value.0);
      if conflict.Some? {
        return Err(conflict.value);
      }
    }
  }

  /** The runtime's validator: accepts exactly the acceptable graphs and fills in the entrypoint. */
  method ValidateDefinition(d: Definition) returns (r: Result<Definition, GraphError>)
    requires |d.nodes| >= 1
    ensures Declares(d) ==>
      (r.Ok? <==> AcceptableFrom(d.nodes, d.edges, d.entrypoint.value)) && (r.Ok? ==> r.value == d)
    ensures !Declares(d) ==>
      && (r.Ok? <==> AcceptableFrom(d.nodes, d.edges, d.nodes[0].id))
      && (r.Ok? ==> r.value == d.(entrypoint := Some(d.nodes[0].id)))
    ensures r.Err? ==> r.error != DuplicateEdge && Explains(d, false, r.error)
  {
    var ids := Ids(d.nodes);
    var known := Elems(ids);
    var wiring := CheckWiring(d, false);
    if wiring.Err? {
      ExplainedIsUnacceptable(d, false, wiring.error);
      return Err(wiring.error);
    }
    var (outgoing, incoming) := wiring.value;
    var order := Kahn(ids, d.edges, outgoing, incoming);
    var visited := Elems(order);
    if visited != known {
      return Err(Cyclic);
    }
    assert forall n :: n in ids ==> n in known;
    var reachable := ReachableFrom(ids, d.edges, outgoing, Entrypoint(d));
    if reachable != known {
      var lost :| lost in known && lost !in reachable;
      return Err(Unreachable);
    }
    r := Ok(d.(entrypoint := Some(Entrypoint(d))));
  }

  /** The API's validator rejects repeated edges separately, counts visits, and still accepts the same graphs. */
  method ValidateDsl(d: Definition) returns (r: Result<Definition, GraphError>)
    requires |d.nodes| >= 1
    ensures Declares(d) ==>
      (r.Ok? <==> AcceptableFrom(d.nodes, d.edges, d.entrypoint.value)) && (r.Ok? ==> r.value == d)
    ensures !Declares(d) ==>
      && (r.Ok? <==> AcceptableFrom(d.nodes, d.edges, d.nodes[0].id))
      && (r.Ok? ==> r.value == d.(entrypoint := Some(d.nodes[0].id)))
    ensures r.Err? ==> Explains(d, true, r.error)
  {
    var ids := Ids(d.nodes);
    var wiring := CheckWiring(d, true);
    if wiring.Err? {
      ExplainedIsUnacceptable(d, true, wiring.error);
      return Err(wiring.error);
    }
    var (outgoing, incoming) := wiring.value;
    var visited := Kahn(ids, d.edges, outgoing, incoming);
    DistinctWithin(visited, ids);
    if |visited| != |ids| {
      return Err(Cyclic);
    }
    assert forall n :: n in ids ==> n in Elems(ids);
    var reachable := ReachableFrom(ids, d.edges, outgoing, Entrypoint(d));
    if reachable != Elems(ids) {
      var lost :| lost in Elems(ids) && lost !in reachable;
      return Err(Unreachable);
    }
    r := Ok(d.(entrypoint := Some(Entrypoint(d))));
  }

  /** Why the extra check turns nothing further away: a repeated edge already breaks determinism. */
  lemma {:induction false} RepeatedEdgeIsNondeterministic(edges: seq<Edge>)
    ensures Deterministic(edges) ==> Distinct(edges)
  {
    if Deterministic(edges) {
      forall i, j | 0 <= i < j < |edges| ensures edges[i] != edges[j] {
        assert Compatible(edges[i], edges[j]);
      }
    }
  }
}
