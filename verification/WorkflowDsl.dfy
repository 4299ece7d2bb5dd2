/** The workflow DSL: its values, the meaning of an acceptable graph, and its pure queries. */
module WorkflowDsl {
  import opened Results
  import opened Sequences
  import opened Walks

  datatype Role = Planner | Explorer | Implementer | Tester | Reviewer | Knowledge

  datatype Condition = Always | OnSuccess | OnFailure

  datatype Node = Node(id: string, role: Role, retryLimit: nat, approvalRequired: bool)

  datatype Edge = Edge(source: string, target: string, condition: Condition)

  datatype Definition = Definition(entrypoint: Option<string>, nodes: seq<Node>, edges: seq<Edge>)

  datatype GraphError =
    | DuplicateIds
    | UnknownEntrypoint
    | UnknownEndpoint
    | SelfCycle
    | DuplicateEdge
    | Nondeterministic
    | AlwaysMixed
    | Cyclic
    | Unreachable

  function Ids(nodes: seq<Node>): (ids: seq<string>)
    ensures |ids| == |nodes|
    ensures forall i :: 0 <= i < |nodes| ==> ids[i] == nodes[i].id
  {
    seq(|nodes|, i requires 0 <= i < |nodes| => nodes[i].id)
  }

  /** An absent or empty entrypoint stands for the first node. */
  function Entrypoint(d: Definition): string
    requires |d.nodes| >= 1
  {
    if d.entrypoint.Some? && d.entrypoint.value != "" then d.entrypoint.value else d.nodes[0].id
  }

  function Outgoing(edges: seq<Edge>, id: string): seq<Edge> {
    if edges == [] then []
    else
      var last := edges[|edges| - 1];
      var front := Outgoing(edges[..|edges| - 1], id);
      if last.source == id then front + [last] else front
  }

  lemma {:induction false} OutgoingMembers(edges: seq<Edge>, id: string)
    ensures forall e :: e in Outgoing(edges, id) <==> e in edges && e.source == id
  {
    if edges != [] {
      var last := edges[|edges| - 1];
      OutgoingMembers(edges[..|edges| - 1], id);
      assert edges == edges[..|edges| - 1] + [last];
    }
  }

  ghost function Arcs(edges: seq<Edge>): set<(string, string)> {
    set e | e in edges :: (e.source, e.target)
  }

  lemma ArcsFromEdges(edges: seq<Edge>)
    ensures forall e :: e in edges ==> (e.source, e.target) in Arcs(edges)
    ensures forall a, b :: (a, b) in Arcs(edges) ==> exists e :: e in edges && e.source == a && e.target == b
  {
  }

  /** At most one edge leaves a node per condition, and an unconditional edge leaves alone. */
  ghost predicate Compatible(a: Edge, b: Edge) {
    a.source == b.source ==>
      a.condition != b.condition && a.condition != Always && b.condition != Always
  }

  ghost predicate Deterministic(edges: seq<Edge>) {
    forall i, j :: 0 <= i < j < |edges| ==> Compatible(edges[i], edges[j])
  }

  ghost predicate EndpointsKnown(ids: seq<string>, edges: seq<Edge>) {
    forall e :: e in edges ==> e.source in ids && e.target in ids && e.source != e.target
  }

  /** What nodes and edges have to be for a workflow that starts at `entry`. */
  ghost predicate AcceptableFrom(nodes: seq<Node>, edges: seq<Edge>, entry: string) {
    && Distinct(Ids(nodes))
    && entry in Ids(nodes)
    && EndpointsKnown(Ids(nodes), edges)
    && Deterministic(edges)
    && !HasCycle(Arcs(edges))
    && forall n :: n in Ids(nodes) ==> Reachable(Arcs(edges), entry, n)
  }

  /** What a definition has to be for the runtime to accept it. */
  ghost predicate Acceptable(d: Definition)
    requires |d.nodes| >= 1
  {
    AcceptableFrom(d.nodes, d.edges, Entrypoint(d))
  }

  /** The definition says itself where it starts. */
  predicate Declares(d: Definition) {
    d.entrypoint.Some? && d.entrypoint.value != ""
  }

  /** In an acceptable graph the entrypoint is the only node without an incoming edge. */
  lemma {:induction false} EntrypointIsOnlyRoot(d: Definition, n: string)
    requires |d.nodes| >= 1 && Acceptable(d) && n in Ids(d.nodes)
    ensures n == Entrypoint(d) <==> forall e :: e in d.edges ==> e.target != n
  {
    var arcs := Arcs(d.edges);
    var entry := Entrypoint(d);
    var p :| WalkFromTo(arcs, p, entry, n);
    if n == entry {
      forall e | e in d.edges ensures e.target != n {
        if e.target == n {
          assert Reachable(arcs, entry, e.source);
          var q :| WalkFromTo(arcs, q, entry, e.source);
          var c := q + [entry];
          assert (e.source, entry) in arcs;
          assert IsCycle(arcs, c);
        }
      }
    } else {
      assert (p[|p| - 2], p[|p| - 2 + 1]) in arcs;
    }
  }

  /** The target of the first edge carrying the condition. */
  function FirstWith(edges: seq<Edge>, condition: Condition): (target: Option<string>)
    ensures target.None? <==> forall e :: e in edges ==> e.condition != condition
    ensures target.Some? ==> exists e :: e in edges && e.condition == condition && e.target == target.value
  {
    if edges == [] then None
    else if edges[0].condition == condition then Some(edges[0].target)
    else FirstWith(edges[1..], condition)
  }

  function NextNode(edges: seq<Edge>, id: string, failed: bool): Option<string> {
    var out := Outgoing(edges, id);
    var wanted := if failed then OnFailure else OnSuccess;
    var conditional := FirstWith(out, wanted);
    if conditional.Some? then conditional else FirstWith(out, Always)
  }

  predicate Fires(e: Edge, failed: bool) {
    e.condition == Always || e.condition == (if failed then OnFailure else OnSuccess)
  }

  ghost predicate FiresTo(edges: seq<Edge>, id: string, failed: bool, t: string) {
    exists e :: e in edges && e.source == id && e.target == t && Fires(e, failed)
  }

  lemma OneFiringEdge(edges: seq<Edge>, a: Edge, b: Edge, failed: bool)
    requires Deterministic(edges)
    requires a in edges && b in edges && a.source == b.source && Fires(a, failed) && Fires(b, failed)
    ensures a == b
  {
    var i :| 0 <= i < |edges| && edges[i] == a;
    var j :| 0 <= j < |edges| && edges[j] == b;
    assert i == j || Compatible(a, b) || Compatible(b, a);
  }

  lemma {:induction false} NextNodeFires(edges: seq<Edge>, id: string, failed: bool)
    ensures NextNode(edges, id, failed).Some? ==> FiresTo(edges, id, failed, NextNode(edges, id, failed).value)
    ensures NextNode(edges, id, failed).None? ==>
      forall e :: e in edges && e.source == id ==> !Fires(e, failed)
  {
    OutgoingMembers(edges, id);
  }

  /** With deterministic conditions the routed successor is the target of the one edge the outcome fires. */
  lemma {:induction false} NextNodeFollowsTheFiringEdge(edges: seq<Edge>, id: string, failed: bool, t: string)
    requires Deterministic(edges)
    ensures NextNode(edges, id, failed) == Some(t) <==> FiresTo(edges, id, failed, t)
  {
    NextNodeFires(edges, id, failed);
    if FiresTo(edges, id, failed, t) {
      var next := NextNode(edges, id, failed);
      var e :| e in edges && e.source == id && e.target == t && Fires(e, failed);
      var f :| f in edges && f.source == id && f.target == next.value && Fires(f, failed);
      OneFiringEdge(edges, e, f, failed);
    }
  }
}
