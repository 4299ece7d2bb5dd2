/** Running an accepted workflow: the approval gate, the node-to-node routing, and where a run can end. */
module WorkflowRun {
  import opened Results
  import opened Sequences
  import opened Walks
  import opened WorkflowDsl

  datatype Phase = Gate | At(id: string) | Finalize | Ended

  /** `approved` lists the nodes approved so far, `visited` the nodes started so far, in order. */
  datatype State = State(phase: Phase, approved: set<string>, visited: seq<string>)

  /** What happens in one step: an approval decision, or how a node's invocation comes out. */
  datatype Input = Decision(granted: bool) | Halted | Completed(failed: bool)

  function PendingApproval(nodes: seq<Node>, approved: set<string>): (pending: Option<string>)
    ensures pending.None? <==> forall n :: n in nodes && n.approvalRequired ==> n.id in approved
    ensures pending.Some? ==>
      pending.value !in approved && exists n :: n in nodes && n.approvalRequired && n.id == pending.value
  {
    if nodes == [] then None
    else if nodes[0].approvalRequired && nodes[0].id !in approved then Some(nodes[0].id)
    else PendingApproval(nodes[1..], approved)
  }

  const START := State(Gate, {}, [])

  predicate NeedsApproval(nodes: seq<Node>, id: string) {
    exists n :: n in nodes && n.id == id && n.approvalRequired
  }

  /** One step of the compiled graph. A decision is only consulted while an approval is pending. */
  function Step(d: Definition, s: State, input: Input): State
    requires |d.nodes| >= 1
  {
    match s.phase
    case Gate =>
      var pending := PendingApproval(d.nodes, s.approved);
      if pending.None? then s.(phase := At(Entrypoint(d)))
      else if input != Decision(true) then s.(phase := Ended)
      else
        var approved := s.approved + {pending.value};
        State(if PendingApproval(d.nodes, approved).Some? then Gate else At(Entrypoint(d)), approved, s.visited)
    case At(id) =>
      var started := s.(visited := s.visited + [id]);
      if NeedsApproval(d.nodes, id) && id !in s.approved then started.(phase := Ended)
      else if !input.Completed? then started.(phase := Ended)
      else
        var next := NextNode(d.edges, id, input.failed);
        started.(phase := if next.Some? then At(next.value) else Finalize)
    case Finalize => s.(phase := Ended)
    case Ended => s
  }

  function Run(d: Definition, inputs: seq<Input>): State
    requires |d.nodes| >= 1
  {
    if inputs == [] then START
    else Step(d, Run(d, inputs[..|inputs| - 1]), inputs[|inputs| - 1])
  }

  ghost predicate AllApproved(d: Definition, approved: set<string>) {
    forall n :: n in d.nodes && n.approvalRequired ==> n.id in approved
  }

  /** The nodes started so far, followed by the node about to start, are a walk from the entrypoint. */
  ghost predicate OnTrack(d: Definition, path: seq<string>)
    requires |d.nodes| >= 1
  {
    IsWalk(Arcs(d.edges), path) && path[0] == Entrypoint(d) && forall n :: n in path ==> n in Ids(d.nodes)
  }

  ghost predicate Invariant(d: Definition, s: State)
    requires |d.nodes| >= 1
  {
    && s.approved <= Elems(Ids(d.nodes))
    && (s.phase.Gate? ==> s.visited == [])
    && (s.phase.At? ==> OnTrack(d, s.visited + [s.phase.id]))
    && (s.visited != [] ==> OnTrack(d, s.visited))
    && (s.phase.At? || s.visited != [] ==> AllApproved(d, s.approved))
  }

  lemma ExtendWalk(d: Definition, path: seq<string>, t: string)
    requires |d.nodes| >= 1 && Acceptable(d) && OnTrack(d, path)
    requires (path[|path| - 1], t) in Arcs(d.edges)
    ensures OnTrack(d, path + [t])
  {
    var q := path + [t];
    forall i | 0 <= i < |q| - 1 ensures (q[i], q[i + 1]) in Arcs(d.edges) {
      if i < |path| - 1 {
        assert (path[i], path[i + 1]) in Arcs(d.edges);
      }
    }
  }

  lemma {:induction false} StepKeepsInvariant(d: Definition, s: State, input: Input)
    requires |d.nodes| >= 1 && Acceptable(d) && Invariant(d, s)
    ensures Invariant(d, Step(d, s, input))
  {
    var next := Step(d, s, input);
    if s.phase.Gate? {
      assert s.visited + [Entrypoint(d)] == [Entrypoint(d)];
      var pending := PendingApproval(d.nodes, s.approved);
      if pending.Some? {
        var n :| n in d.nodes && n.id == pending.value;
        var i :| 0 <= i < |d.nodes| && d.nodes[i] == n;
        assert Ids(d.nodes)[i] == pending.value;
      }
    } else if s.phase.At? && next.phase.At? {
      NextNodeFires(d.edges, s.phase.id, input.failed);
      ArcsFromEdges(d.edges);
      ExtendWalk(d, s.visited + [s.phase.id], next.phase.id);
    }
  }

  lemma {:induction false} RunKeepsInvariant(d: Definition, inputs: seq<Input>)
    requires |d.nodes| >= 1 && Acceptable(d)
    ensures Invariant(d, Run(d, inputs))
  {
    if inputs != [] {
      RunKeepsInvariant(d, inputs[..|inputs| - 1]);
      StepKeepsInvariant(d, Run(d, inputs[..|inputs| - 1]), inputs[|inputs| - 1]);
    }
  }

  /** In an acyclic graph a walk meets no node twice. */
  lemma {:induction false} WalksAreDistinct(d: Definition, path: seq<string>)
    requires |d.nodes| >= 1 && Acceptable(d) && OnTrack(d, path)
    ensures Distinct(path) && |path| <= |d.nodes|
  {
    forall i, j | 0 <= i < j < |path| ensures path[i] != path[j] {
      var c := path[i..j + 1];
      assert IsWalk(Arcs(d.edges), c) by {
        forall k | 0 <= k < |c| - 1 ensures (c[k], c[k + 1]) in Arcs(d.edges) {
          assert (path[i + k], path[i + k + 1]) in Arcs(d.edges);
        }
      }
      assert !IsCycle(Arcs(d.edges), c);
    }
    DistinctWithin(path, Ids(d.nodes));
  }

  /** Whatever the decisions and outcomes, no node starts twice and none starts before every required approval is in. */
  lemma {:induction false} RunVisitsEachNodeAtMostOnce(d: Definition, inputs: seq<Input>)
    requires |d.nodes| >= 1 && Acceptable(d)
    ensures var s := Run(d, inputs);
      && Distinct(s.visited) && |s.visited| <= |d.nodes|
      && (s.visited != [] ==> AllApproved(d, s.approved))
      && (s.visited != [] ==> s.visited[0] == if Declares(d) then d.entrypoint.value else d.nodes[0].id)
  {
    RunKeepsInvariant(d, inputs);
    var s := Run(d, inputs);
    if s.visited != [] {
      WalksAreDistinct(d, s.visited);
    }
  }

  /** Steps still possible: approvals first, then nodes, then finalize. */
  ghost function Remaining(d: Definition, s: State): (steps: nat)
    requires |d.nodes| >= 1 && Acceptable(d) && Invariant(d, s)
    ensures steps == 0 <==> s.phase == Ended
  {
    match s.phase
    case Gate => SubsetCount(s.approved, Elems(Ids(d.nodes))); |Elems(Ids(d.nodes))| - |s.approved| + |d.nodes| + 3
    case At(id) => WalksAreDistinct(d, s.visited + [id]); |d.nodes| - |s.visited| + 2
    case Finalize => 1
    case Ended => 0
  }

  lemma {:induction false} StepMakesProgress(d: Definition, s: State, input: Input)
    requires |d.nodes| >= 1 && Acceptable(d) && Invariant(d, s) && s.phase != Ended
    ensures Invariant(d, Step(d, s, input))
    ensures Remaining(d, Step(d, s, input)) < Remaining(d, s)
  {
    StepKeepsInvariant(d, s, input);
    SubsetCount(s.approved, Elems(Ids(d.nodes)));
    if s.phase.At? {
      WalksAreDistinct(d, s.visited + [s.phase.id]);
    }
  }

  lemma {:induction false} RemainingAfter(d: Definition, inputs: seq<Input>)
    requires |d.nodes| >= 1 && Acceptable(d)
    ensures Invariant(d, Run(d, inputs))
    ensures Run(d, inputs).phase == Ended
      || Remaining(d, Run(d, inputs)) + |inputs| <= |Elems(Ids(d.nodes))| + |d.nodes| + 3
  {
    if inputs != [] {
      var front := inputs[..|inputs| - 1];
      RemainingAfter(d, front);
      if Run(d, front).phase != Ended {
        StepMakesProgress(d, Run(d, front), inputs[|inputs| - 1]);
      }
    }
  }

  /** Every run, however it is decided and however its nodes come out, ends within 2·|nodes| + 3 steps. */
  lemma {:induction false} RunTerminates(d: Definition, inputs: seq<Input>)
    requires |d.nodes| >= 1 && Acceptable(d)
    requires |inputs| >= 2 * |d.nodes| + 3
    ensures Run(d, inputs).phase == Ended
  {
    DistinctByCount(Ids(d.nodes));
    RemainingAfter(d, inputs);
  }

  // ---- every node can be routed to ---------------------------------------------------------

  lemma GrantOne(d: Definition, s: State)
    requires |d.nodes| >= 1 && Acceptable(d) && Invariant(d, s) && s.phase == Gate
    ensures var t := Step(d, s, Decision(true));
      && Invariant(d, t)
      && (t.phase == Gate || t.phase == At(Entrypoint(d)))
      && t.visited == []
      && (t.phase == Gate ==> Elems(Ids(d.nodes)) - t.approved < Elems(Ids(d.nodes)) - s.approved)
  {
    StepKeepsInvariant(d, s, Decision(true));
    var t := Step(d, s, Decision(true));
    if t.phase == Gate {
      var id := PendingApproval(d.nodes, s.approved).value;
      assert id in Elems(Ids(d.nodes)) - s.approved && id !in Elems(Ids(d.nodes)) - t.approved;
    }
  }

  lemma RunAppend(d: Definition, inputs: seq<Input>, input: Input)
    requires |d.nodes| >= 1
    ensures Run(d, inputs + [input]) == Step(d, Run(d, inputs), input)
  {
    assert (inputs + [input])[..|inputs|] == inputs;
  }

  /** Granting every pending approval carries the run from the gate to the entrypoint. */
  lemma {:induction false} GateOpens(d: Definition, inputs: seq<Input>, s: State) returns (more: seq<Input>)
    requires |d.nodes| >= 1 && Acceptable(d) && s == Run(d, inputs) && Invariant(d, s) && s.phase == Gate
    ensures Run(d, more).phase == At(Entrypoint(d)) && Run(d, more).visited == []
    decreases Elems(Ids(d.nodes)) - s.approved
  {
    GrantOne(d, s);
    RunAppend(d, inputs, Decision(true));
    var t := Step(d, s, Decision(true));
    more := inputs + [Decision(true)];
    if t.phase == Gate {
      more := GateOpens(d, more, t);
    }
  }

  /** Some outcome of node a routes to b along any arc from a to b. */
  lemma OutcomeFor(d: Definition, a: string, b: string) returns (failed: bool)
    requires |d.nodes| >= 1 && Deterministic(d.edges) && (a, b) in Arcs(d.edges)
    ensures NextNode(d.edges, a, failed) == Some(b)
  {
    var e :| e in d.edges && e.source == a && e.target == b;
    failed := e.condition == OnFailure;
    assert FiresTo(d.edges, a, failed, b);
    NextNodeFollowsTheFiringEdge(d.edges, a, failed, b);
  }

  lemma RouteTo(d: Definition, s: State, a: string, b: string, failed: bool)
    requires |d.nodes| >= 1 && Acceptable(d) && Invariant(d, s) && s.phase == At(a)
    requires NextNode(d.edges, a, failed) == Some(b)
    ensures Step(d, s, Completed(failed)) == State(At(b), s.approved, s.visited + [a])
  {
    if NeedsApproval(d.nodes, a) {
      var n :| n in d.nodes && n.id == a && n.approvalRequired;
      assert a in s.approved;
    }
  }

  lemma OnTrackFront(d: Definition, p: seq<string>)
    requires |d.nodes| >= 1 && OnTrack(d, p) && |p| > 1
    ensures OnTrack(d, p[..|p| - 1]) && (p[|p| - 2], p[|p| - 1]) in Arcs(d.edges)
  {
    WalkPrefix(Arcs(d.edges), p, |p| - 1);
    assert (p[|p| - 2], p[|p| - 2 + 1]) in Arcs(d.edges);
  }

  lemma {:induction false} FollowWalk(d: Definition, inputs: seq<Input>, p: seq<string>)
    returns (more: seq<Input>, s: State)
    requires |d.nodes| >= 1 && Acceptable(d) && OnTrack(d, p)
    requires Run(d, inputs).phase == At(Entrypoint(d)) && Run(d, inputs).visited == []
    ensures s == Run(d, more) && s.phase == At(p[|p| - 1]) && s.visited == p[..|p| - 1]
    decreases |p|
  {
    if |p| == 1 {
      more, s := inputs, Run(d, inputs);
    } else {
      OnTrackFront(d, p);
      more, s := FollowWalk(d, inputs, p[..|p| - 1]);
      more, s := FollowArc(d, more, s, p[|p| - 2], p[|p| - 1]);
      assert p[..|p| - 1][..|p| - 2] + [p[|p| - 2]] == p[..|p| - 1];
    }
  }

  lemma {:induction false} FollowArc(d: Definition, inputs: seq<Input>, s: State, a: string, b: string)
    returns (more: seq<Input>, t: State)
    requires |d.nodes| >= 1 && Acceptable(d) && s == Run(d, inputs) && s.phase == At(a) && (a, b) in Arcs(d.edges)
    ensures t == Run(d, more) && t == State(At(b), s.approved, s.visited + [a])
  {
    var failed := OutcomeFor(d, a, b);
    RunKeepsInvariant(d, inputs);
    RouteTo(d, s, a, b, failed);
    RunAppend(d, inputs, Completed(failed));
    more, t := inputs + [Completed(failed)], Step(d, s, Completed(failed));
  }

  /** Routing alone keeps no node of an accepted workflow out: were every outcome possible, some would lead to it. */
  lemma {:induction false} EveryNodeCanBeRouted(d: Definition, id: string) returns (inputs: seq<Input>)
    requires |d.nodes| >= 1 && Acceptable(d) && id in Ids(d.nodes)
    ensures id in Run(d, inputs).visited
  {
    RunKeepsInvariant(d, []);
    var open := GateOpens(d, [], START);
    var p :| WalkFromTo(Arcs(d.edges), p, Entrypoint(d), id);
    WalkStaysKnown(d, p);
    var rest, s := FollowWalk(d, open, p);
    inputs := rest + [Halted];
    RunAppend(d, rest, Halted);
  }

  lemma WalkStaysKnown(d: Definition, p: seq<string>)
    requires |d.nodes| >= 1 && Acceptable(d) && IsWalk(Arcs(d.edges), p) && p[0] == Entrypoint(d)
    ensures OnTrack(d, p)
  {
    forall i | 0 <= i < |p| ensures p[i] in Ids(d.nodes) {
      if i > 0 {
        assert (p[i - 1], p[i - 1 + 1]) in Arcs(d.edges);
      }
    }
  }
}
