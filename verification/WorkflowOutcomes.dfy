/** Which nodes of an accepted workflow a run can start: its outcomes are those its nodes can produce. */
module WorkflowOutcomes {
  import opened Results
  import opened Sequences
  import opened Walks
  import opened WorkflowDsl
  import opened AgentNodes
  import opened WorkflowNodes
  import opened WorkflowMoods
  import AgentLoop
  import WorkflowRun

  /** A run: where it is, and the work its nodes hand on. */
  datatype Live = Live(flow: WorkflowRun.State, work: Work)

  /** What happens in one step: a decision on a pending approval, the workspace's isolation, a node's attempts. */
  datatype Input = Input(granted: bool, isolated: bool, attempts: seq<Try>)

  function NodeOf(nodes: seq<Node>, id: string): (node: Option<Node>)
    ensures node.Some? ==> node.value in nodes && node.value.id == id
    ensures node.None? <==> forall n :: n in nodes ==> n.id != id
  {
    if nodes == [] then None
    else if nodes[0].id == id then Some(nodes[0])
    else NodeOf(nodes[1..], id)
  }

  function Begin(setup: Setup): Live {
    Live(WorkflowRun.START, Work(Initial(setup.approved).(status := Planning), false))
  }

  function Invoked(setup: Setup, d: Definition, id: string, w: Work, attempts: seq<Try>): Option<Work> {
    var node := NodeOf(d.nodes, id);
    if node.Some? then Invoke(setup, node.value, w, attempts) else None
  }

  /** How a node's invocation comes out for the routing: a node that waits for an approval ends the run. */
  function Outcome(d: Definition, id: string, out: Option<Work>): WorkflowRun.Input {
    if out.None? || Halts(out.value.state) then WorkflowRun.Halted
    else WorkflowRun.Completed(Failing(d, id, out.value))
  }

  predicate Failing(d: Definition, id: string, w: Work) {
    var node := NodeOf(d.nodes, id);
    node.Some? && ComesOutFailed(node.value.role, w.state)
  }

  function Routed(setup: Setup, d: Definition, s: Live, input: Input): WorkflowRun.Input {
    if s.flow.phase.At? then Outcome(d, s.flow.phase.id, Invoked(setup, d, s.flow.phase.id, s.work, input.attempts))
    else WorkflowRun.Decision(input.granted)
  }

  /** A decision on a node's approval; the plan's own approval stays as it is. */
  function Decided(s: State, granted: bool): State {
    s.(status := if granted then Running else Interrupted,
       termination := if granted then None else Some(ApprovalDenied))
  }

  /** The state behind the gate; the workspace is prepared when the run comes through. */
  function Gated(setup: Setup, s: State, pending: bool, through: bool, input: Input): State {
    var decided := if pending then Decided(s, input.granted) else s;
    if through && setup.isolates then Prepare(decided, input.isolated) else decided
  }

  function Step(setup: Setup, d: Definition, s: Live, input: Input): Live
    requires |d.nodes| >= 1
  {
    var flow := WorkflowRun.Step(d, s.flow, Routed(setup, d, s, input));
    match s.flow.phase
    case Gate =>
      var pending := WorkflowRun.PendingApproval(d.nodes, s.flow.approved).Some?;
      Live(flow, s.work.(state := Gated(setup, s.work.state, pending, flow.phase.At?, input)))
    case At(id) =>
      var out := Invoked(setup, d, id, s.work, input.attempts);
      Live(flow, if out.Some? then out.value else s.work)
    case _ => Live(flow, s.work)
  }

  function Run(setup: Setup, d: Definition, inputs: seq<Input>): Live
    requires |d.nodes| >= 1
  {
    if inputs == [] then Begin(setup)
    else Step(setup, d, Run(setup, d, inputs[..|inputs| - 1]), inputs[|inputs| - 1])
  }

  // ---- the routing of a run ----------------------------------------------------------------

  /** The decisions and outcomes that the steps of a run amount to. */
  function Routing(setup: Setup, d: Definition, inputs: seq<Input>): seq<WorkflowRun.Input>
    requires |d.nodes| >= 1
  {
    if inputs == [] then []
    else
      var front := inputs[..|inputs| - 1];
      Routing(setup, d, front) + [Routed(setup, d, Run(setup, d, front), inputs[|inputs| - 1])]
  }

  /** Every run is routed as under free outcomes, so what holds for all of those holds for it. */
  lemma {:induction false} RunIsRouted(setup: Setup, d: Definition, inputs: seq<Input>)
    requires |d.nodes| >= 1
    ensures Run(setup, d, inputs).flow == WorkflowRun.Run(d, Routing(setup, d, inputs))
    ensures |Routing(setup, d, inputs)| == |inputs|
  {
    if inputs != [] {
      var front := inputs[..|inputs| - 1];
      RunIsRouted(setup, d, front);
      WorkflowRun.RunAppend(d, Routing(setup, d, front), Routed(setup, d, Run(setup, d, front), inputs[|inputs| - 1]));
    }
  }

  lemma {:induction false} EndedStays(setup: Setup, d: Definition, inputs: seq<Input>, more: seq<Input>)
    requires |d.nodes| >= 1 && Run(setup, d, inputs).flow.phase == WorkflowRun.Ended
    ensures Run(setup, d, inputs + more) == Run(setup, d, inputs)
  {
    if more == [] {
      assert inputs + more == inputs;
    } else {
      var front := more[..|more| - 1];
      EndedStays(setup, d, inputs, front);
      assert inputs + more == (inputs + front) + [more[|more| - 1]];
      RunAppend(setup, d, inputs + front, more[|more| - 1]);
    }
  }

  /**
   * While an approval is pending a denial ends the run for good, interrupted as denied and with no node started; a
   * grant leaves the state running without a reason as long as the gate is not passed.
   */
  lemma {:induction false} GateDecides(
    setup: Setup, d: Definition, inputs: seq<Input>, input: Input, more: seq<Input>)
    requires |d.nodes| >= 1 && Acceptable(d)
    requires var s := Run(setup, d, inputs);
      s.flow.phase == WorkflowRun.Gate && exists n :: n in d.nodes && n.approvalRequired && n.id !in s.flow.approved
    ensures var s, next := Run(setup, d, inputs), Run(setup, d, inputs + [input]);
      if !input.granted then
        && Run(setup, d, inputs + [input] + more) == next
        && next.flow.phase == WorkflowRun.Ended && next.flow.visited == []
        && next.work.state == s.work.state.(status := Interrupted, termination := Some(ApprovalDenied))
      else next.flow.phase == WorkflowRun.Gate ==>
        next.work.state == s.work.state.(status := Running, termination := None)
  {
    RunAppend(setup, d, inputs, input);
    RunIsRouted(setup, d, inputs);
    WorkflowRun.RunKeepsInvariant(d, Routing(setup, d, inputs));
    if !input.granted {
      EndedStays(setup, d, inputs + [input], more);
    }
  }

  /** So no node starts twice, and every run ends within 2·|nodes| + 3 steps. */
  lemma {:induction false} RunEnds(setup: Setup, d: Definition, inputs: seq<Input>)
    requires |d.nodes| >= 1 && Acceptable(d)
    ensures Distinct(Run(setup, d, inputs).flow.visited)
    ensures |inputs| >= 2 * |d.nodes| + 3 ==> Run(setup, d, inputs).flow.phase == WorkflowRun.Ended
  {
    RunIsRouted(setup, d, inputs);
    WorkflowRun.RunVisitsEachNodeAtMostOnce(d, Routing(setup, d, inputs));
    if |inputs| >= 2 * |d.nodes| + 3 {
      WorkflowRun.RunTerminates(d, Routing(setup, d, inputs));
    }
  }

  // ---- walks that are possible -------------------------------------------------------------

  /** A node about to start, and the mood it starts in. */
  datatype Stop = Stop(id: string, mood: Mood)

  /** Nothing has gone wrong before the first node, except where the workspace could not be isolated. */
  predicate MayBegin(setup: Setup, m: Mood) {
    m == Mood(false, false, false, false, 0) || (setup.isolates && m == Mood(false, true, true, false, 0))
  }

  predicate FailsIn(role: Role, n: Mood) {
    if role == Tester then n.red else n.pending
  }

  /** The node of a may leave the mood of b and is then followed by the node of b. */
  predicate Moves(setup: Setup, d: Definition, a: Stop, b: Stop) {
    var node := NodeOf(d.nodes, a.id);
    && node.Some? && May(setup, node.value, a.mood, b.mood)
    && NextNode(d.edges, a.id, FailsIn(node.value.role, b.mood)) == Some(b.id)
  }

  /** A walk from the entrypoint that is possible edge by edge. */
  predicate IsPossible(setup: Setup, d: Definition, walk: seq<Stop>)
    requires |d.nodes| >= 1
  {
    && walk != [] && walk[0].id == Entrypoint(d) && MayBegin(setup, walk[0].mood)
    && forall i :: 0 <= i < |walk| - 1 ==> Moves(setup, d, walk[i], walk[i + 1])
  }

  ghost predicate Possible(setup: Setup, d: Definition, stop: Stop)
    requires |d.nodes| >= 1
  {
    exists walk :: IsPossible(setup, d, walk) && walk[|walk| - 1] == stop
  }

  lemma PossibleOnwards(setup: Setup, d: Definition, a: Stop, b: Stop)
    requires |d.nodes| >= 1 && Possible(setup, d, a) && Moves(setup, d, a, b)
    ensures Possible(setup, d, b)
  {
    var walk :| IsPossible(setup, d, walk) && walk[|walk| - 1] == a;
    var longer := walk + [b];
    forall i | 0 <= i < |longer| - 1 ensures Moves(setup, d, longer[i], longer[i + 1]) {
      assert i < |walk| - 1 ==> longer[i] == walk[i] && longer[i + 1] == walk[i + 1];
    }
    assert IsPossible(setup, d, longer);
  }

  /** The nodes of a possible walk are a walk of the graph, so no node comes twice. */
  lemma {:induction false} PossibleIsShort(setup: Setup, d: Definition, walk: seq<Stop>)
    requires |d.nodes| >= 1 && Acceptable(d) && IsPossible(setup, d, walk)
    ensures |walk| <= |d.nodes|
  {
    var path := seq(|walk|, i requires 0 <= i < |walk| => walk[i].id);
    forall i | 0 <= i < |path| - 1 ensures (path[i], path[i + 1]) in Arcs(d.edges) {
      assert Moves(setup, d, walk[i], walk[i + 1]);
      NextNodeFires(d.edges, walk[i].id, FailsIn(NodeOf(d.nodes, walk[i].id).value.role, walk[i + 1].mood));
    }
    WorkflowRun.WalkStaysKnown(d, path);
    WorkflowRun.WalksAreDistinct(d, path);
  }

  // ---- runs make only possible walks -------------------------------------------------------

  ghost predicate Started(setup: Setup, d: Definition, id: string)
    requires |d.nodes| >= 1
  {
    exists m :: Possible(setup, d, Stop(id, m))
  }

  /** Every node started, and the one about to start in the work's mood, ends a possible walk. */
  ghost predicate OnlyPossible(setup: Setup, d: Definition, s: Live)
    requires |d.nodes| >= 1
  {
    && s.work.state.approved == setup.approved
    && (s.flow.phase == WorkflowRun.Gate ==>
          s.flow.visited == [] && MoodOf(s.work) == Mood(false, false, false, false, 0) && !Halts(s.work.state))
    && (s.flow.phase.At? ==> Possible(setup, d, Stop(s.flow.phase.id, MoodOf(s.work))) && !Halts(s.work.state))
    && (forall id :: id in s.flow.visited ==> Started(setup, d, id))
  }

  lemma EntryIsPossible(setup: Setup, d: Definition, m: Mood)
    requires |d.nodes| >= 1 && MayBegin(setup, m)
    ensures Possible(setup, d, Stop(Entrypoint(d), m))
  {
    var walk := [Stop(Entrypoint(d), m)];
    assert IsPossible(setup, d, walk);
  }

  lemma GatePossible(setup: Setup, d: Definition, s: Live, input: Input)
    requires |d.nodes| >= 1 && OnlyPossible(setup, d, s) && s.flow.phase == WorkflowRun.Gate
    ensures OnlyPossible(setup, d, Step(setup, d, s, input))
  {
    var next := Step(setup, d, s, input);
    if next.flow.phase.At? {
      EntryIsPossible(setup, d, MoodOf(next.work));
    }
  }

  lemma NodePossible(setup: Setup, d: Definition, s: Live, input: Input)
    requires |d.nodes| >= 1 && OnlyPossible(setup, d, s) && s.flow.phase.At?
    ensures OnlyPossible(setup, d, Step(setup, d, s, input))
  {
    var id, next := s.flow.phase.id, Step(setup, d, s, input);
    var here := Stop(id, MoodOf(s.work));
    assert Started(setup, d, id);
    var node := NodeOf(d.nodes, id);
    if Invoked(setup, d, id, s.work, input.attempts).Some? {
      InvokeMay(setup, node.value, s.work, input.attempts);
      if next.flow.phase.At? {
        PossibleOnwards(setup, d, here, Stop(next.flow.phase.id, MoodOf(next.work)));
      }
    }
  }

  lemma {:induction false} RunPossible(setup: Setup, d: Definition, inputs: seq<Input>)
    requires |d.nodes| >= 1
    ensures OnlyPossible(setup, d, Run(setup, d, inputs))
  {
    if inputs != [] {
      var s, input := Run(setup, d, inputs[..|inputs| - 1]), inputs[|inputs| - 1];
      RunPossible(setup, d, inputs[..|inputs| - 1]);
      match s.flow.phase
      case Gate => GatePossible(setup, d, s, input);
      case At(_) => NodePossible(setup, d, s, input);
      case _ =>
    }
  }

  lemma VisitedWasStarted(setup: Setup, d: Definition, inputs: seq<Input>, id: string)
    requires |d.nodes| >= 1
    ensures id in Run(setup, d, inputs).flow.visited ==> Started(setup, d, id)
  {
    RunPossible(setup, d, inputs);
  }

  // ---- the clock ---------------------------------------------------------------------------

  /** What the clock shows at the turns of an attempt. */
  function Readings(attempt: Try): seq<real> {
    match attempt
    case Raises(_) => []
    case Handles(first, further) => [first.elapsed] + Elapsed(further)
  }

  function Elapsed(inputs: seq<AgentLoop.Input>): seq<real> {
    seq(|inputs|, i requires 0 <= i < |inputs| => inputs[i].elapsed)
  }

  function AllReadings(attempts: seq<Try>): seq<real> {
    if attempts == [] then [] else Readings(attempts[0]) + AllReadings(attempts[1..])
  }

  function RunReadings(inputs: seq<Input>): seq<real> {
    if inputs == [] then [] else RunReadings(inputs[..|inputs| - 1]) + AllReadings(inputs[|inputs| - 1].attempts)
  }

  /** The clock starts at no less than zero and never runs back. */
  ghost predicate Onwards(readings: seq<real>) {
    && (forall i :: 0 <= i < |readings| ==> readings[i] >= 0.0)
    && forall i, j :: 0 <= i < j < |readings| ==> readings[i] <= readings[j]
  }

  ghost predicate Standing(readings: seq<real>) {
    forall i :: 0 <= i < |readings| ==> readings[i] == 0.0
  }

  lemma {:induction false} AtOnceStands(attempts: seq<Try>)
    requires AtOnce(attempts)
    ensures Standing(AllReadings(attempts))
  {
    if attempts != [] {
      AtOnceStands(attempts[1..]);
    }
  }

  lemma ReadingsAppend(inputs: seq<Input>, input: Input)
    requires Standing(RunReadings(inputs)) && AtOnce(input.attempts)
    ensures Standing(RunReadings(inputs + [input]))
  {
    AtOnceStands(input.attempts);
    assert (inputs + [input])[..|inputs|] == inputs;
  }

  // ---- every possible walk is made by some run ---------------------------------------------

  /** A run about to start the stop's node, in its mood or after fewer turns, with nothing but turns used. */
  ghost predicate Arrived(setup: Setup, d: Definition, s: Live, stop: Stop)
    requires |d.nodes| >= 1
  {
    && WorkflowRun.Invariant(d, s.flow) && s.flow.phase == WorkflowRun.At(stop.id)
    && Frugal(setup, s.work) && Below(MoodOf(s.work), stop.mood)
  }

  lemma RunAppend(setup: Setup, d: Definition, inputs: seq<Input>, input: Input)
    requires |d.nodes| >= 1
    ensures Run(setup, d, inputs + [input]) == Step(setup, d, Run(setup, d, inputs), input)
  {
    assert (inputs + [input])[..|inputs|] == inputs;
  }

  /** A run still at the gate, with nothing used. */
  ghost predicate Waiting(setup: Setup, d: Definition, s: Live)
    requires |d.nodes| >= 1
  {
    && WorkflowRun.Invariant(d, s.flow) && s.flow.phase == WorkflowRun.Gate
    && Frugal(setup, s.work) && MoodOf(s.work) == Mood(false, false, false, false, 0)
  }

  lemma GrantOne(setup: Setup, d: Definition, s: Live, m: Mood)
    requires |d.nodes| >= 1 && Acceptable(d) && Waiting(setup, d, s) && MayBegin(setup, m)
    ensures var next := Step(setup, d, s, Input(true, !m.pending, []));
      && WorkflowRun.Invariant(d, next.flow)
      && (if next.flow.phase == WorkflowRun.Gate then Waiting(setup, d, next)
          else Arrived(setup, d, next, Stop(Entrypoint(d), m)))
  {
    WorkflowRun.GrantOne(d, s.flow);
  }

  /** Granting what is asked for brings the run to the entrypoint, with the workspace isolated or not. */
  lemma {:induction false} GateArrives(setup: Setup, d: Definition, inputs: seq<Input>, s: Live, m: Mood)
    returns (more: seq<Input>)
    requires |d.nodes| >= 1 && Acceptable(d) && MayBegin(setup, m)
    requires s == Run(setup, d, inputs) && Waiting(setup, d, s) && Standing(RunReadings(inputs))
    ensures Arrived(setup, d, Run(setup, d, more), Stop(Entrypoint(d), m)) && Standing(RunReadings(more))
    decreases Elems(Ids(d.nodes)) - s.flow.approved
  {
    var input := Input(true, !m.pending, []);
    var next := Step(setup, d, s, input);
    GrantOne(setup, d, s, m);
    WorkflowRun.GrantOne(d, s.flow);
    RunAppend(setup, d, inputs, input);
    ReadingsAppend(inputs, input);
    more := inputs + [input];
    if next.flow.phase == WorkflowRun.Gate {
      more := GateArrives(setup, d, more, next, m);
    }
  }

  lemma MoveArrives(setup: Setup, d: Definition, s: Live, a: Stop, b: Stop) returns (input: Input)
    requires |d.nodes| >= 1 && Acceptable(d) && Sensible(setup.config.budget)
    requires Arrived(setup, d, s, a) && Moves(setup, d, a, b)
    ensures Arrived(setup, d, Step(setup, d, s, input), b) && AtOnce(input.attempts)
  {
    var node := NodeOf(d.nodes, a.id).value;
    var attempts := MayRealises(setup, node, s.work, a.mood, b.mood);
    input := Input(true, true, attempts);
    WorkflowRun.RouteTo(d, s.flow, a.id, b.id, FailsIn(node.role, b.mood));
    WorkflowRun.StepKeepsInvariant(d, s.flow, WorkflowRun.Completed(FailsIn(node.role, b.mood)));
  }

  lemma {:induction false} WalkArrives(setup: Setup, d: Definition, walk: seq<Stop>) returns (inputs: seq<Input>)
    requires |d.nodes| >= 1 && Acceptable(d) && Sensible(setup.config.budget) && IsPossible(setup, d, walk)
    ensures Arrived(setup, d, Run(setup, d, inputs), walk[|walk| - 1]) && Standing(RunReadings(inputs))
    decreases |walk|
  {
    if |walk| == 1 {
      inputs := GateArrives(setup, d, [], Begin(setup), walk[0].mood);
    } else {
      var front := walk[..|walk| - 1];
      inputs := WalkArrives(setup, d, front);
      assert Moves(setup, d, walk[|walk| - 2], walk[|walk| - 2 + 1]);
      var input := MoveArrives(setup, d, Run(setup, d, inputs), front[|front| - 1], walk[|walk| - 1]);
      RunAppend(setup, d, inputs, input);
      ReadingsAppend(inputs, input);
      inputs := inputs + [input];
    }
  }

  /** One more step starts the node the run has arrived at. */
  lemma OneMoreStarts(setup: Setup, d: Definition, inputs: seq<Input>, id: string)
    requires |d.nodes| >= 1 && Run(setup, d, inputs).flow.phase == WorkflowRun.At(id) && Standing(RunReadings(inputs))
    ensures id in Run(setup, d, inputs + [Input(true, true, [])]).flow.visited
    ensures Onwards(RunReadings(inputs + [Input(true, true, [])]))
  {
    RunAppend(setup, d, inputs, Input(true, true, []));
    ReadingsAppend(inputs, Input(true, true, []));
  }

  lemma StartedArrives(setup: Setup, d: Definition, id: string) returns (inputs: seq<Input>)
    requires |d.nodes| >= 1 && Acceptable(d) && Sensible(setup.config.budget) && Started(setup, d, id)
    ensures id in Run(setup, d, inputs).flow.visited && Onwards(RunReadings(inputs))
  {
    var m :| Possible(setup, d, Stop(id, m));
    var walk: seq<Stop> :| IsPossible(setup, d, walk) && walk[|walk| - 1] == Stop(id, m);
    inputs := WalkArrives(setup, d, walk);
    OneMoreStarts(setup, d, inputs, id);
    inputs := inputs + [Input(true, true, [])];
  }

  /**
   * Under a clock that never runs back, some run starts a node if and only if some walk from the entrypoint to it is
   * possible edge by edge; other clocks start no more. Such a walk has at most as many stops as there are nodes, and
   * four flags and a count of turns at each, so it can be looked for before the run.
   */
  lemma {:induction false} StartedIff(setup: Setup, d: Definition, id: string)
    requires |d.nodes| >= 1 && Acceptable(d) && Sensible(setup.config.budget)
    ensures (exists inputs :: Onwards(RunReadings(inputs)) && id in Run(setup, d, inputs).flow.visited)
      <==> Started(setup, d, id)
    ensures (exists inputs :: id in Run(setup, d, inputs).flow.visited) ==> Started(setup, d, id)
  {
    if inputs :| id in Run(setup, d, inputs).flow.visited {
      VisitedWasStarted(setup, d, inputs, id);
    }
    if Started(setup, d, id) {
      var inputs := StartedArrives(setup, d, id);
      assert Onwards(RunReadings(inputs)) && id in Run(setup, d, inputs).flow.visited;
    }
  }

  // ---- the starter workflow ----------------------------------------------------------------

  const STARTER := Definition(
    None,
    [Node("planner", Planner, 0, true), Node("explorer", Explorer, 0, false),
     Node("implementer", Implementer, 0, false), Node("tester", Tester, 2, false),
     Node("reviewer", Reviewer, 0, false), Node("knowledge", Knowledge, 0, false)],
    [Edge("planner", "explorer", OnSuccess), Edge("explorer", "implementer", OnSuccess),
     Edge("implementer", "tester", OnSuccess), Edge("tester", "reviewer", OnSuccess),
     Edge("reviewer", "knowledge", OnSuccess)])

  /** One edge for successes from each node to the next. */
  ghost predicate IsChain(d: Definition) {
    && |d.nodes| >= 1 && d.entrypoint.None? && Distinct(Ids(d.nodes)) && |d.edges| == |d.nodes| - 1
    && forall i :: 0 <= i < |d.edges| ==> d.edges[i] == Edge(d.nodes[i].id, d.nodes[i + 1].id, OnSuccess)
  }

  lemma {:induction false} ChainReaches(d: Definition, k: nat)
    requires IsChain(d) && k < |d.nodes|
    ensures Reachable(Arcs(d.edges), d.nodes[0].id, d.nodes[k].id)
  {
    if k == 0 {
      ReachableSelf(Arcs(d.edges), d.nodes[0].id);
    } else {
      ChainReaches(d, k - 1);
      assert d.edges[k - 1] in d.edges;
      ReachableStep(Arcs(d.edges), d.nodes[0].id, d.nodes[k - 1].id, d.nodes[k].id);
    }
  }

  lemma ChainEdge(d: Definition, e: Edge) returns (i: nat)
    requires IsChain(d) && e in d.edges
    ensures i < |d.edges| && d.edges[i] == e && e.source == d.nodes[i].id && e.target == d.nodes[i + 1].id
    ensures IndexOf(Ids(d.nodes), e.source) == i && IndexOf(Ids(d.nodes), e.target) == i + 1
  {
    i :| 0 <= i < |d.edges| && d.edges[i] == e;
    assert d.edges[i] == Edge(d.nodes[i].id, d.nodes[i + 1].id, OnSuccess);
    var ids := Ids(d.nodes);
    assert ids[i] == e.source && ids[i + 1] == e.target;
  }

  lemma ChainIsAcyclic(d: Definition)
    requires IsChain(d)
    ensures !HasCycle(Arcs(d.edges))
    ensures EndpointsKnown(Ids(d.nodes), d.edges)
  {
    var ids, arcs := Ids(d.nodes), Arcs(d.edges);
    forall e | e in d.edges
      ensures e.source in ids && e.target in ids && IndexOf(ids, e.source) < IndexOf(ids, e.target)
    {
      var i := ChainEdge(d, e);
    }
    ArcsFromEdges(d.edges);
    TopologicalMeansAcyclic(arcs, ids);
  }

  lemma ChainIsDeterministic(d: Definition)
    requires IsChain(d)
    ensures Deterministic(d.edges)
  {
    forall i, j | 0 <= i < j < |d.edges| ensures d.edges[i].source != d.edges[j].source {
      assert d.edges[i] == Edge(d.nodes[i].id, d.nodes[i + 1].id, OnSuccess);
      assert d.edges[j] == Edge(d.nodes[j].id, d.nodes[j + 1].id, OnSuccess);
      assert Ids(d.nodes)[i] != Ids(d.nodes)[j];
    }
  }

  lemma ChainIsAcceptable(d: Definition)
    requires IsChain(d)
    ensures Acceptable(d)
  {
    ChainIsAcyclic(d);
    ChainIsDeterministic(d);
    forall n | n in Ids(d.nodes) ensures Reachable(Arcs(d.edges), Entrypoint(d), n) {
      var k :| 0 <= k < |d.nodes| && Ids(d.nodes)[k] == n;
      ChainReaches(d, k);
    }
    assert Ids(d.nodes)[0] == Entrypoint(d);
  }

  /** Where a planner comes first and no edge for failures leaves it, nothing else is ever started. */
  lemma {:induction false} PlannerFirstEndsRun(setup: Setup, d: Definition, id: string)
    requires |d.nodes| >= 1
    requires NodeOf(d.nodes, Entrypoint(d)).Some? && NodeOf(d.nodes, Entrypoint(d)).value.role == Planner
    requires forall e :: e in d.edges && e.source == Entrypoint(d) ==> e.condition == OnSuccess
    requires Started(setup, d, id)
    ensures id == Entrypoint(d)
  {
    var m :| Possible(setup, d, Stop(id, m));
    var walk: seq<Stop> :| IsPossible(setup, d, walk) && walk[|walk| - 1] == Stop(id, m);
    if |walk| > 1 {
      assert Moves(setup, d, walk[0], walk[0 + 1]);
      NextNodeFires(d.edges, walk[0].id, true);
    }
  }

  lemma StarterIsChain()
    ensures IsChain(STARTER)
  {
  }

  lemma StarterBegins()
    ensures |STARTER.nodes| == 6 && Entrypoint(STARTER) == "planner"
    ensures NodeOf(STARTER.nodes, "planner").Some? && NodeOf(STARTER.nodes, "planner").value.role == Planner
    ensures forall e :: e in STARTER.edges ==> e.condition == OnSuccess
  {
    assert STARTER.nodes[0].id == "planner";
  }

  /** The starter workflow of the web application is accepted, and none of its runs gets past its planner. */
  lemma {:induction false} StarterEndsAtPlanner(setup: Setup, inputs: seq<Input>, id: string)
    ensures Acceptable(STARTER) && |STARTER.nodes| == 6
    ensures id in Run(setup, STARTER, inputs).flow.visited ==> id == "planner"
  {
    StarterIsChain();
    StarterBegins();
    ChainIsAcceptable(STARTER);
    VisitedWasStarted(setup, STARTER, inputs, id);
    if Started(setup, STARTER, id) {
      PlannerFirstEndsRun(setup, STARTER, id);
    }
  }

  // ---- a planner behind a failure ----------------------------------------------------------

  const DETOUR := Definition(
    None,
    [Node("explorer", Explorer, 0, false), Node("planner", Planner, 0, false),
     Node("implementer", Implementer, 0, false)],
    [Edge("explorer", "planner", OnFailure), Edge("planner", "implementer", OnSuccess)])

  lemma DetourRoutes(a: string, failed: bool)
    ensures NextNode(DETOUR.edges, a, failed) ==
            if a == "explorer" && failed then Some("planner")
            else if a == "planner" && !failed then Some("implementer")
            else None
  {
    NextNodeFires(DETOUR.edges, a, failed);
    var e, f := DETOUR.edges[0], DETOUR.edges[1];
    assert forall x :: x in DETOUR.edges ==> x == e || x == f;
    assert e in DETOUR.edges && f in DETOUR.edges;
  }

  /** An explorer that is tried once and fails either had an error on record before or discovered nothing. */
  lemma DetourMoves(setup: Setup, a: Stop, b: Stop)
    requires Moves(setup, DETOUR, a, b)
    ensures
      || (a.id == "explorer" && b.id == "planner" && (b.mood.context ==> a.mood.context || a.mood.pending))
      || (a.id == "planner" && b.id == "implementer" && a.mood.context)
  {
    var node := NodeOf(DETOUR.nodes, a.id).value;
    DetourRoutes(a.id, FailsIn(node.role, b.mood));
  }

  lemma DetourAround(setup: Setup)
    requires Sensible(setup.config.budget) && setup.isolates
    ensures Started(setup, DETOUR, "implementer")
  {
    var a := Stop("explorer", Mood(false, true, true, false, 0));
    var b := Stop("planner", Mood(true, true, true, false, 0));
    var c := Stop("implementer", Mood(true, false, true, false, 0));
    DetourRoutes("explorer", true);
    DetourRoutes("planner", false);
    EntryIsPossible(setup, DETOUR, a.mood);
    PossibleOnwards(setup, DETOUR, a, b);
    PossibleOnwards(setup, DETOUR, b, c);
  }

  /**
   * Planning on an explorer's failure is in vain, as the error stays on record; only a workspace that could not be
   * isolated has an explorer fail and discover the context, and then a model error without a text clears the error.
   */
  lemma {:induction false} DetourIff(setup: Setup)
    requires Sensible(setup.config.budget)
    ensures Started(setup, DETOUR, "implementer") <==> setup.isolates
  {
    if setup.isolates {
      DetourAround(setup);
    }
    if Started(setup, DETOUR, "implementer") {
      var m :| Possible(setup, DETOUR, Stop("implementer", m));
      var walk: seq<Stop> :| IsPossible(setup, DETOUR, walk) && walk[|walk| - 1] == Stop("implementer", m);
      assert Moves(setup, DETOUR, walk[0], walk[0 + 1]);
      DetourMoves(setup, walk[0], walk[1]);
      assert Moves(setup, DETOUR, walk[1], walk[1 + 1]);
      DetourMoves(setup, walk[1], walk[2]);
    }
  }
}
