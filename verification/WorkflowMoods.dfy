/**
 * What of a workflow's work decides where it goes next, how a node of each role can change it, and that the runtime's
 * nodes can change it in exactly these ways.
 */
module WorkflowMoods {
  import opened Results
  import opened WorkflowDsl
  import opened AgentNodes
  import opened WorkflowNodes
  import AgentLoop

  /**
   * Whether the repository was discovered, whether an error is on record, whether the run is marked failed, whether the
   * last exit code of the tests is not zero, and the model turns used.
   */
  datatype Mood = Mood(context: bool, pending: bool, failed: bool, red: bool, turns: nat)

  function MoodOf(w: Work): Mood {
    var s := w.state;
    Mood(w.context, HasText(s.error), s.status == Failed, NonZero(s.testExitCode), s.usage.modelTurns)
  }

  /** The workflow ends after a node that waits for an approval. */
  predicate Halts(s: State) {
    s.status == Interrupted || s.status == AwaitingApproval
  }

  predicate CanTurn(setup: Setup, m: Mood) {
    m.turns < setup.config.budget.maxModelTurns
  }

  predicate Awaits(setup: Setup) {
    setup.config.requirePlanApproval && setup.config.permission != ReadOnly && !setup.approved
  }

  predicate MayTest(cfg: Config) {
    cfg.verifiable && (cfg.permission == ExecuteCommands || cfg.permission == Full)
  }

  predicate MustTest(cfg: Config) {
    MayTest(cfg) && (cfg.verificationCommands != [] || cfg.testCommand.Some?)
  }

  // ---- what each role can do ---------------------------------------------------------------

  /** A planner leaves no error on record only with a discovered context, and plans only where none was on record. */
  predicate MayPlan(setup: Setup, m: Mood, n: Mood) {
    && n.context == m.context && n.red == m.red
    && (n.pending
        || (m.context && CanTurn(setup, m)
            && (n.failed || (!m.pending && !m.failed && !Awaits(setup) && n.turns > m.turns))))
  }

  /** An explorer discovers the context and keeps error and failure as they are, unless it raises. */
  predicate MayExplore(node: Node, m: Mood, n: Mood) {
    && n.red == m.red
    && ((n.context && n.pending == m.pending && n.failed == m.failed)
        || (n.pending && !n.failed && (n.context == m.context || (n.context && node.retryLimit >= 1))))
  }

  /** Tests clear error and failure when they run and pass; they run only where they may and can. */
  predicate MayVerify(setup: Setup, node: Node, m: Mood, n: Mood) {
    var runs := MayTest(setup.config) && node.id in setup.testable;
    && n.context == m.context && !n.failed
    && ((!MustTest(setup.config) && n.pending == m.pending && !n.red)
        || (runs && !n.pending && !n.red)
        || (n.pending && n.red && MayTest(setup.config))
        || (n.pending && n.red == m.red)
        || (n.pending && !n.red && node.retryLimit >= 1 && (runs || !MustTest(setup.config))))
  }

  /** A role that takes turns does nothing in a failed run; otherwise a turn clears the error on record. */
  predicate MayTakeTurns(setup: Setup, node: Node, m: Mood, n: Mood) {
    && n.context == m.context && n.red == m.red
    && ((m.failed && n.failed && n.pending == m.pending)
        || (n.pending && (!n.failed || !m.failed || node.retryLimit >= 1))
        || (!n.pending && !m.failed && CanTurn(setup, m) && (n.failed || n.turns > m.turns)))
  }

  /** The moods a node can turn m into and go on; `turns` is the least number of model turns it takes. */
  predicate May(setup: Setup, node: Node, m: Mood, n: Mood) {
    && n.turns >= m.turns
    && match node.role
       case Planner => MayPlan(setup, m, n)
       case Explorer => MayExplore(node, m, n)
       case Tester => MayVerify(setup, node, m, n)
       case _ => MayTakeTurns(setup, node, m, n)
  }

  // ---- nodes do nothing else ---------------------------------------------------------------

  /** What an unsuccessful attempt can leave for the next one, when the node began in mood m. */
  predicate Between(setup: Setup, node: Node, m: Mood, k: Mood, raised: Option<Text>) {
    && node.retryLimit >= 1 && k.turns >= m.turns && k.pending
    && match node.role
       case Planner => k.context == m.context && k.red == m.red
       case Explorer => k.red == m.red && (k.context || k.context == m.context) && (k.failed ==> m.failed && m.pending)
       case Tester => k.context == m.context && k.red && !k.failed && (m.red || MayTest(setup.config))
       case _ => k.context == m.context && k.red == m.red && (m.failed && !k.failed ==> raised.Some?)
  }

  /** Where the attempts of a node that began in mood m stand before the next one. */
  predicate Midway(setup: Setup, node: Node, m: Mood, w: Work, raised: Option<Text>) {
    && w.state.status != Interrupted && w.state.approved == setup.approved
    && ((raised.None? && MoodOf(w) == m) || Between(setup, node, m, MoodOf(w), raised))
  }

  /** What one attempt leaves: a mood the node may end in, or one to go on from. */
  predicate Lands(setup: Setup, node: Node, m: Mood, next: Work, raised: Option<Text>) {
    && next.state.status != Interrupted && next.state.approved == setup.approved
    && (!Halts(next.state) ==> May(setup, node, m, MoodOf(Restored(next, raised))))
    && (ComesOutFailed(node.role, next.state) && node.retryLimit >= 1 ==> Between(setup, node, m, MoodOf(next), raised))
  }

  lemma RaisingLands(setup: Setup, node: Node, m: Mood, w: Work, attempt: Try, raised: Option<Text>)
    requires Midway(setup, node, m, w, raised) && attempt.Raises?
    ensures Lands(setup, node, m, Attempted(setup, node, w, attempt).value, Some(attempt.text))
  {
  }

  lemma PlanKeeps(setup: Setup, s: State, elapsed: real, reply: Reply)
    requires s.status != Interrupted && s.approved == setup.approved
    ensures var next := Plan(setup.config, s, elapsed, reply);
      && next.status != Interrupted && next.testExitCode == s.testExitCode && next.approved == s.approved
      && next.usage.modelTurns >= s.usage.modelTurns
  {
  }

  /** Without an error on record, the plan was made where there was none before, or its failure has no text. */
  lemma PlanOutcome(setup: Setup, s: State, elapsed: real, reply: Reply)
    requires s.status != Interrupted && s.approved == setup.approved
    requires var next := Plan(setup.config, s, elapsed, reply); !HasText(next.error) && !Halts(next)
    ensures s.usage.modelTurns < setup.config.budget.maxModelTurns && (reply.Raised? ==> reply.message == "")
    ensures var next := Plan(setup.config, s, elapsed, reply);
      next.status == Failed
      || (!HasText(s.error) && s.status != Failed && !Awaits(setup) && next.usage.modelTurns > s.usage.modelTurns)
  {
  }

  lemma PlannedLands(setup: Setup, node: Node, m: Mood, w: Work, s: State, raised: Option<Text>)
    requires Midway(setup, node, m, w, raised) && node.role == Planner
    requires s.status != Interrupted && s.approved == setup.approved && s.testExitCode == w.state.testExitCode
    requires s.usage.modelTurns >= w.state.usage.modelTurns
    requires !HasText(s.error) && !Halts(s) ==>
      && w.context && CanTurn(setup, MoodOf(w))
      && (s.status == Failed
          || (!HasText(w.state.error) && w.state.status != Failed && !Awaits(setup)
              && s.usage.modelTurns > w.state.usage.modelTurns))
    ensures Lands(setup, node, m, w.(state := s), raised)
  {
  }

  lemma PlannerLands(setup: Setup, node: Node, m: Mood, w: Work, input: AgentLoop.Input, raised: Option<Text>)
    requires Midway(setup, node, m, w, raised) && node.role == Planner
    ensures Lands(setup, node, m, Handle(setup, node, w, input), raised)
  {
    var reply := if w.context then input.reply else AgentNodes.Raised(NO_CONTEXT);
    var next := Plan(setup.config, w.state, input.elapsed, reply);
    PlanKeeps(setup, w.state, input.elapsed, reply);
    if !HasText(next.error) && !Halts(next) {
      PlanOutcome(setup, w.state, input.elapsed, reply);
    }
    PlannedLands(setup, node, m, w, next, raised);
  }

  lemma ExplorerLands(setup: Setup, node: Node, m: Mood, w: Work, input: AgentLoop.Input, raised: Option<Text>)
    requires Midway(setup, node, m, w, raised) && node.role == Explorer
    ensures Lands(setup, node, m, Handle(setup, node, w, input), raised)
  {
  }

  /** Tests that a node may not run are refused, so the first of them fails with exit code 1. */
  lemma VerifyOutcome(cfg: Config, s: State, detected: Option<string>, tests: int -> TestRun)
    requires s.status != Interrupted
    ensures var next := Verify(cfg, s, detected, tests);
      && next.status == Verifying && next.usage == s.usage && next.approved == s.approved
      && (MustTest(cfg) ==> Selected(cfg, detected) != [])
      && (!MayTest(cfg) || Selected(cfg, detected) == [] ==> next.testExitCode == None && next.error == s.error)
      && (MayTest(cfg) && Selected(cfg, detected) != [] && tests(0) == REFUSED ==> next.testExitCode == Some(1))
      && (NonZero(next.testExitCode) ==> HasText(next.error))
      && (MayTest(cfg) && Selected(cfg, detected) != [] && HasText(next.error) ==> NonZero(next.testExitCode))
  {
    var commands := Selected(cfg, detected);
    if CanRunTests(cfg, commands) {
      StagesAre(commands, tests, 0);
      var stages := StagesFrom(commands, tests, 0);
      assert stages[0] == StageOf(commands[0], tests(0));
    }
  }

  lemma SkippedLands(setup: Setup, node: Node, m: Mood, w: Work, next: Work, raised: Option<Text>)
    requires Midway(setup, node, m, w, raised) && node.role == Tester && !MustTest(setup.config)
    requires next.context == w.context && next.state.status == Verifying && next.state.approved == setup.approved
    requires next.state.usage == w.state.usage && next.state.error == w.state.error && next.state.testExitCode.None?
    ensures Lands(setup, node, m, next, raised)
  {
  }

  lemma RanLands(setup: Setup, node: Node, m: Mood, w: Work, next: Work, raised: Option<Text>)
    requires Midway(setup, node, m, w, raised) && node.role == Tester && MayTest(setup.config)
    requires next.context == w.context && next.state.status == Verifying && next.state.approved == setup.approved
    requires next.state.usage == w.state.usage && (NonZero(next.state.testExitCode) <==> HasText(next.state.error))
    requires node.id in setup.testable || NonZero(next.state.testExitCode)
    ensures Lands(setup, node, m, next, raised)
  {
  }

  lemma TesterLands(setup: Setup, node: Node, m: Mood, w: Work, input: AgentLoop.Input, raised: Option<Text>)
    requires Midway(setup, node, m, w, raised) && node.role == Tester
    ensures Lands(setup, node, m, Handle(setup, node, w, input), raised)
  {
    var next := Handle(setup, node, w, input);
    VerifyOutcome(setup.config, w.state, input.detected, TestsAt(setup, node, input.tests));
    if CanRunTests(setup.config, Selected(setup.config, input.detected)) {
      RanLands(setup, node, m, w, next, raised);
    } else {
      SkippedLands(setup, node, m, w, next, raised);
    }
  }

  /** After at least one turn: an error is on record unless a turn was taken, or its failure has no text. */
  predicate Turned(setup: Setup, m: Mood, s: State) {
    && s.status != Interrupted && s.approved == setup.approved
    && NonZero(s.testExitCode) == m.red && s.usage.modelTurns >= m.turns
    && (!HasText(s.error) ==> CanTurn(setup, m) && (s.status == Failed || s.usage.modelTurns > m.turns))
  }

  lemma RunTurnKeeps(s: State, usage: Usage, attempts: seq<AgentNodes.Attempt>)
    ensures var next := RunTurn(s, usage, attempts);
      && next.approved == s.approved && next.testExitCode == s.testExitCode
      && next.usage.modelTurns == usage.modelTurns
  {
  }

  lemma ExecuteKeeps(cfg: Config, s: State, elapsed: real, reply: Reply)
    requires s.status != Interrupted
    ensures var next := Execute(cfg, s, elapsed, reply);
      && next.status != Interrupted && next.approved == s.approved && next.testExitCode == s.testExitCode
      && next.usage.modelTurns >= s.usage.modelTurns
  {
    if reply.Turn? {
      RunTurnKeeps(s, Charge(s.usage, reply.tokens, reply.cost), reply.attempts);
    }
  }

  lemma ExecuteOutcome(cfg: Config, s: State, elapsed: real, reply: Reply)
    requires s.status != Interrupted && s.status != Failed && !HasText(Execute(cfg, s, elapsed, reply).error)
    ensures s.usage.modelTurns < cfg.budget.maxModelTurns
    ensures var next := Execute(cfg, s, elapsed, reply);
      next.status == Failed || next.usage.modelTurns > s.usage.modelTurns
  {
  }

  lemma ExecuteTurns(setup: Setup, m: Mood, s: State, input: AgentLoop.Input)
    requires s.status != Interrupted && s.approved == setup.approved
    requires NonZero(s.testExitCode) == m.red && s.usage.modelTurns >= m.turns
    requires s.status == Failed ==> Turned(setup, m, s)
    ensures Turned(setup, m, Execute(setup.config, s, input.elapsed, input.reply))
  {
    var next := Execute(setup.config, s, input.elapsed, input.reply);
    ExecuteKeeps(setup.config, s, input.elapsed, input.reply);
    if s.status != Failed && !HasText(next.error) {
      ExecuteOutcome(setup.config, s, input.elapsed, input.reply);
    }
  }

  lemma {:induction false} LoopTurns(setup: Setup, m: Mood, s: State, inputs: seq<AgentLoop.Input>)
    requires Turned(setup, m, s)
    ensures Turned(setup, m, AgentLoop.InnerLoop(setup.config, s, inputs))
    decreases |inputs|
  {
    if inputs != [] && AgentLoop.KeepsExecuting(setup.config, s) {
      ExecuteTurns(setup, m, s, inputs[0]);
      LoopTurns(setup, m, Execute(setup.config, s, inputs[0].elapsed, inputs[0].reply), inputs[1..]);
    }
  }

  lemma TurnedLands(setup: Setup, node: Node, m: Mood, w: Work, next: Work, raised: Option<Text>)
    requires Midway(setup, node, m, w, raised) && TakesTurns(node.role) && w.state.status != Failed
    requires next.context == w.context && Turned(setup, m, next.state)
    ensures Lands(setup, node, m, next, raised)
  {
  }

  lemma TurnsLand(setup: Setup, node: Node, m: Mood, w: Work, attempt: Try, raised: Option<Text>)
    requires Midway(setup, node, m, w, raised) && TakesTurns(node.role) && attempt.Handles?
    requires Attempted(setup, node, w, attempt).Some?
    ensures Lands(setup, node, m, Attempted(setup, node, w, attempt).value, raised)
  {
    var handled := Handle(setup, node, w, attempt.first);
    if w.state.status == Failed {
      AgentLoop.FailedLoopIsStuck(setup.config, handled.state, attempt.further);
    } else {
      ExecuteTurns(setup, m, w.state, attempt.first);
      LoopTurns(setup, m, handled.state, attempt.further);
      TurnedLands(setup, node, m, w, Attempted(setup, node, w, attempt).value, raised);
    }
  }

  lemma AttemptLands(setup: Setup, node: Node, m: Mood, w: Work, attempt: Try, raised: Option<Text>)
    requires Midway(setup, node, m, w, raised) && Attempted(setup, node, w, attempt).Some?
    ensures Lands(setup, node, m, Attempted(setup, node, w, attempt).value, RaisedBy(attempt, raised))
  {
    match attempt
    case Raises(_) => RaisingLands(setup, node, m, w, attempt, raised);
    case Handles(first, _) =>
      match node.role
      case Planner => PlannerLands(setup, node, m, w, first, raised);
      case Explorer => ExplorerLands(setup, node, m, w, first, raised);
      case Tester => TesterLands(setup, node, m, w, first, raised);
      case _ => TurnsLand(setup, node, m, w, attempt, raised);
  }

  lemma LandsAmid(setup: Setup, node: Node, m: Mood, next: Work, raised: Option<Text>)
    requires Lands(setup, node, m, next, raised) && ComesOutFailed(node.role, next.state) && node.retryLimit >= 1
    ensures Midway(setup, node, m, next, raised)
  {
  }

  lemma LandsAtEnd(setup: Setup, node: Node, m: Mood, next: Work, raised: Option<Text>)
    requires Lands(setup, node, m, next, raised)
    ensures Ends(setup, node, m, Restored(next, raised))
  {
  }

  /** Where a node ends that began in mood m. */
  predicate Ends(setup: Setup, node: Node, m: Mood, out: Work) {
    && out.state.status != Interrupted && out.state.approved == setup.approved
    && (!Halts(out.state) ==> May(setup, node, m, MoodOf(out)))
  }

  /** What the first attempt gives, and whether it is the last. */
  lemma RetriedOnce(setup: Setup, node: Node, w: Work, attempts: seq<Try>, retries: nat, raised: Option<Text>)
    returns (next: Work, raised': Option<Text>, last: bool)
    requires Retried(setup, node, w, attempts, retries, raised).Some?
    ensures attempts != [] && Attempted(setup, node, w, attempts[0]) == Some(next)
    ensures raised' == RaisedBy(attempts[0], raised)
    ensures !last ==> retries > 0 && ComesOutFailed(node.role, next.state)
    ensures Retried(setup, node, w, attempts, retries, raised)
         == if last then Some(Restored(next, raised'))
            else Retried(setup, node, next, attempts[1..], retries - 1, raised')
  {
    next, raised' := Attempted(setup, node, w, attempts[0]).value, RaisedBy(attempts[0], raised);
    last := !ComesOutFailed(node.role, next.state) || retries == 0;
  }

  lemma FirstLands(
    setup: Setup, node: Node, m: Mood, w: Work, attempts: seq<Try>, retries: nat, raised: Option<Text>)
    returns (next: Work, raised': Option<Text>, last: bool)
    requires Midway(setup, node, m, w, raised) && retries <= node.retryLimit
    requires Retried(setup, node, w, attempts, retries, raised).Some?
    ensures last ==> Ends(setup, node, m, next) && Retried(setup, node, w, attempts, retries, raised) == Some(next)
    ensures !last ==>
      && attempts != [] && retries > 0 && Midway(setup, node, m, next, raised')
      && Retried(setup, node, w, attempts, retries, raised)
         == Retried(setup, node, next, attempts[1..], retries - 1, raised')
  {
    next, raised', last := RetriedOnce(setup, node, w, attempts, retries, raised);
    AttemptLands(setup, node, m, w, attempts[0], raised);
    if last {
      LandsAtEnd(setup, node, m, next, raised');
      next := Restored(next, raised');
    } else {
      LandsAmid(setup, node, m, next, raised');
    }
  }

  lemma {:induction false} RetriedMay(
    setup: Setup, node: Node, m: Mood, w: Work, attempts: seq<Try>, retries: nat, raised: Option<Text>)
    requires Midway(setup, node, m, w, raised) && retries <= node.retryLimit
    requires Retried(setup, node, w, attempts, retries, raised).Some?
    ensures Ends(setup, node, m, Retried(setup, node, w, attempts, retries, raised).value)
    decreases retries
  {
    var next, raised', last := FirstLands(setup, node, m, w, attempts, retries, raised);
    if !last {
      RetriedMay(setup, node, m, next, attempts[1..], retries - 1, raised');
    }
  }

  /** However a node's attempts go, it leaves a mood its role may leave, or the workflow ends. */
  lemma {:induction false} InvokeMay(setup: Setup, node: Node, w: Work, attempts: seq<Try>)
    requires w.state.status != Interrupted && w.state.approved == setup.approved
    requires Invoke(setup, node, w, attempts).Some?
    ensures Ends(setup, node, MoodOf(w), Invoke(setup, node, w, attempts).value)
  {
    RetriedMay(setup, node, MoodOf(w), w, attempts, node.retryLimit, None);
  }

  // ---- nodes can do all of it --------------------------------------------------------------

  /** Limits as the runtime takes them: none of them is zero. */
  predicate Sensible(budget: Budget) {
    && budget.maxModelTurns >= 1 && budget.maxToolCalls >= 1 && budget.maxTokens >= 1 && budget.maxDuration >= 1
    && (budget.maxCost.Some? ==> budget.maxCost.value > 0.0)
  }

  /** Work in which nothing but model turns has been used. */
  predicate Frugal(setup: Setup, w: Work) {
    && !Halts(w.state) && w.state.approved == setup.approved
    && w.state.usage == Usage(w.state.usage.modelTurns, 0, 0, 0.0)
    && !w.state.hadToolCalls && w.state.signatures == [] && w.state.failureCounts == map[]
  }

  /** The same mood after at most as many turns. */
  predicate Below(m: Mood, n: Mood) {
    m.turns <= n.turns && m.(turns := n.turns) == n
  }

  ghost predicate Realises(setup: Setup, node: Node, w: Work, attempts: seq<Try>, n: Mood) {
    && Invoke(setup, node, w, attempts).Some?
    && Frugal(setup, Invoke(setup, node, w, attempts).value)
    && Below(MoodOf(Invoke(setup, node, w, attempts).value), n)
    && AtOnce(attempts)
  }

  function Repeated(attempt: Try, k: nat): seq<Try> {
    if k == 0 then [] else [attempt] + Repeated(attempt, k - 1)
  }

  /** An attempt that changes nothing a second time decides how the node comes out, if it is made every time. */
  lemma {:induction false} SameEveryTime(
    setup: Setup, node: Node, w: Work, attempt: Try, retries: nat, raised: Option<Text>)
    requires Attempted(setup, node, w, attempt).Some?
    requires var next := Attempted(setup, node, w, attempt).value;
      ComesOutFailed(node.role, next.state) ==> Attempted(setup, node, next, attempt) == Some(next)
    ensures Retried(setup, node, w, Repeated(attempt, retries + 1), retries, raised)
         == Some(Restored(Attempted(setup, node, w, attempt).value, RaisedBy(attempt, raised)))
    decreases retries
  {
    var next := Attempted(setup, node, w, attempt).value;
    if ComesOutFailed(node.role, next.state) && retries > 0 {
      assert Repeated(attempt, retries + 1)[1..] == Repeated(attempt, retries);
      SameEveryTime(setup, node, next, attempt, retries - 1, RaisedBy(attempt, raised));
    }
  }

  /** An attempt made at once. */
  function Asking(reply: Reply, detected: Option<string>, test: TestRun): Try {
    Handles(AgentLoop.Input(0.0, 0.0, reply, true, true, detected, Alike(test)), [])
  }

  /** No time has passed when the attempt is made. */
  predicate Prompt(attempt: Try) {
    attempt.Handles? ==> attempt.first.elapsed == 0.0 && attempt.further == []
  }

  predicate AtOnce(attempts: seq<Try>) {
    attempts == [] || (Prompt(attempts[0]) && AtOnce(attempts[1..]))
  }

  lemma {:induction false} RepeatedAtOnce(attempt: Try, k: nat)
    requires Prompt(attempt)
    ensures AtOnce(Repeated(attempt, k))
  {
    if k > 0 {
      RepeatedAtOnce(attempt, k - 1);
    }
  }

  const RAISE := Raises("exception")

  const ANSWER := AgentNodes.Turn([], 0, 0.0)

  const SILENCE := AgentNodes.Raised("")

  const BREAKDOWN := AgentNodes.Raised("model error")

  const PASSED: TestRun := TestResult(Done, Some(0))

  const FAILING: TestRun := TestResult(Error, Some(1))

  predicate OneOfThree(test: TestRun) {
    test == PASSED || test == FAILING || test == REFUSED
  }

  /** Making an attempt that settles at once, as often as is allowed. */
  lemma {:induction false} Settles(
    setup: Setup, node: Node, w: Work, attempt: Try, next: Work, n: Mood)
    returns (attempts: seq<Try>)
    requires Attempted(setup, node, w, attempt) == Some(next) && Frugal(setup, next) && Below(MoodOf(next), n)
    requires ComesOutFailed(node.role, next.state) ==> Attempted(setup, node, next, attempt) == Some(next)
    requires Prompt(attempt) && (attempt.Raises? ==> HasText(next.state.error))
    ensures Realises(setup, node, w, attempts, n)
  {
    attempts := Repeated(attempt, node.retryLimit + 1);
    RepeatedAtOnce(attempt, node.retryLimit + 1);
    SameEveryTime(setup, node, w, attempt, node.retryLimit, None);
  }

  lemma AfterRaise(setup: Setup, node: Node, w: Work)
    ensures var after := w.state.(error := Some("exception"), status := Running);
      Attempted(setup, node, w, RAISE) == Some(w.(state := after))
  {
  }

  /** A node that stops first and fails by it makes the attempt with what is left. */
  lemma {:induction false} RaisesAndSettles(
    setup: Setup, node: Node, w: Work, attempt: Try, next: Work, n: Mood)
    returns (attempts: seq<Try>)
    requires node.retryLimit >= 1 && (node.role == Tester ==> MoodOf(w).red)
    requires Attempted(setup, node, Attempted(setup, node, w, RAISE).value, attempt) == Some(next)
    requires ComesOutFailed(node.role, next.state) ==> Attempted(setup, node, next, attempt) == Some(next)
    requires Prompt(attempt) && Frugal(setup, next) && Below(MoodOf(next).(pending := true), n)
    ensures Realises(setup, node, w, attempts, n)
  {
    var after := Attempted(setup, node, w, RAISE).value;
    var rest := Repeated(attempt, node.retryLimit);
    attempts := [RAISE] + rest;
    RepeatedAtOnce(attempt, node.retryLimit);
    AfterRaise(setup, node, w);
    SameEveryTime(setup, node, after, attempt, node.retryLimit - 1, Some(RAISE.text));
    RaiseFirst(setup, node, w, rest);
  }

  lemma RaiseFirst(setup: Setup, node: Node, w: Work, rest: seq<Try>)
    requires node.retryLimit >= 1 && (node.role == Tester ==> MoodOf(w).red)
    ensures Invoke(setup, node, w, [RAISE] + rest)
         == Retried(setup, node, Attempted(setup, node, w, RAISE).value, rest, node.retryLimit - 1, Some(RAISE.text))
    ensures AtOnce([RAISE] + rest) <==> AtOnce(rest)
  {
    var attempts := [RAISE] + rest;
    assert attempts[0] == RAISE && attempts[1..] == rest;
    AfterRaise(setup, node, w);
  }

  lemma RaiseRealises(setup: Setup, node: Node, w: Work, n: Mood) returns (attempts: seq<Try>)
    requires Frugal(setup, w) && Below(MoodOf(w).(pending := true, failed := false), n)
    ensures Realises(setup, node, w, attempts, n)
  {
    AfterRaise(setup, node, w);
    var next := Attempted(setup, node, w, RAISE).value;
    AfterRaise(setup, node, next);
    attempts := Settles(setup, node, w, RAISE, next, n);
  }

  lemma PlanRealises(setup: Setup, node: Node, w: Work, m: Mood, n: Mood) returns (attempts: seq<Try>)
    requires Sensible(setup.config.budget) && node.role == Planner
    requires Frugal(setup, w) && Below(MoodOf(w), m) && May(setup, node, m, n)
    ensures Realises(setup, node, w, attempts, n)
  {
    if n.pending && !n.failed {
      attempts := RaiseRealises(setup, node, w, n);
    } else {
      var reply := if n.pending then BREAKDOWN else if n.failed then SILENCE else ANSWER;
      if n.pending {
        FailedPlan(setup, node, w);
      } else {
        FrugalPlan(setup, node, w, reply);
      }
      attempts := Settles(setup, node, w, Asking(reply, None, REFUSED), Planned(setup, w, reply), n);
    }
  }

  function Planned(setup: Setup, w: Work, reply: Reply): Work {
    w.(state := Plan(setup.config, w.state, 0.0, if w.context then reply else AgentNodes.Raised(NO_CONTEXT)))
  }

  lemma FailedPlan(setup: Setup, node: Node, w: Work)
    requires node.role == Planner && Frugal(setup, w)
    ensures var next, attempt := Planned(setup, w, BREAKDOWN), Asking(BREAKDOWN, None, REFUSED);
      && Attempted(setup, node, w, attempt) == Some(next) && Attempted(setup, node, next, attempt) == Some(next)
      && Frugal(setup, next) && MoodOf(next) == MoodOf(w).(pending := true, failed := true)
  {
  }

  /** A plan without use of anything but a turn, or a model error without a text. */
  lemma FrugalPlan(setup: Setup, node: Node, w: Work, reply: Reply)
    requires node.role == Planner && Frugal(setup, w) && Sensible(setup.config.budget)
    requires w.context && CanTurn(setup, MoodOf(w))
    requires reply == SILENCE || (reply == ANSWER && !Awaits(setup))
    ensures var next, m := Planned(setup, w, reply), MoodOf(w);
      && Attempted(setup, node, w, Asking(reply, None, REFUSED)) == Some(next) && Frugal(setup, next)
      && MoodOf(next) == if reply == SILENCE then m.(pending := false, failed := true) else m.(turns := m.turns + 1)
  {
  }

  lemma ExploreRealises(setup: Setup, node: Node, w: Work, m: Mood, n: Mood) returns (attempts: seq<Try>)
    requires node.role == Explorer
    requires Frugal(setup, w) && Below(MoodOf(w), m) && May(setup, node, m, n)
    ensures Realises(setup, node, w, attempts, n)
  {
    var look := Asking(ANSWER, None, REFUSED);
    if n.context && n.pending == m.pending && n.failed == m.failed {
      attempts := Settles(setup, node, w, look, w.(context := true), n);
    } else if n.context == m.context {
      attempts := RaiseRealises(setup, node, w, n);
    } else {
      AfterRaise(setup, node, w);
      attempts := RaisesAndSettles(
        setup, node, w, look, Attempted(setup, node, w, RAISE).value.(context := true), n);
    }
  }

  lemma TurnsRealise(setup: Setup, node: Node, w: Work, m: Mood, n: Mood) returns (attempts: seq<Try>)
    requires Sensible(setup.config.budget) && TakesTurns(node.role)
    requires Frugal(setup, w) && Below(MoodOf(w), m) && May(setup, node, m, n)
    ensures Realises(setup, node, w, attempts, n)
  {
    var cfg := setup.config;
    if n.pending && !n.failed {
      attempts := RaiseRealises(setup, node, w, n);
    } else if m.failed && n.pending == m.pending {
      attempts := Settles(setup, node, w, Asking(BREAKDOWN, None, REFUSED), w, n);
    } else if m.failed {
      var after := Attempted(setup, node, w, RAISE).value;
      AfterRaise(setup, node, w);
      FailedTurn(setup, node, after);
      attempts := RaisesAndSettles(setup, node, w, Asking(BREAKDOWN, None, REFUSED), Broken(setup, after), n);
    } else if n.pending {
      FailedTurn(setup, node, w);
      attempts := Settles(setup, node, w, Asking(BREAKDOWN, None, REFUSED), Broken(setup, w), n);
    } else {
      var reply := if n.failed then SILENCE else ANSWER;
      FrugalTurn(setup, node, w, reply);
      var next := w.(state := Execute(cfg, w.state, 0.0, reply));
      attempts := Settles(setup, node, w, Asking(reply, None, REFUSED), next, n);
    }
  }

  /** The work after a turn in which the model breaks down, unless a budget is exhausted before. */
  function Broken(setup: Setup, w: Work): Work {
    w.(state := Execute(setup.config, w.state, 0.0, BREAKDOWN))
  }

  lemma FailedTurn(setup: Setup, node: Node, w: Work)
    requires TakesTurns(node.role) && Frugal(setup, w) && w.state.status != Failed
    ensures var next := Broken(setup, w);
      && Attempted(setup, node, w, Asking(BREAKDOWN, None, REFUSED)) == Some(next) && Frugal(setup, next)
      && Attempted(setup, node, next, Asking(BREAKDOWN, None, REFUSED)) == Some(next)
      && MoodOf(next) == MoodOf(w).(pending := true, failed := true)
  {
  }

  /** A turn without tool calls, or a model error without a text. */
  lemma FrugalTurn(setup: Setup, node: Node, w: Work, reply: Reply)
    requires TakesTurns(node.role) && Frugal(setup, w) && Sensible(setup.config.budget)
    requires w.state.status != Failed && CanTurn(setup, MoodOf(w))
    requires reply == ANSWER || reply == SILENCE
    ensures var next := w.(state := Execute(setup.config, w.state, 0.0, reply));
      && Attempted(setup, node, w, Asking(reply, None, REFUSED)) == Some(next) && Frugal(setup, next)
      && !HasText(next.state.error) && next.state.testExitCode == w.state.testExitCode
      && (next.state.status == Failed <==> reply != ANSWER)
      && next.state.usage.modelTurns == w.state.usage.modelTurns + if reply == ANSWER then 1 else 0
  {
  }

  /** The work after a tester in which every command runs alike. */
  function Tested(setup: Setup, w: Work, detected: Option<string>, test: TestRun): Work {
    w.(state := Verify(setup.config, w.state, detected, Alike(test)))
  }

  /** The mood it leaves. */
  function AlikeMood(setup: Setup, m: Mood, detected: Option<string>, test: TestRun): Mood {
    if CanRunTests(setup.config, Selected(setup.config, detected)) then
      m.(failed := false, pending := test != PASSED, red := test != PASSED)
    else m.(failed := false, red := false)
  }

  lemma TestedMood(setup: Setup, w: Work, detected: Option<string>, test: TestRun)
    requires Frugal(setup, w) && OneOfThree(test)
    ensures Frugal(setup, Tested(setup, w, detected, test))
    ensures MoodOf(Tested(setup, w, detected, test)) == AlikeMood(setup, MoodOf(w), detected, test)
  {
    var commands := Selected(setup.config, detected);
    if CanRunTests(setup.config, commands) {
      StagesAre(commands, Alike(test), 0);
    }
  }

  lemma TestedTwice(setup: Setup, w: Work, detected: Option<string>, test: TestRun)
    requires Frugal(setup, w)
    ensures Tested(setup, Tested(setup, w, detected, test), detected, test) == Tested(setup, w, detected, test)
  {
  }

  lemma TestAttempt(setup: Setup, node: Node, w: Work, detected: Option<string>, test: TestRun)
    requires node.role == Tester && (test == REFUSED || node.id in setup.testable)
    ensures Attempted(setup, node, w, Asking(ANSWER, detected, test)) == Some(Tested(setup, w, detected, test))
  {
  }

  lemma TestRealises(setup: Setup, node: Node, w: Work, n: Mood, detected: Option<string>, test: TestRun)
    returns (attempts: seq<Try>)
    requires node.role == Tester && Frugal(setup, w)
    requires test == REFUSED || (node.id in setup.testable && OneOfThree(test))
    requires Below(AlikeMood(setup, MoodOf(w), detected, test), n)
    ensures Realises(setup, node, w, attempts, n)
  {
    var next := Tested(setup, w, detected, test);
    TestedMood(setup, w, detected, test);
    TestedTwice(setup, w, detected, test);
    TestAttempt(setup, node, w, detected, test);
    TestAttempt(setup, node, next, detected, test);
    attempts := Settles(setup, node, w, Asking(ANSWER, detected, test), next, n);
  }

  lemma VerifyRealises(setup: Setup, node: Node, w: Work, m: Mood, n: Mood) returns (attempts: seq<Try>)
    requires node.role == Tester
    requires Frugal(setup, w) && Below(MoodOf(w), m) && May(setup, node, m, n)
    ensures Realises(setup, node, w, attempts, n)
  {
    var runs := MayTest(setup.config) && node.id in setup.testable;
    if !MustTest(setup.config) && n.pending == m.pending && !n.red {
      attempts := TestRealises(setup, node, w, n, None, REFUSED);
    } else if runs && !n.pending && !n.red {
      attempts := TestRealises(setup, node, w, n, Some("test"), PASSED);
    } else if n.red && MayTest(setup.config) {
      attempts := TestRealises(setup, node, w, n, Some("test"), if runs then FAILING else REFUSED);
    } else if n.red == m.red {
      attempts := RaiseRealises(setup, node, w, n);
    } else if runs {
      attempts := RaiseThenTest(setup, node, w, n, Some("test"), PASSED);
    } else {
      attempts := RaiseThenTest(setup, node, w, n, None, REFUSED);
    }
  }

  /** A red tester that raises and is then tried again, with the tests passing or none to run. */
  lemma RaiseThenTest(setup: Setup, node: Node, w: Work, n: Mood, detected: Option<string>, test: TestRun)
    returns (attempts: seq<Try>)
    requires node.role == Tester && node.retryLimit >= 1 && Frugal(setup, w) && MoodOf(w).red
    requires test == REFUSED || (node.id in setup.testable && OneOfThree(test))
    requires CanRunTests(setup.config, Selected(setup.config, detected)) ==> test == PASSED
    requires Below(MoodOf(w).(pending := true, failed := false, red := false), n)
    ensures Realises(setup, node, w, attempts, n)
  {
    var after := Attempted(setup, node, w, RAISE).value;
    AfterRaise(setup, node, w);
    TestedMood(setup, after, detected, test);
    TestAttempt(setup, node, after, detected, test);
    attempts := RaisesAndSettles(
      setup, node, w, Asking(ANSWER, detected, test), Tested(setup, after, detected, test), n);
  }

  /** Every mood a role may leave is left after some attempts, and nothing but model turns need be used. */
  lemma {:induction false} MayRealises(setup: Setup, node: Node, w: Work, m: Mood, n: Mood)
    returns (attempts: seq<Try>)
    requires Sensible(setup.config.budget)
    requires Frugal(setup, w) && Below(MoodOf(w), m) && May(setup, node, m, n)
    ensures Realises(setup, node, w, attempts, n)
  {
    match node.role
    case Planner => attempts := PlanRealises(setup, node, w, m, n);
    case Explorer => attempts := ExploreRealises(setup, node, w, m, n);
    case Tester => attempts := VerifyRealises(setup, node, w, m, n);
    case _ => attempts := TurnsRealise(setup, node, w, m, n);
  }
}
