/** The default agent graph as a state machine over its nodes, and what every one of its runs keeps. */
module AgentLoop {
  import opened Results
  import opened AgentNodes

  datatype Node = Intake | Discover | Planner | Awaiting | Prepare_ | Executing | Verifier | Repairer | Finalizer | End

  /**
   * What the outside world answers during one step: the clock, the model, the operator, the workspace and the tests.
   */
  datatype Input = Input(
    elapsed: real,
    later: real,
    reply: Reply,
    granted: bool,
    isolated: bool,
    detected: Option<string>,
    tests: int -> TestRun)

  /** A run: the node about to act, the state, and how many execute steps were taken. */
  datatype Run = Run(node: Node, state: State, executes: nat)

  function AfterPlan(s: State): Node {
    if s.status == Failed then End else if s.status == AwaitingApproval then Awaiting else Prepare_
  }

  function AfterExecute(cfg: Config, s: State, elapsed: real): Node {
    if IsInterrupted(s) then Finalizer
    else if s.status == Failed then Verifier
    else if s.termination == Some(ToolLoop) then Verifier
    else if OverBudget(s, cfg.budget, elapsed) then Verifier
    else if s.hadToolCalls && s.iterations < cfg.maxToolIterations then Executing
    else Verifier
  }

  function AfterVerify(cfg: Config, s: State): Node {
    if IsInterrupted(s) then Finalizer
    else if NonZero(s.testExitCode) && s.repairRounds < cfg.maxRepairRounds then Repairer
    else Finalizer
  }

  function Step(cfg: Config, r: Run, input: Input): Run {
    match r.node
    case Intake => Run(Discover, r.state.(status := Planning), r.executes)
    case Discover => Run(Planner, r.state, r.executes)
    case Planner =>
      var s := Plan(cfg, r.state, input.elapsed, input.reply);
      Run(AfterPlan(s), s, r.executes)
    case Awaiting =>
      var s := Await(r.state, input.granted);
      Run(if s.status == Running then Prepare_ else End, s, r.executes)
    case Prepare_ => Run(Executing, Prepare(r.state, input.isolated), r.executes)
    case Executing =>
      var s := Execute(cfg, r.state, input.elapsed, input.reply);
      Run(AfterExecute(cfg, s, input.later), s, r.executes + 1)
    case Verifier =>
      var s := Verify(cfg, r.state, input.detected, input.tests);
      Run(AfterVerify(cfg, s), s, r.executes)
    case Repairer => Run(Executing, Repair(r.state), r.executes)
    case Finalizer => Run(End, Finalize(cfg, r.state, input.elapsed), r.executes)
    case End => r
  }

  function Start(approved: bool): Run {
    Run(Intake, Initial(approved), 0)
  }

  /** The run after the given inputs, one per step. */
  function After(cfg: Config, approved: bool, inputs: seq<Input>): Run {
    if inputs == [] then Start(approved)
    else Step(cfg, After(cfg, approved, inputs[..|inputs| - 1]), inputs[|inputs| - 1])
  }

  // ---- what every run keeps ----------------------------------------------------------------

  ghost predicate Sound(cfg: Config, r: Run) {
    && Accounted(cfg, r.state)
    && r.state.termination != Some(Stopped)
    && (r.node != End ==> r.state.status != Interrupted && r.state.status != Succeeded)
    && (r.node == Intake ==> r.state.status == Pending && r.state.termination.None?)
    && (r.node == Discover || r.node == Planner ==> r.state.status == Planning && r.state.termination.None?)
    && (r.node == Awaiting ==> r.state.termination == Some(WaitingForApproval))
    && (r.node == Repairer || r.node == Finalizer ==> Verified(cfg, r.state))
    && (r.node == End && r.state.status == Succeeded ==>
          && Verified(cfg, r.state) && !Sticky(r.state.termination)
          && (r.state.verdict == AllPassed || r.state.verdict == Skipped))
  }

  lemma FinalizeSound(cfg: Config, s: State, elapsed: real)
    requires Verified(cfg, s) && s.status != Interrupted && s.termination != Some(Stopped)
    ensures var next := Finalize(cfg, s, elapsed);
      && (next.status == Succeeded || next.status == Failed) && next.termination != Some(Stopped)
      && (Sticky(s.termination) ==> next.status == Failed && Sticky(next.termination))
      && (next.status == Succeeded ==>
            Verified(cfg, next) && !Sticky(next.termination) && (next.verdict == AllPassed || next.verdict == Skipped))
  {
    var next := Finalize(cfg, s, elapsed);
    assert AllCommandsPassed(next) <==> AllCommandsPassed(s);
  }

  lemma {:induction false} ExecuteStepSound(cfg: Config, r: Run, input: Input)
    requires Sound(cfg, r) && r.node == Executing
    ensures Sound(cfg, Step(cfg, r, input))
  {
    ExecuteAccounts(cfg, r.state, input.elapsed, input.reply);
  }

  /** Verify keeps what was executed and why the run stopped. */
  lemma VerifyFacts(cfg: Config, s: State, detected: Option<string>, tests: int -> TestRun)
    requires s.status != Interrupted
    ensures var next := Verify(cfg, s, detected, tests);
      next.status == Verifying && next.termination == s.termination && next.usage == s.usage && next.calls == s.calls
      && next.mutated == s.mutated && next.repairRounds == s.repairRounds && next.iterations == s.iterations
  {
  }

  lemma VerifyStepSound(cfg: Config, r: Run, input: Input)
    requires Sound(cfg, r) && r.node == Verifier
    ensures Sound(cfg, Step(cfg, r, input))
  {
    VerifyVerifies(cfg, r.state, input.detected, input.tests);
    VerifyFacts(cfg, r.state, input.detected, input.tests);
  }

  lemma EarlyStepSound(cfg: Config, r: Run, input: Input)
    requires Sound(cfg, r)
    requires r.node == Intake || r.node == Discover || r.node == Planner || r.node == Awaiting || r.node == Prepare_
    ensures Sound(cfg, Step(cfg, r, input))
  {
  }

  lemma {:induction false} StepKeepsSound(cfg: Config, r: Run, input: Input)
    requires Sound(cfg, r)
    ensures Sound(cfg, Step(cfg, r, input))
  {
    match r.node
    case Executing => ExecuteStepSound(cfg, r, input);
    case Verifier => VerifyStepSound(cfg, r, input);
    case Finalizer => FinalizeSound(cfg, r.state, input.elapsed);
    case Repairer =>
    case End =>
    case _ => EarlyStepSound(cfg, r, input);
  }

  lemma {:induction false} RunSound(cfg: Config, approved: bool, inputs: seq<Input>)
    ensures Sound(cfg, After(cfg, approved, inputs))
  {
    if inputs != [] {
      RunSound(cfg, approved, inputs[..|inputs| - 1]);
      StepKeepsSound(cfg, After(cfg, approved, inputs[..|inputs| - 1]), inputs[|inputs| - 1]);
    }
  }

  /** Step v was a verify with the present selection, every command of which passed, and no call was run since. */
  ghost predicate VerifiedAt(cfg: Config, approved: bool, inputs: seq<Input>, v: nat) {
    && v < |inputs| && After(cfg, approved, inputs[..v]).node == Verifier
    && var s := After(cfg, approved, inputs).state;
    && After(cfg, approved, inputs[..v]).state.calls == s.calls
    && s.selected != [] && IsSelection(cfg, inputs[v].detected, s.selected)
    && forall k: nat :: k < |s.selected| ==> Green(inputs[v].tests(k))
  }

  /** A verdict that everything passed goes back to such a step. */
  ghost predicate Backed(cfg: Config, approved: bool, inputs: seq<Input>) {
    var r := After(cfg, approved, inputs);
    && r.state.verdict == AllPassed
    && (r.node == Repairer || r.node == Finalizer || (r.node == End && r.state.status == Succeeded))
    ==> exists v :: VerifiedAt(cfg, approved, inputs, v)
  }

  lemma {:induction false} FirstRedExists(tests: int -> TestRun, n: nat)
    requires exists k: nat :: k < n && !Green(tests(k))
    ensures exists k: nat :: k < n && FirstRed(tests, k)
  {
    if exists k: nat :: k < n - 1 && !Green(tests(k)) {
      FirstRedExists(tests, n - 1);
    } else {
      assert FirstRed(tests, n - 1);
    }
  }

  lemma PassedIsGreen(cfg: Config, s: State, detected: Option<string>, tests: int -> TestRun)
    requires s.status != Interrupted && Verify(cfg, s, detected, tests).verdict == AllPassed
    ensures var selected := Verify(cfg, s, detected, tests).selected;
      && selected != [] && IsSelection(cfg, detected, selected)
      && forall k: nat :: k < |selected| ==> Green(tests(k))
  {
    VerdictIs(cfg, s, detected, tests);
    var n := |Verify(cfg, s, detected, tests).selected|;
    if exists k: nat :: k < n && !Green(tests(k)) {
      FirstRedExists(tests, n);
    }
  }

  lemma VerifiedStays(cfg: Config, approved: bool, inputs: seq<Input>, input: Input, v: nat)
    requires VerifiedAt(cfg, approved, inputs, v)
    requires var r, next := After(cfg, approved, inputs), After(cfg, approved, inputs + [input]);
      next.state.calls == r.state.calls && next.state.selected == r.state.selected
    ensures VerifiedAt(cfg, approved, inputs + [input], v)
  {
    assert (inputs + [input])[..v] == inputs[..v];
  }

  lemma VerifyStepBacked(cfg: Config, approved: bool, inputs: seq<Input>, input: Input)
    requires After(cfg, approved, inputs).node == Verifier
    ensures Backed(cfg, approved, inputs + [input])
  {
    var r, all := After(cfg, approved, inputs), inputs + [input];
    assert all[..|inputs|] == inputs;
    RunSound(cfg, approved, inputs);
    VerifyFacts(cfg, r.state, input.detected, input.tests);
    if After(cfg, approved, all).state.verdict == AllPassed {
      PassedIsGreen(cfg, r.state, input.detected, input.tests);
      assert VerifiedAt(cfg, approved, all, |inputs|);
    }
  }

  lemma EndingKeeps(cfg: Config, r: Run, input: Input)
    requires r.node == Finalizer || r.node == End
    ensures var next := Step(cfg, r, input);
      && next.node == End && next.state.calls == r.state.calls && next.state.selected == r.state.selected
      && next.state.verdict == r.state.verdict && (r.node == End ==> next == r)
  {
  }

  lemma FinalStepBacked(cfg: Config, approved: bool, inputs: seq<Input>, input: Input)
    requires Backed(cfg, approved, inputs)
    requires After(cfg, approved, inputs).node == Finalizer || After(cfg, approved, inputs).node == End
    ensures Backed(cfg, approved, inputs + [input])
  {
    assert (inputs + [input])[..|inputs|] == inputs;
    EndingKeeps(cfg, After(cfg, approved, inputs), input);
    if v :| VerifiedAt(cfg, approved, inputs, v) {
      VerifiedStays(cfg, approved, inputs, input, v);
    }
  }

  lemma {:induction false} RunBacked(cfg: Config, approved: bool, inputs: seq<Input>)
    ensures Backed(cfg, approved, inputs)
  {
    if inputs != [] {
      var front, last := inputs[..|inputs| - 1], inputs[|inputs| - 1];
      assert inputs == front + [last];
      RunBacked(cfg, approved, front);
      RunSound(cfg, approved, front);
      match After(cfg, approved, front).node
      case Verifier => VerifyStepBacked(cfg, approved, front, last);
      case Finalizer => FinalStepBacked(cfg, approved, front, last);
      case End => FinalStepBacked(cfg, approved, front, last);
      case _ =>
    }
  }

  /**
   * A run that ends succeeded after any call outside the read-only tools carries an explicit waiver, or a verify after
   * its last call ran every configured command, or else the test command, or else the detected one, and each passed.
   */
  lemma {:induction false} SuccessIsVerified(cfg: Config, approved: bool, inputs: seq<Input>)
    requires After(cfg, approved, inputs).state.status == Succeeded
    requires Mutates(After(cfg, approved, inputs).state.calls)
    ensures var s := After(cfg, approved, inputs).state;
      (s.waived && cfg.allowUnverified)
      || (s.verdict == AllPassed && AllCommandsPassed(s) && exists v :: VerifiedAt(cfg, approved, inputs, v))
  {
    RunSound(cfg, approved, inputs);
    RunBacked(cfg, approved, inputs);
  }

  /**
   * Whatever the model asks for, recorded model turns and tool calls stay within their budgets, and no call goes
   * unrecorded.
   */
  lemma {:induction false} BudgetsHold(cfg: Config, approved: bool, inputs: seq<Input>)
    ensures var s := After(cfg, approved, inputs).state;
      && s.usage.modelTurns <= cfg.budget.maxModelTurns
      && |s.calls| == s.usage.toolCalls <= cfg.budget.maxToolCalls
  {
    RunSound(cfg, approved, inputs);
  }

  // ---- sticky reasons ----------------------------------------------------------------------

  lemma StickyStep(cfg: Config, r: Run, input: Input)
    requires Sound(cfg, r) && Sticky(r.state.termination)
    ensures var next := Step(cfg, r, input); Sticky(next.state.termination) && next.state.status != Succeeded
  {
    match r.node
    case Finalizer => FinalizeSound(cfg, r.state, input.elapsed);
    case Executing =>
    case Verifier => VerifyFacts(cfg, r.state, input.detected, input.tests);
    case _ =>
  }

  /** Once a budget, model, loop or runtime-error reason is recorded, it stays and the run never ends succeeded. */
  lemma {:induction false} StickyForever(cfg: Config, approved: bool, inputs: seq<Input>, more: seq<Input>)
    requires Sticky(After(cfg, approved, inputs).state.termination)
    ensures var s := After(cfg, approved, inputs + more).state; Sticky(s.termination) && s.status != Succeeded
    decreases |more|
  {
    if more == [] {
      assert inputs + more == inputs;
      RunSound(cfg, approved, inputs);
    } else {
      var front := more[..|more| - 1];
      var all := inputs + more;
      assert all[..|all| - 1] == inputs + front && all[|all| - 1] == more[|more| - 1];
      StickyForever(cfg, approved, inputs, front);
      RunSound(cfg, approved, inputs + front);
      StickyStep(cfg, After(cfg, approved, inputs + front), more[|more| - 1]);
    }
  }

  /** Only a failed preparation brings a failed run to execute, so its reason is sticky. */
  ghost predicate FailedForGood(r: Run) {
    && (r.node == Prepare_ ==> r.state.status != Failed)
    && (r.node == Executing && r.state.status == Failed ==> Sticky(r.state.termination))
    && (r.node == Repairer ==> r.state.status == Verifying)
  }

  lemma {:induction false} RunFailsForGood(cfg: Config, approved: bool, inputs: seq<Input>)
    ensures FailedForGood(After(cfg, approved, inputs))
  {
    if inputs != [] {
      RunSound(cfg, approved, inputs[..|inputs| - 1]);
      RunFailsForGood(cfg, approved, inputs[..|inputs| - 1]);
      StepFailsForGood(cfg, After(cfg, approved, inputs[..|inputs| - 1]), inputs[|inputs| - 1]);
    }
  }

  lemma StepFailsForGood(cfg: Config, r: Run, input: Input)
    requires Sound(cfg, r) && FailedForGood(r)
    ensures FailedForGood(Step(cfg, r, input))
  {
    match r.node
    case Verifier => VerifyFacts(cfg, r.state, input.detected, input.tests);
    case _ =>
  }

  lemma FailureIsSticky(cfg: Config, s: State, elapsed: real, reply: Reply)
    requires s.status != Interrupted && !RunsTurn(cfg, s, elapsed, reply)
    requires s.status == Failed ==> Sticky(s.termination)
    ensures var next := Execute(cfg, s, elapsed, reply);
      && next.status == Failed && Sticky(next.termination)
      && next.calls == s.calls && next.usage.toolCalls == s.usage.toolCalls
  {
  }

  /** A step that does not run its turn leaves execution with a sticky reason and no call run. */
  lemma FailedExecuteLeaves(cfg: Config, r: Run, input: Input)
    requires r.node == Executing && r.state.status != Interrupted && FailedForGood(r)
    requires !RunsTurn(cfg, r.state, input.elapsed, input.reply)
    ensures var next := Step(cfg, r, input);
      && next.state.calls == r.state.calls && next.state.usage.toolCalls == r.state.usage.toolCalls
      && next.node == Verifier && Sticky(next.state.termination)
  {
    FailureIsSticky(cfg, r.state, input.elapsed, input.reply);
  }

  /**
   * In any run, a turn whose calls would overflow the tool budget runs none of them and leaves execution, and whatever
   * follows, the run does not end succeeded.
   */
  lemma {:induction false} OverflowRunsNothing(
    cfg: Config, approved: bool, inputs: seq<Input>, input: Input, more: seq<Input>)
    requires After(cfg, approved, inputs).node == Executing && input.reply.Turn?
    requires After(cfg, approved, inputs).state.usage.toolCalls + |input.reply.attempts| > cfg.budget.maxToolCalls
    ensures var r, next := After(cfg, approved, inputs), After(cfg, approved, inputs + [input]);
      && next.state.calls == r.state.calls && next.state.usage.toolCalls == r.state.usage.toolCalls
      && next.node == Verifier
    ensures After(cfg, approved, inputs + [input] + more).state.status != Succeeded
  {
    assert (inputs + [input])[..|inputs|] == inputs;
    RunSound(cfg, approved, inputs);
    RunFailsForGood(cfg, approved, inputs);
    FailedExecuteLeaves(cfg, After(cfg, approved, inputs), input);
    RunSound(cfg, approved, inputs + [input]);
    StickyForever(cfg, approved, inputs + [input], more);
  }

  // ---- termination -------------------------------------------------------------------------

  /** Execute steps a round can take, and repair rounds a run can take. */
  function RoundLength(cfg: Config): nat {
    if cfg.maxToolIterations > 1 then cfg.maxToolIterations else 1
  }

  function Rounds(cfg: Config): nat {
    if cfg.maxRepairRounds > 0 then cfg.maxRepairRounds else 0
  }

  /** n times k, by repeated addition. */
  function Times(n: nat, k: nat): nat {
    if n == 0 then 0 else Times(n - 1, k) + k
  }

  lemma {:induction false} TimesIsProduct(n: nat, k: nat)
    ensures Times(n, k) == n * k
  {
    if n > 0 {
      TimesIsProduct(n - 1, k);
    }
  }

  lemma {:induction false} TimesGrows(a: nat, b: nat, k: nat)
    requires a <= b
    ensures Times(a, k) <= Times(b, k)
    decreases b
  {
    if a < b {
      TimesGrows(a, b - 1, k);
    }
  }

  predicate BeforeExecute(node: Node) {
    node == Intake || node == Discover || node == Planner || node == Awaiting || node == Prepare_
  }

  /** How far the counters have come at a node, when a round has at most k execute steps. */
  ghost predicate Counted(k: nat, rounds: nat, node: Node, iterations: nat, repairs: nat, executes: nat) {
    && repairs <= rounds
    && (BeforeExecute(node) ==> executes == 0 && iterations == 0 && repairs == 0)
    && (node == Executing ==> iterations < k && executes <= Times(repairs, k) + iterations)
    && (node == Repairer ==> repairs < rounds)
    && executes <= Times(repairs, k) + k
  }

  ghost predicate Bounded(cfg: Config, r: Run) {
    Counted(RoundLength(cfg), Rounds(cfg), r.node, r.state.iterations, r.state.repairRounds, r.executes)
  }

  /** At most this many steps are left: the rounds still to come, and what the node has before it in its own round. */
  ghost function StepsLeft(cfg: Config, r: Run): nat
    requires Bounded(cfg, r)
  {
    Times(Rounds(cfg) - r.state.repairRounds, RoundLength(cfg) + 2)
    + InRound(RoundLength(cfg), r.node, r.state.iterations)
  }

  function InRound(k: nat, node: Node, iterations: nat): nat
    requires node == Executing ==> iterations < k
  {
    match node
    case Intake => k + 7
    case Discover => k + 6
    case Planner => k + 5
    case Awaiting => k + 4
    case Prepare_ => k + 3
    case Executing => k - iterations + 2
    case Verifier => 2
    case Repairer => 1
    case Finalizer => 1
    case End => 0
  }

  lemma EarlyStepBounded(cfg: Config, r: Run, input: Input)
    requires Sound(cfg, r) && Bounded(cfg, r) && (BeforeExecute(r.node) || r.node == Finalizer)
    ensures Bounded(cfg, Step(cfg, r, input))
    ensures StepsLeft(cfg, Step(cfg, r, input)) < StepsLeft(cfg, r)
      || (Step(cfg, r, input).node == End && StepsLeft(cfg, r) > 0)
  {
  }

  lemma RepairStepBounded(cfg: Config, r: Run, input: Input)
    requires Bounded(cfg, r) && r.node == Repairer
    ensures Bounded(cfg, Step(cfg, r, input))
    ensures StepsLeft(cfg, Step(cfg, r, input)) < StepsLeft(cfg, r)
  {
  }

  lemma AfterExecuteFacts(cfg: Config, s: State, later: real)
    requires !IsInterrupted(s)
    ensures var node := AfterExecute(cfg, s, later);
      node == Verifier || (node == Executing && s.status != Failed && s.iterations < cfg.maxToolIterations)
  {
  }

  lemma CountExecute(k: nat, rounds: nat, iterations: nat, repairs: nat, executes: nat, next: Node, iterations': nat)
    requires Counted(k, rounds, Executing, iterations, repairs, executes)
    requires next == Verifier || (next == Executing && iterations' == iterations + 1 < k)
    ensures Counted(k, rounds, next, iterations', repairs, executes + 1)
    ensures InRound(k, next, iterations') < InRound(k, Executing, iterations)
  {
  }

  lemma ExecuteStepBounded(cfg: Config, r: Run, input: Input)
    requires Sound(cfg, r) && Bounded(cfg, r) && r.node == Executing
    ensures Bounded(cfg, Step(cfg, r, input))
    ensures StepsLeft(cfg, Step(cfg, r, input)) < StepsLeft(cfg, r)
  {
    var s := Execute(cfg, r.state, input.elapsed, input.reply);
    AfterExecuteFacts(cfg, s, input.later);
    CountExecute(RoundLength(cfg), Rounds(cfg), r.state.iterations, r.state.repairRounds, r.executes,
                 AfterExecute(cfg, s, input.later), s.iterations);
  }

  lemma VerifyStepBounded(cfg: Config, r: Run, input: Input)
    requires Sound(cfg, r) && Bounded(cfg, r) && r.node == Verifier
    ensures Bounded(cfg, Step(cfg, r, input))
    ensures StepsLeft(cfg, Step(cfg, r, input)) < StepsLeft(cfg, r)
  {
    VerifyFacts(cfg, r.state, input.detected, input.tests);
  }

  lemma {:induction false} StepBounded(cfg: Config, r: Run, input: Input)
    requires Sound(cfg, r) && Bounded(cfg, r) && r.node != End
    ensures Bounded(cfg, Step(cfg, r, input))
    ensures StepsLeft(cfg, Step(cfg, r, input)) < StepsLeft(cfg, r)
  {
    match r.node
    case Executing => ExecuteStepBounded(cfg, r, input);
    case Verifier => VerifyStepBounded(cfg, r, input);
    case Repairer => RepairStepBounded(cfg, r, input);
    case _ => EarlyStepBounded(cfg, r, input);
  }

  lemma {:induction false} RunBounded(cfg: Config, approved: bool, inputs: seq<Input>)
    ensures var r := After(cfg, approved, inputs);
      Bounded(cfg, r)
      && (r.node == End || (StepsLeft(cfg, r) > 0
            && StepsLeft(cfg, r) + |inputs| <= Times(Rounds(cfg), RoundLength(cfg) + 2) + RoundLength(cfg) + 7))
  {
    if inputs != [] {
      var front := inputs[..|inputs| - 1];
      RunBounded(cfg, approved, front);
      RunSound(cfg, approved, front);
      if After(cfg, approved, front).node != End {
        StepBounded(cfg, After(cfg, approved, front), inputs[|inputs| - 1]);
      }
    }
  }

  lemma RunEnds(cfg: Config, approved: bool, inputs: seq<Input>)
    ensures After(cfg, approved, inputs).executes <= Times(Rounds(cfg) + 1, RoundLength(cfg))
    ensures |inputs| >= Times(Rounds(cfg) + 1, RoundLength(cfg) + 2) + 5 ==> After(cfg, approved, inputs).node == End
  {
    RunBounded(cfg, approved, inputs);
    TimesGrows(After(cfg, approved, inputs).state.repairRounds, Rounds(cfg), RoundLength(cfg));
  }

  /**
   * Every run ends, whatever the model, tools, tests, operator and clock do, and takes at most
   * (max repair rounds + 1) * max(1, max tool iterations) execute steps on the way.
   */
  lemma {:induction false} EveryRunEnds(cfg: Config, approved: bool, inputs: seq<Input>)
    ensures var rounds := 1 + if cfg.maxRepairRounds > 0 then cfg.maxRepairRounds else 0;
      var turns := if cfg.maxToolIterations > 1 then cfg.maxToolIterations else 1;
      && After(cfg, approved, inputs).executes <= rounds * turns
      && (|inputs| >= rounds * (turns + 2) + 5 ==> After(cfg, approved, inputs).node == End)
  {
    RunEnds(cfg, approved, inputs);
    TimesIsProduct(Rounds(cfg) + 1, RoundLength(cfg));
    TimesIsProduct(Rounds(cfg) + 1, RoundLength(cfg) + 2);
  }

  // ---- the workflow's inner loop -----------------------------------------------------------

  /** A workflow node keeps executing while the last turn called tools and iterations are left. */
  predicate KeepsExecuting(cfg: Config, s: State) {
    s.hadToolCalls && s.iterations < cfg.maxToolIterations
  }

  /** The state after the loop has consumed the given inputs, or stopped. */
  function InnerLoop(cfg: Config, s: State, inputs: seq<Input>): State
    decreases |inputs|
  {
    if inputs == [] || !KeepsExecuting(cfg, s) then s
    else InnerLoop(cfg, Execute(cfg, s, inputs[0].elapsed, inputs[0].reply), inputs[1..])
  }

  /** The guards of the branches in which an execute step does nothing or fails. */
  predicate Fails(cfg: Config, s: State, input: Input) {
    || s.status == Interrupted || s.status == Failed || OverBudget(s, cfg.budget, input.elapsed)
    || input.reply.Raised? || s.usage.toolCalls + |input.reply.attempts| > cfg.budget.maxToolCalls
  }

  /** One of the inputs, while the loop is running, meets such a guard. */
  predicate SomeFails(cfg: Config, s: State, inputs: seq<Input>)
    decreases |inputs|
  {
    && inputs != [] && KeepsExecuting(cfg, s)
    && (Fails(cfg, s, inputs[0])
        || SomeFails(cfg, Execute(cfg, s, inputs[0].elapsed, inputs[0].reply), inputs[1..]))
  }

  /** Once an execute has failed with iterations left, the loop repeats the same state for ever. */
  lemma {:induction false} FailedLoopIsStuck(cfg: Config, s: State, inputs: seq<Input>)
    requires s.status == Failed || s.status == Interrupted
    ensures InnerLoop(cfg, s, inputs) == s
    decreases |inputs|
  {
    if inputs != [] && KeepsExecuting(cfg, s) {
      FailedLoopIsStuck(cfg, s, inputs[1..]);
    }
  }

  lemma FailingExecute(cfg: Config, s: State, input: Input)
    requires KeepsExecuting(cfg, s)
    ensures var next := Execute(cfg, s, input.elapsed, input.reply);
      if Fails(cfg, s, input) then (next.status == Failed || next.status == Interrupted) && KeepsExecuting(cfg, next)
      else next.status == Running && next.iterations == s.iterations + 1
  {
  }

  /**
   * Given inputs for the iterations left, the workflow's inner loop runs on if and only if one of them meets a budget,
   * a model error, a turn too large for the tool budget or an already failed state; and then it never ends.
   */
  lemma {:induction false} InnerLoopRunsOnIff(cfg: Config, s: State, inputs: seq<Input>)
    requires |inputs| >= cfg.maxToolIterations - s.iterations
    ensures KeepsExecuting(cfg, InnerLoop(cfg, s, inputs)) <==> SomeFails(cfg, s, inputs)
    decreases |inputs|
  {
    if KeepsExecuting(cfg, s) {
      var next := Execute(cfg, s, inputs[0].elapsed, inputs[0].reply);
      FailingExecute(cfg, s, inputs[0]);
      if Fails(cfg, s, inputs[0]) {
        FailedLoopIsStuck(cfg, next, inputs[1..]);
      } else {
        InnerLoopRunsOnIff(cfg, next, inputs[1..]);
      }
    }
  }

  /** From the first failure on, no further inputs change anything. */
  lemma {:induction false} RunsOnForever(cfg: Config, s: State, inputs: seq<Input>, more: seq<Input>)
    requires SomeFails(cfg, s, inputs)
    ensures InnerLoop(cfg, s, inputs + more) == InnerLoop(cfg, s, inputs)
      && KeepsExecuting(cfg, InnerLoop(cfg, s, inputs))
    decreases |inputs|
  {
    var next := Execute(cfg, s, inputs[0].elapsed, inputs[0].reply);
    assert (inputs + more)[1..] == inputs[1..] + more;
    FailingExecute(cfg, s, inputs[0]);
    if Fails(cfg, s, inputs[0]) {
      FailedLoopIsStuck(cfg, next, inputs[1..]);
      FailedLoopIsStuck(cfg, next, inputs[1..] + more);
    } else {
      RunsOnForever(cfg, next, inputs[1..], more);
    }
  }

  /** Any budget running out inside the loop is such a failure: the loop never ends again. */
  lemma {:induction false} BudgetLoopsForever(cfg: Config, s: State, input: Input, more: seq<Input>)
    requires KeepsExecuting(cfg, s) && s.status == Running && OverBudget(s, cfg.budget, input.elapsed)
    ensures KeepsExecuting(cfg, InnerLoop(cfg, s, [input] + more))
    ensures InnerLoop(cfg, s, [input] + more) == BudgetFailure(s)
  {
    assert ([input] + more)[1..] == more;
    FailedLoopIsStuck(cfg, BudgetFailure(s), more);
  }
}
