/** What single decisions of the default agent graph lead to, in whole runs of it. */
module AgentOutcomes {
  import opened Results
  import opened AgentNodes
  import opened AgentLoop

  lemma Snoc(cfg: Config, approved: bool, inputs: seq<Input>, input: Input)
    ensures After(cfg, approved, inputs + [input]) == Step(cfg, After(cfg, approved, inputs), input)
  {
    assert (inputs + [input])[..|inputs|] == inputs;
  }

  lemma {:induction false} EndStays(cfg: Config, approved: bool, inputs: seq<Input>, more: seq<Input>)
    requires After(cfg, approved, inputs).node == End
    ensures After(cfg, approved, inputs + more) == After(cfg, approved, inputs)
    decreases |more|
  {
    if more == [] {
      assert inputs + more == inputs;
    } else {
      var front, last := more[..|more| - 1], more[|more| - 1];
      assert inputs + more == inputs + front + [last];
      EndStays(cfg, approved, inputs, front);
      Snoc(cfg, approved, inputs + front, last);
    }
  }

  /** Calls are run by execute steps only. */
  predicate Untouched(r: Run) {
    && (BeforeExecute(r.node) ==> r.executes == 0)
    && (r.executes == 0 ==> r.state.calls == [])
  }

  lemma UntouchedStep(cfg: Config, r: Run, input: Input)
    requires Sound(cfg, r) && Untouched(r)
    ensures Untouched(Step(cfg, r, input))
  {
    match r.node
    case Verifier => VerifyFacts(cfg, r.state, input.detected, input.tests);
    case Executing =>
    case Finalizer =>
    case _ =>
  }

  lemma {:induction false} NothingRunYet(cfg: Config, approved: bool, inputs: seq<Input>)
    ensures Untouched(After(cfg, approved, inputs))
  {
    if inputs != [] {
      NothingRunYet(cfg, approved, inputs[..|inputs| - 1]);
      RunSound(cfg, approved, inputs[..|inputs| - 1]);
      UntouchedStep(cfg, After(cfg, approved, inputs[..|inputs| - 1]), inputs[|inputs| - 1]);
    }
  }

  // ---- planning and approval ---------------------------------------------------------------

  /** A plan waits for approval exactly when approval is required, files may be touched and none was given. */
  lemma {:induction false} PlanWaitsIff(cfg: Config, approved: bool, inputs: seq<Input>, input: Input)
    requires After(cfg, approved, inputs).node == Planner
    ensures var r, next := After(cfg, approved, inputs), After(cfg, approved, inputs + [input]);
      if input.reply.Raised? || OverBudget(r.state, cfg.budget, input.elapsed) then
        next.node == End && next.state.status == Failed
      else
        && next.node == (if cfg.requirePlanApproval && cfg.permission != ReadOnly && !r.state.approved
                         then Awaiting else Prepare_)
        && next.state.usage.modelTurns == r.state.usage.modelTurns + 1
  {
    Snoc(cfg, approved, inputs, input);
    RunSound(cfg, approved, inputs);
  }

  /** A denied plan ends the run interrupted, with nothing executed, whatever else comes. */
  lemma {:induction false} DeniedEndsRun(
    cfg: Config, approved: bool, inputs: seq<Input>, input: Input, more: seq<Input>)
    requires After(cfg, approved, inputs).node == Awaiting && !input.granted
    ensures var r := After(cfg, approved, inputs + [input] + more);
      && r.node == End && r.state.status == Interrupted && r.state.termination == Some(ApprovalDenied)
      && !r.state.approved && r.executes == 0 && r.state.calls == []
  {
    Snoc(cfg, approved, inputs, input);
    NothingRunYet(cfg, approved, inputs);
    EndStays(cfg, approved, inputs + [input], more);
  }

  /** A granted plan goes on to the workspace and then to execute, approved. */
  lemma {:induction false} GrantedGoesOn(
    cfg: Config, approved: bool, inputs: seq<Input>, input: Input, next: Input)
    requires After(cfg, approved, inputs).node == Awaiting && input.granted
    ensures var r := After(cfg, approved, inputs + [input] + [next]);
      && r.node == Executing && r.state.approved
      && r.state.termination == (if next.isolated then None else Some(RuntimeError))
      && r.state.status == (if next.isolated then Running else Failed)
  {
    Snoc(cfg, approved, inputs, input);
    Snoc(cfg, approved, inputs + [input], next);
  }

  // ---- budgets and loops -------------------------------------------------------------------

  /** Some limit is reached. */
  predicate Exhausted(usage: Usage, budget: Budget, elapsed: real) {
    || usage.modelTurns >= budget.maxModelTurns || usage.toolCalls >= budget.maxToolCalls
    || usage.tokens >= budget.maxTokens || elapsed >= budget.maxDuration as real
    || (budget.maxCost.Some? && usage.cost >= budget.maxCost.value)
  }

  /** Once any limit is reached an execute step asks and runs nothing, and the run does not end succeeded. */
  lemma {:induction false} ExhaustedStops(
    cfg: Config, approved: bool, inputs: seq<Input>, input: Input, more: seq<Input>)
    requires After(cfg, approved, inputs).node == Executing
    requires Exhausted(After(cfg, approved, inputs).state.usage, cfg.budget, input.elapsed)
    ensures var r, next := After(cfg, approved, inputs), After(cfg, approved, inputs + [input]);
      && next.node == Verifier && next.state.status == Failed
      && next.state.calls == r.state.calls && next.state.usage == r.state.usage
      && (r.state.status != Failed ==> next.state.termination == Some(BudgetExhausted))
    ensures After(cfg, approved, inputs + [input] + more).state.status != Succeeded
  {
    Snoc(cfg, approved, inputs, input);
    RunSound(cfg, approved, inputs);
    RunFailsForGood(cfg, approved, inputs);
    FailedExecuteLeaves(cfg, After(cfg, approved, inputs), input);
    RunSound(cfg, approved, inputs + [input]);
    StickyForever(cfg, approved, inputs + [input], more);
  }

  /** What an answered turn adds to the usage. */
  lemma {:induction false} TurnIsCharged(cfg: Config, approved: bool, inputs: seq<Input>, input: Input)
    requires After(cfg, approved, inputs).node == Executing && input.reply.Turn?
    requires RunsTurn(cfg, After(cfg, approved, inputs).state, input.elapsed, input.reply)
    ensures var r, next := After(cfg, approved, inputs), After(cfg, approved, inputs + [input]);
      && next.state.calls == r.state.calls + CallsOf(input.reply.attempts)
      && next.state.usage.modelTurns == r.state.usage.modelTurns + 1
      && next.state.usage.toolCalls == r.state.usage.toolCalls + |input.reply.attempts|
      && next.state.usage.tokens == r.state.usage.tokens + input.reply.tokens
      && next.state.usage.cost == r.state.usage.cost + input.reply.cost
  {
    Snoc(cfg, approved, inputs, input);
  }

  /** Without a loop execution goes on while the turn called tools, iterations are left and no limit is hit. */
  lemma {:induction false} GoesOnIff(cfg: Config, approved: bool, inputs: seq<Input>, input: Input)
    requires After(cfg, approved, inputs).node == Executing
    requires RunsTurn(cfg, After(cfg, approved, inputs).state, input.elapsed, input.reply)
    requires After(cfg, approved, inputs + [input]).state.termination != Some(ToolLoop)
    ensures var r, next := After(cfg, approved, inputs), After(cfg, approved, inputs + [input]);
      && (next.node == Executing || next.node == Verifier)
      && (next.node == Executing <==>
            && input.reply.attempts != [] && r.state.iterations + 1 < cfg.maxToolIterations
            && !Exhausted(next.state.usage, cfg.budget, input.later))
  {
    Snoc(cfg, approved, inputs, input);
    RunSound(cfg, approved, inputs);
  }

  /** How often an attempt of the turn failed for this cause. */
  function Errors(attempts: seq<Attempt>, cause: string): nat {
    if attempts == [] then 0
    else (if attempts[0].status == Error && attempts[0].cause == cause then 1 else 0) + Errors(attempts[1..], cause)
  }

  lemma {:induction false} ErrorsSnoc(attempts: seq<Attempt>, a: Attempt, cause: string)
    ensures Errors(attempts + [a], cause) ==
      Errors(attempts, cause) + if a.status == Error && a.cause == cause then 1 else 0
  {
    if attempts == [] {
      assert ([] + [a])[1..] == [];
    } else {
      assert (attempts + [a])[1..] == attempts[1..] + [a];
      ErrorsSnoc(attempts[1..], a, cause);
    }
  }

  function CountOf(counts: map<string, nat>, cause: string): nat {
    if cause in counts then counts[cause] else 0
  }

  /** The attempt at position i failed for this cause, and none after it failed. */
  ghost predicate LastFailure(attempts: seq<Attempt>, i: nat, cause: string) {
    && i < |attempts| && attempts[i].status == Error && attempts[i].cause == cause
    && forall j :: i < j < |attempts| ==> attempts[j].status != Error
  }

  /** Recording counts each failure under its cause, and the error of a turn is the cause of its last failure. */
  lemma {:induction false} RecordCounts(attempts: seq<Attempt>, counts: map<string, nat>, cause: string)
    ensures var (after, error) := Record(attempts, counts);
      && CountOf(after, cause) == CountOf(counts, cause) + Errors(attempts, cause)
      && (error.None? <==> forall a :: a in attempts ==> a.status != Error)
      && (error.Some? ==> exists i :: LastFailure(attempts, i, error.value))
  {
    if attempts != [] {
      var front, last := attempts[..|attempts| - 1], attempts[|attempts| - 1];
      assert attempts == front + [last];
      RecordCounts(front, counts, cause);
      ErrorsSnoc(front, last, cause);
      var (before, error) := Record(front, counts);
      if last.status != Error && error.Some? {
        var i :| LastFailure(front, i, error.value);
        assert LastFailure(attempts, i, error.value);
      } else if last.status == Error {
        assert LastFailure(attempts, |front|, last.cause);
      }
    }
  }

  /** How often, over a whole run, a call that was run failed for this cause. */
  function AllErrors(cfg: Config, approved: bool, inputs: seq<Input>, cause: string): nat {
    if inputs == [] then 0
    else
      var front, last := inputs[..|inputs| - 1], inputs[|inputs| - 1];
      var r := After(cfg, approved, front);
      AllErrors(cfg, approved, front, cause)
      + if r.node == Executing && RunsTurn(cfg, r.state, last.elapsed, last.reply)
        then Errors(last.reply.attempts, cause) else 0
  }

  /** The state remembers the last six calls, and how often each cause of failure occurred. */
  ghost predicate Remembers(cfg: Config, approved: bool, inputs: seq<Input>) {
    var s := After(cfg, approved, inputs).state;
    && s.signatures == LastSix(s.calls)
    && forall cause :: CountOf(s.failureCounts, cause) == AllErrors(cfg, approved, inputs, cause)
  }

  lemma LastSixAppend(a: seq<Call>, b: seq<Call>)
    ensures LastSix(LastSix(a) + b) == LastSix(a + b)
  {
  }

  lemma TurnRemembered(cfg: Config, approved: bool, inputs: seq<Input>, input: Input)
    requires Remembers(cfg, approved, inputs) && After(cfg, approved, inputs).node == Executing
    requires RunsTurn(cfg, After(cfg, approved, inputs).state, input.elapsed, input.reply)
    ensures Remembers(cfg, approved, inputs + [input])
  {
    var s := After(cfg, approved, inputs).state;
    assert (inputs + [input])[..|inputs|] == inputs;
    LastSixAppend(s.calls, CallsOf(input.reply.attempts));
    forall cause
      ensures CountOf(Record(input.reply.attempts, s.failureCounts).0, cause)
           == AllErrors(cfg, approved, inputs + [input], cause)
    {
      RecordCounts(input.reply.attempts, s.failureCounts, cause);
    }
  }

  /** What is remembered of calls is the same in both states. */
  predicate SameMemory(a: State, b: State) {
    a.calls == b.calls && a.signatures == b.signatures && a.failureCounts == b.failureCounts
  }

  lemma VerifyForgetsNothing(cfg: Config, s: State, detected: Option<string>, tests: int -> TestRun)
    ensures SameMemory(Verify(cfg, s, detected, tests), s)
  {
  }

  lemma FailedTurnForgetsNothing(cfg: Config, s: State, elapsed: real, reply: Reply)
    requires !RunsTurn(cfg, s, elapsed, reply)
    ensures SameMemory(Execute(cfg, s, elapsed, reply), s)
  {
  }

  /** Steps that run no turn leave calls, signatures and counts alone. */
  lemma NothingToRemember(cfg: Config, r: Run, input: Input)
    requires !(r.node == Executing && RunsTurn(cfg, r.state, input.elapsed, input.reply))
    ensures SameMemory(Step(cfg, r, input).state, r.state)
  {
    match r.node
    case Verifier => VerifyForgetsNothing(cfg, r.state, input.detected, input.tests);
    case Executing => FailedTurnForgetsNothing(cfg, r.state, input.elapsed, input.reply);
    case _ =>
  }

  lemma {:induction false} RunRemembers(cfg: Config, approved: bool, inputs: seq<Input>)
    ensures Remembers(cfg, approved, inputs)
  {
    if inputs != [] {
      var front, last := inputs[..|inputs| - 1], inputs[|inputs| - 1];
      var r := After(cfg, approved, front);
      assert inputs == front + [last];
      RunRemembers(cfg, approved, front);
      if r.node == Executing && RunsTurn(cfg, r.state, last.elapsed, last.reply) {
        TurnRemembered(cfg, approved, front, last);
      } else {
        NothingToRemember(cfg, r, last);
      }
    }
  }

  predicate SameThree(calls: seq<Call>) {
    var n := |calls|;
    n >= 3 && calls[n - 1] == calls[n - 2] && calls[n - 2] == calls[n - 3]
  }

  /** The last three calls that were run are the same, or a cause has failed three calls. */
  ghost predicate GoesRound(cfg: Config, approved: bool, inputs: seq<Input>) {
    || SameThree(After(cfg, approved, inputs).state.calls)
    || exists cause :: AllErrors(cfg, approved, inputs, cause) >= 3
  }

  /** A turn after which the run goes round in a loop ends execution for good; any other keeps the reason there is. */
  lemma {:induction false} LoopIsStopped(
    cfg: Config, approved: bool, inputs: seq<Input>, input: Input, more: seq<Input>)
    requires After(cfg, approved, inputs).node == Executing
    requires RunsTurn(cfg, After(cfg, approved, inputs).state, input.elapsed, input.reply)
    ensures var r, next := After(cfg, approved, inputs), After(cfg, approved, inputs + [input]);
      if GoesRound(cfg, approved, inputs + [input]) then
        && next.state.termination == Some(ToolLoop) && next.node == Verifier && HasText(next.state.error)
        && After(cfg, approved, inputs + [input] + more).state.status != Succeeded
      else
        && next.state.termination == r.state.termination
        && next.state.error == Record(input.reply.attempts, r.state.failureCounts).1
  {
    var s, next := After(cfg, approved, inputs).state, After(cfg, approved, inputs + [input]).state;
    Snoc(cfg, approved, inputs, input);
    RunRemembers(cfg, approved, inputs + [input]);
    RunSound(cfg, approved, inputs);
    LoopSeen(cfg, approved, inputs + [input]);
    if GoesRound(cfg, approved, inputs + [input]) {
      StickyForever(cfg, approved, inputs + [input], more);
    }
  }

  lemma SixShowThree(calls: seq<Call>, counts: map<string, nat>)
    ensures Looping(LastSix(calls), counts)
      <==> SameThree(calls) || exists cause :: cause in counts && counts[cause] >= 3
  {
  }

  lemma LoopSeen(cfg: Config, approved: bool, inputs: seq<Input>)
    requires Remembers(cfg, approved, inputs)
    ensures var s := After(cfg, approved, inputs).state;
      Looping(s.signatures, s.failureCounts) <==> GoesRound(cfg, approved, inputs)
  {
    var s := After(cfg, approved, inputs).state;
    SixShowThree(s.calls, s.failureCounts);
    ThriceCounted(s.failureCounts);
    if cause :| CountOf(s.failureCounts, cause) >= 3 {
      assert AllErrors(cfg, approved, inputs, cause) >= 3;
    }
  }

  lemma ThriceCounted(counts: map<string, nat>)
    ensures (exists cause :: cause in counts && counts[cause] >= 3) <==> exists cause :: CountOf(counts, cause) >= 3
  {
    if cause :| CountOf(counts, cause) >= 3 {
      assert cause in counts;
    }
    if cause :| cause in counts && counts[cause] >= 3 {
      assert CountOf(counts, cause) >= 3;
    }
  }

  // ---- repair ------------------------------------------------------------------------------

  /** Verifying with these inputs runs commands, and one of them does not pass. */
  ghost predicate TestsFail(cfg: Config, selected: seq<string>, input: Input) {
    && (cfg.permission == ExecuteCommands || cfg.permission == Full)
    && exists k: nat :: k < |selected| && !Green(input.tests(k))
  }

  lemma FailsIff(cfg: Config, s: State, input: Input)
    requires s.status != Interrupted
    ensures var next := Verify(cfg, s, input.detected, input.tests);
      NonZero(next.testExitCode) <==> TestsFail(cfg, next.selected, input)
  {
    var next := Verify(cfg, s, input.detected, input.tests);
    VerdictIs(cfg, s, input.detected, input.tests);
    var n := |next.selected|;
    if TestsFail(cfg, next.selected, input) {
      FirstRedExists(input.tests, n);
      var k: nat :| k < n && FirstRed(input.tests, k);
      RedHasCode(input.tests, k);
    }
  }

  lemma RedHasCode(tests: int -> TestRun, k: nat)
    requires !Green(tests(k))
    ensures tests(k).exitCode != Some(0)
  {
  }

  /** After failing tests with a repair round left, the run goes back to execute; otherwise it comes to its end. */
  lemma {:induction false} RepairIff(cfg: Config, approved: bool, inputs: seq<Input>, input: Input, next: Input)
    requires After(cfg, approved, inputs).node == Verifier
    ensures var r, v := After(cfg, approved, inputs), After(cfg, approved, inputs + [input]);
      var after := After(cfg, approved, inputs + [input] + [next]);
      if TestsFail(cfg, v.state.selected, input) && r.state.repairRounds < cfg.maxRepairRounds then
        after.node == Executing && after.state.repairRounds == r.state.repairRounds + 1 && after.state.iterations == 0
      else after.node == End && (TestsFail(cfg, v.state.selected, input) ==> after.state.status == Failed)
  {
    Snoc(cfg, approved, inputs, input);
    Snoc(cfg, approved, inputs + [input], next);
    RunSound(cfg, approved, inputs);
    RunSound(cfg, approved, inputs + [input]);
    var r := After(cfg, approved, inputs);
    VerifyFacts(cfg, r.state, input.detected, input.tests);
    FailsIff(cfg, r.state, input);
  }

  // ---- the end -----------------------------------------------------------------------------

  /** How a run that was not stopped ends, and with which reason. */
  lemma {:induction false} EndsAs(cfg: Config, approved: bool, inputs: seq<Input>, input: Input)
    requires After(cfg, approved, inputs).node == Finalizer
    ensures var s, end := After(cfg, approved, inputs).state, After(cfg, approved, inputs + [input]);
      var kept := s.termination;
      var late := kept == None && Exhausted(s.usage, cfg.budget, input.elapsed);
      && end.node == End && end.state.calls == s.calls
      && end.state.status == (if s.verdict == SomeFailed || s.verdict == Blocked || late
                                 || kept == Some(BudgetExhausted) || kept == Some(ModelError)
                                 || kept == Some(ToolLoop) || kept == Some(RuntimeError)
                              then Failed else Succeeded)
      && end.state.termination == (if kept.Some? then kept
                                   else if late then Some(BudgetExhausted)
                                   else if s.verdict == SomeFailed then Some(VerificationFailed)
                                   else if s.verdict == Blocked then Some(VerificationBlocked)
                                   else Some(Completed))
  {
    Snoc(cfg, approved, inputs, input);
    RunSound(cfg, approved, inputs);
    RunCoded(cfg, approved, inputs);
  }

  /** A stopped state is neither executed nor repaired again but finalized as stopped. */
  lemma StopIsKept(cfg: Config, r: Run, input: Input)
    requires r.state.status == Interrupted || r.state.termination == Some(Stopped)
    ensures AfterExecute(cfg, r.state, input.later) == Finalizer && AfterVerify(cfg, r.state) == Finalizer
    ensures r.node == Finalizer ==>
      Step(cfg, r, input) == Run(End, r.state.(status := Interrupted, termination := Some(Stopped)), r.executes)
  {
  }

  /** Where a run is finalized an exit code other than zero goes with failed tests. */
  predicate Coded(r: Run) {
    r.node == Repairer || r.node == Finalizer ==> (NonZero(r.state.testExitCode) ==> r.state.verdict == SomeFailed)
  }

  lemma VerifyCoded(cfg: Config, s: State, input: Input)
    requires s.status != Interrupted
    ensures var next := Verify(cfg, s, input.detected, input.tests);
      NonZero(next.testExitCode) ==> next.verdict == SomeFailed
  {
    var next := Verify(cfg, s, input.detected, input.tests);
    VerdictIs(cfg, s, input.detected, input.tests);
    FailsIff(cfg, s, input);
    if NonZero(next.testExitCode) {
      FirstRedExists(input.tests, |next.selected|);
    }
  }

  lemma {:induction false} RunCoded(cfg: Config, approved: bool, inputs: seq<Input>)
    ensures Coded(After(cfg, approved, inputs))
  {
    if inputs != [] {
      var front, last := inputs[..|inputs| - 1], inputs[|inputs| - 1];
      var r := After(cfg, approved, front);
      RunSound(cfg, approved, front);
      if r.node == Verifier {
        VerifyCoded(cfg, r.state, last);
      }
    }
  }

  // ---- a run without trouble ---------------------------------------------------------------

  const ANSWER := AgentNodes.Turn([], 0, 0.0)

  /** Everything answers at once, is granted and passes. */
  function Calm(detected: Option<string>): Input {
    Input(0.0, 0.0, ANSWER, true, true, detected, (k: int) => TestResult(Done, Some(0)))
  }

  function Repeated(input: Input, n: nat): seq<Input> {
    if n == 0 then [] else Repeated(input, n - 1) + [input]
  }

  lemma OneMore(cfg: Config, approved: bool, input: Input, n: nat)
    requires n > 0
    ensures After(cfg, approved, Repeated(input, n)) == Step(cfg, After(cfg, approved, Repeated(input, n - 1)), input)
  {
    Snoc(cfg, approved, Repeated(input, n - 1), input);
  }

  /** Nothing but model turns was used, and nothing went wrong. */
  predicate Clean(s: State, turns: nat) {
    && s.status != Failed && s.status != Interrupted && !s.mutated && s.calls == []
    && s.usage == Usage(turns, 0, 0, 0.0) && s.signatures == [] && s.failureCounts == map[]
  }

  predicate Roomy(budget: Budget, turns: nat) {
    && budget.maxModelTurns > turns && budget.maxToolCalls >= 1 && budget.maxTokens >= 1 && budget.maxDuration >= 1
    && (budget.maxCost.Some? ==> budget.maxCost.value > 0.0)
  }

  predicate IsCalm(input: Input) {
    input.reply == ANSWER && input.granted && input.isolated && input.elapsed == 0.0 && input.later == 0.0
  }

  lemma CalmPlan(cfg: Config, r: Run, input: Input)
    requires r.node == Planner && Clean(r.state, 0) && r.state.termination == None && r.executes == 0
    requires Roomy(cfg.budget, 0) && IsCalm(input)
    ensures var next := Step(cfg, r, input);
      && (next.node == Awaiting || (next.node == Prepare_ && next.state.termination == None) || next.node == End)
      && Clean(next.state, 1) && next.executes == 0
      && (r.state.status == Planning ==> next.node != End)
  {
  }

  lemma CalmEntry(cfg: Config, r: Run, input: Input)
    requires (r.node == Awaiting || (r.node == Prepare_ && r.state.termination == None)) && Clean(r.state, 1)
    requires r.executes == 0 && IsCalm(input)
    ensures var next := Step(cfg, r, input);
      && next.node == (if r.node == Awaiting then Prepare_ else Executing)
      && Clean(next.state, 1) && next.state.termination == None && next.executes == 0
  {
  }

  /** The work is planned, approved where that is required, and about to be executed. */
  lemma CalmStart(cfg: Config, approved: bool, input: Input) returns (n: nat)
    requires IsCalm(input) && Roomy(cfg.budget, 0)
    ensures n <= 5
    ensures var r := After(cfg, approved, Repeated(input, n));
      r.node == Executing && r.executes == 0 && r.state.termination == None && Clean(r.state, 1)
  {
    OneMore(cfg, approved, input, 1);
    OneMore(cfg, approved, input, 2);
    OneMore(cfg, approved, input, 3);
    OneMore(cfg, approved, input, 4);
    OneMore(cfg, approved, input, 5);
    CalmPlan(cfg, After(cfg, approved, Repeated(input, 2)), input);
    var planned := After(cfg, approved, Repeated(input, 3));
    CalmEntry(cfg, planned, input);
    n := 4;
    if planned.node == Awaiting {
      n := 5;
      CalmEntry(cfg, After(cfg, approved, Repeated(input, 4)), input);
    }
  }

  lemma CalmTurn(cfg: Config, r: Run, input: Input)
    requires r.node == Executing && Clean(r.state, 1) && r.state.termination == None
    requires Roomy(cfg.budget, 1) && IsCalm(input)
    ensures var next := Step(cfg, r, input);
      && next.node == Verifier && Clean(next.state, 2) && next.state.termination == None
      && next.executes == r.executes + 1
  {
  }

  lemma CalmEnd(cfg: Config, r: Run, input: Input)
    requires r.node == Finalizer && Clean(r.state, 2) && r.state.termination == None && Roomy(cfg.budget, 2)
    requires (r.state.verdict == AllPassed || r.state.verdict == Skipped) && !NonZero(r.state.testExitCode)
    requires input.elapsed == 0.0
    ensures var end := Step(cfg, r, input);
      && end.node == End && end.state.status == Succeeded && end.state.termination == Some(Completed)
      && end.state.usage == r.state.usage && end.state.calls == r.state.calls && end.executes == r.executes
  {
  }

  lemma CalmRun(cfg: Config, approved: bool, input: Input) returns (n: nat, end: Run)
    requires Roomy(cfg.budget, 2) && IsCalm(input) && forall k: nat :: Green(input.tests(k))
    ensures n <= 8 && end == After(cfg, approved, Repeated(input, n))
    ensures Completes(end)
  {
    n := CalmStart(cfg, approved, input);
    var r := After(cfg, approved, Repeated(input, n));
    ThreeMore(cfg, approved, input, n);
    CalmRest(cfg, r, input);
    n, end := n + 3, Step(cfg, Step(cfg, Step(cfg, r, input), input), input);
  }

  predicate Completes(r: Run) {
    && r.node == End && r.state.status == Succeeded && r.state.termination == Some(Completed) && r.executes == 1
    && r.state.usage == Usage(2, 0, 0, 0.0) && r.state.calls == []
  }

  /** A run in which everything goes well ends succeeded and completed, within its budgets and without a call. */
  lemma {:induction false} CalmRunSucceeds(cfg: Config, approved: bool, detected: Option<string>)
    returns (inputs: seq<Input>)
    requires cfg.budget.maxModelTurns >= 3 && cfg.budget.maxToolCalls >= 1 && cfg.budget.maxTokens >= 1
    requires cfg.budget.maxDuration >= 1 && (cfg.budget.maxCost.Some? ==> cfg.budget.maxCost.value > 0.0)
    ensures |inputs| <= 8 && Completes(After(cfg, approved, inputs))
  {
    var n, end := CalmRun(cfg, approved, Calm(detected));
    inputs := Repeated(Calm(detected), n);
    RepeatedLength(Calm(detected), n);
  }

  lemma {:induction false} RepeatedLength(input: Input, n: nat)
    ensures |Repeated(input, n)| == n
  {
    if n > 0 {
      RepeatedLength(input, n - 1);
    }
  }

  lemma ThreeMore(cfg: Config, approved: bool, input: Input, k: nat)
    ensures After(cfg, approved, Repeated(input, k + 3))
         == Step(cfg, Step(cfg, Step(cfg, After(cfg, approved, Repeated(input, k)), input), input), input)
  {
    OneMore(cfg, approved, input, k + 1);
    OneMore(cfg, approved, input, k + 2);
    OneMore(cfg, approved, input, k + 3);
  }

  lemma CalmRest(cfg: Config, r: Run, input: Input)
    requires r.node == Executing && Clean(r.state, 1) && r.state.termination == None && r.executes == 0
    requires Roomy(cfg.budget, 2) && IsCalm(input) && forall k: nat :: Green(input.tests(k))
    ensures Completes(Step(cfg, Step(cfg, Step(cfg, r, input), input), input))
  {
    CalmTurn(cfg, r, input);
    CalmVerify(cfg, Step(cfg, r, input), input);
    CalmEnd(cfg, Step(cfg, Step(cfg, r, input), input), input);
  }

  lemma CalmVerify(cfg: Config, r: Run, input: Input)
    requires r.node == Verifier && Clean(r.state, 2) && r.state.termination == None
    requires forall k: nat :: Green(input.tests(k))
    ensures var next := Step(cfg, r, input);
      && next.node == Finalizer && Clean(next.state, 2) && next.state.termination == None && next.executes == r.executes
      && (next.state.verdict == AllPassed || next.state.verdict == Skipped) && !NonZero(next.state.testExitCode)
  {
    VerdictIs(cfg, r.state, input.detected, input.tests);
    VerifyFacts(cfg, r.state, input.detected, input.tests);
    VerifyForgetsNothing(cfg, r.state, input.detected, input.tests);
  }
}
