/**
 * The nodes of the default agent graph: what each does to the run's state. Model, tools, tests and clock are inputs.
 */
module AgentNodes {
  import opened Results

  datatype Permission = ReadOnly | Edit | ExecuteCommands | Full

  datatype Status = Pending | Planning | AwaitingApproval | Running | Verifying | Succeeded | Failed | Interrupted

  datatype Reason =
    | Completed | WaitingForApproval | ApprovalDenied | VerificationFailed | VerificationBlocked
    | BudgetExhausted | ModelError | ToolLoop | Stopped | RuntimeError

  datatype Verdict = AllPassed | SomeFailed | Skipped | Blocked

  datatype ToolStatus = Done | Error | Refused

  datatype Call = Call(name: string, arguments: string)

  /** A tool call the model asks for, with what the tool returns if it is run; `cause` is the failure's root cause. */
  datatype Attempt = Attempt(call: Call, status: ToolStatus, cause: string)

  datatype Reply = Raised(message: string) | Turn(attempts: seq<Attempt>, tokens: nat, cost: real)

  /** What running a test command returns: exit code 0 comes only from a command that was done. */
  datatype TestResult = TestResult(status: ToolStatus, exitCode: Option<int>)

  type TestRun = run: TestResult | run.exitCode == Some(0) ==> run.status == Done witness TestResult(Refused, None)

  datatype Stage = Stage(command: string, passed: bool, exitCode: Option<int>)

  datatype Usage = Usage(modelTurns: nat, toolCalls: nat, tokens: nat, cost: real)

  datatype Budget =
    Budget(maxModelTurns: nat, maxToolCalls: nat, maxTokens: nat, maxCost: Option<real>, maxDuration: nat)

  datatype Config = Config(
    permission: Permission,
    requirePlanApproval: bool,
    maxToolIterations: int,
    maxRepairRounds: int,
    verificationCommands: seq<string>,
    testCommand: Option<string>,
    /** Exploring and reviewing tasks select no verification command. */
    verifiable: bool,
    allowUnverified: bool,
    budget: Budget)

  datatype State = State(
    status: Status,
    termination: Option<Reason>,
    approved: bool,
    hadToolCalls: bool,
    iterations: nat,
    repairRounds: nat,
    usage: Usage,
    mutated: bool,
    failureCounts: map<string, nat>,
    signatures: seq<Call>,
    error: Option<string>,
    testExitCode: Option<int>,
    verdict: Verdict,
    waived: bool,
    selected: seq<string>,
    stages: seq<Stage>,
    /** Every tool call that was run, in order. */
    calls: seq<Call>)

  const READ_ONLY_TOOLS := {"list_directory", "read_file", "grep", "git_status", "git_diff", "knowledge_search", "todo"}

  function Initial(approved: bool): State {
    State(
      Pending, None, approved, false, 0, 0, Usage(0, 0, 0, 0.0), false, map[], [], None, None, Skipped, false,
      [], [], [])
  }

  predicate OverBudget(s: State, budget: Budget, elapsed: real) {
    || s.usage.modelTurns >= budget.maxModelTurns
    || s.usage.toolCalls >= budget.maxToolCalls
    || s.usage.tokens >= budget.maxTokens
    || (budget.maxCost.Some? && s.usage.cost >= budget.maxCost.value)
    || elapsed >= budget.maxDuration as real
  }

  /** An error with a text; an empty text counts as none. */
  predicate HasText(error: Option<string>) {
    error.Some? && error.value != ""
  }

  function BudgetFailure(s: State): State {
    s.(status := Failed, error := Some("budget"), termination := Some(BudgetExhausted))
  }

  function ModelFailure(s: State, message: string): State {
    s.(status := Failed, error := Some(message), termination := Some(ModelError))
  }

  function Charge(usage: Usage, tokens: nat, cost: real): Usage {
    usage.(modelTurns := usage.modelTurns + 1, tokens := usage.tokens + tokens, cost := usage.cost + cost)
  }

  // ---- planning and approval ---------------------------------------------------------------

  function Plan(cfg: Config, s: State, elapsed: real, reply: Reply): State {
    if OverBudget(s, cfg.budget, elapsed) then BudgetFailure(s)
    else if reply.Raised? then ModelFailure(s, reply.message)
    else
      var planned := s.(usage := Charge(s.usage, reply.tokens, reply.cost));
      if cfg.requirePlanApproval && cfg.permission != ReadOnly && !s.approved then
        planned.(status := AwaitingApproval, termination := Some(WaitingForApproval))
      else planned
  }

  function Await(s: State, granted: bool): State {
    s.(approved := granted,
       status := if granted then Running else Interrupted,
       termination := if granted then None else Some(ApprovalDenied))
  }

  /** Isolating the workspace can fail; the run is then marked failed but goes on to execute. */
  function Prepare(s: State, isolated: bool): State {
    if isolated then s else s.(status := Failed, error := Some("isolation"), termination := Some(RuntimeError))
  }

  predicate Sticky(termination: Option<Reason>) {
    && termination.Some?
    && (termination.value == BudgetExhausted || termination.value == ModelError
        || termination.value == ToolLoop || termination.value == RuntimeError)
  }

  // ---- executing a model turn --------------------------------------------------------------

  predicate Mutating(attempts: seq<Attempt>) {
    exists a :: a in attempts && a.call.name !in READ_ONLY_TOOLS
  }

  function CallsOf(attempts: seq<Attempt>): (calls: seq<Call>)
    ensures |calls| == |attempts|
    ensures forall i :: 0 <= i < |attempts| ==> calls[i] == attempts[i].call
  {
    seq(|attempts|, i requires 0 <= i < |attempts| => attempts[i].call)
  }

  function LastSix(calls: seq<Call>): seq<Call> {
    if |calls| > 6 then calls[|calls| - 6..] else calls
  }

  /** The failure counts and the last error after recording the results in order. */
  function Record(attempts: seq<Attempt>, counts: map<string, nat>): (map<string, nat>, Option<string>) {
    if attempts == [] then (counts, None)
    else
      var (before, error) := Record(attempts[..|attempts| - 1], counts);
      var last := attempts[|attempts| - 1];
      if last.status == Error then
        (before[last.cause := (if last.cause in before then before[last.cause] else 0) + 1], Some(last.cause))
      else (before, error)
  }

  predicate Looping(signatures: seq<Call>, counts: map<string, nat>) {
    var n := |signatures|;
    || (n >= 3 && signatures[n - 1] == signatures[n - 2] == signatures[n - 3])
    || exists cause :: cause in counts && counts[cause] >= 3
  }

  /** The state after a turn whose calls were run, from what was recorded about them. */
  function Advance(
    s: State, usage: Usage, ran: seq<Call>, counts: map<string, nat>, error: Option<string>, mutating: bool)
    : (next: State)
    ensures next.status == Running && (next.termination == s.termination || next.termination == Some(ToolLoop))
    ensures next.iterations == s.iterations + 1 && next.repairRounds == s.repairRounds
  {
    var signatures := LastSix(s.signatures + ran);
    var looping := Looping(signatures, counts);
    s.(status := Running,
       iterations := s.iterations + 1,
       hadToolCalls := ran != [],
       usage := usage.(toolCalls := usage.toolCalls + |ran|),
       mutated := s.mutated || mutating,
       failureCounts := counts,
       signatures := signatures,
       error := if looping && !HasText(error) then Some("tool loop") else error,
       termination := if looping then Some(ToolLoop) else s.termination,
       calls := s.calls + ran)
  }

  function RunTurn(s: State, usage: Usage, attempts: seq<Attempt>): (next: State)
    ensures next.status == Running && (next.termination == s.termination || next.termination == Some(ToolLoop))
    ensures next.iterations == s.iterations + 1 && next.repairRounds == s.repairRounds
  {
    var (counts, error) := Record(attempts, s.failureCounts);
    Advance(s, usage, CallsOf(attempts), counts, error, Mutating(attempts))
  }

  /** One execute step. A turn whose calls would exceed the tool budget is charged but runs none of them. */
  function Execute(cfg: Config, s: State, elapsed: real, reply: Reply): (next: State)
    ensures next.status == s.status || next.status == Failed || next.status == Running
    ensures next.status != Failed && s.status != Interrupted ==> next.iterations == s.iterations + 1
    ensures next.status == Failed || s.status == Interrupted ==> next.iterations == s.iterations
    ensures next.repairRounds == s.repairRounds
    ensures next.termination == s.termination || Sticky(next.termination)
  {
    if s.status == Interrupted || s.status == Failed then s
    else if OverBudget(s, cfg.budget, elapsed) then BudgetFailure(s)
    else if reply.Raised? then ModelFailure(s, reply.message)
    else
      var usage := Charge(s.usage, reply.tokens, reply.cost);
      if usage.toolCalls + |reply.attempts| > cfg.budget.maxToolCalls then BudgetFailure(s.(usage := usage))
      else RunTurn(s, usage, reply.attempts)
  }

  /** Records the results one call at a time. */
  method RecordResults(attempts: seq<Attempt>, known: map<string, nat>)
    returns (counts: map<string, nat>, error: Option<string>, ran: seq<Call>, mutating: bool)
    ensures (counts, error) == Record(attempts, known)
    ensures ran == CallsOf(attempts)
    ensures mutating <==> Mutating(attempts)
  {
    counts, error, ran, mutating := known, None, [], false;
    for k := 0 to |attempts|
      invariant (counts, error) == Record(attempts[..k], known)
      invariant ran == CallsOf(attempts[..k])
      invariant mutating <==> Mutating(attempts[..k])
    {
      var attempt := attempts[k];
      assert attempts[..k + 1] == attempts[..k] + [attempt];
      assert attempts[..k + 1][..k] == attempts[..k];
      ran := ran + [attempt.call];
      mutating := mutating || attempt.call.name !in READ_ONLY_TOOLS;
      if attempt.status == Error {
        error := Some(attempt.cause);
        counts := counts[attempt.cause := (if attempt.cause in counts then counts[attempt.cause] else 0) + 1];
      }
    }
    assert attempts[..|attempts|] == attempts;
  }

  // ---- what an execute step keeps ----------------------------------------------------------

  predicate Mutates(calls: seq<Call>) {
    exists c :: c in calls && c.name !in READ_ONLY_TOOLS
  }

  /** Budgets hold, and the state's account of the calls matches the calls that were run. */
  ghost predicate Accounted(cfg: Config, s: State) {
    && s.usage.modelTurns <= cfg.budget.maxModelTurns
    && s.usage.toolCalls <= cfg.budget.maxToolCalls
    && s.usage.toolCalls == |s.calls|
    && (s.mutated <==> Mutates(s.calls))
  }

  lemma MutatesAppend(a: seq<Call>, b: seq<Call>)
    ensures Mutates(a + b) <==> Mutates(a) || Mutates(b)
  {
  }

  lemma MutatingCalls(attempts: seq<Attempt>)
    ensures Mutating(attempts) <==> Mutates(CallsOf(attempts))
  {
    if a :| a in attempts && a.call.name !in READ_ONLY_TOOLS {
      var i :| 0 <= i < |attempts| && attempts[i] == a;
      assert CallsOf(attempts)[i] == a.call;
    }
    if c :| c in CallsOf(attempts) && c.name !in READ_ONLY_TOOLS {
      var i :| 0 <= i < |attempts| && CallsOf(attempts)[i] == c;
      assert attempts[i] in attempts;
    }
  }

  lemma ExecuteAccounts(cfg: Config, s: State, elapsed: real, reply: Reply)
    requires Accounted(cfg, s)
    ensures Accounted(cfg, Execute(cfg, s, elapsed, reply))
  {
    if reply.Turn? {
      MutatesAppend(s.calls, CallsOf(reply.attempts));
      MutatingCalls(reply.attempts);
    }
  }

  /** Whether an execute step gets to run its turn's calls. */
  predicate RunsTurn(cfg: Config, s: State, elapsed: real, reply: Reply) {
    && s.status != Interrupted && s.status != Failed && !OverBudget(s, cfg.budget, elapsed)
    && reply.Turn? && s.usage.toolCalls + |reply.attempts| <= cfg.budget.maxToolCalls
  }

  /** All of a turn's calls are run or none is, and none is exactly when the step fails or had nothing to do. */
  lemma AllOrNothing(cfg: Config, s: State, elapsed: real, reply: Reply)
    ensures var next := Execute(cfg, s, elapsed, reply);
      && next.calls == s.calls + (if RunsTurn(cfg, s, elapsed, reply) then CallsOf(reply.attempts) else [])
      && (s.status != Interrupted ==> (next.status == Failed <==> !RunsTurn(cfg, s, elapsed, reply)))
  {
  }

  /** The execute step as it runs: it keeps the account of calls and budgets, and runs all of a turn's calls or none. */
  method ExecuteTurn(cfg: Config, s: State, elapsed: real, reply: Reply) returns (next: State)
    ensures next == Execute(cfg, s, elapsed, reply)
    ensures Accounted(cfg, s) ==> Accounted(cfg, next)
    ensures next.calls == s.calls + if RunsTurn(cfg, s, elapsed, reply) then CallsOf(reply.attempts) else []
    ensures s.status != Interrupted ==> (next.status == Failed <==> !RunsTurn(cfg, s, elapsed, reply))
  {
    AllOrNothing(cfg, s, elapsed, reply);
    if Accounted(cfg, s) {
      ExecuteAccounts(cfg, s, elapsed, reply);
    }
    if s.status == Interrupted || s.status == Failed {
      return s;
    }
    if OverBudget(s, cfg.budget, elapsed) {
      return BudgetFailure(s);
    }
    if reply.Raised? {
      return ModelFailure(s, reply.message);
    }
    var usage := Charge(s.usage, reply.tokens, reply.cost);
    if usage.toolCalls + |reply.attempts| > cfg.budget.maxToolCalls {
      return BudgetFailure(s.(usage := usage));
    }
    var counts, error, ran, mutating := RecordResults(reply.attempts, s.failureCounts);
    next := Advance(s, usage, ran, counts, error, mutating);
  }

  // ---- verification ------------------------------------------------------------------------

  function Selected(cfg: Config, detected: Option<string>): seq<string> {
    if !cfg.verifiable then []
    else if cfg.verificationCommands != [] then cfg.verificationCommands
    else if cfg.testCommand.Some? then [cfg.testCommand.value]
    else if detected.Some? then [detected.value]
    else []
  }

  function StageOf(command: string, run: TestRun): Stage {
    Stage(command, run.status == Done && run.exitCode == Some(0), run.exitCode)
  }

  /** The stages run from position k on: up to and including the first that fails. */
  function StagesFrom(commands: seq<string>, tests: int -> TestRun, k: nat): seq<Stage>
    requires k <= |commands|
    decreases |commands| - k
  {
    if k == |commands| then []
    else
      var stage := StageOf(commands[k], tests(k));
      if stage.passed then [stage] + StagesFrom(commands, tests, k + 1) else [stage]
  }

  predicate CanRunTests(cfg: Config, commands: seq<string>) {
    commands != [] && (cfg.permission == ExecuteCommands || cfg.permission == Full)
  }

  /** The exit code recorded for a stage; a failing one without an exit code counts as 1. */
  function ExitCode(stage: Stage): int {
    if stage.passed then 0 else if stage.exitCode.Some? then stage.exitCode.value else 1
  }

  function Verify(cfg: Config, s: State, detected: Option<string>, tests: int -> TestRun): State {
    var commands := Selected(cfg, detected);
    if s.status == Interrupted then s
    else if !CanRunTests(cfg, commands) then
      s.(status := Verifying,
         testExitCode := None,
         selected := commands,
         stages := [],
         verdict := if s.mutated && !cfg.allowUnverified then Blocked else Skipped,
         waived := cfg.allowUnverified)
    else
      var stages := StagesFrom(commands, tests, 0);
      var last := stages[|stages| - 1];
      s.(status := Verifying,
         testExitCode := Some(ExitCode(last)),
         error := if last.passed then None else Some("verification"),
         selected := commands,
         stages := stages,
         verdict := if forall stage :: stage in stages ==> stage.passed then AllPassed else SomeFailed,
         waived := false)
  }

  ghost predicate EveryStagePassed(stages: seq<Stage>) {
    forall stage :: stage in stages ==> stage.passed
  }

  /** Runs one command at a time until one fails. */
  method RunStages(commands: seq<string>, tests: int -> TestRun)
    returns (stages: seq<Stage>, exitCode: int, failed: bool)
    ensures stages == StagesFrom(commands, tests, 0)
    ensures failed <==> stages != [] && !stages[|stages| - 1].passed
    ensures exitCode == if failed then ExitCode(stages[|stages| - 1]) else 0
  {
    stages, exitCode, failed := [], 0, false;
    ghost var all := StagesFrom(commands, tests, 0);
    for k := 0 to |commands|
      invariant |stages| == k && exitCode == 0 && !failed
      invariant EveryStagePassed(stages)
      invariant all == stages + StagesFrom(commands, tests, k)
    {
      var stage := StageOf(commands[k], tests(k));
      stages := stages + [stage];
      if !stage.passed {
        return stages, if stage.exitCode.Some? then stage.exitCode.value else 1, true;
      }
    }
  }

  /** The verification recorded in the state is the one its current calls ask for. */
  ghost predicate Verified(cfg: Config, s: State) {
    if s.stages == [] then
      && s.testExitCode.None? && s.waived == cfg.allowUnverified
      && s.verdict == if s.mutated && !cfg.allowUnverified then Blocked else Skipped
    else
      && !s.waived
      && (s.verdict == AllPassed || s.verdict == SomeFailed)
      && (s.verdict == AllPassed <==> AllCommandsPassed(s))
  }

  /** Every selected command was run, in order, and passed. */
  ghost predicate AllCommandsPassed(s: State) {
    && |s.stages| == |s.selected| && s.selected != []
    && forall i :: 0 <= i < |s.stages| ==> s.stages[i].passed && s.stages[i].command == s.selected[i]
  }

  lemma {:induction false} StagesAre(commands: seq<string>, tests: int -> TestRun, k: nat)
    requires k <= |commands|
    ensures var stages := StagesFrom(commands, tests, k);
      && |stages| <= |commands| - k && (k < |commands| ==> stages != [])
      && (forall i :: 0 <= i < |stages| ==> stages[i] == StageOf(commands[k + i], tests(k + i)))
      && (EveryStagePassed(stages) ==> |stages| == |commands| - k)
    decreases |commands| - k
  {
    if k < |commands| {
      StagesAre(commands, tests, k + 1);
      var stage := StageOf(commands[k], tests(k));
      var rest := StagesFrom(commands, tests, k + 1);
      var stages := StagesFrom(commands, tests, k);
      assert stages[0] == stage;
      if stage.passed {
        assert stages == [stage] + rest;
        if EveryStagePassed(stages) {
          assert forall x :: x in rest ==> x in stages;
        }
      } else {
        assert stage in stages;
      }
    }
  }

  lemma {:induction false} VerifyVerifies(cfg: Config, s: State, detected: Option<string>, tests: int -> TestRun)
    requires s.status != Interrupted
    ensures Verified(cfg, Verify(cfg, s, detected, tests))
  {
    var commands := Selected(cfg, detected);
    if CanRunTests(cfg, commands) {
      StagesAre(commands, tests, 0);
      PassedMeansCovered(commands, tests, StagesFrom(commands, tests, 0), Verify(cfg, s, detected, tests));
    }
  }

  lemma PassedMeansCovered(commands: seq<string>, tests: int -> TestRun, stages: seq<Stage>, s: State)
    requires s.stages == stages && s.selected == commands && commands != [] && stages != [] && |stages| <= |commands|
    requires forall i :: 0 <= i < |stages| ==> stages[i] == StageOf(commands[i], tests(i))
    requires EveryStagePassed(stages) ==> |stages| == |commands|
    ensures AllCommandsPassed(s) <==> EveryStagePassed(stages)
  {
    if AllCommandsPassed(s) {
      forall stage | stage in stages ensures stage.passed {
        var i :| 0 <= i < |stages| && stages[i] == stage;
        assert s.stages[i].passed;
      }
    }
    if EveryStagePassed(stages) {
      forall i | 0 <= i < |stages| ensures s.stages[i].passed && s.stages[i].command == s.selected[i] {
        assert stages[i] in stages;
      }
    }
  }

  /** The configured commands, or else the test command, or else the detected one; none for exploring and reviewing. */
  predicate IsSelection(cfg: Config, detected: Option<string>, commands: seq<string>) {
    && (!cfg.verifiable ==> commands == [])
    && (cfg.verifiable && cfg.verificationCommands != [] ==> commands == cfg.verificationCommands)
    && (cfg.verifiable && cfg.verificationCommands == [] && cfg.testCommand.Some? ==>
          commands == [cfg.testCommand.value])
    && (cfg.verifiable && cfg.verificationCommands == [] && cfg.testCommand.None? ==>
          commands == if detected.Some? then [detected.value] else [])
  }

  predicate Green(run: TestRun) {
    run.status == Done && run.exitCode == Some(0)
  }

  /** The command at position k is the first whose tests do not pass. */
  predicate FirstRed(tests: int -> TestRun, k: nat) {
    !Green(tests(k)) && forall i: nat :: i < k ==> Green(tests(i))
  }

  /** What verifying records, from what running the commands returns. */
  ghost predicate IsVerdict(cfg: Config, s: State, tests: int -> TestRun, next: State) {
    var n := |next.selected|;
    var runs := n > 0 && (cfg.permission == ExecuteCommands || cfg.permission == Full);
    && (!runs ==>
          && next.stages == [] && next.testExitCode == None && next.error == s.error
          && next.waived == cfg.allowUnverified
          && next.verdict == if s.mutated && !cfg.allowUnverified then Blocked else Skipped)
    && (runs && (forall k: nat :: k < n ==> Green(tests(k))) ==>
          && next.verdict == AllPassed && next.testExitCode == Some(0) && next.error == None && |next.stages| == n)
    && (runs ==> forall k: nat :: k < n && FirstRed(tests, k) ==>
          && next.verdict == SomeFailed && next.error.Some? && |next.stages| == k + 1
          && next.testExitCode == Some(if tests(k).exitCode.Some? then tests(k).exitCode.value else 1))
  }

  lemma {:induction false} StagesUntil(commands: seq<string>, tests: int -> TestRun, k: nat, red: nat)
    requires k <= red <= |commands| && forall i: nat :: k <= i < red ==> Green(tests(i))
    requires red < |commands| ==> !Green(tests(red))
    ensures var stages := StagesFrom(commands, tests, k);
      && |stages| == red - k + (if red < |commands| then 1 else 0)
      && (forall i :: 0 <= i < red - k ==> stages[i].passed)
      && (red < |commands| ==> !stages[red - k].passed && stages[red - k].exitCode == tests(red).exitCode)
    decreases |commands| - k
  {
    if k < red {
      assert Green(tests(k));
      StagesUntil(commands, tests, k + 1, red);
    }
  }

  lemma {:induction false} SelectedIs(cfg: Config, detected: Option<string>)
    ensures IsSelection(cfg, detected, Selected(cfg, detected))
  {
  }

  lemma FailsAt(cfg: Config, s: State, detected: Option<string>, tests: int -> TestRun, red: nat)
    requires s.status != Interrupted && CanRunTests(cfg, Selected(cfg, detected))
    requires red < |Selected(cfg, detected)| && FirstRed(tests, red)
    ensures var next := Verify(cfg, s, detected, tests);
      && next.verdict == SomeFailed && next.error.Some? && |next.stages| == red + 1
      && next.testExitCode == Some(if tests(red).exitCode.Some? then tests(red).exitCode.value else 1)
  {
    StagesUntil(Selected(cfg, detected), tests, 0, red);
    var stages := StagesFrom(Selected(cfg, detected), tests, 0);
    assert stages[red] in stages;
  }

  lemma PassesAll(cfg: Config, s: State, detected: Option<string>, tests: int -> TestRun)
    requires s.status != Interrupted && CanRunTests(cfg, Selected(cfg, detected))
    requires forall k: nat :: k < |Selected(cfg, detected)| ==> Green(tests(k))
    ensures var next := Verify(cfg, s, detected, tests);
      next.verdict == AllPassed && next.testExitCode == Some(0) && next.error == None
      && |next.stages| == |Selected(cfg, detected)|
  {
    StagesUntil(Selected(cfg, detected), tests, 0, |Selected(cfg, detected)|);
  }

  /** What verify selects and records, in terms of the configuration and of what running the tests returns. */
  lemma {:induction false} VerdictIs(cfg: Config, s: State, detected: Option<string>, tests: int -> TestRun)
    requires s.status != Interrupted
    ensures var next := Verify(cfg, s, detected, tests);
      IsSelection(cfg, detected, next.selected) && IsVerdict(cfg, s, tests, next)
  {
    var commands := Selected(cfg, detected);
    SelectedIs(cfg, detected);
    if CanRunTests(cfg, commands) {
      if forall k: nat :: k < |commands| ==> Green(tests(k)) {
        PassesAll(cfg, s, detected, tests);
      }
      forall k: nat | k < |commands| && FirstRed(tests, k)
        ensures var next := Verify(cfg, s, detected, tests);
          && next.verdict == SomeFailed && next.error.Some? && |next.stages| == k + 1
          && next.testExitCode == Some(if tests(k).exitCode.Some? then tests(k).exitCode.value else 1)
      {
        FailsAt(cfg, s, detected, tests, k);
      }
    }
  }

  /** The verify step as it runs: the verdict it records is the one its commands and their tests deserve. */
  method VerifyRun(cfg: Config, s: State, detected: Option<string>, tests: int -> TestRun) returns (next: State)
    ensures next == Verify(cfg, s, detected, tests)
    ensures s.status == Interrupted ==> next == s
    ensures s.status != Interrupted ==>
      Verified(cfg, next) && IsSelection(cfg, detected, next.selected) && IsVerdict(cfg, s, tests, next)
  {
    next := RunCommands(cfg, s, detected, tests);
    if s.status != Interrupted {
      VerifyVerifies(cfg, s, detected, tests);
      VerdictIs(cfg, s, detected, tests);
    }
  }

  /** Selects the commands, runs them if that is permitted, and records the result. */
  method RunCommands(cfg: Config, s: State, detected: Option<string>, tests: int -> TestRun) returns (next: State)
    ensures next == Verify(cfg, s, detected, tests)
  {
    if s.status == Interrupted {
      return s;
    }
    var commands := Selected(cfg, detected);
    if !CanRunTests(cfg, commands) {
      return s.(status := Verifying,
                testExitCode := None,
                selected := commands,
                stages := [],
                verdict := if s.mutated && !cfg.allowUnverified then Blocked else Skipped,
                waived := cfg.allowUnverified);
    }
    var stages, exitCode, failed := RunStages(commands, tests);
    next := s.(status := Verifying,
               testExitCode := Some(exitCode),
               error := if failed then Some("verification") else None,
               selected := commands,
               stages := stages,
               verdict := if forall stage :: stage in stages ==> stage.passed then AllPassed else SomeFailed,
               waived := false);
  }

  // ---- repair and the end ------------------------------------------------------------------

  function Repair(s: State): State {
    s.(repairRounds := s.repairRounds + 1, iterations := 0)
  }

  predicate IsInterrupted(s: State) {
    s.status == Interrupted || s.termination == Some(Stopped)
  }

  predicate NonZero(exitCode: Option<int>) {
    exitCode.Some? && exitCode.value != 0
  }

  function Finalize(cfg: Config, s: State, elapsed: real): State {
    var reason :=
      if OverBudget(s, cfg.budget, elapsed) && s.termination.None? then Some(BudgetExhausted) else s.termination;
    if IsInterrupted(s) then s.(status := Interrupted, termination := Some(Stopped))
    else
      var failed := NonZero(s.testExitCode) || s.verdict == SomeFailed || s.verdict == Blocked || Sticky(reason);
      s.(status := if failed then Failed else Succeeded,
         termination :=
           if reason.Some? then reason
           else if s.verdict == SomeFailed then Some(VerificationFailed)
           else if s.verdict == Blocked then Some(VerificationBlocked)
           else Some(Completed))
  }
}
