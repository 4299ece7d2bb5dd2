/** What a workflow node does by its role, in up to as many attempts as it is allowed, and how it comes out. */
module WorkflowNodes {
  import opened Results
  import opened WorkflowDsl
  import opened AgentNodes
  import AgentLoop

  /**
   * How a workflow is run: the agent's configuration, whether plans were approved in advance, whether preparing the
   * workspace isolates it and so can fail, and the nodes whose tools include the one that runs tests.
   */
  datatype Setup = Setup(config: Config, approved: bool, isolates: bool, testable: set<string>)

  /** What nodes hand on to each other: the agent's state, and whether the repository has been discovered. */
  datatype Work = Work(state: State, context: bool)

  /** An exception that escapes a node carries a text. */
  type Text = s: string | s != "" witness "error"

  /**
   * One attempt: the handler raises, which is also how it takes an operator's stop, or it runs, for roles that take
   * turns with inputs for further turns.
   */
  datatype Try = Raises(text: Text) | Handles(first: AgentLoop.Input, further: seq<AgentLoop.Input>)

  const NO_CONTEXT := "'project_context'"

  predicate TakesTurns(role: Role) {
    role == Implementer || role == Reviewer || role == Knowledge
  }

  const REFUSED: TestRun := TestResult(Refused, None)

  /** Every command runs alike. */
  function Alike(test: TestRun): int -> TestRun {
    (k: int) => test
  }

  /** A node whose tools do not run tests has every test command refused. */
  function TestsAt(setup: Setup, node: Node, tests: int -> TestRun): int -> TestRun {
    if node.id in setup.testable then tests else Alike(REFUSED)
  }

  /** The role's handler. A planner that finds no discovered context fails before the model is asked. */
  function Handle(setup: Setup, node: Node, w: Work, input: AgentLoop.Input): Work {
    match node.role
    case Planner =>
      var reply := if w.context then input.reply else AgentNodes.Raised(NO_CONTEXT);
      w.(state := Plan(setup.config, w.state, input.elapsed, reply))
    case Explorer => w.(context := true)
    case Tester => w.(state := Verify(setup.config, w.state, input.detected, TestsAt(setup, node, input.tests)))
    case _ => w.(state := Execute(setup.config, w.state, input.elapsed, input.reply))
  }

  /** The work after one attempt; none when it does not come to an end. What a raising handler did is undone. */
  function Attempted(setup: Setup, node: Node, w: Work, attempt: Try): Option<Work> {
    match attempt
    case Raises(text) => Some(w.(state := w.state.(error := Some(text), status := Running)))
    case Handles(first, further) =>
      var handled := Handle(setup, node, w, first);
      if !TakesTurns(node.role) then Some(handled)
      else
        var last := AgentLoop.InnerLoop(setup.config, handled.state, further);
        if AgentLoop.KeepsExecuting(setup.config, last) then None else Some(handled.(state := last))
  }

  /** A tester fails by the exit code on record, any other role by an error on record. */
  predicate ComesOutFailed(role: Role, s: State) {
    if role == Tester then NonZero(s.testExitCode) else HasText(s.error)
  }

  /** What any attempt raised is the node's error in the end, unless there is another one. */
  function Restored(w: Work, raised: Option<Text>): Work {
    if raised.Some? && !HasText(w.state.error) then w.(state := w.state.(error := Some(raised.value))) else w
  }

  function RaisedBy(attempt: Try, raised: Option<Text>): Option<Text> {
    if attempt.Raises? then Some(attempt.text) else raised
  }

  /** Attempts until one does not fail or none is left. */
  function Retried(setup: Setup, node: Node, w: Work, attempts: seq<Try>, retries: nat, raised: Option<Text>)
    : Option<Work>
    decreases retries
  {
    if attempts == [] then None
    else
      match Attempted(setup, node, w, attempts[0])
      case None => None
      case Some(next) =>
        var raised' := RaisedBy(attempts[0], raised);
        if !ComesOutFailed(node.role, next.state) || retries == 0 then Some(Restored(next, raised'))
        else Retried(setup, node, next, attempts[1..], retries - 1, raised')
  }

  function Invoke(setup: Setup, node: Node, w: Work, attempts: seq<Try>): Option<Work> {
    Retried(setup, node, w, attempts, node.retryLimit, None)
  }

  // ---- the attempts that are made ----------------------------------------------------------

  /** How many attempts are made. */
  function Made(setup: Setup, node: Node, w: Work, attempts: seq<Try>, retries: nat): nat
    decreases retries
  {
    if attempts == [] then 0
    else
      match Attempted(setup, node, w, attempts[0])
      case None => 1
      case Some(next) =>
        if !ComesOutFailed(node.role, next.state) || retries == 0 then 1
        else 1 + Made(setup, node, next, attempts[1..], retries - 1)
  }

  /** The work after the first k attempts. */
  function Reached(setup: Setup, node: Node, w: Work, attempts: seq<Try>, k: nat): Option<Work>
    requires k <= |attempts|
    decreases k
  {
    if k == 0 then Some(w)
    else
      match Attempted(setup, node, w, attempts[0])
      case None => None
      case Some(next) => Reached(setup, node, next, attempts[1..], k - 1)
  }

  /** The last text raised by the first k attempts, or what was raised before them. */
  function LastRaised(attempts: seq<Try>, k: nat, raised: Option<Text>): Option<Text>
    requires k <= |attempts|
    decreases k
  {
    if k == 0 then raised
    else LastRaised(attempts[1..], k - 1, RaisedBy(attempts[0], raised))
  }

  ghost predicate RaisedBefore(attempts: seq<Try>, k: nat)
    requires k <= |attempts|
  {
    exists i :: 0 <= i < k && attempts[i].Raises?
  }

  lemma {:induction false} LastRaisedIff(attempts: seq<Try>, k: nat, raised: Option<Text>)
    requires k <= |attempts|
    ensures LastRaised(attempts, k, raised).Some? <==> raised.Some? || RaisedBefore(attempts, k)
    decreases k
  {
    if k > 0 {
      LastRaisedIff(attempts[1..], k - 1, RaisedBy(attempts[0], raised));
      if i :| 0 <= i < k && attempts[i].Raises? {
        assert i > 0 ==> attempts[1..][i - 1].Raises?;
      }
      if i :| 0 <= i < k - 1 && attempts[1..][i].Raises? {
        assert attempts[i + 1].Raises?;
      }
    }
  }

  /** A node leaves what its last attempt left, with the last exception put back. */
  ghost predicate LeavesLast(
    setup: Setup, node: Node, w: Work, attempts: seq<Try>, retries: nat, raised: Option<Text>)
  {
    var k := Made(setup, node, w, attempts, retries);
    Retried(setup, node, w, attempts, retries, raised).Some? ==>
      && 1 <= k <= |attempts| && Reached(setup, node, w, attempts, k).Some?
      && Retried(setup, node, w, attempts, retries, raised)
         == Some(Restored(Reached(setup, node, w, attempts, k).value, LastRaised(attempts, k, raised)))
  }

  lemma OneLeavesLast(setup: Setup, node: Node, w: Work, attempts: seq<Try>, retries: nat, raised: Option<Text>)
    requires attempts == [] || Attempted(setup, node, w, attempts[0]).None? || retries == 0
      || !ComesOutFailed(node.role, Attempted(setup, node, w, attempts[0]).value.state)
    ensures LeavesLast(setup, node, w, attempts, retries, raised)
  {
  }

  lemma MoreLeaveLast(
    setup: Setup, node: Node, w: Work, attempts: seq<Try>, retries: nat, raised: Option<Text>, next: Work)
    requires attempts != [] && Attempted(setup, node, w, attempts[0]) == Some(next)
    requires retries > 0 && ComesOutFailed(node.role, next.state)
    requires LeavesLast(setup, node, next, attempts[1..], retries - 1, RaisedBy(attempts[0], raised))
    ensures LeavesLast(setup, node, w, attempts, retries, raised)
  {
  }

  /** Either the first attempt is the last, or the others leave what their last leaves and that carries over. */
  lemma FirstLeavesLast(setup: Setup, node: Node, w: Work, attempts: seq<Try>, retries: nat, raised: Option<Text>)
    returns (more: bool, next: Work)
    ensures !more ==> LeavesLast(setup, node, w, attempts, retries, raised)
    ensures more ==>
      && attempts != [] && retries > 0
      && (LeavesLast(setup, node, next, attempts[1..], retries - 1, RaisedBy(attempts[0], raised)) ==>
            LeavesLast(setup, node, w, attempts, retries, raised))
  {
    more, next := false, w;
    if attempts == [] || Attempted(setup, node, w, attempts[0]).None? || retries == 0
       || !ComesOutFailed(node.role, Attempted(setup, node, w, attempts[0]).value.state) {
      OneLeavesLast(setup, node, w, attempts, retries, raised);
    } else {
      more, next := true, Attempted(setup, node, w, attempts[0]).value;
      if LeavesLast(setup, node, next, attempts[1..], retries - 1, RaisedBy(attempts[0], raised)) {
        MoreLeaveLast(setup, node, w, attempts, retries, raised, next);
      }
    }
  }

  lemma {:induction false} RetriedIs(
    setup: Setup, node: Node, w: Work, attempts: seq<Try>, retries: nat, raised: Option<Text>)
    ensures LeavesLast(setup, node, w, attempts, retries, raised)
    decreases retries
  {
    var more, next := FirstLeavesLast(setup, node, w, attempts, retries, raised);
    if more {
      RetriedIs(setup, node, next, attempts[1..], retries - 1, RaisedBy(attempts[0], raised));
    }
  }

  lemma {:induction false} ReachedNext(setup: Setup, node: Node, w: Work, attempts: seq<Try>, k: nat)
    requires k < |attempts| && Reached(setup, node, w, attempts, k).Some?
    ensures Reached(setup, node, w, attempts, k + 1)
         == Attempted(setup, node, Reached(setup, node, w, attempts, k).value, attempts[k])
    decreases k
  {
    if k > 0 {
      ReachedNext(setup, node, Attempted(setup, node, w, attempts[0]).value, attempts[1..], k - 1);
    }
  }

  lemma InvokedBy(setup: Setup, node: Node, w: Work, attempts: seq<Try>, k: nat, before: Work) returns (last: Work)
    requires Invoke(setup, node, w, attempts).Some?
    requires k < |attempts| && Made(setup, node, w, attempts, node.retryLimit) == k + 1
    requires Reached(setup, node, w, attempts, k) == Some(before)
    ensures Attempted(setup, node, before, attempts[k]) == Some(last)
    ensures Invoke(setup, node, w, attempts) == Some(Restored(last, LastRaised(attempts, k + 1, None)))
  {
    RetriedIs(setup, node, w, attempts, node.retryLimit, None);
    ReachedNext(setup, node, w, attempts, k);
    last := Reached(setup, node, w, attempts, k + 1).value;
  }

  lemma RestoredText(w: Work, raised: Option<Text>)
    ensures var s := Restored(w, raised).state;
      s.status == w.state.status && (HasText(s.error) <==> HasText(w.state.error) || raised.Some?)
  {
  }

  /** Retrying after an exception is in vain: a node other than a tester comes out failed, whichever attempt raised. */
  lemma {:induction false} RetryAfterRaiseFails(setup: Setup, node: Node, w: Work, attempts: seq<Try>, k: nat)
    requires node.role != Tester && Invoke(setup, node, w, attempts).Some?
    requires k < |attempts| && k < Made(setup, node, w, attempts, node.retryLimit) && attempts[k].Raises?
    ensures ComesOutFailed(node.role, Invoke(setup, node, w, attempts).value.state)
  {
    var made := Made(setup, node, w, attempts, node.retryLimit);
    RetriedIs(setup, node, w, attempts, node.retryLimit, None);
    LastRaisedIff(attempts, made, None);
    RestoredText(Reached(setup, node, w, attempts, made).value, LastRaised(attempts, made, None));
  }

  // ---- model errors ------------------------------------------------------------------------

  /** The handler comes to ask the model. */
  predicate AsksModel(setup: Setup, node: Node, w: Work, input: AgentLoop.Input) {
    && !OverBudget(w.state, setup.config.budget, input.elapsed)
    && (if node.role == Planner then w.context
        else TakesTurns(node.role) && w.state.status != Failed && w.state.status != Interrupted)
  }

  /** The text of the model error that the attempt meets when it asks for the first time. */
  function ModelError(setup: Setup, node: Node, w: Work, attempt: Try): Option<string> {
    if attempt.Handles? && AsksModel(setup, node, w, attempt.first) && attempt.first.reply.Raised?
    then Some(attempt.first.reply.message) else None
  }

  /** An attempt that meets a model error leaves its text, in the failed state, if it comes to an end at all. */
  lemma ModelErrorLeaves(setup: Setup, node: Node, w: Work, attempt: Try)
    requires ModelError(setup, node, w, attempt).Some? && Attempted(setup, node, w, attempt).Some?
    ensures var s := Attempted(setup, node, w, attempt).value.state;
      s.error == ModelError(setup, node, w, attempt) && s.status == Failed
  {
    if TakesTurns(node.role) {
      AgentLoop.FailedLoopIsStuck(setup.config, Handle(setup, node, w, attempt.first).state, attempt.further);
    }
  }

  lemma RestoredModelError(
    setup: Setup, node: Node, before: Work, attempts: seq<Try>, k: nat, last: Work, message: string)
    requires k < |attempts| && Attempted(setup, node, before, attempts[k]) == Some(last)
    requires ModelError(setup, node, before, attempts[k]) == Some(message)
    ensures var s := Restored(last, LastRaised(attempts, k + 1, None)).state;
      s.status == Failed && (ComesOutFailed(node.role, s) <==> message != "" || RaisedBefore(attempts, k))
  {
    ModelErrorLeaves(setup, node, before, attempts[k]);
    LastRaisedIff(attempts, k + 1, None);
    RestoredText(last, LastRaised(attempts, k + 1, None));
    assert RaisedBefore(attempts, k + 1) <==> RaisedBefore(attempts, k);
  }

  /**
   * A node whose last attempt meets a model error leaves the run marked failed, and comes out failed itself if and only
   * if the error has a text, or an attempt before it raised.
   */
  lemma {:induction false} ModelErrorFailsIff(
    setup: Setup, node: Node, w: Work, attempts: seq<Try>, k: nat, before: Work, message: string)
    requires Invoke(setup, node, w, attempts).Some?
    requires k < |attempts| && Made(setup, node, w, attempts, node.retryLimit) == k + 1
    requires Reached(setup, node, w, attempts, k) == Some(before)
    requires ModelError(setup, node, before, attempts[k]) == Some(message)
    ensures var s := Invoke(setup, node, w, attempts).value.state;
      s.status == Failed && (ComesOutFailed(node.role, s) <==> message != "" || RaisedBefore(attempts, k))
  {
    var last := InvokedBy(setup, node, w, attempts, k, before);
    RestoredModelError(setup, node, before, attempts, k, last, message);
  }

  /** A model error without a text counts as no error: the node comes out as a success in the failed state. */
  lemma {:induction false} SilentModelErrorSucceeds(setup: Setup, node: Node, w: Work, input: AgentLoop.Input)
    requires TakesTurns(node.role) && input.reply == AgentNodes.Raised("")
    requires !AgentLoop.KeepsExecuting(setup.config, w.state)
    requires w.state.status != Failed && w.state.status != Interrupted
    requires !OverBudget(w.state, setup.config.budget, input.elapsed)
    ensures var out := Invoke(setup, node, w, [Handles(input, [])]);
      out.Some? && !ComesOutFailed(node.role, out.value.state) && out.value.state.status == Failed
  {
  }
}
