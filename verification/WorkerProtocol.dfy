/** One worker and the API: jobs handed over, cached results, lost callbacks, crashes, and results applied once. */
module WorkerProtocol {
  import opened Results

  datatype Status = AwaitingApproval | Queued | Running | Succeeded | Failed | Interrupted | Cancelled

  /** A dictionary the callback stores as it comes. */
  type Snapshot = map<string, string>

  /**
   * A worker's result; an empty text or dictionary stands for a missing one. `modelUsage` is what its events add up to.
   */
  datatype Payload = Payload(
    runId: int, status: Status, outcome: string, waived: bool, testCommand: string, exitCode: Option<int>,
    reason: string, diff: string, error: string, usage: Snapshot, modelUsage: Snapshot, budgets: Snapshot)

  datatype Refusal = NoSuchStatus | NoSuchRun | WrongRun

  /** A run as the API stores it; `applied` is the result its verification came from. */
  datatype Row = Row(
    writeCapable: bool, status: Status, finished: bool, step: string, reason: string, diff: string, error: string,
    usage: Snapshot, budgets: Snapshot, passed: bool, applied: Option<Payload>)

  // ---- the callback ------------------------------------------------------------------------

  const UNVERIFIED := "write-capable run did not provide passing verification or an explicit waiver"

  predicate Passed(p: Payload) {
    && p.status == Succeeded
    && (p.outcome == "passed" || p.waived || (p.outcome == "" && p.testCommand != "" && p.exitCode == Some(0)))
  }

  /** A run that may write does not count as succeeded without passing verification or a waiver. */
  predicate Blocked(row: Row, p: Payload) {
    p.status == Succeeded && row.writeCapable && !Passed(p)
  }

  function OrElse(a: Snapshot, b: Snapshot): Snapshot {
    if |a| > 0 then a else b
  }

  predicate Terminal(status: Status) {
    status == Succeeded || status == Failed || status == Interrupted
  }

  /** How the run came out. */
  function Concluded(row: Row, p: Payload): Row {
    row.(status := p.status, finished := Terminal(p.status),
         step := if Terminal(p.status) then "finalize" else "approval",
         diff := p.diff, error := p.error, reason := p.reason)
  }

  /** What it used and what it showed. */
  function Recorded(row: Row, p: Payload): Row {
    row.(usage := OrElse(p.usage, p.modelUsage), budgets := OrElse(p.budgets, row.budgets), passed := Passed(p),
         applied := Some(p))
  }

  /** The fields the result sets by itself. */
  function Stored(row: Row, p: Payload): Row {
    Recorded(Concluded(row, p), p)
  }

  /** The row when a success without verification is turned into a failure. */
  function Downgraded(row: Row): Row {
    row.(status := Failed, finished := true, step := "finalize", reason := "verification_blocked",
         error := if row.error != "" then row.error else UNVERIFIED)
  }

  function Applied(row: Row, p: Payload): Row {
    if Blocked(row, p) then Downgraded(Stored(row, p)) else Stored(row, p)
  }

  /** What a first result leaves in the row, by what it says. */
  predicate Shown(before: Row, p: Payload, after: Row) {
    var tested := p.outcome == "" && p.testCommand != "" && p.exitCode == Some(0);
    var verified := p.outcome == "passed" || p.waived || tested;
    && after.writeCapable == before.writeCapable && after.applied == Some(p) && after.diff == p.diff
    && after.usage == (if p.usage != map[] then p.usage else p.modelUsage)
    && after.budgets == (if p.budgets != map[] then p.budgets else before.budgets)
    && (after.passed <==> p.status == Succeeded && verified)
    && if p.status == Succeeded && before.writeCapable && !verified then
         && after.status == Failed && after.finished
         && after.step == "finalize" && after.reason == "verification_blocked"
         && after.error == if p.error != "" then p.error else UNVERIFIED
       else
         && after.status == p.status && after.reason == p.reason && after.error == p.error
         && (after.finished <==> p.status == Succeeded || p.status == Failed || p.status == Interrupted)
         && after.step == if after.finished then "finalize" else "approval"
  }

  lemma {:induction false} AppliedIsShown(row: Row, p: Payload)
    ensures Shown(row, p, Applied(row, p))
  {
    StoredIs(row, p);
  }

  /** What the result sets by itself, by what it says. */
  lemma StoredIs(row: Row, p: Payload)
    ensures Stored(row, p) == Row(
      row.writeCapable, p.status, p.status == Succeeded || p.status == Failed || p.status == Interrupted,
      if p.status == Succeeded || p.status == Failed || p.status == Interrupted then "finalize" else "approval",
      p.reason, p.diff, p.error, if p.usage != map[] then p.usage else p.modelUsage,
      if p.budgets != map[] then p.budgets else row.budgets, Passed(p), Some(p))
  {
    NoneOrSome(p.usage);
    NoneOrSome(p.budgets);
  }

  lemma NoneOrSome(a: Snapshot)
    ensures |a| > 0 <==> a != map[]
  {
    if |a| == 0 {
      assert a == map[];
    }
  }

  function RefusalOf(known: bool, id: int, p: Payload): Option<Refusal> {
    if p.status in {Queued, Running, Cancelled} then Some(NoSuchStatus)
    else if !known then Some(NoSuchRun)
    else if p.runId != id then Some(WrongRun)
    else None
  }

  class TaskRun {
    const id: int
    const writeCapable: bool
    var status: Status
    var finished: bool
    var step: string
    var reason: string
    var diff: string
    var error: string
    var usage: Snapshot
    var budgets: Snapshot
    var passed: bool
    var applied: Option<Payload>

    ghost function View(): Row
      reads this
    {
      Row(writeCapable, status, finished, step, reason, diff, error, usage, budgets, passed, applied)
    }

    constructor (id: int, writeCapable: bool, budgets: Snapshot)
      ensures this.id == id && View() == NewRow(writeCapable, budgets)
    {
      this.id, this.writeCapable, this.budgets := id, writeCapable, budgets;
      status, finished, step, reason, diff, error := AwaitingApproval, false, "", "", "", "";
      usage, passed, applied := map[], false, None;
    }

    /** The first result is applied; later ones are accepted and change nothing. */
    method ApplyWorkerResult(p: Payload) returns (refusal: Option<Refusal>)
      modifies this
      ensures refusal ==
        if p.status == Queued || p.status == Running || p.status == Cancelled then Some(NoSuchStatus)
        else if p.runId != id then Some(WrongRun) else None
      ensures if refusal == None && old(applied) == None then Shown(old(View()), p, View()) else View() == old(View())
      ensures refusal == RefusalOf(true, id, p)
      ensures View() == if refusal == None && old(applied) == None then Applied(old(View()), p) else old(View())
    {
      if p.status == Queued || p.status == Running || p.status == Cancelled {
        return Some(NoSuchStatus);
      }
      if p.runId != id {
        return Some(WrongRun);
      }
      if applied.Some? {
        return None;
      }
      AppliedIsShown(View(), p);
      Conclude(p);
      Record(p);
      if p.status == Succeeded && writeCapable && !passed {
        Downgrade();
      }
      return None;
    }

    method Conclude(p: Payload)
      modifies this
      ensures View() == Concluded(old(View()), p)
    {
      status := p.status;
      finished := Terminal(p.status);
      step := if finished then "finalize" else "approval";
      diff, error, reason := p.diff, p.error, p.reason;
    }

    method Record(p: Payload)
      modifies this
      ensures View() == Recorded(old(View()), p)
    {
      usage := OrElse(p.usage, p.modelUsage);
      budgets := OrElse(p.budgets, budgets);
      passed := Passed(p);
      applied := Some(p);
    }

    method Downgrade()
      modifies this
      ensures View() == Downgraded(old(View()))
    {
      status, finished, step, reason := Failed, true, "finalize", "verification_blocked";
      error := if error != "" then error else UNVERIFIED;
    }
  }

  function NewRow(writeCapable: bool, budgets: Snapshot): Row {
    Row(writeCapable, AwaitingApproval, false, "", "", "", "", map[], budgets, false, None)
  }

  // ---- the protocol ------------------------------------------------------------------------

  /** Where the worker is with the message it holds. */
  datatype Phase = Idle | Holding(id: int) | Executing(id: int) | Posting(id: int, payload: Payload) | Answered(id: int)

  datatype Application = Application(id: int, payload: Payload)

  /**
   * The messages no worker has read, in order, those read but not acknowledged, the worker, its cached results, the
   * stored runs, those whose start is still to be decided, and every application so far.
   */
  datatype State = State(
    queue: seq<int>, unacknowledged: multiset<int>, phase: Phase, caches: map<int, Payload>, rows: map<int, Row>,
    undecided: set<int>, log: seq<Application>)

  /** How handing a run to the queue goes: a message, a queue that fails, or an error raised before it is reached. */
  datatype Handover = Handed | Broken(message: string) | Raised

  datatype Action =
    | Create(id: int, writeCapable: bool, budgets: Snapshot)
    | ApproveStart(id: int, handover: Handover)
    | RejectStart(id: int)
    | ApproveCapability(id: int, handover: Handover)
    | Interrupt(id: int)
    | Resume(id: int, handover: Handover)
    | Deliver
    | Discard
    | Begin
    | Finish(payload: Payload)
    | Post(arrives: bool, answered: bool)
    | Acknowledge
    | Crash

  function Callback(s: State, id: int, p: Payload): State {
    if RefusalOf(id in s.rows, id, p) == None && s.rows[id].applied == None
    then s.(rows := s.rows[id := Applied(s.rows[id], p)], log := s.log + [Application(id, p)])
    else s
  }

  /**
   * The callback may not arrive, be refused, or lose its answer; it is acknowledged only when accepted and answered.
   */
  function Posted(s: State, arrives: bool, answered: bool): State
    requires s.phase.Posting?
  {
    var id, p := s.phase.id, s.phase.payload;
    if !arrives then s.(phase := Idle)
    else Callback(s, id, p).(phase := if answered && RefusalOf(id in s.rows, id, p) == None then Answered(id) else Idle)
  }

  /** The run is queued and handed over; a queue that fails leaves it failed, an error before that leaves it queued. */
  function Requeued(s: State, id: int, handover: Handover): State
    requires id in s.rows
  {
    var row := s.rows[id].(status := Queued);
    match handover
    case Handed => s.(rows := s.rows[id := row], queue := s.queue + [id])
    case Broken(message) =>
      s.(rows := s.rows[id := row.(status := Failed, finished := true,
                                   error := "Failed to enqueue worker job: " + message)])
    case Raised => s.(rows := s.rows[id := row])
  }

  /** Whether the API takes the request in the run's present status. */
  predicate Permits(s: State, a: Action) {
    match a
    case Create(id, _, _) => id !in s.rows
    case ApproveStart(id, _) => id in s.rows && id in s.undecided
    case RejectStart(id) => id in s.rows && id in s.undecided
    case ApproveCapability(id, _) => id in s.rows && s.rows[id].status in {Succeeded, Interrupted}
    case Interrupt(id) => id in s.rows && s.rows[id].status in {AwaitingApproval, Queued, Running}
    case Resume(id, _) => id in s.rows && s.rows[id].status == Interrupted
    case _ => false
  }

  /** What the API does on its own account. */
  function ByApi(s: State, a: Action): State
    requires Permits(s, a)
  {
    match a
    case Create(id, writeCapable, budgets) =>
      s.(rows := s.rows[id := NewRow(writeCapable, budgets)], undecided := s.undecided + {id})
    case ApproveStart(id, handover) => Requeued(s, id, handover).(undecided := s.undecided - {id})
    case RejectStart(id) =>
      s.(rows := s.rows[id := s.rows[id].(status := Cancelled, finished := true)], undecided := s.undecided - {id})
    case ApproveCapability(id, handover) => Requeued(s, id, handover)
    case Interrupt(id) => s.(rows := s.rows[id := s.rows[id].(status := Interrupted)])
    case Resume(id, handover) => Requeued(s, id, handover)
  }

  function Acknowledged(s: State): State
    requires s.phase.Holding? || s.phase.Answered?
  {
    s.(unacknowledged := s.unacknowledged - multiset{s.phase.id}, phase := Idle)
  }

  /**
   * One step; an action that is not possible in a state leaves it as it is. Only messages that no worker has read are
   * delivered: one left unacknowledged by a crash or a failed callback is not read again.
   */
  function Step(s: State, a: Action): State {
    match a
    case Deliver =>
      if s.phase != Idle || s.queue == [] then s
      else
        var id := s.queue[0];
        s.(phase := Holding(id), queue := s.queue[1..], unacknowledged := s.unacknowledged + multiset{id})
    case Discard => if s.phase.Holding? then Acknowledged(s) else s
    case Begin =>
      if !s.phase.Holding? then s
      else if s.phase.id in s.caches then s.(phase := Posting(s.phase.id, s.caches[s.phase.id]))
      else s.(phase := Executing(s.phase.id))
    case Finish(p) =>
      if s.phase.Executing? then s.(caches := s.caches[s.phase.id := p], phase := Posting(s.phase.id, p)) else s
    case Post(arrives, answered) => if s.phase.Posting? then Posted(s, arrives, answered) else s
    case Acknowledge => if s.phase.Answered? then Acknowledged(s) else s
    case Crash => s.(phase := Idle)
    case _ => if Permits(s, a) then ByApi(s, a) else s
  }

  function After(s: State, actions: seq<Action>): State {
    if actions == [] then s else Step(After(s, actions[..|actions| - 1]), actions[|actions| - 1])
  }

  const START := State([], multiset{}, Idle, map[], map[], {}, [])

  // ---- what every run keeps ----------------------------------------------------------------

  /** The worker executes only what has no cached result, and posts only what is cached. */
  predicate FaithfulWorker(s: State) {
    match s.phase
    case Executing(id) => id !in s.caches
    case Posting(id, p) => id in s.caches && s.caches[id] == p
    case _ => true
  }

  /** The row is as the result left it, but for what the API may have done with its status since. */
  predicate Shows(row: Row, p: Payload) {
    var shown := Applied(row, p);
    && row == shown.(status := row.status, finished := row.finished, error := row.error)
    && (row.status == shown.status || row.status in {Queued, Interrupted, Cancelled, Failed})
  }

  /** What a run says was applied is its cached result, under its own number. */
  predicate FaithfulRow(s: State, id: int, row: Row) {
    match row.applied
    case None => row.status != Succeeded
    case Some(p) => id in s.caches && s.caches[id] == p && p.runId == id && Shows(row, p)
  }

  ghost predicate FaithfulRows(s: State) {
    forall id :: id in s.rows ==> FaithfulRow(s, id, s.rows[id])
  }

  /** Every application is the one its run shows, and no run has two. */
  ghost predicate FaithfulLog(s: State) {
    && (forall i :: 0 <= i < |s.log| ==> s.log[i].id in s.rows && s.rows[s.log[i].id].applied == Some(s.log[i].payload))
    && (forall i, j :: 0 <= i < j < |s.log| ==> s.log[i].id != s.log[j].id)
    && (forall id :: id in s.rows && s.rows[id].applied.Some? ==> Application(id, s.rows[id].applied.value) in s.log)
  }

  ghost predicate Sound(s: State) {
    FaithfulWorker(s) && FaithfulRows(s) && FaithfulLog(s)
  }

  lemma AppliedTwice(row: Row, p: Payload)
    ensures Applied(Applied(row, p), p) == Applied(row, p)
  {
    assert Stored(Stored(row, p), p) == Stored(row, p);
    if Blocked(row, p) {
      assert Stored(Downgraded(Stored(row, p)), p) == Stored(row, p);
    }
  }

  lemma AppliedShows(row: Row, p: Payload)
    ensures Applied(row, p).applied == Some(p) && Shows(Applied(row, p), p)
  {
    AppliedTwice(row, p);
  }

  lemma CallbackKeepsRows(s: State, id: int, p: Payload)
    requires FaithfulRows(s) && id in s.caches && s.caches[id] == p
    ensures FaithfulRows(Callback(s, id, p))
  {
    var t := Callback(s, id, p);
    if id in s.rows {
      AppliedShows(s.rows[id], p);
    }
    forall other | other in t.rows ensures FaithfulRow(t, other, t.rows[other]) {
      assert FaithfulRow(s, other, s.rows[other]);
    }
  }

  lemma CallbackKeepsLog(s: State, id: int, p: Payload)
    requires FaithfulLog(s)
    ensures FaithfulLog(Callback(s, id, p))
  {
    var t := Callback(s, id, p);
    if t != s {
      forall i | 0 <= i < |s.log| ensures s.log[i].id != id {
      }
      assert t.log[|s.log|] == Application(id, p);
      forall other | other in t.rows && t.rows[other].applied.Some?
        ensures Application(other, t.rows[other].applied.value) in t.log
      {
        if other != id {
          assert Application(other, s.rows[other].applied.value) in s.log;
        }
      }
    }
  }

  lemma PostKeepsSound(s: State, arrives: bool, answered: bool)
    requires Sound(s) && s.phase.Posting?
    ensures Sound(Posted(s, arrives, answered))
  {
    CallbackKeepsRows(s, s.phase.id, s.phase.payload);
    CallbackKeepsLog(s, s.phase.id, s.phase.payload);
  }

  lemma FinishKeepsSound(s: State, p: Payload)
    requires Sound(s) && s.phase.Executing?
    ensures Sound(Step(s, Finish(p)))
  {
    var t := Step(s, Finish(p));
    forall id | id in t.rows ensures FaithfulRow(t, id, t.rows[id]) {
      assert FaithfulRow(s, id, s.rows[id]);
    }
  }

  /** The API never touches what a result left in a row, and never calls a run succeeded. */
  predicate Moved(before: Row, after: Row) {
    && after == before.(status := after.status, finished := after.finished, error := after.error)
    && (after.status == before.status || after.status in {Queued, Interrupted, Cancelled, Failed})
  }

  lemma RequeuedMoves(s: State, id: int, handover: Handover, other: int)
    requires id in s.rows && other in s.rows
    ensures var t := Requeued(s, id, handover);
      && other in t.rows && Moved(s.rows[other], t.rows[other])
      && t.caches == s.caches && t.log == s.log && t.phase == s.phase
  {
  }

  lemma ApiMoves(s: State, a: Action, id: int)
    requires Permits(s, a) && id in s.rows
    ensures var t := ByApi(s, a); id in t.rows && Moved(s.rows[id], t.rows[id])
  {
    match a
    case ApproveStart(other, handover) => RequeuedMoves(s, other, handover, id);
    case ApproveCapability(other, handover) => RequeuedMoves(s, other, handover, id);
    case Resume(other, handover) => RequeuedMoves(s, other, handover, id);
    case _ =>
  }

  lemma ApiCreates(s: State, a: Action, id: int)
    requires Permits(s, a) && id !in s.rows && id in ByApi(s, a).rows
    ensures ByApi(s, a).rows[id].applied == None && ByApi(s, a).rows[id].status == AwaitingApproval
  {
  }

  lemma ApiRest(s: State, a: Action)
    requires Permits(s, a)
    ensures var t := ByApi(s, a);
      t.caches == s.caches && t.log == s.log && t.phase == s.phase && s.rows.Keys <= t.rows.Keys
  {
  }

  lemma ApiKeepsRow(s: State, a: Action, id: int)
    requires FaithfulRows(s) && Permits(s, a) && id in ByApi(s, a).rows
    ensures var t := ByApi(s, a);
      && FaithfulRow(t, id, t.rows[id])
      && t.rows[id].applied == if id in s.rows then s.rows[id].applied else None
  {
    ApiRest(s, a);
    if id in s.rows {
      ApiMoves(s, a, id);
      assert FaithfulRow(s, id, s.rows[id]);
    } else {
      ApiCreates(s, a, id);
    }
  }

  lemma ApiKeepsSound(s: State, a: Action)
    requires Sound(s) && Permits(s, a)
    ensures Sound(ByApi(s, a))
  {
    var t := ByApi(s, a);
    ApiRest(s, a);
    forall id | id in t.rows
      ensures FaithfulRow(t, id, t.rows[id])
      ensures t.rows[id].applied == if id in s.rows then s.rows[id].applied else None
    {
      ApiKeepsRow(s, a, id);
    }
    LogStays(s, t);
  }

  lemma LogStays(s: State, t: State)
    requires FaithfulLog(s) && t.log == s.log && s.rows.Keys <= t.rows.Keys
    requires forall id :: id in t.rows ==> t.rows[id].applied == if id in s.rows then s.rows[id].applied else None
    ensures FaithfulLog(t)
  {
  }

  lemma {:induction false} StepKeepsSound(s: State, a: Action)
    requires Sound(s)
    ensures Sound(Step(s, a))
  {
    match a
    case Post(arrives, answered) =>
      if s.phase.Posting? {
        PostKeepsSound(s, arrives, answered);
      }
    case Finish(p) =>
      if s.phase.Executing? {
        FinishKeepsSound(s, p);
      }
    case _ =>
      if ByWorker(a) {
        WorkerMoves(s, a);
        PhaseKeepsSound(s, Step(s, a));
      } else if Permits(s, a) {
        ApiKeepsSound(s, a);
      }
  }

  lemma WorkerMoves(s: State, a: Action)
    requires FaithfulWorker(s) && (a.Deliver? || a.Discard? || a.Begin? || a.Acknowledge? || a.Crash?)
    ensures var t := Step(s, a);
      FaithfulWorker(t) && t.caches == s.caches && t.rows == s.rows && t.log == s.log
  {
  }

  lemma PhaseKeepsSound(s: State, t: State)
    requires FaithfulRows(s) && FaithfulLog(s) && FaithfulWorker(t)
    requires t.caches == s.caches && t.rows == s.rows && t.log == s.log
    ensures Sound(t)
  {
    forall id | id in t.rows ensures FaithfulRow(t, id, t.rows[id]) {
      assert FaithfulRow(s, id, s.rows[id]);
    }
  }

  lemma {:induction false} EveryRunSound(actions: seq<Action>)
    ensures Sound(After(START, actions))
  {
    if actions != [] {
      EveryRunSound(actions[..|actions| - 1]);
      StepKeepsSound(After(START, actions[..|actions| - 1]), actions[|actions| - 1]);
    }
  }

  /** Over any deliveries, crashes and lost callbacks, each run has its result applied at most once. */
  lemma {:induction false} AppliedAtMostOnce(actions: seq<Action>, i: nat, j: nat)
    requires i < |After(START, actions).log| && j < |After(START, actions).log|
    requires After(START, actions).log[i].id == After(START, actions).log[j].id
    ensures i == j
  {
    EveryRunSound(actions);
  }

  /** What was applied is what the worker cached, under the run's own number. */
  lemma {:induction false} AppliedIsCached(actions: seq<Action>, i: nat)
    requires i < |After(START, actions).log|
    ensures var s, a := After(START, actions), After(START, actions).log[i];
      a.id in s.caches && s.caches[a.id] == a.payload && a.payload.runId == a.id
  {
    EveryRunSound(actions);
    var s := After(START, actions);
    assert FaithfulRow(s, s.log[i].id, s.rows[s.log[i].id]);
  }

  /**
   * A run that may write is stored as succeeded only if its result succeeded and its verification passed or was waived,
   * or, where it names no outcome, its test command exited with 0.
   */
  lemma {:induction false} SucceededIsVerified(actions: seq<Action>, id: int)
    requires id in After(START, actions).rows
    ensures var row := After(START, actions).rows[id];
      row.status == Succeeded && row.writeCapable ==>
        && row.passed && row.applied.Some?
        && var p := row.applied.value;
        && p.status == Succeeded
        && (p.outcome == "passed" || p.waived || (p.outcome == "" && p.testCommand != "" && p.exitCode == Some(0)))
  {
    EveryRunSound(actions);
    var s := After(START, actions);
    assert FaithfulRow(s, id, s.rows[id]);
  }

  /**
   * A first result that claims success for a run that may write, without passing or waived verification, fails the run,
   * and whatever happens later the row goes on saying why.
   */
  lemma {:induction false} UnverifiedIsBlocked(actions: seq<Action>, id: int, p: Payload)
    requires id in After(START, actions).rows && After(START, actions).rows[id].applied == Some(p)
    requires After(START, actions).rows[id].writeCapable && p.status == Succeeded
    requires p.outcome != "passed" && !p.waived && !(p.outcome == "" && p.testCommand != "" && p.exitCode == Some(0))
    ensures var row := After(START, actions).rows[id];
      && row.status != Succeeded && row.step == "finalize" && row.reason == "verification_blocked"
      && !row.passed && row.diff == p.diff && row.usage == if p.usage != map[] then p.usage else p.modelUsage
  {
    EveryRunSound(actions);
    var s := After(START, actions);
    assert FaithfulRow(s, id, s.rows[id]);
    AppliedIsShown(s.rows[id], p);
  }

  /** An accepted callback stores a first result and changes nothing afterwards; a refused one changes nothing. */
  lemma {:induction false} CallbackShows(s: State, id: int, p: Payload)
    ensures var t := Callback(s, id, p);
      && t.caches == s.caches && t.queue == s.queue && t.undecided == s.undecided
      && t.unacknowledged == s.unacknowledged && t.phase == s.phase
      && if id in s.rows && p.runId == id && p.status in {AwaitingApproval, Succeeded, Failed, Interrupted}
            && s.rows[id].applied == None then
           && t.rows.Keys == s.rows.Keys && Shown(s.rows[id], p, t.rows[id])
           && (forall other :: other in s.rows && other != id ==> t.rows[other] == s.rows[other])
           && t.log == s.log + [Application(id, p)]
         else t == s
  {
    if id in s.rows {
      AppliedIsShown(s.rows[id], p);
    }
  }

  // ---- a cached result is final ------------------------------------------------------------

  lemma CacheStays(s: State, a: Action, id: int)
    requires FaithfulWorker(s) && id in s.caches
    ensures var t := Step(s, a); id in t.caches && t.caches[id] == s.caches[id]
  {
  }

  /** Once a result is cached it never changes, and its run is never executed again. */
  lemma {:induction false} CacheIsFinal(s: State, actions: seq<Action>, id: int)
    requires Sound(s) && id in s.caches
    ensures var t := After(s, actions);
      Sound(t) && id in t.caches && t.caches[id] == s.caches[id] && t.phase != Executing(id)
  {
    if actions != [] {
      var front := actions[..|actions| - 1];
      CacheIsFinal(s, front, id);
      CacheStays(After(s, front), actions[|actions| - 1], id);
      StepKeepsSound(After(s, front), actions[|actions| - 1]);
    }
  }

  /** The steps of the worker, its messages and its callbacks. */
  predicate ByWorker(a: Action) {
    a.Deliver? || a.Discard? || a.Begin? || a.Finish? || a.Post? || a.Acknowledge? || a.Crash?
  }

  lemma WorkerLeavesApplied(s: State, a: Action, id: int)
    requires id in s.rows && s.rows[id].applied.Some? && ByWorker(a)
    ensures var t := Step(s, a); id in t.rows && t.rows[id] == s.rows[id]
  {
  }

  lemma StepLeavesApplied(s: State, a: Action, id: int)
    requires id in s.rows && s.rows[id].applied.Some?
    ensures var t := Step(s, a);
      && id in t.rows && Moved(s.rows[id], t.rows[id])
      && (ByWorker(a) ==> t.rows[id] == s.rows[id])
  {
    if ByWorker(a) {
      WorkerLeavesApplied(s, a, id);
    } else if Permits(s, a) {
      ApiMoves(s, a, id);
    }
  }

  predicate AllByWorker(actions: seq<Action>) {
    actions == [] || (AllByWorker(actions[..|actions| - 1]) && ByWorker(actions[|actions| - 1]))
  }

  /**
   * Once a result is applied, no later callback changes the row, and whatever the operator does leaves what the result
   * said: only status, finishing time and error can move, and never to succeeded.
   */
  lemma {:induction false} AppliedIsFinal(s: State, actions: seq<Action>, id: int)
    requires id in s.rows && s.rows[id].applied.Some?
    ensures var t := After(s, actions);
      && id in t.rows && Moved(s.rows[id], t.rows[id])
      && (AllByWorker(actions) ==> t.rows[id] == s.rows[id])
  {
    if actions != [] {
      AppliedIsFinal(s, actions[..|actions| - 1], id);
      StepLeavesApplied(After(s, actions[..|actions| - 1]), actions[|actions| - 1], id);
    }
  }

  // ---- handing a run over again ------------------------------------------------------------

  lemma TwoSteps(s: State, a: Action, b: Action)
    ensures After(s, [a, b]) == Step(Step(s, a), b)
  {
    AfterSnoc(s, [], a);
    AfterSnoc(s, [a], b);
    assert [] + [a] == [a] && [a] + [b] == [a, b];
  }

  lemma ThreeSteps(s: State, a: Action, b: Action, c: Action)
    ensures After(s, [a, b, c]) == Step(Step(Step(s, a), b), c)
  {
    TwoSteps(s, a, b);
    AfterSnoc(s, [a, b], c);
    assert [a, b] + [c] == [a, b, c];
  }

  /** The API puts a message for the run into the queue. */
  predicate HandsOver(a: Action, id: int) {
    match a
    case ApproveStart(other, handover) => other == id && handover == Handed
    case ApproveCapability(other, handover) => other == id && handover == Handed
    case Resume(other, handover) => other == id && handover == Handed
    case _ => false
  }

  predicate NotHandedOver(actions: seq<Action>, id: int) {
    forall a :: a in actions ==> !HandsOver(a, id)
  }

  /** No message for the run is unread, and the worker is not at work on one. */
  predicate Quiet(s: State, id: int) {
    && id !in s.queue
    && s.phase != Holding(id) && s.phase != Executing(id) && !(s.phase.Posting? && s.phase.id == id)
  }

  lemma QuietStep(s: State, a: Action, id: int)
    requires Quiet(s, id) && !HandsOver(a, id)
    ensures var t := Step(s, a);
      Quiet(t, id) && (id in s.rows ==> id in t.rows && t.rows[id].applied == s.rows[id].applied)
  {
    if !ByWorker(a) && Permits(s, a) && id in s.rows {
      ApiMoves(s, a, id);
    }
  }

  /** Without being handed over, a quiet run stays quiet: it is neither executed nor has a result applied. */
  lemma {:induction false} QuietStays(s: State, actions: seq<Action>, id: int)
    requires Quiet(s, id) && NotHandedOver(actions, id)
    ensures var t := After(s, actions);
      Quiet(t, id) && (id in s.rows ==> id in t.rows && t.rows[id].applied == s.rows[id].applied)
  {
    if actions != [] {
      var front := actions[..|actions| - 1];
      assert NotHandedOver(front, id);
      QuietStays(s, front, id);
      QuietStep(After(s, front), actions[|actions| - 1], id);
    }
  }

  /** Crashing over the messages before it, the worker comes to hold an unread one. */
  lemma {:induction false} ReadOn(s: State, id: int) returns (actions: seq<Action>)
    requires id in s.queue
    ensures forall a :: a in actions ==> a == Crash || a == Deliver
    ensures var t := After(s, actions);
      t.phase == Holding(id) && t.caches == s.caches && t.rows == s.rows
    decreases |s.queue|
  {
    actions := [Crash, Deliver];
    TwoSteps(s, Crash, Deliver);
    var t := Step(Step(s, Crash), Deliver);
    assert t.phase == Holding(s.queue[0]) && t.queue == s.queue[1..];
    if s.queue[0] != id {
      var rest := ReadOn(t, id);
      AfterAppend(s, actions, rest);
      actions := actions + rest;
    }
  }

  /** The worker can come to hold the run's message, or holds it. */
  lemma ComesToHold(s: State, id: int) returns (actions: seq<Action>)
    requires id in s.queue || s.phase == Holding(id)
    ensures NotHandedOver(actions, id)
    ensures var t := After(s, actions);
      t.phase == Holding(id) && t.caches == s.caches && t.rows == s.rows
  {
    if s.phase == Holding(id) {
      actions := [];
    } else {
      actions := ReadOn(s, id);
    }
  }

  lemma CanExecute(s: State, id: int) returns (actions: seq<Action>)
    requires id !in s.caches && (id in s.queue || s.phase == Holding(id) || s.phase == Executing(id))
    ensures NotHandedOver(actions, id) && After(s, actions).phase == Executing(id)
  {
    actions := [];
    if s.phase != Executing(id) {
      var hold := ComesToHold(s, id);
      AfterSnoc(s, hold, Begin);
      actions := hold + [Begin];
    }
  }

  /**
   * Without being handed over again, a run is executed if and only if no result is cached for it and its message is
   * unread or in the worker's hands. A message that was read and is still unacknowledged does not help.
   */
  lemma {:induction false} ExecutedAgainIff(s: State, id: int)
    requires Sound(s)
    ensures (exists later :: NotHandedOver(later, id) && After(s, later).phase == Executing(id))
      <==> id !in s.caches && (id in s.queue || s.phase == Holding(id) || s.phase == Executing(id))
  {
    if id !in s.caches && (id in s.queue || s.phase == Holding(id) || s.phase == Executing(id)) {
      var later := CanExecute(s, id);
    }
    if later :| NotHandedOver(later, id) && After(s, later).phase == Executing(id) {
      if id in s.caches {
        CacheIsFinal(s, later, id);
      } else if Quiet(s, id) {
        QuietStays(s, later, id);
      }
    }
  }

  lemma {:induction false} PostApplies(s: State, id: int)
    requires Sound(s) && id in s.caches && id in s.rows && RefusalOf(true, id, s.caches[id]) == None
    requires s.phase.Posting? && s.phase.id == id
    ensures var t := Step(s, Post(true, true)); id in t.rows && t.rows[id].applied == Some(s.caches[id])
  {
    assert FaithfulRow(s, id, s.rows[id]);
  }

  lemma CanApply(s: State, id: int) returns (actions: seq<Action>)
    requires Sound(s) && id in s.caches && id in s.rows && RefusalOf(true, id, s.caches[id]) == None
    requires !Quiet(s, id)
    ensures NotHandedOver(actions, id)
    ensures var t := After(s, actions); id in t.rows && t.rows[id].applied == Some(s.caches[id])
  {
    actions := ComesToPost(s, id);
    StaysSound(s, actions);
    PostApplies(After(s, actions), id);
    AfterSnoc(s, actions, Post(true, true));
    actions := actions + [Post(true, true)];
  }

  lemma ComesToPost(s: State, id: int) returns (actions: seq<Action>)
    requires FaithfulWorker(s) && id in s.caches && !Quiet(s, id)
    ensures NotHandedOver(actions, id)
    ensures var t := After(s, actions);
      t.phase.Posting? && t.phase.id == id && t.caches == s.caches && t.rows == s.rows
  {
    actions := [];
    if !s.phase.Posting? || s.phase.id != id {
      var hold := ComesToHold(s, id);
      AfterSnoc(s, hold, Begin);
      actions := hold + [Begin];
    }
  }

  lemma {:induction false} StaysSound(s: State, actions: seq<Action>)
    requires Sound(s)
    ensures Sound(After(s, actions))
  {
    if actions != [] {
      StaysSound(s, actions[..|actions| - 1]);
      StepKeepsSound(After(s, actions[..|actions| - 1]), actions[|actions| - 1]);
    }
  }

  /**
   * A cached result whose callback was lost is applied without a new hand-over if and only if a message for the run is
   * unread or in the worker's hands. The message it came with is not enough: although left unacknowledged for another
   * delivery, it is never delivered again.
   */
  lemma {:induction false} AppliedLaterIff(s: State, id: int)
    requires Sound(s) && id in s.caches && id in s.rows && s.rows[id].applied == None
    requires RefusalOf(true, id, s.caches[id]) == None
    ensures (exists later :: NotHandedOver(later, id) && AppliedIn(After(s, later), id)) <==> !Quiet(s, id)
  {
    if !Quiet(s, id) {
      var later := CanApply(s, id);
      assert AppliedIn(After(s, later), id);
    } else if later :| NotHandedOver(later, id) && AppliedIn(After(s, later), id) {
      QuietStays(s, later, id);
    }
  }

  predicate AppliedIn(s: State, id: int) {
    id in s.rows && s.rows[id].applied.Some?
  }

  /** No message is left for the run, and the API refuses every request that would hand it over. */
  predicate GivenUp(s: State, id: int) {
    Quiet(s, id) && id in s.rows && id !in s.undecided && s.rows[id].status in {Failed, Cancelled}
  }

  lemma GivenUpStep(s: State, a: Action, id: int)
    requires GivenUp(s, id)
    ensures var t := Step(s, a); GivenUp(t, id) && t.rows[id].applied == s.rows[id].applied
  {
    if ByWorker(a) || Permits(s, a) {
      QuietStep(s, a, id);
    }
  }

  lemma {:induction false} GivenUpStays(s: State, actions: seq<Action>, id: int)
    requires GivenUp(s, id)
    ensures var t := After(s, actions); GivenUp(t, id) && t.rows[id].applied == s.rows[id].applied
  {
    if actions != [] {
      GivenUpStays(s, actions[..|actions| - 1], id);
      GivenUpStep(After(s, actions[..|actions| - 1]), actions[|actions| - 1], id);
    }
  }

  /** The run has a message, no result, and what is cached is as before. */
  predicate Requested(s: State, t: State, id: int) {
    id in t.queue && t.caches == s.caches && id in t.rows && t.rows[id].applied == None
  }

  lemma HandOverOnce(s: State, a: Action, id: int)
    requires id in s.rows && s.rows[id].applied == None && Permits(s, a)
    requires a == ApproveStart(id, Handed) || a == Resume(id, Handed)
    ensures Requested(s, Step(s, a), id) && After(s, [a]) == Step(s, a)
  {
    AfterSnoc(s, [], a);
    assert [] + [a] == [a];
  }

  lemma HandOverTwice(s: State, id: int)
    requires id in s.rows && s.rows[id].applied == None && s.rows[id].status in {AwaitingApproval, Queued, Running}
    ensures Requested(s, After(s, [Interrupt(id), Resume(id, Handed)]), id)
  {
    var t := Step(s, Interrupt(id));
    TwoSteps(s, Interrupt(id), Resume(id, Handed));
    assert t == s.(rows := s.rows[id := s.rows[id].(status := Interrupted)]);
    HandOverOnce(t, Resume(id, Handed), id);
  }

  lemma HandOver(s: State, id: int) returns (actions: seq<Action>)
    requires Sound(s) && id in s.rows && s.rows[id].applied == None && Quiet(s, id) && !GivenUp(s, id)
    ensures Requested(s, After(s, actions), id)
  {
    assert FaithfulRow(s, id, s.rows[id]);
    if id in s.undecided {
      actions := [ApproveStart(id, Handed)];
      HandOverOnce(s, ApproveStart(id, Handed), id);
    } else if s.rows[id].status == Interrupted {
      actions := [Resume(id, Handed)];
      HandOverOnce(s, Resume(id, Handed), id);
    } else {
      actions := [Interrupt(id), Resume(id, Handed)];
      HandOverTwice(s, id);
    }
  }

  /**
   * Such a result can still be applied at all if and only if the run is not given up: failed or cancelled, decided, and
   * without a message. A resumption that fails to reach the queue is enough to lose a finished result for good.
   */
  lemma {:induction false} RecoverableIff(s: State, id: int)
    requires Sound(s) && id in s.caches && id in s.rows && s.rows[id].applied == None
    requires RefusalOf(true, id, s.caches[id]) == None
    ensures (exists later :: AppliedIn(After(s, later), id)) <==> !GivenUp(s, id)
  {
    if GivenUp(s, id) {
      forall later ensures !AppliedIn(After(s, later), id) {
        GivenUpStays(s, later, id);
      }
    } else if Quiet(s, id) {
      var over := HandOver(s, id);
      StaysSound(s, over);
      var rest := CanApply(After(s, over), id);
      AfterAppend(s, over, rest);
      assert AppliedIn(After(s, over + rest), id);
    } else {
      var later := CanApply(s, id);
      assert AppliedIn(After(s, later), id);
    }
  }

  /** A resumed run can be executed again if and only if no result is cached for it. */
  lemma {:induction false} ResumedRunsIff(actions: seq<Action>, id: int)
    requires Permits(After(START, actions), Resume(id, Handed))
    ensures (exists later :: After(Step(After(START, actions), Resume(id, Handed)), later).phase == Executing(id))
      <==> id !in After(START, actions).caches
  {
    var t := Step(After(START, actions), Resume(id, Handed));
    EveryRunSound(actions);
    StepKeepsSound(After(START, actions), Resume(id, Handed));
    if id !in t.caches {
      var later := CanExecute(t, id);
    } else {
      forall later ensures After(t, later).phase != Executing(id) {
        CacheIsFinal(t, later, id);
      }
    }
  }

  /** A capability approved for a succeeded run is never used: the run is handed over but never executed again. */
  lemma {:induction false} CapabilityNeverUsed(actions: seq<Action>, id: int, handover: Handover, later: seq<Action>)
    requires Permits(After(START, actions), ApproveCapability(id, handover))
    requires After(START, actions).rows[id].status == Succeeded
    ensures After(Step(After(START, actions), ApproveCapability(id, handover)), later).phase != Executing(id)
  {
    var s := After(START, actions);
    EveryRunSound(actions);
    assert FaithfulRow(s, id, s.rows[id]);
    StepKeepsSound(s, ApproveCapability(id, handover));
    ApiRest(s, ApproveCapability(id, handover));
    CacheIsFinal(Step(s, ApproveCapability(id, handover)), later, id);
  }

  // ---- an undisturbed delivery -------------------------------------------------------------

  function Result(s: State, id: int, p: Payload): Payload {
    if id in s.caches then s.caches[id] else p
  }

  /** The state with the first message read. */
  function Read(s: State): State
    requires s.queue != []
  {
    s.(queue := s.queue[1..], unacknowledged := s.unacknowledged + multiset{s.queue[0]})
  }

  lemma UntilPosting(s: State, p: Payload)
    requires s.phase == Idle && s.queue != []
    ensures var t, id := Step(Step(Step(s, Deliver), Begin), Finish(p)), s.queue[0];
      t == Read(s).(phase := Posting(id, Result(s, id, p)), caches := s.caches[id := Result(s, id, p)])
  {
    var held, id := Step(s, Deliver), s.queue[0];
    assert held == Read(s).(phase := Holding(id));
    if id in s.caches {
      assert s.caches[id := s.caches[id]] == s.caches;
      assert Step(held, Begin) == Read(s).(phase := Posting(id, s.caches[id]));
    } else {
      assert Step(held, Begin) == Read(s).(phase := Executing(id));
    }
  }

  lemma FromPosting(s: State, id: int, p: Payload)
    requires s.phase == Posting(id, p) && id in s.rows && RefusalOf(true, id, p) == None
    ensures var t := Step(Step(s, Post(true, true)), Acknowledge);
      t == Callback(s, id, p).(phase := Idle, unacknowledged := s.unacknowledged - multiset{id})
  {
    assert Step(s, Post(true, true)) == Callback(s, id, p).(phase := Answered(id));
  }

  /** A delivery nothing disturbs leaves the run with a result: the cached one, or the one it is executed to now. */
  lemma {:induction false} UndisturbedDelivery(s: State, id: int, p: Payload)
    requires Sound(s) && s.phase == Idle && s.queue != [] && s.queue[0] == id && id in s.rows
    requires RefusalOf(true, id, Result(s, id, p)) == None
    ensures var t := After(s, [Deliver, Begin, Finish(p), Post(true, true), Acknowledge]);
      && t.phase == Idle && t.queue == s.queue[1..] && t.unacknowledged == s.unacknowledged
      && id in t.rows && t.rows[id].applied == Some(Result(s, id, p))
  {
    assert FaithfulRow(s, id, s.rows[id]);
    FiveSteps(s, Deliver, Begin, Finish(p), Post(true, true), Acknowledge);
    UntilPosting(s, p);
    var result := Result(s, id, p);
    FromPosting(Read(s).(phase := Posting(id, result), caches := s.caches[id := result]), id, result);
  }

  lemma AfterSnoc(s: State, actions: seq<Action>, a: Action)
    ensures After(s, actions + [a]) == Step(After(s, actions), a)
  {
    assert (actions + [a])[..|actions|] == actions;
  }

  lemma FourSteps(s: State, a: Action, b: Action, c: Action, d: Action)
    ensures After(s, [a, b, c, d]) == Step(Step(Step(Step(s, a), b), c), d)
  {
    ThreeSteps(s, a, b, c);
    AfterSnoc(s, [a, b, c], d);
    assert [a, b, c] + [d] == [a, b, c, d];
  }

  lemma FiveSteps(s: State, a: Action, b: Action, c: Action, d: Action, e: Action)
    ensures After(s, [a, b, c, d, e]) == Step(Step(Step(Step(Step(s, a), b), c), d), e)
  {
    FourSteps(s, a, b, c, d);
    AfterSnoc(s, [a, b, c, d], e);
    assert [a, b, c, d] + [e] == [a, b, c, d, e];
  }

  // ---- both cases occur --------------------------------------------------------------------

  lemma {:induction false} AfterAppend(s: State, a: seq<Action>, b: seq<Action>)
    ensures After(s, a + b) == After(After(s, a), b)
  {
    if b == [] {
      assert a + b == a;
    } else {
      var front, last := b[..|b| - 1], b[|b| - 1];
      assert a + b == (a + front) + [last] && b == front + [last];
      AfterSnoc(s, a + front, last);
      AfterSnoc(After(s, a), front, last);
      AfterAppend(s, a, front);
    }
  }

  /** A run interrupted before it was ever executed: resuming it works. */
  lemma {:induction false} InterruptedEarly(id: int) returns (actions: seq<Action>)
    ensures Permits(After(START, actions), Resume(id, Handed)) && id !in After(START, actions).caches
  {
    actions := [Create(id, false, map[]), Interrupt(id)];
    TwoSteps(START, Create(id, false, map[]), Interrupt(id));
  }

  /** A run whose execution came out interrupted: resuming it is accepted, but only replays its result. */
  lemma {:induction false} InterruptedByResult(id: int, p: Payload) returns (actions: seq<Action>)
    requires p.runId == id && p.status == Interrupted
    ensures Permits(After(START, actions), Resume(id, Handed)) && id in After(START, actions).caches
  {
    var begin := [Create(id, false, map[]), ApproveStart(id, Handed)];
    var delivery := [Deliver, Begin, Finish(p), Post(true, true), Acknowledge];
    var s := After(START, begin);
    TwoSteps(START, Create(id, false, map[]), ApproveStart(id, Handed));
    EveryRunSound(begin);
    UndisturbedDelivery(s, id, p);
    AfterAppend(START, begin, delivery);
    actions := begin + delivery;
    DeliveredRow(s, id, p);
  }

  lemma DeliveredRow(s: State, id: int, p: Payload)
    requires s.phase == Idle && s.queue != [] && s.queue[0] == id && id in s.rows
    requires id !in s.caches && s.rows[id].applied == None && RefusalOf(true, id, p) == None
    ensures var t := After(s, [Deliver, Begin, Finish(p), Post(true, true), Acknowledge]);
      id in t.caches && id in t.rows && t.rows[id] == Applied(s.rows[id], p)
  {
    FiveSteps(s, Deliver, Begin, Finish(p), Post(true, true), Acknowledge);
    UntilPosting(s, p);
    FromPosting(Read(s).(phase := Posting(id, p), caches := s.caches[id := p]), id, p);
  }

  /** A run whose finished result is lost for good: its callback does not arrive and its resumption finds no queue. */
  lemma {:induction false} ResultLost(id: int, p: Payload, message: string) returns (actions: seq<Action>)
    requires RefusalOf(true, id, p) == None
    ensures var s := After(START, actions); id in s.caches && s.caches[id] == p && GivenUp(s, id) && !AppliedIn(s, id)
  {
    var begin, s := Started(id);
    var delivery := [Deliver, Begin, Finish(p), Post(false, false), Interrupt(id)];
    AfterAppend(START, begin, delivery);
    CallbackLost(s, id, p);
    AfterSnoc(START, begin + delivery, Resume(id, Broken(message)));
    actions := begin + delivery + [Resume(id, Broken(message))];
  }

  lemma Started(id: int) returns (actions: seq<Action>, s: State)
    ensures s == After(START, actions)
    ensures s.phase == Idle && s.queue == [id] && s.caches == map[] && s.undecided == {}
    ensures id in s.rows && s.rows[id] == NewRow(false, map[]).(status := Queued)
  {
    actions := [Create(id, false, map[]), ApproveStart(id, Handed)];
    s := After(START, actions);
    TwoSteps(START, Create(id, false, map[]), ApproveStart(id, Handed));
  }

  lemma CallbackLost(s: State, id: int, p: Payload)
    requires s.phase == Idle && s.queue == [id] && id !in s.caches && id in s.rows && s.rows[id].status == Queued
    ensures var t := After(s, [Deliver, Begin, Finish(p), Post(false, false), Interrupt(id)]);
      && t.phase == Idle && t.queue == [] && t.caches == s.caches[id := p] && t.undecided == s.undecided
      && id in t.rows && t.rows[id] == s.rows[id].(status := Interrupted)
  {
    FiveSteps(s, Deliver, Begin, Finish(p), Post(false, false), Interrupt(id));
    UntilPosting(s, p);
    var posting := Read(s).(phase := Posting(id, p), caches := s.caches[id := p]);
    assert Step(posting, Post(false, false)) == posting.(phase := Idle);
  }

  // ---- from creation to result -------------------------------------------------------------

  /** A run whose message is the only one, with nothing cached. */
  predicate Ready(s: State, id: int, row: Row) {
    && s.phase == Idle && s.queue == [id] && s.unacknowledged == multiset{} && s.caches == map[] && s.log == []
    && s.rows == map[id := row]
  }

  lemma ReadyToRun(id: int, writeCapable: bool, budgets: Snapshot)
    ensures Ready(After(START, [Create(id, writeCapable, budgets), ApproveStart(id, Handed)]), id,
                  Row(writeCapable, Queued, false, "", "", "", "", map[], budgets, false, None))
  {
    TwoSteps(START, Create(id, writeCapable, budgets), ApproveStart(id, Handed));
  }

  lemma ReadyRuns(s: State, id: int, row: Row, p: Payload)
    requires Ready(s, id, row) && row.applied == None && p.runId == id
    requires p.status in {AwaitingApproval, Succeeded, Failed, Interrupted}
    ensures var t := After(s, [Deliver, Begin, Finish(p), Post(true, true), Acknowledge]);
      && t.rows.Keys == {id} && t.queue == [] && t.unacknowledged == multiset{} && t.phase == Idle
      && t.caches == map[id := p] && t.log == [Application(id, p)] && Shown(row, p, t.rows[id])
  {
    FiveSteps(s, Deliver, Begin, Finish(p), Post(true, true), Acknowledge);
    UntilPosting(s, p);
    var posting := Read(s).(phase := Posting(id, p), caches := s.caches[id := p]);
    FromPosting(posting, id, p);
    CallbackShows(posting, id, p);
    assert multiset{} + multiset{id} - multiset{id} == multiset{};
  }

  /** A run that is created, approved, executed and reported without disturbance shows its result. */
  lemma {:induction false} Journey(id: int, writeCapable: bool, budgets: Snapshot, p: Payload)
    requires p.runId == id && p.status in {AwaitingApproval, Succeeded, Failed, Interrupted}
    ensures var t := After(START, [Create(id, writeCapable, budgets), ApproveStart(id, Handed)]
                                + [Deliver, Begin, Finish(p), Post(true, true), Acknowledge]);
      && t.rows.Keys == {id} && t.queue == [] && t.unacknowledged == multiset{} && t.phase == Idle
      && t.caches == map[id := p] && t.log == [Application(id, p)]
      && Shown(Row(writeCapable, Queued, false, "", "", "", "", map[], budgets, false, None), p, t.rows[id])
  {
    var begin := [Create(id, writeCapable, budgets), ApproveStart(id, Handed)];
    ReadyToRun(id, writeCapable, budgets);
    AfterAppend(START, begin, [Deliver, Begin, Finish(p), Post(true, true), Acknowledge]);
    var row := Row(writeCapable, Queued, false, "", "", "", "", map[], budgets, false, None);
    ReadyRuns(After(START, begin), id, row, p);
  }

  /** A message is acknowledged only when its result was taken and the answer came back; otherwise it stays as it is. */
  lemma {:induction false} AcknowledgedIff(s: State, arrives: bool, answered: bool)
    requires s.phase.Posting?
    ensures var id, p, t := s.phase.id, s.phase.payload, After(s, [Post(arrives, answered), Acknowledge]);
      && t.phase == Idle && t.queue == s.queue && t.caches == s.caches
      && t.unacknowledged ==
           if arrives && answered && id in s.rows && p.runId == id
              && p.status in {AwaitingApproval, Succeeded, Failed, Interrupted}
           then s.unacknowledged - multiset{id} else s.unacknowledged
  {
    TwoSteps(s, Post(arrives, answered), Acknowledge);
    CallbackShows(s, s.phase.id, s.phase.payload);
    TakenBack(s.phase.id in s.rows, s.phase.id, s.phase.payload);
  }

  lemma TakenBack(known: bool, id: int, p: Payload)
    ensures RefusalOf(known, id, p) == None <==>
      known && p.runId == id && p.status in {AwaitingApproval, Succeeded, Failed, Interrupted}
  {
    assert p.status.Queued? || p.status.Running? || p.status.Cancelled? <==> p.status in {Queued, Running, Cancelled};
  }

  /** A run whose start is rejected is cancelled and never executed, whatever follows. */
  lemma {:induction false} RejectedNeverRuns(id: int, writeCapable: bool, budgets: Snapshot, later: seq<Action>)
    ensures var t := After(After(START, [Create(id, writeCapable, budgets), RejectStart(id)]), later);
      id in t.rows && t.rows[id].status == Cancelled && t.rows[id].finished && t.phase != Executing(id)
  {
    TwoSteps(START, Create(id, writeCapable, budgets), RejectStart(id));
    RejectedStays(After(START, [Create(id, writeCapable, budgets), RejectStart(id)]), later, id);
  }

  ghost predicate Rejected(s: State, id: int) {
    GivenUp(s, id) && s.rows[id].status == Cancelled && s.rows[id].finished
  }

  lemma RejectedStep(s: State, a: Action, id: int)
    requires Rejected(s, id)
    ensures Rejected(Step(s, a), id)
  {
    GivenUpStep(s, a, id);
  }

  lemma {:induction false} RejectedStays(s: State, actions: seq<Action>, id: int)
    requires Rejected(s, id)
    ensures Rejected(After(s, actions), id)
  {
    if actions != [] {
      RejectedStays(s, actions[..|actions| - 1], id);
      RejectedStep(After(s, actions[..|actions| - 1]), actions[|actions| - 1], id);
    }
  }

  /**
   * What a permitted request that hands a run over leaves: a message behind the others, or a failed run that says so,
   * or, when the failure came before the queue, a run queued without a message.
   */
  lemma {:induction false} HandoverLeaves(s: State, a: Action, id: int, handover: Handover)
    requires a == ApproveStart(id, handover) || a == ApproveCapability(id, handover) || a == Resume(id, handover)
    requires Permits(s, a)
    ensures var t := Step(s, a);
      && t.caches == s.caches && t.log == s.log && t.phase == s.phase && t.unacknowledged == s.unacknowledged
      && t.rows.Keys == s.rows.Keys
      && (forall other :: other in s.rows && other != id ==> t.rows[other] == s.rows[other])
      && t.undecided == (if a.ApproveStart? then s.undecided - {id} else s.undecided)
      && t.queue == (if handover == Handed then s.queue + [id] else s.queue)
      && var row := t.rows[id];
      && row == s.rows[id].(status := row.status, finished := row.finished, error := row.error)
      && if handover.Broken? then
           row.status == Failed && row.finished && row.error == "Failed to enqueue worker job: " + handover.message
         else row.status == Queued && row.finished == s.rows[id].finished && row.error == s.rows[id].error
  {
  }

  /** When the API takes a request; otherwise the request changes nothing. */
  lemma {:induction false} TakenIff(s: State, a: Action)
    requires !ByWorker(a)
    ensures Permits(s, a) <==>
      match a
      case Create(id, _, _) => id !in s.rows
      case ApproveStart(id, _) => id in s.rows && id in s.undecided
      case RejectStart(id) => id in s.rows && id in s.undecided
      case ApproveCapability(id, _) =>
        id in s.rows && (s.rows[id].status == Succeeded || s.rows[id].status == Interrupted)
      case Interrupt(id) =>
        id in s.rows && s.rows[id].status != Succeeded && s.rows[id].status != Failed
        && s.rows[id].status != Interrupted && s.rows[id].status != Cancelled
      case Resume(id, _) => id in s.rows && s.rows[id].status == Interrupted
      case _ => false
    ensures !Permits(s, a) ==> Step(s, a) == s
  {
  }
}
