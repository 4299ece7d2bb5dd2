/** Run events from the append-only store to the following client, over connections that may drop at any moment. */
module EventDelivery {
  import opened Results
  import opened Sequences

  /** An event's id is its global sequence number; `IdText` is how the id is written. */
  datatype RunEvent = RunEvent(id: nat, name: string, data: string)

  type Logs = map<string, seq<RunEvent>>

  function LogOf(logs: Logs, run: string): seq<RunEvent> {
    if run in logs then logs[run] else []
  }

  function After(log: seq<RunEvent>, cursor: nat): seq<RunEvent> {
    if log == [] then []
    else
      var last := log[|log| - 1];
      After(log[..|log| - 1], cursor) + if last.id > cursor then [last] else []
  }

  ghost predicate Increasing(log: seq<RunEvent>) {
    forall i, j :: 0 <= i < j < |log| ==> log[i].id < log[j].id
  }

  ghost predicate ValidLogs(logs: Logs, sequence: nat) {
    forall run :: run in logs ==> Increasing(logs[run]) && forall e :: e in logs[run] ==> e.id <= sequence
  }

  lemma AfterAppend(log: seq<RunEvent>, e: RunEvent, cursor: nat)
    ensures After(log + [e], cursor) == After(log, cursor) + if e.id > cursor then [e] else []
  {
    assert (log + [e])[..|log|] == log;
  }

  lemma IncreasingSnoc(log: seq<RunEvent>, last: RunEvent)
    ensures Increasing(log + [last]) <==> Increasing(log) && forall e :: e in log ==> e.id < last.id
  {
    var longer := log + [last];
    assert forall i :: 0 <= i < |log| ==> longer[i] == log[i];
    if Increasing(longer) {
      forall e | e in log ensures e.id < last.id {
        var i :| 0 <= i < |log| && log[i] == e;
        assert longer[i].id < longer[|log|].id;
      }
    }
  }

  lemma {:induction false} AfterIs(log: seq<RunEvent>, cursor: nat)
    requires Increasing(log)
    ensures Increasing(After(log, cursor))
    ensures forall e :: e in After(log, cursor) <==> e in log && e.id > cursor
  {
    if log != [] {
      var front, last := log[..|log| - 1], log[|log| - 1];
      assert log == front + [last];
      IncreasingSnoc(front, last);
      AfterIs(front, cursor);
      AfterAppend(front, last, cursor);
      IncreasingSnoc(After(front, cursor), last);
    }
  }

  /** Reading again from the first event that came back gives the others. */
  lemma {:induction false} AfterNext(log: seq<RunEvent>, cursor: nat)
    requires Increasing(log) && After(log, cursor) != []
    ensures After(log, cursor)[0].id > cursor
    ensures After(log, After(log, cursor)[0].id) == After(log, cursor)[1..]
  {
    var front, last := log[..|log| - 1], log[|log| - 1];
    assert log == front + [last];
    IncreasingSnoc(front, last);
    AfterAppend(front, last, cursor);
    if After(front, cursor) == [] {
      AllBelow(front, last.id);
      AfterAppend(front, last, last.id);
    } else {
      AfterNext(front, cursor);
      AfterHead(front, cursor);
      AfterAppend(front, last, After(front, cursor)[0].id);
      TailAppend(After(front, cursor), if last.id > cursor then [last] else []);
    }
  }

  lemma AfterHead(log: seq<RunEvent>, cursor: nat)
    requires Increasing(log) && After(log, cursor) != []
    ensures After(log, cursor)[0] in log && After(log, cursor)[0].id > cursor
  {
    AfterIs(log, cursor);
    assert After(log, cursor)[0] in After(log, cursor);
  }

  lemma TailAppend<T>(a: seq<T>, b: seq<T>)
    requires a != []
    ensures (a + b)[0] == a[0] && (a + b)[1..] == a[1..] + b
  {
  }

  lemma {:induction false} AllBelow(log: seq<RunEvent>, cursor: nat)
    requires forall e :: e in log ==> e.id <= cursor
    ensures After(log, cursor) == []
  {
    if log != [] {
      AllBelow(log[..|log| - 1], cursor);
    }
  }

  // ---- the store ---------------------------------------------------------------------------

  datatype Draft = Draft(run: string, name: string, data: string)

  /** The logs after these were published in order. */
  function LogsWith(logs: Logs, sequence: nat, drafts: seq<Draft>): Logs {
    if drafts == [] then logs
    else
      var last := drafts[|drafts| - 1];
      var before := LogsWith(logs, sequence, drafts[..|drafts| - 1]);
      before[last.run := LogOf(before, last.run) + [RunEvent(sequence + |drafts|, last.name, last.data)]]
  }

  /** The drafts for one run, numbered on over all of them. */
  function ItemsFor(r: string, sequence: nat, drafts: seq<Draft>): seq<RunEvent>
    decreases |drafts|
  {
    if drafts == [] then []
    else ItemFor(r, sequence + 1, drafts[0]) + ItemsFor(r, sequence + 1, drafts[1..])
  }

  function ItemFor(r: string, number: nat, d: Draft): seq<RunEvent> {
    if d.run == r then [RunEvent(number, d.name, d.data)] else []
  }

  lemma {:induction false} ItemsSnoc(r: string, sequence: nat, drafts: seq<Draft>, d: Draft)
    ensures ItemsFor(r, sequence, drafts + [d])
         == ItemsFor(r, sequence, drafts) + ItemFor(r, sequence + |drafts| + 1, d)
    decreases |drafts|
  {
    if drafts == [] {
      assert ([] + [d])[1..] == [];
    } else {
      var first, rest := ItemFor(r, sequence + 1, drafts[0]), drafts[1..];
      assert (drafts + [d])[1..] == rest + [d];
      ItemsSnoc(r, sequence + 1, rest, d);
      Associate(first, ItemsFor(r, sequence + 1, rest), ItemFor(r, sequence + |drafts| + 1, d));
    }
  }

  lemma LogsWithSnoc(logs: Logs, sequence: nat, front: seq<Draft>, last: Draft, r: string)
    ensures LogOf(LogsWith(logs, sequence, front + [last]), r)
         == LogOf(LogsWith(logs, sequence, front), r) + ItemFor(r, sequence + |front| + 1, last)
  {
    assert (front + [last])[..|front|] == front;
  }

  /** Each run's log gains the drafts for it, in order. */
  lemma {:induction false} LogsWithAre(logs: Logs, sequence: nat, drafts: seq<Draft>, r: string)
    ensures LogOf(LogsWith(logs, sequence, drafts), r) == LogOf(logs, r) + ItemsFor(r, sequence, drafts)
  {
    if drafts != [] {
      var front, last := drafts[..|drafts| - 1], drafts[|drafts| - 1];
      assert drafts == front + [last];
      LogsWithAre(logs, sequence, front, r);
      LogsWithSnoc(logs, sequence, front, last, r);
      ItemsSnoc(r, sequence, front, last);
      Associate(LogOf(logs, r), ItemsFor(r, sequence, front), ItemFor(r, sequence + |drafts|, last));
    }
  }

  class MemoryEventStore {
    var events: Logs
    var sequence: nat

    ghost predicate Valid()
      reads this
    {
      ValidLogs(events, sequence)
    }

    constructor ()
      ensures Valid() && events == map[] && sequence == 0
    {
      events, sequence := map[], 0;
    }

    method Publish(run: string, name: string, data: string) returns (item: RunEvent)
      requires Valid()
      modifies this
      ensures Valid()
      ensures sequence == old(sequence) + 1 && item == RunEvent(sequence, name, data)
      ensures events == old(events)[run := LogOf(old(events), run) + [item]]
    {
      sequence := sequence + 1;
      item := RunEvent(sequence, name, data);
      events := events[run := LogOf(events, run) + [item]];
    }

    /**
     * What is available for the run beyond the cursor. When there is nothing, a blocking read lets others publish until
     * it is woken, and then looks again, or until its time is out.
     */
    method Read(run: string, cursor: nat, blocks: bool, meanwhile: seq<Draft>, woken: bool)
      returns (available: seq<RunEvent>)
      requires Valid()
      modifies this
      ensures Valid()
      ensures var now := After(LogOf(old(events), run), cursor);
        if now != [] || !blocks then
          events == old(events) && sequence == old(sequence) && available == now
        else
          && sequence == old(sequence) + |meanwhile|
          && (forall r :: LogOf(events, r) == LogOf(old(events), r) + ItemsFor(r, old(sequence), meanwhile))
          && available == if woken then After(LogOf(events, run), cursor) else []
    {
      available := Available(run, cursor);
      if available == [] && blocks {
        PublishAll(meanwhile);
        if woken {
          available := Available(run, cursor);
        }
      }
    }

    method PublishAll(drafts: seq<Draft>)
      requires Valid()
      modifies this
      ensures Valid() && sequence == old(sequence) + |drafts|
      ensures forall r :: LogOf(events, r) == LogOf(old(events), r) + ItemsFor(r, old(sequence), drafts)
    {
      for k := 0 to |drafts|
        invariant Valid() && sequence == old(sequence) + k
        invariant events == LogsWith(old(events), old(sequence), drafts[..k])
      {
        assert drafts[..k + 1][..k] == drafts[..k];
        var item := Publish(drafts[k].run, drafts[k].name, drafts[k].data);
      }
      assert drafts[..|drafts|] == drafts;
      forall r ensures LogOf(events, r) == LogOf(old(events), r) + ItemsFor(r, old(sequence), drafts) {
        LogsWithAre(old(events), old(sequence), drafts, r);
      }
    }

    /** The run's events beyond the cursor, in order. */
    method Available(run: string, cursor: nat) returns (available: seq<RunEvent>)
      requires Valid()
      ensures available == After(LogOf(events, run), cursor)
      ensures Increasing(available)
      ensures forall e :: e in available <==> e in LogOf(events, run) && e.id > cursor
    {
      available := [];
      var log := LogOf(events, run);
      for k := 0 to |log|
        invariant available == After(log[..k], cursor)
      {
        AfterAppend(log[..k], log[k], cursor);
        assert log[..k + 1] == log[..k] + [log[k]];
        if log[k].id > cursor {
          available := available + [log[k]];
        }
      }
      assert log[..|log|] == log;
      AfterIs(log, cursor);
    }
  }

  // ---- the protocol ------------------------------------------------------------------------

  /** The server side of one connection: its cursor, the batch it is sending, and what is under way to the client. */
  datatype Connection = Connection(cursor: nat, batch: seq<RunEvent>, wire: seq<RunEvent>)

  /** The following client: its position, the ids it has seen, what it handed on, and whether it is done. */
  datatype Client = Client(lastId: nat, seen: set<nat>, delivered: seq<RunEvent>, stopped: bool)

  datatype System = System(logs: Logs, sequence: nat, connection: Option<Connection>, client: Client)

  datatype Action =
    | Publish(run: string, name: string, data: string)
    | Connect
    | ServerRead
    | ServerYield
    | Receive
    | Drop
    | Stop

  function Initial(cursor: nat): System {
    System(map[], 0, None, Client(cursor, {}, [], false))
  }

  /**
   * One atomic step of the store, the server, the network or the client following `run`. Steps that are not possible
   * leave the state.
   */
  function Step(run: string, s: System, a: Action): System {
    match a
    case Publish(r, name, data) => Published(s, r, RunEvent(s.sequence + 1, name, data))
    case Connect =>
      if s.client.stopped || s.connection.Some? then s
      else s.(connection := Some(Connection(s.client.lastId, [], [])))
    case ServerRead =>
      if s.connection.None? || s.connection.value.batch != [] then s
      else
        var c := s.connection.value;
        s.(connection := Some(c.(batch := After(LogOf(s.logs, run), c.cursor))))
    case ServerYield =>
      if s.connection.None? || s.connection.value.batch == [] then s
      else
        var c := s.connection.value;
        s.(connection := Some(Connection(c.batch[0].id, c.batch[1..], c.wire + [c.batch[0]])))
    case Receive =>
      if s.client.stopped || s.connection.None? || s.connection.value.wire == [] then s
      else
        var c := s.connection.value;
        s.(connection := Some(c.(wire := c.wire[1..])), client := HandOn(s.client, c.wire[0]))
    case Drop => s.(connection := None)
    case Stop => s.(client := s.client.(stopped := true))
  }

  function Published(s: System, r: string, item: RunEvent): System {
    s.(sequence := item.id, logs := s.logs[r := LogOf(s.logs, r) + [item]])
  }

  /** The client skips an event whose id it has seen; any other becomes its new position and is handed on. */
  function HandOn(client: Client, e: RunEvent): Client {
    if e.id in client.seen then client
    else client.(lastId := e.id, seen := client.seen + {e.id}, delivered := client.delivered + [e])
  }

  function Run(run: string, cursor: nat, actions: seq<Action>): System {
    if actions == [] then Initial(cursor)
    else Step(run, Run(run, cursor, actions[..|actions| - 1]), actions[|actions| - 1])
  }

  /**
   * What has been read but not yet processed by the client continues the client's position in the log without a gap.
   */
  ghost predicate InFlight(log: seq<RunEvent>, lastId: nat, c: Connection) {
    && IsPrefix(c.wire + c.batch, After(log, lastId))
    && c.cursor == if c.wire == [] then lastId else c.wire[|c.wire| - 1].id
  }

  /**
   * Where the client stands in its run's log: what was delivered, followed by what is still to come, is the log after
   * the cursor.
   */
  ghost predicate Position(log: seq<RunEvent>, cursor: nat, connection: Option<Connection>, client: Client) {
    && client.delivered + After(log, client.lastId) == After(log, cursor)
    && client.lastId == (if client.delivered == [] then cursor else client.delivered[|client.delivered| - 1].id)
    && (forall id :: id in client.seen ==> id <= client.lastId)
    && (connection.Some? ==> InFlight(log, client.lastId, connection.value))
  }

  ghost predicate Invariant(run: string, cursor: nat, s: System) {
    ValidLogs(s.logs, s.sequence) && Position(LogOf(s.logs, run), cursor, s.connection, s.client)
  }

  lemma PublishValid(logs: Logs, sequence: nat, r: string, item: RunEvent)
    requires ValidLogs(logs, sequence) && item.id == sequence + 1
    ensures ValidLogs(logs[r := LogOf(logs, r) + [item]], sequence + 1)
  {
    var log := LogOf(logs, r) + [item];
    forall i, j | 0 <= i < j < |log| ensures log[i].id < log[j].id {
      if j == |log| - 1 {
        assert log[i] in LogOf(logs, r);
      }
    }
  }

  /** A new event is beyond the client's position exactly when it is beyond the initial cursor. */
  lemma CursorsMatch(log: seq<RunEvent>, cursor: nat, connection: Option<Connection>, client: Client, id: nat)
    requires Increasing(log) && Position(log, cursor, connection, client) && forall e :: e in log ==> e.id < id
    ensures id > client.lastId <==> id > cursor
  {
    AfterIs(log, cursor);
    if client.delivered != [] {
      var last := client.delivered[|client.delivered| - 1];
      assert last == (client.delivered + After(log, client.lastId))[|client.delivered| - 1];
      assert last in After(log, cursor);
    }
  }

  lemma LogGrows(log: seq<RunEvent>, cursor: nat, connection: Option<Connection>, client: Client, item: RunEvent)
    requires Increasing(log) && Position(log, cursor, connection, client) && forall e :: e in log ==> e.id < item.id
    ensures Position(log + [item], cursor, connection, client)
  {
    AfterAppend(log, item, client.lastId);
    AfterAppend(log, item, cursor);
    CursorsMatch(log, cursor, connection, client, item.id);
    var more := if item.id > cursor then [item] else [];
    assert client.delivered + (After(log, client.lastId) + more) == client.delivered + After(log, client.lastId) + more;
  }

  lemma LogValid(logs: Logs, sequence: nat, run: string)
    requires ValidLogs(logs, sequence)
    ensures Increasing(LogOf(logs, run)) && forall e :: e in LogOf(logs, run) ==> e.id <= sequence
  {
  }

  lemma PublishKeeps(run: string, cursor: nat, s: System, r: string, item: RunEvent)
    requires Invariant(run, cursor, s) && item.id == s.sequence + 1
    ensures Invariant(run, cursor, Published(s, r, item))
  {
    PublishValid(s.logs, s.sequence, r, item);
    LogValid(s.logs, s.sequence, run);
    if r == run {
      LogGrows(LogOf(s.logs, run), cursor, s.connection, s.client, item);
    }
  }

  lemma ConnectKeeps(log: seq<RunEvent>, cursor: nat, old_: Option<Connection>, client: Client)
    requires Position(log, cursor, old_, client)
    ensures Position(log, cursor, Some(Connection(client.lastId, [], [])), client)
  {
  }

  lemma ReadKeeps(log: seq<RunEvent>, cursor: nat, c: Connection, client: Client)
    requires Increasing(log) && Position(log, cursor, Some(c), client) && c.batch == []
    ensures Position(log, cursor, Some(c.(batch := After(log, c.cursor))), client)
  {
    ReadContinues(log, client.lastId, c);
  }

  lemma YieldKeeps(log: seq<RunEvent>, cursor: nat, c: Connection, client: Client)
    requires Position(log, cursor, Some(c), client) && c.batch != []
    ensures Position(log, cursor, Some(Connection(c.batch[0].id, c.batch[1..], c.wire + [c.batch[0]])), client)
  {
    assert c.wire + [c.batch[0]] + c.batch[1..] == c.wire + c.batch;
  }

  /** Reading after everything sent so far yields exactly what the client is still missing beyond it. */
  lemma ReadContinues(log: seq<RunEvent>, lastId: nat, c: Connection)
    requires Increasing(log) && InFlight(log, lastId, c) && c.batch == []
    ensures c.wire + After(log, c.cursor) == After(log, lastId)
  {
    assert c.wire + c.batch == c.wire;
    if c.wire != [] {
      AfterPrefix(log, lastId, |c.wire|);
    }
  }

  lemma {:induction false} AfterPrefix(log: seq<RunEvent>, cursor: nat, n: nat)
    requires Increasing(log) && 1 <= n <= |After(log, cursor)|
    ensures After(log, After(log, cursor)[n - 1].id) == After(log, cursor)[n..]
    decreases n
  {
    AfterNext(log, cursor);
    if n > 1 {
      AfterPrefix(log, After(log, cursor)[0].id, n - 1);
    }
  }

  lemma PrefixTail<T>(a: seq<T>, b: seq<T>)
    requires IsPrefix(a, b) && a != []
    ensures a[0] == b[0] && IsPrefix(a[1..], b[1..])
  {
    assert a[1..] == b[1..][..|a| - 1];
  }

  lemma ReceiveKeeps(log: seq<RunEvent>, cursor: nat, c: Connection, client: Client)
    requires Increasing(log) && Position(log, cursor, Some(c), client) && c.wire != []
    ensures c.wire[0].id !in client.seen
    ensures Position(log, cursor, Some(c.(wire := c.wire[1..])), HandOn(client, c.wire[0]))
  {
    var e := c.wire[0];
    var missing := After(log, client.lastId);
    PrefixTail(c.wire + c.batch, missing);
    AfterNext(log, client.lastId);
    assert client.delivered + missing == client.delivered + [e] + missing[1..];
    assert (c.wire + c.batch)[1..] == c.wire[1..] + c.batch;
  }

  lemma ReadStepKeeps(run: string, cursor: nat, s: System)
    requires Invariant(run, cursor, s)
    ensures Invariant(run, cursor, Step(run, s, ServerRead))
  {
    if s.connection.Some? && s.connection.value.batch == [] {
      LogValid(s.logs, s.sequence, run);
      ReadKeeps(LogOf(s.logs, run), cursor, s.connection.value, s.client);
    }
  }

  lemma YieldStepKeeps(run: string, cursor: nat, s: System)
    requires Invariant(run, cursor, s)
    ensures Invariant(run, cursor, Step(run, s, ServerYield))
  {
    if s.connection.Some? && s.connection.value.batch != [] {
      YieldKeeps(LogOf(s.logs, run), cursor, s.connection.value, s.client);
    }
  }

  lemma ReceiveStepKeeps(run: string, cursor: nat, s: System)
    requires Invariant(run, cursor, s)
    ensures Invariant(run, cursor, Step(run, s, Receive))
  {
    if !s.client.stopped && s.connection.Some? && s.connection.value.wire != [] {
      LogValid(s.logs, s.sequence, run);
      ReceiveKeeps(LogOf(s.logs, run), cursor, s.connection.value, s.client);
    }
  }

  lemma ConnectStepKeeps(run: string, cursor: nat, s: System)
    requires Invariant(run, cursor, s)
    ensures Invariant(run, cursor, Step(run, s, Connect))
  {
    ConnectKeeps(LogOf(s.logs, run), cursor, s.connection, s.client);
  }

  lemma StopStepKeeps(run: string, cursor: nat, s: System)
    requires Invariant(run, cursor, s)
    ensures Invariant(run, cursor, Step(run, s, Stop))
  {
  }

  lemma PublishStepIs(run: string, s: System, r: string, name: string, data: string)
    ensures Step(run, s, Publish(r, name, data)) == Published(s, r, RunEvent(s.sequence + 1, name, data))
  {
  }

  lemma PublishStepKeeps(run: string, cursor: nat, s: System, r: string, name: string, data: string, t: System)
    requires Invariant(run, cursor, s) && t == Published(s, r, RunEvent(s.sequence + 1, name, data))
    ensures Invariant(run, cursor, t)
  {
    PublishKeeps(run, cursor, s, r, RunEvent(s.sequence + 1, name, data));
  }

  lemma DropStepKeeps(run: string, cursor: nat, s: System)
    requires Invariant(run, cursor, s)
    ensures Invariant(run, cursor, Step(run, s, Drop))
  {
  }

  lemma StepKeepsInvariant(run: string, cursor: nat, s: System, a: Action)
    requires Invariant(run, cursor, s)
    ensures Invariant(run, cursor, Step(run, s, a))
  {
    match a
    case Publish(r, name, data) =>
      PublishStepIs(run, s, r, name, data);
      PublishStepKeeps(run, cursor, s, r, name, data, Step(run, s, a));
    case Drop => DropStepKeeps(run, cursor, s);
    case ServerRead => ReadStepKeeps(run, cursor, s);
    case ServerYield => YieldStepKeeps(run, cursor, s);
    case Receive => ReceiveStepKeeps(run, cursor, s);
    case Connect => ConnectStepKeeps(run, cursor, s);
    case Stop => StopStepKeeps(run, cursor, s);
  }

  lemma {:induction false} RunKeepsInvariant(run: string, cursor: nat, actions: seq<Action>)
    ensures Invariant(run, cursor, Run(run, cursor, actions))
  {
    if actions != [] {
      RunKeepsInvariant(run, cursor, actions[..|actions| - 1]);
      StepKeepsInvariant(run, cursor, Run(run, cursor, actions[..|actions| - 1]), actions[|actions| - 1]);
    }
  }

  /**
   * Over any interleaving of publishes, reads, sends, receipts, drops and reconnects, what the client has been handed
   * is a prefix of the run's log after the initial cursor: in order, without a gap, without a duplicate.
   */
  lemma {:induction false} DeliveredIsPrefix(run: string, cursor: nat, actions: seq<Action>)
    ensures var s := Run(run, cursor, actions);
      IsPrefix(s.client.delivered, After(LogOf(s.logs, run), cursor)) && Increasing(s.client.delivered)
  {
    RunKeepsInvariant(run, cursor, actions);
    var s := Run(run, cursor, actions);
    AfterIs(LogOf(s.logs, run), cursor);
    var all := After(LogOf(s.logs, run), cursor);
    assert forall i :: 0 <= i < |s.client.delivered| ==> s.client.delivered[i] == all[i];
  }

  /**
   * Once a connected client has processed everything the server could still read, nothing after the cursor is missing.
   */
  lemma {:induction false} QuiescentMeansComplete(run: string, cursor: nat, actions: seq<Action>)
    requires var s := Run(run, cursor, actions);
      s.connection.Some? && s.connection.value.wire == [] && s.connection.value.batch == []
      && After(LogOf(s.logs, run), s.connection.value.cursor) == []
    ensures var s := Run(run, cursor, actions); s.client.delivered == After(LogOf(s.logs, run), cursor)
  {
    RunKeepsInvariant(run, cursor, actions);
  }

  /** The client's duplicate filter never has to drop anything: what arrives is always new. */
  lemma {:induction false} NothingArrivesTwice(run: string, cursor: nat, actions: seq<Action>)
    requires var s := Run(run, cursor, actions); s.connection.Some? && s.connection.value.wire != []
    ensures var s := Run(run, cursor, actions); s.connection.value.wire[0].id !in s.client.seen
  {
    RunKeepsInvariant(run, cursor, actions);
    var s := Run(run, cursor, actions);
    ReceiveKeeps(LogOf(s.logs, run), cursor, s.connection.value, s.client);
  }

  // ---- what was published ------------------------------------------------------------------

  function Publications(actions: seq<Action>): nat {
    if actions == [] then 0
    else Publications(actions[..|actions| - 1]) + if actions[|actions| - 1].Publish? then 1 else 0
  }

  /** The events published for a run, in order, numbered over all publications. */
  function PublishedFor(r: string, actions: seq<Action>): seq<RunEvent> {
    if actions == [] then []
    else
      var front := PublishedFor(r, actions[..|actions| - 1]);
      match actions[|actions| - 1]
      case Publish(to, name, data) => if to == r then front + [RunEvent(Publications(actions), name, data)] else front
      case _ => front
  }

  /** The log of a run is what was published for it, whatever else happened. */
  lemma {:induction false} LogIsPublished(run: string, cursor: nat, actions: seq<Action>, r: string)
    ensures LogOf(Run(run, cursor, actions).logs, r) == PublishedFor(r, actions)
    ensures Run(run, cursor, actions).sequence == Publications(actions)
  {
    if actions != [] {
      LogIsPublished(run, cursor, actions[..|actions| - 1], r);
    }
  }

  // ---- nothing is held back ----------------------------------------------------------------

  function Steps(run: string, s: System, actions: seq<Action>): System {
    if actions == [] then s
    else Step(run, Steps(run, s, actions[..|actions| - 1]), actions[|actions| - 1])
  }

  lemma {:induction false} RunSteps(run: string, cursor: nat, actions: seq<Action>, more: seq<Action>)
    ensures Run(run, cursor, actions + more) == Steps(run, Run(run, cursor, actions), more)
  {
    if more == [] {
      assert actions + more == actions;
    } else {
      var all := actions + more;
      assert all[..|all| - 1] == actions + more[..|more| - 1];
      RunSteps(run, cursor, actions, more[..|more| - 1]);
    }
  }

  lemma {:induction false} StepsAppend(run: string, s: System, a: seq<Action>, b: seq<Action>)
    ensures Steps(run, s, a + b) == Steps(run, Steps(run, s, a), b)
  {
    if b == [] {
      assert a + b == a;
    } else {
      var all := a + b;
      assert all[..|all| - 1] == a + b[..|b| - 1];
      StepsAppend(run, s, a, b[..|b| - 1]);
    }
  }

  lemma OneStep(run: string, s: System, a: Action)
    ensures Steps(run, s, [a]) == Step(run, s, a)
  {
    assert [a][..0] == [];
  }

  /** Only reading, sending and receiving, and connecting where there is no connection. */
  predicate Delivers(a: Action) {
    a.Connect? || a.ServerRead? || a.ServerYield? || a.Receive?
  }

  ghost predicate AllDeliver(actions: seq<Action>) {
    forall a :: a in actions ==> Delivers(a)
  }

  /** What is under way to a client that has not stopped arrives. */
  lemma ReceiveArrives(run: string, cursor: nat, s: System)
    requires Invariant(run, cursor, s) && !s.client.stopped && s.connection.Some? && s.connection.value.wire != []
    ensures var c, t := s.connection.value, Step(run, s, Receive);
      && t.client.delivered == s.client.delivered + [c.wire[0]] && t.client.stopped == s.client.stopped
      && t.connection.Some? && t.connection.value.wire == c.wire[1..] && t.connection.value.batch == c.batch
      && t.logs == s.logs
  {
    LogValid(s.logs, s.sequence, run);
    ReceiveKeeps(LogOf(s.logs, run), cursor, s.connection.value, s.client);
  }

  lemma YieldSends(run: string, s: System)
    requires s.connection.Some? && s.connection.value.batch != []
    ensures var c, t := s.connection.value, Step(run, s, ServerYield);
      && t.client == s.client && t.logs == s.logs && t.connection.Some?
      && t.connection.value.wire == c.wire + [c.batch[0]] && t.connection.value.batch == c.batch[1..]
  {
  }

  lemma TwoParts<T>(a: seq<T>, b: seq<T>, c: seq<T>)
    ensures b != [] ==> a + [b[0]] + b[1..] + c == a + b + c
    ensures c != [] ==> a + (b + [c[0]]) + c[1..] == a + b + c
  {
  }

  lemma {:induction false} Drain(run: string, cursor: nat, s: System) returns (actions: seq<Action>)
    requires Invariant(run, cursor, s) && !s.client.stopped && s.connection.Some?
    ensures AllDeliver(actions)
    ensures var c, t := s.connection.value, Steps(run, s, actions);
      && Invariant(run, cursor, t) && !t.client.stopped && t.logs == s.logs
      && t.connection.Some? && t.connection.value.wire == [] && t.connection.value.batch == []
      && t.client.delivered == s.client.delivered + c.wire + c.batch
    decreases 2 * |s.connection.value.batch| + |s.connection.value.wire|
  {
    var c := s.connection.value;
    actions := [];
    if c.wire != [] || c.batch != [] {
      var a := if c.wire != [] then Receive else ServerYield;
      var next := Step(run, s, a);
      StepKeepsInvariant(run, cursor, s, a);
      if c.wire != [] {
        ReceiveArrives(run, cursor, s);
      } else {
        YieldSends(run, s);
      }
      TwoParts(s.client.delivered, c.wire, c.batch);
      var rest := Drain(run, cursor, next);
      OneStep(run, s, a);
      StepsAppend(run, s, [a], rest);
      actions := [a] + rest;
    }
  }

  lemma Connected(run: string, cursor: nat, s: System) returns (actions: seq<Action>)
    requires Invariant(run, cursor, s) && !s.client.stopped
    ensures AllDeliver(actions)
    ensures var t := Steps(run, s, actions);
      && Invariant(run, cursor, t) && !t.client.stopped && t.logs == s.logs && t.connection.Some?
  {
    actions := [];
    if s.connection.None? {
      actions := [Connect];
      OneStep(run, s, Connect);
      StepKeepsInvariant(run, cursor, s, Connect);
    }
  }

  /** Reading on an idle connection and sending what was read delivers everything still missing. */
  lemma ReadsOn(run: string, cursor: nat, s: System) returns (actions: seq<Action>)
    requires Invariant(run, cursor, s) && !s.client.stopped
    requires s.connection.Some? && s.connection.value.wire == [] && s.connection.value.batch == []
    ensures AllDeliver(actions)
    ensures var t := Steps(run, s, actions);
      t.client.delivered == After(LogOf(s.logs, run), cursor) && t.logs == s.logs && !t.client.stopped
  {
    var read := Step(run, s, ServerRead);
    StepKeepsInvariant(run, cursor, s, ServerRead);
    var rest := Drain(run, cursor, read);
    OneStep(run, s, ServerRead);
    StepsAppend(run, s, [ServerRead], rest);
    assert s.client.delivered + [] == s.client.delivered;
    actions := [ServerRead] + rest;
  }

  /**
   * From wherever it stands, a client that has not stopped can be brought up to date by connecting if need be, reading,
   * sending and receiving alone.
   */
  lemma {:induction false} CatchesUp(run: string, cursor: nat, actions: seq<Action>) returns (more: seq<Action>)
    requires !Run(run, cursor, actions).client.stopped
    ensures AllDeliver(more)
    ensures Run(run, cursor, actions + more).client.delivered == After(PublishedFor(run, actions), cursor)
  {
    var s := Run(run, cursor, actions);
    RunKeepsInvariant(run, cursor, actions);
    LogIsPublished(run, cursor, actions, run);
    var a := Connected(run, cursor, s);
    var b := Drain(run, cursor, Steps(run, s, a));
    StepsAppend(run, s, a, b);
    var c := ReadsOn(run, cursor, Steps(run, s, a + b));
    StepsAppend(run, s, a + b, c);
    more := a + b + c;
    RunSteps(run, cursor, actions, more);
  }

  /** On an idle connection one read, one send and one receipt deliver exactly the next event, if there is one. */
  lemma {:induction false} NextArrives(run: string, cursor: nat, actions: seq<Action>)
    requires var s := Run(run, cursor, actions);
      !s.client.stopped && s.connection.Some? && s.connection.value.wire == [] && s.connection.value.batch == []
    ensures var s := Run(run, cursor, actions);
      var missing := After(PublishedFor(run, actions), s.client.lastId);
      Run(run, cursor, actions + [ServerRead, ServerYield, Receive]).client.delivered
      == s.client.delivered + if missing == [] then [] else [missing[0]]
  {
    var s := Run(run, cursor, actions);
    RunKeepsInvariant(run, cursor, actions);
    LogIsPublished(run, cursor, actions, run);
    var read := Step(run, s, ServerRead);
    StepKeepsInvariant(run, cursor, s, ServerRead);
    var sent := Step(run, read, ServerYield);
    StepKeepsInvariant(run, cursor, read, ServerYield);
    if sent.connection.value.wire != [] {
      ReceiveArrives(run, cursor, sent);
    }
    RunSteps(run, cursor, actions, [ServerRead, ServerYield, Receive]);
    OneStep(run, s, ServerRead);
    assert [ServerRead] + [ServerYield] == [ServerRead, ServerYield];
    StepsAppend(run, s, [ServerRead], [ServerYield]);
    OneStep(run, read, ServerYield);
    assert [ServerRead, ServerYield] + [Receive] == [ServerRead, ServerYield, Receive];
    StepsAppend(run, s, [ServerRead, ServerYield], [Receive]);
    OneStep(run, sent, Receive);
  }

  // ---- stopping and reconnecting -----------------------------------------------------------

  ghost predicate KnowsDelivered(c: Client) {
    forall id :: id in c.seen <==> exists e :: e in c.delivered && e.id == id
  }

  lemma HandOnKnows(c: Client, e: RunEvent)
    requires KnowsDelivered(c)
    ensures KnowsDelivered(HandOn(c, e))
  {
    var next := HandOn(c, e);
    forall id ensures id in next.seen <==> exists x :: x in next.delivered && x.id == id {
      if e.id !in c.seen {
        assert forall x :: x in next.delivered <==> x in c.delivered || x == e;
        assert e in next.delivered;
      }
    }
  }

  /** The ids a client knows are those of the events it was handed. */
  lemma {:induction false} SeenIsDelivered(run: string, cursor: nat, actions: seq<Action>)
    ensures KnowsDelivered(Run(run, cursor, actions).client)
  {
    if actions != [] {
      var s := Run(run, cursor, actions[..|actions| - 1]);
      SeenIsDelivered(run, cursor, actions[..|actions| - 1]);
      if s.connection.Some? && s.connection.value.wire != [] {
        HandOnKnows(s.client, s.connection.value.wire[0]);
      }
    }
  }

  /** A connection that drops loses what was under way; the next one begins behind the last event handed on. */
  lemma {:induction false} ReconnectResumes(run: string, cursor: nat, actions: seq<Action>)
    requires !Run(run, cursor, actions).client.stopped
    ensures var s, t := Run(run, cursor, actions), Steps(run, Run(run, cursor, actions), [Drop, Connect]);
      && t.client == s.client
      && t.connection == Some(Connection(
           if s.client.delivered == [] then cursor else s.client.delivered[|s.client.delivered| - 1].id, [], []))
  {
    RunKeepsInvariant(run, cursor, actions);
    assert [Drop] + [Connect] == [Drop, Connect];
    OneStep(run, Run(run, cursor, actions), Drop);
    StepsAppend(run, Run(run, cursor, actions), [Drop], [Connect]);
    OneStep(run, Step(run, Run(run, cursor, actions), Drop), Connect);
  }

  /** A client that stops is handed nothing more, and no client stops by itself. */
  lemma {:induction false} StoppedStays(run: string, s: System, actions: seq<Action>)
    ensures var t := Steps(run, s, [Stop] + actions); t.client.stopped && t.client.delivered == s.client.delivered
    ensures Stop !in actions ==> Steps(run, s, actions).client.stopped == s.client.stopped
  {
    if actions == [] {
      assert [Stop] + actions == [Stop];
      OneStep(run, s, Stop);
    } else {
      var front := actions[..|actions| - 1];
      assert ([Stop] + actions)[..|actions|] == [Stop] + front;
      StoppedStays(run, s, front);
    }
  }

  // ---- ids as text -------------------------------------------------------------------------

  function Decimal(n: nat): string {
    if n < 10 then [('0' as int + n) as char] else Decimal(n / 10) + [('0' as int + n % 10) as char]
  }

  function Number(digits: string): nat {
    if digits == "" then 0
    else
      var last := digits[|digits| - 1];
      10 * Number(digits[..|digits| - 1]) + if '0' <= last <= '9' then last as int - '0' as int else 0
  }

  function IdText(id: nat): string {
    Decimal(id) + "-0"
  }

  /** The part before the first hyphen, read as a number; no text at all counts as zero. */
  function CursorOf(text: string): nat {
    Number(BeforeHyphen(text))
  }

  function BeforeHyphen(text: string): string {
    if text == "" || text[0] == '-' then "" else [text[0]] + BeforeHyphen(text[1..])
  }

  lemma {:induction false} NumberOfDecimal(n: nat)
    ensures Number(Decimal(n)) == n && forall c :: c in Decimal(n) ==> '0' <= c <= '9'
  {
    if n >= 10 {
      NumberOfDecimal(n / 10);
      var d := Decimal(n);
      assert d[..|d| - 1] == Decimal(n / 10);
    } else {
      assert Decimal(n)[..0] == "";
    }
  }

  lemma {:induction false} BeforeHyphenIs(head: string, tail: string)
    requires '-' !in head
    ensures BeforeHyphen(head + "-" + tail) == head
  {
    if head != "" {
      assert (head + "-" + tail)[1..] == head[1..] + "-" + tail;
      BeforeHyphenIs(head[1..], tail);
    }
  }

  /** An event's id survives being written as text and read back as a cursor. */
  lemma {:induction false} CursorOfIdText(id: nat)
    ensures CursorOf(IdText(id)) == id && CursorOf("") == 0
  {
    NumberOfDecimal(id);
    BeforeHyphenIs(Decimal(id), "0");
    assert IdText(id) == Decimal(id) + "-" + "0";
  }
}
