/** Role teams: the message bus with one cursor per role, and the round-robin run over it. */
module TeamBus {
  import opened Results
  import opened Sequences

  datatype Message = Message(content: string, sentFrom: string)

  datatype Role = Role(name: string, watch: seq<string>)

  /** A role never hears itself; an empty watch list listens to everyone else. */
  predicate Interested(role: Role, m: Message) {
    m.sentFrom != role.name && (role.watch == [] || m.sentFrom in role.watch)
  }

  function Interesting(role: Role, messages: seq<Message>): seq<Message> {
    if messages == [] then []
    else
      var last := messages[|messages| - 1];
      Interesting(role, messages[..|messages| - 1]) + if Interested(role, last) then [last] else []
  }

  lemma {:induction false} InterestingAppend(role: Role, a: seq<Message>, b: seq<Message>)
    ensures Interesting(role, a + b) == Interesting(role, a) + Interesting(role, b)
  {
    if b == [] {
      assert a + b == a;
    } else {
      assert (a + b)[..|a + b| - 1] == a + b[..|b| - 1];
      InterestingAppend(role, a, b[..|b| - 1]);
    }
  }

  /** A message of another role that this one watches, or of any other role if it watches none. */
  predicate ForRole(role: Role, m: Message) {
    if role.watch == [] then m.sentFrom != role.name else m.sentFrom != role.name && m.sentFrom in role.watch
  }

  /** What a role hears are the messages at these positions, in order. */
  ghost predicate PickedOut(role: Role, messages: seq<Message>, at: seq<nat>, heard: seq<Message>) {
    && |at| == |heard|
    && (forall i :: 0 <= i < |at| ==> at[i] < |messages| && heard[i] == messages[at[i]] && ForRole(role, heard[i]))
    && (forall i, j :: 0 <= i < j < |at| ==> at[i] < at[j])
    && (forall k: nat :: k < |messages| && ForRole(role, messages[k]) ==> k in at)
  }

  lemma PickedOutNext(role: Role, messages: seq<Message>, at: seq<nat>, heard: seq<Message>, m: Message)
    requires PickedOut(role, messages, at, heard)
    ensures if ForRole(role, m) then PickedOut(role, messages + [m], at + [|messages|], heard + [m])
            else PickedOut(role, messages + [m], at, heard)
  {
    if ForRole(role, m) {
      forall k: nat | k < |messages + [m]| && ForRole(role, (messages + [m])[k]) ensures k in at + [|messages|] {
        assert k < |messages| ==> k in at;
      }
    }
  }

  /** A role hears exactly the messages for it, each where it stands in the queue, and never its own. */
  lemma {:induction false} InterestingIs(role: Role, messages: seq<Message>) returns (at: seq<nat>)
    ensures PickedOut(role, messages, at, Interesting(role, messages))
  {
    at := [];
    if messages != [] {
      var front, last := messages[..|messages| - 1], messages[|messages| - 1];
      assert messages == front + [last];
      at := InterestingIs(role, front);
      PickedOutNext(role, front, at, Interesting(role, front), last);
      if Interested(role, last) {
        at := at + [|front|];
      } else {
        assert Interesting(role, messages) == Interesting(role, front);
      }
    }
  }

  /** A role with something to hear keeps having it while others publish. */
  lemma PendingPersists(role: Role, pending: seq<Message>, more: seq<Message>)
    requires Interesting(role, pending) != []
    ensures Interesting(role, pending + more) != []
  {
    InterestingAppend(role, pending, more);
  }

  // ---- the bus -----------------------------------------------------------------------------

  class Environment {
    var roles: map<string, Role>
    var messageQueue: seq<Message>
    /** What each publisher has published; clearing the queue does not touch it. */
    var messageHistory: map<string, seq<Message>>
    var cursors: map<string, nat>
    /** Everything each role has consumed since the queue was last cleared. */
    ghost var consumed: map<string, seq<Message>>

    ghost predicate Valid()
      reads this
    {
      && (forall name :: name in roles ==> roles[name].name == name && name in cursors)
      && (forall name :: name in cursors ==> cursors[name] <= |messageQueue|)
      && consumed.Keys == cursors.Keys
      && (forall name, m :: name in messageHistory && m in messageHistory[name] ==> m.sentFrom == name)
    }

    /** Each role has consumed, once and in order, exactly what interested it up to its cursor. */
    ghost predicate ExactlyOnce()
      requires Valid()
      reads this
    {
      forall name :: name in roles ==> consumed[name] == Interesting(roles[name], messageQueue[..cursors[name]])
    }

    constructor ()
      ensures Valid() && ExactlyOnce() && roles == map[] && messageQueue == [] && cursors == map[]
      ensures messageHistory == map[]
    {
      roles, messageQueue, messageHistory, cursors, consumed := map[], [], map[], map[], map[];
    }

    method AddRole(role: Role)
      requires Valid()
      modifies this
      ensures Valid() && roles == old(roles)[role.name := role]
      ensures messageQueue == old(messageQueue) && messageHistory == old(messageHistory)
      ensures cursors == if role.name in old(cursors) then old(cursors) else old(cursors)[role.name := 0]
      ensures old(ExactlyOnce())
        && (role.name !in old(cursors) || (role.name in old(roles) && old(roles)[role.name] == role))
        ==> ExactlyOnce()
    {
      roles := roles[role.name := role];
      if role.name !in cursors {
        cursors := cursors[role.name := 0];
        consumed := consumed[role.name := []];
      }
    }

    method RemoveRole(name: string)
      requires Valid()
      modifies this
      ensures Valid() && roles == old(roles) - {name} && cursors == old(cursors) - {name}
        && messageQueue == old(messageQueue) && messageHistory == old(messageHistory) - {name}
      ensures old(ExactlyOnce()) ==> ExactlyOnce()
    {
      messageHistory := messageHistory - {name};
      roles := roles - {name};
      cursors := cursors - {name};
      consumed := consumed - {name};
    }

    method PublishMessage(content: string, publisher: string)
      requires Valid()
      modifies this`messageQueue, this`messageHistory
      ensures Valid() && messageQueue == old(messageQueue) + [Message(content, publisher)]
      ensures messageHistory
           == old(messageHistory)[publisher := old(PublishedBy(publisher)) + [Message(content, publisher)]]
      ensures old(ExactlyOnce()) ==> ExactlyOnce()
    {
      ghost var before := messageQueue;
      messageQueue := messageQueue + [Message(content, publisher)];
      messageHistory := messageHistory[publisher := PublishedBy(publisher) + [Message(content, publisher)]];
      assert forall n: nat :: n <= |before| ==> messageQueue[..n] == before[..n];
    }

    function PublishedBy(name: string): seq<Message>
      reads this
    {
      if name in messageHistory then messageHistory[name] else []
    }

    /** What a role has not consumed yet and is interested in; nothing for an unknown role. */
    function MessagesForRole(name: string): seq<Message>
      requires Valid()
      reads this
    {
      if name !in roles then [] else Interesting(roles[name], messageQueue[cursors[name]..])
    }

    method ConsumeMessagesForRole(name: string) returns (messages: seq<Message>)
      requires Valid()
      modifies this`cursors, this`consumed
      ensures Valid() && messages == old(MessagesForRole(name))
      ensures cursors == old(cursors)[name := |messageQueue|]
      ensures consumed == old(consumed)[name := (if name in old(consumed) then old(consumed)[name] else []) + messages]
      ensures old(ExactlyOnce()) ==> ExactlyOnce()
    {
      messages := MessagesForRole(name);
      if name in roles {
        InterestingAppend(roles[name], messageQueue[..cursors[name]], messageQueue[cursors[name]..]);
        assert messageQueue[..cursors[name]] + messageQueue[cursors[name]..] == messageQueue;
      }
      consumed := consumed[name := (if name in consumed then consumed[name] else []) + messages];
      cursors := cursors[name := |messageQueue|];
      assert messageQueue[..|messageQueue|] == messageQueue;
    }

    method ClearQueue()
      requires Valid()
      modifies this
      ensures Valid() && ExactlyOnce() && roles == old(roles)
      ensures messageQueue == [] && messageHistory == old(messageHistory)
      ensures cursors == map name | name in roles :: 0
    {
      messageQueue := [];
      cursors := map name | name in roles :: 0;
      consumed := map name | name in roles :: [];
    }
  }

  // ---- round robin -------------------------------------------------------------------------

  /** How many positions lie between the start and position r, going round. */
  function Distance(start: nat, r: nat, n: nat): nat
    requires start < n && r < n
  {
    if r >= start then r - start else r + n - start
  }

  /** The position after `i`, going round. */
  function Next(i: nat, n: nat): nat
    requires i < n
  {
    if i + 1 == n then 0 else i + 1
  }

  /** The state a run moves through: the queue, what each role has consumed of it, and where to look next. */
  datatype Bus = Bus(queue: seq<Message>, cursors: map<string, nat>, next: nat)

  predicate Covers(roles: seq<Role>, bus: Bus) {
    forall r :: 0 <= r < |roles| ==> roles[r].name in bus.cursors && bus.cursors[roles[r].name] <= |bus.queue|
  }

  function Unread(bus: Bus, role: Role): seq<Message> {
    if role.name in bus.cursors && bus.cursors[role.name] <= |bus.queue|
    then Interesting(role, bus.queue[bus.cursors[role.name]..])
    else []
  }

  ghost predicate Nobody(roles: seq<Role>, bus: Bus) {
    forall r :: 0 <= r < |roles| ==> Unread(bus, roles[r]) == []
  }

  /** The nearest role with something unread, going round from where to look next. */
  ghost predicate Chosen(roles: seq<Role>, bus: Bus, pick: nat) {
    && bus.next < |roles| && pick < |roles| && Unread(bus, roles[pick]) != []
    && Skipped(roles, bus, Distance(bus.next, pick, |roles|))
  }

  /** Nothing is unread at any position nearer than the offset. */
  ghost predicate Skipped(roles: seq<Role>, bus: Bus, offset: nat) {
    forall r :: 0 <= r < |roles| && bus.next < |roles| && Distance(bus.next, r, |roles|) < offset ==>
        Unread(bus, roles[r]) == []
  }

  /** One turn: the chosen role consumes all it has unread and may publish one answer. */
  ghost predicate Turn(roles: seq<Role>, a: Bus, pick: nat, said: Option<string>, b: Bus) {
    && Chosen(roles, a, pick)
    && b.queue == a.queue + Answer(roles[pick].name, said)
    && b.cursors == a.cursors[roles[pick].name := |a.queue|]
    && b.next == Next(pick, |roles|)
  }

  function Answer(name: string, said: Option<string>): seq<Message> {
    match said
    case None => []
    case Some(content) => [Message(content, name)]
  }

  datatype Move = Move(pick: nat, said: Option<string>)

  ghost predicate IsRun(roles: seq<Role>, trace: seq<Bus>, moves: seq<Move>) {
    && |trace| == |moves| + 1
    && Covers(roles, trace[0])
    && forall k :: 0 <= k < |moves| ==> Turn(roles, trace[k], moves[k].pick, moves[k].said, trace[k + 1])
  }

  ghost predicate DistinctNames(roles: seq<Role>) {
    forall i, j :: 0 <= i < j < |roles| ==> roles[i].name != roles[j].name
  }

  lemma TurnCovers(roles: seq<Role>, a: Bus, pick: nat, said: Option<string>, b: Bus)
    requires Covers(roles, a) && Turn(roles, a, pick, said, b)
    ensures Covers(roles, b)
  {
  }

  lemma RestOfRun(roles: seq<Role>, trace: seq<Bus>, moves: seq<Move>)
    requires IsRun(roles, trace, moves) && moves != []
    ensures IsRun(roles, trace[1..], moves[1..])
    ensures Turn(roles, trace[0], moves[0].pick, moves[0].said, trace[1])
  {
    TurnCovers(roles, trace[0], moves[0].pick, moves[0].said, trace[1]);
    forall k | 0 <= k < |moves[1..]|
      ensures Turn(roles, trace[1..][k], moves[1..][k].pick, moves[1..][k].said, trace[1..][k + 1])
    {
      assert Turn(roles, trace[k + 1], moves[k + 1].pick, moves[k + 1].said, trace[k + 2]);
    }
  }

  // ---- every role gets its turn ------------------------------------------------------------

  lemma StaysPending(roles: seq<Role>, a: Bus, pick: nat, said: Option<string>, b: Bus, r: nat)
    requires DistinctNames(roles) && Covers(roles, a) && Turn(roles, a, pick, said, b)
    requires r < |roles| && r != pick && Unread(a, roles[r]) != []
    ensures Unread(b, roles[r]) != []
  {
    var c := a.cursors[roles[r].name];
    assert roles[r].name != roles[pick].name;
    assert b.queue[c..] == a.queue[c..] + Answer(roles[pick].name, said);
    PendingPersists(roles[r], a.queue[c..], Answer(roles[pick].name, said));
  }

  lemma DistanceShrinks(start: nat, pick: nat, r: nat, n: nat)
    requires start < n && pick < n && r < n && pick != r
    requires Distance(start, pick, n) <= Distance(start, r, n)
    ensures Distance(Next(pick, n), r, n) < Distance(start, r, n)
  {
  }

  /**
   * A role with something unread is picked before anybody is picked twice over: within its distance, so within |roles|
   * turns.
   */
  lemma {:induction false} PickedInTurn(roles: seq<Role>, trace: seq<Bus>, moves: seq<Move>, r: nat)
    requires DistinctNames(roles) && IsRun(roles, trace, moves)
    requires r < |roles| && Unread(trace[0], roles[r]) != []
    requires trace[0].next < |roles| && |moves| > Distance(trace[0].next, r, |roles|)
    ensures exists k :: 0 <= k <= Distance(trace[0].next, r, |roles|) < |roles| && moves[k].pick == r
    decreases |moves|
  {
    RestOfRun(roles, trace, moves);
    if moves[0].pick != r {
      StaysPending(roles, trace[0], moves[0].pick, moves[0].said, trace[1], r);
      DistanceShrinks(trace[0].next, moves[0].pick, r, |roles|);
      PickedInTurn(roles, trace[1..], moves[1..], r);
      var k :| 0 <= k <= Distance(trace[1].next, r, |roles|) && moves[1..][k].pick == r;
      assert moves[k + 1].pick == r;
    }
  }

  // ---- every role hears everything once ----------------------------------------------------

  /** What a role consumed during a run, batch after batch. */
  ghost function Heard(roles: seq<Role>, trace: seq<Bus>, moves: seq<Move>, r: nat): seq<Message>
    requires IsRun(roles, trace, moves) && r < |roles|
    decreases |moves|
  {
    if moves == [] then []
    else
      RestOfRun(roles, trace, moves);
      (if moves[0].pick == r then Unread(trace[0], roles[r]) else []) + Heard(roles, trace[1..], moves[1..], r)
  }

  lemma TurnGrows(roles: seq<Role>, a: Bus, pick: nat, said: Option<string>, b: Bus)
    requires Turn(roles, a, pick, said, b) && Covers(roles, a)
    ensures IsPrefix(a.queue, b.queue) && Covers(roles, b)
  {
  }

  lemma PrefixOfPrefix<T>(a: seq<T>, b: seq<T>, c: seq<T>)
    requires IsPrefix(a, b) && IsPrefix(b, c)
    ensures IsPrefix(a, c)
  {
    assert c[..|a|] == c[..|b|][..|a|];
  }

  lemma {:induction false} QueueGrows(roles: seq<Role>, trace: seq<Bus>, moves: seq<Move>)
    requires IsRun(roles, trace, moves)
    ensures IsPrefix(trace[0].queue, trace[|moves|].queue)
    ensures Covers(roles, trace[|moves|])
    decreases |moves|
  {
    if moves != [] {
      RestOfRun(roles, trace, moves);
      QueueGrows(roles, trace[1..], moves[1..]);
      assert trace[1..][|moves[1..]|] == trace[|moves|];
      TurnGrows(roles, trace[0], moves[0].pick, moves[0].said, trace[0 + 1]);
      PrefixOfPrefix(trace[0].queue, trace[1].queue, trace[|moves|].queue);
    }
  }

  /** Consumed so far, then still unread: together exactly what interests the role, in order and once. */
  lemma {:induction false} HeardThenUnread(roles: seq<Role>, trace: seq<Bus>, moves: seq<Move>, r: nat)
    requires DistinctNames(roles) && IsRun(roles, trace, moves) && r < |roles|
    ensures DeliveredBetween(roles[r], trace[0], Heard(roles, trace, moves, r), trace[|moves|])
    decreases |moves|
  {
    if moves != [] {
      RestOfRun(roles, trace, moves);
      QueueGrows(roles, trace[1..], moves[1..]);
      assert trace[1..][|moves[1..]|] == trace[|moves|];
      HeardThenUnread(roles, trace[1..], moves[1..], r);
      TurnDelivers(roles, trace[0], moves[0].pick, moves[0].said, trace[1], r,
        Heard(roles, trace[1..], moves[1..], r), trace[|moves|]);
    }
  }

  /** After a turn the speaker has nothing unread, and what it said is the next thing for each role it is meant for. */
  lemma {:induction false} AnswerIsHeard(
    roles: seq<Role>, a: Bus, pick: nat, said: Option<string>, b: Bus, r: nat)
    requires DistinctNames(roles) && Covers(roles, a) && Turn(roles, a, pick, said, b) && r < |roles|
    ensures if r == pick then Unread(b, roles[r]) == []
            else if said.Some? && ForRole(roles[r], Message(said.value, roles[pick].name)) then
              Unread(b, roles[r]) == Unread(a, roles[r]) + [Message(said.value, roles[pick].name)]
            else Unread(b, roles[r]) == Unread(a, roles[r])
  {
    var role, answer := roles[r], Answer(roles[pick].name, said);
    if r == pick {
      assert b.queue[|a.queue|..] == answer;
      assert Interesting(role, answer) == [] by {
        if said.Some? {
          assert answer[..0] == [];
        }
      }
    } else {
      assert role.name != roles[pick].name;
      var from := a.cursors[role.name];
      assert b.queue[from..] == a.queue[from..] + answer;
      InterestingAppend(role, a.queue[from..], answer);
      if said.Some? {
        assert answer[..0] == [];
      }
    }
  }

  /** Consumed between two states, then unread in the second: exactly what interests the role since its first cursor. */
  ghost predicate DeliveredBetween(role: Role, a: Bus, heard: seq<Message>, z: Bus) {
    && role.name in a.cursors && a.cursors[role.name] <= |z.queue|
    && heard + Unread(z, role) == Interesting(role, z.queue[a.cursors[role.name]..])
  }

  lemma TurnDelivers(
    roles: seq<Role>, a: Bus, pick: nat, said: Option<string>, b: Bus, r: nat, later: seq<Message>, z: Bus)
    requires DistinctNames(roles) && r < |roles| && Covers(roles, a) && Turn(roles, a, pick, said, b)
    requires DeliveredBetween(roles[r], b, later, z) && IsPrefix(b.queue, z.queue)
    ensures DeliveredBetween(roles[r], a, (if pick == r then Unread(a, roles[r]) else []) + later, z)
  {
    if pick == r {
      OwnTurnDelivers(roles[r], a, b, later, z);
    } else {
      assert roles[r].name != roles[pick].name;
      assert [] + later == later;
    }
  }

  lemma OwnTurnDelivers(role: Role, a: Bus, b: Bus, later: seq<Message>, z: Bus)
    requires role.name in a.cursors && a.cursors[role.name] <= |a.queue|
    requires role.name in b.cursors && b.cursors[role.name] == |a.queue| && IsPrefix(a.queue, b.queue)
    requires DeliveredBetween(role, b, later, z) && IsPrefix(b.queue, z.queue)
    ensures DeliveredBetween(role, a, Unread(a, role) + later, z)
  {
    assert IsPrefix(a.queue, z.queue);
    FirstBatch(role, a, b, z);
    Associate(Unread(a, role), later, Unread(z, role));
  }

  lemma FirstBatch(role: Role, a: Bus, b: Bus, z: Bus)
    requires role.name in a.cursors && a.cursors[role.name] <= |a.queue|
    requires role.name in b.cursors && b.cursors[role.name] == |a.queue|
    requires IsPrefix(a.queue, z.queue)
    ensures Interesting(role, z.queue[a.cursors[role.name]..])
         == Unread(a, role) + Interesting(role, z.queue[b.cursors[role.name]..])
  {
    var c := a.cursors[role.name];
    assert z.queue[c..] == a.queue[c..] + z.queue[|a.queue|..];
    InterestingAppend(role, a.queue[c..], z.queue[|a.queue|..]);
  }

  /** A run that stops because nobody has anything unread has delivered everything to everyone. */
  lemma {:induction false} QuietMeansAllHeard(roles: seq<Role>, trace: seq<Bus>, moves: seq<Move>, r: nat)
    requires DistinctNames(roles) && IsRun(roles, trace, moves) && r < |roles|
    requires Nobody(roles, trace[|moves|])
    ensures trace[0].cursors[roles[r].name] <= |trace[|moves|].queue|
    ensures Heard(roles, trace, moves, r)
         == Interesting(roles[r], trace[|moves|].queue[trace[0].cursors[roles[r].name]..])
  {
    HeardThenUnread(roles, trace, moves, r);
  }

  // ---- the team ----------------------------------------------------------------------------

  /** The index an offset leads to, going round. */
  function Around(i: nat, n: nat): (index: nat)
    requires 0 < n && i < n + n
    ensures index == if i < n then i else i - n
  {
    GoingRound(i, n);
    i % n
  }

  lemma GoingRound(i: nat, n: nat)
    requires 0 < n && i < n + n
    ensures i % n == if i < n then i else i - n
  {
    if i >= n {
      assert i == n + (i - n);
      assert (i - n) % n == i - n;
    }
  }

  lemma SkipOne(roles: seq<Role>, bus: Bus, index: nat)
    requires bus.next < |roles| && index < |roles| && Unread(bus, roles[index]) == []
    requires Skipped(roles, bus, Distance(bus.next, index, |roles|))
    ensures Skipped(roles, bus, Distance(bus.next, index, |roles|) + 1)
  {
    forall r | 0 <= r < |roles| && Distance(bus.next, r, |roles|) == Distance(bus.next, index, |roles|)
      ensures r == index
    {
    }
  }

  /** The last thing each role said. */
  function LastSaid(messages: seq<Message>): map<string, string> {
    if messages == [] then map[]
    else
      var last := messages[|messages| - 1];
      LastSaid(messages[..|messages| - 1])[last.sentFrom := last.content]
  }

  /** Each name is kept with the last thing said under it. */
  lemma {:induction false} LastSaidIs(messages: seq<Message>, name: string)
    ensures name in LastSaid(messages) <==> exists i :: SaidLast(messages, i, name)
    ensures forall i :: SaidLast(messages, i, name) ==> LastSaid(messages)[name] == messages[i].content
  {
    if messages != [] {
      var front, last := messages[..|messages| - 1], messages[|messages| - 1];
      LastSaidIs(front, name);
      if last.sentFrom == name {
        assert SaidLast(messages, |front|, name);
      } else {
        assert forall i :: SaidLast(messages, i, name) <==> SaidLast(front, i, name);
      }
    }
  }

  ghost predicate SaidLast(messages: seq<Message>, i: int, name: string) {
    && 0 <= i < |messages| && messages[i].sentFrom == name
    && forall j :: i < j < |messages| ==> messages[j].sentFrom != name
  }

  /** Hiring replaces a role of the same name where it stands, or adds the role at the end. */
  function HiredOne(roles: seq<Role>, role: Role): seq<Role> {
    if roles == [] then [role]
    else if roles[0].name == role.name then [role] + roles[1..]
    else [roles[0]] + HiredOne(roles[1..], role)
  }

  function Hired(roles: seq<Role>, newcomers: seq<Role>): seq<Role> {
    if newcomers == [] then roles
    else HiredOne(Hired(roles, newcomers[..|newcomers| - 1]), newcomers[|newcomers| - 1])
  }

  function Without(roles: seq<Role>, names: seq<string>): seq<Role> {
    if roles == [] then []
    else (if roles[0].name in names then [] else [roles[0]]) + Without(roles[1..], names)
  }

  lemma {:induction false} HiredOneIs(roles: seq<Role>, role: Role)
    requires DistinctNames(roles)
    ensures DistinctNames(HiredOne(roles, role))
    ensures forall r :: r in HiredOne(roles, role) <==> r == role || (r in roles && r.name != role.name)
  {
    if roles == [] || roles[0].name == role.name {
      HiredHere(roles, role);
    } else {
      var rest := HiredOne(roles[1..], role);
      assert DistinctNames(roles[1..]);
      HiredOneIs(roles[1..], role);
      forall k | 0 <= k < |rest| ensures rest[k].name != roles[0].name {
        assert rest[k] in rest;
      }
      NamesCons(roles[0], rest);
    }
  }

  lemma HiredHere(roles: seq<Role>, role: Role)
    requires DistinctNames(roles) && (roles == [] || roles[0].name == role.name)
    ensures DistinctNames(HiredOne(roles, role))
    ensures forall r :: r in HiredOne(roles, role) <==> r == role || (r in roles && r.name != role.name)
  {
    if roles != [] {
      assert forall k :: 0 < k < |roles| ==> roles[0].name != roles[k].name;
      assert roles == [roles[0]] + roles[1..];
    }
  }

  lemma NamesCons(role: Role, rest: seq<Role>)
    requires DistinctNames(rest) && forall k :: 0 <= k < |rest| ==> rest[k].name != role.name
    ensures DistinctNames([role] + rest)
  {
  }

  lemma {:induction false} WithoutIs(roles: seq<Role>, names: seq<string>)
    requires DistinctNames(roles)
    ensures DistinctNames(Without(roles, names))
    ensures forall r :: r in Without(roles, names) <==> r in roles && r.name !in names
  {
    if roles != [] {
      var rest := Without(roles[1..], names);
      assert DistinctNames(roles[1..]);
      WithoutIs(roles[1..], names);
      assert roles == [roles[0]] + roles[1..];
      forall k | 0 <= k < |rest| ensures rest[k].name != roles[0].name {
        assert rest[k] in rest;
      }
      NamesCons(roles[0], rest);
    }
  }

  lemma {:induction false} WithoutOne(roles: seq<Role>, names: seq<string>, name: string)
    ensures Without(Without(roles, names), [name]) == Without(roles, names + [name])
  {
    if roles != [] {
      var rest := Without(roles[1..], names);
      WithoutOne(roles[1..], names, name);
      if roles[0].name in names {
        assert Without(roles, names) == rest;
      } else {
        assert Without(roles, names) == [roles[0]] + rest;
        assert ([roles[0]] + rest)[1..] == rest;
      }
    }
  }

  lemma {:induction false} WithoutNothing(roles: seq<Role>)
    ensures Without(roles, []) == roles
  {
    if roles != [] {
      WithoutNothing(roles[1..]);
    }
  }

  /** Every answer is what the role makes of the last message it consumed. */
  ghost predicate Answered(
    roles: seq<Role>, trace: seq<Bus>, moves: seq<Move>, act: (nat, Role, Message) -> Option<string>)
    requires IsRun(roles, trace, moves)
  {
    forall k: nat :: k < |moves| ==> IsAnswer(roles, trace[k], moves[k].pick, moves[k].said, k, act)
  }

  ghost predicate IsAnswer(
    roles: seq<Role>, a: Bus, pick: nat, said: Option<string>, k: nat, act: (nat, Role, Message) -> Option<string>)
  {
    && pick < |roles|
    && var unread := Unread(a, roles[pick]);
    && unread != [] && said == act(k, roles[pick], unread[|unread| - 1])
  }

  function Last<T>(s: seq<T>): T
    requires s != []
  {
    s[|s| - 1]
  }

  lemma RunGrows(roles: seq<Role>, trace: seq<Bus>, moves: seq<Move>, pick: nat, said: Option<string>, b: Bus)
    requires IsRun(roles, trace, moves) && Turn(roles, trace[|moves|], pick, said, b)
    ensures IsRun(roles, trace + [b], moves + [Move(pick, said)])
  {
    var longer, moved := trace + [b], moves + [Move(pick, said)];
    forall k | 0 <= k < |moved| ensures Turn(roles, longer[k], moved[k].pick, moved[k].said, longer[k + 1]) {
      if k < |moves| {
        assert Turn(roles, trace[k], moves[k].pick, moves[k].said, trace[k + 1]);
      }
    }
  }

  lemma AnswersGrow(roles: seq<Role>, trace: seq<Bus>, moves: seq<Move>, act: (nat, Role, Message) -> Option<string>,
                    pick: nat, said: Option<string>, b: Bus)
    requires IsRun(roles, trace, moves) && IsRun(roles, trace + [b], moves + [Move(pick, said)])
    requires Answered(roles, trace, moves, act) && IsAnswer(roles, trace[|moves|], pick, said, |moves|, act)
    ensures Answered(roles, trace + [b], moves + [Move(pick, said)], act)
  {
  }

  lemma NobodyLeft(roles: seq<Role>, bus: Bus)
    requires roles == [] || bus.next < |roles|
    requires Skipped(roles, bus, |roles|)
    ensures Nobody(roles, bus)
  {
    forall r: nat | r < |roles| ensures Distance(bus.next, r, |roles|) < |roles| {
    }
  }

  /** A run under `act` from the first state to the present one. */
  ghost predicate Played(roles: seq<Role>, trace: seq<Bus>, moves: seq<Move>,
                         act: (nat, Role, Message) -> Option<string>,
                         first: Bus, now: Bus)
  {
    && IsRun(roles, trace, moves) && trace[0] == first && trace[|moves|] == now
    && Answered(roles, trace, moves, act)
  }

  lemma PlayedOn(roles: seq<Role>, trace: seq<Bus>, moves: seq<Move>, act: (nat, Role, Message) -> Option<string>,
                 first: Bus, now: Bus, pick: nat, said: Option<string>, b: Bus)
    requires Played(roles, trace, moves, act, first, now)
    requires Turn(roles, now, pick, said, b) && IsAnswer(roles, now, pick, said, |moves|, act)
    ensures Played(roles, trace + [b], moves + [Move(pick, said)], act, first, b)
  {
    RunGrows(roles, trace, moves, pick, said, b);
    AnswersGrow(roles, trace, moves, act, pick, said, b);
  }

  /** What was published since the start of the run is what the results and the memory hold. */
  ghost predicate Recorded(
    start: seq<Message>, queue: seq<Message>, results: map<string, string>, before: seq<Message>, memory: seq<Message>)
  {
    && |start| <= |queue|
    && results == LastSaid(queue[|start|..])
    && memory == before + queue[|start|..]
  }

  lemma RecordedGrows(start: seq<Message>, queue: seq<Message>, results: map<string, string>, before: seq<Message>,
                      memory: seq<Message>, name: string, said: Option<string>)
    requires Recorded(start, queue, results, before, memory)
    ensures Recorded(start, queue + Answer(name, said), if said.Some? then results[name := said.value] else results,
                     before, memory + Answer(name, said))
  {
    var answer := Answer(name, said);
    assert (queue + answer)[|start|..] == queue[|start|..] + answer;
    Associate(before, queue[|start|..], answer);
    LastSaidGrows(queue[|start|..], name, said);
  }

  lemma LastSaidGrows(messages: seq<Message>, name: string, said: Option<string>)
    ensures LastSaid(messages + Answer(name, said))
         == if said.Some? then LastSaid(messages)[name := said.value] else LastSaid(messages)
  {
    var answer := Answer(name, said);
    if said.Some? {
      assert (messages + answer)[..|messages|] == messages;
    } else {
      assert messages + answer == messages;
    }
  }

  class Team {
    var roles: seq<Role>
    const env: Environment
    var memory: seq<Message>
    var nextRoleIndex: nat

    ghost predicate Valid()
      reads this, env
    {
      && env.Valid() && DistinctNames(roles)
      && forall r :: r in roles ==> r.name in env.roles && env.roles[r.name] == r
    }

    ghost function View(): Bus
      reads this, env
    {
      Bus(env.messageQueue, env.cursors, nextRoleIndex)
    }

    constructor ()
      ensures Valid() && fresh(env) && env.ExactlyOnce() && roles == [] && memory == [] && env.messageQueue == []
    {
      env := new Environment();
      roles, memory, nextRoleIndex := [], [], 0;
    }

    method Hire(newcomers: seq<Role>)
      requires Valid()
      modifies this`roles, env
      ensures Valid() && env.messageQueue == old(env.messageQueue)
      ensures roles == Hired(old(roles), newcomers)
    {
      for i := 0 to |newcomers|
        invariant Valid() && env.messageQueue == old(env.messageQueue)
        invariant roles == Hired(old(roles), newcomers[..i])
      {
        assert newcomers[..i + 1][..i] == newcomers[..i];
        HiredOneIs(roles, newcomers[i]);
        roles := HiredOne(roles, newcomers[i]);
        env.AddRole(newcomers[i]);
      }
      assert newcomers[..|newcomers|] == newcomers;
    }

    method Disband(names: seq<string>)
      requires Valid()
      modifies this`roles, env
      ensures Valid() && env.messageQueue == old(env.messageQueue)
      ensures roles == Without(old(roles), names)
      ensures old(env.ExactlyOnce()) ==> env.ExactlyOnce()
    {
      WithoutNothing(roles);
      for i := 0 to |names|
        invariant Valid() && env.messageQueue == old(env.messageQueue)
        invariant roles == Without(old(roles), names[..i])
        invariant old(env.ExactlyOnce()) ==> env.ExactlyOnce()
      {
        assert names[..i + 1] == names[..i] + [names[i]];
        WithoutOne(old(roles), names[..i], names[i]);
        WithoutIs(roles, [names[i]]);
        roles := Without(roles, [names[i]]);
        env.RemoveRole(names[i]);
      }
      assert names[..|names|] == names;
    }

    /** The nearest role with something unread, from the remembered index on and around. */
    method GetNextRole() returns (pick: Option<nat>)
      requires Valid() && (roles == [] || nextRoleIndex < |roles|)
      modifies this`nextRoleIndex
      ensures pick == None ==> Nobody(roles, View()) && nextRoleIndex == old(nextRoleIndex)
      ensures pick.Some? ==> Chosen(roles, old(View()), pick.value) && nextRoleIndex == Next(pick.value, |roles|)
    {
      ghost var bus := View();
      for offset := 0 to |roles|
        invariant View() == bus
        invariant Skipped(roles, bus, offset)
      {
        var index := Around(nextRoleIndex + offset, |roles|);
        var pending := HasUnread(index);
        if pending {
          nextRoleIndex := Around(index + 1, |roles|);
          return Some(index);
        }
        SkipOne(roles, bus, index);
      }
      NobodyLeft(roles, bus);
      return None;
    }

    method HasUnread(r: nat) returns (pending: bool)
      requires Valid() && r < |roles|
      ensures pending <==> Unread(View(), roles[r]) != []
    {
      assert roles[r] in roles;
      pending := env.MessagesForRole(roles[r].name) != [];
    }

    /**
     * Runs at most `maxIterations` turns, then clears the queue. `act` is what a role answers, if anything, to the
     * last message it consumed; `trace` and `moves` record the run.
     */
    method Run(task: string, maxIterations: int, act: (nat, Role, Message) -> Option<string>)
      returns (results: map<string, string>, ghost trace: seq<Bus>, ghost moves: seq<Move>, ghost finished: Bus)
      requires Valid()
      modifies this`nextRoleIndex, this`memory, env
      ensures Valid() && env.ExactlyOnce() && env.messageQueue == [] && env.roles == old(env.roles)
      ensures Played(roles, trace, moves, act,
                     Bus(old(env.messageQueue) + [Message(task, "user")], old(env.cursors), 0), finished)
      ensures |moves| <= if maxIterations < 0 then 0 else maxIterations
      ensures |moves| < maxIterations ==> Nobody(roles, finished)
      ensures Recorded(trace[0].queue, finished.queue, results, old(memory), memory)
    {
      nextRoleIndex := 0;
      env.PublishMessage(task, "user");
      ghost var first := View();
      assert Covers(roles, first) by {
        assert forall r :: 0 <= r < |roles| ==> roles[r] in roles;
      }
      results, trace, moves := Rounds(maxIterations, act);
      finished := View();
      env.ClearQueue();
    }

    method Rounds(maxIterations: int, act: (nat, Role, Message) -> Option<string>)
      returns (results: map<string, string>, ghost trace: seq<Bus>, ghost moves: seq<Move>)
      requires Valid() && (roles == [] || nextRoleIndex < |roles|) && Covers(roles, View())
      modifies this`nextRoleIndex, this`memory, env
      ensures Valid() && env.roles == old(env.roles)
      ensures Played(roles, trace, moves, act, old(View()), View())
      ensures |moves| <= if maxIterations < 0 then 0 else maxIterations
      ensures |moves| < maxIterations ==> Nobody(roles, View())
      ensures Recorded(old(env.messageQueue), env.messageQueue, results, old(memory), memory)
    {
      ghost var first := View();
      var i, over := 0, false;
      results, trace, moves := map[], [first], [];
      while i < maxIterations && !over
        invariant Valid() && env.roles == old(env.roles) && (roles == [] || nextRoleIndex < |roles|)
        invariant 0 <= i && |moves| == i && (i > 0 ==> i <= maxIterations)
        invariant Played(roles, trace, moves, act, first, View())
        invariant Recorded(first.queue, env.messageQueue, results, old(memory), memory)
        invariant over ==> Nobody(roles, View())
        decreases maxIterations - i, !over
      {
        ghost var move, now := Move(0, None), View();
        over, results, move := Round(i, act, results, first.queue, old(memory));
        if !over {
          PlayedOn(roles, trace, moves, act, first, now, move.pick, move.said, View());
          moves, trace := moves + [move], trace + [View()];
          i := i + 1;
        }
      }
    }

    /** One pass of the loop: over when nobody has anything unread, one turn otherwise. */
    method Round(i: nat, act: (nat, Role, Message) -> Option<string>, results: map<string, string>,
                 ghost start: seq<Message>, ghost before: seq<Message>)
      returns (over: bool, results': map<string, string>, ghost move: Move)
      requires Valid() && (roles == [] || nextRoleIndex < |roles|)
      requires Recorded(start, env.messageQueue, results, before, memory)
      modifies this`nextRoleIndex, this`memory, env
      ensures Valid() && env.roles == old(env.roles) && (roles == [] || nextRoleIndex < |roles|)
      ensures Recorded(start, env.messageQueue, results', before, memory)
      ensures over ==> Nobody(roles, View()) && View() == old(View())
      ensures !over ==>
        && Turn(roles, old(View()), move.pick, move.said, View())
        && IsAnswer(roles, old(View()), move.pick, move.said, i, act)
    {
      ghost var a := View();
      var pick := GetNextRole();
      move := Move(0, None);
      if pick == None {
        return true, results, move;
      }
      var said;
      said, results' := TakeTurn(pick.value, i, act, results, a);
      RecordedGrows(start, a.queue, results, before, old(memory), roles[pick.value].name, said);
      over, move := false, Move(pick.value, said);
    }

    /** The chosen role consumes what it has unread and acts on the last of it. */
    method TakeTurn(
      pick: nat, i: nat, act: (nat, Role, Message) -> Option<string>, results: map<string, string>, ghost a: Bus)
      returns (said: Option<string>, results': map<string, string>)
      requires Valid() && a == Bus(env.messageQueue, env.cursors, a.next)
      requires Chosen(roles, a, pick) && nextRoleIndex == Next(pick, |roles|)
      modifies this`memory, env
      ensures Valid() && env.roles == old(env.roles)
      ensures Turn(roles, a, pick, said, View()) && IsAnswer(roles, a, pick, said, i, act)
      ensures memory == old(memory) + Answer(roles[pick].name, said)
      ensures results' == if said.Some? then results[roles[pick].name := said.value] else results
    {
      assert roles[pick] in roles;
      results' := results;
      var name := roles[pick].name;
      var messages := env.ConsumeMessagesForRole(name);
      said := act(i, roles[pick], Last(messages));
      if said.Some? {
        results' := results'[name := said.value];
        memory := memory + [Message(said.value, name)];
        env.PublishMessage(said.value, name);
      }
    }
  }
}
