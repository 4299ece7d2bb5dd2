/** Keeping a conversation within its budget: older messages collapse into one summary of bullets. */
module Compaction {
  import opened Results
  import opened Sequences
  import opened SummaryText

  datatype Role = System | User | Assistant | Tool

  /** What a tool's content decodes to. */
  datatype Payload = NotJson | NotObject | Object(status: string, summary: string)

  /** `calls` are the names of the requested tool calls, `callChars` their length as text. */
  datatype Message =
    Message(role: Role, content: string, name: string, calls: seq<string>, callChars: nat, payload: Payload)

  datatype Refusal = KeepPairsTooSmall | CharBudgetTooSmall

  // ---- bullets -----------------------------------------------------------------------------

  function Named(calls: seq<string>): seq<string> {
    if calls == [] then [] else (if calls[0] == "" then [] else [calls[0]]) + Named(calls[1..])
  }

  const ASSISTANT := "- assistant ("
  const STATUS := "calling tools"
  const TOOLS := "; tools="
  const CALLING := ASSISTANT + STATUS + TOOLS
  const OK := "ok): "
  const ANSWER := ASSISTANT + OK
  const EMPTY := "(empty)"
  const TOOL := "- tool "
  const USER := "- user: "

  function AssistantBullet(m: Message): string {
    var content := Shorten(m.content);
    var names := Named(m.calls);
    if names != [] then
      var head := CALLING + Join(names, ", ") + ")";
      if content != "" then head + (": " + content) else head
    else ANSWER + if content != "" then content else EMPTY
  }

  function ToolName(m: Message): string {
    if m.name == "" then "tool" else m.name
  }

  function ToolStatus(m: Message): string {
    if Strip(m.content) != "" && m.payload.Object? && m.payload.status != "" then m.payload.status else "ok"
  }

  function ToolSummary(m: Message): string {
    if Strip(m.content) == "" then ""
    else if m.payload.Object? then Shorten(m.payload.summary)
    else Shorten(m.content)
  }

  function ToolBullet(m: Message): string {
    var head := TOOL + ToolName(m) + " (" + ToolStatus(m) + ")";
    if ToolSummary(m) != "" then head + (": " + ToolSummary(m)) else head
  }

  /** The calls that have a name, in order. */
  lemma {:induction false} NamedIs(a: seq<string>, b: seq<string>, name: string)
    ensures Named(a + b) == Named(a) + Named(b) && Named([name]) == if name == "" then [] else [name]
  {
    assert [name][1..] == [];
    if a == [] {
      assert a + b == b;
    } else {
      assert (a + b)[1..] == a[1..] + b;
      NamedIs(a[1..], b, name);
    }
  }

  predicate Contains(s: string, t: string) {
    |t| <= |s| && (s[..|t|] == t || (s != "" && Contains(s[1..], t)))
  }

  predicate StandsAt(s: string, t: string, i: nat) {
    i + |t| <= |s| && s[i..i + |t|] == t
  }

  /** Some position of the text begins the other. */
  lemma {:induction false} ContainsIff(s: string, t: string)
    ensures Contains(s, t) <==> exists i: nat :: StandsAt(s, t, i)
  {
    if |t| <= |s| {
      if s[..|t|] == t {
        assert StandsAt(s, t, 0);
      } else if s != "" {
        ContainsIff(s[1..], t);
        if i: nat :| StandsAt(s[1..], t, i) {
          assert s[i + 1..i + 1 + |t|] == t;
          assert StandsAt(s, t, i + 1);
        }
        if i: nat :| StandsAt(s, t, i) {
          assert i > 0 && s[1..][i - 1..i - 1 + |t|] == t;
          assert StandsAt(s[1..], t, i - 1);
        }
      }
    }
  }

  predicate IsSummary(m: Message) {
    m.role == System && Contains(m.content, TAG)
  }

  /** What a message leaves in a summary. */
  function BulletsOf(m: Message): seq<string> {
    match m.role
    case Assistant => [AssistantBullet(m)]
    case Tool => [ToolBullet(m)]
    case User => if Shorten(m.content) != "" then [USER + Shorten(m.content)] else []
    case System => if Contains(m.content, TAG) then Reread(m.content) else []
  }

  /** A turn's bullet names the tools it calls, and shows what it says, shortened. */
  lemma {:induction false} TurnBullet(m: Message)
    requires m.role == Assistant
    ensures var names, says := Join(Named(m.calls), ", "), Shorten(m.content);
      && (Named(m.calls) != [] && says == "" ==>
            BulletsOf(m) == ["- assistant (" + "calling tools" + "; tools=" + names + ")"])
      && (Named(m.calls) != [] && says != "" ==>
            BulletsOf(m) == ["- assistant (" + "calling tools" + "; tools=" + names + ")" + (": " + says)])
      && (Named(m.calls) == [] && says != "" ==> BulletsOf(m) == ["- assistant (" + "ok): " + says])
      && (Named(m.calls) == [] && says == "" ==> BulletsOf(m) == ["- assistant (" + "ok): " + "(empty)"])
  {
  }

  /** A tool's bullet shows its name, its status and its summary, as far as it has them. */
  lemma {:induction false} ToolsBullet(m: Message)
    requires m.role == Tool
    ensures var name := if m.name != "" then m.name else "tool";
      && (Strip(m.content) == "" ==> BulletsOf(m) == ["- tool " + name + " (" + "ok" + ")"])
      && (Strip(m.content) != "" && m.payload.Object? ==>
            var status := if m.payload.status != "" then m.payload.status else "ok";
            var says := Shorten(m.payload.summary);
            BulletsOf(m) == ["- tool " + name + " (" + status + ")" + if says != "" then ": " + says else ""])
      && (Strip(m.content) != "" && !m.payload.Object? ==>
            var says := Shorten(m.content);
            BulletsOf(m) == ["- tool " + name + " (" + "ok" + ")" + if says != "" then ": " + says else ""])
  {
    var head := TOOL + ToolName(m) + " (" + ToolStatus(m) + ")";
    assert head + "" == head;
  }

  /** What users say is kept shortened; of system prompts only an earlier summary's bullets are. */
  lemma {:induction false} OtherBullets(m: Message)
    ensures m.role == User ==>
      BulletsOf(m) == if Shorten(m.content) == "" then [] else ["- user: " + Shorten(m.content)]
    ensures m.role == System ==>
      BulletsOf(m) == if Contains(m.content, "[conversation_summary]") then Reread(m.content) else []
  {
  }

  /** What the messages leave behind, in order. */
  function Trace(messages: seq<Message>): seq<string> {
    if messages == [] then []
    else Trace(messages[..|messages| - 1]) + BulletsOf(messages[|messages| - 1])
  }

  function SummaryMessage(bullets: seq<string>): Message {
    Message(System, TAG + "\n" + Join(bullets, "\n"), "", [], 0, NotJson)
  }

  lemma {:induction false} TraceAppend(a: seq<Message>, b: seq<Message>)
    ensures Trace(a + b) == Trace(a) + Trace(b)
  {
    if b == [] {
      assert a + b == a;
    } else {
      var front, last := b[..|b| - 1], b[|b| - 1];
      assert (a + b)[..|a + b| - 1] == a + front && (a + b)[|a + b| - 1] == last;
      TraceAppend(a, front);
      Associate(Trace(a), Trace(front), BulletsOf(last));
    }
  }

  method BuildSummary(older: seq<Message>) returns (summary: Option<Message>)
    ensures summary == if Trace(older) == [] then None else Some(SummaryMessage(Trace(older)))
  {
    var bullets := [];
    for i := 0 to |older|
      invariant bullets == Trace(older[..i])
    {
      assert older[..i + 1][..i] == older[..i];
      bullets := bullets + BulletsOf(older[i]);
    }
    assert older[..|older|] == older;
    return if bullets == [] then None else Some(SummaryMessage(bullets));
  }

  // ---- compacting --------------------------------------------------------------------------

  const MARKERS := [
    "Request:", "Project instructions", "AGENTS.md", "AGENT.md", "Claude.md", "Approved plan:", "Permission:",
    "SKILL.md"
  ]

  predicate HasAny(s: string, markers: seq<string>) {
    markers != [] && (Contains(s, markers[0]) || HasAny(s, markers[1..]))
  }

  /** System prompts and the fixed user messages, as long as they come first and are no summary. */
  predicate Leads(m: Message) {
    !Contains(m.content, TAG) && (m.role == System || (m.role == User && HasAny(m.content, MARKERS)))
  }

  lemma {:induction false} HasAnyIff(s: string, markers: seq<string>)
    ensures HasAny(s, markers) <==> exists t :: t in markers && Contains(s, t)
  {
    if markers != [] {
      HasAnyIff(s, markers[1..]);
      assert markers[0] in markers && forall t :: t in markers[1..] ==> t in markers;
      assert forall t :: t in markers ==> t == markers[0] || t in markers[1..];
    }
  }

  /** System prompts lead, and user messages that hold a marker; an earlier summary does not. */
  lemma {:induction false} LeadsIff(m: Message)
    ensures Leads(m) <==>
      && !Contains(m.content, "[conversation_summary]")
      && (m.role == System || (m.role == User && exists t :: t in MARKERS && Contains(m.content, t)))
  {
    HasAnyIff(m.content, MARKERS);
  }

  function LeadLength(messages: seq<Message>): (n: nat)
    ensures n <= |messages|
  {
    if messages != [] && Leads(messages[0]) then 1 + LeadLength(messages[1..]) else 0
  }

  /** The last position up to `c` that does not hold a tool message. */
  function Cut(body: seq<Message>, c: nat): (cut: nat)
    requires c < |body|
    ensures cut <= c
  {
    if c > 0 && body[c].role == Tool then Cut(body, c - 1) else c
  }

  function CharCount(messages: seq<Message>): nat {
    if messages == [] then 0
    else
      var last := messages[|messages| - 1];
      CharCount(messages[..|messages| - 1]) + |last.content| + if last.calls == [] then 0 else last.callChars
  }

  /** Characters add up message by message; the calls of a message count by their length as text. */
  lemma {:induction false} CharsAddUp(a: seq<Message>, b: seq<Message>, m: Message)
    ensures CharCount(a + b) == CharCount(a) + CharCount(b)
    ensures CharCount([m]) == |m.content| + if m.calls == [] then 0 else m.callChars
  {
    assert [m][..0] == [];
    if b == [] {
      assert a + b == a;
    } else {
      assert (a + b)[..|a + b| - 1] == a + b[..|b| - 1];
      CharsAddUp(a, b[..|b| - 1], m);
    }
  }

  function Summarized(leading: seq<Message>, older: seq<Message>, recent: seq<Message>): seq<Message> {
    leading + (if Trace(older) == [] then [] else [SummaryMessage(Trace(older))]) + recent
  }

  /** How a conversation falls apart when something is summarised. */
  datatype Parts = Parts(leading: seq<Message>, older: seq<Message>, recent: seq<Message>)

  function Cutting(messages: seq<Message>, keep: nat): Option<Parts>
    requires keep >= 1
  {
    var lead := LeadLength(messages);
    var body := messages[lead..];
    if |body| <= 2 * keep then None
    else
      var cut := Cut(body, |body| - 2 * keep);
      if cut == 0 then None else Some(Parts(messages[..lead], body[..cut], body[cut..]))
  }

  /** What a conversation over its budget becomes. */
  function Compacted(messages: seq<Message>, keep: nat): seq<Message>
    requires keep >= 1
  {
    match Cutting(messages, keep)
    case None => messages
    case Some(p) => Summarized(p.leading, p.older, p.recent)
  }

  method CountChars(messages: seq<Message>) returns (total: nat)
    ensures total == CharCount(messages)
  {
    total := 0;
    for i := 0 to |messages|
      invariant total == CharCount(messages[..i])
    {
      assert messages[..i + 1][..i] == messages[..i];
      total := total + |messages[i].content|;
      if messages[i].calls != [] {
        total := total + messages[i].callChars;
      }
    }
    assert messages[..|messages|] == messages;
  }

  method SplitLeading(messages: seq<Message>) returns (leading: seq<Message>, body: seq<Message>)
    ensures leading == messages[..LeadLength(messages)] && body == messages[LeadLength(messages)..]
  {
    leading := [];
    var index := 0;
    while index < |messages| && Leads(messages[index])
      invariant index <= |messages| && leading == messages[..index]
      invariant LeadLength(messages) == index + LeadLength(messages[index..])
    {
      leading := leading + [messages[index]];
      assert messages[index..][1..] == messages[index + 1..];
      index := index + 1;
    }
    body := messages[index..];
  }

  method CompactMessages(messages: seq<Message>, keepPairs: int, charBudget: int)
    returns (r: Result<seq<Message>, Refusal>)
    ensures keepPairs < 1 ==> r == Err(KeepPairsTooSmall)
    ensures keepPairs >= 1 && charBudget < 1 ==> r == Err(CharBudgetTooSmall)
    ensures keepPairs >= 1 && charBudget >= 1 ==>
      r == Ok(if CharCount(messages) <= charBudget then messages else Compacted(messages, keepPairs))
  {
    if keepPairs < 1 {
      return Err(KeepPairsTooSmall);
    }
    if charBudget < 1 {
      return Err(CharBudgetTooSmall);
    }
    var total := CountChars(messages);
    if total <= charBudget {
      return Ok(messages);
    }
    var compacted := CompactOver(messages, keepPairs);
    return Ok(compacted);
  }

  /** The part of the above that no longer looks at the budget. */
  method CompactOver(messages: seq<Message>, keepPairs: nat) returns (r: seq<Message>)
    requires keepPairs >= 1
    ensures r == Compacted(messages, keepPairs)
  {
    var leading, body := SplitLeading(messages);
    var keepCount := keepPairs * 2;
    ghost var p := Cutting(messages, keepPairs);
    if |body| <= keepCount {
      assert p == None;
      return messages;
    }
    var cut := FindCut(body, |body| - keepCount);
    if cut <= 0 {
      assert p == None;
      return messages;
    }
    CuttingAt(messages, keepPairs, leading, body, cut);
    r := Replace(leading, body[..cut], body[cut..]);
  }

  lemma CuttingAt(messages: seq<Message>, keep: nat, leading: seq<Message>, body: seq<Message>, cut: nat)
    requires keep >= 1 && leading == messages[..LeadLength(messages)] && body == messages[LeadLength(messages)..]
    requires |body| > 2 * keep && 0 < cut == Cut(body, |body| - 2 * keep)
    ensures Compacted(messages, keep) == Summarized(leading, body[..cut], body[cut..])
  {
    assert Cutting(messages, keep) == Some(Parts(leading, body[..cut], body[cut..]));
  }

  method FindCut(body: seq<Message>, start: nat) returns (cut: nat)
    requires start < |body|
    ensures cut == Cut(body, start)
  {
    cut := start;
    while cut > 0 && body[cut].role == Tool
      invariant 0 <= cut < |body| && Cut(body, cut) == Cut(body, start)
    {
      cut := cut - 1;
    }
  }

  method Replace(leading: seq<Message>, older: seq<Message>, recent: seq<Message>) returns (r: seq<Message>)
    ensures r == Summarized(leading, older, recent)
  {
    var summary := BuildSummary(older);
    if summary == None {
      assert leading + [] == leading;
      return leading + recent;
    }
    return leading + [summary.value] + recent;
  }

  /** Within the budget nothing is checked; over it, as above. */
  method MaybeCompactMessages(messages: seq<Message>, keepPairs: int, charBudget: int)
    returns (r: Result<seq<Message>, Refusal>)
    ensures CharCount(messages) <= charBudget ==> r == Ok(messages)
    ensures CharCount(messages) > charBudget && keepPairs < 1 ==> r == Err(KeepPairsTooSmall)
    ensures CharCount(messages) > charBudget && keepPairs >= 1 && charBudget < 1 ==> r == Err(CharBudgetTooSmall)
    ensures CharCount(messages) > charBudget && keepPairs >= 1 && charBudget >= 1 ==>
      r == Ok(Compacted(messages, keepPairs))
  {
    var total := CountChars(messages);
    if total <= charBudget {
      return Ok(messages);
    }
    r := CompactMessages(messages, keepPairs, charBudget);
  }

  // ---- what a compaction keeps -------------------------------------------------------------

  lemma {:induction false} CutIs(body: seq<Message>, c: nat)
    requires c < |body|
    ensures var cut := Cut(body, c);
      && (cut == 0 || body[cut].role != Tool)
      && forall i :: cut < i <= c ==> body[i].role == Tool
  {
    if c > 0 && body[c].role == Tool {
      CutIs(body, c - 1);
    }
  }

  lemma {:induction false} LeadIs(messages: seq<Message>)
    ensures var n := LeadLength(messages);
      && (forall i :: 0 <= i < n ==> Leads(messages[i]))
      && (n < |messages| ==> !Leads(messages[n]))
  {
    if messages != [] && Leads(messages[0]) {
      LeadIs(messages[1..]);
    }
  }

  /**
   * The parts make up the conversation; the recent one keeps at least `keep` pairs and starts with no tool's answer.
   */
  ghost predicate WellCut(messages: seq<Message>, keep: nat, p: Parts) {
    && messages == p.leading + p.older + p.recent
    && p.older != [] && !Leads(p.older[0])
    && |p.recent| >= 2 * keep > 0 && p.recent[0].role != Tool
  }

  lemma CuttingIsWell(messages: seq<Message>, keep: nat)
    requires keep >= 1 && Cutting(messages, keep).Some?
    ensures WellCut(messages, keep, Cutting(messages, keep).value)
  {
    var lead := LeadLength(messages);
    var body := messages[lead..];
    var cut := Cut(body, |body| - 2 * keep);
    CutIs(body, |body| - 2 * keep);
    Reassembled(messages, lead, cut);
    FirstAfterLeading(messages);
  }

  lemma Reassembled(messages: seq<Message>, lead: nat, cut: nat)
    requires lead + cut <= |messages|
    ensures var body := messages[lead..]; messages == messages[..lead] + body[..cut] + body[cut..]
  {
  }

  lemma {:induction false} FirstAfterLeading(messages: seq<Message>)
    ensures var n := LeadLength(messages); n < |messages| ==> !Leads(messages[n]) && messages[n..][0] == messages[n]
  {
    LeadIs(messages);
  }

  /**
   * A conversation is either left alone or becomes its leading messages, at most one summary, and an unchanged end of
   * at least 2 * keep messages that does not start with a tool's answer.
   */
  lemma {:induction false} CompactedShape(messages: seq<Message>, keep: nat)
    requires keep >= 1 && Cutting(messages, keep).Some?
    ensures var p := Cutting(messages, keep).value;
      && WellCut(messages, keep, p)
      && Compacted(messages, keep)
         == p.leading + (if Trace(p.older) == [] then [] else [SummaryMessage(Trace(p.older))]) + p.recent
  {
    CuttingIsWell(messages, keep);
  }

  /** Every leading message leads, and more than 2 * keep messages are kept only to reach back over tools' answers. */
  lemma {:induction false} CompactedExtent(messages: seq<Message>, keep: nat)
    requires keep >= 1 && Cutting(messages, keep).Some?
    ensures var p := Cutting(messages, keep).value;
      && (forall i :: 0 <= i < |p.leading| ==> Leads(p.leading[i]))
      && (forall i :: 0 < i <= |p.recent| - 2 * keep ==> p.recent[i].role == Tool)
  {
    var body := messages[LeadLength(messages)..];
    LeadIs(messages);
    CutIs(body, |body| - 2 * keep);
  }

  /** Every kept tool message has the turn it answers kept before it, with nothing but tools' answers between. */
  lemma {:induction false} TurnIsKept(messages: seq<Message>, keep: nat, i: nat) returns (turn: nat)
    requires keep >= 1 && Cutting(messages, keep).Some? && i < |Cutting(messages, keep).value.recent|
    ensures var recent := Cutting(messages, keep).value.recent;
      turn <= i && recent[turn].role != Tool && forall k :: turn < k <= i ==> recent[k].role == Tool
  {
    CuttingIsWell(messages, keep);
    if Cutting(messages, keep).value.recent[i].role != Tool {
      turn := i;
    } else {
      turn := TurnIsKept(messages, keep, i - 1);
    }
  }

  // ---- every bullet survives ---------------------------------------------------------------

  predicate AllOneLine(names: seq<string>) {
    names == [] || (OneLine(names[0]) && AllOneLine(names[1..]))
  }

  lemma {:induction false} NamesOneLine(names: seq<string>)
    ensures OneLine(Join(names, ", ")) <==> AllOneLine(names)
  {
    if |names| > 1 {
      NamesOneLine(names[1..]);
      NoBreakIsOneLine(", ");
      OneLineAppend(names[0], ", ");
      OneLineAppend(names[0] + ", ", Join(names[1..], ", "));
    }
  }

  /** The tool names and the status a bullet would show hold no line break. */
  predicate Unbroken(m: Message) {
    match m.role
    case Assistant => AllOneLine(Named(m.calls))
    case Tool => OneLine(ToolName(m)) && OneLine(ToolStatus(m))
    case User => true
    case System => true
  }

  lemma Wrapped(open: string, inner: string, close: string)
    requires OneLine(open) && OneLine(close)
    ensures OneLine(open + inner + close) <==> OneLine(inner)
  {
    OneLineAppend(open, inner);
    OneLineAppend(open + inner, close);
  }

  /** A colon and tidy text after a bullet's head change nothing about its being one line. */
  lemma WithText(head: string, text: string)
    requires EndsDark(head)
    requires OneLine(text) && EndsDark(text)
    ensures OneLine(head + (": " + text)) <==> OneLine(head)
    ensures EndsDark(head + (": " + text))
  {
    NoBreakIsOneLine(": ");
    OneLineAppend(": ", text);
    OneLineAppend(head, ": " + text);
  }

  lemma HeadOneLine(s: string)
    requires forall i: nat :: i < |s| ==> ' ' <= s[i] <= 'z'
    ensures OneLine(s)
  {
    NoBreakIsOneLine(s);
  }

  lemma AssistantHead()
    ensures OneLine(ASSISTANT) && |ASSISTANT| >= 3 && MarkedHead(ASSISTANT)
  {
    HeadOneLine(ASSISTANT);
  }

  lemma {:induction false} StatusText()
    ensures OneLine(STATUS)
  {
    assert |STATUS| == 13;
    HeadOneLine(STATUS);
  }

  lemma ToolsText()
    ensures OneLine(TOOLS)
  {
    HeadOneLine(TOOLS);
  }

  lemma CallingHead()
    ensures OneLine(CALLING) && |CALLING| >= 3 && MarkedHead(CALLING)
  {
    AssistantHead();
    StatusText();
    ToolsText();
    TwoPieces(ASSISTANT, STATUS);
    TwoPieces(ASSISTANT + STATUS, TOOLS);
  }

  lemma TwoPieces(head: string, text: string)
    requires |head| >= 3 && MarkedHead(head) && OneLine(head) && OneLine(text)
    ensures OneLine(head + text) && |head + text| >= 3 && MarkedHead(head + text)
  {
    OneLineAppend(head, text);
  }

  lemma OkText()
    ensures OneLine(OK)
  {
    HeadOneLine(OK);
  }

  lemma AnswerHead()
    ensures OneLine(ANSWER) && |ANSWER| >= 3 && MarkedHead(ANSWER)
  {
    AssistantHead();
    OkText();
    TwoPieces(ASSISTANT, OK);
  }

  lemma ToolHead()
    ensures OneLine(TOOL) && |TOOL| >= 3 && MarkedHead(TOOL)
  {
    HeadOneLine(TOOL);
  }

  lemma UserHead()
    ensures OneLine(USER) && |USER| >= 3 && MarkedHead(USER)
  {
    HeadOneLine(USER);
  }

  lemma EmptyText()
    ensures OneLine(EMPTY) && EndsDark(EMPTY)
  {
    HeadOneLine(EMPTY);
  }

  lemma Brackets()
    ensures OneLine(" (") && OneLine(")")
  {
    HeadOneLine(" (");
    HeadOneLine(")");
  }

  predicate MarkedHead(head: string)
    requires |head| >= 3
  {
    IsItem(head) && !IsSpace(head[2])
  }

  lemma HeadMarks(head: string, rest: string)
    requires |head| >= 3 && MarkedHead(head)
    ensures Marked(head + rest)
  {
  }

  lemma TextPlain(head: string, text: string)
    requires |head| >= 3 && MarkedHead(head) && OneLine(head) && OneLine(text) && EndsDark(text)
    ensures Marked(head + text) && Plain(head + text)
  {
    OneLineAppend(head, text);
    EndsAlike(head, text);
    HeadMarks(head, text);
  }

  lemma EndsAlike(head: string, text: string)
    requires EndsDark(text)
    ensures EndsDark(head + text)
  {
  }

  lemma AnswerPlain(m: Message)
    requires Named(m.calls) == []
    ensures Marked(AssistantBullet(m)) && Plain(AssistantBullet(m))
  {
    var text := Shorten(m.content);
    ShortenIsTidy(m.content);
    EmptyText();
    AnswerHead();
    TextPlain(ANSWER, if text != "" then text else EMPTY);
  }

  lemma CallingPlain(m: Message)
    requires Named(m.calls) != []
    ensures Marked(AssistantBullet(m))
    ensures Plain(AssistantBullet(m)) <==> AllOneLine(Named(m.calls))
  {
    var names := Join(Named(m.calls), ", ");
    CallingHead();
    Brackets();
    NamesOneLine(Named(m.calls));
    Wrapped(CALLING, names, ")");
    Associate(CALLING, names, ")");
    HeadMarks(CALLING, names + ")");
    Closed(CALLING + names);
    ShortenIsTidy(m.content);
    HeadAndText(CALLING + names + ")", Shorten(m.content));
  }

  lemma Closed(s: string)
    ensures EndsDark(s + ")")
  {
  }

  /** Whether a bullet is plain is decided by its head; tidy text may follow. */
  lemma HeadAndText(head: string, text: string)
    requires Marked(head) && |head| >= 3 && MarkedHead(head) && EndsDark(head)
    requires OneLine(text) && (text != "" ==> EndsDark(text))
    ensures var b := if text != "" then head + (": " + text) else head;
      Marked(b) && (Plain(b) <==> OneLine(head))
  {
    if text != "" {
      WithText(head, text);
      HeadMarks(head, ": " + text);
    }
  }

  lemma ToolPlain(m: Message)
    ensures Marked(ToolBullet(m))
    ensures Plain(ToolBullet(m)) <==> OneLine(ToolName(m)) && OneLine(ToolStatus(m))
  {
    var name, status := ToolName(m), ToolStatus(m);
    ToolHead();
    ToolHeadLine(name, status);
    Regrouped(TOOL, name, " (", status, ")");
    HeadMarks(TOOL, name + " (" + status + ")");
    Closed(TOOL + name + " (" + status);
    SummaryIsTidy(m);
    HeadAndText(TOOL + name + " (" + status + ")", ToolSummary(m));
  }

  lemma Regrouped(a: string, b: string, c: string, d: string, e: string)
    ensures a + b + c + d + e == a + (b + c + d + e)
  {
  }

  lemma ToolHeadLine(name: string, status: string)
    ensures OneLine(TOOL + name + " (" + status + ")") <==> OneLine(name) && OneLine(status)
  {
    ToolHead();
    Brackets();
    Wrapped(TOOL, name, " (");
    OneLineAppend(TOOL + name + " (", status);
    OneLineAppend(TOOL + name + " (" + status, ")");
  }

  lemma UserPlain(m: Message)
    requires Shorten(m.content) != ""
    ensures var b := USER + Shorten(m.content); Marked(b) && Plain(b)
  {
    ShortenIsTidy(m.content);
    UserHead();
    TextPlain(USER, Shorten(m.content));
  }

  lemma SummaryIsTidy(m: Message)
    ensures OneLine(ToolSummary(m)) && (ToolSummary(m) != "" ==> EndsDark(ToolSummary(m)))
  {
    ShortenIsTidy(m.content);
    if m.payload.Object? {
      ShortenIsTidy(m.payload.summary);
    }
  }

  /** Every bullet looks like one, and reads back as itself exactly when its names and status hold no line break. */
  lemma {:induction false} BulletsPlain(m: Message)
    ensures AllMarked(BulletsOf(m))
    ensures AllPlain(BulletsOf(m)) <==> Unbroken(m)
  {
    match m.role
    case Assistant =>
      if Named(m.calls) == [] {
        AnswerPlain(m);
      } else {
        CallingPlain(m);
      }
      OneBullet(AssistantBullet(m));
    case Tool =>
      ToolPlain(m);
      OneBullet(ToolBullet(m));
    case User =>
      if Shorten(m.content) != "" {
        UserPlain(m);
        OneBullet(USER + Shorten(m.content));
      }
    case System =>
      RereadIsPlain(m.content);
  }

  lemma OneBullet(b: string)
    ensures AllMarked([b]) <==> Marked(b)
    ensures AllPlain([b]) <==> Plain(b)
  {
    assert [b][1..] == [];
  }

  lemma {:induction false} AllAppend(a: seq<string>, b: seq<string>)
    ensures AllMarked(a + b) <==> AllMarked(a) && AllMarked(b)
    ensures AllPlain(a + b) <==> AllPlain(a) && AllPlain(b)
  {
    if a == [] {
      assert a + b == b;
    } else {
      assert (a + b)[1..] == a[1..] + b;
      AllAppend(a[1..], b);
    }
  }

  predicate AllUnbroken(messages: seq<Message>) {
    messages == [] || (AllUnbroken(messages[..|messages| - 1]) && Unbroken(messages[|messages| - 1]))
  }

  lemma {:induction false} TracePlain(messages: seq<Message>)
    ensures AllMarked(Trace(messages))
    ensures AllPlain(Trace(messages)) <==> AllUnbroken(messages)
  {
    if messages != [] {
      var front, last := messages[..|messages| - 1], messages[|messages| - 1];
      TracePlain(front);
      BulletsPlain(last);
      AllAppend(Trace(front), BulletsOf(last));
    }
  }

  lemma Cancel<T>(a: seq<T>, x: seq<T>, y: seq<T>, b: seq<T>)
    ensures a + x + b == a + y + b <==> x == y
  {
    if a + x + b == a + y + b {
      assert |x| == |y|;
      assert x == (a + x + b)[|a|..|a| + |x|];
      assert y == (a + y + b)[|a|..|a| + |y|];
    }
  }

  lemma TagContained(rest: string)
    ensures Contains(TAG + rest, TAG)
  {
    assert (TAG + rest)[..|TAG|] == TAG;
  }

  /** A summary leaves the bullets it was written from exactly when none of the messages it replaces is broken. */
  lemma SummaryTrace(older: seq<Message>)
    requires Trace(older) != []
    ensures BulletsOf(SummaryMessage(Trace(older))) == Trace(older) <==> AllUnbroken(older)
  {
    TracePlain(older);
    SummaryRereadIff(Trace(older));
    TagContained("\n" + Join(Trace(older), "\n"));
    assert TAG + ("\n" + Join(Trace(older), "\n")) == SummaryMessage(Trace(older)).content;
  }

  lemma {:induction false} ReplacementTrace(older: seq<Message>)
    ensures Trace(Summarized([], older, [])) == Trace(older) <==> AllUnbroken(older)
  {
    TracePlain(older);
    if Trace(older) != [] {
      var summary := SummaryMessage(Trace(older));
      SummaryTrace(older);
      assert Summarized([], older, []) == [summary];
      assert Trace([summary][..0]) == [];
      assert [] + BulletsOf(summary) == BulletsOf(summary);
    }
  }

  /**
   * Compacting leaves every bullet of the conversation, in order, exactly when no summarised message has a line break
   * in a tool name or status.
   */
  lemma {:induction false} CompactedTrace(messages: seq<Message>, keep: nat)
    requires keep >= 1 && Cutting(messages, keep).Some?
    ensures Trace(Compacted(messages, keep)) == Trace(messages) <==> AllUnbroken(Cutting(messages, keep).value.older)
  {
    var p := Cutting(messages, keep).value;
    var middle := Summarized([], p.older, []);
    CuttingIsWell(messages, keep);
    MiddleOf(p);
    ThreeTraces(p.leading, p.older, p.recent);
    ThreeTraces(p.leading, middle, p.recent);
    ReplacementTrace(p.older);
    Cancel(Trace(p.leading), Trace(middle), Trace(p.older), Trace(p.recent));
  }

  lemma MiddleOf(p: Parts)
    ensures Summarized(p.leading, p.older, p.recent) == p.leading + Summarized([], p.older, []) + p.recent
  {
  }

  lemma {:induction false} ThreeTraces(a: seq<Message>, b: seq<Message>, c: seq<Message>)
    ensures Trace(a + b + c) == Trace(a) + Trace(b) + Trace(c)
  {
    TraceAppend(a, b);
    TraceAppend(a + b, c);
  }

  // ---- at most one summary, over whole conversations ---------------------------------------

  /** How many summaries there are. */
  function Summaries(messages: seq<Message>): nat {
    if messages == [] then 0
    else (if IsSummary(messages[0]) then 1 else 0) + Summaries(messages[1..])
  }

  /** A summary can only be the first message after the leading ones. */
  predicate SummaryFirst(messages: seq<Message>) {
    messages == []
    || (if Leads(messages[0]) then SummaryFirst(messages[1..]) else Summaries(messages[1..]) == 0)
  }

  lemma {:induction false} SummariesAppend(a: seq<Message>, b: seq<Message>)
    ensures Summaries(a + b) == Summaries(a) + Summaries(b)
  {
    if a == [] {
      assert a + b == b;
    } else {
      assert (a + b)[1..] == a[1..] + b;
      SummariesAppend(a[1..], b);
    }
  }

  lemma {:induction false} AtMostOne(messages: seq<Message>)
    requires SummaryFirst(messages)
    ensures Summaries(messages) <= 1
  {
    if messages != [] && Leads(messages[0]) {
      AtMostOne(messages[1..]);
    }
  }

  lemma {:induction false} NoneIsFirst(messages: seq<Message>)
    requires Summaries(messages) == 0
    ensures SummaryFirst(messages)
  {
    if messages != [] && Leads(messages[0]) {
      NoneIsFirst(messages[1..]);
    }
  }

  predicate AllLead(messages: seq<Message>) {
    messages == [] || (Leads(messages[0]) && AllLead(messages[1..]))
  }

  lemma {:induction false} LeadingLeads(messages: seq<Message>)
    ensures AllLead(messages[..LeadLength(messages)])
  {
    if messages != [] && Leads(messages[0]) {
      LeadingLeads(messages[1..]);
      assert messages[..LeadLength(messages)][1..] == messages[1..][..LeadLength(messages[1..])];
    }
  }

  /** Leading messages in front change nothing about where summaries may be. */
  lemma {:induction false} BehindLeading(leading: seq<Message>, rest: seq<Message>)
    requires AllLead(leading)
    ensures SummaryFirst(leading + rest) <==> SummaryFirst(rest)
    ensures leading != [] ==> (leading + rest)[0] == leading[0]
  {
    if leading == [] {
      assert leading + rest == rest;
    } else {
      assert (leading + rest)[1..] == leading[1..] + rest;
      BehindLeading(leading[1..], rest);
    }
  }

  lemma SummaryDoesNotLead(bullets: seq<string>)
    ensures IsSummary(SummaryMessage(bullets)) && !Leads(SummaryMessage(bullets))
  {
    TagContained("\n" + Join(bullets, "\n"));
    assert TAG + ("\n" + Join(bullets, "\n")) == SummaryMessage(bullets).content;
  }

  lemma CompactedKeepsOne(messages: seq<Message>, keep: nat)
    requires keep >= 1 && SummaryFirst(messages)
    ensures SummaryFirst(Compacted(messages, keep))
  {
    if Cutting(messages, keep).Some? {
      var p := Cutting(messages, keep).value;
      CuttingIsWell(messages, keep);
      LeadingLeads(messages);
      Associate(p.leading, p.older, p.recent);
      BehindLeading(p.leading, p.older + p.recent);
      NoneInRecent(p);
      ReplacedIsFirst(p);
    }
  }

  lemma NoneInRecent(p: Parts)
    requires p.older != [] && !Leads(p.older[0]) && SummaryFirst(p.older + p.recent)
    ensures Summaries(p.recent) == 0
  {
    assert (p.older + p.recent)[1..] == p.older[1..] + p.recent;
    SummariesAppend(p.older[1..], p.recent);
  }

  lemma ReplacedIsFirst(p: Parts)
    requires AllLead(p.leading) && Summaries(p.recent) == 0
    ensures SummaryFirst(Summarized(p.leading, p.older, p.recent))
  {
    var summary := SummaryMessage(Trace(p.older));
    if Trace(p.older) == [] {
      assert p.leading + [] == p.leading;
      NoneIsFirst(p.recent);
      BehindLeading(p.leading, p.recent);
    } else {
      SummaryDoesNotLead(Trace(p.older));
      Associate(p.leading, [summary], p.recent);
      assert ([summary] + p.recent)[1..] == p.recent;
      BehindLeading(p.leading, [summary] + p.recent);
    }
  }

  lemma {:induction false} AppendKeepsOne(messages: seq<Message>, m: Message)
    requires SummaryFirst(messages) && !IsSummary(m)
    ensures SummaryFirst(messages + [m])
  {
    if messages == [] {
      assert messages + [m] == [m] && [m][1..] == [];
    } else {
      assert (messages + [m])[1..] == messages[1..] + [m];
      if Leads(messages[0]) {
        AppendKeepsOne(messages[1..], m);
      } else {
        SummariesAppend(messages[1..], [m]);
        assert [m][1..] == [];
      }
    }
  }

  /** What happens to a conversation: a message is added, or it is compacted. */
  datatype Act = Add(message: Message) | Compact(keep: nat, charBudget: nat)

  function After(messages: seq<Message>, acts: seq<Act>): seq<Message> {
    if acts == [] then messages
    else
      var before := After(messages, acts[..|acts| - 1]);
      match acts[|acts| - 1]
      case Add(m) => before + [m]
      case Compact(keep, charBudget) =>
        if keep < 1 || charBudget < 1 || CharCount(before) <= charBudget then before else Compacted(before, keep)
  }

  function Added(acts: seq<Act>): seq<Message> {
    if acts == [] then []
    else
      match acts[|acts| - 1]
      case Add(m) => Added(acts[..|acts| - 1]) + [m]
      case Compact(_, _) => Added(acts[..|acts| - 1])
  }

  /** A compaction with valid limits acts on a conversation over its budget and on no other. */
  lemma {:induction false} ActsOverBudget(messages: seq<Message>, acts: seq<Act>, keep: int, charBudget: int)
    requires keep >= 1 && charBudget >= 1
    ensures var before, after := After(messages, acts), After(messages, acts + [Compact(keep, charBudget)]);
      && (CharCount(before) <= charBudget ==> after == before)
      && (CharCount(before) > charBudget && Cutting(before, keep).Some? ==>
            var p := Cutting(before, keep).value;
            after == p.leading + (if Trace(p.older) == [] then [] else [SummaryMessage(Trace(p.older))]) + p.recent)
  {
    assert (acts + [Compact(keep, charBudget)])[..|acts|] == acts;
  }

  predicate AddsNoSummary(acts: seq<Act>) {
    acts == []
    || (AddsNoSummary(acts[..|acts| - 1]) && (acts[|acts| - 1].Add? ==> !IsSummary(acts[|acts| - 1].message)))
  }

  /** However often a conversation is compacted, it holds at most one summary, right behind its leading messages. */
  lemma {:induction false} OneSummaryEver(messages: seq<Message>, acts: seq<Act>)
    requires SummaryFirst(messages) && AddsNoSummary(acts)
    ensures SummaryFirst(After(messages, acts)) && Summaries(After(messages, acts)) <= 1
  {
    if acts != [] {
      var before := After(messages, acts[..|acts| - 1]);
      OneSummaryEver(messages, acts[..|acts| - 1]);
      match acts[|acts| - 1]
      case Add(m) => AppendKeepsOne(before, m);
      case Compact(keep, _) =>
        if keep >= 1 {
          CompactedKeepsOne(before, keep);
        }
    }
    AtMostOne(After(messages, acts));
  }

  lemma {:induction false} LeadsAtLeast(lead: seq<Message>, rest: seq<Message>)
    requires AllLead(lead)
    ensures LeadLength(lead + rest) >= |lead|
  {
    if lead != [] {
      assert (lead + rest)[1..] == lead[1..] + rest;
      LeadsAtLeast(lead[1..], rest);
    }
  }

  lemma CompactedKeepsLeading(lead: seq<Message>, messages: seq<Message>, keep: nat)
    requires keep >= 1 && AllLead(lead) && IsPrefix(lead, messages)
    ensures IsPrefix(lead, Compacted(messages, keep))
  {
    if Cutting(messages, keep).Some? {
      var p := Cutting(messages, keep).value;
      LeadingIsLonger(lead, messages);
      Associate(p.leading, if Trace(p.older) == [] then [] else [SummaryMessage(Trace(p.older))], p.recent);
      PrefixAppend(lead, p.leading, (if Trace(p.older) == [] then [] else [SummaryMessage(Trace(p.older))]) + p.recent);
    }
  }

  lemma LeadingIsLonger(lead: seq<Message>, messages: seq<Message>)
    requires AllLead(lead) && IsPrefix(lead, messages)
    ensures IsPrefix(lead, messages[..LeadLength(messages)])
  {
    assert messages == lead + messages[|lead|..];
    LeadsAtLeast(lead, messages[|lead|..]);
  }

  lemma PrefixAppend<T>(a: seq<T>, b: seq<T>, c: seq<T>)
    requires IsPrefix(a, b)
    ensures IsPrefix(a, b + c)
  {
  }

  /** Leading messages stay verbatim in front, however often the conversation is compacted. */
  lemma {:induction false} LeadingStays(lead: seq<Message>, messages: seq<Message>, acts: seq<Act>)
    requires AllLead(lead) && IsPrefix(lead, messages)
    ensures IsPrefix(lead, After(messages, acts))
  {
    if acts != [] {
      var before := After(messages, acts[..|acts| - 1]);
      LeadingStays(lead, messages, acts[..|acts| - 1]);
      match acts[|acts| - 1]
      case Add(m) => PrefixAppend(lead, before, [m]);
      case Compact(keep, _) =>
        if keep >= 1 {
          CompactedKeepsLeading(lead, before, keep);
        }
    }
  }

  lemma {:induction false} UnbrokenAppend(a: seq<Message>, b: seq<Message>)
    ensures AllUnbroken(a + b) <==> AllUnbroken(a) && AllUnbroken(b)
  {
    if b == [] {
      assert a + b == a;
    } else {
      var front, last := b[..|b| - 1], b[|b| - 1];
      assert (a + b)[..|a + b| - 1] == a + front && (a + b)[|a + b| - 1] == last;
      UnbrokenAppend(a, front);
    }
  }

  lemma CompactedUnbroken(messages: seq<Message>, keep: nat)
    requires keep >= 1 && AllUnbroken(messages)
    ensures AllUnbroken(Compacted(messages, keep)) && Trace(Compacted(messages, keep)) == Trace(messages)
  {
    if Cutting(messages, keep).Some? {
      var p := Cutting(messages, keep).value;
      CuttingIsWell(messages, keep);
      UnbrokenAppend(p.leading + p.older, p.recent);
      UnbrokenAppend(p.leading, p.older);
      CompactedTrace(messages, keep);
      SummarizedUnbroken(p);
    }
  }

  lemma OneUnbroken(m: Message)
    requires Unbroken(m)
    ensures AllUnbroken([m])
  {
    assert [m][..|[m]| - 1] == [];
  }

  lemma SummarizedUnbroken(p: Parts)
    requires AllUnbroken(p.leading) && AllUnbroken(p.recent)
    ensures AllUnbroken(Summarized(p.leading, p.older, p.recent))
  {
    var middle := if Trace(p.older) == [] then [] else [SummaryMessage(Trace(p.older))];
    OneUnbroken(SummaryMessage(Trace(p.older)));
    UnbrokenAppend(p.leading, middle);
    UnbrokenAppend(p.leading + middle, p.recent);
  }

  /**
   * However often a conversation is compacted, every message ever added leaves its bullet, once and in order, as long
   * as tool names and statuses hold no line break.
   */
  lemma {:induction false} NothingForgotten(messages: seq<Message>, acts: seq<Act>)
    requires AllUnbroken(messages) && AllUnbroken(Added(acts))
    ensures AllUnbroken(After(messages, acts))
    ensures Trace(After(messages, acts)) == Trace(messages) + Trace(Added(acts))
  {
    if acts == [] {
      assert Trace(messages) + [] == Trace(messages);
    } else {
      var front := acts[..|acts| - 1];
      var before := After(messages, front);
      match acts[|acts| - 1]
      case Add(m) =>
        UnbrokenAppend(Added(front), [m]);
        NothingForgotten(messages, front);
        UnbrokenAppend(before, [m]);
        TraceAppend(before, [m]);
        TraceAppend(Added(front), [m]);
        Associate(Trace(messages), Trace(Added(front)), Trace([m]));
      case Compact(keep, _) =>
        NothingForgotten(messages, front);
        if keep >= 1 {
          CompactedUnbroken(before, keep);
        }
    }
  }

  /** A tool named over two lines: compacted once, its bullet is cut in two and half of it is lost. */
  lemma {:induction false} BrokenNameForgotten(m: Message, messages: seq<Message>, keep: nat)
    requires keep >= 1 && Cutting(messages, keep).Some? && m in Cutting(messages, keep).value.older
    requires m.role == Tool && m.name == "a\nb"
    ensures Trace(Compacted(messages, keep)) != Trace(messages)
  {
    var older := Cutting(messages, keep).value.older;
    CompactedTrace(messages, keep);
    assert m.name[0] == 'a' && IsBreak(m.name[1]);
    NoBreakIsOneLine(m.name);
    OneBroken(older, m);
  }

  lemma {:induction false} OneBroken(messages: seq<Message>, m: Message)
    requires m in messages && !Unbroken(m)
    ensures !AllUnbroken(messages)
  {
    if messages[|messages| - 1] != m {
      OneBroken(messages[..|messages| - 1], m);
    }
  }

  // ---- no answer without its turn, over whole conversations --------------------------------

  /** Every tool message directly follows a tool message or an assistant's turn. */
  predicate InTurn(messages: seq<Message>) {
    messages == []
    || (InTurn(messages[..|messages| - 1])
        && (messages[|messages| - 1].role == Tool ==> |messages| > 1 && Asked(messages[|messages| - 2])))
  }

  predicate Asked(m: Message) {
    m.role == Assistant || m.role == Tool
  }

  lemma InTurnSnoc(messages: seq<Message>, m: Message)
    ensures InTurn(messages + [m])
      <==> InTurn(messages) && (m.role == Tool ==> messages != [] && Asked(messages[|messages| - 1]))
  {
    assert (messages + [m])[..|messages|] == messages;
  }

  lemma {:induction false} InTurnParts(a: seq<Message>, b: seq<Message>)
    requires b == [] || b[0].role != Tool
    ensures InTurn(a + b) <==> InTurn(a) && InTurn(b)
  {
    if b == [] {
      assert a + b == a;
    } else {
      var front, last := b[..|b| - 1], b[|b| - 1];
      assert a + b == (a + front) + [last] && b == front + [last];
      InTurnSnoc(a + front, last);
      InTurnSnoc(front, last);
      InTurnParts(a, front);
    }
  }

  lemma {:induction false} InTurnPrefix(a: seq<Message>, b: seq<Message>)
    requires InTurn(a + b)
    ensures InTurn(a)
  {
    if b == [] {
      assert a + b == a;
    } else {
      var front, last := b[..|b| - 1], b[|b| - 1];
      assert a + b == (a + front) + [last];
      InTurnSnoc(a + front, last);
      InTurnPrefix(a, front);
    }
  }

  /** Nothing is left, or what is last is of the same role. */
  predicate SameEnd(a: seq<Message>, b: seq<Message>) {
    |a| > 0 && |b| > 0 ==> a[|a| - 1].role == b[|b| - 1].role
  }

  lemma OneInTurn(m: Message)
    requires m.role != Tool
    ensures InTurn([m])
  {
    assert [m][..0] == [];
  }

  lemma CompactedInTurn(messages: seq<Message>, keep: nat)
    requires keep >= 1 && InTurn(messages)
    ensures InTurn(Compacted(messages, keep)) && SameEnd(Compacted(messages, keep), messages)
    ensures |messages| > 0 ==> |Compacted(messages, keep)| > 0
  {
    if Cutting(messages, keep).Some? {
      CuttingIsWell(messages, keep);
      CutInTurn(messages, keep, Cutting(messages, keep).value);
    }
  }

  lemma CutInTurn(messages: seq<Message>, keep: nat, p: Parts)
    requires WellCut(messages, keep, p) && InTurn(messages)
    ensures var after := Summarized(p.leading, p.older, p.recent);
      InTurn(after) && SameEnd(after, messages) && |after| > 0
  {
    InTurnParts(p.leading + p.older, p.recent);
    InTurnPrefix(p.leading, p.older);
    SummarizedInTurn(p);
  }

  lemma SummarizedInTurn(p: Parts)
    requires InTurn(p.leading) && InTurn(p.recent) && p.recent != [] && p.recent[0].role != Tool
    ensures InTurn(Summarized(p.leading, p.older, p.recent))
  {
    var middle := if Trace(p.older) == [] then [] else [SummaryMessage(Trace(p.older))];
    OneInTurn(SummaryMessage(Trace(p.older)));
    InTurnParts(p.leading, middle);
    InTurnParts(p.leading + middle, p.recent);
  }

  lemma AddedInTurn(before: seq<Message>, whole: seq<Message>, m: Message)
    requires InTurn(before) && SameEnd(before, whole) && (|before| > 0 || |whole| == 0)
    requires InTurn(whole + [m])
    ensures InTurn(before + [m]) && SameEnd(before + [m], whole + [m])
  {
    InTurnSnoc(before, m);
    InTurnSnoc(whole, m);
  }

  /**
   * However often a conversation is compacted, no tool's answer is ever without its turn, as long as answers are added
   * only behind the turn they belong to.
   */
  lemma {:induction false} AnswersStayInTurn(messages: seq<Message>, acts: seq<Act>)
    requires InTurn(messages + Added(acts))
    ensures InTurn(After(messages, acts)) && SameEnd(After(messages, acts), messages + Added(acts))
    ensures |messages + Added(acts)| > 0 ==> |After(messages, acts)| > 0
  {
    if acts == [] {
      assert messages + Added(acts) == messages;
    } else {
      var front := acts[..|acts| - 1];
      var before, whole := After(messages, front), messages + Added(front);
      match acts[|acts| - 1]
      case Add(m) =>
        assert messages + Added(acts) == whole + [m];
        InTurnSnoc(whole, m);
        AnswersStayInTurn(messages, front);
        AddedInTurn(before, whole, m);
      case Compact(_, _) =>
        AnswersStayInTurn(messages, front);
        StepInTurn(messages, acts);
    }
  }

  /** A compaction leaves a conversation as it is or compacts it. */
  lemma StepInTurn(messages: seq<Message>, acts: seq<Act>)
    requires acts != [] && acts[|acts| - 1].Compact?
    requires InTurn(After(messages, acts[..|acts| - 1]))
    ensures var before, after := After(messages, acts[..|acts| - 1]), After(messages, acts);
      InTurn(after) && SameEnd(after, before) && (|before| > 0 ==> |after| > 0)
  {
    var before, keep := After(messages, acts[..|acts| - 1]), acts[|acts| - 1].keep;
    if keep >= 1 {
      CompactedInTurn(before, keep);
    }
  }
}
