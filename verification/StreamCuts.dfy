/** What the clients make of a printed stream that is cut off anywhere. */
module StreamCuts {
  import opened Results
  import opened Sequences
  import opened TextLines
  import opened ServerSentEvents

  // ---- the browser -------------------------------------------------------------------------

  lemma {:induction false} ParsePrefix<J>(s: string, n: nat, decode: string -> Option<J>)
    requires n <= |s|
    ensures IsPrefix(BrowserParse(s[..n], decode), BrowserParse(s, decode))
  {
    var a, b := s[..n], s[n..];
    assert a + b == s;
    ChunksAppend(a, b);
    DispatchedAppend(Chunks(a).chunks, Chunks(Chunks(a).rest + b).chunks, decode);
  }

  lemma TextCut<J>(frames: seq<Frame<J>>, n: nat, encode: J -> string, decode: string -> Option<J>)
    requires AllPrintable(frames, encode, decode) && n <= |Stream(frames, encode)|
    ensures IsPrefix(BrowserParse(Stream(frames, encode)[..n], decode), SentEvents(frames))
  {
    StreamRoundTrip(frames, encode, decode);
    ParsePrefix(Stream(frames, encode), n, decode);
  }

  lemma ReadAsWritten(pieces: seq<string>)
    requires '\r' !in Join(pieces)
    ensures JoinNormalized(pieces) == Join(pieces)
  {
    NoPairCut(pieces);
    NormalizeByReads(pieces);
    NormalizeCrFree(Join(pieces));
  }

  /** Wherever the stream is cut off, and however it is read, the browser delivers a prefix of the events sent. */
  lemma {:induction false} BrowserCut<J>(
    pieces: seq<string>, frames: seq<Frame<J>>, n: nat, encode: J -> string, decode: string -> Option<J>)
    requires AllPrintable(frames, encode, decode) && n <= |Stream(frames, encode)|
    requires Join(pieces) == Stream(frames, encode)[..n]
    ensures IsPrefix(BrowserParse(JoinNormalized(pieces), decode), SentEvents(frames))
  {
    StreamText(frames, encode, decode);
    TextCut(frames, n, encode, decode);
    ReadAsWritten(pieces);
  }

  // ---- the Python client -------------------------------------------------------------------

  /** What a text in place of the payload makes of an event. */
  function DecodedAs<J>(frame: Frame<J>, text: string, decode: string -> Option<J>): Outcome<J>
    requires frame.Sent?
  {
    match decode(text)
    case None => Invalid
    case Some(v) => Dispatch(Event(Some(frame.id), frame.name, v))
  }

  /** Where the payload begins in the printed event. */
  function PayloadAt<J>(frame: Frame<J>, encode: J -> string): (at: nat)
    requires frame.Sent?
    ensures at + |encode(frame.data)| == |Body(frame, encode)|
  {
    |FieldText("id", frame.id)| + |FieldText("event", frame.name)| + 8
  }

  /** The part of the payload that the first n characters of the printed event hold. */
  function PayloadCut<J>(frame: Frame<J>, n: nat, encode: J -> string): string
    requires frame.Sent?
  {
    var at, payload := PayloadAt(frame, encode), encode(frame.data);
    if n <= at then "" else if n - at <= |payload| then payload[..n - at] else payload
  }

  /** An event cut off behind its field name `data` is dispatched with the payload there is. */
  function Ending<J>(frame: Frame<J>, n: nat, encode: J -> string, decode: string -> Option<J>): Outcome<J> {
    if frame.Heartbeat? || n + 2 < PayloadAt(frame, encode) then Nothing
    else DecodedAs(frame, PayloadCut(frame, n, encode), decode)
  }

  function Whole<J>(frame: Frame<J>): Outcome<J> {
    if frame.Sent? then Dispatch(Event(Some(frame.id), frame.name, frame.data)) else Nothing
  }

  /** What is parsed from the first n characters of the stream. */
  function AtCut<J>(frames: seq<Frame<J>>, n: nat, encode: J -> string, decode: string -> Option<J>): Parsed<J> {
    if frames == [] then Parsed([], false)
    else
      var size := |Body(frames[0], encode)|;
      if n < size + 2 then Replay([Ending(frames[0], n, encode, decode)])
      else AtCut(frames[1..], n - size - 2, encode, decode).Before(Whole(frames[0]))
  }

  /** What the Python client makes of the first n characters of the stream. */
  function AfterCut<J>(frames: seq<Frame<J>>, n: nat, encode: J -> string, decode: string -> Option<J>): Parsed<J>
    requires n <= |Stream(frames, encode)|
  {
    PythonParse(StreamLines(Stream(frames, encode)[..n]), FRESH, decode)
  }

  function EventsOf<J>(o: Outcome<J>): seq<Event<J>> {
    if o.Dispatch? then [o.event] else []
  }

  // ---- any text of chunks, cut off ---------------------------------------------------------

  function Text(bodies: seq<string>): string {
    if bodies == [] then "" else bodies[0] + "\n\n" + Text(bodies[1..])
  }

  /** The chunk cut through is parsed as far as it is there. */
  function TextAtCut<J>(bodies: seq<string>, n: nat, decode: string -> Option<J>): Parsed<J> {
    if bodies == [] then Parsed([], false)
    else if n < |bodies[0]| + 2 then Replay([PythonChunk((bodies[0] + "\n")[..n], decode)])
    else TextAtCut(bodies[1..], n - |bodies[0]| - 2, decode).Before(PythonChunk(bodies[0], decode))
  }

  /** What a whole text of chunks dispatches. */
  function TextEvents<J>(bodies: seq<string>, decode: string -> Option<J>): seq<Event<J>> {
    if bodies == [] then [] else EventsOf(PythonChunk(bodies[0], decode)) + TextEvents(bodies[1..], decode)
  }

  ghost predicate AllSolid(bodies: seq<string>) {
    bodies == [] || (Solid(bodies[0]) && AllSolid(bodies[1..]))
  }

  /** A text that begins with a chunk: the parser makes of it what it makes of the chunk and of the text behind. */
  lemma PythonHead<J>(body: string, tail: string, decode: string -> Option<J>)
    requires Solid(body)
    ensures PythonParse(StreamLines(body + "\n\n" + tail), FRESH, decode)
         == PythonParse(StreamLines(tail), FRESH, decode).Before(PythonChunk(body, decode))
  {
    SolidChunk(body, tail);
    PythonByChunks(body + "\n\n" + tail, decode);
    PythonByChunks(tail, decode);
    PythonAfter(body, Chunks(tail), decode);
  }

  lemma PythonInside<J>(body: string, n: nat, decode: string -> Option<J>)
    requires Solid(body) && n <= |body| + 1
    ensures PythonParse(StreamLines((body + "\n")[..n]), FRESH, decode)
         == Replay([PythonChunk((body + "\n")[..n], decode)])
  {
    var s := (body + "\n")[..n];
    forall j: nat ensures !Blank(s, j) {
      assert !Blank(body, j);
    }
    PythonStreamLines(s, decode);
    PythonOverRest(s, decode);
  }

  lemma PythonNothing<J>(decode: string -> Option<J>)
    ensures PythonParse(StreamLines(""), FRESH, decode) == Parsed([], false)
  {
    PythonByChunks("", decode);
    LinesOfOne("");
    GatherSome("", "", "");
  }

  lemma TextHead(bodies: seq<string>, n: nat)
    requires bodies != [] && n <= |Text(bodies)|
    ensures var body, tail := bodies[0], Text(bodies[1..]);
      Text(bodies)[..n] == if n < |body| + 2 then (body + "\n")[..n] else body + "\n\n" + tail[..n - |body| - 2]
  {
  }

  /** What the parser makes of the first n characters of the text. */
  function Parse<J>(bodies: seq<string>, n: nat, decode: string -> Option<J>): Parsed<J>
    requires n <= |Text(bodies)|
  {
    PythonParse(StreamLines(Text(bodies)[..n]), FRESH, decode)
  }

  lemma TextCutLater<J>(bodies: seq<string>, n: nat, decode: string -> Option<J>)
    requires bodies != [] && Solid(bodies[0]) && |bodies[0]| + 2 <= n <= |Text(bodies)|
    ensures Parse(bodies, n, decode)
         == Parse(bodies[1..], n - |bodies[0]| - 2, decode).Before(PythonChunk(bodies[0], decode))
  {
    TextHead(bodies, n);
    PythonHead(bodies[0], Text(bodies[1..])[..n - |bodies[0]| - 2], decode);
  }

  lemma {:induction false} TextCutOff<J>(bodies: seq<string>, n: nat, decode: string -> Option<J>)
    requires AllSolid(bodies) && n <= |Text(bodies)|
    ensures Parse(bodies, n, decode) == TextAtCut(bodies, n, decode)
    decreases |bodies|
  {
    if bodies == [] {
      PythonNothing(decode);
    } else if n < |bodies[0]| + 2 {
      TextHead(bodies, n);
      PythonInside(bodies[0], n, decode);
    } else {
      TextCutLater(bodies, n, decode);
      TextCutOff(bodies[1..], n - |bodies[0]| - 2, decode);
    }
  }

  lemma BeforeAdds<J>(p: Parsed<J>, o: Outcome<J>)
    requires !o.Invalid?
    ensures p.Before(o) == Parsed(EventsOf(o) + p.events, p.failed)
  {
  }

  lemma ReplayOne<J>(o: Outcome<J>)
    ensures Replay([o]) == Parsed(EventsOf(o), o.Invalid?)
  {
    assert [o][1..] == [];
    assert Replay([o]) == Replay<J>([]).Before(o);
    if o.Dispatch? {
      assert [o.event] + [] == [o.event];
    }
  }

  // ---- one printed event, cut off ----------------------------------------------------------

  /** A line cut off in its field name has that part of a name and no value, otherwise that part of the value. */
  lemma FieldCut(f: Fields, name: string, value: string, m: nat)
    requires name != "" && ':' !in name && m <= |FieldText(name, value)|
    ensures PythonLine(f, FieldText(name, value)[..m])
         == if m == 0 then f
            else if m < |name| then Assign(f, name[..m], "")
            else Assign(f, name, if m <= |name| + 2 then "" else value[..m - |name| - 2])
  {
    var text := FieldText(name, value);
    var line := text[..m];
    assert forall j :: 0 <= j < |name| ==> text[j] == name[j];
    assert text[|name|] == ':' && text[|name| + 1] == ' ';
    if m <= |name| {
      assert line == name[..m];
      assert IndexOfChar(line, ':') == |line|;
      assert line[..|line|] == line;
    } else {
      assert line[|name|] == ':';
      assert IndexOfChar(line, ':') == |name|;
      assert line[..|name|] == name;
      if m > |name| + 2 {
        assert line[|name| + 2..] == value[..m - |name| - 2];
      }
    }
  }

  lemma PartOfName(f: Fields, name: string, m: nat)
    requires name == "id" || name == "event" || name == "data"
    requires m < |name|
    ensures Assign(f, name[..m], "") == f
  {
    assert |name[..m]| == m;
    if m > 0 {
      assert name[..m][0] == name[0];
    }
  }

  lemma IdCut(f: Fields, value: string, m: nat)
    requires m <= |FieldText("id", value)|
    ensures PythonLine(f, FieldText("id", value)[..m]).data == f.data
    ensures m == |FieldText("id", value)| ==> PythonLine(f, FieldText("id", value)[..m]) == f.(id := Some(value))
  {
    FieldCut(f, "id", value, m);
    assert value[..|value|] == value;
    if 0 < m < 2 {
      PartOfName(f, "id", m);
    }
  }

  lemma EventCut(f: Fields, value: string, m: nat)
    requires m <= |FieldText("event", value)|
    ensures PythonLine(f, FieldText("event", value)[..m]).data == f.data
    ensures m == |FieldText("event", value)| ==> PythonLine(f, FieldText("event", value)[..m]) == f.(name := value)
  {
    FieldCut(f, "event", value, m);
    assert value[..|value|] == value;
    if 0 < m < 5 {
      PartOfName(f, "event", m);
    }
  }

  lemma DataCut(f: Fields, value: string, m: nat)
    requires m <= |FieldText("data", value)| && f.data == []
    ensures PythonLine(f, FieldText("data", value)[..m])
         == if m < 4 then f else f.(data := [if m <= 6 then "" else value[..m - 6]])
  {
    FieldCut(f, "data", value, m);
    if 0 < m < 4 {
      PartOfName(f, "data", m);
    }
  }

  function Three(a: string, b: string, c: string): string {
    a + "\n" + b + "\n" + c
  }

  /** The lines of the first n characters of three lines. */
  function CutLines(a: string, b: string, c: string, n: nat): seq<string>
    requires n <= |a| + |b| + |c| + 2
  {
    if n <= |a| then [a[..n]]
    else if n <= |a| + 1 + |b| then [a, b[..n - |a| - 1]]
    else [a, b, c[..n - |a| - |b| - 2]]
  }

  lemma CutThree(a: string, b: string, c: string, n: nat)
    requires '\n' !in a && '\n' !in b && '\n' !in c && n <= |a| + |b| + |c| + 2
    ensures Lines(Three(a, b, c)[..n]) == CutLines(a, b, c, n)
  {
    var s := Three(a, b, c);
    if n <= |a| {
      assert s[..n] == a[..n];
      LinesOfOne(a[..n]);
    } else if n <= |a| + 1 + |b| {
      var cut := b[..n - |a| - 1];
      assert s[..n] == a + "\n" + cut;
      LinesStep(a, cut);
      LinesOfOne(cut);
    } else {
      var cut := c[..n - |a| - |b| - 2];
      assert s[..n] == a + "\n" + b + "\n" + cut;
      ThreeLines(a, b, cut);
    }
  }

  lemma GatherSome(a: string, b: string, c: string)
    ensures PythonLines(FRESH, [a]) == PythonLine(FRESH, a)
    ensures PythonLines(FRESH, [a, b]) == PythonLine(PythonLine(FRESH, a), b)
    ensures PythonLines(FRESH, [a, b, c]) == PythonLine(PythonLine(PythonLine(FRESH, a), b), c)
  {
    assert [a][1..] == [];
    PythonSnoc(FRESH, [a], b);
    assert [a] + [b] == [a, b];
    PythonSnoc(FRESH, [a, b], c);
    assert [a, b] + [c] == [a, b, c];
  }

  lemma WholeId(value: string)
    ensures PythonLine(FRESH, FieldText("id", value)) == Fields(Some(value), "message", [])
  {
    var text := FieldText("id", value);
    IdCut(FRESH, value, |text|);
    assert text[..|text|] == text;
  }

  lemma WholeEvent(id: string, value: string)
    ensures PythonLine(Fields(Some(id), "message", []), FieldText("event", value)) == Fields(Some(id), value, [])
  {
    var text := FieldText("event", value);
    EventCut(Fields(Some(id), "message", []), value, |text|);
    assert text[..|text|] == text;
  }

  /** The fields gathered from the lines of a printed event of which n characters are there. */
  ghost predicate GatheredAt(id: string, name: string, data: string, n: nat, f: Fields) {
    var at := |FieldText("id", id)| + |FieldText("event", name)| + 8;
    if n + 2 < at then f.data == []
    else n - at <= |data| && f == Fields(Some(id), name, [if n <= at then "" else data[..n - at]])
  }

  lemma GatheredInId(id: string, name: string, data: string, n: nat)
    requires n <= |FieldText("id", id)|
    ensures GatheredAt(id, name, data, n, PythonLines(FRESH, [FieldText("id", id)[..n]]))
  {
    GatherSome(FieldText("id", id)[..n], "", "");
    IdCut(FRESH, id, n);
  }

  lemma GatheredInEvent(id: string, name: string, data: string, m: nat)
    requires m <= |FieldText("event", name)|
    ensures GatheredAt(id, name, data, |FieldText("id", id)| + 1 + m,
                       PythonLines(FRESH, [FieldText("id", id), FieldText("event", name)[..m]]))
  {
    GatherSome(FieldText("id", id), FieldText("event", name)[..m], "");
    WholeId(id);
    EventCut(Fields(Some(id), "message", []), name, m);
  }

  lemma GatheredInData(id: string, name: string, data: string, m: nat)
    requires m <= |FieldText("data", data)|
    ensures var a, b, c := FieldText("id", id), FieldText("event", name), FieldText("data", data)[..m];
      GatheredAt(id, name, data, |a| + |b| + 2 + m, PythonLines(FRESH, [a, b, c]))
  {
    GatherSome(FieldText("id", id), FieldText("event", name), FieldText("data", data)[..m]);
    WholeId(id);
    WholeEvent(id, name);
    DataCut(Fields(Some(id), name, []), data, m);
  }

  lemma GatheredIs(id: string, name: string, data: string, n: nat)
    requires n <= |FieldText("id", id)| + |FieldText("event", name)| + |FieldText("data", data)| + 2
    ensures GatheredAt(id, name, data, n, PythonLines(
      FRESH, CutLines(FieldText("id", id), FieldText("event", name), FieldText("data", data), n)))
  {
    var a, b := |FieldText("id", id)|, |FieldText("event", name)|;
    if n <= a {
      GatheredInId(id, name, data, n);
    } else if n <= a + 1 + b {
      GatheredInEvent(id, name, data, n - a - 1);
    } else {
      GatheredInData(id, name, data, n - a - b - 2);
    }
  }

  lemma PrintedLines(id: string, name: string, data: string, n: nat)
    requires OneLine(id) && OneLine(name) && OneLine(data)
    requires n <= |FieldText("id", id)| + |FieldText("event", name)| + |FieldText("data", data)| + 2
    ensures Lines(Three(FieldText("id", id), FieldText("event", name), FieldText("data", data))[..n])
         == CutLines(FieldText("id", id), FieldText("event", name), FieldText("data", data), n)
  {
    FieldOneLine("id", id);
    FieldOneLine("event", name);
    FieldOneLine("data", data);
    CutThree(FieldText("id", id), FieldText("event", name), FieldText("data", data), n);
  }

  lemma CutComment<J>(n: nat, decode: string -> Option<J>)
    requires n <= |": heartbeat"|
    ensures PythonChunk(": heartbeat"[..n], decode) == Nothing
  {
    var line := ": heartbeat"[..n];
    LinesOfOne(line);
    assert n > 0 ==> line[0] == ':';
    GatherSome(line, "", "");
  }

  lemma FinishCut<J>(frame: Frame<J>, n: nat, f: Fields, encode: J -> string, decode: string -> Option<J>)
    requires frame.Sent? && GatheredAt(frame.id, frame.name, encode(frame.data), n, f)
    ensures Finish(f, decode) == Ending(frame, n, encode, decode)
  {
    var data := encode(frame.data);
    assert data[..|data|] == data;
  }

  lemma SizeOfSent<J>(frame: Frame<J>, encode: J -> string)
    requires frame.Sent?
    ensures var a, b := FieldText("id", frame.id), FieldText("event", frame.name);
      var c := FieldText("data", encode(frame.data));
      Body(frame, encode) == Three(a, b, c) && |Body(frame, encode)| == |a| + |b| + |c| + 2
  {
  }

  lemma CutSent<J>(frame: Frame<J>, n: nat, encode: J -> string, decode: string -> Option<J>)
    requires frame.Sent? && Printable(frame, encode, decode) && n <= |Body(frame, encode)|
    ensures PythonChunk(Body(frame, encode)[..n], decode) == Ending(frame, n, encode, decode)
  {
    SizeOfSent(frame, encode);
    PrintedLines(frame.id, frame.name, encode(frame.data), n);
    GatheredIs(frame.id, frame.name, encode(frame.data), n);
    FinishCut(frame, n, PythonLines(FRESH, Lines(Body(frame, encode)[..n])), encode, decode);
  }

  lemma CutInside<J>(frame: Frame<J>, n: nat, encode: J -> string, decode: string -> Option<J>)
    requires Printable(frame, encode, decode) && n <= |Body(frame, encode)|
    ensures PythonChunk(Body(frame, encode)[..n], decode) == Ending(frame, n, encode, decode)
  {
    if frame.Sent? {
      CutSent(frame, n, encode, decode);
    } else {
      CutComment(n, decode);
    }
  }

  lemma LastLineFeed<J>(body: string, decode: string -> Option<J>)
    ensures PythonChunk(body + "\n", decode) == PythonChunk(body, decode)
  {
    assert body + "\n" == body + "\n" + "";
    LinesOfJoin(body, "");
    LinesOfOne("");
    PythonSnoc(FRESH, Lines(body), "");
  }

  lemma EndingLast<J>(frame: Frame<J>, encode: J -> string, decode: string -> Option<J>)
    ensures var size := |Body(frame, encode)|;
      Ending(frame, size + 1, encode, decode) == Ending(frame, size, encode, decode)
  {
    if frame.Sent? {
      assert encode(frame.data)[..|encode(frame.data)|] == encode(frame.data);
    }
  }

  /** A printed event cut off, its last line feed included or not. */
  lemma EndingIs<J>(frame: Frame<J>, n: nat, encode: J -> string, decode: string -> Option<J>)
    requires Printable(frame, encode, decode) && n <= |Body(frame, encode)| + 1
    ensures PythonChunk((Body(frame, encode) + "\n")[..n], decode) == Ending(frame, n, encode, decode)
  {
    var body := Body(frame, encode);
    if n <= |body| {
      CutInside(frame, n, encode, decode);
      assert (body + "\n")[..n] == body[..n];
    } else {
      CutInside(frame, |body|, encode, decode);
      EndingLast(frame, encode, decode);
      LastLineFeed(body, decode);
      assert body[..|body|] == body && (body + "\n")[..n] == body + "\n";
    }
  }

  lemma WholeBody<J>(frame: Frame<J>, encode: J -> string, decode: string -> Option<J>)
    requires Printable(frame, encode, decode)
    ensures PythonChunk(Body(frame, encode), decode) == Whole(frame)
  {
    BodyOutcome(frame, encode, decode);
    BodyText(frame, encode, decode);
    NoBareIsAlike(Lines(Body(frame, encode)), decode);
    ChunkAlikeIff(Body(frame, encode), decode);
  }

  function Bodies<J>(frames: seq<Frame<J>>, encode: J -> string): seq<string> {
    if frames == [] then [] else [Body(frames[0], encode)] + Bodies(frames[1..], encode)
  }

  lemma FirstAndRest<J>(frames: seq<Frame<J>>, encode: J -> string, decode: string -> Option<J>)
    requires frames != [] && AllPrintable(frames, encode, decode)
    ensures Printable(frames[0], encode, decode) && AllPrintable(frames[1..], encode, decode)
    ensures Bodies(frames, encode)[0] == Body(frames[0], encode)
    ensures Bodies(frames, encode)[1..] == Bodies(frames[1..], encode)
  {
  }

  lemma {:induction false} BodiesAre<J>(frames: seq<Frame<J>>, encode: J -> string, decode: string -> Option<J>)
    requires AllPrintable(frames, encode, decode)
    ensures Text(Bodies(frames, encode)) == Stream(frames, encode) && AllSolid(Bodies(frames, encode))
  {
    if frames != [] {
      FirstAndRest(frames, encode, decode);
      BodyOutcome(frames[0], encode, decode);
      BodiesAre(frames[1..], encode, decode);
    }
  }

  // ---- when a cut does harm ----------------------------------------------------------------

  /** A part of the chunk dispatches what the whole chunk does, or nothing. */
  ghost predicate HarmlessAt<J>(body: string, n: nat, decode: string -> Option<J>)
    requires n < |body| + 2
  {
    var o := PythonChunk((body + "\n")[..n], decode);
    o.Dispatch? ==> o == PythonChunk(body, decode)
  }

  ghost predicate Harmless<J>(body: string, decode: string -> Option<J>) {
    forall n: nat :: n < |body| + 2 ==> HarmlessAt(body, n, decode)
  }

  /** The chunk is an event, or neither it nor any part of it dispatches anything. */
  ghost predicate Regular<J>(body: string, decode: string -> Option<J>) {
    PythonChunk(body, decode).Dispatch? || (PythonChunk(body, decode).Nothing? && Harmless(body, decode))
  }

  ghost predicate PrefixAtCut<J>(bodies: seq<string>, n: nat, decode: string -> Option<J>) {
    IsPrefix(TextAtCut(bodies, n, decode).events, TextEvents(bodies, decode))
  }

  lemma BothWithHead<T>(head: seq<T>, a: seq<T>, b: seq<T>)
    ensures IsPrefix(head + a, head + b) <==> IsPrefix(a, b)
  {
    assert IsPrefix(a, b) ==> (head + b)[..|head| + |a|] == head + a;
    assert IsPrefix(head + a, head + b) ==> (head + b)[..|head| + |a|][|head|..] == b[..|a|];
  }

  lemma PrefixBehind<J>(bodies: seq<string>, n: nat, decode: string -> Option<J>)
    requires bodies != [] && n >= |bodies[0]| + 2 && Regular(bodies[0], decode)
    ensures PrefixAtCut(bodies, n, decode) <==> PrefixAtCut(bodies[1..], n - |bodies[0]| - 2, decode)
  {
    var rest := TextAtCut(bodies[1..], n - |bodies[0]| - 2, decode);
    var o := PythonChunk(bodies[0], decode);
    BeforeAdds(rest, o);
    BothWithHead(EventsOf(o), rest.events, TextEvents(bodies[1..], decode));
  }

  lemma PrefixInside<J>(bodies: seq<string>, n: nat, decode: string -> Option<J>)
    requires bodies != [] && n < |bodies[0]| + 2 && Regular(bodies[0], decode)
    ensures PrefixAtCut(bodies, n, decode) <==> HarmlessAt(bodies[0], n, decode)
  {
    var o := PythonChunk((bodies[0] + "\n")[..n], decode);
    ReplayOne(o);
    if o.Dispatch? {
      assert HarmlessAt(bodies[0], n, decode) ==> PythonChunk(bodies[0], decode).Dispatch?;
      assert PythonChunk(bodies[0], decode).Dispatch?;
      assert IsPrefix([o.event], TextEvents(bodies, decode)) <==> o.event == TextEvents(bodies, decode)[0];
    }
  }

  ghost predicate AllRegular<J>(bodies: seq<string>, decode: string -> Option<J>) {
    bodies == [] || (Regular(bodies[0], decode) && AllRegular(bodies[1..], decode))
  }

  ghost predicate AllHarmless<J>(bodies: seq<string>, decode: string -> Option<J>) {
    bodies == [] || (Harmless(bodies[0], decode) && AllHarmless(bodies[1..], decode))
  }

  lemma {:induction false} HarmlessCut<J>(bodies: seq<string>, n: nat, decode: string -> Option<J>)
    requires AllRegular(bodies, decode) && AllHarmless(bodies, decode)
    ensures PrefixAtCut(bodies, n, decode)
    decreases |bodies|
  {
    if bodies != [] {
      if n < |bodies[0]| + 2 {
        assert HarmlessAt(bodies[0], n, decode);
        PrefixInside(bodies, n, decode);
      } else {
        HarmlessCut(bodies[1..], n - |bodies[0]| - 2, decode);
        PrefixBehind(bodies, n, decode);
      }
    }
  }

  lemma {:induction false} HarmfulCut<J>(bodies: seq<string>, decode: string -> Option<J>) returns (n: nat)
    requires AllRegular(bodies, decode) && !AllHarmless(bodies, decode)
    ensures n <= |Text(bodies)| && !PrefixAtCut(bodies, n, decode)
    decreases |bodies|
  {
    if !Harmless(bodies[0], decode) {
      n :| n < |bodies[0]| + 2 && !HarmlessAt(bodies[0], n, decode);
      PrefixInside(bodies, n, decode);
    } else {
      n := HarmfulCut(bodies[1..], decode);
      n := n + |bodies[0]| + 2;
      PrefixBehind(bodies, n, decode);
    }
  }

  /** No part of the payload decodes to something else. */
  ghost predicate CutsClean<J>(frame: Frame<J>, encode: J -> string, decode: string -> Option<J>) {
    frame.Sent? ==>
      forall j: nat :: j <= |encode(frame.data)| ==> Cleanly(frame, encode(frame.data)[..j], decode)
  }

  ghost predicate Cleanly<J>(frame: Frame<J>, text: string, decode: string -> Option<J>)
    requires frame.Sent?
  {
    decode(text) == None || decode(text) == Some(frame.data)
  }

  lemma HarmlessIff<J>(frame: Frame<J>, n: nat, encode: J -> string, decode: string -> Option<J>)
    requires Printable(frame, encode, decode) && n < |Body(frame, encode)| + 2
    ensures HarmlessAt(Body(frame, encode), n, decode)
      <==> frame.Heartbeat? || n + 2 < PayloadAt(frame, encode) || Cleanly(frame, PayloadCut(frame, n, encode), decode)
  {
    EndingIs(frame, n, encode, decode);
    WholeBody(frame, encode, decode);
  }

  lemma CutsCleanIff<J>(frame: Frame<J>, encode: J -> string, decode: string -> Option<J>)
    requires Printable(frame, encode, decode)
    ensures Harmless(Body(frame, encode), decode) <==> CutsClean(frame, encode, decode)
  {
    var body := Body(frame, encode);
    if CutsClean(frame, encode, decode) {
      forall n: nat | n < |body| + 2 ensures HarmlessAt(body, n, decode) {
        HarmlessIff(frame, n, encode, decode);
        if frame.Sent? {
          PartIsClean(frame, n, encode, decode);
        }
      }
    }
    if Harmless(body, decode) && frame.Sent? {
      forall j: nat | j <= |encode(frame.data)| ensures Cleanly(frame, encode(frame.data)[..j], decode) {
        var n := PayloadAt(frame, encode) + j;
        assert HarmlessAt(body, n, decode);
        HarmlessIff(frame, n, encode, decode);
        assert PayloadCut(frame, n, encode) == encode(frame.data)[..j];
      }
    }
  }

  lemma PartIsClean<J>(frame: Frame<J>, n: nat, encode: J -> string, decode: string -> Option<J>)
    requires frame.Sent? && CutsClean(frame, encode, decode)
    ensures Cleanly(frame, PayloadCut(frame, n, encode), decode)
  {
    var payload := encode(frame.data);
    assert payload[..0] == "" && payload[..|payload|] == payload;
    assert Cleanly(frame, payload[..0], decode) && Cleanly(frame, payload[..|payload|], decode);
  }

  lemma PrintedIsRegular<J>(frame: Frame<J>, encode: J -> string, decode: string -> Option<J>)
    requires Printable(frame, encode, decode)
    ensures Regular(Body(frame, encode), decode)
  {
    WholeBody(frame, encode, decode);
    if frame.Heartbeat? {
      CutsCleanIff(frame, encode, decode);
    }
  }

  lemma {:induction false} BodiesSend<J>(frames: seq<Frame<J>>, encode: J -> string, decode: string -> Option<J>)
    requires AllPrintable(frames, encode, decode)
    ensures TextEvents(Bodies(frames, encode), decode) == SentEvents(frames)
  {
    if frames != [] {
      FirstAndRest(frames, encode, decode);
      BodiesSend(frames[1..], encode, decode);
      WholeBody(frames[0], encode, decode);
    }
  }

  lemma {:induction false} BodiesRegular<J>(frames: seq<Frame<J>>, encode: J -> string, decode: string -> Option<J>)
    requires AllPrintable(frames, encode, decode)
    ensures AllRegular(Bodies(frames, encode), decode)
    ensures AllHarmless(Bodies(frames, encode), decode) <==> forall f :: f in frames ==> CutsClean(f, encode, decode)
  {
    if frames != [] {
      FirstAndRest(frames, encode, decode);
      BodiesRegular(frames[1..], encode, decode);
      PrintedIsRegular(frames[0], encode, decode);
      CutsCleanIff(frames[0], encode, decode);
      assert frames == [frames[0]] + frames[1..];
    }
  }

  lemma CutHere<J>(frames: seq<Frame<J>>, n: nat, encode: J -> string, decode: string -> Option<J>)
    requires frames != [] && Printable(frames[0], encode, decode) && n < |Body(frames[0], encode)| + 2
    ensures TextAtCut(Bodies(frames, encode), n, decode) == Replay([Ending(frames[0], n, encode, decode)])
  {
    EndingIs(frames[0], n, encode, decode);
  }

  lemma CutLater<J>(frames: seq<Frame<J>>, n: nat, encode: J -> string, decode: string -> Option<J>)
    requires frames != [] && Printable(frames[0], encode, decode)
    ensures TextAtCut(Bodies(frames, encode), n + |Body(frames[0], encode)| + 2, decode)
         == TextAtCut(Bodies(frames[1..], encode), n, decode).Before(Whole(frames[0]))
  {
    WholeBody(frames[0], encode, decode);
    assert Bodies(frames, encode)[1..] == Bodies(frames[1..], encode);
  }

  lemma {:induction false} CutBodies<J>(
    frames: seq<Frame<J>>, n: nat, encode: J -> string, decode: string -> Option<J>)
    requires AllPrintable(frames, encode, decode)
    ensures TextAtCut(Bodies(frames, encode), n, decode) == AtCut(frames, n, encode, decode)
    decreases |frames|
  {
    if frames != [] {
      FirstAndRest(frames, encode, decode);
      if n < |Body(frames[0], encode)| + 2 {
        CutHere(frames, n, encode, decode);
      } else {
        var m := n - |Body(frames[0], encode)| - 2;
        CutLater(frames, m, encode, decode);
        CutBodies(frames[1..], m, encode, decode);
      }
    }
  }

  /**
   * Wherever the stream is cut off, the Python client has the events sent before the cut, and of the event cut through
   * nothing if the cut comes before its data, otherwise an event with the part of its payload there is, or an error.
   */
  lemma {:induction false} PythonCut<J>(frames: seq<Frame<J>>, n: nat, encode: J -> string, decode: string -> Option<J>)
    requires AllPrintable(frames, encode, decode) && n <= |Stream(frames, encode)|
    ensures AfterCut(frames, n, encode, decode) == AtCut(frames, n, encode, decode)
  {
    BodiesAre(frames, encode, decode);
    TextCutOff(Bodies(frames, encode), n, decode);
    CutBodies(frames, n, encode, decode);
  }

  lemma TextCutIff<J>(bodies: seq<string>, decode: string -> Option<J>)
    requires AllRegular(bodies, decode)
    ensures (forall n: nat :: n <= |Text(bodies)| ==> PrefixAtCut(bodies, n, decode)) <==> AllHarmless(bodies, decode)
  {
    if AllHarmless(bodies, decode) {
      forall n: nat ensures PrefixAtCut(bodies, n, decode) {
        HarmlessCut(bodies, n, decode);
      }
    } else {
      var n := HarmfulCut(bodies, decode);
    }
  }

  /**
   * Wherever the stream is cut off, the Python client has a prefix of the events sent, if and only if no part of a
   * payload decodes to something other than that payload. No part of an object's text does; one of a number's does.
   */
  lemma {:induction false} PythonCutIff<J>(frames: seq<Frame<J>>, encode: J -> string, decode: string -> Option<J>)
    requires AllPrintable(frames, encode, decode)
    ensures (forall n: nat :: n <= |Stream(frames, encode)| ==>
               IsPrefix(AfterCut(frames, n, encode, decode).events, SentEvents(frames)))
      <==> forall f :: f in frames ==> CutsClean(f, encode, decode)
  {
    var bodies := Bodies(frames, encode);
    BodiesAre(frames, encode, decode);
    BodiesSend(frames, encode, decode);
    BodiesRegular(frames, encode, decode);
    TextCutIff(bodies, decode);
    forall n: nat | n <= |Stream(frames, encode)|
      ensures PrefixAtCut(bodies, n, decode)
        <==> IsPrefix(AfterCut(frames, n, encode, decode).events, SentEvents(frames))
    {
      TextCutOff(bodies, n, decode);
    }
  }
}
