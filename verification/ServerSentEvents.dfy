/** Server-sent events as the API prints them and as the Python and the browser client parse them. */
module ServerSentEvents {
  import opened Results
  import opened Sequences
  import opened TextLines

  datatype Event<J> = Event(id: Option<string>, name: string, data: J)

  /** The fields of the event being assembled. */
  datatype Fields = Fields(id: Option<string>, name: string, data: seq<string>)

  const FRESH := Fields(None, "message", [])

  function JoinLines(lines: seq<string>): string {
    if lines == [] then "" else if |lines| == 1 then lines[0] else lines[0] + "\n" + JoinLines(lines[1..])
  }

  function FieldName(line: string): string {
    line[..IndexOfChar(line, ':')]
  }

  /** What follows the first colon, less one leading space. */
  function FieldValue(line: string): string {
    var i := IndexOfChar(line, ':');
    if i == |line| then "" else if i + 1 < |line| && line[i + 1] == ' ' then line[i + 2..] else line[i + 1..]
  }

  function Assign(f: Fields, name: string, value: string): Fields {
    if name == "id" then f.(id := Some(value))
    else if name == "event" then f.(name := value)
    else if name == "data" then f.(data := f.data + [value])
    else f
  }

  /** The Python parser takes a line without a colon as a field name with an empty value. */
  function PythonLine(f: Fields, line: string): Fields {
    if line == "" || line[0] == ':' then f else Assign(f, FieldName(line), FieldValue(line))
  }

  /** The browser parser skips a line without a colon. */
  function BrowserLine(f: Fields, line: string): Fields {
    if line == "" || line[0] == ':' || IndexOfChar(line, ':') == |line| then f
    else Assign(f, FieldName(line), FieldValue(line))
  }

  function BrowserLines(f: Fields, lines: seq<string>): Fields
    decreases lines
  {
    if lines == [] then f else BrowserLines(BrowserLine(f, lines[0]), lines[1..])
  }

  datatype Outcome<J> = Nothing | Dispatch(event: Event<J>) | Invalid

  /** An event without data is dropped; data that is no JSON is an error. */
  function Finish<J>(f: Fields, decode: string -> Option<J>): Outcome<J> {
    if f.data == [] then Nothing
    else match decode(JoinLines(f.data))
      case None => Invalid
      case Some(j) => Dispatch(Event(f.id, f.name, j))
  }

  /** The events delivered so far and whether the parser has raised. */
  datatype Parsed<J> = Parsed(events: seq<Event<J>>, failed: bool) {
    function Before(o: Outcome<J>): Parsed<J> {
      match o
      case Nothing => this
      case Dispatch(e) => Parsed([e] + events, failed)
      case Invalid => Parsed([], true)
    }

    function Prepend(earlier: seq<Event<J>>): Parsed<J> {
      Parsed(earlier + events, failed)
    }
  }

  /** The Python parser over lines: a blank line ends an event, and so does the end of the stream. */
  function PythonParse<J>(lines: seq<string>, f: Fields, decode: string -> Option<J>): Parsed<J> {
    if lines == [] then Parsed([], false).Before(Finish(f, decode))
    else if lines[0] == "" then PythonParse(lines[1..], FRESH, decode).Before(Finish(f, decode))
    else PythonParse(lines[1..], PythonLine(f, lines[0]), decode)
  }

  /** The lines an HTTP client hands over: no empty line after a final newline. */
  function StreamLines(s: string): seq<string> {
    var lines := Lines(s);
    if lines[|lines| - 1] == "" then lines[..|lines| - 1] else lines
  }

  function ChunkOutcome<J>(chunk: string, decode: string -> Option<J>): Outcome<J> {
    Finish(BrowserLines(FRESH, Lines(chunk)), decode)
  }

  function Outcomes<J>(chunks: seq<string>, decode: string -> Option<J>): (out: seq<Outcome<J>>)
    ensures |out| == |chunks|
  {
    if chunks == [] then [] else [ChunkOutcome(chunks[0], decode)] + Outcomes(chunks[1..], decode)
  }

  /** Outcomes in order up to the first error. */
  function Replay<J>(outcomes: seq<Outcome<J>>): Parsed<J> {
    if outcomes == [] then Parsed([], false) else Replay(outcomes[1..]).Before(outcomes[0])
  }

  /** Outcomes in order, errors skipped. */
  function Dispatched<J>(outcomes: seq<Outcome<J>>): seq<Event<J>> {
    if outcomes == [] then []
    else (if outcomes[0].Dispatch? then [outcomes[0].event] else []) + Dispatched(outcomes[1..])
  }

  function Delivers<J>(chunk: string, decode: string -> Option<J>): seq<Event<J>> {
    match ChunkOutcome(chunk, decode)
    case Dispatch(e) => [e]
    case _ => []
  }

  function PythonLines(f: Fields, lines: seq<string>): Fields
    decreases lines
  {
    if lines == [] then f else PythonLines(PythonLine(f, lines[0]), lines[1..])
  }

  /** What the Python parser makes of the lines up to a blank one. */
  function PythonChunk<J>(chunk: string, decode: string -> Option<J>): Outcome<J> {
    Finish(PythonLines(FRESH, Lines(chunk)), decode)
  }

  function PythonOutcomes<J>(chunks: seq<string>, decode: string -> Option<J>): (out: seq<Outcome<J>>)
    ensures |out| == |chunks|
  {
    if chunks == [] then [] else [PythonChunk(chunks[0], decode)] + PythonOutcomes(chunks[1..], decode)
  }

  /** What the browser client delivers from a text: one event per completed chunk that has one. */
  function BrowserParse<J>(s: string, decode: string -> Option<J>): seq<Event<J>> {
    Dispatched(Outcomes(Chunks(s).chunks, decode))
  }

  // ---- the two parsers compared ------------------------------------------------------------

  /** The three lines both parsers know as field names but only one accepts without a colon. */
  predicate Bare(line: string) {
    line == "data" || line == "id" || line == "event"
  }

  ghost predicate NoBareFields(s: string) {
    NoneIsBare(Lines(s))
  }

  ghost predicate NoneIsBare(lines: seq<string>) {
    forall l :: l in lines ==> !Bare(l)
  }

  lemma {:induction false} PythonFinalBlank<J>(lines: seq<string>, f: Fields, decode: string -> Option<J>)
    ensures PythonParse(lines + [""], f, decode) == PythonParse(lines, f, decode)
  {
    if lines == [] {
      assert [""][1..] == [];
      assert Finish(FRESH, decode) == Nothing;
    } else {
      assert (lines + [""])[1..] == lines[1..] + [""];
      PythonFinalBlank(lines[1..], if lines[0] == "" then FRESH else PythonLine(f, lines[0]), decode);
    }
  }

  /** Over non-empty lines the Python parser only gathers fields. */
  lemma {:induction false} PythonGathers<J>(
    lines: seq<string>, more: seq<string>, f: Fields, decode: string -> Option<J>)
    requires forall l :: l in lines ==> l != ""
    ensures PythonParse(lines + more, f, decode) == PythonParse(more, PythonLines(f, lines), decode)
  {
    if lines == [] {
      assert lines + more == more;
    } else {
      assert lines[0] in lines && forall l :: l in lines[1..] ==> l in lines;
      assert (lines + more)[1..] == lines[1..] + more;
      PythonGathers(lines[1..], more, PythonLine(f, lines[0]), decode);
    }
  }

  lemma PythonOverBody<J>(lines: seq<string>, more: seq<string>, decode: string -> Option<J>)
    requires |lines| >= 1 && forall i :: 1 <= i < |lines| ==> lines[i] != ""
    ensures PythonParse(lines + more, FRESH, decode) == PythonParse(more, PythonLines(FRESH, lines), decode)
  {
    if lines[0] == "" {
      assert (lines + more)[1..] == lines[1..] + more;
      assert Finish(FRESH, decode) == Nothing;
      PythonGathers(lines[1..], more, FRESH, decode);
    } else {
      PythonGathers(lines, more, FRESH, decode);
    }
  }

  /** A text that, with a newline added, has no blank line inside: only its first line can be empty. */
  lemma {:induction false} InnerLinesFull(body: string)
    requires forall j: nat :: j < |body| ==> !Blank(body + "\n", j)
    ensures forall i :: 1 <= i < |Lines(body)| ==> Lines(body)[i] != ""
    decreases |body|
  {
    var k := IndexOfChar(body, '\n');
    if k < |body| {
      var tail := body[k + 1..];
      assert !Blank(body + "\n", k);
      assert tail != "" && tail[0] != '\n';
      forall j: nat | j < |tail| ensures !Blank(tail + "\n", j) {
        assert !Blank(body + "\n", k + 1 + j);
      }
      InnerLinesFull(tail);
      assert Lines(tail)[0] != "";
    }
  }

  lemma FirstBlankSplits(s: string, i: nat)
    requires IndexOfBlank(s) == Some(i)
    ensures s == s[..i] + "\n\n" + s[i + 2..]
    ensures Lines(s) == Lines(s[..i]) + [""] + Lines(s[i + 2..])
  {
    assert s == s[..i] + "\n\n" + s[i + 2..];
    StreamLinesOf(s[..i], s[i + 2..]);
  }

  lemma FirstBlankIsFirst(s: string, i: nat)
    requires IndexOfBlank(s) == Some(i)
    ensures forall j: nat :: j < i ==> !Blank(s[..i] + "\n", j)
  {
    var body := s[..i];
    forall j: nat | j < i ensures !Blank(body + "\n", j) {
      assert !Blank(s, j);
      assert (body + "\n")[j] == s[j] && (body + "\n")[j + 1] == s[j + 1];
    }
  }

  /** What remains after the last blank line is dispatched by the Python parser when the stream ends. */
  lemma PythonOverRest<J>(s: string, decode: string -> Option<J>)
    requires IndexOfBlank(s).None?
    ensures PythonParse(Lines(s), FRESH, decode) == Replay([PythonChunk(s, decode)])
  {
    if s != "" && s[|s| - 1] == '\n' {
      var body := s[..|s| - 1];
      assert s == body + "\n" + "";
      LinesOfJoin(body, "");
      LinesOfOne("");
      forall j: nat | j < |body| ensures !Blank(body + "\n", j) {
        assert !Blank(s, j);
        assert body + "\n" == s;
      }
      InnerLinesFull(body);
      PythonFinalBlank(Lines(body), FRESH, decode);
      assert Lines(body) + [] == Lines(body);
      PythonOverBody(Lines(body), [], decode);
      PythonSnoc(FRESH, Lines(body), "");
    } else {
      forall j: nat | j < |s| ensures !Blank(s + "\n", j) {
        assert !Blank(s, j);
        assert (s + "\n")[j] == s[j];
      }
      InnerLinesFull(s);
      assert Lines(s) + [] == Lines(s);
      PythonOverBody(Lines(s), [], decode);
    }
  }

  lemma {:induction false} PythonSnoc(f: Fields, lines: seq<string>, line: string)
    ensures PythonLines(f, lines + [line]) == PythonLine(PythonLines(f, lines), line)
    decreases lines
  {
    if lines == [] {
      assert (lines + [line])[1..] == [];
    } else {
      assert (lines + [line])[1..] == lines[1..] + [line];
      PythonSnoc(PythonLine(f, lines[0]), lines[1..], line);
    }
  }

  lemma {:induction false} BrowserSnoc(f: Fields, lines: seq<string>, line: string)
    ensures BrowserLines(f, lines + [line]) == BrowserLine(BrowserLines(f, lines), line)
    decreases lines
  {
    if lines == [] {
      assert (lines + [line])[1..] == [];
    } else {
      assert (lines + [line])[1..] == lines[1..] + [line];
      BrowserSnoc(BrowserLine(f, lines[0]), lines[1..], line);
    }
  }

  /**
   * On any text the Python parser replays its chunks, in order up to the first undecodable one, and besides dispatches
   * what follows the last blank line.
   */
  lemma {:induction false} PythonByChunks<J>(s: string, decode: string -> Option<J>)
    ensures PythonParse(StreamLines(s), FRESH, decode)
      == Replay(PythonOutcomes(Chunks(s).chunks, decode) + [PythonChunk(Chunks(s).rest, decode)])
    decreases |s|
  {
    PythonStreamLines(s, decode);
    var i := IndexOfBlank(s);
    if i.None? {
      PythonOverRest(s, decode);
      assert PythonOutcomes([], decode) + [PythonChunk(s, decode)] == [PythonChunk(s, decode)];
    } else {
      var body, tail := s[..i.value], s[i.value + 2..];
      FirstBlankSplits(s, i.value);
      FirstBlankIsFirst(s, i.value);
      InnerLinesFull(body);
      Associate(Lines(body), [""], Lines(tail));
      PythonOverBody(Lines(body), [""] + Lines(tail), decode);
      assert ([""] + Lines(tail))[1..] == Lines(tail);
      PythonStreamLines(tail, decode);
      PythonByChunks(tail, decode);
      PythonAfter(body, Chunks(tail), decode);
    }
  }

  lemma PythonStreamLines<J>(s: string, decode: string -> Option<J>)
    ensures PythonParse(StreamLines(s), FRESH, decode) == PythonParse(Lines(s), FRESH, decode)
  {
    var lines := Lines(s);
    if lines[|lines| - 1] == "" {
      assert lines == lines[..|lines| - 1] + [""];
      PythonFinalBlank(lines[..|lines| - 1], FRESH, decode);
    }
  }

  lemma PythonAfter<J>(body: string, cut: Cut, decode: string -> Option<J>)
    ensures var out := PythonOutcomes(cut.chunks, decode) + [PythonChunk(cut.rest, decode)];
      Replay(PythonOutcomes(cut.After(body).chunks, decode) + [PythonChunk(cut.After(body).rest, decode)])
      == Replay(out).Before(PythonChunk(body, decode))
  {
    var out := PythonOutcomes(cut.chunks, decode) + [PythonChunk(cut.rest, decode)];
    assert cut.After(body).chunks[1..] == cut.chunks;
    var all := PythonOutcomes(cut.After(body).chunks, decode) + [PythonChunk(cut.rest, decode)];
    assert all == [PythonChunk(body, decode)] + out;
    assert all[1..] == out;
  }

  // ---- when the two agree ------------------------------------------------------------------

  /** The value of the last line with this field name and a colon. */
  function LastValue(lines: seq<string>, name: string): Option<string> {
    if lines == [] then None
    else
      var last := lines[|lines| - 1];
      if FieldName(last) == name && last != name then Some(FieldValue(last)) else LastValue(lines[..|lines| - 1], name)
  }

  /** The last line with this field name has no colon. */
  predicate LastIsBare(lines: seq<string>, name: string) {
    && lines != []
    && (lines[|lines| - 1] == name
        || (FieldName(lines[|lines| - 1]) != name && LastIsBare(lines[..|lines| - 1], name)))
  }

  /** A last line without a colon changes nothing only where the browser already has the empty value. */
  predicate LastAgrees(lines: seq<string>, name: string) {
    LastIsBare(lines, name) ==> LastValue(lines, name) == Some("")
  }

  lemma NoColon(line: string)
    ensures IndexOfChar(line, ':') == |line| <==> FieldName(line) == line
    ensures line == "" || line[0] == ':' ==> FieldName(line) == ""
  {
  }

  lemma BareName(line: string)
    ensures Bare(line) ==> IndexOfChar(line, ':') == |line| && FieldValue(line) == ""
    ensures IndexOfChar(line, ':') == |line| <==> FieldName(line) == line
    ensures line == "" || line[0] == ':' ==> FieldName(line) == ""
  {
    NoColon(line);
    if Bare(line) {
      assert ':' !in line;
    }
  }

  lemma {:induction false} BrowserGathers(lines: seq<string>)
    ensures var f := BrowserLines(FRESH, lines);
      && f.id == LastValue(lines, "id")
      && f.name == (match LastValue(lines, "event") case None => "message" case Some(name) => name)
  {
    if lines != [] {
      var front, last := lines[..|lines| - 1], lines[|lines| - 1];
      assert lines == front + [last];
      BrowserGathers(front);
      BrowserSnoc(FRESH, front, last);
      BareName(last);
    }
  }

  lemma {:induction false} PythonGathersFields(lines: seq<string>)
    ensures var f, g := PythonLines(FRESH, lines), BrowserLines(FRESH, lines);
      && f.id == (if LastIsBare(lines, "id") then Some("") else g.id)
      && f.name == (if LastIsBare(lines, "event") then "" else g.name)
  {
    if lines != [] {
      var front, last := lines[..|lines| - 1], lines[|lines| - 1];
      assert lines == front + [last];
      PythonGathersFields(front);
      PythonSnoc(FRESH, front, last);
      BrowserSnoc(FRESH, front, last);
      BareName(last);
    }
  }

  lemma {:induction false} DataGathered(lines: seq<string>)
    ensures var f, g := PythonLines(FRESH, lines), BrowserLines(FRESH, lines);
      && |f.data| >= |g.data|
      && (if "data" in lines then |f.data| > |g.data| else f.data == g.data)
  {
    if lines != [] {
      var front, last := lines[..|lines| - 1], lines[|lines| - 1];
      assert lines == front + [last];
      DataGathered(front);
      PythonSnoc(FRESH, front, last);
      BrowserSnoc(FRESH, front, last);
      BareName(last);
    }
  }

  /**
   * From one chunk the two parsers gather the same data lines if and only if none is a bare `data`; the same id, or the
   * same name, if and only if the last line naming it has a colon or the one before with a colon is empty.
   */
  lemma {:induction false} GatherAlikeIff(lines: seq<string>)
    ensures var f, g := PythonLines(FRESH, lines), BrowserLines(FRESH, lines);
      && (f.data == g.data <==> "data" !in lines)
      && (f.id == g.id <==> LastAgrees(lines, "id"))
      && (f.name == g.name <==> LastAgrees(lines, "event"))
  {
    DataGathered(lines);
    BrowserGathers(lines);
    PythonGathersFields(lines);
  }

  /** What decoding makes of the data gathered; nothing when there is none. */
  function Decoded<J>(f: Fields, decode: string -> Option<J>): Option<Option<J>> {
    if f.data == [] then None else Some(decode(JoinLines(f.data)))
  }

  /** Both read the same from the chunk's data and, if that is an event, its last `id` and `event` lines agree. */
  predicate Alike<J(==)>(lines: seq<string>, decode: string -> Option<J>) {
    var f, g := PythonLines(FRESH, lines), BrowserLines(FRESH, lines);
    && Decoded(f, decode) == Decoded(g, decode)
    && (Decoded(g, decode).Some? && Decoded(g, decode).value.Some? ==>
          LastAgrees(lines, "id") && LastAgrees(lines, "event"))
  }

  lemma FinishAlike<J>(f: Fields, g: Fields, decode: string -> Option<J>)
    ensures Finish(f, decode) == Finish(g, decode)
      <==> Decoded(f, decode) == Decoded(g, decode)
           && (Decoded(g, decode).Some? && Decoded(g, decode).value.Some? ==> f.id == g.id && f.name == g.name)
  {
  }

  /** The parsers make the same of a chunk exactly when it is alike to both. */
  lemma {:induction false} ChunkAlikeIff<J>(chunk: string, decode: string -> Option<J>)
    ensures PythonChunk(chunk, decode) == ChunkOutcome(chunk, decode) <==> Alike(Lines(chunk), decode)
  {
    var lines := Lines(chunk);
    GatherAlikeIff(lines);
    FinishAlike(PythonLines(FRESH, lines), BrowserLines(FRESH, lines), decode);
  }

  lemma {:induction false} OutcomesAlikeIff<J>(chunks: seq<string>, decode: string -> Option<J>)
    ensures PythonOutcomes(chunks, decode) == Outcomes(chunks, decode)
      <==> forall c :: c in chunks ==> Alike(Lines(c), decode)
  {
    if chunks != [] {
      var python, browser := PythonOutcomes(chunks, decode), Outcomes(chunks, decode);
      OutcomesAlikeIff(chunks[1..], decode);
      ChunkAlikeIff(chunks[0], decode);
      assert chunks == [chunks[0]] + chunks[1..];
      assert python[1..] == PythonOutcomes(chunks[1..], decode) && browser[1..] == Outcomes(chunks[1..], decode);
    }
  }

  /** A chunk without bare field lines is alike to both, whatever the decoder. */
  lemma {:induction false} NoBareIsAlike<J>(lines: seq<string>, decode: string -> Option<J>)
    requires NoneIsBare(lines)
    ensures Alike(lines, decode)
  {
    NeverBare(lines, "id");
    NeverBare(lines, "event");
    GatherAlikeIff(lines);
  }

  lemma {:induction false} NeverBare(lines: seq<string>, name: string)
    requires NoneIsBare(lines) && Bare(name)
    ensures !LastIsBare(lines, name)
  {
    if lines != [] {
      NeverBare(lines[..|lines| - 1], name);
    }
  }

  /**
   * On any text whose chunks are all alike, what follows the last blank line included, the Python parser yields what
   * the browser's chunks yield, in order, up to the first undecodable one.
   */
  lemma {:induction false} ParsersAgree<J>(s: string, decode: string -> Option<J>)
    requires forall c :: c in Chunks(s).chunks + [Chunks(s).rest] ==> Alike(Lines(c), decode)
    ensures PythonParse(StreamLines(s), FRESH, decode)
      == Replay(Outcomes(Chunks(s).chunks, decode) + [ChunkOutcome(Chunks(s).rest, decode)])
  {
    var all := Chunks(s).chunks + [Chunks(s).rest];
    PythonByChunks(s, decode);
    assert all[|Chunks(s).chunks|] == Chunks(s).rest && forall c :: c in Chunks(s).chunks ==> c in all;
    OutcomesAlikeIff(Chunks(s).chunks, decode);
    ChunkAlikeIff(Chunks(s).rest, decode);
  }

  /** In a text without bare field lines every chunk is alike. */
  lemma {:induction false} NoBareChunks<J>(s: string, decode: string -> Option<J>)
    requires NoBareFields(s)
    ensures forall c :: c in Chunks(s).chunks + [Chunks(s).rest] ==> Alike(Lines(c), decode)
    decreases |s|
  {
    var i := IndexOfBlank(s);
    if i.None? {
      NoBareIsAlike(Lines(s), decode);
    } else {
      var body, tail := s[..i.value], s[i.value + 2..];
      FirstBlankSplits(s, i.value);
      assert forall l :: l in Lines(body) ==> l in Lines(s);
      assert forall l :: l in Lines(tail) ==> l in Lines(s);
      NoBareIsAlike(Lines(body), decode);
      NoBareChunks(tail, decode);
    }
  }

  /** A bare `data` line is where they part: Python dispatches or raises, the browser stays silent. */
  lemma {:induction false} BareDataLine<J>(decode: string -> Option<J>)
    ensures BrowserParse("data" + "\n\n" + "", decode) == []
    ensures PythonParse(["data", ""], FRESH, decode) != Parsed([], false)
  {
    BareDataInBrowser(decode);
    BareDataInPython(decode);
  }

  lemma BareDataInBrowser<J>(decode: string -> Option<J>)
    ensures BrowserParse("data" + "\n\n" + "", decode) == []
  {
    var line := "data";
    SolidChunk(line, "");
    NothingLeft("", decode);
    LinesOfOne(line);
    assert IndexOfChar(line, ':') == 4;
    assert [line][1..] == [];
    assert BrowserLines(FRESH, [line]) == BrowserLine(FRESH, line);
    OutcomesCons(line, [], decode);
    assert [line] + [] == [line];
  }

  lemma BareDataInPython<J>(decode: string -> Option<J>)
    ensures PythonParse(["data", ""], FRESH, decode) != Parsed([], false)
  {
    var line := "data";
    assert IndexOfChar(line, ':') == 4;
    assert FieldName(line) == line;
    var lines := [line, ""];
    assert lines[1..] == [""] && [""][1..] == [];
    var f := PythonLine(FRESH, line);
    assert f.data == [""];
    assert PythonParse(lines, FRESH, decode) == PythonParse([""], f, decode);
  }

  // ---- the printer and the round trip ------------------------------------------------------

  datatype Frame<J> = Sent(id: string, name: string, data: J) | Heartbeat

  predicate OneLine(s: string) {
    '\n' !in s && '\r' !in s
  }

  function FieldText(name: string, value: string): string {
    name + ": " + value
  }

  function Body<J>(frame: Frame<J>, encode: J -> string): string {
    match frame
    case Sent(id, name, data) =>
      FieldText("id", id) + "\n" + FieldText("event", name) + "\n" + FieldText("data", encode(data))
    case Heartbeat => ": heartbeat"
  }

  /** The text the server writes. */
  function Stream<J>(frames: seq<Frame<J>>, encode: J -> string): string {
    if frames == [] then "" else Body(frames[0], encode) + "\n\n" + Stream(frames[1..], encode)
  }

  /** Ids and names are single lines, and encoded data is one line that decodes to what was encoded. */
  ghost predicate Printable<J>(frame: Frame<J>, encode: J -> string, decode: string -> Option<J>) {
    frame.Sent? ==>
      && OneLine(frame.id) && OneLine(frame.name) && OneLine(encode(frame.data))
      && decode(encode(frame.data)) == Some(frame.data)
  }

  function SentEvents<J>(frames: seq<Frame<J>>): seq<Event<J>> {
    if frames == [] then []
    else
      (if frames[0].Sent? then [Event(Some(frames[0].id), frames[0].name, frames[0].data)] else [])
      + SentEvents(frames[1..])
  }

  lemma FieldLine(f: Fields, name: string, value: string)
    requires name != "" && ':' !in name
    ensures BrowserLine(f, FieldText(name, value)) == Assign(f, name, value)
    ensures !Bare(FieldText(name, value))
  {
    var line := FieldText(name, value);
    assert line[|name|] == ':' && line[|name| + 1] == ' ';
    assert forall j :: 0 <= j < |name| ==> line[j] == name[j];
    assert IndexOfChar(line, ':') == |name|;
    assert line[..|name|] == name && line[|name| + 2..] == value;
    assert ':' in line;
  }

  lemma ThreeLines(a: string, b: string, c: string)
    requires '\n' !in a && '\n' !in b && '\n' !in c
    ensures Lines(a + "\n" + b + "\n" + c) == [a, b, c]
  {
    Regroup(a, b, c);
    LinesStep(a, b + "\n" + c);
    LinesStep(b, c);
    LinesOfOne(c);
  }

  lemma FieldOneLine(name: string, value: string)
    requires OneLine(name) && OneLine(value)
    ensures OneLine(FieldText(name, value)) && FieldText(name, value) != ""
  {
  }

  lemma {:induction false} SentBody(id: string, name: string, data: string)
    requires OneLine(id) && OneLine(name) && OneLine(data)
    ensures var body := FieldText("id", id) + "\n" + FieldText("event", name) + "\n" + FieldText("data", data);
      && Lines(body) == [FieldText("id", id), FieldText("event", name), FieldText("data", data)]
      && Solid(body) && '\r' !in body
  {
    FieldOneLine("id", id);
    FieldOneLine("event", name);
    FieldOneLine("data", data);
    ThreeLines(FieldText("id", id), FieldText("event", name), FieldText("data", data));
    SolidThree(FieldText("id", id), FieldText("event", name), FieldText("data", data));
  }

  lemma SentFields(id: string, name: string, data: string)
    ensures BrowserLines(FRESH, [FieldText("id", id), FieldText("event", name), FieldText("data", data)])
      == Fields(Some(id), name, [data])
  {
    var a, b, c := FieldText("id", id), FieldText("event", name), FieldText("data", data);
    var f1, f2 := Fields(Some(id), "message", []), Fields(Some(id), name, []);
    FieldLine(FRESH, "id", id);
    FieldLine(f1, "event", name);
    FieldLine(f2, "data", data);
    assert [a, b, c][1..] == [b, c] && [b, c][1..] == [c] && [c][1..] == [];
    assert BrowserLines(f2, [c]) == f2.(data := [] + [data]);
    assert BrowserLines(f1, [b, c]) == BrowserLines(f2, [c]);
  }

  lemma BodyOutcome<J>(frame: Frame<J>, encode: J -> string, decode: string -> Option<J>)
    requires Printable(frame, encode, decode)
    ensures ChunkOutcome(Body(frame, encode), decode)
      == if frame.Sent? then Dispatch(Event(Some(frame.id), frame.name, frame.data)) else Nothing
    ensures Solid(Body(frame, encode))
  {
    if frame.Sent? {
      SentBody(frame.id, frame.name, encode(frame.data));
      SentFields(frame.id, frame.name, encode(frame.data));
      assert JoinLines([encode(frame.data)]) == encode(frame.data);
    } else {
      assert Body(frame, encode)[10] == 't';
      LinesOfOne(": heartbeat");
      assert [": heartbeat"][1..] == [];
      assert BrowserLines(FRESH, [": heartbeat"]) == FRESH;
    }
  }

  lemma NoneBare(id: string, name: string, data: string)
    ensures forall l :: l in [FieldText("id", id), FieldText("event", name), FieldText("data", data)] ==> !Bare(l)
  {
    FieldLine(FRESH, "id", id);
    FieldLine(FRESH, "event", name);
    FieldLine(FRESH, "data", data);
  }

  lemma SentText(id: string, name: string, data: string)
    requires OneLine(id) && OneLine(name) && OneLine(data)
    ensures var body := FieldText("id", id) + "\n" + FieldText("event", name) + "\n" + FieldText("data", data);
      '\r' !in body && NoneIsBare(Lines(body))
  {
    SentBody(id, name, data);
    NoneBare(id, name, data);
  }

  lemma CommentText(line: string)
    requires line != "" && line[0] == ':' && '\n' !in line
    ensures NoneIsBare(Lines(line))
  {
    LinesOfOne(line);
  }

  lemma HeartbeatText()
    ensures '\r' !in ": heartbeat" && '\n' !in ": heartbeat"
  {
  }

  lemma {:induction false} BodyText<J>(frame: Frame<J>, encode: J -> string, decode: string -> Option<J>)
    requires Printable(frame, encode, decode)
    ensures '\r' !in Body(frame, encode) && NoneIsBare(Lines(Body(frame, encode)))
  {
    if frame.Sent? {
      SentText(frame.id, frame.name, encode(frame.data));
    } else {
      HeartbeatText();
      CommentText(": heartbeat");
    }
  }

  lemma SolidThree(a: string, b: string, c: string)
    requires OneLine(a) && OneLine(b) && OneLine(c) && b != "" && c != ""
    ensures Solid(a + "\n" + b + "\n" + c) && '\r' !in a + "\n" + b + "\n" + c
  {
    var s := a + "\n" + b + "\n" + c;
    forall j: nat ensures !Blank(s, j) {
      if j + 2 <= |s| && s[j] == '\n' {
        assert j == |a| || j == |a| + 1 + |b|;
        assert s[|a| + 1] == b[0] && s[|a| + 1 + |b| + 1] == c[0];
      }
    }
    assert s[|s| - 1] == c[|c| - 1];
  }

  ghost predicate AllPrintable<J>(frames: seq<Frame<J>>, encode: J -> string, decode: string -> Option<J>) {
    forall f :: f in frames ==> Printable(f, encode, decode)
  }

  lemma {:induction false} StreamText<J>(frames: seq<Frame<J>>, encode: J -> string, decode: string -> Option<J>)
    requires AllPrintable(frames, encode, decode)
    ensures NoBareFields(Stream(frames, encode)) && '\r' !in Stream(frames, encode)
  {
    if frames == [] {
      LinesOfOne("");
    } else {
      assert frames[0] in frames && forall f :: f in frames[1..] ==> f in frames;
      StreamText(frames[1..], encode, decode);
      BodyText(frames[0], encode, decode);
      StreamLinesOf(Body(frames[0], encode), Stream(frames[1..], encode));
    }
  }

  /** The browser gives back what was printed, heartbeats left out, with nothing left over. */
  lemma {:induction false} StreamRoundTrip<J>(frames: seq<Frame<J>>, encode: J -> string, decode: string -> Option<J>)
    requires AllPrintable(frames, encode, decode)
    ensures Chunks(Stream(frames, encode)).rest == ""
    ensures BrowserParse(Stream(frames, encode), decode) == SentEvents(frames)
    ensures Replay(Outcomes(Chunks(Stream(frames, encode)).chunks, decode)) == Parsed(SentEvents(frames), false)
  {
    if frames != [] {
      var body, tail := Body(frames[0], encode), Stream(frames[1..], encode);
      assert frames[0] in frames && forall f :: f in frames[1..] ==> f in frames;
      StreamRoundTrip(frames[1..], encode, decode);
      BodyOutcome(frames[0], encode, decode);
      SolidChunk(body, tail);
      OutcomesCons(body, Chunks(tail).chunks, decode);
    }
  }

  lemma OutcomesCons<J>(body: string, chunks: seq<string>, decode: string -> Option<J>)
    ensures Outcomes([body] + chunks, decode) == [ChunkOutcome(body, decode)] + Outcomes(chunks, decode)
    ensures Replay(Outcomes([body] + chunks, decode))
      == Replay(Outcomes(chunks, decode)).Before(ChunkOutcome(body, decode))
    ensures Dispatched(Outcomes([body] + chunks, decode))
      == Delivers(body, decode) + Dispatched(Outcomes(chunks, decode))
  {
    assert ([body] + chunks)[1..] == chunks;
    var out := Outcomes(chunks, decode);
    assert ([ChunkOutcome(body, decode)] + out)[1..] == out;
  }

  lemma StreamLinesOf(body: string, tail: string)
    ensures Lines(body + "\n\n" + tail) == Lines(body) + [""] + Lines(tail)
  {
    assert body + "\n\n" + tail == body + "\n" + ("" + "\n" + tail);
    LinesOfJoin(body, "" + "\n" + tail);
    LinesStep("", tail);
    Associate(Lines(body), [""], Lines(tail));
  }

  /** The Python client inverts the printer. */
  lemma {:induction false} PythonRoundTrip<J>(frames: seq<Frame<J>>, encode: J -> string, decode: string -> Option<J>)
    requires AllPrintable(frames, encode, decode)
    ensures PythonParse(StreamLines(Stream(frames, encode)), FRESH, decode) == Parsed(SentEvents(frames), false)
  {
    var s := Stream(frames, encode);
    StreamRoundTrip(frames, encode, decode);
    StreamText(frames, encode, decode);
    NoBareChunks(s, decode);
    ParsersAgree(s, decode);
    LinesOfOne("");
    assert ChunkOutcome("", decode) == Nothing by {
      assert [""][1..] == [];
      assert BrowserLines(FRESH, [""]) == FRESH;
    }
    ReplayNothing(Outcomes(Chunks(s).chunks, decode));
  }

  lemma {:induction false} ReplayNothing<J>(outcomes: seq<Outcome<J>>)
    ensures Replay(outcomes + [Nothing]) == Replay(outcomes)
  {
    if outcomes == [] {
      assert (outcomes + [Nothing])[1..] == [];
    } else {
      assert (outcomes + [Nothing])[1..] == outcomes[1..] + [Nothing];
      ReplayNothing(outcomes[1..]);
    }
  }

  // ---- data over several lines -------------------------------------------------------------

  /** Joined data lines are the text whose lines they are. */
  lemma {:induction false} JoinedLines(lines: seq<string>)
    requires lines != [] && forall l :: l in lines ==> '\n' !in l
    ensures Lines(JoinLines(lines)) == lines
  {
    if |lines| == 1 {
      LinesOfOne(lines[0]);
    } else {
      assert lines[0] in lines && forall l :: l in lines[1..] ==> l in lines;
      JoinedLines(lines[1..]);
      LinesStep(lines[0], JoinLines(lines[1..]));
      assert lines == [lines[0]] + lines[1..];
    }
  }

  function DataLines(lines: seq<string>): seq<string> {
    if lines == [] then [] else [FieldText("data", lines[0])] + DataLines(lines[1..])
  }

  lemma OneGathered(f: Fields, line: string, rest: seq<string>)
    ensures BrowserLines(f, [line] + rest) == BrowserLines(BrowserLine(f, line), rest)
    ensures PythonLines(f, [line] + rest) == PythonLines(PythonLine(f, line), rest)
  {
    assert ([line] + rest)[1..] == rest;
  }

  lemma PythonField(f: Fields, name: string, value: string)
    requires name != "" && ':' !in name
    ensures PythonLine(f, FieldText(name, value)) == Assign(f, name, value)
  {
    var line := FieldText(name, value);
    FieldLine(f, name, value);
    assert line[|name|] == ':' && line[|name| + 1] == ' ';
    assert forall j :: 0 <= j < |name| ==> line[j] == name[j];
    assert IndexOfChar(line, ':') == |name|;
    assert line[..|name|] == name && line[|name| + 2..] == value;
  }

  lemma DataFirst(f: Fields, value: string, rest: seq<string>)
    ensures BrowserLines(f, [FieldText("data", value)] + rest) == BrowserLines(f.(data := f.data + [value]), rest)
    ensures PythonLines(f, [FieldText("data", value)] + rest) == PythonLines(f.(data := f.data + [value]), rest)
  {
    FieldLine(f, "data", value);
    PythonField(f, "data", value);
    OneGathered(f, FieldText("data", value), rest);
  }

  lemma {:induction false} DataLinesGathered(lines: seq<string>, f: Fields)
    ensures BrowserLines(f, DataLines(lines)) == f.(data := f.data + lines)
    ensures PythonLines(f, DataLines(lines)) == f.(data := f.data + lines)
  {
    if lines == [] {
      assert f.data + lines == f.data;
    } else {
      DataFirst(f, lines[0], DataLines(lines[1..]));
      DataLinesGathered(lines[1..], f.(data := f.data + [lines[0]]));
      assert f.data + [lines[0]] + lines[1..] == f.data + lines;
    }
  }

  /** A text sent as data line by line is what both parsers decode, whatever it is. */
  lemma {:induction false} DataOverLines<J>(lines: seq<string>, decode: string -> Option<J>)
    requires lines != [] && forall l :: l in lines ==> '\n' !in l
    ensures exists text ::
      && Lines(text) == lines
      && Finish(BrowserLines(FRESH, DataLines(lines)), decode)
         == (match decode(text) case None => Invalid case Some(j) => Dispatch(Event(None, "message", j)))
      && Finish(PythonLines(FRESH, DataLines(lines)), decode)
         == Finish(BrowserLines(FRESH, DataLines(lines)), decode)
  {
    JoinedLines(lines);
    DataLinesGathered(lines, FRESH);
    assert [] + lines == lines;
    assert Lines(JoinLines(lines)) == lines;
  }

  // ---- the loops ---------------------------------------------------------------------------

  /** The browser's chunk parser. */
  method ParseChunk<J>(chunk: string, decode: string -> Option<J>) returns (payload: Option<Event<J>>)
    ensures payload == match ChunkOutcome(chunk, decode) case Dispatch(e) => Some(e) case _ => None
  {
    var fields := FRESH;
    var lines := Lines(chunk);
    for k := 0 to |lines|
      invariant BrowserLines(FRESH, lines) == BrowserLines(fields, lines[k..])
    {
      var line := lines[k];
      assert lines[k..][1..] == lines[k + 1..];
      if line == "" || line[0] == ':' || IndexOfChar(line, ':') == |line| {
        continue;
      }
      fields := Assign(fields, FieldName(line), FieldValue(line));
    }
    if fields.data == [] {
      return None;
    }
    var decoded := decode(JoinLines(fields.data));
    payload := if decoded.Some? then Some(Event(fields.id, fields.name, decoded.value)) else None;
  }

  /** The last non-empty id among the events, or what was known before. */
  function LastId<J>(events: seq<Event<J>>, before: string): string {
    if events == [] then before
    else
      var id := events[|events| - 1].id;
      if id.Some? && id.value != "" then id.value else LastId(events[..|events| - 1], before)
  }

  /** The browser's read loop: text arrives in arbitrary pieces, complete chunks are handed on at once. */
  method ReadLoop<J>(pieces: seq<string>, decode: string -> Option<J>, knownId: string)
    returns (events: seq<Event<J>>, lastEventId: string, buffer: string)
    ensures events == BrowserParse(JoinNormalized(pieces), decode)
    ensures buffer == Chunks(JoinNormalized(pieces)).rest
    ensures lastEventId == LastId(events, knownId)
  {
    events, lastEventId, buffer := [], knownId, "";
    for k := 0 to |pieces|
      invariant events == BrowserParse(JoinNormalized(pieces[..k]), decode)
      invariant buffer == Chunks(JoinNormalized(pieces[..k])).rest && IndexOfBlank(buffer).None?
      invariant lastEventId == LastId(events, knownId)
    {
      assert pieces[..k + 1][..k] == pieces[..k];
      ghost var before := JoinNormalized(pieces[..k]);
      ChunksAppend(before, Normalize(pieces[k]));
      DispatchedAppend(Chunks(before).chunks, Chunks(buffer + Normalize(pieces[k])).chunks, decode);
      events, lastEventId, buffer := Drain(buffer + Normalize(pieces[k]), decode, knownId, events, lastEventId);
    }
    assert pieces[..|pieces|] == pieces;
  }

  lemma {:induction false} DispatchedAppend<J>(a: seq<string>, b: seq<string>, decode: string -> Option<J>)
    ensures Dispatched(Outcomes(a + b, decode)) == Dispatched(Outcomes(a, decode)) + Dispatched(Outcomes(b, decode))
  {
    if a == [] {
      assert a + b == b;
    } else {
      var head, tail := a[0], a[1..];
      assert a == [head] + tail;
      Associate([head], tail, b);
      OutcomesCons(head, tail, decode);
      OutcomesCons(head, tail + b, decode);
      DispatchedAppend(tail, b, decode);
      Associate(Delivers(head, decode), Dispatched(Outcomes(tail, decode)), Dispatched(Outcomes(b, decode)));
    }
  }

  lemma BlankChunks(buffer: string, i: nat)
    requires IndexOfBlank(buffer) == Some(i)
    ensures Chunks(buffer).chunks == [buffer[..i]] + Chunks(buffer[i + 2..]).chunks
    ensures Chunks(buffer).rest == Chunks(buffer[i + 2..]).rest
  {
  }

  lemma DrainStep<J>(buffer: string, i: nat, decode: string -> Option<J>)
    requires IndexOfBlank(buffer) == Some(i)
    ensures BrowserParse(buffer, decode) == Delivers(buffer[..i], decode) + BrowserParse(buffer[i + 2..], decode)
    ensures Chunks(buffer).rest == Chunks(buffer[i + 2..]).rest
  {
    BlankChunks(buffer, i);
    OutcomesCons(buffer[..i], Chunks(buffer[i + 2..]).chunks, decode);
  }

  lemma LastIdNext<J>(events: seq<Event<J>>, e: Event<J>, before: string)
    ensures LastId(events + [e], before)
      == if e.id.Some? && e.id.value != "" then e.id.value else LastId(events, before)
  {
    assert (events + [e])[..|events|] == events;
  }

  /** Hands on every complete chunk in the buffer. */
  method Drain<J>(
    text: string, decode: string -> Option<J>, ghost knownId: string, delivered: seq<Event<J>>, known: string)
    returns (events: seq<Event<J>>, lastEventId: string, buffer: string)
    requires known == LastId(delivered, knownId)
    ensures events == delivered + BrowserParse(text, decode)
    ensures buffer == Chunks(text).rest && IndexOfBlank(buffer).None?
    ensures lastEventId == LastId(events, knownId)
  {
    events, lastEventId, buffer := delivered, known, text;
    ghost var all := delivered + BrowserParse(text, decode);
    var idx := IndexOfBlank(buffer);
    while idx.Some?
      invariant idx == IndexOfBlank(buffer)
      invariant events + BrowserParse(buffer, decode) == all
      invariant Chunks(buffer).rest == Chunks(text).rest
      invariant lastEventId == LastId(events, knownId)
      decreases |buffer|
    {
      DrainStep(buffer, idx.value, decode);
      var chunk := buffer[..idx.value];
      buffer := buffer[idx.value + 2..];
      var payload := ParseChunk(chunk, decode);
      Associate(events, Delivers(chunk, decode), BrowserParse(buffer, decode));
      ghost var next := events + Delivers(chunk, decode);
      if payload.Some? {
        if payload.value.id.Some? && payload.value.id.value != "" {
          lastEventId := payload.value.id.value;
        }
        LastIdNext(events, payload.value, knownId);
        events := events + [payload.value];
      }
      assert events == next;
      idx := IndexOfBlank(buffer);
    }
    NothingLeft(buffer, decode);
  }

  lemma NothingLeft<J>(buffer: string, decode: string -> Option<J>)
    requires IndexOfBlank(buffer).None?
    ensures BrowserParse(buffer, decode) == [] && Chunks(buffer).rest == buffer
  {
  }

  /**
   * The Python parser: gathers fields, dispatches at blank lines and at the end, and raises on data that is no JSON.
   */
  method ParseSse<J>(lines: seq<string>, decode: string -> Option<J>) returns (events: seq<Event<J>>, failed: bool)
    ensures Parsed(events, failed) == PythonParse(lines, FRESH, decode)
  {
    var fields := FRESH;
    events := [];
    ghost var all := PythonParse(lines, FRESH, decode);
    for k := 0 to |lines|
      invariant all == PythonParse(lines[k..], fields, decode).Prepend(events)
    {
      var line := lines[k];
      assert lines[k..][1..] == lines[k + 1..];
      if line == "" {
        var outcome := Finish(fields, decode);
        PrependStep(PythonParse(lines[k + 1..], FRESH, decode), events, outcome);
        if outcome.Invalid? {
          return events, true;
        }
        if outcome.Dispatch? {
          events := events + [outcome.event];
        }
        fields := FRESH;
      } else {
        fields := PythonLine(fields, line);
      }
    }
    assert lines[|lines|..] == [];
    var outcome := Finish(fields, decode);
    PrependStep(Parsed([], false), events, outcome);
    if outcome.Invalid? {
      return events, true;
    }
    if outcome.Dispatch? {
      events := events + [outcome.event];
    }
    failed := false;
  }

  lemma PrependStep<J>(rest: Parsed<J>, events: seq<Event<J>>, outcome: Outcome<J>)
    ensures outcome.Invalid? ==> rest.Before(outcome).Prepend(events) == Parsed(events, true)
    ensures outcome.Dispatch? ==> rest.Before(outcome).Prepend(events) == rest.Prepend(events + [outcome.event])
    ensures outcome.Nothing? ==> rest.Before(outcome) == rest
  {
    if outcome.Dispatch? {
      Associate(events, [outcome.event], rest.events);
    }
  }

  /** However the server's text reaches the browser, its client delivers exactly the events sent. */
  lemma {:induction false} AnySplitRoundTrip<J>(
    pieces: seq<string>, frames: seq<Frame<J>>, encode: J -> string, decode: string -> Option<J>)
    requires AllPrintable(frames, encode, decode) && Join(pieces) == Stream(frames, encode)
    ensures BrowserParse(JoinNormalized(pieces), decode) == SentEvents(frames)
    ensures BrowserParse(JoinNormalized(pieces), decode) == PythonParse(StreamLines(Join(pieces)), FRESH, decode).events
  {
    StreamText(frames, encode, decode);
    StreamRoundTrip(frames, encode, decode);
    PythonRoundTrip(frames, encode, decode);
    NoPairCut(pieces);
    NormalizeByReads(pieces);
    NormalizeCrFree(Join(pieces));
  }

  /** Any two ways of cutting one text into reads, neither through a pair, deliver the same events. */
  lemma {:induction false} SplitsAgree<J>(pieces: seq<string>, others: seq<string>, decode: string -> Option<J>)
    requires Join(pieces) == Join(others) && !CutsPair(pieces) && !CutsPair(others)
    ensures BrowserParse(JoinNormalized(pieces), decode) == BrowserParse(JoinNormalized(others), decode)
    ensures Chunks(JoinNormalized(pieces)).rest == Chunks(JoinNormalized(others)).rest
  {
    NormalizeByReads(pieces);
    NormalizeByReads(others);
  }

  lemma {:induction false} NoPairCut(pieces: seq<string>)
    requires '\r' !in Join(pieces)
    ensures !CutsPair(pieces)
  {
    if pieces != [] {
      var front := Join(pieces[..|pieces| - 1]);
      assert forall c :: c in front ==> c in Join(pieces);
      NoPairCut(pieces[..|pieces| - 1]);
      assert EndsCr(front) ==> '\r' in front;
    }
  }

  lemma OneDataLine<J>(value: string, decode: string -> Option<J>)
    requires OneLine(value) && decode(value).Some?
    ensures BrowserParse(FieldText("data", value) + "\n\n", decode) == [Event(None, "message", decode(value).value)]
  {
    var line := FieldText("data", value);
    assert line[|line| - 1] != '\n' by {
      assert |value| > 0 ==> line[|line| - 1] == value[|value| - 1];
    }
    SolidChunk(line, "");
    assert line + "\n\n" + "" == line + "\n\n";
    OneDataOutcome(value, decode);
    OutcomesCons(line, [], decode);
    NothingLeft("", decode);
    assert [line] + [] == [line];
  }

  lemma OneDataOutcome<J>(value: string, decode: string -> Option<J>)
    requires OneLine(value) && decode(value).Some?
    ensures Delivers(FieldText("data", value), decode) == [Event(None, "message", decode(value).value)]
  {
    var line := FieldText("data", value);
    LinesOfOne(line);
    FieldLine(FRESH, "data", value);
    assert [line][1..] == [];
    assert BrowserLines(FRESH, [line]) == Fields(None, "message", [] + [value]);
  }

  lemma CutData<J>(line: string, decode: string -> Option<J>)
    requires OneLine(line)
    ensures BrowserParse(line + "\n\r" + "\n", decode) == []
  {
    var cut := line + "\n\r" + "\n";
    assert forall j: nat :: !Blank(cut, j);
    NothingLeft(cut, decode);
  }

  /** A pair cut between two reads loses an event that the uncut text carries. */
  lemma {:induction false} CutPairLosesEvent<J>(value: string, decode: string -> Option<J>)
    requires OneLine(value) && decode(value).Some?
    ensures var line := FieldText("data", value);
      && Join([line + "\r\n\r", "\n"]) == Join([line + "\r\n\r\n"])
      && BrowserParse(JoinNormalized([line + "\r\n\r", "\n"]), decode) == []
      && BrowserParse(JoinNormalized([line + "\r\n\r\n"]), decode) == [Event(None, "message", decode(value).value)]
  {
    var line := FieldText("data", value);
    NormalizeEnds(line);
    var a, b, c := line + "\r\n\r", "\n", line + "\r\n\r\n";
    assert a + b == c;
    OnePiece(a, b);
    OnePiece(c, "");
    CutData(line, decode);
    OneDataLine(value, decode);
  }

  lemma OnePiece(a: string, b: string)
    ensures Join([a]) == a && JoinNormalized([a]) == Normalize(a)
    ensures Join([a, b]) == a + b && JoinNormalized([a, b]) == Normalize(a) + Normalize(b)
  {
    assert [a][..0] == [] && [a, b][..1] == [a];
    assert "" + a == a && "" + Normalize(a) == Normalize(a);
  }

  lemma NormalizeEnds(line: string)
    requires '\r' !in line
    ensures Normalize(line + "\r\n\r") == line + "\n\r" && Normalize("\n") == "\n"
    ensures Normalize(line + "\r\n\r\n") == line + "\n\n"
  {
    NormalizeCrFree(line);
    NormalizeAppend(line, "\r\n\r");
    NormalizeAppend(line, "\r\n\r\n");
    NormalizeHead("\r\n\r");
    NormalizeHead("\r\n\r\n");
    assert "\r\n\r"[2..] == "\r" && "\r\n\r\n"[2..] == "\r\n";
    NormalizeHead("\r");
    NormalizeHead("\r\n");
    assert "\r\n"[2..] == "" && "\r"[1..] == "";
    NormalizeHead("\n");
    assert "\n"[1..] == "";
  }
}
