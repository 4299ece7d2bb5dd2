/** The same condition line by line: which field a cut pair touches, and what comes of it. */
module PairLines {
  import opened Results
  import opened Sequences
  import opened TextLines
  import opened ServerSentEvents
  import opened SplitPairs

  // ---- a chunk by its lines ----------------------------------------------------------------

  /** The line is a field of this name. */
  predicate Names(line: string, name: string) {
    FieldName(line) == name && line != name
  }

  /** The values of the data lines, in order. */
  function DataOf(lines: seq<string>): seq<string> {
    if lines == [] then []
    else
      var last := lines[|lines| - 1];
      DataOf(lines[..|lines| - 1]) + if Names(last, "data") then [FieldValue(last)] else []
  }

  function ReadOf<J>(data: seq<string>, decode: string -> Option<J>): Option<J> {
    if data == [] then None else decode(JoinLines(data))
  }

  function NameOf(lines: seq<string>): string {
    match LastValue(lines, "event")
    case None => "message"
    case Some(name) => name
  }

  /** What the lines of a chunk deliver. */
  function Given<J>(lines: seq<string>, decode: string -> Option<J>): seq<Event<J>> {
    match ReadOf(DataOf(lines), decode)
    case None => []
    case Some(j) => [Event(LastValue(lines, "id"), NameOf(lines), j)]
  }

  lemma {:induction false} DataGiven(lines: seq<string>)
    ensures BrowserLines(FRESH, lines).data == DataOf(lines)
  {
    if lines != [] {
      var front, last := lines[..|lines| - 1], lines[|lines| - 1];
      assert lines == front + [last];
      DataGiven(front);
      BrowserSnoc(FRESH, front, last);
      BareName(last);
    }
  }

  lemma DeliversIs<J>(chunk: string, decode: string -> Option<J>)
    ensures Delivers(chunk, decode) == Given(Lines(chunk), decode)
  {
    DataGiven(Lines(chunk));
    BrowserGathers(Lines(chunk));
  }

  lemma {:induction false} LastAppend(a: seq<string>, b: seq<string>, name: string)
    ensures LastValue(a + b, name) == if LastValue(b, name).Some? then LastValue(b, name) else LastValue(a, name)
  {
    if b == [] {
      assert a + b == a;
    } else {
      var front, last := b[..|b| - 1], b[|b| - 1];
      assert (a + b)[..|a + b| - 1] == a + front;
      LastAppend(a, front, name);
    }
  }

  lemma {:induction false} DataAppend(a: seq<string>, b: seq<string>)
    ensures DataOf(a + b) == DataOf(a) + DataOf(b)
  {
    if b == [] {
      assert a + b == a;
    } else {
      var front, last := b[..|b| - 1], b[|b| - 1];
      assert (a + b)[..|a + b| - 1] == a + front;
      DataAppend(a, front);
    }
  }

  lemma OneLast(line: string, name: string)
    ensures LastValue([line], name) == if Names(line, name) then Some(FieldValue(line)) else None
    ensures DataOf([line]) == if Names(line, "data") then [FieldValue(line)] else []
  {
    assert [line][..0] == [];
  }

  // ---- a line that keeps its carriage return -----------------------------------------------

  lemma ReturnStays(line: string, name: string)
    requires name == "id" || name == "event" || name == "data"
    ensures Names(line + "\r", name) <==> Names(line, name)
    ensures Names(line, name) ==> FieldValue(line + "\r") == FieldValue(line) + "\r"
  {
    var i := IndexOfChar(line, ':');
    var longer := line + "\r";
    if i < |line| {
      assert longer[i] == ':' && forall j :: 0 <= j < i ==> longer[j] == line[j];
      assert IndexOfChar(longer, ':') == i;
      assert longer[..i] == line[..i];
    } else {
      assert IndexOfChar(longer, ':') == |longer|;
      assert longer[|longer| - 1] == '\r';
    }
  }

  /**
   * The line keeps a carriage return without effect if it is no field the parser knows; if a later line of the chunk
   * names the same id or event again, or the chunk delivers nothing; and if the data decode the same with it.
   */
  predicate KeepsReturn<J(==)>(front: seq<string>, line: string, after: seq<string>, decode: string -> Option<J>) {
    var head, tail, value := DataOf(front), DataOf(after), FieldValue(line);
    && (Names(line, "id") ==> LastValue(after, "id").Some? || ReadOf(head + tail, decode).None?)
    && (Names(line, "event") ==> LastValue(after, "event").Some? || ReadOf(head + tail, decode).None?)
    && (Names(line, "data") ==>
          ReadOf(head + [value + "\r"] + tail, decode) == ReadOf(head + [value] + tail, decode))
  }

  lemma OneName(line: string)
    ensures Names(line, "id") ==> !Names(line, "event") && !Names(line, "data")
    ensures Names(line, "event") ==> !Names(line, "data")
  {
  }

  /** What the lines around one line and the line itself add up to. */
  lemma AroundLine(front: seq<string>, line: string, after: seq<string>, name: string)
    ensures LastValue(front + [line] + after, name)
         == if LastValue(after, name).Some? then LastValue(after, name)
            else if Names(line, name) then Some(FieldValue(line)) else LastValue(front, name)
    ensures DataOf(front + [line] + after)
         == DataOf(front) + (if Names(line, "data") then [FieldValue(line)] else []) + DataOf(after)
  {
    LastAppend(front + [line], after, name);
    LastAppend(front, [line], name);
    DataAppend(front + [line], after);
    DataAppend(front, [line]);
    OneLast(line, name);
  }

  lemma LongerDiffers(value: string)
    ensures value + "\r" != value
  {
    assert |value + "\r"| == |value| + 1;
  }

  /** Two chunks deliver the same if and only if they read the same and, if that is an event, agree on its rest. */
  lemma GivenAlike<J>(a: seq<string>, b: seq<string>, decode: string -> Option<J>)
    ensures Given(a, decode) == Given(b, decode)
      <==> ReadOf(DataOf(a), decode) == ReadOf(DataOf(b), decode)
           && (ReadOf(DataOf(b), decode).Some? ==> LastValue(a, "id") == LastValue(b, "id") && NameOf(a) == NameOf(b))
  {
  }

  lemma IdReturn<J>(front: seq<string>, line: string, after: seq<string>, decode: string -> Option<J>)
    requires Names(line, "id")
    ensures Given(front + [line + "\r"] + after, decode) == Given(front + [line] + after, decode)
      <==> LastValue(after, "id").Some? || ReadOf(DataOf(front) + DataOf(after), decode).None?
  {
    OneName(line);
    OneName(line + "\r");
    ReturnStays(line, "id");
    AroundLine(front, line, after, "id");
    AroundLine(front, line + "\r", after, "id");
    AroundLine(front, line, after, "event");
    AroundLine(front, line + "\r", after, "event");
    LongerDiffers(FieldValue(line));
    assert DataOf(front) + [] == DataOf(front);
    GivenAlike(front + [line + "\r"] + after, front + [line] + after, decode);
  }

  lemma EventReturn<J>(front: seq<string>, line: string, after: seq<string>, decode: string -> Option<J>)
    requires Names(line, "event")
    ensures Given(front + [line + "\r"] + after, decode) == Given(front + [line] + after, decode)
      <==> LastValue(after, "event").Some? || ReadOf(DataOf(front) + DataOf(after), decode).None?
  {
    OneName(line);
    OneName(line + "\r");
    ReturnStays(line, "event");
    ReturnStays(line, "id");
    AroundLine(front, line, after, "id");
    AroundLine(front, line + "\r", after, "id");
    AroundLine(front, line, after, "event");
    AroundLine(front, line + "\r", after, "event");
    LongerDiffers(FieldValue(line));
    assert DataOf(front) + [] == DataOf(front);
    GivenAlike(front + [line + "\r"] + after, front + [line] + after, decode);
  }

  lemma DataReturn<J>(front: seq<string>, line: string, after: seq<string>, decode: string -> Option<J>)
    requires !Names(line, "id") && !Names(line, "event")
    ensures var head, tail, value := DataOf(front), DataOf(after), FieldValue(line);
      Given(front + [line + "\r"] + after, decode) == Given(front + [line] + after, decode)
      <==> (Names(line, "data") ==>
              ReadOf(head + [value + "\r"] + tail, decode) == ReadOf(head + [value] + tail, decode))
  {
    ReturnStays(line, "data");
    ReturnStays(line, "id");
    ReturnStays(line, "event");
    AroundLine(front, line, after, "id");
    AroundLine(front, line + "\r", after, "id");
    AroundLine(front, line, after, "event");
    AroundLine(front, line + "\r", after, "event");
    GivenAlike(front + [line + "\r"] + after, front + [line] + after, decode);
  }

  lemma {:induction false} KeepsReturnIff<J>(
    front: seq<string>, line: string, after: seq<string>, decode: string -> Option<J>)
    ensures Given(front + [line + "\r"] + after, decode) == Given(front + [line] + after, decode)
      <==> KeepsReturn(front, line, after, decode)
  {
    OneName(line);
    if Names(line, "id") {
      IdReturn(front, line, after, decode);
    } else if Names(line, "event") {
      EventReturn(front, line, after, decode);
    } else {
      DataReturn(front, line, after, decode);
    }
  }

  // ---- a chunk that runs into the next -----------------------------------------------------

  /** The later lines leave the id and the name that the earlier ones gave. */
  predicate LeavesRest(a: seq<string>, b: seq<string>) {
    && (LastValue(b, "id").None? || LastValue(b, "id") == LastValue(a, "id"))
    && (LastValue(b, "event").None? || LastValue(b, "event").value == NameOf(a))
  }

  /** The later lines give an id and a name of their own, as far as the earlier ones gave any. */
  predicate BringsRest(a: seq<string>, b: seq<string>) {
    && (LastValue(b, "id").Some? || LastValue(a, "id").None?)
    && (LastValue(b, "event").Some? || NameOf(a) == "message")
  }

  /**
   * Two chunks run into one without loss if neither was an event and they are none together; or one was, the data read
   * the same with the other's, and the id and the name are still its own.
   */
  predicate RunsOn<J(==)>(a: seq<string>, b: seq<string>, decode: string -> Option<J>) {
    var one, other, both :=
      ReadOf(DataOf(a), decode), ReadOf(DataOf(b), decode), ReadOf(DataOf(a) + DataOf(b), decode);
    && !(one.Some? && other.Some?)
    && both == (if one.Some? then one else other)
    && (one.Some? ==> LeavesRest(a, b))
    && (other.Some? ==> BringsRest(a, b))
  }

  lemma Skipped(a: seq<string>, b: seq<string>, name: string)
    requires name == "id" || name == "event"
    ensures LastValue(a + ["\r"] + b, name)
         == if LastValue(b, name).Some? then LastValue(b, name) else LastValue(a, name)
    ensures DataOf(a + ["\r"] + b) == DataOf(a) + DataOf(b)
  {
    assert IndexOfChar("\r", ':') == 1;
    assert !Names("\r", name) && !Names("\r", "data");
    AroundLine(a, "\r", b, name);
    assert DataOf(a) + [] == DataOf(a);
  }

  lemma OneRunsOn<J>(a: seq<string>, b: seq<string>, decode: string -> Option<J>)
    requires ReadOf(DataOf(a), decode).Some?
    ensures Given(a + ["\r"] + b, decode) == Given(a, decode)
      <==> ReadOf(DataOf(a) + DataOf(b), decode) == ReadOf(DataOf(a), decode) && LeavesRest(a, b)
  {
    Skipped(a, b, "id");
    Skipped(a, b, "event");
    GivenAlike(a + ["\r"] + b, a, decode);
  }

  lemma OtherRunsOn<J>(a: seq<string>, b: seq<string>, decode: string -> Option<J>)
    requires ReadOf(DataOf(b), decode).Some?
    ensures Given(a + ["\r"] + b, decode) == Given(b, decode)
      <==> ReadOf(DataOf(a) + DataOf(b), decode) == ReadOf(DataOf(b), decode) && BringsRest(a, b)
  {
    Skipped(a, b, "id");
    Skipped(a, b, "event");
    GivenAlike(a + ["\r"] + b, b, decode);
  }

  lemma HowMany<J>(lines: seq<string>, decode: string -> Option<J>)
    ensures |Given(lines, decode)| == if ReadOf(DataOf(lines), decode).Some? then 1 else 0
  {
  }

  lemma {:induction false} RunsOnIff<J>(a: seq<string>, b: seq<string>, decode: string -> Option<J>)
    ensures Given(a + ["\r"] + b, decode) == Given(a, decode) + Given(b, decode) <==> RunsOn(a, b, decode)
  {
    HowMany(a, decode);
    HowMany(b, decode);
    HowMany(a + ["\r"] + b, decode);
    Skipped(a, b, "id");
    assert [] + Given(b, decode) == Given(b, decode) && Given(a, decode) + [] == Given(a, decode);
    if ReadOf(DataOf(a), decode).Some? {
      OneRunsOn(a, b, decode);
    } else if ReadOf(DataOf(b), decode).Some? {
      OtherRunsOn(a, b, decode);
    }
  }

  // ---- the pair, line by line --------------------------------------------------------------

  lemma {:induction false} LinesReturn(s: string)
    ensures var lines := Lines(s);
      Lines(s + "\r") == lines[..|lines| - 1] + [lines[|lines| - 1] + "\r"]
    decreases |s|
  {
    var i := IndexOfChar(s, '\n');
    if i == |s| {
      LinesOfOne(s);
      LinesOfOne(s + "\r");
    } else {
      var head, tail := s[..i], s[i + 1..];
      assert s == head + "\n" + tail && s + "\r" == head + "\n" + (tail + "\r");
      LinesStep(head, tail);
      LinesStep(head, tail + "\r");
      LinesReturn(tail);
      var lines := Lines(tail);
      assert ([head] + lines)[..|lines|] == [head] + lines[..|lines| - 1];
      Associate([head], lines[..|lines| - 1], [lines[|lines| - 1] + "\r"]);
    }
  }

  /** The lines of the unfinished chunk but the last, the last, and those that complete it. */
  predicate HarmlessReturn<J(==)>(r: string, after: seq<string>, decode: string -> Option<J>) {
    KeepsReturn(Lines(r)[..|Lines(r)| - 1], Lines(r)[|Lines(r)| - 1], after, decode)
  }

  lemma ReturnByLines<J>(r: string, after: seq<string>, cut: string, whole: string, decode: string -> Option<J>)
    requires Lines(cut) == Lines(r + "\r") + after && Lines(whole) == Lines(r) + after
    ensures Delivers(cut, decode) == Delivers(whole, decode) <==> HarmlessReturn(r, after, decode)
  {
    var lines := Lines(r);
    var front, last := lines[..|lines| - 1], lines[|lines| - 1];
    LinesReturn(r);
    assert front + [last] == lines;
    DeliversIs(cut, decode);
    DeliversIs(whole, decode);
    KeepsReturnIff(front, last, after, decode);
  }

  /** Whether a pair cut behind text that leaves r unfinished, with y to follow, changes nothing. */
  predicate HarmlessByLines<J(==)>(r: string, y: string, decode: string -> Option<J>) {
    var end := IndexOfBlank(y);
    if EndsLine(r) then
      StartsEmpty(y)
      || (if end.None? then ReadOf(DataOf(Lines(r[..|r| - 1])), decode).None?
          else RunsOn(Lines(r[..|r| - 1]), Lines(y[..end.value]), decode))
    else if StartsEmpty(y) then HarmlessReturn(r, [], decode)
    else end.None? || HarmlessReturn(r, Lines(y[..end.value]), decode)
  }

  lemma BlankByLines<J>(c: string, d: string, decode: string -> Option<J>)
    ensures Delivers(c + "\n\r\n" + d, decode) == Delivers(c, decode) + Delivers(d, decode)
      <==> RunsOn(Lines(c), Lines(d), decode)
  {
    assert c + "\n\r\n" + d == c + "\n" + "\r" + "\n" + d;
    LinesOfJoin(c + "\n" + "\r", d);
    LinesOfJoin(c, "\r");
    LinesOfOne("\r");
    DeliversIs(c + "\n\r\n" + d, decode);
    DeliversIs(c, decode);
    DeliversIs(d, decode);
    RunsOnIff(Lines(c), Lines(d), decode);
  }

  lemma LineByLines<J>(r: string, d: string, decode: string -> Option<J>)
    ensures Delivers(r + "\r\n" + d, decode) == Delivers(r + "\n" + d, decode) <==> HarmlessReturn(r, Lines(d), decode)
  {
    assert r + "\r\n" + d == r + "\r" + "\n" + d;
    LinesOfJoin(r + "\r", d);
    LinesOfJoin(r, d);
    ReturnByLines(r, Lines(d), r + "\r\n" + d, r + "\n" + d, decode);
  }

  lemma LastLineByLines<J>(r: string, decode: string -> Option<J>)
    ensures Delivers(r + "\r", decode) == Delivers(r, decode) <==> HarmlessReturn(r, [], decode)
  {
    assert Lines(r + "\r") + [] == Lines(r + "\r") && Lines(r) + [] == Lines(r);
    ReturnByLines(r, [], r + "\r", r, decode);
  }

  /** Which lines a cut pair touches decides whether it does harm. */
  lemma {:induction false} HarmlessIff<J>(r: string, y: string, decode: string -> Option<J>)
    ensures Harmless(r, y, decode) <==> HarmlessByLines(r, y, decode)
  {
    var end := IndexOfBlank(y);
    if EndsLine(r) {
      var c := r[..|r| - 1];
      DeliversIs(c, decode);
      if end.Some? {
        BlankByLines(c, y[..end.value], decode);
      }
    } else {
      LastLineByLines(r, decode);
      if end.Some? {
        LineByLines(r, y[..end.value], decode);
      }
    }
  }
}
