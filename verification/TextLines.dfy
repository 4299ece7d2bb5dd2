/** Text cut into lines and into blank-line-terminated chunks. */
module TextLines {
  import opened Results
  import opened Sequences

  /** The first position of c, or the length when c does not occur. */
  function IndexOfChar(s: string, c: char): (i: nat)
    ensures i <= |s|
    ensures i < |s| ==> s[i] == c
    ensures forall j :: 0 <= j < i ==> s[j] != c
  {
    if s == "" || s[0] == c then 0 else 1 + IndexOfChar(s[1..], c)
  }

  predicate Blank(s: string, i: nat) {
    i + 2 <= |s| && s[i] == '\n' && s[i + 1] == '\n'
  }

  /** The first position of two consecutive newlines. */
  function IndexOfBlank(s: string): (r: Option<nat>)
    ensures r.Some? ==> Blank(s, r.value) && forall j: nat :: j < r.value ==> !Blank(s, j)
    ensures r.None? ==> forall j: nat :: !Blank(s, j)
  {
    if |s| < 2 then None
    else if s[0] == '\n' && s[1] == '\n' then Some(0)
    else
      var r := IndexOfBlank(s[1..]);
      assert forall j: nat :: j >= 1 ==> (Blank(s, j) <==> Blank(s[1..], j - 1));
      if r.None? then None else Some(r.value + 1)
  }

  /** The pieces between newlines; never empty. */
  function Lines(s: string): (lines: seq<string>)
    ensures |lines| >= 1
    ensures forall l :: l in lines ==> '\n' !in l
  {
    var i := IndexOfChar(s, '\n');
    if i == |s| then [s] else [s[..i]] + Lines(s[i + 1..])
  }

  lemma LinesStep(head: string, tail: string)
    requires '\n' !in head
    ensures Lines(head + "\n" + tail) == [head] + Lines(tail)
  {
    var s := head + "\n" + tail;
    assert s[|head|] == '\n';
    assert forall j :: 0 <= j < |head| ==> s[j] == head[j];
    assert IndexOfChar(s, '\n') == |head|;
    assert s[..|head|] == head && s[|head| + 1..] == tail;
  }

  lemma Regroup(a: string, b: string, c: string)
    ensures a + "\n" + b + "\n" + c == a + "\n" + (b + "\n" + c)
  {
  }

  lemma {:induction false} LinesOfJoin(a: string, b: string)
    ensures Lines(a + "\n" + b) == Lines(a) + Lines(b)
    decreases |a|
  {
    var i := IndexOfChar(a, '\n');
    if i == |a| {
      LinesStep(a, b);
    } else {
      var head, tail := a[..i], a[i + 1..];
      assert a == head + "\n" + tail;
      Regroup(head, tail, b);
      LinesStep(head, tail);
      LinesStep(head, tail + "\n" + b);
      LinesOfJoin(tail, b);
      Associate([head], Lines(tail), Lines(b));
    }
  }

  lemma LinesOfOne(a: string)
    requires '\n' !in a
    ensures Lines(a) == [a]
  {
    assert IndexOfChar(a, '\n') == |a|;
  }

  /** The chunks ended by a blank line, and what is left after the last of them. */
  datatype Cut = Cut(chunks: seq<string>, rest: string) {
    function After(chunk: string): Cut {
      Cut([chunk] + chunks, rest)
    }

    /** What was cut from a text, then what is cut once more text arrives. */
    function Then(more: Cut): Cut {
      Cut(chunks + more.chunks, more.rest)
    }
  }

  function Chunks(s: string): Cut
    decreases |s|
  {
    var i := IndexOfBlank(s);
    if i.None? then Cut([], s) else Chunks(s[i.value + 2..]).After(s[..i.value])
  }

  lemma BlankInPrefix(a: string, b: string)
    requires IndexOfBlank(a).Some?
    ensures IndexOfBlank(a + b) == IndexOfBlank(a)
  {
    var i := IndexOfBlank(a).value;
    assert forall j: nat :: j + 2 <= |a| ==> (Blank(a + b, j) <==> Blank(a, j));
    assert Blank(a + b, i);
    assert forall j: nat :: j < i ==> !Blank(a + b, j);
  }

  lemma ChunksStep(a: string, b: string, i: nat)
    requires IndexOfBlank(a) == Some(i)
    ensures Chunks(a) == Chunks(a[i + 2..]).After(a[..i])
    ensures Chunks(a + b) == Chunks(a[i + 2..] + b).After(a[..i])
  {
    BlankInPrefix(a, b);
    assert (a + b)[..i] == a[..i];
    assert (a + b)[i + 2..] == a[i + 2..] + b;
  }

  lemma AfterThen(cut: Cut, chunk: string, more: Cut)
    ensures cut.After(chunk).Then(more) == cut.Then(more).After(chunk)
  {
    assert [chunk] + cut.chunks + more.chunks == [chunk] + (cut.chunks + more.chunks);
  }

  lemma NoChunks(a: string, more: Cut)
    requires IndexOfBlank(a).None?
    ensures Chunks(a) == Cut([], a) && Chunks(a).Then(more) == more
  {
  }

  /** Text may be cut anywhere: chunks already complete stay, and the rest is carried over. */
  lemma {:induction false} ChunksAppend(a: string, b: string)
    ensures Chunks(a + b) == Chunks(a).Then(Chunks(Chunks(a).rest + b))
    decreases |a|
  {
    var i := IndexOfBlank(a);
    if i.Some? {
      var tail := a[i.value + 2..];
      ChunksStep(a, b, i.value);
      ChunksAppend(tail, b);
      AfterThen(Chunks(tail), a[..i.value], Chunks(Chunks(tail).rest + b));
    } else {
      NoChunks(a, Chunks(a + b));
    }
  }

  /** A chunk that has no blank line of its own and does not end in a newline is cut where it was put. */
  ghost predicate Solid(body: string) {
    body != "" && body[|body| - 1] != '\n' && forall j: nat :: !Blank(body, j)
  }

  lemma SolidChunk(body: string, tail: string)
    requires Solid(body)
    ensures Chunks(body + "\n\n" + tail) == Cut([body] + Chunks(tail).chunks, Chunks(tail).rest)
  {
    var s := body + "\n\n" + tail;
    assert Blank(s, |body|);
    forall j: nat | j < |body| ensures !Blank(s, j) {
      assert s[j] == body[j];
      if j + 1 < |body| {
        assert s[j + 1] == body[j + 1];
        assert !Blank(body, j);
      }
    }
    assert IndexOfBlank(s) == Some(|body|);
    assert s[..|body|] == body && s[|body| + 2..] == tail;
  }

  // ---- carriage returns --------------------------------------------------------------------

  /** Every "\r\n" becomes "\n". */
  function Normalize(s: string): string {
    if s == "" then ""
    else if |s| >= 2 && s[0] == '\r' && s[1] == '\n' then "\n" + Normalize(s[2..])
    else [s[0]] + Normalize(s[1..])
  }

  predicate EndsCr(s: string) {
    s != "" && s[|s| - 1] == '\r'
  }

  predicate StartsLf(s: string) {
    s != "" && s[0] == '\n'
  }

  lemma {:induction false} NormalizeCrFree(s: string)
    requires '\r' !in s
    ensures Normalize(s) == s
  {
    if s != "" {
      NormalizeCrFree(s[1..]);
      assert s == [s[0]] + s[1..];
    }
  }

  lemma NormalizeHead(s: string)
    requires s != ""
    ensures (|s| >= 2 && s[0] == '\r' && s[1] == '\n') ==> Normalize(s) == "\n" + Normalize(s[2..])
    ensures !(|s| >= 2 && s[0] == '\r' && s[1] == '\n') ==> Normalize(s) == [s[0]] + Normalize(s[1..])
  {
  }

  lemma NormalizeOneThen(c: char, b: string)
    ensures |Normalize([c])| + |Normalize(b)| == |Normalize([c] + b)| + if c == '\r' && StartsLf(b) then 1 else 0
    ensures !(c == '\r' && StartsLf(b)) ==> Normalize([c] + b) == Normalize([c]) + Normalize(b)
  {
    assert ([c] + b)[1..] == b;
    NormalizeHead([c] + b);
    NormalizeHead([c]);
    if c == '\r' && StartsLf(b) {
      assert ([c] + b)[2..] == b[1..];
      NormalizeHead(b);
    }
  }

  /**
   * Normalizing two pieces apart differs from normalizing them together exactly when a pair is cut, by one character.
   */
  lemma {:induction false} NormalizeAppend(a: string, b: string)
    ensures |Normalize(a)| + |Normalize(b)| == |Normalize(a + b)| + if EndsCr(a) && StartsLf(b) then 1 else 0
    ensures !(EndsCr(a) && StartsLf(b)) ==> Normalize(a + b) == Normalize(a) + Normalize(b)
    decreases |a|
  {
    if a == "" {
      assert a + b == b;
    } else if |a| == 1 {
      assert a == [a[0]];
      NormalizeOneThen(a[0], b);
    } else {
      var n := if a[0] == '\r' && a[1] == '\n' then 2 else 1;
      var head := if n == 2 then "\n" else [a[0]];
      NormalizeHeads(a, b, n, head);
      NormalizeAppend(a[n..], b);
      Associate(head, Normalize(a[n..]), Normalize(b));
    }
  }

  lemma NormalizeHeads(a: string, b: string, n: nat, head: string)
    requires |a| >= 2
    requires n == if a[0] == '\r' && a[1] == '\n' then 2 else 1
    requires head == if n == 2 then "\n" else [a[0]]
    ensures Normalize(a) == head + Normalize(a[n..])
    ensures Normalize(a + b) == head + Normalize(a[n..] + b)
    ensures EndsCr(a) <==> EndsCr(a[n..])
  {
    assert (a + b)[0] == a[0] && (a + b)[1] == a[1];
    assert (a + b)[n..] == a[n..] + b;
    NormalizeHead(a);
    NormalizeHead(a + b);
  }

  function Join(pieces: seq<string>): string {
    if pieces == [] then "" else Join(pieces[..|pieces| - 1]) + pieces[|pieces| - 1]
  }

  function JoinNormalized(pieces: seq<string>): string {
    if pieces == [] then "" else JoinNormalized(pieces[..|pieces| - 1]) + Normalize(pieces[|pieces| - 1])
  }

  /** Some read starts with the newline of a pair whose carriage return the reads before it ended with. */
  predicate CutsPair(pieces: seq<string>) {
    pieces != [] &&
      (CutsPair(pieces[..|pieces| - 1]) || (EndsCr(Join(pieces[..|pieces| - 1])) && StartsLf(pieces[|pieces| - 1])))
  }

  /** Normalizing read by read is normalizing the whole exactly when no read boundary cuts a pair. */
  lemma {:induction false} NormalizeByReads(pieces: seq<string>)
    ensures JoinNormalized(pieces) == Normalize(Join(pieces)) <==> !CutsPair(pieces)
    ensures |JoinNormalized(pieces)| >= |Normalize(Join(pieces))|
    ensures CutsPair(pieces) ==> |JoinNormalized(pieces)| > |Normalize(Join(pieces))|
  {
    if pieces != [] {
      NormalizeByReads(pieces[..|pieces| - 1]);
      NormalizeAppend(Join(pieces[..|pieces| - 1]), pieces[|pieces| - 1]);
    }
  }
}
