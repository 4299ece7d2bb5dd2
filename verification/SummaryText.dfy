/** The text of a conversation summary: bullets of one line each, written under a tag and read back by lines. */
module SummaryText {
  import opened Sequences

  const TAG := "[conversation_summary]"

  /** The characters at which text is split into lines. */
  predicate IsBreak(c: char) {
    '\n' <= c <= '\r' || '\U{1C}' <= c <= '\U{1E}' || c == '\U{85}' || c == '\U{2028}' || c == '\U{2029}'
  }

  predicate IsSpace(c: char) {
    || IsBreak(c) || c == ' ' || c == '\t' || c == '\U{1F}' || c == '\U{A0}' || c == '\U{1680}'
    || '\U{2000}' <= c <= '\U{200A}' || c == '\U{202F}' || c == '\U{205F}' || c == '\U{3000}'
  }

  /** Line feed to carriage return, three separators, next line, line and paragraph separator. */
  lemma {:induction false} BreaksAre(c: char)
    ensures IsBreak(c) <==> c as int in {10, 11, 12, 13, 28, 29, 30, 133, 8232, 8233}
  {
  }

  lemma {:induction false} SpacesAre(c: char)
    ensures IsSpace(c) <==>
      || c as int in {9, 10, 11, 12, 13, 28, 29, 30, 31, 32, 133, 160, 5760, 8192, 8193, 8194, 8195, 8196}
      || c as int in {8197, 8198, 8199, 8200, 8201, 8202, 8232, 8233, 8239, 8287, 12288}
  {
  }

  /** No line break anywhere. */
  predicate OneLine(s: string) {
    s == "" || (!IsBreak(s[0]) && OneLine(s[1..]))
  }

  /** Does not end in white space. */
  predicate EndsDark(s: string) {
    s != "" && !IsSpace(s[|s| - 1])
  }

  lemma {:induction false} OneLineAppend(a: string, b: string)
    ensures OneLine(a + b) <==> OneLine(a) && OneLine(b)
  {
    if a == "" {
      assert a + b == b;
    } else {
      assert (a + b)[1..] == a[1..] + b;
      OneLineAppend(a[1..], b);
    }
  }

  // ---- collapsing and shortening -----------------------------------------------------------

  function Words(s: string): (words: seq<string>)
    ensures s != "" && !IsSpace(s[0]) ==> words != []
  {
    if s == "" then []
    else if IsSpace(s[0]) then Words(s[1..])
    else if |s| > 1 && !IsSpace(s[1]) then
      var rest := Words(s[1..]);
      [[s[0]] + rest[0]] + rest[1..]
    else [[s[0]]] + Words(s[1..])
  }

  function Join(parts: seq<string>, separator: string): string {
    if parts == [] then ""
    else if |parts| == 1 then parts[0]
    else parts[0] + separator + Join(parts[1..], separator)
  }

  const LIMIT: nat := 160

  function Shorten(text: string): string {
    var collapsed := Join(Words(text), " ");
    if |collapsed| <= LIMIT then collapsed else collapsed[..LIMIT - 3] + "..."
  }

  /** The words are what stands at these spans, which cover every dark character and leave a gap between each other. */
  ghost predicate AtSpans(s: string, spans: seq<(nat, nat)>, words: seq<string>) {
    && |spans| == |words|
    && (forall k :: 0 <= k < |spans| ==> spans[k].0 < spans[k].1 <= |s| && words[k] == s[spans[k].0..spans[k].1])
    && (forall k, i :: 0 <= k < |spans| && spans[k].0 <= i < spans[k].1 ==> !IsSpace(s[i]))
    && (forall k :: 0 < k < |spans| ==> spans[k - 1].1 < spans[k].0)
    && (forall i :: 0 <= i < |s| && !IsSpace(s[i]) ==> Covered(spans, i))
  }

  ghost predicate Covered(spans: seq<(nat, nat)>, i: int) {
    exists k :: 0 <= k < |spans| && spans[k].0 <= i < spans[k].1
  }

  function Shifted(spans: seq<(nat, nat)>): (out: seq<(nat, nat)>)
    ensures |out| == |spans|
    ensures forall k :: 0 <= k < |spans| ==> out[k] == (spans[k].0 + 1, spans[k].1 + 1)
  {
    seq(|spans|, k requires 0 <= k < |spans| => (spans[k].0 + 1, spans[k].1 + 1))
  }

  lemma ShiftSpans(c: char, s: string, spans: seq<(nat, nat)>, words: seq<string>)
    requires AtSpans(s, spans, words)
    ensures var t, out := [c] + s, Shifted(spans);
      && (forall k :: 0 <= k < |out| ==> out[k].0 < out[k].1 <= |t| && words[k] == t[out[k].0..out[k].1])
      && (forall k, i :: 0 <= k < |out| && out[k].0 <= i < out[k].1 ==> !IsSpace(t[i]))
      && (forall k :: 0 < k < |out| ==> out[k - 1].1 < out[k].0)
      && (forall i :: 0 < i < |t| && !IsSpace(t[i]) ==> Covered(out, i))
  {
    var t, out := [c] + s, Shifted(spans);
    forall k | 0 <= k < |out| ensures words[k] == t[out[k].0..out[k].1] {
      assert t[out[k].0..out[k].1] == s[spans[k].0..spans[k].1];
    }
    forall i | 0 < i < |t| && !IsSpace(t[i]) ensures Covered(out, i) {
      assert Covered(spans, i - 1);
      var k :| 0 <= k < |spans| && spans[k].0 <= i - 1 < spans[k].1;
      assert out[k].0 <= i < out[k].1;
    }
  }

  /** The words of a text are its longest stretches without white space, in order. */
  lemma {:induction false} WordsAre(s: string) returns (spans: seq<(nat, nat)>)
    ensures AtSpans(s, spans, Words(s))
    ensures s != "" && !IsSpace(s[0]) ==> spans != [] && spans[0].0 == 0
  {
    spans := [];
    if s != "" {
      var rest := WordsAre(s[1..]);
      assert s == [s[0]] + s[1..];
      ShiftSpans(s[0], s[1..], rest, Words(s[1..]));
      spans := Shifted(rest);
      if !IsSpace(s[0]) {
        if |s| > 1 && !IsSpace(s[1]) {
          spans := [(0, spans[0].1)] + spans[1..];
          FirstLonger(s, Shifted(rest), Words(s[1..]));
        } else {
          spans := [(0, 1)] + spans;
          FirstAlone(s, Shifted(rest), Words(s[1..]));
        }
      }
    }
  }

  /** Everything but the first character lies at the spans. */
  ghost predicate BehindFirst(s: string, spans: seq<(nat, nat)>, words: seq<string>) {
    && |spans| == |words|
    && (forall k :: 0 <= k < |spans| ==> 0 < spans[k].0 < spans[k].1 <= |s| && words[k] == s[spans[k].0..spans[k].1])
    && (forall k, i :: 0 <= k < |spans| && spans[k].0 <= i < spans[k].1 ==> !IsSpace(s[i]))
    && (forall k :: 0 < k < |spans| ==> spans[k - 1].1 < spans[k].0)
    && (forall i :: 0 < i < |s| && !IsSpace(s[i]) ==> Covered(spans, i))
  }

  lemma FirstLonger(s: string, spans: seq<(nat, nat)>, words: seq<string>)
    requires BehindFirst(s, spans, words) && spans != [] && spans[0].0 == 1 && !IsSpace(s[0])
    ensures AtSpans(s, [(0, spans[0].1)] + spans[1..], [[s[0]] + words[0]] + words[1..])
  {
    var out := [(0, spans[0].1)] + spans[1..];
    assert s[0..spans[0].1] == [s[0]] + s[1..spans[0].1];
    forall i | 0 <= i < |s| && !IsSpace(s[i]) ensures Covered(out, i) {
      if i > 0 {
        var k :| 0 <= k < |spans| && spans[k].0 <= i < spans[k].1;
        assert out[k].0 <= i < out[k].1;
      } else {
        assert out[0].0 <= i < out[0].1;
      }
    }
  }

  lemma FirstAlone(s: string, spans: seq<(nat, nat)>, words: seq<string>)
    requires BehindFirst(s, spans, words) && s != "" && !IsSpace(s[0]) && (|s| > 1 ==> IsSpace(s[1]))
    ensures AtSpans(s, [(0, 1)] + spans, [[s[0]]] + words)
  {
    var out := [(0, 1)] + spans;
    assert s[0..1] == [s[0]];
    forall i | 0 <= i < |s| && !IsSpace(s[i]) ensures Covered(out, i) {
      if i > 0 {
        var k :| 0 <= k < |spans| && spans[k].0 <= i < spans[k].1;
        assert out[k + 1].0 <= i < out[k + 1].1;
      } else {
        assert out[0].0 <= i < out[0].1;
      }
    }
    if spans != [] {
      assert spans[0].0 != 1;
    }
  }

  predicate Dark(words: seq<string>) {
    words == [] || (OneLine(words[0]) && EndsDark(words[0]) && Dark(words[1..]))
  }

  lemma {:induction false} WordsAreDark(s: string)
    ensures Dark(Words(s))
  {
    if s != "" {
      WordsAreDark(s[1..]);
      if !IsSpace(s[0]) {
        OneChar(s[0]);
        if |s| > 1 && !IsSpace(s[1]) {
          var rest := Words(s[1..]);
          LongerWord(s[0], rest[0]);
          assert ([[s[0]] + rest[0]] + rest[1..])[1..] == rest[1..];
        } else {
          assert ([[s[0]]] + Words(s[1..]))[1..] == Words(s[1..]);
        }
      }
    }
  }

  lemma OneChar(c: char)
    requires !IsBreak(c)
    ensures OneLine([c])
  {
    assert [c][1..] == "";
  }

  lemma LongerWord(c: char, w: string)
    requires !IsSpace(c) && OneLine(w) && EndsDark(w)
    ensures OneLine([c] + w) && EndsDark([c] + w)
  {
    assert ([c] + w)[1..] == w;
  }

  lemma {:induction false} JoinIsDark(words: seq<string>)
    requires Dark(words)
    ensures OneLine(Join(words, " ")) && (words != [] ==> EndsDark(Join(words, " ")))
  {
    if |words| > 1 {
      var tail := Join(words[1..], " ");
      JoinIsDark(words[1..]);
      OneChar(' ');
      OneLineAppend(words[0], " ");
      OneLineAppend(words[0] + " ", tail);
    }
  }

  /** Shortened text is one line of at most 160 characters that does not end in white space, unless it is empty. */
  lemma {:induction false} ShortenIsTidy(text: string)
    ensures OneLine(Shorten(text)) && |Shorten(text)| <= LIMIT
    ensures Shorten(text) != "" ==> EndsDark(Shorten(text))
  {
    var c := Join(Words(text), " ");
    WordsAreDark(text);
    JoinIsDark(Words(text));
    if |c| > LIMIT {
      assert c == c[..LIMIT - 3] + c[LIMIT - 3..];
      OneLineAppend(c[..LIMIT - 3], c[LIMIT - 3..]);
      Dots();
      OneLineAppend(c[..LIMIT - 3], "...");
    }
  }

  lemma Dots()
    ensures OneLine("...") && EndsDark("...")
  {
    assert "..."[1..] == ".." && ".."[1..] == "." && "."[1..] == "";
  }

  // ---- what shortening keeps ---------------------------------------------------------------

  predicate AllDark(s: string) {
    s == "" || (!IsSpace(s[0]) && AllDark(s[1..]))
  }

  predicate PlainWords(words: seq<string>) {
    words == [] || (words[0] != "" && AllDark(words[0]) && PlainWords(words[1..]))
  }

  lemma {:induction false} WordsArePlain(s: string)
    ensures PlainWords(Words(s))
  {
    if s != "" {
      WordsArePlain(s[1..]);
      if !IsSpace(s[0]) {
        if |s| > 1 && !IsSpace(s[1]) {
          var rest := Words(s[1..]);
          assert ([s[0]] + rest[0])[1..] == rest[0];
          assert ([[s[0]] + rest[0]] + rest[1..])[1..] == rest[1..];
        } else {
          assert ([[s[0]]] + Words(s[1..]))[1..] == Words(s[1..]);
        }
      }
    }
  }

  lemma {:induction false} WordThen(word: string, rest: string)
    requires word != "" && AllDark(word) && (rest == "" || IsSpace(rest[0]))
    ensures Words(word + rest) == [word] + Words(rest)
  {
    var s := word + rest;
    assert s[1..] == word[1..] + rest;
    if |word| == 1 {
      assert word == [s[0]] && s[1..] == rest;
    } else {
      WordThen(word[1..], rest);
      assert [s[0]] + word[1..] == word;
      assert ([word[1..]] + Words(rest))[1..] == Words(rest);
    }
  }

  /** Words joined by blanks are split into the same words again. */
  lemma {:induction false} WordsOfJoined(words: seq<string>)
    requires PlainWords(words)
    ensures Words(Join(words, " ")) == words
  {
    if words != [] {
      WordsOfJoined(words[1..]);
      var rest := if |words| == 1 then "" else " " + Join(words[1..], " ");
      assert Join(words, " ") == words[0] + rest;
      WordThen(words[0], rest);
      if |words| > 1 {
        assert rest[1..] == Join(words[1..], " ");
      }
      assert words == [words[0]] + words[1..];
    }
  }

  /**
   * A text whose words fit into 160 characters keeps them all; of a longer one the first 157 characters stay, and three
   * dots.
   */
  lemma {:induction false} ShortenKeeps(text: string)
    ensures var whole := Join(Words(text), " ");
      && Words(whole) == Words(text)
      && (|whole| <= 160 ==> Words(Shorten(text)) == Words(text))
      && (|whole| > 160 ==> Shorten(text) == whole[..157] + "..." && |Shorten(text)| == 160)
  {
    WordsArePlain(text);
    WordsOfJoined(Words(text));
  }

  // ---- reading lines back ------------------------------------------------------------------

  function SplitLines(s: string): (lines: seq<string>)
    ensures lines != []
  {
    if s == "" then [""]
    else if IsBreak(s[0]) then [""] + SplitLines(s[1..])
    else
      var rest := SplitLines(s[1..]);
      [[s[0]] + rest[0]] + rest[1..]
  }

  function StripLeft(s: string): string {
    if s != "" && IsSpace(s[0]) then StripLeft(s[1..]) else s
  }

  function StripRight(s: string): string {
    if s != "" && IsSpace(s[|s| - 1]) then StripRight(s[..|s| - 1]) else s
  }

  function Strip(s: string): string {
    StripRight(StripLeft(s))
  }

  predicate AllSpace(s: string) {
    s == "" || (IsSpace(s[0]) && AllSpace(s[1..]))
  }

  lemma {:induction false} SpaceAppend(a: string, c: char)
    ensures AllSpace(a + [c]) <==> AllSpace(a) && IsSpace(c)
  {
    if a != "" {
      assert (a + [c])[1..] == a[1..] + [c];
      SpaceAppend(a[1..], c);
    } else {
      assert ([] + [c])[1..] == [];
    }
  }

  lemma {:induction false} StripsLeft(s: string) returns (head: string)
    ensures AllSpace(head) && s == head + StripLeft(s)
    ensures StripLeft(s) != "" ==> !IsSpace(StripLeft(s)[0])
  {
    head := "";
    if s != "" && IsSpace(s[0]) {
      head := StripsLeft(s[1..]);
      head := [s[0]] + head;
      assert s == [s[0]] + s[1..];
    }
  }

  lemma {:induction false} StripsRight(s: string) returns (tail: string)
    ensures AllSpace(tail) && s == StripRight(s) + tail
    ensures StripRight(s) != "" ==> !IsSpace(StripRight(s)[|StripRight(s)| - 1])
  {
    tail := "";
    if s != "" && IsSpace(s[|s| - 1]) {
      tail := StripsRight(s[..|s| - 1]);
      SpaceAppend(tail, s[|s| - 1]);
      tail := tail + [s[|s| - 1]];
      assert s == s[..|s| - 1] + [s[|s| - 1]];
    }
  }

  /** Stripping takes white space off both ends and nothing else. */
  lemma {:induction false} StripIs(s: string) returns (head: string, tail: string)
    ensures AllSpace(head) && AllSpace(tail) && s == head + Strip(s) + tail
    ensures Strip(s) != "" ==> !IsSpace(Strip(s)[0]) && !IsSpace(Strip(s)[|Strip(s)| - 1])
  {
    head := StripsLeft(s);
    tail := StripsRight(StripLeft(s));
  }

  predicate IsItem(s: string) {
    |s| >= 2 && s[0] == '-' && s[1] == ' '
  }

  function Items(lines: seq<string>): seq<string> {
    if lines == [] then []
    else (if IsItem(Strip(lines[0])) then [Strip(lines[0])] else []) + Items(lines[1..])
  }

  /** The bullets found in a text: its lines, stripped, that start with a dash and a space. */
  function Reread(text: string): seq<string> {
    Items(SplitLines(text))
  }

  lemma {:induction false} SplitAppend(a: string, c: char, b: string)
    requires IsBreak(c)
    ensures SplitLines(a + [c] + b) == SplitLines(a) + SplitLines(b)
  {
    if a == "" {
      assert a + [c] + b == [c] + b;
      assert ([c] + b)[1..] == b;
    } else {
      assert (a + [c] + b)[1..] == a[1..] + [c] + b;
      SplitAppend(a[1..], c, b);
    }
  }

  lemma {:induction false} ItemsAppend(a: seq<string>, b: seq<string>)
    ensures Items(a + b) == Items(a) + Items(b)
  {
    if a == [] {
      assert a + b == b;
    } else {
      assert (a + b)[1..] == a[1..] + b && (a + b)[0] == a[0];
      ItemsAppend(a[1..], b);
      Associate(if IsItem(Strip(a[0])) then [Strip(a[0])] else [], Items(a[1..]), Items(b));
    }
  }

  lemma RereadAppend(a: string, c: char, b: string)
    requires IsBreak(c)
    ensures Reread(a + [c] + b) == Reread(a) + Reread(b)
  {
    SplitAppend(a, c, b);
    ItemsAppend(SplitLines(a), SplitLines(b));
  }

  lemma {:induction false} OneLineStays(s: string)
    requires OneLine(s)
    ensures SplitLines(s) == [s]
  {
    if s != "" {
      OneLineStays(s[1..]);
      assert s == [s[0]] + s[1..];
    }
  }

  lemma {:induction false} BrokenIsCut(s: string)
    requires !OneLine(s)
    ensures |SplitLines(s)| > 1 && |SplitLines(s)[0]| < |s|
    ensures SplitLines(s)[0] == s[..|SplitLines(s)[0]|]
  {
    if !IsBreak(s[0]) {
      BrokenIsCut(s[1..]);
    }
  }

  lemma {:induction false} StripRightIs(s: string)
    ensures |StripRight(s)| <= |s| && StripRight(s) == s[..|StripRight(s)|]
    ensures StripRight(s) == s <==> s == "" || EndsDark(s)
    ensures StripRight(s) == "" || EndsDark(StripRight(s))
  {
    if s != "" && IsSpace(s[|s| - 1]) {
      StripRightIs(s[..|s| - 1]);
    }
  }

  lemma {:induction false} StripRightStops(s: string, k: nat)
    requires k < |s| && !IsSpace(s[k])
    ensures |StripRight(s)| > k
  {
    if IsSpace(s[|s| - 1]) {
      StripRightStops(s[..|s| - 1], k);
    }
  }

  /** Starts like a bullet, and would still do so if cut at a line break. */
  predicate Marked(b: string) {
    IsItem(b) && |b| >= 3 && (!IsSpace(b[2]) || Plain(b))
  }

  /** A bullet that reads back as itself. */
  predicate Plain(b: string) {
    OneLine(b) && EndsDark(b)
  }

  lemma DashIsDark()
    ensures !IsSpace('-') && IsSpace(' ') && !IsBreak(' ') && IsBreak('\n')
  {
  }

  lemma PlainReread(b: string)
    requires IsItem(b) && Plain(b)
    ensures Reread(b) == [b]
  {
    DashIsDark();
    OneLineStays(b);
    StripRightIs(b);
    assert Strip(b) == b;
    assert Items([b]) == [b] + Items([b][1..]);
  }

  /**
   * A bullet reads back as itself exactly when it is one line without trailing white space; otherwise its head is left.
   */
  lemma {:induction false} MarkedReread(b: string)
    requires Marked(b)
    ensures Reread(b) != []
    ensures Reread(b) == [b] <==> Plain(b)
  {
    if Plain(b) {
      PlainReread(b);
    } else {
      HeadIsLeft(b);
    }
  }

  lemma HeadIsLeft(b: string)
    requires Marked(b) && !Plain(b)
    ensures Reread(b) != [] && Reread(b)[0] != b
  {
    var head := SplitLines(b)[0];
    if OneLine(b) {
      OneLineStays(b);
      HeadItem(b);
      StripRightIs(b);
    } else {
      BrokenIsCut(b);
      HeadReaches(b);
      HeadItem(head);
    }
    StripRightIs(head);
    assert Items(SplitLines(b))[0] == Strip(head);
  }

  lemma HeadReaches(b: string)
    requires Marked(b) && !OneLine(b)
    ensures |SplitLines(b)[0]| >= 3
  {
    DashIsDark();
    BrokenIsCut(b);
    var rest := b[1..];
    assert SplitLines(b)[0] == [b[0]] + SplitLines(rest)[0];
    assert SplitLines(rest)[0] == [rest[0]] + SplitLines(rest[1..])[0];
    assert rest[1..][0] == b[2];
  }

  lemma HeadItem(s: string)
    requires IsItem(s) && |s| >= 3 && !IsSpace(s[2])
    ensures IsItem(Strip(s)) && Strip(s) == StripRight(s)
  {
    DashIsDark();
    StripRightStops(s, 2);
    StripRightIs(s);
  }

  // ---- the whole list ----------------------------------------------------------------------

  predicate AllMarked(bullets: seq<string>) {
    bullets == [] || (Marked(bullets[0]) && AllMarked(bullets[1..]))
  }

  predicate AllPlain(bullets: seq<string>) {
    bullets == [] || (Plain(bullets[0]) && AllPlain(bullets[1..]))
  }

  lemma {:induction false} NotFewer(bullets: seq<string>)
    requires AllMarked(bullets)
    ensures bullets != [] ==> |Reread(Join(bullets, "\n"))| >= |bullets|
  {
    if bullets != [] {
      MarkedReread(bullets[0]);
      if |bullets| > 1 {
        NotFewer(bullets[1..]);
        DashIsDark();
        RereadAppend(bullets[0], '\n', Join(bullets[1..], "\n"));
      }
    }
  }

  /** Written one per line, bullets read back as they were exactly when each of them is plain. */
  lemma {:induction false} JoinRereadIff(bullets: seq<string>)
    requires AllMarked(bullets) && bullets != []
    ensures Reread(Join(bullets, "\n")) == bullets <==> AllPlain(bullets)
  {
    var first, rest := bullets[0], bullets[1..];
    MarkedReread(first);
    if |bullets| == 1 {
      assert bullets == [first];
    } else {
      var again := Reread(Join(rest, "\n"));
      JoinRereadIff(rest);
      NotFewer(rest);
      DashIsDark();
      RereadAppend(first, '\n', Join(rest, "\n"));
      SplitEqual(Reread(first), again, first, rest);
    }
  }

  lemma SplitEqual<T>(a: seq<T>, b: seq<T>, first: T, rest: seq<T>)
    requires a != [] && |b| >= |rest|
    ensures a + b == [first] + rest <==> a == [first] && b == rest
  {
    if a + b == [first] + rest {
      assert |a| == 1;
      assert (a + b)[0] == first;
      assert (a + b)[1..] == b;
      assert ([first] + rest)[1..] == rest;
    }
  }

  lemma {:induction false} TagIsNoItem()
    ensures Reread(TAG) == []
  {
    TagIsOneLine();
    OneLineStays(TAG);
    NoItem(TAG);
  }

  lemma NoItem(s: string)
    requires s != "" && !IsSpace(s[0]) && s[0] != '-'
    ensures Items([s]) == []
  {
    StripRightStops(s, 0);
    StripRightIs(s);
    assert Strip(s)[0] == s[0];
    assert Items([s]) == Items([s][1..]);
  }

  lemma {:induction false} TagIsOneLine()
    ensures OneLine(TAG)
  {
    assert forall i: nat :: i < |TAG| ==> '_' <= TAG[i] <= 'z' || TAG[i] == '[' || TAG[i] == ']';
    NoBreakIsOneLine(TAG);
  }

  lemma {:induction false} NoBreakIsOneLine(s: string)
    ensures OneLine(s) <==> forall i: nat :: i < |s| ==> !IsBreak(s[i])
  {
    if s != "" {
      NoBreakIsOneLine(s[1..]);
      assert forall i: nat :: i < |s[1..]| ==> s[1..][i] == s[i + 1];
      if OneLine(s) {
        forall i: nat | i < |s| ensures !IsBreak(s[i]) {
          if i > 0 { assert s[i] == s[1..][i - 1]; }
        }
      }
    }
  }

  /** A summary reads back as the bullets it was written from exactly when each of them is plain. */
  lemma {:induction false} SummaryRereadIff(bullets: seq<string>)
    requires AllMarked(bullets) && bullets != []
    ensures Reread(TAG + "\n" + Join(bullets, "\n")) == bullets <==> AllPlain(bullets)
  {
    DashIsDark();
    RereadAppend(TAG, '\n', Join(bullets, "\n"));
    TagIsNoItem();
    JoinRereadIff(bullets);
  }

  // ---- bullets read back are plain ---------------------------------------------------------

  predicate AllLines(lines: seq<string>) {
    lines == [] || (OneLine(lines[0]) && AllLines(lines[1..]))
  }

  lemma {:induction false} SplitIntoLines(s: string)
    ensures AllLines(SplitLines(s))
  {
    if s != "" {
      SplitIntoLines(s[1..]);
      var rest := SplitLines(s[1..]);
      if IsBreak(s[0]) {
        assert ([""] + rest)[1..] == rest;
      } else {
        assert ([s[0]] + rest[0])[1..] == rest[0];
        assert ([[s[0]] + rest[0]] + rest[1..])[1..] == rest[1..];
      }
    }
  }

  lemma {:induction false} StripLeftIsLine(s: string)
    requires OneLine(s)
    ensures OneLine(StripLeft(s))
  {
    if s != "" && IsSpace(s[0]) {
      StripLeftIsLine(s[1..]);
    }
  }

  lemma StripIsLine(s: string)
    requires OneLine(s)
    ensures OneLine(Strip(s)) && (Strip(s) == "" || EndsDark(Strip(s)))
  {
    var left := StripLeft(s);
    StripLeftIsLine(s);
    StripRightIs(left);
    var n := |StripRight(left)|;
    assert left == left[..n] + left[n..];
    OneLineAppend(left[..n], left[n..]);
  }

  lemma ItemIsMarked(s: string)
    requires OneLine(s) && IsItem(Strip(s))
    ensures Plain(Strip(s)) && Marked(Strip(s))
  {
    StripIsLine(s);
    DashIsDark();
  }

  lemma {:induction false} ItemsArePlain(lines: seq<string>)
    requires AllLines(lines)
    ensures AllMarked(Items(lines)) && AllPlain(Items(lines))
  {
    if lines != [] {
      ItemsArePlain(lines[1..]);
      if IsItem(Strip(lines[0])) {
        ItemIsMarked(lines[0]);
        assert Items(lines)[1..] == Items(lines[1..]);
      } else {
        assert Items(lines) == Items(lines[1..]);
      }
    }
  }

  lemma RereadIsPlain(text: string)
    ensures AllMarked(Reread(text)) && AllPlain(Reread(text))
  {
    SplitIntoLines(text);
    ItemsArePlain(SplitLines(text));
  }
}
