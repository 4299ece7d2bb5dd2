/** When a carriage return and line feed cut between two reads change what the browser delivers. */
module SplitPairs {
  import opened Results
  import opened Sequences
  import opened TextLines
  import opened ServerSentEvents

  /** The next line is empty, or its text begins. */
  predicate StartsEmpty(s: string) {
    s != "" && s[0] == '\n'
  }

  /**
   * A pair in the blank line behind a chunk, which it ends: the chunk is not ended, unless another empty line follows,
   * and what comes next is taken as more of it.
   */
  predicate HarmlessBlank<J(==)>(chunk: string, y: string, decode: string -> Option<J>) {
    StartsEmpty(y)
    || match IndexOfBlank(y)
       case None => Delivers(chunk, decode) == []
       case Some(i) => Delivers(chunk + "\n\r\n" + y[..i], decode) == Delivers(chunk, decode) + Delivers(y[..i], decode)
  }

  /** A pair at the end of another line: the line keeps a carriage return, which counts once its chunk is complete. */
  predicate HarmlessLine<J(==)>(r: string, y: string, decode: string -> Option<J>) {
    if StartsEmpty(y) then Delivers(r + "\r", decode) == Delivers(r, decode)
    else match IndexOfBlank(y)
      case None => true
      case Some(i) => Delivers(r + "\r\n" + y[..i], decode) == Delivers(r + "\n" + y[..i], decode)
  }

  predicate EndsLine(r: string) {
    r != "" && r[|r| - 1] == '\n'
  }

  /** Whether a pair cut behind text that leaves r unfinished, with y to follow, changes nothing. */
  predicate Harmless<J(==)>(r: string, y: string, decode: string -> Option<J>) {
    if EndsLine(r) then HarmlessBlank(r[..|r| - 1], y, decode) else HarmlessLine(r, y, decode)
  }

  // ---- one chunk at a time -----------------------------------------------------------------

  lemma ParseNone<J>(s: string, decode: string -> Option<J>)
    requires IndexOfBlank(s).None?
    ensures BrowserParse(s, decode) == []
  {
    NothingLeft(s, decode);
  }

  lemma ParseFirst<J>(s: string, i: nat, decode: string -> Option<J>)
    requires IndexOfBlank(s) == Some(i)
    ensures BrowserParse(s, decode) == Delivers(s[..i], decode) + BrowserParse(s[i + 2..], decode)
  {
    DrainStep(s, i, decode);
  }

  predicate NoBlank(s: string) {
    IndexOfBlank(s).None?
  }

  /** Where the first blank line is in a text without one, a line feed, and more text. */
  lemma {:induction false} BlankBehind(r: string, y: string)
    requires NoBlank(r) && !EndsLine(r)
    ensures IndexOfBlank(r + "\n" + y)
         == if StartsEmpty(y) then Some(|r|)
            else if IndexOfBlank(y).Some? then Some(|r| + 1 + IndexOfBlank(y).value) else None
    decreases |r|
  {
    var s := r + "\n" + y;
    if r == "" {
      assert s[1..] == y;
    } else {
      assert s[1..] == r[1..] + "\n" + y;
      assert !Blank(r, 0);
      assert IndexOfBlank(r[1..]).None?;
      BlankBehind(r[1..], y);
    }
  }

  lemma ParseEmpty<J>(r: string, y: string, decode: string -> Option<J>)
    requires NoBlank(r) && !EndsLine(r) && StartsEmpty(y)
    ensures BrowserParse(r + "\n" + y, decode) == Delivers(r, decode) + BrowserParse(y[1..], decode)
  {
    var s := r + "\n" + y;
    BlankBehind(r, y);
    ParseFirst(s, |r|, decode);
    assert s[..|r|] == r && s[|r| + 2..] == y[1..];
  }

  lemma ParseParts<J>(s: string, i: nat, head: string, tail: string, decode: string -> Option<J>)
    requires IndexOfBlank(s) == Some(i) && s[..i] == head && s[i + 2..] == tail
    ensures BrowserParse(s, decode) == Delivers(head, decode) + BrowserParse(tail, decode)
  {
    ParseFirst(s, i, decode);
  }

  lemma PartsBehind(r: string, y: string, i: nat)
    requires NoBlank(r) && !EndsLine(r) && !StartsEmpty(y) && IndexOfBlank(y) == Some(i)
    ensures var s, k := r + "\n" + y, |r| + 1 + i;
      IndexOfBlank(s) == Some(k) && s[..k] == r + "\n" + y[..i] && s[k + 2..] == y[i + 2..]
  {
    BlankBehind(r, y);
    Around(r + "\n", y, i);
  }

  lemma ParseMore<J>(r: string, y: string, i: nat, decode: string -> Option<J>)
    requires NoBlank(r) && !EndsLine(r) && !StartsEmpty(y) && IndexOfBlank(y) == Some(i)
    ensures BrowserParse(r + "\n" + y, decode)
         == Delivers(r + "\n" + y[..i], decode) + BrowserParse(y[i + 2..], decode)
  {
    PartsBehind(r, y, i);
    ParseParts(r + "\n" + y, |r| + 1 + i, r + "\n" + y[..i], y[i + 2..], decode);
  }

  lemma Around(head: string, y: string, i: nat)
    requires i + 2 <= |y|
    ensures (head + y)[..|head| + i] == head + y[..i] && (head + y)[|head| + i + 2..] == y[i + 2..]
  {
  }

  lemma ParseOpen<J>(r: string, y: string, decode: string -> Option<J>)
    requires NoBlank(r) && !EndsLine(r) && !StartsEmpty(y) && IndexOfBlank(y).None?
    ensures BrowserParse(r + "\n" + y, decode) == []
  {
    BlankBehind(r, y);
    ParseNone(r + "\n" + y, decode);
  }

  lemma DeliversEmptyFirst<J>(t: string, decode: string -> Option<J>)
    ensures Delivers("\n" + t, decode) == Delivers(t, decode)
  {
    assert "\n" + t == "" + "\n" + t;
    LinesStep("", t);
    assert ([""] + Lines(t))[1..] == Lines(t);
  }

  lemma DeliversNothing<J>(decode: string -> Option<J>)
    ensures Delivers("", decode) == []
  {
    LinesOfOne("");
    assert [""][1..] == [];
  }

  /** An empty first line makes no difference. */
  lemma {:induction false} EmptyFirst<J>(y: string, decode: string -> Option<J>)
    ensures BrowserParse("\n" + y, decode) == BrowserParse(y, decode)
    decreases |y|
  {
    assert "" + "\n" + y == "\n" + y;
    if StartsEmpty(y) {
      ParseEmpty("", y, decode);
      DeliversNothing(decode);
      assert y == "\n" + y[1..];
      EmptyFirst(y[1..], decode);
    } else if IndexOfBlank(y).Some? {
      var i := IndexOfBlank(y).value;
      ParseMore("", y, i, decode);
      ParseFirst(y, i, decode);
      assert "" + "\n" + y[..i] == "\n" + y[..i];
      DeliversEmptyFirst(y[..i], decode);
    } else {
      ParseOpen("", y, decode);
      ParseNone(y, decode);
    }
  }

  /** A line with a carriage return and nothing else is skipped. */
  lemma DeliversReturn<J>(c: string, decode: string -> Option<J>)
    ensures Delivers(c + "\n" + "\r", decode) == Delivers(c, decode)
  {
    LinesOfJoin(c, "\r");
    LinesOfOne("\r");
    BrowserSnoc(FRESH, Lines(c), "\r");
    assert IndexOfChar("\r", ':') == 1;
  }

  // ---- one pair ----------------------------------------------------------------------------

  lemma CancelBehind<T>(a: seq<T>, b: seq<T>, tail: seq<T>)
    ensures a + tail == b + tail <==> a == b
  {
    if a + tail == b + tail {
      assert |a| == |b| && (a + tail)[..|a|] == a && (b + tail)[..|b|] == b;
    }
  }

  lemma CancelBefore<T>(head: seq<T>, a: seq<T>, b: seq<T>)
    ensures head + a == head + b <==> a == b
  {
    if head + a == head + b {
      assert (head + a)[|head|..] == a && (head + b)[|head|..] == b;
    }
  }

  lemma ReturnKeepsOpen(r: string)
    requires NoBlank(r)
    ensures NoBlank(r + "\r") && !EndsLine(r + "\r")
  {
    forall j: nat ensures !Blank(r + "\r", j) {
      assert !Blank(r, j);
    }
  }

  lemma LineBefore(r: string)
    requires NoBlank(r) && EndsLine(r)
    ensures NoBlank(r[..|r| - 1]) && !EndsLine(r[..|r| - 1])
  {
    var c := r[..|r| - 1];
    forall j: nat ensures !Blank(c, j) {
      assert !Blank(r, j);
    }
    if EndsLine(c) {
      assert Blank(r, |r| - 2);
    }
  }

  /** The chunk behind which a pair is cut, with what it becomes: it goes on with a line that is skipped. */
  lemma UncutBlank<J>(c: string, y: string, decode: string -> Option<J>)
    requires NoBlank(c) && !EndsLine(c)
    ensures BrowserParse(c + "\n" + ("\n" + y), decode) == Delivers(c, decode) + BrowserParse(y, decode)
  {
    ParseEmpty(c, "\n" + y, decode);
    assert ("\n" + y)[1..] == y;
  }

  lemma BlankPairEmpty<J>(c: string, y: string, decode: string -> Option<J>)
    requires NoBlank(c + "\n" + "\r") && StartsEmpty(y)
    ensures BrowserParse(c + "\n" + "\r" + "\n" + y, decode) == Delivers(c, decode) + BrowserParse(y, decode)
  {
    ParseEmpty(c + "\n" + "\r", y, decode);
    DeliversReturn(c, decode);
    assert y == "\n" + y[1..];
    EmptyFirst(y[1..], decode);
  }

  lemma BlankPairMore<J>(c: string, y: string, i: nat, decode: string -> Option<J>)
    requires NoBlank(c + "\n" + "\r") && !StartsEmpty(y) && IndexOfBlank(y) == Some(i)
    ensures BrowserParse(c + "\n" + "\r" + "\n" + y, decode) == Delivers(c, decode) + BrowserParse(y, decode)
      <==> Delivers(c + "\n\r\n" + y[..i], decode) == Delivers(c, decode) + Delivers(y[..i], decode)
  {
    var merged, tail := c + "\n\r\n" + y[..i], BrowserParse(y[i + 2..], decode);
    ParseMore(c + "\n" + "\r", y, i, decode);
    assert c + "\n" + "\r" + "\n" + y[..i] == merged;
    ParseFirst(y, i, decode);
    Associate(Delivers(c, decode), Delivers(y[..i], decode), tail);
    CancelBehind(Delivers(merged, decode), Delivers(c, decode) + Delivers(y[..i], decode), tail);
  }

  lemma BlankPairOpen<J>(c: string, y: string, decode: string -> Option<J>)
    requires NoBlank(c + "\n" + "\r") && !StartsEmpty(y) && IndexOfBlank(y).None?
    ensures BrowserParse(c + "\n" + "\r" + "\n" + y, decode) == Delivers(c, decode) + BrowserParse(y, decode)
      <==> Delivers(c, decode) == []
  {
    ParseOpen(c + "\n" + "\r", y, decode);
    ParseNone(y, decode);
    assert Delivers(c, decode) + [] == Delivers(c, decode);
  }

  lemma BlankPair<J>(c: string, y: string, decode: string -> Option<J>)
    requires NoBlank(c) && !EndsLine(c) && NoBlank(c + "\n")
    ensures BrowserParse(c + "\n" + "\r" + "\n" + y, decode) == BrowserParse(c + "\n" + ("\n" + y), decode)
      <==> HarmlessBlank(c, y, decode)
  {
    ReturnKeepsOpen(c + "\n");
    UncutBlank(c, y, decode);
    if StartsEmpty(y) {
      BlankPairEmpty(c, y, decode);
    } else if IndexOfBlank(y).Some? {
      BlankPairMore(c, y, IndexOfBlank(y).value, decode);
    } else {
      BlankPairOpen(c, y, decode);
    }
  }

  lemma LinePairEmpty<J>(r: string, y: string, decode: string -> Option<J>)
    requires NoBlank(r) && !EndsLine(r) && NoBlank(r + "\r") && StartsEmpty(y)
    ensures BrowserParse(r + "\r" + "\n" + y, decode) == BrowserParse(r + "\n" + y, decode)
      <==> Delivers(r + "\r", decode) == Delivers(r, decode)
  {
    ParseEmpty(r + "\r", y, decode);
    ParseEmpty(r, y, decode);
    CancelBehind(Delivers(r + "\r", decode), Delivers(r, decode), BrowserParse(y[1..], decode));
  }

  lemma SameBehind<T>(a: seq<T>, b: seq<T>, x: seq<T>, y: seq<T>, tail: seq<T>)
    requires a == x + tail && b == y + tail
    ensures a == b <==> x == y
  {
    CancelBehind(x, y, tail);
  }

  lemma CutLine<J>(r: string, y: string, i: nat, decode: string -> Option<J>)
    requires NoBlank(r + "\r") && !StartsEmpty(y) && IndexOfBlank(y) == Some(i)
    ensures BrowserParse(r + "\r" + "\n" + y, decode)
         == Delivers(r + "\r\n" + y[..i], decode) + BrowserParse(y[i + 2..], decode)
  {
    ParseMore(r + "\r", y, i, decode);
    assert r + "\r" + "\n" + y[..i] == r + "\r\n" + y[..i];
  }

  lemma LinePair<J>(r: string, y: string, decode: string -> Option<J>)
    requires NoBlank(r) && !EndsLine(r)
    ensures BrowserParse(r + "\r" + "\n" + y, decode) == BrowserParse(r + "\n" + y, decode)
      <==> HarmlessLine(r, y, decode)
  {
    ReturnKeepsOpen(r);
    if StartsEmpty(y) {
      LinePairEmpty(r, y, decode);
    } else if IndexOfBlank(y).Some? {
      var i := IndexOfBlank(y).value;
      CutLine(r, y, i, decode);
      ParseMore(r, y, i, decode);
      SameBehind(BrowserParse(r + "\r" + "\n" + y, decode), BrowserParse(r + "\n" + y, decode),
                 Delivers(r + "\r\n" + y[..i], decode), Delivers(r + "\n" + y[..i], decode),
                 BrowserParse(y[i + 2..], decode));
    } else {
      ParseOpen(r + "\r", y, decode);
      ParseOpen(r, y, decode);
    }
  }

  lemma {:induction false} RestNoBlank(s: string)
    ensures NoBlank(Chunks(s).rest)
    decreases |s|
  {
    if IndexOfBlank(s).Some? {
      RestNoBlank(s[IndexOfBlank(s).value + 2..]);
    }
  }

  lemma ParseAppend<J>(x: string, more: string, decode: string -> Option<J>)
    ensures BrowserParse(x + more, decode) == BrowserParse(x, decode) + BrowserParse(Chunks(x).rest + more, decode)
  {
    ChunksAppend(x, more);
    DispatchedAppend(Chunks(x).chunks, Chunks(Chunks(x).rest + more).chunks, decode);
  }

  lemma RestPair<J>(r: string, y: string, decode: string -> Option<J>)
    requires NoBlank(r)
    ensures BrowserParse(r + "\r" + "\n" + y, decode) == BrowserParse(r + "\n" + y, decode) <==> Harmless(r, y, decode)
  {
    if EndsLine(r) {
      var c := r[..|r| - 1];
      LineBefore(r);
      assert r == c + "\n";
      assert r + "\n" + y == c + "\n" + ("\n" + y);
      BlankPair(c, y, decode);
    } else {
      LinePair(r, y, decode);
    }
  }

  lemma TextPair<J>(x: string, y: string, decode: string -> Option<J>)
    ensures BrowserParse(x + "\r\n" + y, decode) == BrowserParse(x + "\n" + y, decode)
      <==> Harmless(Chunks(x).rest, y, decode)
  {
    var r := Chunks(x).rest;
    RestNoBlank(x);
    RestPair(r, y, decode);
    Regrouped(x, y);
    Regrouped(r, y);
    ParseAppend(x, "\r\n" + y, decode);
    ParseAppend(x, "\n" + y, decode);
    CancelBefore(
      BrowserParse(x, decode), BrowserParse(r + ("\r\n" + y), decode), BrowserParse(r + ("\n" + y), decode));
  }

  lemma Regrouped(x: string, y: string)
    ensures x + "\r\n" + y == x + ("\r\n" + y) == x + "\r" + "\n" + y
    ensures x + "\n" + y == x + ("\n" + y)
  {
  }

  lemma NormalizedReturn(x: string)
    ensures Normalize(x + "\r") == Normalize(x) + "\r"
  {
    NormalizeAppend(x, "\r");
    NormalizeHead("\r");
  }

  lemma NormalizedFeed(y: string)
    ensures Normalize("\n" + y) == "\n" + Normalize(y)
  {
    NormalizeHead("\n" + y);
    assert ("\n" + y)[1..] == y;
  }

  lemma NormalizedWhole(x: string, y: string)
    ensures Normalize(x + ("\r\n" + y)) == Normalize(x) + ("\n" + Normalize(y))
  {
    var pair := "\r\n" + y;
    NormalizeAppend(x, pair);
    NormalizeHead(pair);
    assert pair[2..] == y;
  }

  lemma NormalizedPair(x: string, y: string)
    ensures JoinNormalized([x + "\r", "\n" + y]) == Normalize(x) + "\r\n" + Normalize(y)
    ensures JoinNormalized([x + "\r\n" + y]) == Normalize(x) + "\n" + Normalize(y)
  {
    NormalizedReturn(x);
    NormalizedFeed(y);
    NormalizedWhole(x, y);
    Regrouped(x, y);
    OnePiece(x + "\r", "\n" + y);
    OnePiece(x + "\r\n" + y, "");
    ReturnThenFeed(Normalize(x), Normalize(y));
  }

  lemma ReturnThenFeed(x: string, y: string)
    ensures x + "\r" + ("\n" + y) == x + "\r\n" + y && x + ("\n" + y) == x + "\n" + y
  {
  }

  lemma {:induction false} JoinedReads(a: seq<string>, b: seq<string>)
    ensures JoinNormalized(a + b) == JoinNormalized(a) + JoinNormalized(b)
  {
    if b == [] {
      assert a + b == a;
    } else {
      var front, last := b[..|b| - 1], b[|b| - 1];
      assert (a + b)[..|a + b| - 1] == a + front;
      JoinedReads(a, front);
      Associate(JoinNormalized(a), JoinNormalized(front), Normalize(last));
    }
  }

  lemma JoinedAround(before: seq<string>, middle: seq<string>, after: seq<string>)
    ensures JoinNormalized(before + middle + after)
         == JoinNormalized(before) + JoinNormalized(middle) + JoinNormalized(after)
  {
    JoinedReads(before + middle, after);
    JoinedReads(before, middle);
  }

  lemma Spread(a: string, x: string, mid: string, y: string, b: string)
    ensures a + (x + mid + y) + b == (a + x) + mid + (y + b)
  {
  }

  /**
   * Among any reads, a pair cut between two of them leaves the delivered events as they are if and only if it is
   * harmless where it is.
   */
  lemma {:induction false} CutPairIff<J>(
    before: seq<string>, x: string, y: string, after: seq<string>, decode: string -> Option<J>)
    ensures BrowserParse(JoinNormalized(before + [x + "\r", "\n" + y] + after), decode)
         == BrowserParse(JoinNormalized(before + [x + "\r\n" + y] + after), decode)
      <==> Harmless(Chunks(JoinNormalized(before) + Normalize(x)).rest, Normalize(y) + JoinNormalized(after), decode)
  {
    var a, b := JoinNormalized(before), JoinNormalized(after);
    NormalizedPair(x, y);
    JoinedAround(before, [x + "\r", "\n" + y], after);
    JoinedAround(before, [x + "\r\n" + y], after);
    Spread(a, Normalize(x), "\r\n", Normalize(y), b);
    Spread(a, Normalize(x), "\n", Normalize(y), b);
    TextPair(a + Normalize(x), Normalize(y) + b, decode);
  }

  /** Cut in the blank line between two events, or behind the last one, a pair always does harm. */
  lemma {:induction false} BetweenEvents<J>(c: string, y: string, decode: string -> Option<J>)
    requires Delivers(c, decode) != [] && !StartsEmpty(y)
    requires IndexOfBlank(y).Some? ==> Delivers(y[..IndexOfBlank(y).value], decode) != []
    ensures !HarmlessBlank(c, y, decode)
  {
  }
}
