/** Facts about finite sequences that several components rely on. */
module Sequences {

  function Elems<T>(s: seq<T>): set<T> {
    set x | x in s
  }

  ghost predicate Distinct<T>(s: seq<T>) {
    forall i, j :: 0 <= i < j < |s| ==> s[i] != s[j]
  }

  ghost predicate IsPrefix<T>(s: seq<T>, t: seq<T>) {
    |s| <= |t| && s == t[..|s|]
  }

  /** A sequence never has fewer positions than values; it has equally many exactly when no value repeats. */
  lemma {:induction false} DistinctByCount<T>(s: seq<T>)
    ensures |Elems(s)| <= |s|
    ensures |Elems(s)| == |s| <==> Distinct(s)
  {
    if s == [] {
    } else {
      var last := s[|s| - 1];
      var front := s[..|s| - 1];
      DistinctByCount(front);
      assert s == front + [last];
      assert Elems(s) == Elems(front) + {last};
      if last in front {
        assert Elems(s) == Elems(front);
        assert !Distinct(s);
      } else if Distinct(front) {
        assert Distinct(s);
      } else {
        var i, j :| 0 <= i < j < |front| && front[i] == front[j];
        assert s[i] == s[j];
      }
    }
  }

  lemma Snoc<T>(s: seq<T>, x: T)
    ensures Elems(s + [x]) == Elems(s) + {x}
    ensures Distinct(s + [x]) <==> Distinct(s) && x !in s
  {
    var t := s + [x];
    assert forall i :: 0 <= i < |s| ==> t[i] == s[i];
    assert t[|s|] == x;
    assert t[..|s|] == s;
    if Distinct(t) {
      forall i | 0 <= i < |s| ensures s[i] != x {
        assert t[i] != t[|s|];
      }
    }
  }

  lemma SubsetCount<T>(a: set<T>, b: set<T>)
    requires a <= b
    ensures |a| <= |b|
    ensures |a| == |b| ==> a == b
  {
    assert b == a + (b - a);
    assert |b| == |a| + |b - a|;
  }

  /** Distinct values taken from another sequence are at most as many, and exhaust it only by containing it. */
  lemma DistinctWithin<T>(s: seq<T>, t: seq<T>)
    requires Distinct(s)
    requires forall x :: x in s ==> x in t
    ensures |s| <= |t|
    ensures Distinct(t) ==> (|s| == |t| <==> forall x :: x in t ==> x in s)
  {
    DistinctByCount(s);
    DistinctByCount(t);
    assert Elems(s) <= Elems(t);
    SubsetCount(Elems(s), Elems(t));
    if Distinct(t) && |s| == |t| {
      forall x | x in t ensures x in s {
        assert x in Elems(t);
      }
    }
    if forall x :: x in t ==> x in s {
      assert Elems(s) == Elems(t);
    }
  }

  function IndexOf<T(==)>(s: seq<T>, x: T): (i: nat)
    requires x in s
    ensures i < |s| && s[i] == x
    ensures x !in s[..i]
  {
    if s[0] == x then 0 else 1 + IndexOf(s[1..], x)
  }

  lemma {:induction false} IndexIsFirst<T>(s: seq<T>, x: T, j: nat)
    requires j < |s| && s[j] == x
    ensures IndexOf(s, x) <= j
  {
    if s[0] != x {
      IndexIsFirst(s[1..], x, j - 1);
    }
  }

  /** The first `limit` elements; none when the limit is not positive. */
  function Take<T>(s: seq<T>, limit: int): seq<T> {
    if limit <= 0 then [] else if |s| <= limit then s else s[..limit]
  }

  lemma Associate<T>(a: seq<T>, b: seq<T>, c: seq<T>)
    ensures a + b + c == a + (b + c)
  {
  }

  /** Each value once, where it first occurs. */
  function FirstOccurrences<T(==)>(xs: seq<T>): seq<T> {
    if xs == [] then []
    else
      var front := FirstOccurrences(xs[..|xs| - 1]);
      if xs[|xs| - 1] in xs[..|xs| - 1] then front else front + [xs[|xs| - 1]]
  }

  lemma {:induction false} FirstOccurrencesAre<T>(xs: seq<T>)
    ensures Elems(FirstOccurrences(xs)) == Elems(xs) && Distinct(FirstOccurrences(xs))
  {
    if xs != [] {
      var front, last := xs[..|xs| - 1], xs[|xs| - 1];
      FirstOccurrencesAre(front);
      assert xs == front + [last];
      Snoc(front, last);
      Snoc(FirstOccurrences(front), last);
      assert last in FirstOccurrences(front) <==> last in Elems(FirstOccurrences(front));
      assert last in front <==> last in Elems(front);
    }
  }

  /** Distinct values of a sequence, all of them, by where each first occurs. */
  ghost predicate ByFirstOccurrence<T>(s: seq<T>, xs: seq<T>) {
    && Distinct(s) && Elems(s) == Elems(xs)
    && forall i, j :: 0 <= i < j < |s| ==> FirstBefore(xs, s[i], s[j])
  }

  /** Some position holds the one value with nothing of the other up to it. */
  ghost predicate FirstBefore<T>(xs: seq<T>, a: T, b: T) {
    exists p :: 0 <= p < |xs| && xs[p] == a && b !in xs[..p + 1]
  }

  lemma FirstBeforeGrows<T>(xs: seq<T>, x: T, a: T, b: T)
    requires FirstBefore(xs, a, b)
    ensures FirstBefore(xs + [x], a, b)
  {
    var p :| 0 <= p < |xs| && xs[p] == a && b !in xs[..p + 1];
    assert (xs + [x])[p] == a && (xs + [x])[..p + 1] == xs[..p + 1];
  }

  lemma FirstBeforeLast<T>(xs: seq<T>, a: T, b: T)
    requires a in xs && b !in xs
    ensures FirstBefore(xs + [b], a, b)
  {
    var p :| 0 <= p < |xs| && xs[p] == a;
    assert (xs + [b])[p] == a && (xs + [b])[..p + 1] == xs[..p + 1];
  }

  lemma {:induction false} FirstOccurrencesInOrder<T>(xs: seq<T>)
    ensures ByFirstOccurrence(FirstOccurrences(xs), xs)
  {
    FirstOccurrencesAre(xs);
    if xs != [] {
      var front, last := xs[..|xs| - 1], xs[|xs| - 1];
      var before, s := FirstOccurrences(front), FirstOccurrences(xs);
      assert xs == front + [last];
      FirstOccurrencesInOrder(front);
      FirstOccurrencesAre(front);
      forall i, j | 0 <= i < j < |s| ensures FirstBefore(xs, s[i], s[j]) {
        if j < |before| {
          FirstBeforeGrows(front, last, s[i], s[j]);
        } else {
          assert s[i] in Elems(before);
          FirstBeforeLast(front, s[i], last);
        }
      }
    }
  }
}
