/** The order in which evidence is found: breadth first, each node's triples together as they were stored. */
module EvidenceOrder {
  import opened Sequences
  import opened EvidenceGraph

  function ObjectsOf(ts: seq<Triple>): (objects: seq<string>)
    ensures |objects| == |ts| && forall i :: 0 <= i < |ts| ==> objects[i] == ts[i].object_
  {
    seq(|ts|, i requires 0 <= i < |ts| => ts[i].object_)
  }

  function TriplesOf(out: seq<Evidence>): (ts: seq<Triple>)
    ensures |ts| == |out| && forall i :: 0 <= i < |out| ==> ts[i] == out[i].triple
  {
    seq(|out|, i requires 0 <= i < |out| => out[i].triple)
  }

  /** All the triples stored under these subjects, subject by subject. */
  function StoredUnder(g: Graph, names: seq<string>): seq<Triple> {
    if names == [] then [] else Of(g, names[0]) + StoredUnder(g, names[1..])
  }

  // ---- sequences in parts ------------------------------------------------------------------

  lemma {:induction false} StoredAppend(g: Graph, a: seq<string>, b: seq<string>)
    ensures StoredUnder(g, a + b) == StoredUnder(g, a) + StoredUnder(g, b)
  {
    if a == [] {
      assert a + b == b;
    } else {
      assert (a + b)[1..] == a[1..] + b;
      StoredAppend(g, a[1..], b);
    }
  }

  lemma ObjectsAppend(a: seq<Triple>, b: seq<Triple>)
    ensures ObjectsOf(a + b) == ObjectsOf(a) + ObjectsOf(b)
  {
  }

  lemma TriplesAppend(a: seq<Evidence>, b: seq<Evidence>)
    ensures TriplesOf(a + b) == TriplesOf(a) + TriplesOf(b)
  {
  }

  lemma ObjectsElems(ts: seq<Triple>)
    ensures Elems(ObjectsOf(ts)) == Objects(ts)
  {
    forall x ensures x in Elems(ObjectsOf(ts)) <==> x in Objects(ts) {
      if x in Objects(ts) {
        var t :| t in ts && t.object_ == x;
        var i :| 0 <= i < |ts| && ts[i] == t;
        assert ObjectsOf(ts)[i] == x;
      }
    }
  }

  lemma {:induction false} DistinctFirst(s: seq<string>)
    requires Distinct(s)
    ensures FirstOccurrences(s) == s
  {
    if s != [] {
      DistinctFirst(s[..|s| - 1]);
      assert s == s[..|s| - 1] + [s[|s| - 1]];
    }
  }

  /** First occurrences gathered in two parts. */
  lemma {:induction false} FirstThen(a: seq<string>, b: seq<string>)
    ensures FirstOccurrences(a + b) == FirstOccurrences(FirstOccurrences(a) + b)
  {
    var f := FirstOccurrences(a);
    FirstOccurrencesAre(a);
    if b == [] {
      assert a + b == a && f + b == f;
      DistinctFirst(f);
    } else {
      var front, last := b[..|b| - 1], b[|b| - 1];
      assert (a + b)[..|a + b| - 1] == a + front && (f + b)[..|f + b| - 1] == f + front;
      FirstThen(a, front);
      assert last in a <==> last in Elems(a);
      assert last in f <==> last in Elems(f);
    }
  }

  lemma {:induction false} FirstKeepsFront(a: seq<string>, b: seq<string>)
    requires Distinct(a)
    ensures IsPrefix(a, FirstOccurrences(a + b))
  {
    if b == [] {
      assert a + b == a;
      DistinctFirst(a);
    } else {
      assert (a + b)[..|a + b| - 1] == a + b[..|b| - 1];
      FirstKeepsFront(a, b[..|b| - 1]);
    }
  }

  // ---- what a node and a level discover ----------------------------------------------------

  /** What one node discovers are the first occurrences among its objects of what was not known. */
  lemma {:induction false} DiscoveredInOrder(e: Entry, ts: seq<Triple>, known: seq<string>)
    requires Distinct(known)
    ensures FirstOccurrences(known + ObjectsOf(ts)) == known + Names(Discovered(e, ts, Elems(known)))
  {
    if ts == [] {
      assert known + ObjectsOf(ts) == known && known + [] == known;
      DistinctFirst(known);
    } else {
      DiscoveredInOrder(e, ts[..|ts| - 1], known);
      DiscoveredNext(e, ts[..|ts| - 1], ts[|ts| - 1], known);
      assert ts == ts[..|ts| - 1] + [ts[|ts| - 1]];
    }
  }

  lemma FirstSnoc(xs: seq<string>, x: string)
    ensures FirstOccurrences(xs + [x]) == FirstOccurrences(xs) + if x in xs then [] else [x]
  {
    assert (xs + [x])[..|xs|] == xs;
  }

  lemma DiscoveredSnoc(e: Entry, front: seq<Triple>, last: Triple, seen: set<string>)
    ensures Names(Discovered(e, front + [last], seen))
         == Names(Discovered(e, front, seen)) + if last.object_ in seen + Objects(front) then [] else [last.object_]
  {
    assert (front + [last])[..|front|] == front;
    NamesAppend(Discovered(e, front, seen), [Entry(last.object_, Follow(e, last))]);
    assert Names([Entry(last.object_, Follow(e, last))]) == [last.object_];
  }

  lemma DiscoveredNext(e: Entry, front: seq<Triple>, last: Triple, known: seq<string>)
    requires FirstOccurrences(known + ObjectsOf(front)) == known + Names(Discovered(e, front, Elems(known)))
    ensures FirstOccurrences(known + ObjectsOf(front + [last]))
         == known + Names(Discovered(e, front + [last], Elems(known)))
  {
    ObjectsSnoc(known, front, last);
    FirstSnoc(known + ObjectsOf(front), last.object_);
    DiscoveredSnoc(e, front, last, Elems(known));
    Glue(known, Names(Discovered(e, front, Elems(known))), last.object_, last.object_ in known + ObjectsOf(front));
  }

  lemma ObjectsSnoc(known: seq<string>, front: seq<Triple>, last: Triple)
    ensures known + ObjectsOf(front + [last]) == known + ObjectsOf(front) + [last.object_]
    ensures last.object_ in known + ObjectsOf(front) <==> last.object_ in Elems(known) + Objects(front)
  {
    ObjectsElems(front);
    KnownOrMet(known, ObjectsOf(front), last.object_);
  }

  lemma Glue<T>(a: seq<T>, b: seq<T>, x: T, c: bool)
    ensures a + b + (if c then [] else [x]) == a + (b + if c then [] else [x])
  {
  }

  lemma KnownOrMet(a: seq<string>, b: seq<string>, x: string)
    ensures x in a + b <==> x in Elems(a) + Elems(b)
  {
  }

  lemma KnownGrows(known: seq<string>, e: Entry, ts: seq<Triple>)
    requires Distinct(known)
    ensures var next := known + Names(Discovered(e, ts, Elems(known)));
      Distinct(next) && Elems(next) == Elems(known) + Objects(ts)
  {
    DiscoveredInOrder(e, ts, known);
    FirstOccurrencesAre(known + ObjectsOf(ts));
    ObjectsElems(ts);
    assert Elems(known + ObjectsOf(ts)) == Elems(known) + Elems(ObjectsOf(ts));
  }

  /** The same of a whole level. */
  lemma {:induction false} LevelInOrder(g: Graph, level: seq<Entry>, known: seq<string>)
    requires Distinct(known)
    ensures FirstOccurrences(known + ObjectsOf(StoredUnder(g, Names(level))))
         == known + Names(NextLevel(g, level, Elems(known)))
  {
    if level == [] {
      assert Names(level) == [] && known + ObjectsOf([]) == known && known + [] == known;
      DistinctFirst(known);
    } else {
      var e, ts := level[0], Of(g, level[0].name);
      var found := Names(Discovered(e, ts, Elems(known)));
      var rest := StoredUnder(g, Names(level[1..]));
      assert Names(level) == [e.name] + Names(level[1..]);
      assert StoredUnder(g, Names(level)) == ts + rest;
      ObjectsAppend(ts, rest);
      Associate(known, ObjectsOf(ts), ObjectsOf(rest));
      FirstThen(known + ObjectsOf(ts), ObjectsOf(rest));
      DiscoveredInOrder(e, ts, known);
      KnownGrows(known, e, ts);
      LevelInOrder(g, level[1..], known + found);
      NamesAppend(Discovered(e, ts, Elems(known)), NextLevel(g, level[1..], Elems(known) + Objects(ts)));
      Associate(known, found, Names(NextLevel(g, level[1..], Elems(known) + Objects(ts))));
    }
  }

  lemma {:induction false} LevelTriples(g: Graph, level: seq<Entry>, d: nat)
    ensures TriplesOf(LevelEvidence(g, level, d)) == StoredUnder(g, Names(level))
  {
    if level == [] {
      assert Names(level) == [];
    } else {
      var ts := Of(g, level[0].name);
      LevelTriples(g, level[1..], d);
      TriplesAppend(Evidences(level[0], d, ts), LevelEvidence(g, level[1..], d));
      assert TriplesOf(Evidences(level[0], d, ts)) == ts;
      assert Names(level) == [level[0].name] + Names(level[1..]);
    }
  }

  // ---- the whole search --------------------------------------------------------------------

  lemma {:induction false} LevelObjectsElems(g: Graph, level: seq<Entry>)
    ensures Elems(ObjectsOf(StoredUnder(g, Names(level)))) == LevelObjects(g, level)
  {
    if level == [] {
      assert Names(level) == [];
    } else {
      var ts, rest := Of(g, level[0].name), StoredUnder(g, Names(level[1..]));
      assert Names(level) == [level[0].name] + Names(level[1..]);
      assert StoredUnder(g, Names(level)) == ts + rest;
      ObjectsAppend(ts, rest);
      ObjectsElems(ts);
      LevelObjectsElems(g, level[1..]);
      assert Elems(ObjectsOf(ts) + ObjectsOf(rest)) == Elems(ObjectsOf(ts)) + Elems(ObjectsOf(rest));
    }
  }

  /** What is known after a level: distinct, and what was known before together with the level's objects. */
  lemma KnownAfter(g: Graph, level: seq<Entry>, known: seq<string>)
    requires Distinct(known)
    ensures var next := known + Names(NextLevel(g, level, Elems(known)));
      && next == FirstOccurrences(known + ObjectsOf(StoredUnder(g, Names(level))))
      && Distinct(next) && Elems(next) == Elems(known) + LevelObjects(g, level)
  {
    var met := ObjectsOf(StoredUnder(g, Names(level)));
    LevelInOrder(g, level, known);
    FirstOccurrencesAre(known + met);
    LevelObjectsElems(g, level);
    assert Elems(known + met) == Elems(known) + Elems(met);
  }

  lemma {:induction false} ExploreInOrder(
    g: Graph, before: seq<string>, level: seq<Entry>, d: nat, maxHops: nat) returns (names: seq<string>)
    requires Distinct(before + Names(level))
    ensures var known := before + Names(level);
      var ts := TriplesOf(Explore(g, level, Elems(known), d, maxHops));
      ts == StoredUnder(g, names) && IsPrefix(before + names, FirstOccurrences(known + ObjectsOf(ts)))
    decreases maxHops - d
  {
    var known := before + Names(level);
    names := [];
    if d >= maxHops {
      assert TriplesOf([]) == [] && ObjectsOf([]) == [] && known + [] == known;
      DistinctFirst(known);
    } else {
      var next := NextLevel(g, level, Elems(known));
      KnownAfter(g, level, known);
      var rest := ExploreInOrder(g, known, next, d + 1, maxHops);
      names := Names(level) + rest;
      InTwoParts(g, level, known, d, maxHops, rest);
      Associate(before, Names(level), rest);
    }
  }

  lemma InTwoParts(g: Graph, level: seq<Entry>, known: seq<string>, d: nat, maxHops: nat, rest: seq<string>)
    requires Distinct(known) && d < maxHops
    requires var next := NextLevel(g, level, Elems(known));
      var known' := known + Names(next);
      var ts := TriplesOf(Explore(g, next, Elems(known'), d + 1, maxHops));
      ts == StoredUnder(g, rest) && IsPrefix(known + rest, FirstOccurrences(known' + ObjectsOf(ts)))
    ensures var ts := TriplesOf(Explore(g, level, Elems(known), d, maxHops));
      ts == StoredUnder(g, Names(level) + rest) && IsPrefix(known + rest, FirstOccurrences(known + ObjectsOf(ts)))
  {
    var next := NextLevel(g, level, Elems(known));
    var a, b := LevelEvidence(g, level, d), Explore(g, next, Elems(known + Names(next)), d + 1, maxHops);
    KnownAfter(g, level, known);
    LevelTriples(g, level, d);
    TriplesAppend(a, b);
    StoredAppend(g, Names(level), rest);
    ObjectsAppend(TriplesOf(a), TriplesOf(b));
    Associate(known, ObjectsOf(TriplesOf(a)), ObjectsOf(TriplesOf(b)));
    FirstThen(known + ObjectsOf(TriplesOf(a)), ObjectsOf(TriplesOf(b)));
  }

  /**
   * The triples found from one seed are those stored under a list of subjects, subject by subject as they were stored;
   * the subjects are the seed and then, from the front, the objects found, by where each is found first.
   */
  lemma {:induction false} BreadthFirst(g: Graph, seed: string, maxHops: nat) returns (names: seq<string>)
    ensures var ts := TriplesOf(SeedEvidence(g, seed, maxHops));
      ts == StoredUnder(g, names) && IsPrefix(names, FirstOccurrences([seed] + ObjectsOf(ts)))
  {
    var level := [Entry(seed, [seed])];
    assert [] + Names(level) == [seed] && Elems([seed]) == {seed};
    names := ExploreInOrder(g, [], level, 0, maxHops);
    assert [] + names == names;
  }
}
