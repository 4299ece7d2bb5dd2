/** The in-memory knowledge graph: storing triples and collecting evidence breadth first. */
module EvidenceGraph {
  import opened Results
  import opened Sequences

  datatype Triple = Triple(subject: string, relation: string, object_: string, sourceId: string)

  /** One piece of evidence: the stored triple, its hop count, and how the seed leads to it. */
  datatype Evidence = Evidence(triple: Triple, hops: nat, chain: seq<string>)

  type Graph = map<string, seq<Triple>>

  function Of(g: Graph, subject: string): seq<Triple> {
    if subject in g then g[subject] else []
  }

  ghost predicate WellFormed(g: Graph) {
    forall s :: s in g ==> Distinct(g[s]) && forall t :: t in g[s] ==> t.subject == s
  }

  // ---- distance ----------------------------------------------------------------------------

  ghost predicate Linked(g: Graph, a: string, b: string) {
    exists t :: t in Of(g, a) && t.object_ == b
  }

  /** Some walk of exactly k stored triples leads from a to b. */
  ghost predicate ReachIn(g: Graph, a: string, b: string, k: nat)
    decreases k
  {
    if k == 0 then a == b else exists m :: ReachIn(g, a, m, k - 1) && Linked(g, m, b)
  }

  ghost predicate Within(g: Graph, a: string, b: string, k: nat) {
    exists j: nat :: j <= k && ReachIn(g, a, b, j)
  }

  ghost predicate ShortestAt(g: Graph, a: string, b: string, k: nat) {
    ReachIn(g, a, b, k) && forall j: nat :: j < k ==> !ReachIn(g, a, b, j)
  }

  /** seed, relation, node, relation, node, …: every link is a stored triple. */
  ghost predicate IsChain(g: Graph, seed: string, chain: seq<string>, hops: nat) {
    && |chain| == 2 * hops + 1 && chain[0] == seed
    && forall i :: 0 <= i < hops ==> ChainLink(g, chain[2 * i], chain[2 * i + 1], chain[2 * i + 2])
  }

  ghost predicate ChainLink(g: Graph, a: string, relation: string, b: string) {
    exists t :: t in Of(g, a) && t.relation == relation && t.object_ == b
  }

  // ---- level by level ----------------------------------------------------------------------

  datatype Entry = Entry(name: string, chain: seq<string>)

  function Follow(e: Entry, t: Triple): seq<string> {
    e.chain + [t.relation, t.object_]
  }

  function Evidences(e: Entry, depth: nat, ts: seq<Triple>): (out: seq<Evidence>)
    ensures |out| == |ts|
    ensures forall i :: 0 <= i < |ts| ==> out[i] == Evidence(ts[i], depth + 1, Follow(e, ts[i]))
  {
    seq(|ts|, i requires 0 <= i < |ts| => Evidence(ts[i], depth + 1, Follow(e, ts[i])))
  }

  function Objects(ts: seq<Triple>): set<string> {
    set t | t in ts :: t.object_
  }

  /** The objects met for the first time, in order, each with the chain that met it. */
  function Discovered(e: Entry, ts: seq<Triple>, seen: set<string>): seq<Entry> {
    if ts == [] then []
    else
      var last := ts[|ts| - 1];
      var front := Discovered(e, ts[..|ts| - 1], seen);
      if last.object_ in seen + Objects(ts[..|ts| - 1]) then front
      else front + [Entry(last.object_, Follow(e, last))]
  }

  function LevelEvidence(g: Graph, level: seq<Entry>, depth: nat): seq<Evidence> {
    if level == [] then []
    else Evidences(level[0], depth, Of(g, level[0].name)) + LevelEvidence(g, level[1..], depth)
  }

  function LevelObjects(g: Graph, level: seq<Entry>): set<string> {
    if level == [] then {} else Objects(Of(g, level[0].name)) + LevelObjects(g, level[1..])
  }

  function NextLevel(g: Graph, level: seq<Entry>, seen: set<string>): seq<Entry> {
    if level == [] then []
    else
      var ts := Of(g, level[0].name);
      Discovered(level[0], ts, seen) + NextLevel(g, level[1..], seen + Objects(ts))
  }

  function Explore(g: Graph, level: seq<Entry>, seen: set<string>, depth: nat, maxHops: nat): seq<Evidence>
    decreases maxHops - depth
  {
    if depth >= maxHops then []
    else
      LevelEvidence(g, level, depth)
      + Explore(g, NextLevel(g, level, seen), seen + LevelObjects(g, level), depth + 1, maxHops)
  }

  /** Everything the search of one seed would collect without a limit. */
  function SeedEvidence(g: Graph, seed: string, maxHops: nat): seq<Evidence> {
    Explore(g, [Entry(seed, [seed])], {seed}, 0, maxHops)
  }

  function AllEvidence(g: Graph, seeds: seq<string>, maxHops: nat): seq<Evidence> {
    if seeds == [] then []
    else AllEvidence(g, seeds[..|seeds| - 1], maxHops) + SeedEvidence(g, seeds[|seeds| - 1], maxHops)
  }

  lemma TakeAppend<T>(a: seq<T>, b: seq<T>, limit: int)
    ensures Take(Take(a, limit) + b, limit) == Take(a + b, limit)
  {
  }

  // ---- what the levels are -----------------------------------------------------------------

  function Names(level: seq<Entry>): (names: seq<string>)
    ensures |names| == |level|
    ensures forall i :: 0 <= i < |level| ==> names[i] == level[i].name
  {
    seq(|level|, i requires 0 <= i < |level| => level[i].name)
  }

  lemma NamesAppend(a: seq<Entry>, b: seq<Entry>)
    ensures Names(a + b) == Names(a) + Names(b)
    ensures Elems(Names(a + b)) == Elems(Names(a)) + Elems(Names(b))
  {
    assert Names(a + b) == Names(a) + Names(b);
  }

  lemma DistinctAppend<T>(a: seq<T>, b: seq<T>)
    requires Distinct(a) && Distinct(b) && Elems(a) !! Elems(b)
    ensures Distinct(a + b)
  {
    forall i, j | 0 <= i < j < |a + b| ensures (a + b)[i] != (a + b)[j] {
      if i < |a| <= j {
        assert (a + b)[i] in Elems(a) && (a + b)[j] in Elems(b);
      }
    }
  }

  lemma {:induction false} DiscoveredNames(e: Entry, ts: seq<Triple>, seen: set<string>)
    ensures Distinct(Names(Discovered(e, ts, seen)))
    ensures Elems(Names(Discovered(e, ts, seen))) == Objects(ts) - seen
    ensures forall x :: x in Discovered(e, ts, seen) ==> exists t :: t in ts && x == Entry(t.object_, Follow(e, t))
  {
    if ts != [] {
      var last := ts[|ts| - 1];
      var front := ts[..|ts| - 1];
      DiscoveredNames(e, front, seen);
      assert ts == front + [last];
      assert Objects(ts) == Objects(front) + {last.object_};
      if last.object_ !in seen + Objects(front) {
        var x := Entry(last.object_, Follow(e, last));
        NamesAppend(Discovered(e, front, seen), [x]);
        assert Names([x]) == [x.name];
        Snoc(Names(Discovered(e, front, seen)), x.name);
        assert last.object_ !in Elems(Names(Discovered(e, front, seen)));
      }
    }
  }

  lemma {:induction false} LevelObjectsAre(g: Graph, level: seq<Entry>)
    ensures forall b :: b in LevelObjects(g, level) <==> exists x :: x in level && Linked(g, x.name, b)
  {
    if level != [] {
      LevelObjectsAre(g, level[1..]);
      assert level == [level[0]] + level[1..];
      forall b ensures b in Objects(Of(g, level[0].name)) <==> Linked(g, level[0].name, b) {
      }
    }
  }

  ghost predicate EntriesFrom(g: Graph, level: seq<Entry>, next: seq<Entry>) {
    forall x :: x in next ==> exists e, t :: e in level && t in Of(g, e.name) && x == Entry(t.object_, Follow(e, t))
  }

  lemma {:induction false} NextLevelNames(g: Graph, level: seq<Entry>, seen: set<string>)
    ensures Distinct(Names(NextLevel(g, level, seen)))
    ensures Elems(Names(NextLevel(g, level, seen))) == LevelObjects(g, level) - seen
    ensures EntriesFrom(g, level, NextLevel(g, level, seen))
  {
    if level != [] {
      var ts := Of(g, level[0].name);
      var a := Discovered(level[0], ts, seen);
      var b := NextLevel(g, level[1..], seen + Objects(ts));
      DiscoveredNames(level[0], ts, seen);
      NextLevelNames(g, level[1..], seen + Objects(ts));
      NamesAppend(a, b);
      DistinctAppend(Names(a), Names(b));
      assert level == [level[0]] + level[1..];
    }
  }

  /** The level at depth d holds, once each, exactly the nodes at shortest distance d; `seen` is everything within d. */
  ghost predicate LevelAt(g: Graph, seed: string, level: seq<Entry>, seen: set<string>, d: nat) {
    && Distinct(Names(level))
    && (forall b :: b in Elems(Names(level)) <==> ShortestAt(g, seed, b, d))
    && (forall b :: b in seen <==> Within(g, seed, b, d))
    && (forall x :: x in level ==> IsChain(g, seed, x.chain, d) && x.chain[2 * d] == x.name)
  }

  lemma FirstLevel(g: Graph, seed: string)
    ensures LevelAt(g, seed, [Entry(seed, [seed])], {seed}, 0)
  {
    assert Names([Entry(seed, [seed])]) == [seed];
    forall b ensures Within(g, seed, b, 0) <==> b == seed {
      assert ReachIn(g, seed, b, 0) <==> b == seed;
    }
  }

  lemma ChainStep(g: Graph, seed: string, e: Entry, t: Triple, d: nat)
    requires IsChain(g, seed, e.chain, d) && e.chain[2 * d] == e.name && t in Of(g, e.name)
    ensures IsChain(g, seed, Follow(e, t), d + 1) && Follow(e, t)[2 * (d + 1)] == t.object_
  {
    var chain := Follow(e, t);
    forall i | 0 <= i < d + 1 ensures ChainLink(g, chain[2 * i], chain[2 * i + 1], chain[2 * i + 2]) {
      if i < d {
        assert ChainLink(g, e.chain[2 * i], e.chain[2 * i + 1], e.chain[2 * i + 2]);
      }
    }
  }

  lemma WithinStep(g: Graph, seed: string, level: seq<Entry>, seen: set<string>, d: nat, b: string)
    requires LevelAt(g, seed, level, seen, d)
    ensures Within(g, seed, b, d + 1) <==> b in seen + LevelObjects(g, level)
    ensures ShortestAt(g, seed, b, d + 1) <==> b in LevelObjects(g, level) - seen
  {
    if b in LevelObjects(g, level) {
      ObjectIsReached(g, seed, level, seen, d, b);
    }
    if Within(g, seed, b, d) {
      var j: nat :| j <= d && ReachIn(g, seed, b, j);
      assert j <= d + 1;
    }
    if ReachIn(g, seed, b, d + 1) && !Within(g, seed, b, d) {
      ReachedIsObject(g, seed, level, seen, d, b);
    }
  }

  lemma ObjectIsReached(g: Graph, seed: string, level: seq<Entry>, seen: set<string>, d: nat, b: string)
    requires LevelAt(g, seed, level, seen, d) && b in LevelObjects(g, level)
    ensures ReachIn(g, seed, b, d + 1)
  {
    LevelObjectsAre(g, level);
    var x :| x in level && Linked(g, x.name, b);
    var i :| 0 <= i < |level| && level[i] == x;
    assert Names(level)[i] in Elems(Names(level));
  }

  lemma ReachedIsObject(g: Graph, seed: string, level: seq<Entry>, seen: set<string>, d: nat, b: string)
    requires LevelAt(g, seed, level, seen, d) && ReachIn(g, seed, b, d + 1) && !Within(g, seed, b, d)
    ensures b in LevelObjects(g, level)
  {
    LevelObjectsAre(g, level);
    var m :| ReachIn(g, seed, m, d) && Linked(g, m, b);
    PredecessorIsShortest(g, seed, m, b, d);
    assert m in Elems(Names(level));
    var i :| 0 <= i < |level| && Names(level)[i] == m;
    assert level[i] in level;
  }

  lemma PredecessorIsShortest(g: Graph, seed: string, m: string, b: string, d: nat)
    requires ReachIn(g, seed, m, d) && Linked(g, m, b) && !Within(g, seed, b, d)
    ensures ShortestAt(g, seed, m, d)
  {
    forall j: nat | j < d ensures !ReachIn(g, seed, m, j) {
      assert ReachIn(g, seed, m, j) ==> ReachIn(g, seed, b, j + 1);
    }
  }

  lemma {:induction false} LevelStep(g: Graph, seed: string, level: seq<Entry>, seen: set<string>, d: nat)
    requires LevelAt(g, seed, level, seen, d)
    ensures LevelAt(g, seed, NextLevel(g, level, seen), seen + LevelObjects(g, level), d + 1)
  {
    var next := NextLevel(g, level, seen);
    NextLevelNames(g, level, seen);
    forall b ensures (b in Elems(Names(next)) <==> ShortestAt(g, seed, b, d + 1))
      && (b in seen + LevelObjects(g, level) <==> Within(g, seed, b, d + 1))
    {
      WithinStep(g, seed, level, seen, d, b);
    }
    forall x | x in next ensures IsChain(g, seed, x.chain, d + 1) && x.chain[2 * (d + 1)] == x.name {
      var e, t :| e in level && t in Of(g, e.name) && x == Entry(t.object_, Follow(e, t));
      ChainStep(g, seed, e, t, d);
    }
  }

  // ---- what the evidence is ----------------------------------------------------------------

  /** The evidence stands for a stored triple whose subject is at shortest distance hops - 1, reached by its chain. */
  ghost predicate Genuine(g: Graph, seed: string, ev: Evidence) {
    && ev.hops >= 1
    && ev.triple in Of(g, ev.triple.subject)
    && ShortestAt(g, seed, ev.triple.subject, ev.hops - 1)
    && IsChain(g, seed, ev.chain, ev.hops)
    && ev.chain[2 * ev.hops - 2..] == [ev.triple.subject, ev.triple.relation, ev.triple.object_]
  }

  ghost predicate NoRepeats(out: seq<Evidence>) {
    forall i, j :: 0 <= i < j < |out| ==> out[i].triple != out[j].triple
  }

  ghost predicate Mentions(out: seq<Evidence>, t: Triple) {
    exists i :: 0 <= i < |out| && out[i].triple == t
  }

  lemma MentionsAppend(a: seq<Evidence>, b: seq<Evidence>, t: Triple)
    ensures Mentions(a + b, t) <==> Mentions(a, t) || Mentions(b, t)
  {
    if Mentions(a, t) {
      var i :| 0 <= i < |a| && a[i].triple == t;
      assert (a + b)[i].triple == t;
    }
    if Mentions(b, t) {
      var i :| 0 <= i < |b| && b[i].triple == t;
      assert (a + b)[|a| + i].triple == t;
    }
  }

  lemma NoRepeatsAppend(a: seq<Evidence>, b: seq<Evidence>)
    requires NoRepeats(a) && NoRepeats(b) && forall t :: !(Mentions(a, t) && Mentions(b, t))
    ensures NoRepeats(a + b)
  {
    forall i, j | 0 <= i < j < |a + b| ensures (a + b)[i].triple != (a + b)[j].triple {
      assert i < |a| <= j ==> Mentions(a, (a + b)[i].triple) && Mentions(b, (a + b)[j].triple);
    }
  }

  ghost predicate OfLevel(g: Graph, level: seq<Entry>, t: Triple) {
    t in Of(g, t.subject) && t.subject in Elems(Names(level))
  }

  lemma {:induction false} LevelMentions(g: Graph, level: seq<Entry>, d: nat)
    requires WellFormed(g) && Distinct(Names(level))
    ensures NoRepeats(LevelEvidence(g, level, d))
    ensures forall t :: Mentions(LevelEvidence(g, level, d), t) <==> OfLevel(g, level, t)
  {
    if level != [] {
      var ts := Of(g, level[0].name);
      var a := Evidences(level[0], d, ts);
      var b := LevelEvidence(g, level[1..], d);
      assert Names(level) == [level[0].name] + Names(level[1..]);
      LevelMentions(g, level[1..], d);
      forall t ensures Mentions(a, t) <==> t in ts {
        if t in ts {
          var i :| 0 <= i < |ts| && ts[i] == t;
          assert a[i].triple == t;
        }
      }
      forall t ensures Mentions(a + b, t) <==> Mentions(a, t) || Mentions(b, t) {
        MentionsAppend(a, b, t);
      }
      assert level[0].name !in Elems(Names(level[1..]));
      NoRepeatsAppend(a, b);
    }
  }

  ghost predicate EntryAt(g: Graph, seed: string, x: Entry, d: nat) {
    ShortestAt(g, seed, x.name, d) && IsChain(g, seed, x.chain, d) && x.chain[2 * d] == x.name
  }

  lemma EntryGenuine(g: Graph, seed: string, e: Entry, d: nat, t: Triple)
    requires WellFormed(g) && EntryAt(g, seed, e, d) && t in Of(g, e.name)
    ensures Genuine(g, seed, Evidence(t, d + 1, Follow(e, t)))
  {
    ChainStep(g, seed, e, t, d);
    assert Follow(e, t)[2 * d..] == [e.name, t.relation, t.object_];
  }

  lemma {:induction false} LevelGenuine(g: Graph, seed: string, level: seq<Entry>, d: nat)
    requires WellFormed(g) && forall x :: x in level ==> EntryAt(g, seed, x, d)
    ensures forall ev :: ev in LevelEvidence(g, level, d) ==> ev.hops == d + 1 && Genuine(g, seed, ev)
  {
    if level != [] {
      var e := level[0];
      assert e in level;
      LevelGenuine(g, seed, level[1..], d);
      var out := Evidences(e, d, Of(g, e.name));
      forall ev | ev in out ensures ev.hops == d + 1 && Genuine(g, seed, ev) {
        var i :| 0 <= i < |out| && out[i] == ev;
        EntryGenuine(g, seed, e, d, Of(g, e.name)[i]);
      }
    }
  }

  /** Stored triples whose subject lies at shortest distance at least d and below maxHops. */
  ghost predicate InRange(g: Graph, seed: string, t: Triple, d: nat, maxHops: nat) {
    t in Of(g, t.subject) && exists k: nat :: d <= k < maxHops && ShortestAt(g, seed, t.subject, k)
  }

  ghost predicate HopsOrdered(out: seq<Evidence>, least: nat) {
    && (forall i :: 0 <= i < |out| ==> least <= out[i].hops)
    && forall i, j :: 0 <= i < j < |out| ==> out[i].hops <= out[j].hops
  }

  lemma {:induction false} ExploreIs(g: Graph, seed: string, level: seq<Entry>, seen: set<string>, d: nat, maxHops: nat)
    requires WellFormed(g) && LevelAt(g, seed, level, seen, d)
    ensures var out := Explore(g, level, seen, d, maxHops);
      && NoRepeats(out) && HopsOrdered(out, d + 1)
      && (forall ev :: ev in out ==> Genuine(g, seed, ev) && ev.hops <= maxHops)
      && (forall t :: Mentions(out, t) <==> InRange(g, seed, t, d, maxHops))
    decreases maxHops - d
  {
    if d < maxHops {
      var a := LevelEvidence(g, level, d);
      LevelStep(g, seed, level, seen, d);
      var b := Explore(g, NextLevel(g, level, seen), seen + LevelObjects(g, level), d + 1, maxHops);
      ExploreIs(g, seed, NextLevel(g, level, seen), seen + LevelObjects(g, level), d + 1, maxHops);
      LevelMentions(g, level, d);
      LevelEntries(g, seed, level, seen, d);
      LevelGenuine(g, seed, level, d);
      LevelThenRest(g, seed, a, b, d, maxHops);
      NearerFirst(g, seed, a, b, d, maxHops);
    }
  }

  lemma NearerFirst(g: Graph, seed: string, a: seq<Evidence>, b: seq<Evidence>, d: nat, maxHops: nat)
    requires d < maxHops && HopsOrdered(b, d + 2)
    requires forall ev :: ev in a ==> ev.hops == d + 1 && Genuine(g, seed, ev)
    requires forall ev :: ev in b ==> Genuine(g, seed, ev) && ev.hops <= maxHops
    ensures HopsOrdered(a + b, d + 1)
    ensures forall ev :: ev in a + b ==> Genuine(g, seed, ev) && ev.hops <= maxHops
  {
    forall i | 0 <= i < |a + b| ensures d + 1 <= (a + b)[i].hops && (i < |a| ==> (a + b)[i].hops == d + 1) {
      if i < |a| {
        assert (a + b)[i] in a;
      }
    }
  }

  lemma LevelThenRest(g: Graph, seed: string, a: seq<Evidence>, b: seq<Evidence>, d: nat, maxHops: nat)
    requires d < maxHops && NoRepeats(a) && NoRepeats(b)
    requires forall t :: Mentions(a, t) <==> t in Of(g, t.subject) && ShortestAt(g, seed, t.subject, d)
    requires forall t :: Mentions(b, t) <==> InRange(g, seed, t, d + 1, maxHops)
    ensures NoRepeats(a + b) && forall t :: Mentions(a + b, t) <==> InRange(g, seed, t, d, maxHops)
  {
    forall t ensures Mentions(a + b, t) <==> InRange(g, seed, t, d, maxHops) {
      MentionsAppend(a, b, t);
      RangeSplit(g, seed, t, d, maxHops);
    }
    forall t ensures !(Mentions(a, t) && Mentions(b, t)) {
      assert InRange(g, seed, t, d + 1, maxHops) ==> !ShortestAt(g, seed, t.subject, d);
    }
    NoRepeatsAppend(a, b);
  }

  lemma LevelEntries(g: Graph, seed: string, level: seq<Entry>, seen: set<string>, d: nat)
    requires LevelAt(g, seed, level, seen, d)
    ensures forall x :: x in level ==> EntryAt(g, seed, x, d)
  {
    forall x | x in level ensures EntryAt(g, seed, x, d) {
      var i :| 0 <= i < |level| && level[i] == x;
      assert Names(level)[i] in Elems(Names(level));
    }
  }

  lemma RangeSplit(g: Graph, seed: string, t: Triple, d: nat, maxHops: nat)
    requires d < maxHops
    ensures InRange(g, seed, t, d, maxHops)
      <==> (t in Of(g, t.subject) && ShortestAt(g, seed, t.subject, d)) || InRange(g, seed, t, d + 1, maxHops)
  {
  }

  /**
   * Without a limit, one seed yields exactly the stored triples whose subject is nearer than maxHops, each once,
   * nearest first, with hops one more than the shortest distance and a chain that really leads there.
   */
  lemma {:induction false} SeedEvidenceIs(g: Graph, seed: string, maxHops: nat)
    requires WellFormed(g)
    ensures var out := SeedEvidence(g, seed, maxHops);
      && NoRepeats(out) && HopsOrdered(out, 1)
      && (forall ev :: ev in out ==> Genuine(g, seed, ev) && ev.hops <= maxHops)
      && (forall t :: Mentions(out, t) <==> InRange(g, seed, t, 0, maxHops))
  {
    FirstLevel(g, seed);
    ExploreIs(g, seed, [Entry(seed, [seed])], {seed}, 0, maxHops);
  }

  // ---- several seeds -----------------------------------------------------------------------

  /** What the search of one seed finds: the stored triples in range, each once, nearest first, with real chains. */
  ghost predicate IsEvidenceOf(g: Graph, seed: string, maxHops: nat, out: seq<Evidence>) {
    && NoRepeats(out) && HopsOrdered(out, 1)
    && (forall ev :: ev in out ==> Genuine(g, seed, ev) && ev.hops <= maxHops)
    && (forall t :: Mentions(out, t) <==> InRange(g, seed, t, 0, maxHops))
  }

  function Flat<T>(blocks: seq<seq<T>>): seq<T> {
    if blocks == [] then [] else Flat(blocks[..|blocks| - 1]) + blocks[|blocks| - 1]
  }

  /** One block of evidence for each seed. */
  ghost predicate BlockPerSeed(g: Graph, seeds: seq<string>, maxHops: nat, blocks: seq<seq<Evidence>>) {
    |blocks| == |seeds| && forall i :: 0 <= i < |seeds| ==> IsEvidenceOf(g, seeds[i], maxHops, blocks[i])
  }

  lemma {:induction false} AllEvidenceIs(g: Graph, seeds: seq<string>, maxHops: nat)
    returns (blocks: seq<seq<Evidence>>)
    requires WellFormed(g)
    ensures BlockPerSeed(g, seeds, maxHops, blocks) && AllEvidence(g, seeds, maxHops) == Flat(blocks)
  {
    blocks := [];
    if seeds != [] {
      var front := AllEvidenceIs(g, seeds[..|seeds| - 1], maxHops);
      var last := SeedEvidence(g, seeds[|seeds| - 1], maxHops);
      SeedEvidenceIs(g, seeds[|seeds| - 1], maxHops);
      blocks := front + [last];
      assert blocks[..|blocks| - 1] == front;
    }
  }

  /** The first entries of the evidence, block by block for the distinct entities by where each first occurs. */
  ghost predicate IsAnswer(
    g: Graph, entities: seq<string>, maxHops: nat, limit: int, seeds: seq<string>, blocks: seq<seq<Evidence>>,
    answer: seq<Evidence>)
  {
    && ByFirstOccurrence(seeds, entities) && BlockPerSeed(g, seeds, maxHops, blocks)
    && IsPrefix(answer, Flat(blocks))
    && |answer| == if limit < 0 then 0 else if limit < |Flat(blocks)| then limit else |Flat(blocks)|
  }

  // ---- the store ---------------------------------------------------------------------------

  datatype Queued = Queued(name: string, depth: nat, chain: seq<string>)

  ghost function Tagged(level: seq<Entry>, depth: nat): (queue: seq<Queued>)
    ensures |queue| == |level|
    ensures forall i :: 0 <= i < |level| ==> queue[i] == Queued(level[i].name, depth, level[i].chain)
  {
    seq(|level|, i requires 0 <= i < |level| => Queued(level[i].name, depth, level[i].chain))
  }

  /**
   * What is still to come when `cur` is what remains of the level at depth d and `next` the part of the next level
   * found so far.
   */
  ghost function Rest(
    g: Graph, cur: seq<Entry>, next: seq<Entry>, seen: set<string>, d: nat, maxHops: nat): seq<Evidence> {
    if d >= maxHops then []
    else
      LevelEvidence(g, cur, d)
      + Explore(g, next + NextLevel(g, cur, seen), seen + LevelObjects(g, cur), d + 1, maxHops)
  }

  lemma RestNextLevel(g: Graph, next: seq<Entry>, seen: set<string>, d: nat, maxHops: nat)
    requires next != [] ==> d < maxHops
    ensures Rest(g, [], next, seen, d, maxHops) == Rest(g, next, [], seen, d + 1, maxHops)
  {
    assert next + NextLevel(g, [], seen) == next;
    assert seen + LevelObjects(g, []) == seen;
    assert [] + NextLevel(g, next, seen) == NextLevel(g, next, seen);
  }

  lemma {:induction false} RestOfOne(
    g: Graph, cur: seq<Entry>, next: seq<Entry>, seen: set<string>, d: nat, maxHops: nat)
    requires cur != [] && d < maxHops
    ensures var ts := Of(g, cur[0].name);
      Rest(g, cur, next, seen, d, maxHops)
      == Evidences(cur[0], d, ts)
       + Rest(g, cur[1..], next + Discovered(cur[0], ts, seen), seen + Objects(ts), d, maxHops)
  {
    var ts := Of(g, cur[0].name);
    var found := Discovered(cur[0], ts, seen);
    OneOfLevel(g, cur, seen, d);
    Associate(next, found, NextLevel(g, cur[1..], seen + Objects(ts)));
    Associate(Evidences(cur[0], d, ts), LevelEvidence(g, cur[1..], d),
              Explore(g, next + NextLevel(g, cur, seen), seen + LevelObjects(g, cur), d + 1, maxHops));
  }

  lemma OneOfLevel(g: Graph, cur: seq<Entry>, seen: set<string>, d: nat)
    requires cur != []
    ensures var ts := Of(g, cur[0].name);
      && LevelEvidence(g, cur, d) == Evidences(cur[0], d, ts) + LevelEvidence(g, cur[1..], d)
      && NextLevel(g, cur, seen) == Discovered(cur[0], ts, seen) + NextLevel(g, cur[1..], seen + Objects(ts))
      && seen + LevelObjects(g, cur) == (seen + Objects(ts)) + LevelObjects(g, cur[1..])
  {
  }

  lemma {:induction false} ExploreNothing(g: Graph, seen: set<string>, d: nat, maxHops: nat)
    ensures Explore(g, [], seen, d, maxHops) == []
    decreases maxHops - d
  {
    if d < maxHops {
      ExploreNothing(g, seen, d + 1, maxHops);
      assert seen + LevelObjects(g, []) == seen;
    }
  }

  lemma RestOfNothing(g: Graph, seen: set<string>, d: nat, maxHops: nat)
    ensures Rest(g, [], [], seen, d, maxHops) == []
  {
    ExploreNothing(g, seen + LevelObjects(g, []), d + 1, maxHops);
    assert [] + NextLevel(g, [], seen) == [];
  }

  /** The graph g keeps what was stored, in place, and stores the given triples besides. */
  ghost predicate Extends(before: Graph, g: Graph, added: seq<Triple>) {
    && (forall s :: IsPrefix(Of(before, s), Of(g, s)))
    && forall t: Triple :: t in Of(g, t.subject) <==> t in Of(before, t.subject) || t in added
  }

  lemma UpsertOne(before: Graph, g: Graph, added: seq<Triple>, t: Triple)
    requires WellFormed(g) && Extends(before, g, added)
    ensures var have := Of(g, t.subject);
      var next := if t in have then g else g[t.subject := have + [t]];
      WellFormed(next) && Extends(before, next, added + [t])
  {
    var have := Of(g, t.subject);
    if t !in have {
      Snoc(have, t);
      var next := g[t.subject := have + [t]];
      forall s ensures IsPrefix(Of(before, s), Of(next, s)) {
        assert IsPrefix(Of(before, s), Of(g, s));
      }
    }
  }

  class InMemoryGraphStore {
    var outgoing: Graph

    constructor ()
      ensures outgoing == map[]
    {
      outgoing := map[];
    }

    /** Adds the triples that are not stored yet, after the stored ones of their subject. */
    method UpsertTriples(triples: seq<Triple>)
      requires WellFormed(outgoing)
      modifies this
      ensures WellFormed(outgoing)
      ensures Extends(old(outgoing), outgoing, triples)
    {
      for k := 0 to |triples|
        invariant WellFormed(outgoing) && Extends(old(outgoing), outgoing, triples[..k])
      {
        var t := triples[k];
        assert triples[..k + 1] == triples[..k] + [t];
        var have := Of(outgoing, t.subject);
        UpsertOne(old(outgoing), outgoing, triples[..k], t);
        if t !in have {
          outgoing := outgoing[t.subject := have + [t]];
        }
      }
      assert triples[..|triples|] == triples;
    }

    /**
     * Scans one node's triples until the limit is met. `best` holds the depth at which each known node was first met.
     */
    method ScanNode(e: Entry, depth: nat, maxHops: nat, limit: int, ts: seq<Triple>, found: seq<Evidence>,
                    waiting: seq<Queued>, known: map<string, nat>)
      returns (results: seq<Evidence>, queue: seq<Queued>, best: map<string, nat>)
      requires depth < maxHops && |found| < limit
      requires forall n :: n in known ==> known[n] <= depth + 1
      ensures results == Take(found + Evidences(e, depth, ts), limit)
      ensures |results| < limit ==> Scanned(e, depth, ts, waiting, known, queue, best)
    {
      results, queue, best := found, waiting, known;
      ghost var all := Evidences(e, depth, ts);
      assert found == found + all[..0];
      for k := 0 to |ts|
        invariant |results| < limit && results == found + all[..k]
        invariant Scanned(e, depth, ts[..k], waiting, known, queue, best)
      {
        var t := ts[k];
        ScanStep(e, depth, ts, k, waiting, known, queue, best);
        var nextDepth := depth + 1;
        var nextChain := Follow(e, t);
        results := results + [Evidence(t, nextDepth, nextChain)];
        PrefixGrows(found, all, k, limit);
        if nextDepth < (if t.object_ in best then best[t.object_] else maxHops + 1) {
          best := best[t.object_ := nextDepth];
          queue := queue + [Queued(t.object_, nextDepth, nextChain)];
        }
        if |results| >= limit {
          return;
        }
      }
      assert ts[..|ts|] == ts;
    }

    /** One node of the queue: its triples are scanned, and what is to come is what was to come without it. */
    method SearchNode(
      e: Entry, maxHops: nat, limit: int, found: seq<Evidence>, waiting: seq<Queued>, known: map<string, nat>,
      ghost all: seq<Evidence>, d: nat, ghost cur: seq<Entry>, ghost next: seq<Entry>)
      returns (results: seq<Evidence>, queue: seq<Queued>, best: map<string, nat>)
      requires d < maxHops && cur != [] && e == Entry(cur[0].name, cur[0].chain) && |found| < limit
      requires forall n :: n in known ==> known[n] <= d + 1
      requires all == found + Rest(outgoing, cur, next, known.Keys, d, maxHops)
      requires waiting == Tagged(cur[1..], d) + Tagged(next, d + 1)
      ensures |results| <= limit
      ensures |results| >= limit ==> results == Take(all, limit)
      ensures |results| < limit ==>
        Searching(outgoing, maxHops, all, results, queue, best, d, cur[1..],
                  next + Discovered(e, Of(outgoing, e.name), known.Keys))
    {
      var ts := Of(outgoing, e.name);
      results, queue, best := ScanNode(e, d, maxHops, limit, ts, found, waiting, known);
      SearchScan(outgoing, maxHops, limit, all, found, waiting, known, d, cur, next, results, queue, best);
    }

    /** Takes the first node of the queue; beyond the hop limit it contributes nothing. */
    method SearchFirst(
      maxHops: nat, limit: int, found: seq<Evidence>, waiting: seq<Queued>, known: map<string, nat>,
      ghost all: seq<Evidence>, ghost d: nat, ghost cur: seq<Entry>, ghost next: seq<Entry>)
      returns (results: seq<Evidence>, queue: seq<Queued>, best: map<string, nat>, ghost next': seq<Entry>)
      requires |found| < limit && cur != [] && Searching(outgoing, maxHops, all, found, waiting, known, d, cur, next)
      ensures |results| <= limit
      ensures |results| >= limit ==> results == Take(all, limit)
      ensures |results| < limit ==> Searching(outgoing, maxHops, all, results, queue, best, d, cur[1..], next')
    {
      SearchHead(outgoing, maxHops, all, found, waiting, known, d, cur, next);
      var node := waiting[0];
      results, queue, best, next' := found, waiting[1..], known, next;
      if node.depth < maxHops {
        var e := Entry(node.name, node.chain);
        next' := next + Discovered(e, Of(outgoing, node.name), known.Keys);
        results, queue, best := SearchNode(e, maxHops, limit, found, queue, known, all, node.depth, cur, next);
      }
    }

    /** Searches from one seed, adding to the evidence found so far. */
    method SearchSeed(seed: string, maxHops: nat, limit: int, found: seq<Evidence>) returns (results: seq<Evidence>)
      requires found == Take(found, limit)
      ensures results == Take(found + SeedEvidence(outgoing, seed, maxHops), limit)
    {
      var queue := [Queued(seed, 0, [seed])];
      var best: map<string, nat> := map[seed := 0];
      results := found;
      ghost var d: nat := 0;
      ghost var cur := [Entry(seed, [seed])];
      ghost var next: seq<Entry> := [];
      ghost var all := found + SeedEvidence(outgoing, seed, maxHops);
      SearchStart(outgoing, seed, maxHops, found);
      while queue != [] && |results| < limit
        invariant limit <= 0 || |results| <= limit
        invariant |results| >= limit ==> results == Take(all, limit)
        invariant |results| < limit ==> Searching(outgoing, maxHops, all, results, queue, best, d, cur, next)
        decreases maxHops + 1 - d, |cur|
      {
        if cur == [] {
          SearchShift(outgoing, maxHops, all, results, queue, best, d, next);
          d, cur, next := d + 1, next, [];
        }
        results, queue, best, next := SearchFirst(maxHops, limit, results, queue, best, all, d, cur, next);
        cur := cur[1..];
      }
      if |results| < limit {
        RestOfNothing(outgoing, best.Keys, d, maxHops);
      }
    }

    /** The seeds' evidence in order, cut at the limit; fewer than one hop is refused. */
    method Neighbors(entities: seq<string>, maxHops: int, limit: int)
      returns (r: Option<seq<Evidence>>, ghost seeds: seq<string>, ghost blocks: seq<seq<Evidence>>)
      ensures r.None? <==> maxHops < 1
      ensures r.Some? && WellFormed(outgoing) ==> IsAnswer(outgoing, entities, maxHops, limit, seeds, blocks, r.value)
      ensures r.Some? ==> r.value == Take(AllEvidence(outgoing, FirstOccurrences(entities), maxHops), limit)
    {
      blocks := [];
      var distinct := FirstOccurrences(entities);
      seeds := distinct;
      if maxHops < 1 {
        return None, seeds, blocks;
      }
      var results: seq<Evidence> := [];
      for k := 0 to |distinct|
        invariant results == Take(AllEvidence(outgoing, seeds[..k], maxHops), limit)
      {
        assert seeds[..k + 1][..k] == seeds[..k];
        ghost var sofar := AllEvidence(outgoing, seeds[..k], maxHops);
        results := SearchSeed(distinct[k], maxHops, limit, results);
        TakeAppend(sofar, SeedEvidence(outgoing, seeds[k], maxHops), limit);
      }
      assert seeds[..|seeds|] == seeds;
      if WellFormed(outgoing) {
        FirstOccurrencesInOrder(entities);
        blocks := AllEvidenceIs(outgoing, seeds, maxHops);
      }
      r := Some(results);
    }
  }

  /**
   * The queue is what remains of level d followed by what was found of level d + 1, and completing both completes the
   * evidence.
   */
  ghost predicate Searching(g: Graph, maxHops: nat, all: seq<Evidence>, results: seq<Evidence>, queue: seq<Queued>,
                            best: map<string, nat>, d: nat, cur: seq<Entry>, next: seq<Entry>) {
    && d <= maxHops && (next != [] ==> d < maxHops)
    && queue == Tagged(cur, d) + Tagged(next, d + 1)
    && (forall n :: n in best ==> best[n] <= d + 1)
    && all == results + Rest(g, cur, next, best.Keys, d, maxHops)
  }

  lemma SearchStart(g: Graph, seed: string, maxHops: nat, found: seq<Evidence>)
    ensures Searching(g, maxHops, found + SeedEvidence(g, seed, maxHops), found, [Queued(seed, 0, [seed])],
                      map[seed := 0], 0, [Entry(seed, [seed])], [])
  {
    var cur := [Entry(seed, [seed])];
    assert [] + NextLevel(g, cur, {seed}) == NextLevel(g, cur, {seed});
    assert map[seed := 0].Keys == {seed};
  }

  lemma SearchShift(g: Graph, maxHops: nat, all: seq<Evidence>, results: seq<Evidence>, queue: seq<Queued>,
                    best: map<string, nat>, d: nat, next: seq<Entry>)
    requires Searching(g, maxHops, all, results, queue, best, d, [], next) && queue != []
    ensures next != [] && Searching(g, maxHops, all, results, queue, best, d + 1, next, [])
  {
    RestNextLevel(g, next, best.Keys, d, maxHops);
  }

  /** Taking the head of the queue; beyond the hop limit the node contributes nothing. */
  lemma SearchHead(g: Graph, maxHops: nat, all: seq<Evidence>, results: seq<Evidence>, queue: seq<Queued>,
                   best: map<string, nat>, d: nat, cur: seq<Entry>, next: seq<Entry>)
    requires Searching(g, maxHops, all, results, queue, best, d, cur, next) && cur != []
    ensures |queue| > 0 && queue[0] == Queued(cur[0].name, d, cur[0].chain)
    ensures queue[1..] == Tagged(cur[1..], d) + Tagged(next, d + 1)
    ensures d == maxHops ==> Searching(g, maxHops, all, results, queue[1..], best, d, cur[1..], next)
  {
  }

  lemma TaggedAppend(a: seq<Entry>, b: seq<Entry>, depth: nat)
    ensures Tagged(a + b, depth) == Tagged(a, depth) + Tagged(b, depth)
  {
  }

  lemma TakeAll<T>(a: seq<T>, b: seq<T>, limit: int)
    ensures |Take(a, limit)| >= limit ==> Take(a, limit) == Take(a + b, limit)
    ensures |Take(a, limit)| < limit ==> Take(a, limit) == a
  {
  }

  lemma SearchScan(g: Graph, maxHops: nat, limit: int, all: seq<Evidence>, before: seq<Evidence>, waiting: seq<Queued>,
                   known: map<string, nat>, d: nat, cur: seq<Entry>, next: seq<Entry>,
                   results: seq<Evidence>, queue: seq<Queued>, best: map<string, nat>)
    requires d < maxHops && cur != []
    requires forall n :: n in known ==> known[n] <= d + 1
    requires all == before + Rest(g, cur, next, known.Keys, d, maxHops)
    requires waiting == Tagged(cur[1..], d) + Tagged(next, d + 1)
    requires results == Take(before + Evidences(cur[0], d, Of(g, cur[0].name)), limit)
    requires |results| < limit ==> Scanned(cur[0], d, Of(g, cur[0].name), waiting, known, queue, best)
    ensures |results| >= limit ==> results == Take(all, limit)
    ensures |results| < limit ==>
      Searching(g, maxHops, all, results, queue, best, d, cur[1..],
                next + Discovered(cur[0], Of(g, cur[0].name), known.Keys))
  {
    var ts := Of(g, cur[0].name);
    var found := Discovered(cur[0], ts, known.Keys);
    var rest := Rest(g, cur[1..], next + found, known.Keys + Objects(ts), d, maxHops);
    RestOfOne(g, cur, next, known.Keys, d, maxHops);
    Associate(before, Evidences(cur[0], d, ts), rest);
    TakeAll(before + Evidences(cur[0], d, ts), rest, limit);
    if |results| < limit {
      TaggedAppend(next, found, d + 1);
      Associate(Tagged(cur[1..], d), Tagged(next, d + 1), Tagged(found, d + 1));
    }
  }

  lemma PrefixGrows<T>(a: seq<T>, b: seq<T>, k: nat, limit: int)
    requires k < |b|
    ensures a + b[..k] + [b[k]] == a + b[..k + 1]
    ensures |a| + k + 1 == limit ==> a + b[..k + 1] == Take(a + b, limit)
  {
  }

  ghost predicate Scanned(e: Entry, depth: nat, ts: seq<Triple>, waiting: seq<Queued>, known: map<string, nat>,
                          queue: seq<Queued>, best: map<string, nat>) {
    && queue == waiting + Tagged(Discovered(e, ts, known.Keys), depth + 1)
    && best.Keys == known.Keys + Objects(ts)
    && forall n :: n in best ==> best[n] <= depth + 1
  }

  lemma DiscoverNext(e: Entry, ts: seq<Triple>, k: nat, seen: set<string>)
    requires k < |ts|
    ensures Objects(ts[..k + 1]) == Objects(ts[..k]) + {ts[k].object_}
    ensures Discovered(e, ts[..k + 1], seen) == Discovered(e, ts[..k], seen)
      + if ts[k].object_ in seen + Objects(ts[..k]) then [] else [Entry(ts[k].object_, Follow(e, ts[k]))]
  {
    assert ts[..k + 1] == ts[..k] + [ts[k]];
    assert ts[..k + 1][..k] == ts[..k];
  }

  lemma ScanStep(e: Entry, depth: nat, ts: seq<Triple>, k: nat, waiting: seq<Queued>, known: map<string, nat>,
                 queue: seq<Queued>, best: map<string, nat>)
    requires k < |ts| && Scanned(e, depth, ts[..k], waiting, known, queue, best)
    ensures var t := ts[k];
      if t.object_ in best then
        best[t.object_] <= depth + 1 && Scanned(e, depth, ts[..k + 1], waiting, known, queue, best)
      else Scanned(e, depth, ts[..k + 1], waiting, known,
                   queue + [Queued(t.object_, depth + 1, Follow(e, t))], best[t.object_ := depth + 1])
  {
    var t := ts[k];
    var found := Discovered(e, ts[..k], known.Keys);
    DiscoverNext(e, ts, k, known.Keys);
    if t.object_ in best {
      assert found + [] == found;
      assert Objects(ts[..k + 1]) == Objects(ts[..k]) + {t.object_};
      assert known.Keys + Objects(ts[..k + 1]) == best.Keys;
    } else {
      var x := Entry(t.object_, Follow(e, t));
      TaggedAppend(found, [x], depth + 1);
      assert Tagged([x], depth + 1) == [Queued(x.name, depth + 1, x.chain)];
      Associate(waiting, Tagged(found, depth + 1), Tagged([x], depth + 1));
      assert best[t.object_ := depth + 1].Keys == known.Keys + Objects(ts[..k + 1]);
    }
  }
}
