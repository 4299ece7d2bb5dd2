/** Exploring a stored knowledge graph outwards from seed entities, under an entity limit and a relation limit. */
module GraphExploration {
  import opened Sequences
  import opened Walks

  datatype Relation = Relation(id: int, source: int, target: int)

  /** The live entities of a space, by id, and its live relations in id order. */
  datatype Space = Space(live: set<int>, relations: seq<Relation>)

  predicate Touches(r: Relation, ids: set<int>) {
    r.source in ids || r.target in ids
  }

  /** The relations with an end among `ids`, in id order. */
  function Incident(relations: seq<Relation>, ids: set<int>): seq<Relation> {
    if relations == [] then []
    else (if Touches(relations[0], ids) then [relations[0]] else []) + Incident(relations[1..], ids)
  }

  lemma {:induction false} IncidentIs(relations: seq<Relation>, ids: set<int>)
    ensures forall r :: r in Incident(relations, ids) <==> r in relations && Touches(r, ids)
  {
    if relations != [] {
      IncidentIs(relations[1..], ids);
      assert relations == [relations[0]] + relations[1..];
    }
  }

  // ---- what there is to find ---------------------------------------------------------------

  /** The hops from one live entity to another, along a live relation in either direction. */
  ghost function Hops(space: Space): set<(int, int)> {
    (set r | r in space.relations && Inside(r, space.live) :: (r.source, r.target))
    + (set r | r in space.relations && Inside(r, space.live) :: (r.target, r.source))
  }

  predicate Joins(r: Relation, ids: set<int>, f: int) {
    (r.source in ids && r.target == f) || (r.target in ids && r.source == f)
  }

  /** The live entities within n hops of the seeds. */
  ghost function Ball(space: Space, seeds: set<int>, n: nat): set<int> {
    if n == 0 then seeds else Ball(space, seeds, n - 1) + Beyond(space, Ball(space, seeds, n - 1))
  }

  /** The live entities one hop from `ids`. */
  ghost function Beyond(space: Space, ids: set<int>): set<int> {
    FarEnds(space.relations, ids) * space.live
  }

  function FarEnds(relations: seq<Relation>, ids: set<int>): set<int> {
    if relations == [] then {}
    else FarEnds(relations[1..], ids) + OtherEnds(relations[0], ids)
  }

  function OtherEnds(r: Relation, ids: set<int>): set<int> {
    if r.source in ids && r.target in ids then {r.target, r.source}
    else if r.source in ids then {r.target}
    else if r.target in ids then {r.source}
    else {}
  }

  lemma {:induction false} FarEndsAre(relations: seq<Relation>, ids: set<int>, f: int)
    ensures f in FarEnds(relations, ids) <==> exists r :: r in relations && Joins(r, ids, f)
  {
    if relations != [] {
      FarEndsAre(relations[1..], ids, f);
      assert relations == [relations[0]] + relations[1..];
      assert Joins(relations[0], ids, f) ==> relations[0] in relations;
      assert forall r :: r in relations[1..] ==> r in relations;
    }
  }

  lemma {:induction false} FarEndsGrow(relations: seq<Relation>, a: set<int>, b: set<int>)
    requires a <= b
    ensures FarEnds(relations, a) <= FarEnds(relations, b)
  {
    if relations != [] {
      FarEndsGrow(relations[1..], a, b);
    }
  }

  lemma {:induction false} NothingFar(relations: seq<Relation>)
    ensures FarEnds(relations, {}) == {}
  {
    if relations != [] {
      NothingFar(relations[1..]);
    }
  }

  lemma HopsAreJoins(space: Space, ids: set<int>, f: int)
    requires ids <= space.live
    ensures f in Beyond(space, ids) <==> exists e :: e in ids && (e, f) in Hops(space)
  {
    FarEndsAre(space.relations, ids, f);
    if f in Beyond(space, ids) {
      var r :| r in space.relations && Joins(r, ids, f);
      assert (r.source, r.target) in Hops(space) || (r.target, r.source) in Hops(space);
    }
  }

  /** A walk from a seed of at most n hops. */
  ghost predicate ShortWalk(space: Space, seeds: set<int>, n: nat, e: int, p: seq<int>) {
    IsWalk(Hops(space), p) && |p| <= n + 1 && p[0] in seeds && p[|p| - 1] == e
  }

  lemma {:induction false} BallIsReached(space: Space, seeds: set<int>, n: nat, e: int) returns (p: seq<int>)
    requires seeds <= space.live && e in Ball(space, seeds, n)
    ensures ShortWalk(space, seeds, n, e, p)
    decreases n
  {
    if n == 0 {
      p := [e];
    } else if e in Ball(space, seeds, n - 1) {
      p := BallIsReached(space, seeds, n - 1, e);
    } else {
      var d := Nearer(space, seeds, n - 1, e);
      var q := BallIsReached(space, seeds, n - 1, d);
      OneMoreHop(space, seeds, n - 1, d, e, q);
      p := q + [e];
    }
  }

  lemma Nearer(space: Space, seeds: set<int>, n: nat, e: int) returns (d: int)
    requires seeds <= space.live && e in Ball(space, seeds, n + 1) && e !in Ball(space, seeds, n)
    ensures d in Ball(space, seeds, n) && (d, e) in Hops(space)
  {
    BallIsLive(space, seeds, n);
    HopsAreJoins(space, Ball(space, seeds, n), e);
    d :| d in Ball(space, seeds, n) && (d, e) in Hops(space);
  }

  lemma {:induction false} BallIsLive(space: Space, seeds: set<int>, n: nat)
    requires seeds <= space.live
    ensures Ball(space, seeds, n) <= space.live
  {
    if n > 0 {
      BallIsLive(space, seeds, n - 1);
    }
  }

  lemma OneMoreHop(space: Space, seeds: set<int>, n: nat, d: int, e: int, p: seq<int>)
    requires ShortWalk(space, seeds, n, d, p) && (d, e) in Hops(space)
    ensures ShortWalk(space, seeds, n + 1, e, p + [e])
  {
  }

  lemma {:induction false} WalksStayInBall(space: Space, seeds: set<int>, n: nat, e: int, p: seq<int>)
    requires seeds <= space.live && ShortWalk(space, seeds, n, e, p)
    ensures e in Ball(space, seeds, n)
    decreases n
  {
    if |p| == 1 {
      BallGrows(space, seeds, 0, n);
    } else {
      var q, d := p[..|p| - 1], p[|p| - 2];
      assert ShortWalk(space, seeds, n - 1, d, q);
      WalksStayInBall(space, seeds, n - 1, d, q);
      assert (p[|p| - 2], p[|p| - 2 + 1]) in Hops(space);
      BallIsLive(space, seeds, n - 1);
      HopsAreJoins(space, Ball(space, seeds, n - 1), e);
    }
  }

  lemma {:induction false} BallGrows(space: Space, seeds: set<int>, m: nat, n: nat)
    requires m <= n
    ensures Ball(space, seeds, m) <= Ball(space, seeds, n)
    decreases n
  {
    if m < n {
      BallGrows(space, seeds, m, n - 1);
    }
  }

  /** The entities within n hops are those a walk of at most n hops reaches from a seed. */
  lemma {:induction false} BallIsHops(space: Space, seeds: set<int>, n: nat, e: int)
    requires seeds <= space.live
    ensures e in Ball(space, seeds, n) <==> exists p :: ShortWalk(space, seeds, n, e, p)
  {
    if e in Ball(space, seeds, n) {
      var p := BallIsReached(space, seeds, n, e);
    }
    if p :| ShortWalk(space, seeds, n, e, p) {
      WalksStayInBall(space, seeds, n, e, p);
    }
  }

  /** Once a hop adds nobody, no further hop does. */
  lemma {:induction false} BallStops(space: Space, seeds: set<int>, m: nat, n: nat)
    requires m <= n && Beyond(space, Ball(space, seeds, m)) <= Ball(space, seeds, m)
    ensures Ball(space, seeds, n) == Ball(space, seeds, m)
    decreases n
  {
    if m < n {
      BallStops(space, seeds, m, n - 1);
    }
  }

  // ---- one round ---------------------------------------------------------------------------

  /**
   * What has been found: entities, relations, the newest entities, and whether something was cut off. Both dictionaries
   * are keyed by the primary key of what they hold, so each is the set of its entries; entities stand for themselves by
   * id.
   */
  datatype Found = Found(entities: set<int>, relations: set<Relation>, frontier: set<int>, truncated: bool)

  /** The ends of the rows that are not among the entities. */
  function Candidates(rows: seq<Relation>, entities: set<int>): set<int> {
    if rows == [] then {} else {rows[0].source, rows[0].target} - entities + Candidates(rows[1..], entities)
  }

  lemma {:induction false} CandidatesAre(rows: seq<Relation>, entities: set<int>, f: int)
    ensures f in Candidates(rows, entities)
      <==> f !in entities && exists r :: r in rows && (r.source == f || r.target == f)
  {
    if rows != [] {
      CandidatesAre(rows[1..], entities, f);
      assert rows == [rows[0]] + rows[1..];
    }
  }

  lemma CandidatesAreNew(rows: seq<Relation>, entities: set<int>)
    ensures Candidates(rows, entities) !! entities
  {
    forall f | f in entities ensures f !in Candidates(rows, entities) {
      CandidatesAre(rows, entities, f);
    }
  }

  predicate Inside(r: Relation, entities: set<int>) {
    r.source in entities && r.target in entities
  }

  /** The relations found before and those of the rows with both ends found. */
  function WithInside(relations: set<Relation>, rows: seq<Relation>, entities: set<int>): set<Relation> {
    if rows == [] then relations
    else
      var last := rows[|rows| - 1];
      var before := WithInside(relations, rows[..|rows| - 1], entities);
      before + if Inside(last, entities) then {last} else {}
  }

  predicate SomeOutside(rows: seq<Relation>, entities: set<int>) {
    rows != [] && (!Inside(rows[|rows| - 1], entities) || SomeOutside(rows[..|rows| - 1], entities))
  }

  lemma {:induction false} OutsideIs(rows: seq<Relation>, entities: set<int>)
    ensures SomeOutside(rows, entities) <==> exists r :: r in rows && !Inside(r, entities)
  {
    if rows != [] {
      OutsideIs(rows[..|rows| - 1], entities);
      assert rows == rows[..|rows| - 1] + [rows[|rows| - 1]];
    }
  }

  function Room(limit: nat, s: Found): int {
    limit - |s.relations|
  }

  function Rows(space: Space, relationLimit: nat, s: Found): seq<Relation> {
    Take(Incident(space.relations, s.frontier), Room(relationLimit, s))
  }

  /** What the fetched rows and candidates add. */
  function Absorb(limit: nat, s: Found, rows: seq<Relation>, candidates: seq<int>, cut: bool): Found {
    var added := Elems(Take(candidates, limit - |s.entities|));
    var entities := s.entities + added;
    Found(
      entities,
      WithInside(s.relations, rows, entities),
      added,
      cut || |candidates| > limit - |s.entities| || SomeOutside(rows, entities)
    )
  }

  /** One round, given in what order the candidates come back. */
  function Advance(space: Space, limit: nat, relationLimit: nat, s: Found, candidates: seq<int>): Found {
    Absorb(limit, s, Rows(space, relationLimit, s), candidates,
           s.truncated || |Incident(space.relations, s.frontier)| > Room(relationLimit, s))
  }

  /** The live candidates, each once. */
  ghost predicate Listed(space: Space, relationLimit: nat, s: Found, candidates: seq<int>) {
    && Distinct(candidates)
    && Elems(candidates) == Candidates(Rows(space, relationLimit, s), s.entities) * space.live
  }

  predicate Going(relationLimit: nat, s: Found) {
    s.frontier != {} && |s.relations| < relationLimit
  }

  ghost predicate IsRound(space: Space, limit: nat, relationLimit: nat, s: Found, t: Found) {
    && Going(relationLimit, s)
    && exists candidates ::
         Listed(space, relationLimit, s, candidates) && t == Advance(space, limit, relationLimit, s, candidates)
  }

  ghost predicate RoundAt(space: Space, limit: nat, relationLimit: nat, trace: seq<Found>, k: nat)
    requires k + 1 < |trace|
  {
    IsRound(space, limit, relationLimit, trace[k], trace[k + 1])
  }

  function RelationLimit(limit: nat): nat {
    if 2 * limit < 200 then 2 * limit else 200
  }

  ghost predicate Rounds(space: Space, limit: nat, trace: seq<Found>) {
    forall k: nat :: k + 1 < |trace| ==> RoundAt(space, limit, RelationLimit(limit), trace, k)
  }

  /** The rounds of one exploration, in any order the candidates may come back. */
  ghost predicate Exploration(space: Space, limit: nat, depth: nat, trace: seq<Found>) {
    && 1 <= |trace| <= depth + 1
    && Rounds(space, limit, trace)
    && (|trace| <= depth ==> !Going(RelationLimit(limit), trace[|trace| - 1]))
  }

  /** The seeds: the first `limit` matches, cut off when there are more. */
  function Start(matching: seq<int>, limit: nat): Found {
    var seeds := Elems(Take(matching, limit));
    Found(seeds, {}, seeds, |matching| > limit)
  }

  // ---- the limits hold ---------------------------------------------------------------------

  /** Within both limits, only what is stored, and no relation without both its ends. */
  ghost predicate Bounded(space: Space, limit: nat, relationLimit: nat, s: Found) {
    && s.entities <= space.live && s.frontier <= s.entities && |s.entities| <= limit
    && |s.relations| <= relationLimit
    && forall r :: r in s.relations ==> r in space.relations && Inside(r, s.entities)
  }

  lemma TakenCount<T>(s: seq<T>, limit: int)
    ensures |Elems(Take(s, limit))| <= if limit < 0 then 0 else limit
    ensures Elems(Take(s, limit)) <= Elems(s)
    ensures |s| <= limit ==> Elems(Take(s, limit)) == Elems(s)
  {
    DistinctByCount(Take(s, limit));
  }

  lemma {:induction false} InsideCount(relations: set<Relation>, rows: seq<Relation>, entities: set<int>)
    ensures |WithInside(relations, rows, entities)| <= |relations| + |rows|
  {
    if rows != [] {
      var front, last := rows[..|rows| - 1], rows[|rows| - 1];
      InsideCount(relations, front, entities);
    }
  }

  lemma {:induction false} InsideKept(space: Space, relations: set<Relation>, rows: seq<Relation>, entities: set<int>)
    requires forall r :: r in relations ==> r in space.relations && Inside(r, entities)
    requires forall r :: r in rows ==> r in space.relations
    ensures forall r :: r in WithInside(relations, rows, entities) ==> r in space.relations && Inside(r, entities)
  {
    if rows != [] {
      InsideKept(space, relations, rows[..|rows| - 1], entities);
    }
  }

  lemma RowsAreStored(space: Space, relationLimit: nat, s: Found)
    ensures forall r :: r in Rows(space, relationLimit, s) ==> r in space.relations && Touches(r, s.frontier)
    ensures |s.relations| <= relationLimit ==> |Rows(space, relationLimit, s)| <= Room(relationLimit, s)
  {
    IncidentIs(space.relations, s.frontier);
  }

  lemma AdvanceKeepsBounded(space: Space, limit: nat, relationLimit: nat, s: Found, candidates: seq<int>)
    requires Bounded(space, limit, relationLimit, s) && Listed(space, relationLimit, s, candidates)
    ensures Bounded(space, limit, relationLimit, Advance(space, limit, relationLimit, s, candidates))
  {
    AbsorbKeepsEntities(space.live, limit, s, Rows(space, relationLimit, s), candidates,
                        s.truncated || |Incident(space.relations, s.frontier)| > Room(relationLimit, s));
    AdvanceCountsRelations(space, limit, relationLimit, s, candidates);
    AdvanceKeepsRelations(space, limit, relationLimit, s, candidates);
  }

  lemma AbsorbKeepsEntities(live: set<int>, limit: nat, s: Found, rows: seq<Relation>, candidates: seq<int>, cut: bool)
    requires s.entities <= live && |s.entities| <= limit && Elems(candidates) <= live
    ensures var t := Absorb(limit, s, rows, candidates, cut);
      t.entities <= live && t.frontier <= t.entities && |t.entities| <= limit
  {
    var added := Elems(Take(candidates, limit - |s.entities|));
    TakenCount(candidates, limit - |s.entities|);
    assert |s.entities + added| <= |s.entities| + |added|;
  }

  lemma AdvanceCountsRelations(space: Space, limit: nat, relationLimit: nat, s: Found, candidates: seq<int>)
    requires |s.relations| <= relationLimit
    ensures |Advance(space, limit, relationLimit, s, candidates).relations| <= relationLimit
  {
    RowsAreStored(space, relationLimit, s);
    InsideCount(s.relations, Rows(space, relationLimit, s), s.entities + Elems(Take(candidates, limit - |s.entities|)));
  }

  lemma AdvanceKeepsRelations(space: Space, limit: nat, relationLimit: nat, s: Found, candidates: seq<int>)
    requires Bounded(space, limit, relationLimit, s)
    ensures var t := Advance(space, limit, relationLimit, s, candidates);
      forall r :: r in t.relations ==> r in space.relations && Inside(r, t.entities)
  {
    var entities := s.entities + Elems(Take(candidates, limit - |s.entities|));
    RowsAreStored(space, relationLimit, s);
    assert forall r :: r in s.relations ==> Inside(r, entities);
    InsideKept(space, s.relations, Rows(space, relationLimit, s), entities);
  }

  lemma StartIsBounded(space: Space, matching: seq<int>, limit: nat)
    requires forall e :: e in matching ==> e in space.live
    ensures Bounded(space, limit, RelationLimit(limit), Start(matching, limit))
  {
    TakenCount(matching, limit);
    forall e | e in Elems(matching) ensures e in space.live {
      assert e in matching;
    }
  }

  /** At every round both limits hold, and every returned relation joins two returned entities. */
  lemma {:induction false} LimitsHold(space: Space, matching: seq<int>, limit: nat, trace: seq<Found>, k: nat)
    requires forall e :: e in matching ==> e in space.live
    requires Rounds(space, limit, trace) && k < |trace| && trace[0] == Start(matching, limit)
    ensures Bounded(space, limit, RelationLimit(limit), trace[k])
  {
    if k == 0 {
      StartIsBounded(space, matching, limit);
    } else {
      LimitsHold(space, matching, limit, trace, k - 1);
      assert RoundAt(space, limit, RelationLimit(limit), trace, k - 1);
      RoundKeepsBounded(space, limit, RelationLimit(limit), trace[k - 1], trace[k]);
    }
  }

  lemma RoundKeepsBounded(space: Space, limit: nat, relationLimit: nat, s: Found, t: Found)
    requires Bounded(space, limit, relationLimit, s) && IsRound(space, limit, relationLimit, s, t)
    ensures Bounded(space, limit, relationLimit, t)
  {
    var candidates :|
      Listed(space, relationLimit, s, candidates) && t == Advance(space, limit, relationLimit, s, candidates);
    AdvanceKeepsBounded(space, limit, relationLimit, s, candidates);
  }

  // ---- nothing but the ball, and all of it unless cut off ----------------------------------

  lemma CandidatesAreBeyond(space: Space, relationLimit: nat, s: Found)
    requires s.frontier <= s.entities <= space.live
    ensures Candidates(Rows(space, relationLimit, s), s.entities) * space.live <= Beyond(space, s.entities)
  {
    RowsAreStored(space, relationLimit, s);
    forall f | f in Candidates(Rows(space, relationLimit, s), s.entities) && f in space.live
      ensures f in Beyond(space, s.entities)
    {
      CandidatesAre(Rows(space, relationLimit, s), s.entities, f);
      var r :| r in Rows(space, relationLimit, s) && (r.source == f || r.target == f);
      assert Joins(r, s.entities, f);
      FarEndsAre(space.relations, s.entities, f);
    }
  }

  /** Only entities within k hops are found in k rounds, cut off or not. */
  lemma {:induction false} OnlyTheBall(space: Space, matching: seq<int>, limit: nat, trace: seq<Found>, k: nat)
    requires forall e :: e in matching ==> e in space.live
    requires Rounds(space, limit, trace) && k < |trace| && trace[0] == Start(matching, limit)
    ensures trace[k].entities <= Ball(space, trace[0].entities, k)
  {
    if k > 0 {
      OnlyTheBall(space, matching, limit, trace, k - 1);
      LimitsHold(space, matching, limit, trace, k - 1);
      NextStaysInBall(space, limit, trace[0].entities, trace, k - 1);
    }
  }

  lemma NextStaysInBall(space: Space, limit: nat, seeds: set<int>, trace: seq<Found>, k: nat)
    requires Rounds(space, limit, trace) && k + 1 < |trace| && Bounded(space, limit, RelationLimit(limit), trace[k])
    requires trace[k].entities <= Ball(space, seeds, k)
    ensures trace[k + 1].entities <= Ball(space, seeds, k + 1)
  {
    assert RoundAt(space, limit, RelationLimit(limit), trace, k);
    RoundStaysInBall(space, limit, RelationLimit(limit), seeds, k, trace[k], trace[k + 1]);
  }

  lemma RoundStaysInBall(space: Space, limit: nat, relationLimit: nat, seeds: set<int>, k: nat, s: Found, t: Found)
    requires Bounded(space, limit, relationLimit, s) && IsRound(space, limit, relationLimit, s, t)
    requires s.entities <= Ball(space, seeds, k)
    ensures t.entities <= Ball(space, seeds, k + 1)
  {
    var candidates :|
      Listed(space, relationLimit, s, candidates) && t == Advance(space, limit, relationLimit, s, candidates);
    TakenCount(candidates, limit - |s.entities|);
    CandidatesAreBeyond(space, relationLimit, s);
    assert t.entities <= s.entities + Beyond(space, s.entities);
    FarEndsGrow(space.relations, s.entities, Ball(space, seeds, k));
    assert Beyond(space, s.entities) <= Beyond(space, Ball(space, seeds, k));
  }

  /** The relations are exactly those with an end in `ids`. */
  ghost predicate Collected(space: Space, relations: set<Relation>, ids: set<int>) {
    forall r :: r in relations <==> r in space.relations && Touches(r, ids)
  }

  /** Everything around `inner` has been looked at; the frontier is what remains. */
  ghost predicate Looked(space: Space, inner: set<int>, s: Found) {
    inner <= s.entities && s.frontier == s.entities - inner && Collected(space, s.relations, inner)
  }

  lemma {:induction false} InsideIs(relations: set<Relation>, rows: seq<Relation>, entities: set<int>)
    ensures forall r ::
      r in WithInside(relations, rows, entities) <==> r in relations || (r in rows && Inside(r, entities))
  {
    if rows != [] {
      InsideIs(relations, rows[..|rows| - 1], entities);
      assert rows == rows[..|rows| - 1] + [rows[|rows| - 1]];
    }
  }

  /** With nothing cut off, every relation at the frontier is a row and every live candidate is added. */
  lemma NothingCut(space: Space, limit: nat, relationLimit: nat, s: Found, candidates: seq<int>)
    requires |s.entities| <= limit && Listed(space, relationLimit, s, candidates)
    requires !Advance(space, limit, relationLimit, s, candidates).truncated
    ensures var t := Advance(space, limit, relationLimit, s, candidates);
      && Rows(space, relationLimit, s) == Incident(space.relations, s.frontier)
      && t.entities == s.entities + Candidates(Incident(space.relations, s.frontier), s.entities) * space.live
      && t.frontier == t.entities - s.entities
  {
    var rows := Rows(space, relationLimit, s);
    assert rows == Incident(space.relations, s.frontier);
    CandidatesAreNew(rows, s.entities);
    TakenCount(candidates, limit - |s.entities|);
    AddedApart(s.entities, Candidates(rows, s.entities) * space.live);
  }

  lemma AddedApart(before: set<int>, added: set<int>)
    requires before !! added
    ensures (before + added) - before == added
  {
  }

  lemma FrontierIsBeyond(space: Space, inner: set<int>, s: Found, limit: nat, relationLimit: nat)
    requires Bounded(space, limit, relationLimit, s) && Looked(space, inner, s)
    ensures Beyond(space, s.entities)
         <= s.entities + Candidates(Incident(space.relations, s.frontier), s.entities) * space.live
  {
    IncidentIs(space.relations, s.frontier);
    forall f | f in Beyond(space, s.entities)
      ensures f in s.entities || f in Candidates(Incident(space.relations, s.frontier), s.entities)
    {
      FarEndsAre(space.relations, s.entities, f);
      var r :| r in space.relations && Joins(r, s.entities, f);
      CandidatesAre(Incident(space.relations, s.frontier), s.entities, f);
      assert Touches(r, inner) || Touches(r, s.frontier);
      assert Touches(r, inner) ==> r in s.relations;
      assert Touches(r, s.frontier) ==> r in Incident(space.relations, s.frontier);
    }
  }

  lemma RelationsCollected(
    space: Space, limit: nat, relationLimit: nat, inner: set<int>, s: Found, candidates: seq<int>)
    requires Bounded(space, limit, relationLimit, s) && Looked(space, inner, s)
    requires Listed(space, relationLimit, s, candidates)
    requires !Advance(space, limit, relationLimit, s, candidates).truncated
    ensures Collected(space, Advance(space, limit, relationLimit, s, candidates).relations, s.entities)
  {
    var t := Advance(space, limit, relationLimit, s, candidates);
    var rows := Rows(space, relationLimit, s);
    AdvanceKeepsBounded(space, limit, relationLimit, s, candidates);
    NothingCut(space, limit, relationLimit, s, candidates);
    IncidentIs(space.relations, s.frontier);
    InsideIs(s.relations, rows, t.entities);
    OutsideIs(rows, t.entities);
    forall r ensures r in t.relations <==> r in space.relations && Touches(r, s.entities) {
      assert Touches(r, s.entities) <==> Touches(r, inner) || Touches(r, s.frontier);
    }
  }

  lemma RoundIsExact(space: Space, limit: nat, relationLimit: nat, inner: set<int>, s: Found, t: Found)
    requires Bounded(space, limit, relationLimit, s) && Looked(space, inner, s)
    requires IsRound(space, limit, relationLimit, s, t) && !t.truncated
    ensures t.entities == s.entities + Beyond(space, s.entities) && Looked(space, s.entities, t)
  {
    var candidates :|
      Listed(space, relationLimit, s, candidates) && t == Advance(space, limit, relationLimit, s, candidates);
    AdvanceIsExact(space, limit, relationLimit, inner, s, candidates);
  }

  lemma AdvanceIsExact(space: Space, limit: nat, relationLimit: nat, inner: set<int>, s: Found, candidates: seq<int>)
    requires Bounded(space, limit, relationLimit, s) && Looked(space, inner, s)
    requires Listed(space, relationLimit, s, candidates)
    requires !Advance(space, limit, relationLimit, s, candidates).truncated
    ensures var t := Advance(space, limit, relationLimit, s, candidates);
      t.entities == s.entities + Beyond(space, s.entities) && Looked(space, s.entities, t)
  {
    var t := Advance(space, limit, relationLimit, s, candidates);
    RelationsCollected(space, limit, relationLimit, inner, s, candidates);
    EntitiesExact(space, limit, relationLimit, inner, s, candidates);
    assert s.entities <= t.entities && t.frontier == t.entities - s.entities;
  }

  lemma EntitiesExact(space: Space, limit: nat, relationLimit: nat, inner: set<int>, s: Found, candidates: seq<int>)
    requires Bounded(space, limit, relationLimit, s) && Looked(space, inner, s)
    requires Listed(space, relationLimit, s, candidates)
    requires !Advance(space, limit, relationLimit, s, candidates).truncated
    ensures var t := Advance(space, limit, relationLimit, s, candidates);
      t.entities == s.entities + Beyond(space, s.entities) && t.frontier == t.entities - s.entities
  {
    var more := Candidates(Incident(space.relations, s.frontier), s.entities) * space.live;
    NothingCut(space, limit, relationLimit, s, candidates);
    FrontierIsBeyond(space, inner, s, limit, relationLimit);
    CandidatesAreBeyond(space, relationLimit, s);
    assert s.entities + more == s.entities + Beyond(space, s.entities);
  }

  /** What lies more than one hop inside after k rounds. */
  ghost function Inner(space: Space, seeds: set<int>, k: nat): set<int> {
    if k == 0 then {} else Ball(space, seeds, k - 1)
  }

  /** What was cut off stays reported. */
  lemma UncutBefore(space: Space, limit: nat, trace: seq<Found>, k: nat)
    requires Rounds(space, limit, trace) && 0 < k < |trace| && !trace[k].truncated
    ensures !trace[k - 1].truncated
  {
    assert RoundAt(space, limit, RelationLimit(limit), trace, k - 1);
  }

  ghost predicate ExactAt(space: Space, seeds: set<int>, k: nat, s: Found) {
    s.entities == Ball(space, seeds, k) && Looked(space, Inner(space, seeds, k), s)
  }

  lemma ExactStep(space: Space, limit: nat, seeds: set<int>, trace: seq<Found>, k: nat)
    requires Rounds(space, limit, trace) && k + 1 < |trace| && !trace[k + 1].truncated
    requires Bounded(space, limit, RelationLimit(limit), trace[k])
    requires ExactAt(space, seeds, k, trace[k])
    ensures ExactAt(space, seeds, k + 1, trace[k + 1])
  {
    assert RoundAt(space, limit, RelationLimit(limit), trace, k);
    RoundIsExact(space, limit, RelationLimit(limit), Inner(space, seeds, k), trace[k], trace[k + 1]);
  }

  lemma StartIsExact(space: Space, matching: seq<int>, limit: nat)
    ensures var s := Start(matching, limit); ExactAt(space, s.entities, 0, s)
  {
  }

  /**
   * With nothing cut off, k rounds find exactly the entities within k hops and the relations around those within k - 1.
   */
  lemma {:induction false} ExactSoFar(space: Space, matching: seq<int>, limit: nat, trace: seq<Found>, k: nat)
    requires forall e :: e in matching ==> e in space.live
    requires Rounds(space, limit, trace) && k < |trace| && trace[0] == Start(matching, limit)
    requires !trace[k].truncated
    ensures ExactAt(space, trace[0].entities, k, trace[k])
  {
    if k == 0 {
      StartIsExact(space, matching, limit);
    } else {
      UncutBefore(space, limit, trace, k);
      ExactSoFar(space, matching, limit, trace, k - 1);
      LimitsHold(space, matching, limit, trace, k - 1);
      ExactStep(space, limit, trace[0].entities, trace, k - 1);
    }
  }

  lemma NoFrontier(space: Space, seeds: set<int>, k: nat, z: Found)
    requires z.frontier == {} && z.entities == Ball(space, seeds, k) && Looked(space, Inner(space, seeds, k), z)
    ensures Ball(space, seeds, k) <= Inner(space, seeds, k)
  {
    forall e | e in z.entities ensures e in Inner(space, seeds, k) {
      assert e !in z.frontier;
    }
  }

  lemma QuietBall(space: Space, seeds: set<int>, k: nat)
    requires Ball(space, seeds, k) <= Inner(space, seeds, k)
    ensures Beyond(space, Ball(space, seeds, k)) <= Ball(space, seeds, k)
  {
    if k > 0 {
      assert Ball(space, seeds, k) == Ball(space, seeds, k - 1);
    } else {
      assert seeds == {};
      NothingFar(space.relations);
    }
  }

  /**
   * Below the relation limit and with nothing cut off, an exploration returns exactly the live entities within `depth`
   * hops of its seeds, and exactly the relations around those within `depth - 1`.
   */
  lemma {:induction false} CompleteUnlessCut(
    space: Space, matching: seq<int>, limit: nat, depth: nat, trace: seq<Found>)
    requires forall e :: e in matching ==> e in space.live
    requires Exploration(space, limit, depth, trace) && trace[0] == Start(matching, limit)
    requires var z := trace[|trace| - 1]; !z.truncated && |z.relations| < RelationLimit(limit)
    ensures var z := trace[|trace| - 1];
      && z.entities == Ball(space, Elems(matching), depth)
      && Collected(space, z.relations, Inner(space, Elems(matching), depth))
  {
    var k, seeds := |trace| - 1, trace[0].entities;
    ExactSoFar(space, matching, limit, trace, k);
    SeedsAreAll(space, matching, limit, trace, k);
    if k < depth {
      NoFrontier(space, seeds, k, trace[k]);
      BallStopped(space, seeds, k, depth);
      InnerStops(space, seeds, k, depth - 1);
    }
  }

  lemma BallStopped(space: Space, seeds: set<int>, k: nat, n: nat)
    requires k <= n && Ball(space, seeds, k) <= Inner(space, seeds, k)
    ensures Ball(space, seeds, n) == Ball(space, seeds, k)
  {
    QuietBall(space, seeds, k);
    BallStops(space, seeds, k, n);
  }

  lemma InnerStops(space: Space, seeds: set<int>, k: nat, n: nat)
    requires k <= n && Ball(space, seeds, k) <= Inner(space, seeds, k)
    ensures Ball(space, seeds, n) == Inner(space, seeds, k)
  {
    BallStopped(space, seeds, k, n);
    BallIsInner(space, seeds, k);
  }

  lemma BallIsInner(space: Space, seeds: set<int>, k: nat)
    requires Ball(space, seeds, k) <= Inner(space, seeds, k)
    ensures Ball(space, seeds, k) == Inner(space, seeds, k)
  {
    if k > 0 {
      BallGrows(space, seeds, k - 1, k);
    }
  }

  lemma {:induction false} SeedsAreAll(space: Space, matching: seq<int>, limit: nat, trace: seq<Found>, k: nat)
    requires Rounds(space, limit, trace) && k < |trace| && trace[0] == Start(matching, limit)
    requires !trace[k].truncated
    ensures trace[0].entities == Elems(matching)
  {
    if k > 0 {
      UncutBefore(space, limit, trace, k);
      SeedsAreAll(space, matching, limit, trace, k - 1);
    }
  }

  /** The live relations with an end among `ids`. */
  ghost function Around(space: Space, ids: set<int>): set<Relation> {
    set r | r in space.relations && Touches(r, ids)
  }

  /** k rounds leave room for another one, unless there is nothing more to find. */
  ghost predicate RoomAfter(space: Space, seeds: set<int>, limit: nat, k: nat) {
    || |Around(space, Inner(space, seeds, k))| < RelationLimit(limit)
    || Beyond(space, Ball(space, seeds, k)) <= Ball(space, seeds, k)
  }

  lemma CollectedIsAround(space: Space, relations: set<Relation>, ids: set<int>)
    requires Collected(space, relations, ids)
    ensures relations == Around(space, ids)
  {
  }

  /** A round that was begun had room. */
  lemma BegunHadRoom(space: Space, matching: seq<int>, limit: nat, trace: seq<Found>, k: nat)
    requires forall e :: e in matching ==> e in space.live
    requires Rounds(space, limit, trace) && k + 1 < |trace| && trace[0] == Start(matching, limit)
    requires !trace[k].truncated
    ensures |Around(space, Inner(space, trace[0].entities, k))| < RelationLimit(limit)
  {
    ExactSoFar(space, matching, limit, trace, k);
    CollectedIsAround(space, trace[k].relations, Inner(space, trace[0].entities, k));
    assert RoundAt(space, limit, RelationLimit(limit), trace, k);
  }

  lemma {:induction false} UncutThroughout(space: Space, limit: nat, trace: seq<Found>, k: nat, last: nat)
    requires Rounds(space, limit, trace) && k <= last < |trace| && !trace[last].truncated
    ensures !trace[k].truncated
    decreases last
  {
    if k < last {
      UncutBefore(space, limit, trace, last);
      UncutThroughout(space, limit, trace, k, last - 1);
    }
  }

  /** An exploration that stopped with nothing left to find, or without room, had no room unless it was done. */
  lemma StoppedWhenDone(space: Space, seeds: set<int>, limit: nat, k: nat, z: Found)
    requires ExactAt(space, seeds, k, z) && !Going(RelationLimit(limit), z) && RoomAfter(space, seeds, limit, k)
    ensures Beyond(space, Ball(space, seeds, k)) <= Ball(space, seeds, k)
  {
    CollectedIsAround(space, z.relations, Inner(space, seeds, k));
    if z.frontier == {} {
      NoFrontier(space, seeds, k, z);
      QuietBall(space, seeds, k);
    }
  }

  /** Between two equal balls nothing is left to find. */
  lemma NothingBetween(space: Space, seeds: set<int>, k: nat, j: nat, depth: nat)
    requires k <= j < depth && Ball(space, seeds, k) == Ball(space, seeds, depth)
    ensures Beyond(space, Ball(space, seeds, j)) <= Ball(space, seeds, j)
  {
    BallGrows(space, seeds, k, j);
    BallGrows(space, seeds, j + 1, depth);
    assert Beyond(space, Ball(space, seeds, j)) <= Ball(space, seeds, j + 1);
  }

  lemma DoneMeansRoom(space: Space, matching: seq<int>, limit: nat, depth: nat, trace: seq<Found>, j: nat)
    requires forall e :: e in matching ==> e in space.live
    requires Exploration(space, limit, depth, trace) && trace[0] == Start(matching, limit)
    requires !trace[|trace| - 1].truncated && j < depth
    requires Ball(space, trace[0].entities, |trace| - 1) == Ball(space, trace[0].entities, depth)
    ensures RoomAfter(space, trace[0].entities, limit, j)
  {
    if j + 1 < |trace| {
      UncutThroughout(space, limit, trace, j, |trace| - 1);
      BegunHadRoom(space, matching, limit, trace, j);
    } else {
      NothingBetween(space, trace[0].entities, |trace| - 1, j, depth);
    }
  }

  lemma RoomMeansDone(space: Space, matching: seq<int>, limit: nat, depth: nat, trace: seq<Found>)
    requires forall e :: e in matching ==> e in space.live
    requires Exploration(space, limit, depth, trace) && trace[0] == Start(matching, limit)
    requires !trace[|trace| - 1].truncated
    requires |trace| <= depth ==> RoomAfter(space, trace[0].entities, limit, |trace| - 1)
    ensures Ball(space, trace[0].entities, |trace| - 1) == Ball(space, trace[0].entities, depth)
  {
    var k := |trace| - 1;
    if k < depth {
      ExactSoFar(space, matching, limit, trace, k);
      StoppedWhenDone(space, trace[0].entities, limit, k, trace[k]);
      BallStops(space, trace[0].entities, k, depth);
    }
  }

  /**
   * Reaching the relation limit ends the rounds without saying so. With nothing reported cut off, the entities are
   * those within `depth` hops if and only if, for every k below `depth`, fewer relations than the limit touch the
   * entities within k - 1 hops, or no live entity is exactly k + 1 hops away.
   */
  lemma {:induction false} CompleteIff(space: Space, matching: seq<int>, limit: nat, depth: nat, trace: seq<Found>)
    requires forall e :: e in matching ==> e in space.live
    requires Exploration(space, limit, depth, trace) && trace[0] == Start(matching, limit)
    requires !trace[|trace| - 1].truncated
    ensures trace[|trace| - 1].entities == Ball(space, Elems(matching), depth)
      <==> forall k: nat :: k < depth ==> RoomAfter(space, Elems(matching), limit, k)
  {
    var last := |trace| - 1;
    ExactSoFar(space, matching, limit, trace, last);
    SeedsAreAll(space, matching, limit, trace, last);
    if trace[last].entities == Ball(space, Elems(matching), depth) {
      forall k: nat | k < depth ensures RoomAfter(space, Elems(matching), limit, k) {
        DoneMeansRoom(space, matching, limit, depth, trace, k);
      }
    } else if forall k: nat :: k < depth ==> RoomAfter(space, Elems(matching), limit, k) {
      RoomMeansDone(space, matching, limit, depth, trace);
    }
  }

  // ---- nothing is reported cut off without a reason ----------------------------------------

  /**
   * What is newly within k hops can be explored in full: its relations, those found before counted again, and the
   * entities they lead to stay within the limits, and no relation leads to an entity that is gone.
   */
  ghost predicate Fits(space: Space, seeds: set<int>, limit: nat, k: nat) {
    var rows := Incident(space.relations, Ball(space, seeds, k) - Inner(space, seeds, k));
    && |rows| + |Around(space, Inner(space, seeds, k))| <= RelationLimit(limit)
    && |Ball(space, seeds, k + 1)| <= limit
    && forall r :: r in rows ==> Inside(r, space.live)
  }

  lemma CandidatesFit(space: Space, relationLimit: nat, seeds: set<int>, k: nat, s: Found, candidates: seq<int>)
    requires Listed(space, relationLimit, s, candidates)
    requires s.frontier <= s.entities <= space.live && s.entities == Ball(space, seeds, k)
    ensures |s.entities| + |candidates| <= |Ball(space, seeds, k + 1)|
  {
    CandidatesAreBeyond(space, relationLimit, s);
    CandidatesAreNew(Rows(space, relationLimit, s), s.entities);
    DistinctByCount(candidates);
    assert s.entities + Elems(candidates) <= Ball(space, seeds, k + 1);
    WithinCount(s.entities + Elems(candidates), Ball(space, seeds, k + 1));
  }

  lemma WithinCount(a: set<int>, b: set<int>)
    requires a <= b
    ensures |a| <= |b|
  {
    assert b == a + (b - a);
  }

  /** Rows between live entities are inside once every live candidate is added. */
  lemma AllInside(rows: seq<Relation>, live: set<int>, entities: set<int>, all: set<int>)
    requires forall r :: r in rows ==> Inside(r, live)
    requires entities + Candidates(rows, entities) * live <= all
    ensures !SomeOutside(rows, all)
  {
    OutsideIs(rows, all);
    forall r | r in rows ensures Inside(r, all) {
      CandidatesAre(rows, entities, r.source);
      CandidatesAre(rows, entities, r.target);
    }
  }

  lemma FitsMeansUncut(space: Space, limit: nat, seeds: set<int>, k: nat, s: Found, candidates: seq<int>)
    requires Bounded(space, limit, RelationLimit(limit), s) && ExactAt(space, seeds, k, s) && !s.truncated
    requires Listed(space, RelationLimit(limit), s, candidates) && Fits(space, seeds, limit, k)
    ensures !Advance(space, limit, RelationLimit(limit), s, candidates).truncated
  {
    CollectedIsAround(space, s.relations, Inner(space, seeds, k));
    var rows := Rows(space, RelationLimit(limit), s);
    assert rows == Incident(space.relations, s.frontier);
    CandidatesFit(space, RelationLimit(limit), seeds, k, s, candidates);
    TakenCount(candidates, limit - |s.entities|);
    AllInside(rows, space.live, s.entities, s.entities + Elems(candidates));
  }

  lemma UncutMeansFits(space: Space, limit: nat, seeds: set<int>, k: nat, s: Found, candidates: seq<int>)
    requires Bounded(space, limit, RelationLimit(limit), s) && ExactAt(space, seeds, k, s)
    requires Listed(space, RelationLimit(limit), s, candidates)
    requires !Advance(space, limit, RelationLimit(limit), s, candidates).truncated
    ensures Fits(space, seeds, limit, k)
  {
    var t := Advance(space, limit, RelationLimit(limit), s, candidates);
    CollectedIsAround(space, s.relations, Inner(space, seeds, k));
    AdvanceIsExact(space, limit, RelationLimit(limit), Inner(space, seeds, k), s, candidates);
    AdvanceKeepsBounded(space, limit, RelationLimit(limit), s, candidates);
    NothingCut(space, limit, RelationLimit(limit), s, candidates);
    OutsideIs(Rows(space, RelationLimit(limit), s), t.entities);
  }

  lemma NextUncutIff(space: Space, limit: nat, seeds: set<int>, trace: seq<Found>, k: nat)
    requires Rounds(space, limit, trace) && k + 1 < |trace| && !trace[k].truncated
    requires Bounded(space, limit, RelationLimit(limit), trace[k]) && ExactAt(space, seeds, k, trace[k])
    ensures !trace[k + 1].truncated <==> Fits(space, seeds, limit, k)
  {
    assert RoundAt(space, limit, RelationLimit(limit), trace, k);
    var candidates :| Listed(space, RelationLimit(limit), trace[k], candidates)
      && trace[k + 1] == Advance(space, limit, RelationLimit(limit), trace[k], candidates);
    if Fits(space, seeds, limit, k) {
      FitsMeansUncut(space, limit, seeds, k, trace[k], candidates);
    }
    if !trace[k + 1].truncated {
      UncutMeansFits(space, limit, seeds, k, trace[k], candidates);
    }
  }

  /**
   * After k rounds something is reported cut off if and only if there were more matches than the limit, or one of the
   * rounds met more than fits.
   */
  lemma {:induction false} TruncatedIff(space: Space, matching: seq<int>, limit: nat, trace: seq<Found>, k: nat)
    requires forall e :: e in matching ==> e in space.live
    requires Rounds(space, limit, trace) && k < |trace| && trace[0] == Start(matching, limit)
    ensures !trace[k].truncated <==>
      |matching| <= limit && forall j: nat :: j < k ==> Fits(space, Elems(matching), limit, j)
  {
    if k > 0 {
      TruncatedIff(space, matching, limit, trace, k - 1);
      RoundCutsIff(space, matching, limit, trace, k - 1);
    }
  }

  lemma RoundCutsIff(space: Space, matching: seq<int>, limit: nat, trace: seq<Found>, k: nat)
    requires forall e :: e in matching ==> e in space.live
    requires Rounds(space, limit, trace) && k + 1 < |trace| && trace[0] == Start(matching, limit)
    ensures !trace[k + 1].truncated <==> !trace[k].truncated && Fits(space, Elems(matching), limit, k)
  {
    if trace[k].truncated {
      assert RoundAt(space, limit, RelationLimit(limit), trace, k);
    } else {
      LimitsHold(space, matching, limit, trace, k);
      ExactSoFar(space, matching, limit, trace, k);
      SeedsAreAll(space, matching, limit, trace, k);
      NextUncutIff(space, limit, trace[0].entities, trace, k);
    }
  }

  // ---- the exploration itself --------------------------------------------------------------

  lemma NonEmpty(ids: set<int>)
    requires ids != {}
    ensures exists id :: id in ids
  {
    assert (forall id :: id !in ids) ==> ids == {};
  }

  /** The live entities among `ids`, in an order the store does not promise. */
  method FetchEntities(space: Space, ids: set<int>) returns (rows: seq<int>)
    ensures Distinct(rows) && Elems(rows) == ids * space.live
  {
    rows := [];
    var rest := ids * space.live;
    while rest != {}
      invariant Distinct(rows) && Elems(rows) !! rest && Elems(rows) + rest == ids * space.live
      decreases |rest|
    {
      assert exists id :: id in rest by {
        NonEmpty(rest);
      }
      var id :| id in rest;
      Snoc(rows, id);
      assert id in Elems(rows) <==> id in rows;
      rows := rows + [id];
      rest := rest - {id};
    }
  }

  method FetchRelations(space: Space, ids: set<int>, limit: nat) returns (rows: seq<Relation>)
    ensures rows == Take(Incident(space.relations, ids), limit)
  {
    rows := [];
    var i := 0;
    while i < |space.relations| && |rows| < limit
      invariant i <= |space.relations| && |rows| <= limit
      invariant Incident(space.relations, ids) == rows + Incident(space.relations[i..], ids)
    {
      if Touches(space.relations[i], ids) {
        Associate(rows, [space.relations[i]], Incident(space.relations[i..][1..], ids));
        rows := rows + [space.relations[i]];
      }
      assert space.relations[i..][1..] == space.relations[i + 1..];
      i := i + 1;
    }
  }

  method AddEntities(before: set<int>, candidates: seq<int>, limit: nat)
    returns (entities: set<int>, added: set<int>, cut: bool)
    requires Distinct(candidates) && Elems(candidates) !! before && |before| <= limit
    ensures added == Elems(Take(candidates, limit - |before|)) && entities == before + added
    ensures cut <==> |candidates| > limit - |before|
  {
    entities, added, cut := before, {}, false;
    for i := 0 to |candidates|
      invariant |before| + i <= limit
      invariant entities == before + added && added == Elems(candidates[..i]) && |entities| == |before| + i
    {
      if |entities| >= limit {
        return entities, added, true;
      }
      NextIsNew(candidates, before, i);
      entities := entities + {candidates[i]};
      added := added + {candidates[i]};
    }
    assert candidates[..|candidates|] == candidates;
  }

  lemma NextIsNew(candidates: seq<int>, before: set<int>, i: nat)
    requires Distinct(candidates) && Elems(candidates) !! before && i < |candidates|
    ensures candidates[i] !in before && candidates[i] !in Elems(candidates[..i])
    ensures Elems(candidates[..i + 1]) == Elems(candidates[..i]) + {candidates[i]}
  {
    assert candidates[i] in Elems(candidates);
    assert candidates[..i + 1] == candidates[..i] + [candidates[i]];
    Snoc(candidates[..i], candidates[i]);
  }

  method AddRelations(before: set<Relation>, rows: seq<Relation>, entities: set<int>)
    returns (relations: set<Relation>, cut: bool)
    ensures relations == WithInside(before, rows, entities) && (cut <==> SomeOutside(rows, entities))
  {
    relations, cut := before, false;
    for i := 0 to |rows|
      invariant relations == WithInside(before, rows[..i], entities)
      invariant cut <==> SomeOutside(rows[..i], entities)
    {
      assert rows[..i + 1] == rows[..i] + [rows[i]];
      assert rows[..i + 1][..i] == rows[..i];
      if Inside(rows[i], entities) {
        relations := relations + {rows[i]};
      } else {
        cut := true;
      }
    }
    assert rows[..|rows|] == rows;
  }

  method Round(space: Space, limit: nat, relationLimit: nat, s: Found) returns (t: Found)
    requires |s.entities| <= limit && Going(relationLimit, s)
    ensures IsRound(space, limit, relationLimit, s, t)
  {
    var room := relationLimit - |s.relations|;
    var rows := FetchRelations(space, s.frontier, room + 1);
    var truncated := s.truncated || |rows| > room;
    rows := Take(rows, room);
    TakeTwice(Incident(space.relations, s.frontier), room);
    assert rows == Rows(space, relationLimit, s);
    var candidates := Fetch(space, rows, s.entities);
    t := AbsorbRows(limit, s, rows, candidates, truncated);
    RoundBy(space, limit, relationLimit, s, rows, candidates);
  }

  method AbsorbRows(limit: nat, s: Found, rows: seq<Relation>, candidates: seq<int>, cut: bool) returns (t: Found)
    requires |s.entities| <= limit && Distinct(candidates) && Elems(candidates) !! s.entities
    ensures t == Absorb(limit, s, rows, candidates, cut)
  {
    ghost var absorbed := Absorb(limit, s, rows, candidates, cut);
    var entities, added, fullUp := AddEntities(s.entities, candidates, limit);
    assert entities == absorbed.entities && added == absorbed.frontier;
    var relations, dropped := AddRelations(s.relations, rows, entities);
    t := Found(entities, relations, added, cut || fullUp || dropped);
  }

  lemma TakeTwice<T>(all: seq<T>, room: nat)
    ensures Take(Take(all, room + 1), room) == Take(all, room)
    ensures |Take(all, room + 1)| > room <==> |all| > room
  {
  }

  lemma RoundBy(space: Space, limit: nat, relationLimit: nat, s: Found, rows: seq<Relation>, candidates: seq<int>)
    requires Going(relationLimit, s) && rows == Rows(space, relationLimit, s)
    requires Distinct(candidates) && Elems(candidates) == Candidates(rows, s.entities) * space.live
    ensures IsRound(space, limit, relationLimit, s, Advance(space, limit, relationLimit, s, candidates))
  {
    assert Listed(space, relationLimit, s, candidates);
  }

  /** The live ends of the rows that are not among the entities yet. */
  method Fetch(space: Space, rows: seq<Relation>, entities: set<int>) returns (candidates: seq<int>)
    ensures Distinct(candidates) && Elems(candidates) == Candidates(rows, entities) * space.live
    ensures Elems(candidates) !! entities
  {
    var ids := Candidates(rows, entities);
    CandidatesAreNew(rows, entities);
    if ids != {} {
      candidates := FetchEntities(space, ids);
    } else {
      candidates := [];
    }
  }

  /** Explores from the first `limit` matches. A search for one given entity is the case of a single match. */
  method Explore(space: Space, matching: seq<int>, depth: nat, limit: nat)
    returns (entities: set<int>, relations: set<Relation>, truncated: bool, ghost trace: seq<Found>)
    requires (forall e :: e in matching ==> e in space.live) && limit >= 1
    ensures Exploration(space, limit, depth, trace) && trace[0] == Start(matching, limit)
    ensures var z := trace[|trace| - 1]; z.entities == entities && z.relations == relations && z.truncated == truncated
    ensures |entities| <= limit && |relations| <= RelationLimit(limit) && entities <= space.live
    ensures forall r :: r in relations ==> r in space.relations && Inside(r, entities)
    ensures entities <= Ball(space, Elems(Take(matching, limit)), depth)
    ensures !truncated && |relations| < RelationLimit(limit) ==> entities == Ball(space, Elems(matching), depth)
  {
    var seedRows := Take(matching, limit + 1);
    var seeds := Elems(Take(seedRows, limit));
    assert Take(seedRows, limit) == Take(matching, limit);
    var s := Found(seeds, {}, seeds, |seedRows| > limit);
    StartIsBounded(space, matching, limit);
    var relationLimit := if limit * 2 < 200 then limit * 2 else 200;
    trace := [s];
    var round := 0;
    while round < depth && s.frontier != {} && |s.relations| < relationLimit
      invariant round <= depth && |trace| == round + 1 && trace[round] == s && trace[0] == Start(matching, limit)
      invariant Bounded(space, limit, relationLimit, s)
      invariant Rounds(space, limit, trace)
    {
      var t := Round(space, limit, relationLimit, s);
      RoundKeepsBounded(space, limit, relationLimit, s, t);
      RoundsGrow(space, limit, trace, t);
      trace := trace + [t];
      s := t;
      round := round + 1;
    }
    WhatWasFound(space, matching, limit, depth, trace);
    return s.entities, s.relations, s.truncated, trace;
  }

  /** What the theorems say of the last round. */
  lemma {:induction false} WhatWasFound(space: Space, matching: seq<int>, limit: nat, depth: nat, trace: seq<Found>)
    requires forall e :: e in matching ==> e in space.live
    requires Exploration(space, limit, depth, trace) && trace[0] == Start(matching, limit)
    ensures var z := trace[|trace| - 1];
      && z.entities <= Ball(space, Elems(Take(matching, limit)), depth)
      && (!z.truncated && |z.relations| < RelationLimit(limit) ==> z.entities == Ball(space, Elems(matching), depth))
  {
    var k, z := |trace| - 1, trace[|trace| - 1];
    OnlyTheBall(space, matching, limit, trace, k);
    BallGrows(space, trace[0].entities, k, depth);
    if !z.truncated && |z.relations| < RelationLimit(limit) {
      CompleteUnlessCut(space, matching, limit, depth, trace);
    }
  }

  lemma RoundsGrow(space: Space, limit: nat, trace: seq<Found>, t: Found)
    requires trace != [] && Rounds(space, limit, trace)
    requires IsRound(space, limit, RelationLimit(limit), trace[|trace| - 1], t)
    ensures Rounds(space, limit, trace + [t])
  {
    var longer := trace + [t];
    forall k: nat | k + 1 < |longer| ensures RoundAt(space, limit, RelationLimit(limit), longer, k) {
      if k + 1 < |trace| {
        assert RoundAt(space, limit, RelationLimit(limit), trace, k);
      }
    }
  }

  // ---- a relation limit reached in silence -------------------------------------------------

  /** Four relations between entities 1 and 2, one from 2 to 3. */
  function Crowded(): Space {
    Space({1, 2, 3}, [Relation(1, 1, 2), Relation(2, 1, 2), Relation(3, 1, 2), Relation(4, 1, 2), Relation(5, 2, 3)])
  }

  function CrowdedRound(): Found {
    Advance(Crowded(), 2, 4, Start([1], 2), [2])
  }

  lemma CrowdedRows()
    ensures Incident(Crowded().relations, {1}) == Crowded().relations[..4]
    ensures Rows(Crowded(), 4, Start([1], 2)) == Crowded().relations[..4]
  {
    var r := Crowded().relations;
    assert Incident(r[5..], {1}) == [];
    assert Incident(r[4..], {1}) == [] by { assert r[4..][1..] == r[5..]; }
    assert Incident(r[3..], {1}) == r[3..4] by { assert r[3..][1..] == r[4..]; }
    assert Incident(r[2..], {1}) == r[2..4] by { assert r[2..][1..] == r[3..]; }
    assert Incident(r[1..], {1}) == r[1..4] by { assert r[1..][1..] == r[2..]; }
    assert Start([1], 2).frontier == {1};
  }

  lemma CrowdedRelations(entities: set<int>)
    requires 1 in entities && 2 in entities
    ensures |WithInside({}, Crowded().relations[..4], entities)| == 4
  {
    var r := Crowded().relations;
    InsideIs({}, r[..4], entities);
    assert WithInside({}, r[..4], entities) == {r[0], r[1], r[2], r[3]};
  }

  lemma CrowdedCandidates()
    ensures Listed(Crowded(), 4, Start([1], 2), [2])
    ensures Elems(Take([2], 1)) == {2}
  {
    var rows, s := Rows(Crowded(), 4, Start([1], 2)), Start([1], 2);
    CrowdedRows();
    assert s.entities == {1};
    forall f ensures f in Candidates(rows, s.entities) <==> f == 2 {
      CandidatesAre(rows, s.entities, f);
      assert rows[0].target == 2;
    }
    assert Elems([2]) == {2};
  }

  lemma CrowdedRoundIs()
    ensures CrowdedRound() == Absorb(2, Start([1], 2), Crowded().relations[..4], [2], false)
    ensures IsRound(Crowded(), 2, 4, Start([1], 2), CrowdedRound())
  {
    CrowdedRows();
    CrowdedCandidates();
    RoundBy(Crowded(), 2, 4, Start([1], 2), Crowded().relations[..4], [2]);
  }

  lemma CrowdedFinds()
    ensures var t := CrowdedRound(); t.entities == {1, 2} && |t.relations| == 4
  {
    CrowdedRoundIs();
    CrowdedStart();
    CrowdedRelations({1, 2});
  }

  lemma CrowdedStart()
    ensures Start([1], 2) == Found({1}, {}, {1}, false)
    ensures {1} + Elems(Take([2], 2 - |{1}|)) == {1, 2}
  {
    assert Take([2], 1) == [2];
  }

  lemma CrowdedIsUncut()
    ensures !CrowdedRound().truncated
  {
    CrowdedRoundIs();
    CrowdedStart();
    CrowdedInside();
    Uncut(2, Start([1], 2), Crowded().relations[..4], [2], {1, 2});
  }

  lemma CrowdedInside()
    ensures forall r :: r in Crowded().relations[..4] ==> Inside(r, {1, 2})
  {
  }

  lemma Uncut(limit: nat, s: Found, rows: seq<Relation>, candidates: seq<int>, entities: set<int>)
    requires |candidates| <= limit - |s.entities| && entities == s.entities + Elems(candidates)
    requires forall r :: r in rows ==> Inside(r, entities)
    ensures !Absorb(limit, s, rows, candidates, false).truncated
  {
    OutsideIs(rows, entities);
  }

  lemma TwoHopsAway()
    ensures 3 in Ball(Crowded(), {1}, 2)
  {
    var r := Crowded().relations;
    assert r[0] in r && r[4] in r;
    assert (1, 2) in Hops(Crowded()) && (2, 3) in Hops(Crowded());
    assert ShortWalk(Crowded(), {1}, 2, 3, [1, 2, 3]);
    WalksStayInBall(Crowded(), {1}, 2, 3, [1, 2, 3]);
  }

  lemma OneRoundThenFull(space: Space, limit: nat, depth: nat, s: Found, t: Found)
    requires depth >= 2 && IsRound(space, limit, RelationLimit(limit), s, t) && |t.relations| == RelationLimit(limit)
    ensures Exploration(space, limit, depth, [s, t])
  {
    var trace := [s, t];
    forall k: nat | k + 1 < |trace| ensures RoundAt(space, limit, RelationLimit(limit), trace, k) {
      assert k == 0;
    }
  }

  lemma CrowdedExploration()
    ensures Exploration(Crowded(), 2, 2, [Start([1], 2), CrowdedRound()])
  {
    CrowdedRoundIs();
    CrowdedFinds();
    assert RelationLimit(2) == 4;
    OneRoundThenFull(Crowded(), 2, 2, Start([1], 2), CrowdedRound());
  }

  /**
   * The relation limit is reached in the first round: entity 3, two hops away, is missing and nothing is reported cut
   * off.
   */
  lemma {:induction false} SilentLimit()
    ensures Exploration(Crowded(), 2, 2, [Start([1], 2), CrowdedRound()])
    ensures !CrowdedRound().truncated
    ensures 3 !in CrowdedRound().entities && 3 in Ball(Crowded(), {1}, 2)
  {
    CrowdedFinds();
    CrowdedIsUncut();
    CrowdedExploration();
    TwoHopsAway();
  }
}
