/** Moving the records of one vector store into another, checking the copy, and taking it back. */
module VectorMigration {
  import opened Results
  import opened Sequences
  import opened Ids

  datatype Record = Record(id: string, embedding: seq<real>, document: string, metadata: map<string, string>)

  type Records = map<string, Record>

  datatype UpsertError = MixedDimensions | WrongDimension | Unavailable

  datatype Refused = BatchSizeNotPositive

  predicate Keyed(m: Records) {
    forall id :: id in m ==> m[id].id == id
  }

  /** All embeddings have one dimension. */
  predicate Uniform(m: Records) {
    forall a, b :: a in m && b in m ==> |m[a].embedding| == |m[b].embedding|
  }

  function Dimensions(batch: seq<Record>): set<nat> {
    if batch == [] then {} else Dimensions(batch[1..]) + {|batch[0].embedding|}
  }

  function KnownDimensions(m: Records): set<nat> {
    set id | id in m :: |m[id].embedding|
  }

  /** Why a store refuses a batch, if it does. */
  function Refusal(m: Records, batch: seq<Record>): Option<UpsertError> {
    if |Dimensions(batch)| > 1 then Some(MixedDimensions)
    else if KnownDimensions(m) != {} && Dimensions(batch) != {} && Dimensions(batch) != KnownDimensions(m)
    then Some(WrongDimension)
    else None
  }

  function Put(m: Records, batch: seq<Record>): Records {
    if batch == [] then m
    else
      var last := batch[|batch| - 1];
      Put(m, batch[..|batch| - 1])[last.id := last]
  }

  /** The record is the last of its id in the batch. */
  ghost predicate LastOf(batch: seq<Record>, id: string, i: nat) {
    i < |batch| && batch[i].id == id && forall j :: i < j < |batch| ==> batch[j].id != id
  }

  ghost predicate Holds(batch: seq<Record>, id: string) {
    exists i :: 0 <= i < |batch| && batch[i].id == id
  }

  /** Each id of the batch is stored with its last record; every other id keeps what it had. */
  ghost predicate Stored(before: Records, batch: seq<Record>, after: Records) {
    && (forall id :: id in after <==> id in before || Holds(batch, id))
    && (forall id, i: nat :: LastOf(batch, id, i) ==> after[id] == batch[i])
    && (forall id :: id in before && !Holds(batch, id) ==> after[id] == before[id])
  }

  lemma StoredOne(before: Records, batch: seq<Record>, after: Records, r: Record)
    requires Stored(before, batch, after)
    ensures Stored(before, batch + [r], after[r.id := r])
  {
    var more := batch + [r];
    forall id ensures Holds(more, id) <==> Holds(batch, id) || id == r.id {
      assert more[|batch|] == r;
      if i :| 0 <= i < |batch| && batch[i].id == id {
        assert more[i] == batch[i];
      }
    }
    forall id, i: nat | LastOf(more, id, i) ensures after[r.id := r][id] == more[i] {
      if i < |batch| {
        assert more[|batch|] == r && forall j :: 0 <= j < |batch| ==> more[j] == batch[j];
        assert LastOf(batch, id, i);
      }
    }
  }

  lemma {:induction false} PutIs(m: Records, batch: seq<Record>)
    ensures Stored(m, batch, Put(m, batch))
  {
    if batch != [] {
      var front := batch[..|batch| - 1];
      assert batch == front + [batch[|batch| - 1]];
      PutIs(m, front);
      StoredOne(m, front, Put(m, front), batch[|batch| - 1]);
    }
  }

  /** Two records of the batch have embeddings of different size. */
  ghost predicate Mixes(batch: seq<Record>) {
    exists i, j :: 0 <= i < |batch| && 0 <= j < |batch| && |batch[i].embedding| != |batch[j].embedding|
  }

  /** A record of the batch has an embedding of another size than one that is stored. */
  ghost predicate Clashes(m: Records, batch: seq<Record>) {
    exists i, id :: 0 <= i < |batch| && id in m && |batch[i].embedding| != |m[id].embedding|
  }

  lemma {:induction false} DimensionsAre(batch: seq<Record>, d: nat)
    ensures d in Dimensions(batch) <==> exists i :: 0 <= i < |batch| && |batch[i].embedding| == d
  {
    if batch != [] {
      DimensionsAre(batch[1..], d);
      if i :| 0 <= i < |batch[1..]| && |batch[1..][i].embedding| == d {
        assert |batch[i + 1].embedding| == d;
      }
      if i :| 0 <= i < |batch| && |batch[i].embedding| == d && i > 0 {
        assert |batch[1..][i - 1].embedding| == d;
      }
    }
  }

  lemma MixesIff(batch: seq<Record>)
    ensures |Dimensions(batch)| > 1 <==> Mixes(batch)
  {
    if Mixes(batch) {
      var i, j :| 0 <= i < |batch| && 0 <= j < |batch| && |batch[i].embedding| != |batch[j].embedding|;
      DimensionsAre(batch, |batch[i].embedding|);
      DimensionsAre(batch, |batch[j].embedding|);
      SubsetCount({|batch[i].embedding|, |batch[j].embedding|}, Dimensions(batch));
    }
    if |Dimensions(batch)| > 1 {
      var a :| a in Dimensions(batch);
      assert |Dimensions(batch) - {a}| == |Dimensions(batch)| - 1;
      var b :| b in Dimensions(batch) - {a};
      DimensionsAre(batch, a);
      DimensionsAre(batch, b);
    }
  }

  /** A batch is refused for mixing sizes, or else for another size than what is stored, and for nothing else. */
  lemma {:induction false} RefusalIs(m: Records, batch: seq<Record>)
    requires Uniform(m)
    ensures Refusal(m, batch) ==
      if Mixes(batch) then Some(MixedDimensions) else if Clashes(m, batch) then Some(WrongDimension) else None
  {
    MixesIff(batch);
    if !Mixes(batch) {
      ClashesIff(m, batch);
    }
  }

  lemma ClashesIff(m: Records, batch: seq<Record>)
    requires Uniform(m) && !Mixes(batch)
    ensures Clashes(m, batch)
      <==> KnownDimensions(m) != {} && Dimensions(batch) != {} && Dimensions(batch) != KnownDimensions(m)
  {
    if batch != [] && m != map[] {
      var id :| id in m;
      var d, e := |batch[0].embedding|, |m[id].embedding|;
      assert forall i :: 0 <= i < |batch| ==> |batch[i].embedding| == d;
      assert KnownDimensions(m) == {e};
      forall x ensures x in Dimensions(batch) <==> x == d {
        DimensionsAre(batch, x);
        assert x == d ==> |batch[0].embedding| == x;
      }
      assert Dimensions(batch) == {d};
    }
  }

  // ---- batches -----------------------------------------------------------------------------

  function Flat(batches: seq<seq<Record>>): seq<Record> {
    if batches == [] then [] else Flat(batches[..|batches| - 1]) + batches[|batches| - 1]
  }

  /** The records of a store, by ascending id. */
  ghost predicate InOrder(m: Records, records: seq<Record>) {
    Ascending(IdsOf(records)) && Elems(IdsOf(records)) == m.Keys && AllFrom(m, records)
  }

  predicate AllFrom(m: Records, records: seq<Record>) {
    records == [] || (AllFrom(m, records[..|records| - 1]) && From(m, records[|records| - 1]))
  }

  predicate From(m: Records, r: Record) {
    r.id in m && m[r.id] == r
  }

  function IdsOf(records: seq<Record>): (ids: seq<string>)
    ensures |ids| == |records|
  {
    if records == [] then [] else IdsOf(records[..|records| - 1]) + [records[|records| - 1].id]
  }

  lemma {:induction false} IdsAppend(a: seq<Record>, b: seq<Record>)
    ensures IdsOf(a + b) == IdsOf(a) + IdsOf(b)
  {
    if b == [] {
      assert a + b == a;
    } else {
      var front, last := b[..|b| - 1], b[|b| - 1];
      assert (a + b)[..|a + b| - 1] == a + front && (a + b)[|a + b| - 1] == last;
      IdsAppend(a, front);
    }
  }

  lemma {:induction false} AllFromAppend(m: Records, a: seq<Record>, b: seq<Record>)
    ensures AllFrom(m, a + b) <==> AllFrom(m, a) && AllFrom(m, b)
  {
    if b == [] {
      assert a + b == a;
    } else {
      var front, last := b[..|b| - 1], b[|b| - 1];
      assert (a + b)[..|a + b| - 1] == a + front && (a + b)[|a + b| - 1] == last;
      AllFromAppend(m, a, front);
    }
  }

  predicate NoneEmpty(batches: seq<seq<Record>>) {
    batches == [] || (NoneEmpty(batches[..|batches| - 1]) && batches[|batches| - 1] != [])
  }

  /** A way of handing out the records of a store in batches. */
  ghost predicate Batching(m: Records, batches: seq<seq<Record>>) {
    InOrder(m, Flat(batches)) && NoneEmpty(batches)
  }

  class InMemoryVectorStore {
    var records: Records

    ghost predicate Valid()
      reads this
    {
      Keyed(records) && Uniform(records)
    }

    constructor ()
      ensures Valid() && records == map[]
    {
      records := map[];
    }

    /** All or nothing. */
    method Upsert(batch: seq<Record>) returns (error: Option<UpsertError>)
      requires Valid()
      modifies this
      ensures Valid() && error == Refusal(old(records), batch)
      ensures records == if error == None then Put(old(records), batch) else old(records)
      ensures error == if Mixes(batch) then Some(MixedDimensions)
                       else if Clashes(old(records), batch) then Some(WrongDimension) else None
      ensures if error == None then Stored(old(records), batch, records) else records == old(records)
    {
      RefusalIs(records, batch);
      PutIs(records, batch);
      error := Refusal(records, batch);
      if error == None {
        PutKeepsValid(records, batch);
        records := Put(records, batch);
      }
    }

    method Get(ids: seq<string>) returns (found: seq<Record>)
      requires Valid()
      ensures IdsOf(found) == Present(records, ids) && AllFrom(records, found)
    {
      found := [];
      for i := 0 to |ids|
        invariant IdsOf(found) == Present(records, ids[..i]) && AllFrom(records, found)
      {
        assert ids[..i + 1][..i] == ids[..i];
        if ids[i] in records {
          AllFromSnoc(records, found, records[ids[i]]);
          found := found + [records[ids[i]]];
        }
      }
      assert ids[..|ids|] == ids;
    }

    method Delete(ids: seq<string>)
      requires Valid()
      modifies this
      ensures Valid() && records == old(records) - Elems(ids)
    {
      for i := 0 to |ids|
        invariant records == old(records) - Elems(ids[..i])
      {
        assert ids[..i + 1] == ids[..i] + [ids[i]];
        Snoc(ids[..i], ids[i]);
        records := records - {ids[i]};
      }
      assert ids[..|ids|] == ids;
    }

    /** The records by ascending id, `batchSize` at a time; only the last batch may be smaller. */
    method Batches(batchSize: int) returns (r: Result<seq<seq<Record>>, Refused>)
      requires Valid()
      ensures batchSize < 1 ==> r == Err(BatchSizeNotPositive)
      ensures batchSize >= 1 ==> r.Ok? && Batching(records, r.value) && Sized(r.value, batchSize)
    {
      if batchSize < 1 {
        return Err(BatchSizeNotPositive);
      }
      var ids := SortedIds(records.Keys);
      var sorted := Get(ids);
      AllPresent(records, ids);
      var batches := Sliced(sorted, batchSize);
      return Ok(batches);
    }
  }

  /** Every batch has the given size, but for a last one that may be smaller and is not empty. */
  predicate Sized(batches: seq<seq<Record>>, size: int) {
    batches == []
    || (AllOfSize(batches[..|batches| - 1], size) && 1 <= |batches[|batches| - 1]| <= size)
  }

  predicate AllOfSize(batches: seq<seq<Record>>, size: int) {
    batches == [] || (AllOfSize(batches[..|batches| - 1], size) && |batches[|batches| - 1]| == size)
  }

  lemma AllOfSizeSnoc(batches: seq<seq<Record>>, batch: seq<Record>, size: int)
    requires AllOfSize(batches, size) && 1 <= |batch| <= size
    ensures Sized(batches + [batch], size)
    ensures |batch| == size ==> AllOfSize(batches + [batch], size)
  {
    assert (batches + [batch])[..|batches|] == batches;
  }

  /** Slices of one size, from the front. */
  method Sliced(records: seq<Record>, size: nat) returns (batches: seq<seq<Record>>)
    requires size >= 1
    ensures Flat(batches) == records && NoneEmpty(batches) && Sized(batches, size)
  {
    batches := [];
    var offset := 0;
    while offset < |records|
      invariant offset <= |records| && Flat(batches) == records[..offset] && NoneEmpty(batches)
      invariant Sized(batches, size) && (offset < |records| ==> AllOfSize(batches, size))
    {
      var end := if offset + size < |records| then offset + size else |records|;
      FlatSnoc(batches, records[offset..end]);
      AllOfSizeSnoc(batches, records[offset..end], size);
      Extends(records, offset, end);
      batches := batches + [records[offset..end]];
      offset := end;
    }
    assert records[..|records|] == records;
  }

  lemma FlatSnoc(batches: seq<seq<Record>>, batch: seq<Record>)
    ensures Flat(batches + [batch]) == Flat(batches) + batch
    ensures NoneEmpty(batches + [batch]) <==> NoneEmpty(batches) && batch != []
  {
    assert (batches + [batch])[..|batches|] == batches;
  }

  lemma Extends<T>(s: seq<T>, i: nat, j: nat)
    requires i <= j <= |s|
    ensures s[..j] == s[..i] + s[i..j]
  {
  }

  function Present(m: Records, ids: seq<string>): seq<string> {
    if ids == [] then []
    else Present(m, ids[..|ids| - 1]) + if ids[|ids| - 1] in m then [ids[|ids| - 1]] else []
  }

  lemma {:induction false} AllPresent(m: Records, ids: seq<string>)
    requires Elems(ids) <= m.Keys
    ensures Present(m, ids) == ids
  {
    if ids != [] {
      var front, last := ids[..|ids| - 1], ids[|ids| - 1];
      assert ids == front + [last];
      Snoc(front, last);
      AllPresent(m, front);
    }
  }

  lemma AllFromSnoc(m: Records, found: seq<Record>, r: Record)
    requires AllFrom(m, found) && From(m, r)
    ensures AllFrom(m, found + [r]) && IdsOf(found + [r]) == IdsOf(found) + [r.id]
  {
    assert (found + [r])[..|found|] == found;
  }

  lemma {:induction false} PutKeepsKeyed(m: Records, batch: seq<Record>)
    requires Keyed(m)
    ensures Keyed(Put(m, batch))
  {
    if batch != [] {
      PutKeepsKeyed(m, batch[..|batch| - 1]);
    }
  }

  predicate BatchOf(batch: seq<Record>, d: nat) {
    batch == [] || (|batch[0].embedding| == d && BatchOf(batch[1..], d))
  }

  predicate StoreOf(m: Records, d: nat) {
    forall id :: id in m ==> |m[id].embedding| == d
  }

  lemma {:induction false} OneDimension(batch: seq<Record>, d: nat)
    ensures BatchOf(batch, d) <==> Dimensions(batch) <= {d}
    ensures batch == [] <==> Dimensions(batch) == {}
  {
    if batch != [] {
      OneDimension(batch[1..], d);
      assert |batch[0].embedding| in Dimensions(batch);
    }
  }

  lemma AtMostOneMember(s: set<nat>, d: nat)
    requires |s| <= 1 && d in s
    ensures s == {d}
  {
    assert |s - {d}| == |s| - 1;
  }

  lemma {:induction false} BatchLast(batch: seq<Record>, d: nat)
    requires batch != []
    ensures BatchOf(batch, d) <==> BatchOf(batch[..|batch| - 1], d) && |batch[|batch| - 1].embedding| == d
  {
    if |batch| > 1 {
      assert batch[1..][..|batch[1..]| - 1] == batch[..|batch| - 1][1..];
      BatchLast(batch[1..], d);
    }
  }

  lemma {:induction false} PutKeepsDimension(m: Records, batch: seq<Record>, d: nat)
    requires StoreOf(m, d) && BatchOf(batch, d)
    ensures StoreOf(Put(m, batch), d)
  {
    if batch != [] {
      BatchLast(batch, d);
      PutKeepsDimension(m, batch[..|batch| - 1], d);
    }
  }

  /** A non-empty batch is accepted exactly when its embeddings share one dimension, the store's if it has any. */
  lemma {:induction false} AcceptedIff(m: Records, batch: seq<Record>)
    requires Uniform(m) && batch != []
    ensures var d := |batch[0].embedding|; Refusal(m, batch) == None <==> BatchOf(batch, d) && StoreOf(m, d)
  {
    var d := |batch[0].embedding|;
    OneDimension(batch, d);
    assert d in Dimensions(batch);
    if |Dimensions(batch)| <= 1 {
      AtMostOneMember(Dimensions(batch), d);
    }
    KnownIs(m, d);
    if BatchOf(batch, d) {
      assert Dimensions(batch) == {d};
    }
  }

  lemma KnownIs(m: Records, d: nat)
    requires Uniform(m)
    ensures StoreOf(m, d) <==> KnownDimensions(m) == {} || KnownDimensions(m) == {d}
  {
    forall id | id in m ensures |m[id].embedding| in KnownDimensions(m) {
    }
    if StoreOf(m, d) && KnownDimensions(m) != {} {
      assert KnownDimensions(m) <= {d};
    }
  }

  lemma PutKeepsValid(m: Records, batch: seq<Record>)
    requires Keyed(m) && Uniform(m) && Refusal(m, batch) == None
    ensures Keyed(Put(m, batch)) && Uniform(Put(m, batch))
  {
    PutKeepsKeyed(m, batch);
    if batch != [] {
      var d := |batch[0].embedding|;
      AcceptedIff(m, batch);
      PutKeepsDimension(m, batch, d);
    }
  }

  // ---- migrating ---------------------------------------------------------------------------

  /** Whether the target is unavailable for the n-th call, with that batch. */
  type Outage = (nat, seq<Record>) -> bool

  datatype Progress = Progress(target: Records, migrated: seq<string>, failed: map<string, UpsertError>, calls: nat)

  function Attempt(p: Progress, batch: seq<Record>, down: Outage): Option<UpsertError> {
    if down(p.calls, batch) then Some(Unavailable) else Refusal(p.target, batch)
  }

  /** One record on its own. */
  function One(p: Progress, r: Record, down: Outage): Progress {
    match Attempt(p, [r], down)
    case Some(error) => p.(failed := p.failed[r.id := error], calls := p.calls + 1)
    case None => p.(target := Put(p.target, [r]), migrated := p.migrated + [r.id], calls := p.calls + 1)
  }

  function Each(p: Progress, batch: seq<Record>, down: Outage): Progress {
    if batch == [] then p else One(Each(p, batch[..|batch| - 1], down), batch[|batch| - 1], down)
  }

  /** One call for a batch, and one more for each of its records when it fails as a whole. */
  lemma {:induction false} CallsCount(p: Progress, batch: seq<Record>, down: Outage)
    ensures Each(p, batch, down).calls == p.calls + |batch|
    ensures Whole(p, batch, down).calls == p.calls + 1 + if Attempt(p, batch, down) == None then 0 else |batch|
  {
    CountEach(p, batch, down);
    CountEach(p.(calls := p.calls + 1), batch, down);
  }

  lemma {:induction false} CountEach(p: Progress, batch: seq<Record>, down: Outage)
    ensures Each(p, batch, down).calls == p.calls + |batch|
  {
    if batch != [] {
      CountEach(p, batch[..|batch| - 1], down);
    }
  }

  /** A whole batch or, if that fails, each of its records. */
  function Whole(p: Progress, batch: seq<Record>, down: Outage): Progress {
    if Attempt(p, batch, down) == None
    then p.(target := Put(p.target, batch), migrated := p.migrated + IdsOf(batch), calls := p.calls + 1)
    else Each(p.(calls := p.calls + 1), batch, down)
  }

  function Migrated(p: Progress, batches: seq<seq<Record>>, down: Outage): Progress {
    if batches == [] then p
    else Whole(Migrated(p, batches[..|batches| - 1], down), batches[|batches| - 1], down)
  }

  datatype Report = Report(scanned: nat, migratedIds: seq<string>, failed: map<string, UpsertError>)

  /** The target before with these records of the source on top. */
  function Overlay(before: Records, source: Records, ids: set<string>): Records {
    before + (map id | id in ids && id in source :: source[id])
  }

  /** Each record so far is either migrated or failed, and the target has gained exactly the migrated ones. */
  ghost predicate Accounted(source: Records, before: Records, done: seq<Record>, p: Progress) {
    && Distinct(p.migrated)
    && Elems(p.migrated) !! p.failed.Keys
    && Elems(p.migrated) + p.failed.Keys == Elems(IdsOf(done))
    && p.target == Overlay(before, source, Elems(p.migrated))
  }

  lemma OverlayOne(before: Records, source: Records, ids: set<string>, r: Record)
    requires From(source, r)
    ensures Put(Overlay(before, source, ids), [r]) == Overlay(before, source, ids + {r.id})
  {
    assert [r][..0] == [];
    assert Put(Overlay(before, source, ids), [r]) == Overlay(before, source, ids)[r.id := r];
  }

  lemma OneMore(source: Records, before: Records, done: seq<Record>, p: Progress, r: Record, down: Outage)
    requires Accounted(source, before, done, p) && From(source, r) && r.id !in IdsOf(done)
    ensures Accounted(source, before, done + [r], One(p, r, down))
  {
    match Attempt(p, [r], down)
    case Some(error) => OneFailed(source, before, done, p, r, error);
    case None => OneTaken(source, before, done, p, r, p.calls + 1);
  }

  lemma OneFailed(source: Records, before: Records, done: seq<Record>, p: Progress, r: Record, error: UpsertError)
    requires Accounted(source, before, done, p) && r.id !in IdsOf(done)
    ensures Accounted(source, before, done + [r], p.(failed := p.failed[r.id := error], calls := p.calls + 1))
  {
    assert (done + [r])[..|done|] == done;
    Snoc(IdsOf(done), r.id);
    assert r.id !in Elems(IdsOf(done));
  }

  lemma {:induction false} EachAccounted(
    source: Records, before: Records, done: seq<Record>, p: Progress, batch: seq<Record>, down: Outage)
    requires Accounted(source, before, done, p) && AllFrom(source, batch) && Distinct(IdsOf(done + batch))
    ensures Accounted(source, before, done + batch, Each(p, batch, down))
  {
    if batch == [] {
      assert done + batch == done;
    } else {
      var front, last := batch[..|batch| - 1], batch[|batch| - 1];
      assert done + batch == done + front + [last];
      IdsAppend(done + front, [last]);
      IdsOfOne(last);
      Snoc(IdsOf(done + front), last.id);
      EachAccounted(source, before, done, p, front, down);
      OneMore(source, before, done + front, Each(p, front, down), last, down);
    }
  }

  lemma IdsOfOne(r: Record)
    ensures IdsOf([r]) == [r.id]
  {
    assert [r][..0] == [];
  }

  /** A batch accepted as a whole does what its records would one by one. */
  lemma {:induction false} BatchAccounted(
    source: Records, before: Records, done: seq<Record>, p: Progress, batch: seq<Record>, calls: nat)
    requires Accounted(source, before, done, p) && AllFrom(source, batch) && Distinct(IdsOf(done + batch))
    ensures Accounted(source, before, done + batch, TakenWhole(p, batch, calls))
  {
    if batch == [] {
      assert done + batch == done;
      assert p.migrated + [] == p.migrated;
    } else {
      var front, last := batch[..|batch| - 1], batch[|batch| - 1];
      assert done + batch == done + front + [last];
      IdsAppend(done + front, [last]);
      IdsOfOne(last);
      Snoc(IdsOf(done + front), last.id);
      BatchAccounted(source, before, done, p, front, calls);
      OneTaken(source, before, done + front, TakenWhole(p, front, calls), last, calls);
      TakenLast(p, front, last, calls);
    }
  }

  lemma OneTaken(source: Records, before: Records, done: seq<Record>, p: Progress, r: Record, calls: nat)
    requires Accounted(source, before, done, p) && From(source, r) && r.id !in IdsOf(done)
    ensures Accounted(source, before, done + [r], Taken(p, r, calls))
  {
    assert (done + [r])[..|done|] == done;
    Snoc(IdsOf(done), r.id);
    Snoc(p.migrated, r.id);
    OverlayOne(before, source, Elems(p.migrated), r);
    assert r.id !in Elems(IdsOf(done));
  }

  lemma TakenLast(p: Progress, front: seq<Record>, last: Record, calls: nat)
    ensures TakenWhole(p, front + [last], calls) == Taken(TakenWhole(p, front, calls), last, calls)
  {
    assert (front + [last])[..|front|] == front && (front + [last])[|front|] == last && [last][..0] == [];
    assert IdsOf(front + [last]) == IdsOf(front) + [last.id];
    assert Put(Put(p.target, front), [last]) == Put(p.target, front)[last.id := last];
    Associate(p.migrated, IdsOf(front), [last.id]);
  }

  function Taken(p: Progress, r: Record, calls: nat): Progress {
    p.(target := Put(p.target, [r]), migrated := p.migrated + [r.id], calls := calls)
  }

  function TakenWhole(p: Progress, batch: seq<Record>, calls: nat): Progress {
    p.(target := Put(p.target, batch), migrated := p.migrated + IdsOf(batch), calls := calls)
  }

  lemma WholeAccounted(
    source: Records, before: Records, done: seq<Record>, p: Progress, batch: seq<Record>, down: Outage)
    requires Accounted(source, before, done, p) && AllFrom(source, batch) && Distinct(IdsOf(done + batch))
    ensures Accounted(source, before, done + batch, Whole(p, batch, down))
  {
    BatchAccounted(source, before, done, p, batch, p.calls + 1);
    EachAccounted(source, before, done, p.(calls := p.calls + 1), batch, down);
  }

  function Begin(before: Records): Progress {
    Progress(before, [], map[], 0)
  }

  lemma StartAccounted(source: Records, before: Records)
    ensures Accounted(source, before, [], Begin(before))
  {
    assert Overlay(before, source, {}) == before;
  }

  lemma {:induction false} AllAccounted(source: Records, before: Records, batches: seq<seq<Record>>, down: Outage)
    requires AllFrom(source, Flat(batches)) && Distinct(IdsOf(Flat(batches)))
    ensures Accounted(source, before, Flat(batches), Migrated(Begin(before), batches, down))
  {
    if batches == [] {
      StartAccounted(source, before);
    } else {
      var front, last := batches[..|batches| - 1], batches[|batches| - 1];
      AllFromAppend(source, Flat(front), last);
      IdsAppend(Flat(front), last);
      DistinctPrefix(IdsOf(Flat(front)), IdsOf(last));
      AllAccounted(source, before, front, down);
      WholeAccounted(source, before, Flat(front), Migrated(Begin(before), front, down), last, down);
    }
  }

  lemma DistinctPrefix<T>(a: seq<T>, b: seq<T>)
    requires Distinct(a + b)
    ensures Distinct(a)
  {
    forall i, j | 0 <= i < j < |a| ensures a[i] != a[j] {
      assert (a + b)[i] != (a + b)[j];
    }
  }

  /**
   * Whatever fails, and in whatever batches: every record of the source is either migrated or failed, never both and
   * none twice, and the target has gained exactly the migrated ones.
   */
  lemma {:induction false} EveryRecordAccounted(
    source: Records, before: Records, batches: seq<seq<Record>>, down: Outage)
    requires Batching(source, batches)
    ensures var p := Migrated(Begin(before), batches, down);
      && Distinct(p.migrated) && Elems(p.migrated) !! p.failed.Keys
      && Elems(p.migrated) + p.failed.Keys == source.Keys
      && p.target == Overlay(before, source, Elems(p.migrated))
      && |Flat(batches)| == |source|
  {
    AscendingIsDistinct(IdsOf(Flat(batches)));
    DistinctByCount(IdsOf(Flat(batches)));
    AllAccounted(source, before, batches, down);
  }

  // ---- the same target for every batch size ------------------------------------------------

  /** Calls fail for what they carry alone: exactly those with a bad record among theirs. */
  ghost predicate FailsBy(down: Outage, bad: Record -> bool) {
    forall n: nat, batch: seq<Record> :: down(n, batch) <==> AnyBad(batch, bad)
  }

  predicate AnyBad(batch: seq<Record>, bad: Record -> bool) {
    batch != [] && (AnyBad(batch[..|batch| - 1], bad) || bad(batch[|batch| - 1]))
  }

  /** The dimensions of the two stores agree, as far as they have any. */
  predicate Compatible(source: Records, target: Records) {
    forall a, b :: a in source && b in target ==> |source[a].embedding| == |target[b].embedding|
  }

  /** The ids of the records that are not bad; none at all when the dimensions disagree. */
  function Welcome(fits: bool, records: seq<Record>, bad: Record -> bool): set<string> {
    if records == [] then {}
    else
      var last := records[|records| - 1];
      Welcome(fits, records[..|records| - 1], bad) + if fits && !bad(last) then {last.id} else {}
  }

  /** What is migrated so far is what is welcome; the target keeps one dimension, or is as it was. */
  ghost predicate Sifted(before: Records, d: nat, done: seq<Record>, bad: Record -> bool, p: Progress) {
    var fits := StoreOf(before, d);
    && Elems(p.migrated) == Welcome(fits, done, bad)
    && (if fits then StoreOf(p.target, d) else p.target == before)
  }

  lemma {:induction false} WelcomeAppend(fits: bool, a: seq<Record>, b: seq<Record>, bad: Record -> bool)
    ensures Welcome(fits, a + b, bad) == Welcome(fits, a, bad) + Welcome(fits, b, bad)
  {
    if b == [] {
      assert a + b == a;
    } else {
      var front, last := b[..|b| - 1], b[|b| - 1];
      assert (a + b)[..|a + b| - 1] == a + front && (a + b)[|a + b| - 1] == last;
      WelcomeAppend(fits, a, front, bad);
    }
  }

  lemma {:induction false} AllWelcome(records: seq<Record>, bad: Record -> bool)
    requires !AnyBad(records, bad)
    ensures Welcome(true, records, bad) == Elems(IdsOf(records))
  {
    if records != [] {
      AllWelcome(records[..|records| - 1], bad);
      Snoc(IdsOf(records[..|records| - 1]), records[|records| - 1].id);
    }
  }

  lemma {:induction false} FromSource(source: Records, d: nat, batch: seq<Record>)
    requires StoreOf(source, d) && AllFrom(source, batch)
    ensures BatchOf(batch, d)
  {
    if batch != [] {
      FromSource(source, d, batch[..|batch| - 1]);
      BatchLast(batch, d);
    }
  }

  /** The target takes a batch from the source exactly when the dimensions agree and no record is bad. */
  lemma AttemptIs(
    before: Records, d: nat, done: seq<Record>, bad: Record -> bool, p: Progress, batch: seq<Record>, down: Outage)
    requires Uniform(before) && FailsBy(down, bad) && Sifted(before, d, done, bad, p) && batch != []
      && BatchOf(batch, d)
    ensures Attempt(p, batch, down) == None <==> StoreOf(before, d) && !AnyBad(batch, bad)
  {
    AcceptedIff(p.target, batch);
    assert down(p.calls, batch) <==> AnyBad(batch, bad);
  }

  lemma OneSifted(source: Records, before: Records, d: nat, done: seq<Record>, bad: Record -> bool, p: Progress,
                  r: Record, down: Outage)
    requires Uniform(before) && FailsBy(down, bad) && Sifted(before, d, done, bad, p) && StoreOf(source, d)
      && From(source, r)
    ensures Sifted(before, d, done + [r], bad, One(p, r, down))
  {
    OneBad(r, bad);
    assert BatchOf([r], d);
    AttemptIs(before, d, done, bad, p, [r], down);
    assert (done + [r])[..|done|] == done;
    Snoc(p.migrated, r.id);
    if StoreOf(before, d) {
      PutKeepsDimension(p.target, [r], d);
    }
  }

  lemma OneBad(r: Record, bad: Record -> bool)
    ensures AnyBad([r], bad) <==> bad(r)
  {
    assert [r][..0] == [];
  }

  lemma {:induction false} EachSifted(
    source: Records, before: Records, d: nat, done: seq<Record>, bad: Record -> bool, p: Progress, batch: seq<Record>,
    down: Outage)
    requires Uniform(before) && FailsBy(down, bad) && Sifted(before, d, done, bad, p)
    requires StoreOf(source, d) && AllFrom(source, batch)
    ensures Sifted(before, d, done + batch, bad, Each(p, batch, down))
  {
    if batch == [] {
      assert done + batch == done;
    } else {
      var front, last := batch[..|batch| - 1], batch[|batch| - 1];
      assert done + batch == done + front + [last];
      EachSifted(source, before, d, done, bad, p, front, down);
      OneSifted(source, before, d, done + front, bad, Each(p, front, down), last, down);
    }
  }

  lemma {:induction false} WholeSifted(
    source: Records, before: Records, d: nat, done: seq<Record>, bad: Record -> bool, p: Progress, batch: seq<Record>,
    down: Outage)
    requires Uniform(before) && FailsBy(down, bad) && Sifted(before, d, done, bad, p)
    requires StoreOf(source, d) && AllFrom(source, batch) && batch != []
    ensures Sifted(before, d, done + batch, bad, Whole(p, batch, down))
  {
    FromSource(source, d, batch);
    AttemptIs(before, d, done, bad, p, batch, down);
    if Attempt(p, batch, down) == None {
      TakenSifted(before, d, done, bad, p, batch);
    } else {
      EachSifted(source, before, d, done, bad, p.(calls := p.calls + 1), batch, down);
    }
  }

  lemma TakenSifted(before: Records, d: nat, done: seq<Record>, bad: Record -> bool, p: Progress, batch: seq<Record>)
    requires Sifted(before, d, done, bad, p) && StoreOf(before, d) && !AnyBad(batch, bad) && BatchOf(batch, d)
    ensures Sifted(before, d, done + batch, bad, TakenWhole(p, batch, p.calls + 1))
  {
    WelcomeAppend(true, done, batch, bad);
    AllWelcome(batch, bad);
    ElemsAppend(p.migrated, IdsOf(batch));
    PutKeepsDimension(p.target, batch, d);
  }

  lemma ElemsAppend<T>(a: seq<T>, b: seq<T>)
    ensures Elems(a + b) == Elems(a) + Elems(b)
  {
  }

  lemma {:induction false} AllSifted(
    source: Records, before: Records, d: nat, bad: Record -> bool, batches: seq<seq<Record>>, down: Outage)
    requires Uniform(before) && FailsBy(down, bad)
    requires StoreOf(source, d) && AllFrom(source, Flat(batches)) && NoneEmpty(batches)
    ensures Sifted(before, d, Flat(batches), bad, Migrated(Begin(before), batches, down))
  {
    if batches != [] {
      var front, last := batches[..|batches| - 1], batches[|batches| - 1];
      AllFromAppend(source, Flat(front), last);
      AllSifted(source, before, d, bad, front, down);
      WholeSifted(source, before, d, Flat(front), bad, Migrated(Begin(before), front, down), last, down);
    }
  }

  lemma {:induction false} WelcomeIs(source: Records, fits: bool, records: seq<Record>, bad: Record -> bool, id: string)
    requires AllFrom(source, records)
    ensures id in Welcome(fits, records, bad) <==> id in IdsOf(records) && id in source && fits && !bad(source[id])
  {
    if records != [] {
      WelcomeIs(source, fits, records[..|records| - 1], bad, id);
    }
  }

  /** The records a migration brings over: all that are not bad, or none when the dimensions disagree. */
  function Wanted(source: Records, before: Records, bad: Record -> bool): set<string> {
    set id | id in source && Compatible(source, before) && !bad(source[id])
  }

  /**
   * With failures decided by the records alone, the result does not depend on the batches: exactly the records wanted
   * are migrated, the others have failed, and the target is what it was with those on top.
   */
  lemma {:induction false} SameInAnyBatches(
    source: Records, before: Records, bad: Record -> bool, batches: seq<seq<Record>>, down: Outage)
    requires Uniform(source) && Uniform(before) && Batching(source, batches) && FailsBy(down, bad)
    ensures var p := Migrated(Begin(before), batches, down);
      && Elems(p.migrated) == Wanted(source, before, bad)
      && p.failed.Keys == source.Keys - Wanted(source, before, bad)
      && p.target == Overlay(before, source, Wanted(source, before, bad))
  {
    var records := Flat(batches);
    var d := if records == [] then 0 else |records[0].embedding|;
    SourceDimension(source, records);
    EveryRecordAccounted(source, before, batches, down);
    AllSifted(source, before, d, bad, batches, down);
    WelcomeIsWanted(source, before, d, bad, records);
  }

  lemma WelcomeIsWanted(source: Records, before: Records, d: nat, bad: Record -> bool, records: seq<Record>)
    requires StoreOf(source, d) && AllFrom(source, records) && Elems(IdsOf(records)) == source.Keys
    ensures Welcome(StoreOf(before, d), records, bad) == Wanted(source, before, bad)
  {
    if source != map[] {
      FitsIs(source, before, d);
    }
    forall id ensures id in Welcome(StoreOf(before, d), records, bad) <==> id in Wanted(source, before, bad) {
      WelcomeIs(source, StoreOf(before, d), records, bad, id);
      assert id in IdsOf(records) <==> id in Elems(IdsOf(records));
    }
  }

  lemma SourceDimension(source: Records, records: seq<Record>)
    requires Uniform(source) && AllFrom(source, records) && Elems(IdsOf(records)) == source.Keys
    ensures StoreOf(source, if records == [] then 0 else |records[0].embedding|)
  {
    if records == [] {
      assert source.Keys == {};
    } else {
      FirstFrom(source, records);
    }
  }

  lemma {:induction false} FirstFrom(source: Records, records: seq<Record>)
    requires records != [] && AllFrom(source, records)
    ensures From(source, records[0])
  {
    if |records| > 1 {
      FirstFrom(source, records[..|records| - 1]);
    }
  }

  lemma FitsIs(source: Records, before: Records, d: nat)
    requires StoreOf(source, d) && source != map[]
    ensures Compatible(source, before) <==> StoreOf(before, d)
  {
    var id :| id in source;
    if Compatible(source, before) {
      assert |source[id].embedding| == d;
    }
  }

  // ---- the operations ----------------------------------------------------------------------

  method UpsertUnless(target: InMemoryVectorStore, batch: seq<Record>, down: bool) returns (error: Option<UpsertError>)
    requires target.Valid()
    modifies target
    ensures target.Valid() && error == if down then Some(Unavailable) else Refusal(old(target.records), batch)
    ensures target.records == if error == None then Put(old(target.records), batch) else old(target.records)
  {
    if down {
      return Some(Unavailable);
    }
    error := target.Upsert(batch);
  }

  /** The batch as a whole or, if that fails, each record on its own. */
  method MigrateBatch(target: InMemoryVectorStore, batch: seq<Record>, down: Outage, p: Progress) returns (q: Progress)
    requires target.Valid() && p.target == target.records
    modifies target
    ensures target.Valid() && q.target == target.records && q == Whole(p, batch, down)
  {
    var error := UpsertUnless(target, batch, down(p.calls, batch));
    if error == None {
      return Progress(target.records, p.migrated + IdsOf(batch), p.failed, p.calls + 1);
    }
    ghost var start := p.(calls := p.calls + 1);
    q := Progress(target.records, p.migrated, p.failed, p.calls + 1);
    for i := 0 to |batch|
      invariant target.Valid() && q.target == target.records && q == Each(start, batch[..i], down)
    {
      assert batch[..i + 1][..i] == batch[..i];
      q := MigrateOne(target, batch[i], down, q);
    }
    assert batch[..|batch|] == batch;
  }

  method MigrateOne(target: InMemoryVectorStore, r: Record, down: Outage, p: Progress) returns (q: Progress)
    requires target.Valid() && p.target == target.records
    modifies target
    ensures target.Valid() && q.target == target.records && q == One(p, r, down)
  {
    var error := UpsertUnless(target, [r], down(p.calls, [r]));
    match error
    case Some(e) => q := Progress(target.records, p.migrated, p.failed[r.id := e], p.calls + 1);
    case None => q := Progress(target.records, p.migrated + [r.id], p.failed, p.calls + 1);
  }

  /**
   * Copies the source into the target, batch by batch; `down` says which calls the target is unavailable for. The two
   * may be one store.
   */
  method MigrateVectors(source: InMemoryVectorStore, target: InMemoryVectorStore, batchSize: int, down: Outage)
    returns (r: Result<Report, Refused>, ghost batches: seq<seq<Record>>)
    requires source.Valid() && target.Valid()
    modifies target
    ensures source.Valid() && target.Valid()
    ensures batchSize < 1 ==> r == Err(BatchSizeNotPositive) && target.records == old(target.records)
    ensures batchSize >= 1 ==>
      var p := Migrated(Begin(old(target.records)), batches, down);
      && Batching(old(source.records), batches) && target.records == p.target
      && r == Ok(Report(|old(source.records)|, p.migrated, p.failed))
  {
    batches := [];
    var handed := source.Batches(batchSize);
    if handed.Err? {
      return Err(BatchSizeNotPositive), batches;
    }
    batches := handed.value;
    var scanned, p := 0, Begin(target.records);
    for i := 0 to |handed.value|
      invariant source.Valid() && target.Valid() && p.target == target.records
      invariant p == Migrated(Begin(old(target.records)), batches[..i], down) && scanned == |Flat(batches[..i])|
    {
      assert batches[..i + 1][..i] == batches[..i];
      scanned := scanned + |handed.value[i]|;
      p := MigrateBatch(target, handed.value[i], down, p);
    }
    assert batches[..|batches|] == batches;
    EveryRecordAccounted(old(source.records), old(target.records), batches, down);
    return Ok(Report(scanned, p.migrated, p.failed)), batches;
  }

  /** What a store hands out, gathered again. */
  method AllRecords(store: InMemoryVectorStore, batchSize: int) returns (r: Result<Records, Refused>)
    requires store.Valid()
    ensures batchSize < 1 ==> r == Err(BatchSizeNotPositive)
    ensures batchSize >= 1 ==> r == Ok(store.records)
  {
    var handed := store.Batches(batchSize);
    if handed.Err? {
      return Err(BatchSizeNotPositive);
    }
    var batches, records := handed.value, map[];
    for i := 0 to |batches|
      invariant records == Put(map[], Flat(batches[..i]))
    {
      assert batches[..i + 1][..i] == batches[..i];
      PutAppend(map[], Flat(batches[..i]), batches[i]);
      records := Put(records, batches[i]);
    }
    assert batches[..|batches|] == batches;
    PutAll(store.records, Flat(batches));
    return Ok(records);
  }

  lemma {:induction false} PutAppend(m: Records, a: seq<Record>, b: seq<Record>)
    ensures Put(m, a + b) == Put(Put(m, a), b)
  {
    if b == [] {
      assert a + b == a;
    } else {
      var front, last := b[..|b| - 1], b[|b| - 1];
      assert (a + b)[..|a + b| - 1] == a + front && (a + b)[|a + b| - 1] == last;
      PutAppend(m, a, front);
    }
  }

  lemma {:induction false} PutFrom(source: Records, records: seq<Record>)
    requires AllFrom(source, records)
    ensures Put(map[], records).Keys == Elems(IdsOf(records))
    ensures forall id :: id in Put(map[], records) ==> id in source && Put(map[], records)[id] == source[id]
  {
    if records != [] {
      PutFrom(source, records[..|records| - 1]);
      Snoc(IdsOf(records[..|records| - 1]), records[|records| - 1].id);
    }
  }

  lemma PutAll(source: Records, records: seq<Record>)
    requires InOrder(source, records)
    ensures Put(map[], records) == source
  {
    PutFrom(source, records);
  }

  datatype ValidationReport =
    ValidationReport(
      sourceCount: nat, targetCount: nat, missing: seq<string>, extra: seq<string>, mismatched: seq<string>)
  {
    predicate Consistent() {
      missing == [] && extra == [] && mismatched == []
    }
  }

  /** The report lists the ids that differ, by ascending id; it is consistent exactly when the stores hold the same. */
  method ValidateStores(source: InMemoryVectorStore, target: InMemoryVectorStore, batchSize: int)
    returns (r: Result<ValidationReport, Refused>)
    requires source.Valid() && target.Valid()
    ensures batchSize < 1 ==> r == Err(BatchSizeNotPositive)
    ensures batchSize >= 1 ==> r.Ok?
    ensures r.Ok? ==>
      && (r.value.Consistent() <==> source.records == target.records)
      && r.value.sourceCount == |source.records| && r.value.targetCount == |target.records|
      && Elems(r.value.missing) == source.records.Keys - target.records.Keys
      && Elems(r.value.extra) == target.records.Keys - source.records.Keys
      && Elems(r.value.mismatched) == Differing(source.records, target.records)
      && Ascending(r.value.missing) && Ascending(r.value.extra) && Ascending(r.value.mismatched)
  {
    var a := AllRecords(source, batchSize);
    var b := AllRecords(target, batchSize);
    if a.Err? || b.Err? {
      return Err(BatchSizeNotPositive);
    }
    var missing := SortedIds(a.value.Keys - b.value.Keys);
    var extra := SortedIds(b.value.Keys - a.value.Keys);
    var mismatched := SortedIds(Differing(a.value, b.value));
    EqualIff(a.value, b.value, missing, extra, mismatched);
    return Ok(ValidationReport(|a.value|, |b.value|, missing, extra, mismatched));
  }

  function Differing(a: Records, b: Records): set<string> {
    set id | id in a && id in b && a[id] != b[id]
  }

  lemma EqualIff(a: Records, b: Records, missing: seq<string>, extra: seq<string>, mismatched: seq<string>)
    requires Elems(missing) == a.Keys - b.Keys && Elems(extra) == b.Keys - a.Keys
      && Elems(mismatched) == Differing(a, b)
    ensures missing == [] && extra == [] && mismatched == [] <==> a == b
  {
    EmptyIff(missing);
    EmptyIff(extra);
    EmptyIff(mismatched);
    if a.Keys - b.Keys == {} && b.Keys - a.Keys == {} && Differing(a, b) == {} {
      assert a.Keys == b.Keys;
      assert forall id :: id in a ==> id !in Differing(a, b);
    }
  }

  lemma EmptyIff<T>(s: seq<T>)
    ensures s == [] <==> Elems(s) == {}
  {
    if s != [] {
      assert s[0] in Elems(s);
    }
  }

  /** Removes what was migrated; the number is of those that were there. */
  method RollbackVectors(target: InMemoryVectorStore, migratedIds: seq<string>) returns (deleted: nat)
    requires target.Valid()
    modifies target
    ensures target.Valid() && target.records == old(target.records) - Elems(migratedIds)
    ensures deleted == |Elems(migratedIds) * old(target.records).Keys|
  {
    var unique := FirstOccurrences(migratedIds);
    var existing := target.Get(unique);
    FirstOccurrencesAre(migratedIds);
    PresentAre(target.records, unique);
    DistinctByCount(IdsOf(existing));
    MinusPresent(target.records, Elems(migratedIds));
    target.Delete(IdsOf(existing));
    return |existing|;
  }

  lemma MinusPresent(m: Records, ids: set<string>)
    ensures m - ids * m.Keys == m - ids
  {
  }

  lemma {:induction false} PresentAre(m: Records, ids: seq<string>)
    requires Distinct(ids)
    ensures Elems(Present(m, ids)) == Elems(ids) * m.Keys && Distinct(Present(m, ids))
  {
    if ids != [] {
      var front, last := ids[..|ids| - 1], ids[|ids| - 1];
      assert ids == front + [last];
      Snoc(front, last);
      Snoc(Present(m, front), last);
      PresentAre(m, front);
      assert last in Present(m, front) <==> last in Elems(Present(m, front));
      assert last !in Elems(front);
      if last in m {
        assert (Elems(front) + {last}) * m.Keys == Elems(front) * m.Keys + {last};
      } else {
        assert (Elems(front) + {last}) * m.Keys == Elems(front) * m.Keys;
        assert Present(m, ids) == Present(m, front);
      }
    }
  }

  /** Taking back what was migrated restores the target exactly when none of it was there before. */
  lemma {:induction false} RollbackRestoresIff(
    source: Records, before: Records, batches: seq<seq<Record>>, down: Outage)
    requires Batching(source, batches)
    ensures var p := Migrated(Begin(before), batches, down);
      p.target - Elems(p.migrated) == before <==> Elems(p.migrated) !! before.Keys
  {
    var ids := Elems(Migrated(Begin(before), batches, down).migrated);
    EveryRecordAccounted(source, before, batches, down);
    OverlayMinus(before, source, ids);
  }

  lemma OverlayMinus(before: Records, source: Records, ids: set<string>)
    ensures Overlay(before, source, ids) - ids == before <==> ids !! before.Keys
  {
    assert Overlay(before, source, ids) - ids == before - ids;
    if before - ids == before {
      forall id | id in before ensures id !in ids {
        assert id in before - ids;
      }
    }
    if ids !! before.Keys {
      assert (before - ids).Keys == before.Keys;
    }
  }

  /** A migration into an empty store is a faithful copy exactly when nothing failed. */
  lemma {:induction false} CleanCopy(source: Records, batches: seq<seq<Record>>, down: Outage)
    requires Batching(source, batches)
    ensures var p := Migrated(Begin(map[]), batches, down); p.failed == map[] <==> p.target == source
  {
    var p := Migrated(Begin(map[]), batches, down);
    var ids, failed := Elems(p.migrated), p.failed.Keys;
    EveryRecordAccounted(source, map[], batches, down);
    OverlayOnNothing(source, ids);
    Complement(ids, failed, source.Keys);
    assert p.failed == map[] <==> failed == {};
  }

  lemma Complement<T>(a: set<T>, b: set<T>, all: set<T>)
    requires a !! b && a + b == all
    ensures b == {} <==> a == all
  {
    if a == all {
      assert forall x :: x in b ==> x in a;
    }
  }

  lemma OverlayOnNothing(source: Records, ids: set<string>)
    requires ids <= source.Keys
    ensures Overlay(map[], source, ids) == source <==> ids == source.Keys
  {
    assert Overlay(map[], source, ids).Keys == ids;
  }
}
