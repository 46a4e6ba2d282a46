/** The live pipeline: ingest into the hot buffer, flush completed buckets, query both. */
module MetricPipeline {
  import opened Prelude
  import opened MetricBooks
  import opened MetricAggregates
  import opened MetricRows
  import opened MetricStore
  import opened MetricEngine

  /** The reading of a bucket with this summary. */
  function Reading(instrument: Instrument, s: Summary): real {
    if s.Empty? then 0.0
    else if instrument == Gauge then s.total / (Max(1, s.count) as real)
    else s.total
  }

  function AsQueryPoint(b: Bucket): QueryPoint {
    QueryPoint(b.key.epoch, b.key.series, b.Value(), b.count, b.low, b.high, b.lastValue, b.last, b.tag, b.estimated,
               b.key.resolution)
  }

  /** Each bucket of the book is answered once, with its numbers. */
  ghost predicate Shows(points: seq<QueryPoint>, book: Book<Key>, width: int) {
    && |points| == |book|
    && (forall i, j :: 0 <= i < j < |points| ==>
          points[i].epoch != points[j].epoch || points[i].series != points[j].series)
    && (forall i :: 0 <= i < |points| ==> ShowsOne(points[i], book, width))
  }

  ghost predicate ShowsOne(p: QueryPoint, book: Book<Key>, width: int) {
    var k := Key(p.epoch, width, p.series);
    && k in book
    && var s := book[k];
       && p.count == s.count && p.low == s.low && p.high == s.high && p.last == s.last && p.estimated == s.estimated
       && (p.series.instrument != Other ==> p.value == Reading(p.series.instrument, s))
  }

  lemma ShowsBucket(b: Bucket, buckets: map<Key, Bucket>, width: int)
    requires b.key in buckets && buckets[b.key] == b && b.count >= 1 && b.key.resolution == width
    ensures ShowsOne(AsQueryPoint(b), Contents(buckets), width)
  {
    MeanTimesCount(b.sum, b.count);
  }

  lemma BucketsShow(bs: seq<Bucket>, points: seq<QueryPoint>, buckets: map<Key, Bucket>, width: int)
    requires Sound(buckets) && forall k :: k in buckets ==> k.resolution == width
    requires forall i :: 0 <= i < |bs| ==> bs[i].key in buckets && bs[i] == buckets[bs[i].key]
    requires Lists(BucketEntries(bs), Contents(buckets))
    requires |points| == |bs| && forall i :: 0 <= i < |bs| ==> points[i] == AsQueryPoint(bs[i])
    ensures Shows(points, Contents(buckets), width)
  {
    var book, entries := Contents(buckets), BucketEntries(bs);
    ListingLength(entries, book);
    forall i | 0 <= i < |points|
      ensures ShowsOne(points[i], book, width)
    {
      ShowsBucket(bs[i], buckets, width);
    }
    forall i, j | 0 <= i < j < |points|
      ensures points[i].epoch != points[j].epoch || points[i].series != points[j].series
    {
      assert entries[i].key != entries[j].key;
    }
  }

  lemma AlignedBucketsStay(bs: seq<Bucket>, width: int)
    requires width > 0 && forall b :: b in bs ==> Placed(b.key, width, 0) == b.key
    ensures Moved(BucketEntries(bs), Placing(width, 0)) == BucketEntries(bs)
  {
    forall i | 0 <= i < |bs|
      ensures Moved(BucketEntries(bs), Placing(width, 0))[i] == BucketEntries(bs)[i]
    {
      assert bs[i] in bs;
    }
  }

  lemma PutAllBack(buffer: Book<Key>, bs: seq<Bucket>, width: int)
    requires width > 0 && Lists(BucketEntries(bs), buffer)
    requires forall b :: b in bs ==> Placed(b.key, width, 0) == b.key
    ensures Posted(map[], Moved(BucketEntries(bs), Placing(width, 0))) == buffer
  {
    AlignedBucketsStay(bs, width);
    PostedAlone(BucketEntries(bs), buffer);
  }

  /** Buckets that were drained and put back land where they were. */
  lemma PutBack(buffer: Book<Key>, cutoff: int, bs: seq<Bucket>, width: int)
    requires width > 0 && Lists(BucketEntries(bs), Kept(buffer, Before(cutoff)))
    requires forall b :: b in bs ==> Placed(b.key, width, 0) == b.key
    ensures Posted(Kept(buffer, NotBefore(cutoff)), Moved(BucketEntries(bs), Placing(width, 0))) == buffer
  {
    AlignedBucketsStay(bs, width);
    RefiledKept(buffer, Before(cutoff), NotBefore(cutoff), BucketEntries(bs));
  }

  lemma NothingBefore(buffer: Book<Key>, cutoff: int)
    requires Kept(buffer, Before(cutoff)) == map[]
    ensures Kept(buffer, NotBefore(cutoff)) == buffer
  {
    forall k | k in buffer
      ensures !(k.epoch < cutoff)
    {
      assert k !in Kept(buffer, Before(cutoff));
    }
  }

  /** What the table answers, when no row lies below the offset of the grid. */
  lemma StoredTotal(points: seq<QueryPoint>, rows: Table, q: Query, width: int, offset: int, pick: Selector<Key>)
    requires width > 0 && q.since >= offset && AnswersFor(points, rows, q, width, offset)
    ensures EntriesTotal(Moved(BucketEntries(PointsAsBuckets(points, width)), Placing(width, offset)), pick)
         == Total(Ledger(rows), Asked(q, width, offset, pick))
  {
    forall k | k in Ledger(rows) && Matching(q)(k)
      ensures Casting(width, offset)(k) == Placing(width, offset)(k)
    {
      CastingIsPlacing(k, width, offset);
    }
    SameMoveSameTotal(Ledger(rows), Matching(q), Casting(width, offset), Placing(width, offset), pick);
  }

  lemma CastingIsPlacing(k: Key, width: int, offset: int)
    requires width > 0 && k.epoch >= offset
    ensures Casting(width, offset)(k) == Placing(width, offset)(k)
  {
    CastAgreesFromOffsetUp(k.epoch, width, offset);
  }

  lemma BufferedTotal(entries: seq<Entry<Key>>, buffer: Book<Key>, q: Query, width: int, offset: int,
                      pick: Selector<Key>)
    requires width > 0 && Lists(entries, buffer)
    ensures EntriesTotal(Moved(KeptEntries(entries, Matching(q)), Placing(width, offset)), pick)
         == Total(buffer, Asked(q, width, offset, pick))
  {
    MovedTotal(KeptEntries(entries, Matching(q)), Placing(width, offset), pick);
    KeptEntriesTotal(entries, Matching(q), Through(Placing(width, offset), pick));
    ListingTotal(entries, buffer, Asked(q, width, offset, pick));
  }

  lemma OverlayTotal(points: seq<QueryPoint>, rows: Table, entries: seq<Entry<Key>>, buffer: Book<Key>, q: Query,
                     width: int, offset: int, pick: Selector<Key>)
    requires width > 0 && q.since >= offset && AnswersFor(points, rows, q, width, offset) && Lists(entries, buffer)
    ensures Total(Answer(Engine(Ledger(rows), buffer), q, width, offset), pick)
         == Merge(EntriesTotal(Moved(BucketEntries(PointsAsBuckets(points, width)), Placing(width, offset)), pick),
                  EntriesTotal(Moved(KeptEntries(entries, Matching(q)), Placing(width, offset)), pick))
  {
    var e := Engine(Ledger(rows), buffer);
    StoredTotal(points, rows, q, width, offset, pick);
    BufferedTotal(entries, buffer, q, width, offset, pick);
    AnswerTotal(e, q, width, offset, pick);
    TotalWhole(e, Asked(q, width, offset, pick));
  }

  /** Table and buffer merged by the overlay are the answer. */
  lemma OverlayIsAnswer(points: seq<QueryPoint>, rows: Table, entries: seq<Entry<Key>>,
                        buffer: Book<Key>, q: Query, width: int, offset: int)
    requires width > 0 && q.since >= offset && AnswersFor(points, rows, q, width, offset) && Lists(entries, buffer)
    requires forall e :: e in entries ==> e.summary != Empty
    ensures Posted(Posted(map[], Moved(BucketEntries(PointsAsBuckets(points, width)), Placing(width, offset))),
                   Moved(KeptEntries(entries, Matching(q)), Placing(width, offset)))
         == Answer(Engine(Ledger(rows), buffer), q, width, offset)
  {
    var answer := Answer(Engine(Ledger(rows), buffer), q, width, offset);
    var stored := Moved(BucketEntries(PointsAsBuckets(points, width)), Placing(width, offset));
    var live := Moved(KeptEntries(entries, Matching(q)), Placing(width, offset));
    forall pick: Selector<Key>
      ensures Total(answer, pick) == Merge(EntriesTotal(stored, pick), EntriesTotal(live, pick))
    {
      OverlayTotal(points, rows, entries, buffer, q, width, offset, pick);
    }
    PostedTwiceIs(stored, live, answer);
  }

  // ---- What a request gets, field by field ----

  /** A stored row or a live bucket. */
  ghost predicate Present(e: Engine, k: Key) {
    k in e.table || k in e.buffer
  }

  /** The point stands for something present in the window. */
  ghost predicate OfABucket(p: QueryPoint, e: Engine, q: Query, width: int, offset: int)
    requires width > 0
  {
    exists k :: && Present(e, k) && q.since <= k.epoch <= q.until && k.series == p.series
                && BucketStart(k.epoch, width, offset) == p.epoch
  }

  predicate AllOfSeries(points: seq<QueryPoint>, q: Query) {
    forall p <- points :: Wanted(q, p.series)
  }

  /** Stored groups and answer buckets fit the limit, and no row lies below the offset of the grid. */
  ghost predicate FitsLimit(rows: Table, e: Engine, q: Query, width: int, offset: int, limit: int)
    requires width > 0
  {
    q.since >= offset && |GroupsOf(rows, q, width, offset)| <= limit && |Answer(e, q, width, offset)| <= limit
  }

  ghost predicate OnlyWanted(points: seq<QueryPoint>, e: Engine, q: Query, width: int, offset: int)
    requires width > 0
  {
    forall p :: p in points ==> Wanted(q, p.series) && OfABucket(p, e, q, width, offset)
  }

  ghost predicate AllWanted(points: seq<QueryPoint>, e: Engine, q: Query, width: int, offset: int)
    requires width > 0
  {
    forall k :: Present(e, k) && q.since <= k.epoch <= q.until && Wanted(q, k.series) ==>
      HasPoint(points, k.series, BucketStart(k.epoch, width, offset))
  }

  lemma AnswerKeys(e: Engine, q: Query, width: int, offset: int, g: Key)
    requires width > 0
    ensures g in Answer(e, q, width, offset)
       <==> exists k :: && Present(e, k) && q.since <= k.epoch <= q.until && Wanted(q, k.series)
                        && g == Key(BucketStart(k.epoch, width, offset), width, k.series)
  {
    forall k ensures k in Kept(Whole(e), Matching(q))
                <==> Present(e, k) && q.since <= k.epoch <= q.until && Wanted(q, k.series)
    {
      MatchesIsWantedInWindow(q, k);
    }
  }

  function ShownKeys(points: seq<QueryPoint>, width: int): set<Key> {
    set i | 0 <= i < |points| :: Key(points[i].epoch, width, points[i].series)
  }

  lemma {:induction false} DifferentPointsCount(points: seq<QueryPoint>, width: int)
    requires forall i, j :: 0 <= i < j < |points| ==>
               points[i].epoch != points[j].epoch || points[i].series != points[j].series
    ensures |ShownKeys(points, width)| == |points|
  {
    if points != [] {
      var n := |points| - 1;
      DifferentPointsCount(points[..n], width);
      assert ShownKeys(points, width)
          == ShownKeys(points[..n], width) + {Key(points[n].epoch, width, points[n].series)};
    }
  }

  lemma SameSizeSubset<K>(a: set<K>, b: set<K>)
    requires a <= b && |a| == |b|
    ensures a == b
  {
    assert |b - a| == |b| - |a|;
  }

  /** Points that show a book show all of its buckets. */
  lemma ShownIsAll(points: seq<QueryPoint>, book: Book<Key>, width: int)
    requires Shows(points, book, width)
    ensures ShownKeys(points, width) == book.Keys
  {
    DifferentPointsCount(points, width);
    forall i | 0 <= i < |points| ensures Key(points[i].epoch, width, points[i].series) in book {
      assert ShowsOne(points[i], book, width);
    }
    SameSizeSubset(ShownKeys(points, width), book.Keys);
  }

  lemma ShownPointIsWanted(p: QueryPoint, e: Engine, q: Query, width: int, offset: int)
    requires width > 0 && Key(p.epoch, width, p.series) in Answer(e, q, width, offset)
    ensures Wanted(q, p.series) && OfABucket(p, e, q, width, offset)
  {
    AnswerKeys(e, q, width, offset, Key(p.epoch, width, p.series));
  }

  lemma WantedIsShown(points: seq<QueryPoint>, e: Engine, q: Query, width: int, offset: int, k: Key)
    requires width > 0 && ShownKeys(points, width) == Answer(e, q, width, offset).Keys
    requires Present(e, k) && q.since <= k.epoch <= q.until && Wanted(q, k.series)
    ensures HasPoint(points, k.series, BucketStart(k.epoch, width, offset))
  {
    var g := Key(BucketStart(k.epoch, width, offset), width, k.series);
    AnswerKeys(e, q, width, offset, g);
    assert g in ShownKeys(points, width);
    var i :| 0 <= i < |points| && g == Key(points[i].epoch, width, points[i].series);
    assert points[i] in points;
  }

  /** Points that show an answer have the fields asked for, stand for what is present, and leave nothing out. */
  lemma ShownAnswerIsWanted(points: seq<QueryPoint>, e: Engine, q: Query, width: int, offset: int)
    requires width > 0 && Shows(points, Answer(e, q, width, offset), width)
    ensures OnlyWanted(points, e, q, width, offset) && AllWanted(points, e, q, width, offset)
  {
    ShownIsAll(points, Answer(e, q, width, offset), width);
    forall p | p in points ensures Wanted(q, p.series) && OfABucket(p, e, q, width, offset) {
      var i :| 0 <= i < |points| && points[i] == p;
      assert Key(points[i].epoch, width, points[i].series) in ShownKeys(points, width);
      ShownPointIsWanted(p, e, q, width, offset);
    }
    forall k | Present(e, k) && q.since <= k.epoch <= q.until && Wanted(q, k.series)
      ensures HasPoint(points, k.series, BucketStart(k.epoch, width, offset))
    {
      WantedIsShown(points, e, q, width, offset, k);
    }
  }

  ghost predicate BookOfSeries(book: Book<Key>, q: Query) {
    forall k :: k in book ==> Wanted(q, k.series)
  }

  lemma PointsOfSeries(points: seq<QueryPoint>, book: Book<Key>, q: Query, width: int)
    requires BookOfSeries(book, q) && PointsIn(points, book, width)
    ensures AllOfSeries(points, q)
  {
    forall p | p in points ensures Wanted(q, p.series) {
      assert Wanted(q, Key(p.epoch, width, p.series).series);
    }
  }

  predicate PointsIn(points: seq<QueryPoint>, book: Book<Key>, width: int) {
    forall p <- points :: Key(p.epoch, width, p.series) in book
  }

  function OfSeries(q: Query): Selector<Key> {
    (k: Key) => Wanted(q, k.series)
  }

  /** Whatever the limits, the overlay holds only what was asked for. */
  lemma OverlayIsWanted(persisted: seq<QueryPoint>, buffered: seq<Bucket>, q: Query, width: int, offset: int)
    requires width > 0 && (forall b :: b in buffered ==> b.count >= 1)
    requires AllOfSeries(persisted, q)
    ensures BookOfSeries(OverlaidBook(persisted, buffered, q, width, offset), q)
  {
    var first := Moved(BucketEntries(PointsAsBuckets(persisted, width)), Placing(width, offset));
    var live := KeptEntries(BucketEntries(buffered), Matching(q));
    var second := Moved(live, Placing(width, offset));
    forall e | e in first ensures OfSeries(q)(e.key) {
      var i :| 0 <= i < |first| && first[i] == e;
      assert persisted[i] in persisted;
    }
    forall e | e in second ensures e.summary != Empty && OfSeries(q)(e.key) {
      var i :| 0 <= i < |second| && second[i] == e;
      assert live[i] in live;
      MatchesIsWantedInWindow(q, live[i].key);
    }
    PostedHolds(map[], first, OfSeries(q));
    PostedHolds(Posted(map[], first), second, OfSeries(q));
    forall k | k in Posted(Posted(map[], first), second) ensures Wanted(q, k.series) {
      assert OfSeries(q)(k);
    }
  }

  class MetricPipeline {
    const store: MetricStore
    const width: int
    const accumulator: MetricAccumulator

    ghost predicate Valid()
      reads this, store, accumulator
    {
      && store.Valid() && accumulator.Valid()
      && width > 0 && accumulator.width == width && accumulator.offset == 0
    }

    ghost function State(): Engine
      reads this, store, accumulator
    {
      Engine(store.Book(), accumulator.Book())
    }

    /** A new process over the same database starts with an empty buffer. */
    constructor (store: MetricStore, width: int)
      requires store.Valid() && width > 0
      ensures Valid() && fresh(accumulator) && this.store == store && this.width == width
      ensures State() == Engine(old(store.Book()), map[])
    {
      this.store := store;
      this.width := width;
      this.accumulator := new MetricAccumulator(width, 0);
    }

    /** None stands for the write error that is raised again after the buckets have been put back. */
    method FlushCompleted(now: int, commits: bool) returns (flushed: Option<nat>)
      requires Valid()
      modifies store, accumulator
      ensures Valid()
      ensures State() == FlushedDone(old(State()), width, now, commits)
      ensures flushed.None? ==> !commits
    {
      var cutoff := BucketStart(now, width, 0);
      ghost var buffer := accumulator.Book();
      var bs := accumulator.DrainBefore(cutoff);
      if bs == [] {
        assert Kept(buffer, Before(cutoff)) == map[];
        NothingBefore(buffer, cutoff);
        return Some(0);
      }
      PostedListing(store.Book(), BucketEntries(bs), Kept(buffer, Before(cutoff)));
      var written := store.WriteBuckets(bs, commits);
      if !written {
        PutBack(buffer, cutoff, bs, width);
        accumulator.AddBuckets(bs);
        return None;
      }
      return Some(|bs|);
    }

    method Ingest(points: seq<Point>, now: int, commits: bool) returns (flushed: Option<nat>)
      requires Valid()
      modifies store, accumulator
      ensures Valid()
      ensures State() == Apply(old(State()), width, Event.Ingest(points, now, commits))
      ensures flushed.None? ==> !commits
    {
      accumulator.AddPoints(points);
      flushed := FlushCompleted(now, commits);
    }

    /** The partial buckets too, at an orderly shutdown. */
    method FlushAll(commits: bool) returns (flushed: Option<nat>)
      requires Valid()
      modifies store, accumulator
      ensures Valid()
      ensures State() == Apply(old(State()), width, Event.FlushAll(commits))
      ensures flushed.None? ==> !commits
    {
      ghost var buffer := accumulator.Book();
      var bs := accumulator.DrainAll();
      ListingLength(BucketEntries(bs), buffer);
      if bs == [] {
        return Some(0);
      }
      PostedListing(store.Book(), BucketEntries(bs), buffer);
      var written := store.WriteBuckets(bs, commits);
      if !written {
        PutAllBack(buffer, bs, width);
        accumulator.AddBuckets(bs);
        return None;
      }
      return Some(|bs|);
    }

    /** Width 0 asks for the pipeline's own resolution. */
    method QueryPoints(q: Query, bucketWidth: int, offset: int, limit: int) returns (found: Option<seq<QueryPoint>>)
      requires Valid()
      ensures var w := if bucketWidth == 0 then width else bucketWidth;
              && (found.None? <==> q.until < q.since || limit < 1 || !(0 <= offset < w))
              && (found.Some? && FitsLimit(store.rows, State(), q, w, offset, limit)
                  ==> Shows(found.value, Answer(State(), q, w, offset), w)
                      && OnlyWanted(found.value, State(), q, w, offset)
                      && AllWanted(found.value, State(), q, w, offset))
      // beyond the limits too, nothing is returned that was not asked for
      ensures found.Some? ==> AllOfSeries(found.value, q)
    {
      var w := if bucketWidth == 0 then width else bucketWidth;
      var persisted := store.QueryPoints(q, w, offset, limit);
      if persisted.None? {
        return None;
      }
      var buffered := accumulator.Buckets();
      var points := Overlaid(persisted.value, buffered, q, w, offset, limit);
      if FitsLimit(store.rows, State(), q, w, offset, limit) {
        FittingAnswer(points, persisted.value, buffered, store.rows, accumulator.Book(), q, w, offset, limit);
      }
      return Some(points);
    }
  }

  /** Stored points with the live buckets laid over them. */
  ghost function OverlaidBook(persisted: seq<QueryPoint>, buffered: seq<Bucket>, q: Query, width: int, offset: int)
    : Book<Key>
    requires width > 0 && forall b :: b in buffered ==> b.count >= 1
  {
    Posted(Posted(map[], Moved(BucketEntries(PointsAsBuckets(persisted, width)), Placing(width, offset))),
           Moved(KeptEntries(BucketEntries(buffered), Matching(q)), Placing(width, offset)))
  }

  lemma FittingAnswer(points: seq<QueryPoint>, persisted: seq<QueryPoint>, buffered: seq<Bucket>, rows: Table,
                      buffer: Book<Key>, q: Query, width: int, offset: int, limit: int)
    requires width > 0 && (forall b :: b in buffered ==> b.count >= 1) && Lists(BucketEntries(buffered), buffer)
    requires FitsLimit(rows, Engine(Ledger(rows), buffer), q, width, offset, limit)
    requires AnswersFor(persisted, rows, q, width, offset)
    requires var book := OverlaidBook(persisted, buffered, q, width, offset);
             |book| <= limit ==> Shows(points, book, width)
    ensures var e := Engine(Ledger(rows), buffer);
            && Shows(points, Answer(e, q, width, offset), width)
            && OnlyWanted(points, e, q, width, offset) && AllWanted(points, e, q, width, offset)
  {
    OverlayIsAnswer(persisted, rows, BucketEntries(buffered), buffer, q, width, offset);
    ShownAnswerIsWanted(points, Engine(Ledger(rows), buffer), q, width, offset);
  }

  method Overlaid(persisted: seq<QueryPoint>, buffered: seq<Bucket>, q: Query, width: int, offset: int, limit: nat)
    returns (points: seq<QueryPoint>)
    requires width > 0 && (forall b :: b in buffered ==> b.count >= 1)
    ensures var book := OverlaidBook(persisted, buffered, q, width, offset);
            |book| <= limit ==> Shows(points, book, width)
    ensures AllOfSeries(persisted, q) ==> AllOfSeries(points, q)
  {
    var overlay := Overlay(persisted, buffered, q, width, offset);
    points := Frozen(overlay, limit);
    if AllOfSeries(persisted, q) {
      OverlayIsWanted(persisted, buffered, q, width, offset);
      PointsOfSeries(points, overlay.Book(), q, width);
    }
  }

  /** The buckets of the overlay as points, cut to the limit. */
  method Frozen(overlay: MetricAccumulator, limit: nat) returns (points: seq<QueryPoint>)
    requires overlay.Valid()
    ensures |overlay.Book()| <= limit ==> Shows(points, overlay.Book(), overlay.width)
    ensures PointsIn(points, overlay.Book(), overlay.width)
  {
    var bs := overlay.Buckets();
    points := seq(|bs|, i requires 0 <= i < |bs| => AsQueryPoint(bs[i]));
    BucketsShow(bs, points, overlay.buckets, overlay.width);
    if |points| > limit {
      ListingLength(BucketEntries(bs), overlay.Book());
      points := points[..limit];
    }
  }

  /** Stored points first, then the matching live buckets, merged on the requested grid. */
  method Overlay(persisted: seq<QueryPoint>, buffered: seq<Bucket>, q: Query, width: int, offset: int)
    returns (overlay: MetricAccumulator)
    requires width > 0 && forall b :: b in buffered ==> b.count >= 1
    ensures fresh(overlay) && overlay.Valid() && overlay.width == width
    ensures overlay.Book() == OverlaidBook(persisted, buffered, q, width, offset)
  {
    overlay := new MetricAccumulator(width, offset);
    overlay.AddBuckets(PointsAsBuckets(persisted, width));
    ghost var stored := overlay.Book();
    ghost var entries := BucketEntries(buffered);
    var i := 0;
    while i < |buffered|
      invariant 0 <= i <= |buffered|
      invariant overlay.Valid()
      invariant overlay.Book() == Posted(stored, Moved(KeptEntries(entries[..i], Matching(q)), Placing(width, offset)))
    {
      KeptNext(entries, i, Matching(q), Placing(width, offset), stored);
      if Matches(q, buffered[i].key) {
        overlay.AddBucket(buffered[i]);
      }
      i := i + 1;
    }
    assert entries[..i] == entries;
  }

  lemma KeptNext(entries: seq<Entry<Key>>, i: nat, keep: Selector<Key>, move: Key -> Key, book: Book<Key>)
    requires i < |entries| && forall e :: e in entries ==> e.summary != Empty
    ensures Posted(book, Moved(KeptEntries(entries[..i + 1], keep), move))
         == var before := Posted(book, Moved(KeptEntries(entries[..i], keep), move));
            if keep(entries[i].key) then Add(before, move(entries[i].key), entries[i].summary) else before
  {
    var kept := KeptEntries(entries[..i], keep);
    KeptOneMore(entries, i, keep);
    if keep(entries[i].key) {
      MovedAppend(kept, entries[i], move);
      PostedAppend(book, Moved(kept, move), Entry(move(entries[i].key), entries[i].summary));
    }
  }
}
