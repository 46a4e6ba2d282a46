/** The metric store: transactional bucket writes and the grouping query. */
module MetricStore {
  import opened Prelude
  import opened Folding
  import opened MetricBooks
  import opened MetricAggregates
  import opened MetricRows
  import opened MetricEngine
  import opened MetricTiers

  ghost function GroupsOf(rows: Table, q: Query, width: int, offset: int): set<Group>
    requires width > 0
  {
    set k | k in rows && Matches(q, k) :: GroupOf(k, rows[k], width, offset)
  }

  /** Where the read files a row once its answer is laid on the grid. */
  function Casting(width: int, offset: int): Key -> Key
    requires width > 0
  {
    (k: Key) => Key(CastBucket(k.epoch, width, offset), width, k.series)
  }

  function GroupPlacing(width: int, offset: int): Group -> Key
    requires width > 0
  {
    (g: Group) => Key(BucketStart(g.epoch, width, offset), width, g.series)
  }

  function PointsAsBuckets(points: seq<QueryPoint>, width: int): (r: seq<Bucket>)
    ensures |r| == |points| && forall i :: 0 <= i < |r| ==> r[i] == PointToBucket(points[i], width)
  {
    seq(|points|, i requires 0 <= i < |points| => PointToBucket(points[i], width))
  }

  /** The read answers for every matching row, each in its bucket, and for nothing else. */
  ghost predicate AnswersFor(points: seq<QueryPoint>, rows: Table, q: Query, width: int, offset: int)
    requires width > 0
  {
    var entries := Moved(BucketEntries(PointsAsBuckets(points, width)), Placing(width, offset));
    forall pick: Selector<Key> ::
      EntriesTotal(entries, pick) == Total(Ledger(rows), Both(Matching(q), Through(Casting(width, offset), pick)))
  }

  lemma CastIsOnTheGrid(epoch: int, width: int, offset: int)
    requires width > 0
    ensures BucketStart(CastBucket(epoch, width, offset), width, offset) == CastBucket(epoch, width, offset)
  {
    var d := epoch - offset;
    var n := if d >= 0 then d / width else -(-d / width);
    DivisionIsUnique(n * width, n, width, 0);
  }

  /** The groups after reading the listed rows in order. */
  function GroupsRead(rows: Table, ks: seq<Key>, width: int, offset: int): map<Group, Sums>
    requires width > 0 && forall k :: k in ks ==> k in rows
  {
    if ks == [] then map[] else
    var k := ks[|ks| - 1];
    Collected(GroupsRead(rows, ks[..|ks| - 1], width, offset), GroupOf(k, rows[k], width, offset), k, rows[k])
  }

  lemma GroupsReadNext(rows: Table, ks: seq<Key>, i: nat, width: int, offset: int)
    requires width > 0 && i < |ks| && forall k :: k in ks ==> k in rows
    ensures GroupsRead(rows, ks[..i + 1], width, offset)
         == Collected(GroupsRead(rows, ks[..i], width, offset), GroupOf(ks[i], rows[ks[i]], width, offset),
                      ks[i], rows[ks[i]])
  {
    assert ks[..i + 1][..i] == ks[..i];
  }

  /** Reading rows moves each of them into its group. */
  lemma {:induction false} GroupsReadPost(rows: Table, ks: seq<Key>, width: int, offset: int)
    requires width > 0 && forall k :: k in ks ==> k in rows
    ensures SumsBook(GroupsRead(rows, ks, width, offset))
         == Posted(map[], Moved(EntriesAt(Ledger(rows), ks), Grouping(rows, width, offset)))
  {
    if ks != [] {
      var n := |ks| - 1;
      var k := ks[n];
      GroupsReadPost(rows, ks[..n], width, offset);
      CollectAdds(GroupsRead(rows, ks[..n], width, offset), GroupOf(k, rows[k], width, offset), k, rows[k]);
      assert Moved(EntriesAt(Ledger(rows), ks), Grouping(rows, width, offset))[..n]
          == Moved(EntriesAt(Ledger(rows), ks[..n]), Grouping(rows, width, offset));
    }
  }

  lemma {:induction false} GroupsReadKeys(rows: Table, ks: seq<Key>, width: int, offset: int, g: Group)
    requires width > 0 && SoundTable(rows) && forall k :: k in ks ==> k in rows
    ensures var groups := GroupsRead(rows, ks, width, offset);
            && (g in groups <==> exists k :: k in ks && GroupOf(k, rows[k], width, offset) == g)
            && (g in groups ==> groups[g].count >= 1)
  {
    if ks != [] {
      var n := |ks| - 1;
      GroupsReadKeys(rows, ks[..n], width, offset, g);
      assert ks == ks[..n] + [ks[n]];
    }
  }

  lemma GroupsReadAll(rows: Table, q: Query, width: int, offset: int, ks: seq<Key>)
    requires width > 0 && SoundTable(rows) && forall k :: k in ks <==> k in rows && Matches(q, k)
    ensures GroupsRead(rows, ks, width, offset).Keys == GroupsOf(rows, q, width, offset)
    ensures forall g :: g in GroupsRead(rows, ks, width, offset) ==> GroupsRead(rows, ks, width, offset)[g].count >= 1
  {
    forall g
      ensures g in GroupsRead(rows, ks, width, offset) <==> g in GroupsOf(rows, q, width, offset)
      ensures g in GroupsRead(rows, ks, width, offset) ==> GroupsRead(rows, ks, width, offset)[g].count >= 1
    {
      GroupsReadKeys(rows, ks, width, offset, g);
    }
  }

  lemma ListedRowsTotal(rows: Table, q: Query, ks: seq<Key>, byRow: Selector<Key>)
    requires forall k :: k in ks ==> k in rows
    requires Lists(EntriesAt(Ledger(rows), ks), Kept(Ledger(rows), Matching(q)))
    ensures EntriesTotal(EntriesAt(Ledger(rows), ks), byRow) == Total(Ledger(rows), Both(Matching(q), byRow))
  {
    ListingTotal(EntriesAt(Ledger(rows), ks), Kept(Ledger(rows), Matching(q)), byRow);
    TotalKept(Ledger(rows), Matching(q), byRow);
  }

  /** The point stands for a stored row of the window. */
  ghost predicate OfARow(p: QueryPoint, rows: Table, q: Query, width: int, offset: int)
    requires width > 0
  {
    exists k :: && k in rows && q.since <= k.epoch <= q.until && k.series == p.series
                && CastBucket(k.epoch, width, offset) == p.epoch
  }

  predicate HasPoint(points: seq<QueryPoint>, series: Series, epoch: int) {
    exists p :: p in points && p.series == series && p.epoch == epoch
  }

  /** Every point has the fields asked for and stands for a row of the window. */
  ghost predicate AreWanted(points: seq<QueryPoint>, rows: Table, q: Query, width: int, offset: int)
    requires width > 0
  {
    forall p :: p in points ==> Wanted(q, p.series) && OfARow(p, rows, q, width, offset)
  }

  /** Every row of the window with the fields asked for has a point. */
  ghost predicate CoverWanted(points: seq<QueryPoint>, rows: Table, q: Query, width: int, offset: int)
    requires width > 0
  {
    forall k :: k in rows && q.since <= k.epoch <= q.until && Wanted(q, k.series) ==>
      HasPoint(points, k.series, CastBucket(k.epoch, width, offset))
  }

  lemma FewerAreWanted(points: seq<QueryPoint>, n: nat, rows: Table, q: Query, width: int, offset: int)
    requires width > 0 && n <= |points| && AreWanted(points, rows, q, width, offset)
    ensures AreWanted(points[..n], rows, q, width, offset)
  {
    assert forall p :: p in points[..n] ==> p in points;
  }

  /** The points of all groups are those of the wanted rows. */
  lemma GroupsAreWanted(rows: Table, q: Query, width: int, offset: int, gs: seq<Group>, points: seq<QueryPoint>)
    requires width > 0 && forall g :: g in gs <==> g in GroupsOf(rows, q, width, offset)
    requires |points| == |gs|
    requires forall j :: 0 <= j < |gs| ==> points[j].epoch == gs[j].epoch && points[j].series == gs[j].series
    ensures AreWanted(points, rows, q, width, offset) && CoverWanted(points, rows, q, width, offset)
  {
    forall p | p in points ensures Wanted(q, p.series) && OfARow(p, rows, q, width, offset) {
      var j :| 0 <= j < |points| && points[j] == p;
      assert gs[j] in gs;
      var k :| k in rows && Matches(q, k) && GroupOf(k, rows[k], width, offset) == gs[j];
      MatchesIsWantedInWindow(q, k);
    }
    forall k | k in rows && q.since <= k.epoch <= q.until && Wanted(q, k.series)
      ensures HasPoint(points, k.series, CastBucket(k.epoch, width, offset))
    {
      MatchesIsWantedInWindow(q, k);
      assert GroupOf(k, rows[k], width, offset) in gs;
      var j :| 0 <= j < |gs| && gs[j] == GroupOf(k, rows[k], width, offset);
      assert points[j] in points;
    }
  }

  /** The listed rows and the points of their groups carry the same totals. */
  lemma GroupTotals(rows: Table, width: int, offset: int, ks: seq<Key>, found: seq<Entry<Group>>,
                    byGroup: Selector<Group>)
    requires width > 0 && forall k :: k in ks ==> k in rows
    requires Lists(found, SumsBook(GroupsRead(rows, ks, width, offset)))
    ensures EntriesTotal(found, byGroup)
         == EntriesTotal(EntriesAt(Ledger(rows), ks), Through(Grouping(rows, width, offset), byGroup))
  {
    var listed := EntriesAt(Ledger(rows), ks);
    GroupsReadPost(rows, ks, width, offset);
    ListingTotal(found, SumsBook(GroupsRead(rows, ks, width, offset)), byGroup);
    TotalPosted(map[], Moved(listed, Grouping(rows, width, offset)), byGroup);
    MovedTotal(listed, Grouping(rows, width, offset), byGroup);
  }

  lemma GroupedThenPlaced(rows: Table, k: Key, width: int, offset: int)
    requires width > 0
    ensures GroupPlacing(width, offset)(Grouping(rows, width, offset)(k)) == Casting(width, offset)(k)
  {
    CastIsOnTheGrid(k.epoch, width, offset);
  }

  lemma PlacedTotal(book: Book<Key>, rows: Table, q: Query, width: int, offset: int, pick: Selector<Key>)
    requires width > 0
    ensures Total(book,
                  Both(Matching(q), Through(Grouping(rows, width, offset), Through(GroupPlacing(width, offset), pick))))
         == Total(book, Both(Matching(q), Through(Casting(width, offset), pick)))
  {
    var grouping, placing := Grouping(rows, width, offset), GroupPlacing(width, offset);
    var casting := Casting(width, offset);
    forall k | k in book
      ensures placing(grouping(k)) == casting(k)
    {
      GroupedThenPlaced(rows, k, width, offset);
    }
    ThroughTwice(book, Matching(q), grouping, placing, casting, pick);
  }

  /** From the groups to the answer. */
  lemma GroupsAnswer(rows: Table, q: Query, width: int, offset: int, ks: seq<Key>, gs: seq<Group>,
                     points: seq<QueryPoint>)
    requires width > 0 && SoundTable(rows) && forall k :: k in ks ==> k in rows && Matches(q, k)
    requires Lists(EntriesAt(Ledger(rows), ks), Kept(Ledger(rows), Matching(q)))
    requires forall g :: g in gs ==> g in GroupsRead(rows, ks, width, offset)
    requires Lists(EntriesAt(SumsBook(GroupsRead(rows, ks, width, offset)), gs),
                   SumsBook(GroupsRead(rows, ks, width, offset)))
    requires |points| == |gs|
    requires forall i :: 0 <= i < |gs| ==>
               points[i] == GroupPoint(gs[i], GroupsRead(rows, ks, width, offset)[gs[i]], q.instrument)
    ensures AnswersFor(points, rows, q, width, offset)
  {
    var found := EntriesAt(SumsBook(GroupsRead(rows, ks, width, offset)), gs);
    PointsAreGroups(rows, q, width, offset, ks, gs, points);
    forall pick: Selector<Key>
      ensures EntriesTotal(Moved(found, GroupPlacing(width, offset)), pick)
           == Total(Ledger(rows), Both(Matching(q), Through(Casting(width, offset), pick)))
    {
      MovedTotal(found, GroupPlacing(width, offset), pick);
      var byGroup := Through(GroupPlacing(width, offset), pick);
      GroupTotals(rows, width, offset, ks, found, byGroup);
      ListedRowsTotal(rows, q, ks, Through(Grouping(rows, width, offset), byGroup));
      PlacedTotal(Ledger(rows), rows, q, width, offset, pick);
    }
  }

  lemma PointsAreGroups(rows: Table, q: Query, width: int, offset: int, ks: seq<Key>, gs: seq<Group>,
                        points: seq<QueryPoint>)
    requires width > 0 && SoundTable(rows) && forall k :: k in ks ==> k in rows && Matches(q, k)
    requires forall g :: g in gs ==> g in GroupsRead(rows, ks, width, offset)
    requires |points| == |gs|
    requires forall i :: 0 <= i < |gs| ==>
               points[i] == GroupPoint(gs[i], GroupsRead(rows, ks, width, offset)[gs[i]], q.instrument)
    ensures Moved(BucketEntries(PointsAsBuckets(points, width)), Placing(width, offset))
         == Moved(EntriesAt(SumsBook(GroupsRead(rows, ks, width, offset)), gs), GroupPlacing(width, offset))
  {
    var left := Moved(BucketEntries(PointsAsBuckets(points, width)), Placing(width, offset));
    var right := Moved(EntriesAt(SumsBook(GroupsRead(rows, ks, width, offset)), gs), GroupPlacing(width, offset));
    forall i | 0 <= i < |gs|
      ensures left[i] == right[i]
    {
      var g := gs[i];
      assert g in gs;
      GroupsReadKeys(rows, ks, width, offset, g);
      GroupPointContent(g, GroupsRead(rows, ks, width, offset)[g], q.instrument, width);
    }
  }

  lemma ListedGroupsAnswer(rows: Table, q: Query, width: int, offset: int, ks: seq<Key>, gs: seq<Group>,
                           points: seq<QueryPoint>)
    requires width > 0 && SoundTable(rows) && forall k :: k in ks <==> k in rows && Matches(q, k)
    requires forall i, j :: 0 <= i < j < |ks| ==> ks[i] != ks[j]
    requires forall i, j :: 0 <= i < j < |gs| ==> gs[i] != gs[j]
    requires forall g :: g in gs <==> g in GroupsRead(rows, ks, width, offset)
    requires |points| == |gs|
    requires forall i :: 0 <= i < |gs| ==>
               points[i] == GroupPoint(gs[i], GroupsRead(rows, ks, width, offset)[gs[i]], q.instrument)
    ensures AnswersFor(points, rows, q, width, offset)
  {
    MatchedEntries(rows, q, ks);
    EntriesAtList(SumsBook(GroupsRead(rows, ks, width, offset)), gs);
    GroupsAnswer(rows, q, width, offset, ks, gs, points);
  }

  lemma MatchedEntries(rows: Table, q: Query, ks: seq<Key>)
    requires forall k :: k in ks <==> k in rows && Matches(q, k)
    requires forall i, j :: 0 <= i < j < |ks| ==> ks[i] != ks[j]
    ensures Lists(EntriesAt(Ledger(rows), ks), Kept(Ledger(rows), Matching(q)))
  {
    var matched := Kept(Ledger(rows), Matching(q));
    EntriesAtList(matched, ks);
    assert EntriesAt(Ledger(rows), ks) == EntriesAt(matched, ks);
  }

  // ---- Compaction ----

  predicate InChunk(job: Job, start: int, end: int, k: Key) {
    && k.resolution == job.source && start <= k.epoch < end
    && (job.resource.Some? ==> k.series.resource == job.resource.value)
  }

  function Chunk(job: Job, start: int, end: int): Selector<Key> {
    k => InChunk(job, start, end, k)
  }

  function ChunkRolling(job: Job, start: int, end: int): Key -> Key {
    k => if InChunk(job, start, end, k) then Placed(k, job.width, job.offset) else k
  }

  /** The part of a compaction that lies before an epoch. */
  function Until(job: Job, end: int): Job {
    job.(before := end)
  }

  /** One more chunk of a compaction under way. */
  lemma ChunkFollows(book: Book<Key>, job: Job, start: int, end: int)
    requires job.source != job.width && start <= end
    ensures Shift(Shift(book, Rolling(Until(job, start))), ChunkRolling(job, start, end))
         == Shift(book, Rolling(Until(job, end)))
  {
    var first, second, whole := Rolling(Until(job, start)), ChunkRolling(job, start, end), Rolling(Until(job, end));
    forall k
      ensures second(first(k)) == whole(k)
    {
    }
    ShiftTwice(book, first, second, whole);
  }

  function ChunkWidth(job: Job): (w: int)
    ensures w >= job.width
  {
    Max(job.width, Min(DAY, 96 * job.width))
  }

  function ChunkEnd(job: Job, start: int): int {
    Min(job.before, start + ChunkWidth(job))
  }


  /** Chunks meet at whole target buckets, so that none is split between two transactions. */
  lemma ChunksEndOnTheGrid(job: Job, start: int)
    requires DAY % job.width == 0 && OnGrid(job, job.before) && OnGrid(job, start)
    ensures OnGrid(job, ChunkEnd(job, start))
  {
    var w, chunk := job.width, ChunkWidth(job);
    var a, b := (start - job.offset) / w, chunk / w;
    DivisionIsUnique(96 * w, 96, w, 0);
    DivisionIsUnique(w, 1, w, 0);
    assert chunk % w == 0;
    assert chunk == b * w && start - job.offset == a * w;
    assert (a + b) * w == a * w + b * w;
    DivisionIsUnique(start + chunk - job.offset, a + b, w, 0);
  }

  /** The epochs at which the chunks of a compaction meet, its cutoff last. */
  function ChunkBounds(job: Job, start: int): (bounds: seq<int>)
    ensures bounds != [] && bounds[0] == start
    decreases Max(0, job.before - start)
  {
    if start >= job.before then [start] else [start] + ChunkBounds(job, ChunkEnd(job, start))
  }

  /** What holds of the compactions of a pass: a day is a whole number of buckets and the cutoff ends one. */
  predicate Gridded(job: Job) {
    DAY % job.width == 0 && OnGrid(job, job.before)
  }

  lemma {:induction false} BoundsAreOnTheGrid(job: Job, start: int)
    requires Gridded(job) && OnGrid(job, start)
    ensures forall i | 0 <= i < |ChunkBounds(job, start)| :: OnGrid(job, ChunkBounds(job, start)[i])
    decreases Max(0, job.before - start)
  {
    if start < job.before {
      var rest := ChunkBounds(job, ChunkEnd(job, start));
      ChunksEndOnTheGrid(job, start);
      BoundsAreOnTheGrid(job, ChunkEnd(job, start));
      forall i | 0 <= i < |ChunkBounds(job, start)| ensures OnGrid(job, ChunkBounds(job, start)[i]) {
        assert i > 0 ==> ChunkBounds(job, start)[i] == rest[i - 1];
      }
    }
  }

  /** No target bucket is split between two transactions: rows that go into one bucket go there in one chunk. */
  lemma NoBucketIsSplit(job: Job, start: int, i: nat, x: int, y: int)
    requires Gridded(job) && OnGrid(job, start) && i + 1 < |ChunkBounds(job, start)|
    requires BucketStart(x, job.width, job.offset) == BucketStart(y, job.width, job.offset)
    ensures var bounds := ChunkBounds(job, start);
            bounds[i] <= x < bounds[i + 1] <==> bounds[i] <= y < bounds[i + 1]
  {
    var bounds := ChunkBounds(job, start);
    BoundsAreOnTheGrid(job, start);
    AlignedBoundIsNotCrossed(x, bounds[i], job.width, job.offset);
    AlignedBoundIsNotCrossed(y, bounds[i], job.width, job.offset);
    AlignedBoundIsNotCrossed(x, bounds[i + 1], job.width, job.offset);
    AlignedBoundIsNotCrossed(y, bounds[i + 1], job.width, job.offset);
  }

  lemma PassIsGridded(now: int, midnight: int)
    ensures forall i | 0 <= i < 5 :: Gridded(Pass(now, midnight)[i])
  {
    BucketStartIsTheAlignedFloor(now, HOT, 0, RawToHot(now).before);
    BucketStartIsTheAlignedFloor(midnight, HOUR, 0, UsageToHour(midnight).before);
    BucketStartIsTheAlignedFloor(midnight, DAY, DayOffset(midnight), UsageToDay(midnight).before);
    BucketStartIsTheAlignedFloor(now - HOT_RETENTION, HOUR, 0, HotToHour(now).before);
    BucketStartIsTheAlignedFloor(now - HOURLY_RETENTION, DAY, DayOffset(midnight), HourToDay(now, midnight).before);
  }

  /** In a pass, whatever the oldest row is, the chunks of every tier keep the rows of a target bucket together. */
  lemma TiersSplitNoBucket(now: int, midnight: int, tier: nat, oldest: int, i: nat, x: int, y: int)
    requires tier < 5
    requires var job := Pass(now, midnight)[tier];
             && i + 1 < |ChunkBounds(job, BucketStart(oldest, job.width, job.offset))|
             && BucketStart(x, job.width, job.offset) == BucketStart(y, job.width, job.offset)
    ensures var job := Pass(now, midnight)[tier];
            var bounds := ChunkBounds(job, BucketStart(oldest, job.width, job.offset));
            bounds[i] <= x < bounds[i + 1] <==> bounds[i] <= y < bounds[i + 1]
  {
    var job := Pass(now, midnight)[tier];
    var start := BucketStart(oldest, job.width, job.offset);
    PassIsGridded(now, midnight);
    BucketStartIsTheAlignedFloor(oldest, job.width, job.offset, start);
    NoBucketIsSplit(job, start, i, x, y);
  }

  lemma NothingBeforeOldest(book: Book<Key>, job: Job, oldest: int)
    requires forall k :: k in book && Selects(job, k) ==> oldest <= k.epoch
    requires oldest < job.before
    ensures BucketStart(oldest, job.width, job.offset) <= oldest
    ensures Shift(book, Rolling(Until(job, BucketStart(oldest, job.width, job.offset)))) == book
  {
    StartIsNotAfter(oldest, job.width, job.offset);
    NothingToCompact(book, Until(job, BucketStart(oldest, job.width, job.offset)));
  }

  function RowBuckets(rows: Table, ks: seq<Key>): (r: seq<Bucket>)
    requires forall k :: k in ks ==> k in rows
    ensures |r| == |ks| && forall i :: 0 <= i < |r| ==> r[i] == RowBucket(ks[i], rows[ks[i]])
  {
    seq(|ks|, i requires 0 <= i < |ks| => RowBucket(ks[i], rows[ks[i]]))
  }

  lemma RowBucketsList(rows: Table, sel: Selector<Key>, ks: seq<Key>)
    requires SoundTable(rows) && forall k :: k in ks <==> k in rows && sel(k)
    requires forall i, j :: 0 <= i < j < |ks| ==> ks[i] != ks[j]
    ensures Lists(BucketEntries(RowBuckets(rows, ks)), Kept(Ledger(rows), sel))
  {
    var kept := Kept(Ledger(rows), sel);
    EntriesAtList(kept, ks);
    forall i | 0 <= i < |ks|
      ensures BucketEntries(RowBuckets(rows, ks))[i] == EntriesAt(kept, ks)[i]
    {
      assert ks[i] in ks;
      RowBucketContent(ks[i], rows[ks[i]]);
    }
    assert BucketEntries(RowBuckets(rows, ks)) == EntriesAt(kept, ks);
  }

  function Remaining(rows: Table, sel: Selector<Key>): Table {
    map k | k in rows && !sel(k) :: rows[k]
  }

  lemma LedgerRemaining(rows: Table, sel: Selector<Key>)
    ensures Ledger(Remaining(rows, sel)) == Kept(Ledger(rows), Negated(sel))
  {
  }

  lemma ChunkIsRolledUp(rows: Table, job: Job, start: int, end: int, ks: seq<Key>, targets: seq<Bucket>, table: Table)
    requires SoundTable(rows) && job.source != job.width
    requires forall k :: k in ks <==> k in rows && Chunk(job, start, end)(k)
    requires forall i, j :: 0 <= i < j < |ks| ==> ks[i] != ks[j]
    requires Lists(BucketEntries(targets),
                   Posted(map[], Moved(BucketEntries(RowBuckets(rows, ks)), Placing(job.width, job.offset))))
    requires Ledger(table) == Posted(Ledger(rows), BucketEntries(targets))
    ensures Ledger(Remaining(table, Chunk(job, start, end))) == Shift(Ledger(rows), ChunkRolling(job, start, end))
  {
    RowBucketsList(rows, Chunk(job, start, end), ks);
    LedgerRemaining(table, Chunk(job, start, end));
    ChunkRollsUp(Ledger(rows), job, start, end, BucketEntries(RowBuckets(rows, ks)), BucketEntries(targets));
  }

  lemma ChunkRollsUp(book: Book<Key>, job: Job, start: int, end: int, entries: seq<Entry<Key>>,
                     written: seq<Entry<Key>>)
    requires job.source != job.width && Lists(entries, Kept(book, Chunk(job, start, end)))
    requires Lists(written, Posted(map[], Moved(entries, Placing(job.width, job.offset))))
    ensures Kept(Posted(book, written), Negated(Chunk(job, start, end))) == Shift(book, ChunkRolling(job, start, end))
  {
    RolledUpFrom(book, Chunk(job, start, end), Placing(job.width, job.offset), ChunkRolling(job, start, end), entries,
                 written);
  }

  lemma EmptyChunk(book: Book<Key>, job: Job, start: int, end: int)
    requires forall k :: k in book ==> !InChunk(job, start, end, k)
    ensures Shift(book, ChunkRolling(job, start, end)) == book
  {
    ShiftNothing(book, ChunkRolling(job, start, end));
  }

  class MetricStore {
    var rows: Table
    var maintained: Option<int>

    ghost predicate Valid()
      reads this
    {
      SoundTable(rows)
    }

    ghost function Book(): Book<Key>
      reads this
    {
      Ledger(rows)
    }

    constructor (rows: Table)
      requires SoundTable(rows)
      ensures Valid() && this.rows == rows
    {
      this.rows := rows;
      maintained := None;
    }

    /** One transaction: all the buckets, or none when it fails. */
    method WriteBuckets(bs: seq<Bucket>, commits: bool) returns (written: bool)
      requires Valid() && forall b :: b in bs ==> b.count >= 1
      modifies this
      ensures Valid() && maintained == old(maintained)
      ensures written <==> bs == [] || commits
      ensures rows == if written then UpsertedAll(old(rows), bs) else old(rows)
      ensures Book() == if written then Posted(old(Book()), BucketEntries(bs)) else old(Book())
    {
      if bs == [] {
        return true;
      }
      var table := Upserts(rows, bs);
      written := commits;
      if commits {
        rows := table;
      }
    }

    /** GROUP BY over the matching rows. */
    method ReadGroups(q: Query, width: int, offset: int) returns (groups: map<Group, Sums>, ks: seq<Key>)
      requires Valid() && width > 0
      ensures forall k :: k in ks <==> k in rows && Matches(q, k)
      ensures forall i, j :: 0 <= i < j < |ks| ==> ks[i] != ks[j]
      ensures groups == GroupsRead(rows, ks, width, offset)
    {
      var keys := MapKeys(map k | k in rows && Matches(q, k) :: rows[k]);
      groups := map[];
      var i := 0;
      while i < |keys|
        invariant 0 <= i <= |keys|
        invariant groups == GroupsRead(rows, keys[..i], width, offset)
      {
        var k := keys[i];
        var g := GroupOf(k, rows[k], width, offset);
        GroupsReadNext(rows, keys, i, width, offset);
        groups := groups[g := if g in groups then AddSums(groups[g], k, rows[k]) else FirstSums(k, rows[k])];
        i := i + 1;
      }
      assert keys[..i] == keys;
      ks := keys;
    }

    /** Refuses a malformed request; answers for every row as long as the groups fit the limit. */
    method QueryPoints(q: Query, width: int, offset: int, limit: int) returns (found: Option<seq<QueryPoint>>)
      requires Valid()
      ensures found.None? <==> q.until < q.since || limit < 1 || !(0 <= offset < width)
      ensures found.Some? ==> |found.value| <= limit && forall p :: p in found.value ==> p.count >= 1
      ensures found.Some? && |GroupsOf(rows, q, width, offset)| <= limit
          ==> AnswersFor(found.value, rows, q, width, offset)
      // every point has the fields asked for and stands for a row of the window, and every such row has a point
      ensures found.Some? ==> AreWanted(found.value, rows, q, width, offset)
      ensures found.Some? && |GroupsOf(rows, q, width, offset)| <= limit
          ==> CoverWanted(found.value, rows, q, width, offset)
    {
      if q.until < q.since || limit < 1 || !(0 <= offset < width) {
        return None;
      }
      var groups, ks := ReadGroups(q, width, offset);
      GroupsReadAll(rows, q, width, offset, ks);
      var gs := MapKeys(groups);
      var points := seq(|gs|, j requires 0 <= j < |gs| => GroupPoint(gs[j], groups[gs[j]], q.instrument));
      GroupsAreWanted(rows, q, width, offset, gs, points);
      if |points| > limit {
        FewerAreWanted(points, limit, rows, q, width, offset);
        return Some(points[..limit]);
      }
      ListedGroupsAnswer(rows, q, width, offset, ks, gs, points);
      return Some(points);
    }

    /** One chunk in one transaction: read, merge on the target grid, upsert, delete. */
    method CompactChunk(job: Job, start: int, end: int) returns (sources: nat, targets: nat)
      requires Valid() && job.source != job.width
      modifies this
      ensures Valid() && maintained == old(maintained)
      ensures Book() == Shift(old(Book()), ChunkRolling(job, start, end))
      ensures sources == |set k | k in old(rows) && InChunk(job, start, end, k)|
    {
      var ks := ChunkKeys(rows, job, start, end);
      if ks == [] {
        EmptyChunk(Book(), job, start, end);
        return 0, 0;
      }
      var buckets := Regrouped(RowBuckets(rows, ks), job.width, job.offset);
      var table := Upserts(rows, buckets);
      ChunkIsRolledUp(rows, job, start, end, ks, buckets, table);
      rows := Remaining(table, Chunk(job, start, end));
      return |ks|, |buckets|;
    }

    method CompactResolution(job: Job)
      requires Valid() && job.source != job.width
      modifies this
      ensures Valid() && maintained == old(maintained)
      ensures Book() == Shift(old(Book()), Rolling(job))
      ensures NoneLeft(old(Book()), job) ==> rows == old(rows)
    {
      var oldest := OldestSelected(rows, job);
      if oldest.None? {
        NothingToCompact(Book(), job);
      } else {
        NothingBeforeOldest(Book(), job, oldest.value);
        var _ := CompactFrom(job, BucketStart(oldest.value, job.width, job.offset), Book());
      }
    }

    /** Chunk by chunk up to the cutoff; `before` is the book the compaction started from, `bounds` where its
        transactions met. */
    method CompactFrom(job: Job, first: int, ghost before: Book<Key>) returns (ghost bounds: seq<int>)
      requires Valid() && job.source != job.width && first <= job.before
      requires Book() == Shift(before, Rolling(Until(job, first)))
      modifies this
      ensures Valid() && maintained == old(maintained)
      ensures Book() == Shift(before, Rolling(job))
      ensures bounds == ChunkBounds(job, first)
    {
      var start := first;
      bounds := [];
      while start < job.before
        invariant start <= job.before
        invariant Valid() && maintained == old(maintained)
        invariant Book() == Shift(before, Rolling(Until(job, start)))
        invariant bounds + ChunkBounds(job, start) == ChunkBounds(job, first)
        decreases job.before - start
      {
        var end := ChunkEnd(job, start);
        ChunkFollows(before, job, start, end);
        var _, _ := CompactChunk(job, start, end);
        bounds := bounds + [start];
        start := end;
      }
      bounds := bounds + [start];
      assert Until(job, start) == job;
    }

    /** The five compactions of a pass. */
    method CompactTiers(now: int, midnight: int)
      requires Valid()
      modifies this
      ensures Valid() && maintained == old(maintained)
      ensures Book() == RolledAll(old(Book()), Pass(now, midnight))
      ensures PassDone(old(Book()), now, midnight) ==> rows == old(rows)
    {
      ghost var before := rows;
      ghost var idle := PassDone(Book(), now, midnight);
      PassIsFiveShifts(Book(), now, midnight);
      CompactResolution(RawToHot(now));
      assert idle ==> rows == before;
      CompactResolution(UsageToHour(midnight));
      assert idle ==> rows == before;
      CompactResolution(UsageToDay(midnight));
      assert idle ==> rows == before;
      CompactResolution(HotToHour(now));
      assert idle ==> rows == before;
      CompactResolution(HourToDay(now, midnight));
    }

    /** A maintenance pass; `sameDay` says whether the last one fell on the present local day. A pass that finds
        every row in its tier changes no row. */
    method MaintainHistory(now: int, midnight: int, sameDay: bool, force: bool) returns (compacted: bool)
      requires Valid()
      modifies this
      ensures Valid()
      ensures compacted <==> force || old(maintained).None? || !sameDay || now - old(maintained).value >= DAY
      ensures compacted ==> maintained == Some(now) && Book() == RolledAll(old(Book()), Pass(now, midnight))
      ensures PassDone(old(Book()), now, midnight) ==> rows == old(rows)
      ensures !compacted ==> maintained == old(maintained) && rows == old(rows)
    {
      if !force && maintained.Some? && now - maintained.value < DAY && sameDay {
        return false;
      }
      CompactTiers(now, midnight);
      maintained := Some(now);
      return true;
    }

    /** Two forced passes at one time: the second changes no row at all. */
    method MaintainTwice(now: int, midnight: int) returns (between: Table)
      requires Valid() && now - HOT_RETENTION <= midnight
      modifies this
      ensures Valid() && PassDone(Book(), now, midnight) && rows == between
    {
      PassLeavesNone(Book(), now, midnight);
      var _ := MaintainHistory(now, midnight, true, true);
      between := rows;
      var _ := MaintainHistory(now, midnight, true, true);
    }
  }

  method OldestSelected(rows: Table, job: Job) returns (oldest: Option<int>)
    ensures oldest.None? ==> forall k :: k in rows ==> !Selects(job, k)
    ensures oldest.Some?
        ==> oldest.value < job.before && exists k :: k in rows && Selects(job, k) && k.epoch == oldest.value
    ensures oldest.Some? ==> forall k :: k in rows && Selects(job, k) ==> oldest.value <= k.epoch
  {
    var ks := MapKeys(map k | k in rows && Selects(job, k) :: rows[k]);
    oldest := None;
    var i := 0;
    while i < |ks|
      invariant 0 <= i <= |ks|
      invariant oldest.None? <==> i == 0
      invariant oldest.Some? ==> exists k :: k in rows && Selects(job, k) && k.epoch == oldest.value
      invariant oldest.Some? ==> forall j :: 0 <= j < i ==> oldest.value <= ks[j].epoch
    {
      oldest := Some(if oldest.None? then ks[i].epoch else Min(oldest.value, ks[i].epoch));
      i := i + 1;
    }
    assert forall k :: k in rows && Selects(job, k) ==> k in ks;
  }

  method ChunkKeys(rows: Table, job: Job, start: int, end: int) returns (ks: seq<Key>)
    ensures forall k :: k in ks <==> k in rows && InChunk(job, start, end, k)
    ensures forall i, j :: 0 <= i < j < |ks| ==> ks[i] != ks[j]
    ensures |ks| == |set k | k in rows && InChunk(job, start, end, k)|
  {
    var selected := map k | k in rows && InChunk(job, start, end, k) :: rows[k];
    assert selected.Keys == set k | k in rows && InChunk(job, start, end, k);
    ks := MapKeys(selected);
  }

  /** The buckets merged on another grid. */
  method Regrouped(bs: seq<Bucket>, width: int, offset: int) returns (targets: seq<Bucket>)
    requires width > 0 && forall b :: b in bs ==> b.count >= 1
    ensures Lists(BucketEntries(targets), Posted(map[], Moved(BucketEntries(bs), Placing(width, offset))))
    ensures forall b :: b in targets ==> b.count >= 1
  {
    var accumulator := new MetricAccumulator(width, offset);
    accumulator.AddBuckets(bs);
    targets := accumulator.Buckets();
  }

  method Upserts(rows: Table, bs: seq<Bucket>) returns (table: Table)
    requires SoundTable(rows) && forall b :: b in bs ==> b.count >= 1
    ensures table == UpsertedAll(rows, bs)
    ensures SoundTable(table) && Ledger(table) == Posted(Ledger(rows), BucketEntries(bs))
  {
    table := rows;
    var i := 0;
    while i < |bs|
      invariant 0 <= i <= |bs|
      invariant table == UpsertedAll(rows, bs[..i])
    {
      var b := bs[i];
      UpsertedNext(rows, bs, i);
      if b.key in table {
        table := table[b.key := Merged(b.key.series.instrument, table[b.key], BucketRow(b))];
      } else {
        table := table[b.key := BucketRow(b)];
      }
      i := i + 1;
    }
    assert bs[..i] == bs;
    UpsertsPost(rows, bs);
  }
}
