/**
 * The hot buffer, the stored table and history compaction as one machine over books, and what a run
 * of it keeps: a query answers as if every point ever ingested had been aggregated directly.
 */
module MetricEngine {
  import opened Prelude
  import opened Folding
  import opened MetricBooks
  import opened MetricAggregates
  import opened MetricRows

  /** One call of the compaction: rows of resolution `source` before an epoch move to a wider grid. */
  datatype Roll = Roll(source: int, width: int, offset: int, before: int, resource: Option<string>)

  type Job = r: Roll | r.width > 0 witness Roll(0, 1, 0, 0, None)

  predicate Selects(job: Job, k: Key) {
    && k.resolution == job.source
    && k.epoch < job.before
    && (job.resource.Some? ==> k.series.resource == job.resource.value)
  }

  function Rolling(job: Job): Key -> Key {
    k => if Selects(job, k) then Placed(k, job.width, job.offset) else k
  }

  datatype Engine = Engine(table: Book<Key>, buffer: Book<Key>)

  datatype Event =
    | Ingest(points: seq<Point>, now: int, commits: bool)
    | FlushDone(at: int, succeeds: bool)
    | FlushAll(done: bool)
    | Compact(job: Job)
    | Restart

  /** Completed buckets go to the table in one transaction; a failed write leaves everything as it was. */
  function FlushedDone(e: Engine, width: int, now: int, commits: bool): Engine
    requires width > 0
  {
    var cutoff := BucketStart(now, width, 0);
    if commits then Engine(Plus(e.table, Kept(e.buffer, Before(cutoff))), Kept(e.buffer, NotBefore(cutoff))) else e
  }

  /** A bucket of the hot grid leaves memory exactly when it is over. */
  lemma FlushMovesCompleted(e: Engine, width: int, now: int, k: Key)
    requires width > 0 && k.epoch % width == 0
    ensures k in FlushedDone(e, width, now, true).buffer <==> k in e.buffer && k.epoch + width > now
    ensures k in FlushedDone(e, width, now, true).table <==> k in e.table || (k in e.buffer && k.epoch + width <= now)
  {
    var cutoff := BucketStart(now, width, 0);
    BucketStartIsTheAlignedFloor(now, width, 0, cutoff);
    if k.epoch < cutoff {
      AlignedEpochsAreApart(k.epoch, cutoff, width, 0);
    }
    if cutoff < k.epoch {
      AlignedEpochsAreApart(cutoff, k.epoch, width, 0);
    }
  }

  function HotEntries(points: seq<Point>, width: int): (r: seq<Entry<Key>>)
    requires width > 0
    ensures forall e :: e in r ==> e.summary != Empty
  {
    Moved(PointEntries(points), Placing(width, 0))
  }

  function Ingested(e: Engine, width: int, points: seq<Point>): Engine
    requires width > 0
  {
    e.(buffer := Posted(e.buffer, HotEntries(points, width)))
  }

  ghost function Apply(e: Engine, width: int, event: Event): Engine
    requires width > 0
  {
    match event
    case Ingest(points, now, commits) => FlushedDone(Ingested(e, width, points), width, now, commits)
    case FlushDone(now, commits) => FlushedDone(e, width, now, commits)
    case FlushAll(commits) => if commits then Engine(Plus(e.table, e.buffer), map[]) else e
    case Compact(job) => e.(table := Shift(e.table, Rolling(job)))
    case Restart => e.(buffer := map[])
  }

  ghost function Run(e: Engine, width: int, events: seq<Event>): Engine
    requires width > 0
  {
    if events == [] then e else
    var n := |events| - 1;
    Apply(Run(e, width, events[..n]), width, events[n])
  }

  function PointsOf(events: seq<Event>): seq<Point> {
    if events == [] then [] else
    var n := |events| - 1;
    PointsOf(events[..n]) + if events[n].Ingest? then events[n].points else []
  }

  /** Memory and disk together. */
  function Whole(e: Engine): Book<Key> {
    Plus(e.table, e.buffer)
  }

  /** Every restart finds the buffer flushed. */
  ghost predicate Orderly(e: Engine, width: int, events: seq<Event>)
    requires width > 0
  {
    forall i :: 0 <= i < |events| && events[i].Restart? ==> Run(e, width, events[..i]).buffer == map[]
  }

  ghost predicate Blind(pick: Selector<Key>, job: Job) {
    forall k :: pick(Rolling(job)(k)) == pick(k)
  }

  ghost predicate BlindToAll(pick: Selector<Key>, events: seq<Event>) {
    forall i :: 0 <= i < |events| && events[i].Compact? ==> Blind(pick, events[i].job)
  }

  // ---- One step ----

  lemma TotalWhole(e: Engine, pick: Selector<Key>)
    ensures Total(Whole(e), pick) == Merge(Total(e.table, pick), Total(e.buffer, pick))
  {
    TotalPlus(e.table, e.buffer, pick);
  }

  /** A flush moves buckets from memory to disk and changes no total, whether it succeeds or fails. */
  lemma FlushKeepsWhole(e: Engine, width: int, now: int, commits: bool)
    requires width > 0
    ensures Whole(FlushedDone(e, width, now, commits)) == Whole(e)
    ensures Whole(Apply(e, width, FlushAll(commits))) == Whole(e)
  {
    FlushDoneKeepsWhole(e.table, e.buffer, BucketStart(now, width, 0));
    PlusEmpty(Plus(e.table, e.buffer));
  }

  lemma FlushDoneKeepsWhole(table: Book<Key>, buffer: Book<Key>, cutoff: int)
    ensures Plus(Plus(table, Kept(buffer, Before(cutoff))), Kept(buffer, NotBefore(cutoff))) == Plus(table, buffer)
  {
    PlusKept(table, buffer, Before(cutoff), NotBefore(cutoff));
  }

  lemma IngestAddsPoints(e: Engine, width: int, points: seq<Point>, pick: Selector<Key>)
    requires width > 0
    ensures Total(Whole(Ingested(e, width, points)), pick)
         == Merge(Total(Whole(e), pick), EntriesTotal(HotEntries(points, width), pick))
  {
    var entries := HotEntries(points, width);
    TotalWhole(e, pick);
    TotalWhole(Ingested(e, width, points), pick);
    TotalPosted(e.buffer, entries, pick);
    MergeIsCommutativeMonoid(Total(e.table, pick), Total(e.buffer, pick), EntriesTotal(entries, pick));
  }

  lemma BlindShift(book: Book<Key>, job: Job, pick: Selector<Key>)
    requires Blind(pick, job)
    ensures Total(Shift(book, Rolling(job)), pick) == Total(book, pick)
  {
    ShiftUnseen(book, Rolling(job), pick);
  }

  lemma CompactionIsUnseen(e: Engine, width: int, job: Job, pick: Selector<Key>)
    requires width > 0 && Blind(pick, job)
    ensures Total(Whole(Apply(e, width, Compact(job))), pick) == Total(Whole(e), pick)
  {
    CompactedWhole(e, width, job);
    ShiftedBeneath(e.table, e.buffer, job, pick);
  }

  lemma CompactedWhole(e: Engine, width: int, job: Job)
    requires width > 0
    ensures Whole(Apply(e, width, Compact(job))) == Plus(Shift(e.table, Rolling(job)), e.buffer)
  {
    var after := Apply(e, width, Compact(job));
    assert after.table == Shift(e.table, Rolling(job)) && after.buffer == e.buffer;
    WholeOf(after, Shift(e.table, Rolling(job)), e.buffer);
  }

  lemma WholeOf(e: Engine, table: Book<Key>, buffer: Book<Key>)
    requires e.table == table && e.buffer == buffer
    ensures Whole(e) == Plus(table, buffer)
  {
  }

  lemma ShiftedBeneath(table: Book<Key>, buffer: Book<Key>, job: Job, pick: Selector<Key>)
    requires Blind(pick, job)
    ensures Total(Plus(Shift(table, Rolling(job)), buffer), pick) == Total(Plus(table, buffer), pick)
  {
    BlindShift(table, job, pick);
    TotalPlus(table, buffer, pick);
    TotalPlus(Shift(table, Rolling(job)), buffer, pick);
  }

  // ---- Any run ----

  lemma HotEntriesConcat(a: seq<Point>, b: seq<Point>, width: int, pick: Selector<Key>)
    requires width > 0
    ensures EntriesTotal(HotEntries(a + b, width), pick)
         == Merge(EntriesTotal(HotEntries(a, width), pick), EntriesTotal(HotEntries(b, width), pick))
  {
    assert HotEntries(a + b, width) == HotEntries(a, width) + HotEntries(b, width);
    EntriesTotalConcat(HotEntries(a, width), HotEntries(b, width), pick);
  }

  lemma StepConserves(e: Engine, width: int, event: Event, pick: Selector<Key>)
    requires width > 0
    requires event.Restart? ==> e.buffer == map[]
    requires event.Compact? ==> Blind(pick, event.job)
    ensures Total(Whole(Apply(e, width, event)), pick)
         == Merge(Total(Whole(e), pick),
                  EntriesTotal(HotEntries(if event.Ingest? then event.points else [], width), pick))
  {
    match event
    case Ingest(points, now, commits) =>
      IngestAddsPoints(e, width, points, pick);
      FlushKeepsWhole(Ingested(e, width, points), width, now, commits);
    case FlushDone(now, commits) => FlushKeepsWhole(e, width, now, commits);
    case FlushAll(commits) => FlushKeepsWhole(e, width, 0, commits);
    case Compact(job) => CompactionIsUnseen(e, width, job, pick);
    case Restart =>
  }

  /** Every total a compaction cannot see grows by exactly the points ingested. */
  lemma {:induction false} RunConserves(e: Engine, width: int, events: seq<Event>, pick: Selector<Key>)
    requires width > 0 && Orderly(e, width, events) && BlindToAll(pick, events)
    ensures Total(Whole(Run(e, width, events)), pick)
         == Merge(Total(Whole(e), pick), EntriesTotal(HotEntries(PointsOf(events), width), pick))
  {
    if events != [] {
      var n := |events| - 1;
      var less, event := events[..n], events[n];
      forall i | 0 <= i < n && less[i].Restart?
        ensures Run(e, width, less[..i]).buffer == map[]
      {
        assert less[..i] == events[..i];
      }
      RunConserves(e, width, less, pick);
      StepConserves(Run(e, width, less), width, event, pick);
      var added := if event.Ingest? then event.points else [];
      HotEntriesConcat(PointsOf(less), added, width, pick);
      MergeIsCommutativeMonoid(Total(Whole(e), pick), EntriesTotal(HotEntries(PointsOf(less), width), pick),
                               EntriesTotal(HotEntries(added, width), pick));
    }
  }

  // ---- Queries ----

  /** The overlay of disk and memory, restricted to the request and laid on its grid. */
  ghost function Answer(e: Engine, q: Query, width: int, offset: int): Book<Key>
    requires width > 0
  {
    Shift(Kept(Whole(e), Matching(q)), Placing(width, offset))
  }

  /** The reference: bucket every point, keep what matches, merge per requested bucket. */
  function Direct(points: seq<Point>, hot: int, q: Query, width: int, offset: int): Book<Key>
    requires hot > 0 && width > 0
  {
    Posted(map[], Moved(KeptEntries(HotEntries(points, hot), Matching(q)), Placing(width, offset)))
  }

  function Asked(q: Query, width: int, offset: int, pick: Selector<Key>): Selector<Key>
    requires width > 0
  {
    Both(Matching(q), Through(Placing(width, offset), pick))
  }

  lemma AnswerTotal(e: Engine, q: Query, width: int, offset: int, pick: Selector<Key>)
    requires width > 0
    ensures Total(Answer(e, q, width, offset), pick) == Total(Whole(e), Asked(q, width, offset, pick))
  {
    TotalShift(Kept(Whole(e), Matching(q)), Placing(width, offset), pick);
    TotalKept(Whole(e), Matching(q), Through(Placing(width, offset), pick));
  }

  lemma DirectTotal(points: seq<Point>, hot: int, q: Query, width: int, offset: int, pick: Selector<Key>)
    requires hot > 0 && width > 0
    ensures Total(Direct(points, hot, q, width, offset), pick)
         == EntriesTotal(HotEntries(points, hot), Asked(q, width, offset, pick))
  {
    var kept := KeptEntries(HotEntries(points, hot), Matching(q));
    TotalPosted(map[], Moved(kept, Placing(width, offset)), pick);
    MovedTotal(kept, Placing(width, offset), pick);
    KeptEntriesTotal(HotEntries(points, hot), Matching(q), Through(Placing(width, offset), pick));
  }

  // ---- Which compactions a request does not notice ----

  predicate OnGrid(job: Job, epoch: int) {
    (epoch - job.offset) % job.width == 0
  }

  /** An end of the window, or of a requested bucket inside it. */
  predicate Bound(q: Query, width: int, offset: int, x: int)
    requires width > 0
  {
    q.since <= x <= q.until + 1 && (x == q.since || x == q.until + 1 || (x - offset) % width == 0)
  }

  /** The compaction moves rows of a resource the request does not ask for. */
  predicate Foreign(q: Query, job: Job) {
    job.resource.Some? && q.resource.Some? && job.resource != q.resource
  }

  /** Every bound of the request that lies before the cutoff is on the grid of the compaction. */
  ghost predicate Undisturbed(q: Query, width: int, offset: int, job: Job)
    requires width > 0
  {
    Foreign(q, job) || forall x | Bound(q, width, offset, x) && x < job.before :: OnGrid(job, x)
  }

  lemma AlignedBoundIsNotCrossed(epoch: int, bound: int, width: int, offset: int)
    requires width > 0 && (bound - offset) % width == 0
    ensures epoch < bound <==> BucketStart(epoch, width, offset) < bound
  {
    var start := BucketStart(epoch, width, offset);
    BucketStartIsTheAlignedFloor(epoch, width, offset, start);
    if start < bound {
      AlignedEpochsAreApart(start, bound, width, offset);
    }
  }

  /** A row of the window stays in it and in its requested bucket; other rows stay out. */
  lemma MovedWithinBounds(q: Query, width: int, offset: int, job: Job, epoch: int)
    requires width > 0 && epoch < job.before
    requires forall x | Bound(q, width, offset, x) && x < job.before :: OnGrid(job, x)
    ensures var start := BucketStart(epoch, job.width, job.offset);
            && (q.since <= epoch <= q.until <==> q.since <= start <= q.until)
            && (q.since <= epoch <= q.until ==> BucketStart(start, width, offset) == BucketStart(epoch, width, offset))
  {
    var start, bucket := BucketStart(epoch, job.width, job.offset), BucketStart(epoch, width, offset);
    BucketStartIsTheAlignedFloor(epoch, job.width, job.offset, start);
    BucketStartIsTheAlignedFloor(epoch, width, offset, bucket);
    if q.since <= q.until + 1 && q.since <= epoch {
      assert Bound(q, width, offset, q.since);
      AlignedBoundIsNotCrossed(epoch, q.since, job.width, job.offset);
      if q.until < epoch {
        assert Bound(q, width, offset, q.until + 1);
        AlignedBoundIsNotCrossed(epoch, q.until + 1, job.width, job.offset);
      } else {
        if q.since <= bucket {
          assert Bound(q, width, offset, bucket);
          AlignedBoundIsNotCrossed(epoch, bucket, job.width, job.offset);
        }
        BucketStartIsTheAlignedFloor(start, width, offset, bucket);
      }
    }
  }

  lemma UndisturbedIsBlind(q: Query, width: int, offset: int, job: Job, pick: Selector<Key>)
    requires width > 0 && Undisturbed(q, width, offset, job)
    ensures Blind(Asked(q, width, offset, pick), job)
  {
    var asked := Asked(q, width, offset, pick);
    forall k
      ensures asked(Rolling(job)(k)) == asked(k)
    {
      if Selects(job, k) && !Foreign(q, job) {
        MovedWithinBounds(q, width, offset, job, k.epoch);
      }
    }
  }

  /** The grid of the compaction refines the requested one and the window, as far as it goes. */
  lemma NestedGridsAreUndisturbed(q: Query, width: int, offset: int, job: Job)
    requires Refines(job.width, job.offset, width, offset) && OnGrid(job, q.since)
    requires job.before <= q.until + 1 || OnGrid(job, q.until + 1)
    ensures Undisturbed(q, width, offset, job)
  {
    forall x | Bound(q, width, offset, x) && x < job.before ensures OnGrid(job, x) {
      if (x - offset) % width == 0 {
        AlignedToFinerGrid(x, job.width, job.offset, width, offset);
      }
    }
  }

  /** Over any run of ingests, flushes, failures, compactions and orderly restarts. */
  lemma AnswersAreDirect(hot: int, events: seq<Event>, q: Query, width: int, offset: int)
    requires hot > 0 && width > 0 && Orderly(Engine(map[], map[]), hot, events)
    requires forall i :: 0 <= i < |events| && events[i].Compact? ==> Undisturbed(q, width, offset, events[i].job)
    ensures Answer(Run(Engine(map[], map[]), hot, events), q, width, offset)
         == Direct(PointsOf(events), hot, q, width, offset)
  {
    var answer := Answer(Run(Engine(map[], map[]), hot, events), q, width, offset);
    var direct := Direct(PointsOf(events), hot, q, width, offset);
    forall pick: Selector<Key>
      ensures Total(answer, pick) == Total(direct, pick)
    {
      TotalsAreDirect(hot, events, q, width, offset, pick);
    }
    SameTotalsSameBook(answer, direct);
  }

  /** The points of the window with the fields asked for. */
  function PointsWanted(points: seq<Point>, q: Query): seq<Point> {
    if points == [] then [] else
    var n := |points| - 1;
    PointsWanted(points[..n], q)
    + if q.since <= points[n].epoch <= q.until && Wanted(q, points[n].series) then [points[n]] else []
  }

  lemma {:induction false} WantedPointsAreKept(points: seq<Point>, q: Query)
    ensures KeptEntries(PointEntries(points), Matching(q)) == PointEntries(PointsWanted(points, q))
  {
    if points != [] {
      var n := |points| - 1;
      WantedPointsAreKept(points[..n], q);
      MatchesIsWantedInWindow(q, PointEntries(points)[n].key);
      assert PointEntries(points)[..n] == PointEntries(points[..n]);
    }
  }

  /** Those points posted straight into the requested buckets. */
  function Straight(points: seq<Point>, q: Query, width: int, offset: int): Book<Key>
    requires width > 0
  {
    Posted(map[], Moved(PointEntries(PointsWanted(points, q)), Placing(width, offset)))
  }

  /** A window and a grid made of whole hot buckets. */
  predicate HotAligned(hot: int, q: Query, width: int, offset: int) {
    hot > 0 && Refines(hot, 0, width, offset) && q.since % hot == 0 && (q.until + 1) % hot == 0
  }

  lemma HotBucketsFit(k: Key, hot: int, q: Query, width: int, offset: int)
    requires HotAligned(hot, q, width, offset)
    ensures Matches(q, Placed(k, hot, 0)) <==> Matches(q, k)
    ensures Placed(Placed(k, hot, 0), width, offset) == Placed(k, width, offset)
  {
    AlignedBoundIsNotCrossed(k.epoch, q.since, hot, 0);
    AlignedBoundIsNotCrossed(k.epoch, q.until + 1, hot, 0);
    BucketsNest(k.epoch, hot, 0, width, offset);
  }

  /** Then bucketing every point on the hot grid first makes no difference. */
  lemma DirectIsStraight(points: seq<Point>, hot: int, q: Query, width: int, offset: int)
    requires HotAligned(hot, q, width, offset)
    ensures Direct(points, hot, q, width, offset) == Straight(points, q, width, offset)
  {
    forall k: Key
      ensures Matching(q)(Placing(hot, 0)(k)) == Matching(q)(k)
      ensures Placing(width, offset)(Placing(hot, 0)(k)) == Placing(width, offset)(k)
    {
      HotBucketsFit(k, hot, q, width, offset);
    }
    WantedPointsAreKept(points, q);
    FirstMoveIsLeftOut(PointEntries(points), Placing(hot, 0), Matching(q), Placing(width, offset));
  }

  /** Over any run, for requests of whole hot buckets: the answer is that of the raw points of the window. */
  lemma AlignedAnswersAreStraight(hot: int, events: seq<Event>, q: Query, width: int, offset: int)
    requires HotAligned(hot, q, width, offset) && Orderly(Engine(map[], map[]), hot, events)
    requires forall i :: 0 <= i < |events| && events[i].Compact? ==> Undisturbed(q, width, offset, events[i].job)
    ensures Answer(Run(Engine(map[], map[]), hot, events), q, width, offset)
         == Straight(PointsOf(events), q, width, offset)
  {
    AnswersAreDirect(hot, events, q, width, offset);
    DirectIsStraight(PointsOf(events), hot, q, width, offset);
  }

  lemma TotalsAreDirect(hot: int, events: seq<Event>, q: Query, width: int, offset: int, pick: Selector<Key>)
    requires hot > 0 && width > 0 && Orderly(Engine(map[], map[]), hot, events)
    requires forall i :: 0 <= i < |events| && events[i].Compact? ==> Undisturbed(q, width, offset, events[i].job)
    ensures Total(Answer(Run(Engine(map[], map[]), hot, events), q, width, offset), pick)
         == Total(Direct(PointsOf(events), hot, q, width, offset), pick)
  {
    var start := Engine(map[], map[]);
    var asked := Asked(q, width, offset, pick);
    AnswerTotal(Run(start, hot, events), q, width, offset, pick);
    DirectTotal(PointsOf(events), hot, q, width, offset, pick);
    UndisturbedIsBlindToAll(events, q, width, offset, pick);
    RunConserves(start, hot, events, asked);
    NothingIsWhole(asked);
  }

  lemma NothingIsWhole(pick: Selector<Key>)
    ensures Total(Whole(Engine(map[], map[])), pick) == Empty
  {
    PlusEmpty<Key>(map[]);
  }

  lemma UndisturbedIsBlindToAll(events: seq<Event>, q: Query, width: int, offset: int, pick: Selector<Key>)
    requires width > 0
    requires forall i :: 0 <= i < |events| && events[i].Compact? ==> Undisturbed(q, width, offset, events[i].job)
    ensures BlindToAll(Asked(q, width, offset, pick), events)
  {
    forall i | 0 <= i < |events| && events[i].Compact?
      ensures Blind(Asked(q, width, offset, pick), events[i].job)
    {
      UndisturbedIsBlind(q, width, offset, events[i].job, pick);
    }
  }

  /** The order in which points arrive does not matter. */
  lemma OrderOfPointsDoesNotMatter(a: seq<Point>, b: seq<Point>, hot: int, q: Query, width: int, offset: int)
    requires hot > 0 && width > 0 && multiset(a) == multiset(b)
    ensures Direct(a, hot, q, width, offset) == Direct(b, hot, q, width, offset)
  {
    forall pick: Selector<Key>
      ensures Total(Direct(a, hot, q, width, offset), pick) == Total(Direct(b, hot, q, width, offset), pick)
    {
      var asked := Asked(q, width, offset, pick);
      DirectTotal(a, hot, q, width, offset, pick);
      DirectTotal(b, hot, q, width, offset, pick);
      PointsPermuted(a, b, hot, asked);
    }
    SameTotalsSameBook(Direct(a, hot, q, width, offset), Direct(b, hot, q, width, offset));
  }

  function PointStep(hot: int, pick: Selector<Key>): (Summary, Point) -> Summary
    requires hot > 0
  {
    (s: Summary, p: Point) => Merge(s, EntryPicked(PointEntry(p), hot, pick))
  }

  function EntryPicked(e: Entry<Key>, hot: int, pick: Selector<Key>): Summary
    requires hot > 0
  {
    Picked(pick, Placed(e.key, hot, 0), e.summary)
  }

  lemma {:induction false} PointsAccumulate(ps: seq<Point>, hot: int, pick: Selector<Key>)
    requires hot > 0
    ensures EntriesTotal(HotEntries(ps, hot), pick) == Accumulate(PointStep(hot, pick), ps, Empty)
  {
    if ps != [] {
      var n := |ps| - 1;
      var less, step := ps[..n], PointStep(hot, pick);
      assert ps == less + [ps[n]];
      PointsAccumulate(less, hot, pick);
      AccumulateConcat(step, less, [ps[n]], Empty);
      AccumulateOne(step, ps[n], Accumulate(step, less, Empty));
      assert HotEntries(ps, hot)[..n] == HotEntries(less, hot);
    }
  }

  lemma PointsPermuted(a: seq<Point>, b: seq<Point>, hot: int, pick: Selector<Key>)
    requires hot > 0 && multiset(a) == multiset(b)
    ensures EntriesTotal(HotEntries(a, hot), pick) == EntriesTotal(HotEntries(b, hot), pick)
  {
    var step := PointStep(hot, pick);
    forall s, x, y
      ensures step(step(s, x), y) == step(step(s, y), x)
    {
      SplitOne(s, EntryPicked(PointEntry(x), hot, pick), EntryPicked(PointEntry(y), hot, pick));
    }
    AccumulatePermuted(step, a, b, Empty);
    PointsAccumulate(a, hot, pick);
    PointsAccumulate(b, hot, pick);
  }

  /** Merging into narrow buckets and those into wide ones is merging into wide buckets at once. */
  lemma TwoLevelsAgree(entries: seq<Entry<Key>>, r: int, o: int, w: int, p: int)
    requires Refines(r, o, w, p) && forall e :: e in entries ==> e.summary != Empty
    ensures Shift(Posted(map[], Moved(entries, Placing(r, o))), Placing(w, p))
         == Posted(map[], Moved(entries, Placing(w, p)))
  {
    var first, second, whole := Placing(r, o), Placing(w, p), Placing(w, p);
    forall e | e in entries
      ensures second(first(e.key)) == whole(e.key)
    {
      BucketsNest(e.key.epoch, r, o, w, p);
    }
    ShiftPosted(entries, first, second, whole);
  }
}
