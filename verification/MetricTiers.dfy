/**
 * The retention tiers of the history: raw samples, quarter hours, hours and days.
 * Epochs are whole microseconds here, so that the widths are the real ones.
 */
module MetricTiers {
  import opened Prelude
  import opened MetricBooks
  import opened MetricAggregates
  import opened MetricRows
  import opened MetricEngine

  const SECOND: int := 1000000
  const HOT: int := 900 * SECOND
  const HOUR: int := 3600 * SECOND
  const DAY: int := 86400 * SECOND
  const HOT_RETENTION: int := 7 * DAY
  const HOURLY_RETENTION: int := 90 * DAY

  function DayOffset(midnight: int): int {
    midnight / SECOND * SECOND % DAY
  }

  function RawToHot(now: int): Job {
    Roll(0, HOT, 0, BucketStart(now, HOT, 0), None)
  }

  function UsageToHour(midnight: int): Job {
    Roll(HOT, HOUR, 0, BucketStart(midnight, HOUR, 0), Some("ai_usage"))
  }

  function UsageToDay(midnight: int): Job {
    Roll(HOUR, DAY, DayOffset(midnight), BucketStart(midnight, DAY, DayOffset(midnight)), Some("ai_usage"))
  }

  function HotToHour(now: int): Job {
    Roll(HOT, HOUR, 0, BucketStart(now - HOT_RETENTION, HOUR, 0), None)
  }

  function HourToDay(now: int, midnight: int): Job {
    Roll(HOUR, DAY, DayOffset(midnight), BucketStart(now - HOURLY_RETENTION, DAY, DayOffset(midnight)), None)
  }

  /** The compactions of one maintenance pass, in order. */
  function Pass(now: int, midnight: int): seq<Job> {
    [RawToHot(now), UsageToHour(midnight), UsageToDay(midnight), HotToHour(now), HourToDay(now, midnight)]
  }

  ghost function RolledAll(book: Book<Key>, jobs: seq<Job>): Book<Key> {
    if jobs == [] then book else
    var n := |jobs| - 1;
    Shift(RolledAll(book, jobs[..n]), Rolling(jobs[n]))
  }

  /** No bucket is left for this compaction. */
  ghost predicate NoneLeft(book: Book<Key>, job: Job) {
    forall k :: k in book ==> !Selects(job, k)
  }

  lemma NoneLeftForItself(book: Book<Key>, job: Job)
    requires job.source != job.width
    ensures NoneLeft(Shift(book, Rolling(job)), job)
  {
    forall g | g in Shift(book, Rolling(job))
      ensures !Selects(job, g)
    {
      var k :| k in book && Rolling(job)(k) == g;
    }
  }

  /** A later compaction leaves none for an earlier one unless it would put some there. */
  lemma NoneLeftAfter(book: Book<Key>, done: Job, next: Job)
    requires NoneLeft(book, done)
    requires forall k :: k in book && Selects(next, k) ==> !Selects(done, Placed(k, next.width, next.offset))
    ensures NoneLeft(Shift(book, Rolling(next)), done)
  {
    forall g | g in Shift(book, Rolling(next))
      ensures !Selects(done, g)
    {
      var k :| k in book && Rolling(next)(k) == g;
    }
  }

  lemma StartsInOrder(a: int, b: int, width: int, offset: int)
    requires width > 0 && a <= b
    ensures BucketStart(a, width, offset) <= BucketStart(b, width, offset)
  {
    var s, t := BucketStart(a, width, offset), BucketStart(b, width, offset);
    BucketStartIsTheAlignedFloor(a, width, offset, s);
    BucketStartIsTheAlignedFloor(b, width, offset, t);
    if t < s {
      AlignedEpochsAreApart(t, s, width, offset);
    }
  }

  lemma NoneLeftAfterOther(book: Book<Key>, done: Job, next: Job)
    requires NoneLeft(book, done) && next.width != done.source
    ensures NoneLeft(Shift(book, Rolling(next)), done)
  {
    NoneLeftAfter(book, done, next);
  }

  /** The general hour compaction finds no usage rows that the usage compaction has not moved already. */
  lemma UsageDaysStayDone(book: Book<Key>, now: int, midnight: int)
    requires now - HOT_RETENTION <= midnight
    requires NoneLeft(book, UsageToHour(midnight)) && NoneLeft(book, UsageToDay(midnight))
    ensures NoneLeft(Shift(book, Rolling(HotToHour(now))), UsageToDay(midnight))
  {
    StartsInOrder(now - HOT_RETENTION, midnight, HOUR, 0);
    NoneLeftAfter(book, UsageToDay(midnight), HotToHour(now));
  }

  ghost predicate PassDone(book: Book<Key>, now: int, midnight: int) {
    && NoneLeft(book, RawToHot(now))
    && NoneLeft(book, UsageToHour(midnight))
    && NoneLeft(book, UsageToDay(midnight))
    && NoneLeft(book, HotToHour(now))
    && NoneLeft(book, HourToDay(now, midnight))
  }

  /** After a pass no row is older than the cutoff of its tier, the usage rows under their tighter ones. */
  lemma PassLeavesNone(book: Book<Key>, now: int, midnight: int)
    requires now - HOT_RETENTION <= midnight
    ensures PassDone(RolledAll(book, Pass(now, midnight)), now, midnight)
  {
    var raw, usageHour, usageDay := RawToHot(now), UsageToHour(midnight), UsageToDay(midnight);
    var hour, day := HotToHour(now), HourToDay(now, midnight);
    var b1 := Shift(book, Rolling(raw));
    var b2 := Shift(b1, Rolling(usageHour));
    var b3 := Shift(b2, Rolling(usageDay));
    var b4 := Shift(b3, Rolling(hour));
    PassIsFiveShifts(book, now, midnight);
    NoneLeftForItself(book, raw);
    NoneLeftForItself(b1, usageHour);
    NoneLeftAfterOther(b1, raw, usageHour);
    NoneLeftForItself(b2, usageDay);
    NoneLeftAfterOther(b2, raw, usageDay);
    NoneLeftAfterOther(b2, usageHour, usageDay);
    NoneLeftForItself(b3, hour);
    NoneLeftAfterOther(b3, raw, hour);
    NoneLeftAfterOther(b3, usageHour, hour);
    UsageDaysStayDone(b3, now, midnight);
    NoneLeftForItself(b4, day);
    NoneLeftAfterOther(b4, raw, day);
    NoneLeftAfterOther(b4, usageHour, day);
    NoneLeftAfterOther(b4, usageDay, day);
    NoneLeftAfterOther(b4, hour, day);
  }

  /** The tiers in plain numbers: a row that is left raw belongs to the running quarter hour, a quarter hour is at
      most seven days and an hour old and an hour at most ninety-one days, and of the usage rows only those of the
      running hour and day are left as such. */
  lemma TiersAfterPass(book: Book<Key>, now: int, midnight: int, k: Key)
    requires now - 7 * 86400 * 1000000 <= midnight && k in RolledAll(book, Pass(now, midnight))
    ensures k.resolution == 0 ==> k.epoch >= now - now % 900000000 > now - 900000000
    ensures k.resolution == 900000000 ==> k.epoch > now - 7 * 86400000000 - 3600000000
    ensures k.resolution == 900000000 && k.series.resource == "ai_usage" ==> k.epoch >= midnight - midnight % 3600000000
    ensures k.resolution == 3600000000 ==> k.epoch > now - 91 * 86400000000
    ensures k.resolution == 3600000000 && k.series.resource == "ai_usage" ==> k.epoch >= midnight - midnight % 1000000
  {
    PassLeavesNone(book, now, midnight);
    RowOfDonePass(RolledAll(book, Pass(now, midnight)), now, midnight, k);
    CutoffsOf(now, midnight);
    FloorIsLess(now, HOT);
    FloorIsLess(now - HOT_RETENTION, HOUR);
  }

  lemma RowOfDonePass(book: Book<Key>, now: int, midnight: int, k: Key)
    requires PassDone(book, now, midnight) && k in book
    ensures k.resolution == 0 ==> k.epoch >= RawToHot(now).before
    ensures k.resolution == 900000000 ==> k.epoch >= HotToHour(now).before
    ensures k.resolution == 900000000 && k.series.resource == "ai_usage" ==> k.epoch >= UsageToHour(midnight).before
    ensures k.resolution == 3600000000 ==> k.epoch >= HourToDay(now, midnight).before
    ensures k.resolution == 3600000000 && k.series.resource == "ai_usage" ==> k.epoch >= UsageToDay(midnight).before
  {
  }

  /** The five cutoffs in plain numbers. */
  lemma CutoffsOf(now: int, midnight: int)
    ensures RawToHot(now).before == now - now % 900000000
    ensures UsageToHour(midnight).before == midnight - midnight % 3600000000
    ensures UsageToDay(midnight).before == midnight - midnight % 1000000
    ensures HotToHour(now).before == now - 7 * 86400000000 - (now - 7 * 86400000000) % 3600000000
    ensures now - 91 * 86400000000 < HourToDay(now, midnight).before <= now - 90 * 86400000000
    ensures (HourToDay(now, midnight).before - (midnight - midnight % 1000000)) % 86400000000 == 0
  {
    FloorIsLess(now, HOT);
    FloorIsLess(midnight, HOUR);
    FloorIsLess(now - HOT_RETENTION, HOUR);
    FloorIsLess(midnight, SECOND);
    var second, offset := midnight - midnight % SECOND, DayOffset(midnight);
    assert offset == second % DAY;
    var days := second / DAY;
    assert second - offset == days * DAY;
    DivisionIsUnique(second - offset, days, DAY, 0);
    BucketStartIsTheAlignedFloor(midnight, DAY, offset, second);
    var last := BucketStart(now - HOURLY_RETENTION, DAY, offset);
    BucketStartIsTheAlignedFloor(now - HOURLY_RETENTION, DAY, offset, last);
    var n := (last - offset) / DAY;
    assert last - offset == n * DAY;
    assert last - second == (n - days) * DAY by {
      assert (n - days) * DAY == n * DAY - days * DAY;
    }
    DivisionIsUnique(last - second, n - days, DAY, 0);
  }

  lemma FloorIsLess(n: int, d: int)
    requires d > 0
    ensures n / d * d == n - n % d && n - d < n - n % d <= n
  {
  }

  /** What each compaction of a pass does with a row, in plain numbers. */
  lemma TierMoves(now: int, midnight: int, k: Key)
    ensures Rolling(RawToHot(now))(k)
         == if k.resolution == 0 && k.epoch < now - now % 900000000
            then Key(k.epoch - k.epoch % 900000000, 900000000, k.series) else k
    ensures Rolling(UsageToHour(midnight))(k)
         == if k.resolution == 900000000 && k.series.resource == "ai_usage"
               && k.epoch < midnight - midnight % 3600000000
            then Key(k.epoch - k.epoch % 3600000000, 3600000000, k.series) else k
    ensures Rolling(HotToHour(now))(k)
         == if k.resolution == 900000000
               && k.epoch < now - 7 * 86400000000 - (now - 7 * 86400000000) % 3600000000
            then Key(k.epoch - k.epoch % 3600000000, 3600000000, k.series) else k
  {
    CutoffsOf(now, midnight);
    FloorIsLess(k.epoch, HOT);
    FloorIsLess(k.epoch, HOUR);
  }

  /** Days are filed under a midnight. */
  lemma DayMoves(now: int, midnight: int, k: Key)
    ensures var usage := k.series.resource == "ai_usage" && k.epoch < midnight - midnight % 1000000;
            var moved := Rolling(UsageToDay(midnight))(k);
            if k.resolution == 3600000000 && usage then FiledUnderDay(k, moved, midnight) else moved == k
    ensures var moved := Rolling(HourToDay(now, midnight))(k);
            if k.resolution == 3600000000 && k.epoch < HourToDay(now, midnight).before
            then FiledUnderDay(k, moved, midnight) else moved == k
  {
    CutoffsOf(now, midnight);
    FiledOnDay(k, midnight);
  }

  predicate FiledUnderDay(k: Key, moved: Key, midnight: int) {
    && moved.resolution == 86400000000 && moved.series == k.series
    && moved.epoch <= k.epoch < moved.epoch + 86400000000
    && (moved.epoch - (midnight - midnight % 1000000)) % 86400000000 == 0
  }

  lemma FiledOnDay(k: Key, midnight: int)
    ensures FiledUnderDay(k, Placed(k, DAY, DayOffset(midnight)), midnight)
  {
    var second, offset := midnight - midnight % SECOND, DayOffset(midnight);
    FloorIsLess(midnight, SECOND);
    var days, start := second / DAY, BucketStart(k.epoch, DAY, offset);
    BucketStartIsTheAlignedFloor(k.epoch, DAY, offset, start);
    var n := (start - offset) / DAY;
    assert start - offset == n * DAY && second - offset == days * DAY;
    assert start - second == (n - days) * DAY by {
      assert (n - days) * DAY == n * DAY - days * DAY;
    }
    DivisionIsUnique(start - second, n - days, DAY, 0);
  }

  lemma RolledOneMore(book: Book<Key>, jobs: seq<Job>, job: Job)
    ensures RolledAll(book, jobs + [job]) == Shift(RolledAll(book, jobs), Rolling(job))
  {
    assert (jobs + [job])[..|jobs|] == jobs;
  }

  lemma PassIsFiveShifts(book: Book<Key>, now: int, midnight: int)
    ensures RolledAll(book, Pass(now, midnight))
         == Shift(Shift(Shift(Shift(Shift(book, Rolling(RawToHot(now))), Rolling(UsageToHour(midnight))),
                              Rolling(UsageToDay(midnight))), Rolling(HotToHour(now))),
                  Rolling(HourToDay(now, midnight)))
  {
    FiveShifts(book, RawToHot(now), UsageToHour(midnight), UsageToDay(midnight), HotToHour(now),
               HourToDay(now, midnight));
  }

  lemma FiveShifts(book: Book<Key>, a: Job, b: Job, c: Job, d: Job, e: Job)
    ensures RolledAll(book, [a, b, c, d, e])
         == Shift(Shift(Shift(Shift(Shift(book, Rolling(a)), Rolling(b)), Rolling(c)), Rolling(d)), Rolling(e))
  {
    RolledOneMore(book, [], a);
    assert [] + [a] == [a];
    RolledOneMore(book, [a], b);
    assert [a] + [b] == [a, b];
    RolledOneMore(book, [a, b], c);
    assert [a, b] + [c] == [a, b, c];
    RolledOneMore(book, [a, b, c], d);
    assert [a, b, c] + [d] == [a, b, c, d];
    RolledOneMore(book, [a, b, c, d], e);
    assert [a, b, c, d] + [e] == [a, b, c, d, e];
  }

  /** A compaction that finds nothing to move changes nothing. */
  lemma NothingToCompact(book: Book<Key>, job: Job)
    requires NoneLeft(book, job)
    ensures Shift(book, Rolling(job)) == book
  {
    forall k | k in book
      ensures Rolling(job)(k) == k
    {
    }
    ShiftNothing(book, Rolling(job));
  }

  /** A second pass at the same time changes nothing. */
  lemma SecondPassChangesNothing(book: Book<Key>, now: int, midnight: int)
    requires now - HOT_RETENTION <= midnight
    ensures RolledAll(RolledAll(book, Pass(now, midnight)), Pass(now, midnight)) == RolledAll(book, Pass(now, midnight))
  {
    PassLeavesNone(book, now, midnight);
    var done := RolledAll(book, Pass(now, midnight));
    PassIsFiveShifts(done, now, midnight);
    NothingToCompact(done, RawToHot(now));
    NothingToCompact(done, UsageToHour(midnight));
    NothingToCompact(done, UsageToDay(midnight));
    NothingToCompact(done, HotToHour(now));
    NothingToCompact(done, HourToDay(now, midnight));
  }

  lemma CompactionRolls(e: Engine, width: int, job: Job)
    requires width > 0
    ensures Apply(e, width, Compact(job)) == e.(table := Shift(e.table, Rolling(job)))
  {
  }

  /** Maintenance is a sequence of compaction events of the engine. */
  lemma {:induction false} PassIsARun(e: Engine, width: int, jobs: seq<Job>, events: seq<Event>)
    requires width > 0 && |events| == |jobs| && forall i :: 0 <= i < |jobs| ==> events[i] == Compact(jobs[i])
    ensures Run(e, width, events) == e.(table := RolledAll(e.table, jobs))
  {
    if jobs != [] {
      var n := |jobs| - 1;
      PassIsARun(e, width, jobs[..n], events[..n]);
      CompactionRolls(Run(e, width, events[..n]), width, jobs[n]);
      assert Run(e, width, events) == Apply(Run(e, width, events[..n]), width, events[n]);
    }
  }

  /** A pass leaves the request as it is. */
  ghost predicate Survives(q: Query, width: int, offset: int, now: int, midnight: int)
    requires width > 0
  {
    && Undisturbed(q, width, offset, RawToHot(now))
    && Undisturbed(q, width, offset, UsageToHour(midnight))
    && Undisturbed(q, width, offset, UsageToDay(midnight))
    && Undisturbed(q, width, offset, HotToHour(now))
    && Undisturbed(q, width, offset, HourToDay(now, midnight))
  }

  lemma CutoffsAreNotLater(now: int, midnight: int)
    requires midnight <= now
    ensures RawToHot(now).before <= now && UsageToHour(midnight).before <= midnight
            && UsageToDay(midnight).before <= midnight
    ensures HotToHour(now).before <= now && HourToDay(now, midnight).before <= now - HOURLY_RETENTION
    ensures now - HOURLY_RETENTION <= HotToHour(now).before
  {
    StartIsNotAfter(now, HOT, 0);
    StartIsNotAfter(midnight, HOUR, 0);
    StartIsNotAfter(midnight, DAY, DayOffset(midnight));
    StartIsNotAfter(now - HOT_RETENTION, HOUR, 0);
    StartIsNotAfter(now - HOURLY_RETENTION, DAY, DayOffset(midnight));
    BucketStartIsTheAlignedFloor(now - HOT_RETENTION, HOUR, 0, HotToHour(now).before);
  }

  lemma EarlierIsUndisturbed(q: Query, width: int, offset: int, job: Job)
    requires width > 0 && job.before <= q.since
    ensures Undisturbed(q, width, offset, job)
  {
  }

  /** Requests for whole local days keep their answers when hours fit between local midnights. */
  lemma DayRequestsSurvive(q: Query, now: int, midnight: int)
    requires DayOffset(midnight) % HOUR == 0
    requires (q.since - DayOffset(midnight)) % DAY == 0 && now <= q.until && midnight <= now
    ensures Survives(q, DAY, DayOffset(midnight), now, midnight)
  {
    var o := DayOffset(midnight);
    HourBoundsFit(q, o);
    CutoffsAreNotLater(now, midnight);
    NestedGridsAreUndisturbed(q, DAY, o, RawToHot(now));
    NestedGridsAreUndisturbed(q, DAY, o, UsageToHour(midnight));
    NestedGridsAreUndisturbed(q, DAY, o, UsageToDay(midnight));
    NestedGridsAreUndisturbed(q, DAY, o, HotToHour(now));
    NestedGridsAreUndisturbed(q, DAY, o, HourToDay(now, midnight));
  }

  /** The request is not about usage, or starts on the present day. */
  predicate SparedByUsageTiers(q: Query, midnight: int) {
    (q.resource.Some? && q.resource.value != "ai_usage") || midnight <= q.since
  }

  lemma UsageTiersSpare(q: Query, width: int, offset: int, now: int, midnight: int)
    requires width > 0 && midnight <= now && SparedByUsageTiers(q, midnight)
    ensures Undisturbed(q, width, offset, UsageToHour(midnight)) && Undisturbed(q, width, offset, UsageToDay(midnight))
  {
    CutoffsAreNotLater(now, midnight);
    if midnight <= q.since {
      EarlierIsUndisturbed(q, width, offset, UsageToHour(midnight));
      EarlierIsUndisturbed(q, width, offset, UsageToDay(midnight));
    }
  }

  /** Requests for whole hours keep their answers within the retention of hours. */
  lemma HourRequestsSurvive(q: Query, now: int, midnight: int)
    requires q.since % HOUR == 0 && now <= q.until && midnight <= now && SparedByUsageTiers(q, midnight)
    requires HourToDay(now, midnight).before <= q.since
    ensures Survives(q, HOUR, 0, now, midnight)
  {
    assert HOUR == 4 * HOT;
    CutoffsAreNotLater(now, midnight);
    AlignedToFinerGrid(q.since, HOT, 0, HOUR, 0);
    NestedGridsAreUndisturbed(q, HOUR, 0, RawToHot(now));
    UsageTiersSpare(q, HOUR, 0, now, midnight);
    NestedGridsAreUndisturbed(q, HOUR, 0, HotToHour(now));
    EarlierIsUndisturbed(q, HOUR, 0, HourToDay(now, midnight));
  }

  /** Requests for quarter hours keep their answers within the retention of quarter hours. */
  lemma QuarterRequestsSurvive(q: Query, now: int, midnight: int)
    requires q.since % HOT == 0 && now <= q.until && midnight <= now && SparedByUsageTiers(q, midnight)
    requires HotToHour(now).before <= q.since
    ensures Survives(q, HOT, 0, now, midnight)
  {
    CutoffsAreNotLater(now, midnight);
    NestedGridsAreUndisturbed(q, HOT, 0, RawToHot(now));
    UsageTiersSpare(q, HOT, 0, now, midnight);
    EarlierIsUndisturbed(q, HOT, 0, HotToHour(now));
    EarlierIsUndisturbed(q, HOT, 0, HourToDay(now, midnight));
  }

  lemma HourBoundsFit(q: Query, o: int)
    requires o % HOUR == 0 && (q.since - o) % DAY == 0
    ensures Refines(HOT, 0, DAY, o) && Refines(HOUR, 0, DAY, o) && Refines(DAY, o, DAY, o)
    ensures q.since % HOT == 0 && q.since % HOUR == 0
  {
    assert HOUR == 4 * HOT && DAY == 24 * HOUR;
    AlignedToFinerGrid(o, HOT, 0, HOUR, 0);
    AlignedToFinerGrid(q.since, HOUR, 0, DAY, o);
    AlignedToFinerGrid(q.since, HOT, 0, HOUR, 0);
  }

  lemma StartIsNotAfter(epoch: int, width: int, offset: int)
    requires width > 0
    ensures BucketStart(epoch, width, offset) <= epoch
  {
    BucketStartIsTheAlignedFloor(epoch, width, offset, BucketStart(epoch, width, offset));
  }

  lemma HoursFitBetweenMidnightsIffAligned(offset: int)
    ensures (forall epoch :: BucketStart(BucketStart(epoch, HOUR, 0), DAY, offset) == BucketStart(epoch, DAY, offset))
       <==> offset % HOUR == 0
  {
    if offset % HOUR == 0 {
      forall epoch
        ensures BucketStart(BucketStart(epoch, HOUR, 0), DAY, offset) == BucketStart(epoch, DAY, offset)
      {
        BucketsNest(epoch, HOUR, 0, DAY, offset);
      }
    } else {
      var hour := BucketStart(offset, HOUR, 0);
      BucketStartIsTheAlignedFloor(offset, HOUR, 0, hour);
      BucketStartIsTheAlignedFloor(offset, DAY, offset, offset);
      var day := BucketStart(hour, DAY, offset);
      BucketStartIsTheAlignedFloor(hour, DAY, offset, day);
      assert BucketStart(BucketStart(offset, HOUR, 0), DAY, offset) != BucketStart(offset, DAY, offset);
    }
  }
}
