/** What the numbers of an answer are, told from the raw points alone: sums, means, extremes and counts. */
module MetricAnswers {
  import opened Prelude
  import opened MetricBooks
  import opened MetricAggregates
  import opened MetricRows
  import opened MetricStore
  import opened MetricEngine
  import opened MetricPipeline

  /** The point was asked for and falls in this bucket. */
  predicate FallsIn(p: Point, q: Query, width: int, offset: int, g: Key)
    requires width > 0
  {
    && q.since <= p.epoch <= q.until && Wanted(q, p.series)
    && p.series == g.series && BucketStart(p.epoch, width, offset) == g.epoch && g.resolution == width
  }

  function InBucket(points: seq<Point>, q: Query, width: int, offset: int, g: Key): seq<Point>
    requires width > 0
  {
    if points == [] then [] else
    var n := |points| - 1;
    InBucket(points[..n], q, width, offset, g) + if FallsIn(points[n], q, width, offset, g) then [points[n]] else []
  }

  function SumOf(ps: seq<Point>): real {
    if ps == [] then 0.0 else SumOf(ps[..|ps| - 1]) + ps[|ps| - 1].value
  }

  predicate Extremes(ps: seq<Point>, low: real, high: real, last: int) {
    && (forall p <- ps :: low <= p.value <= high && p.epoch <= last)
    && (exists p <- ps :: p.value == low) && (exists p <- ps :: p.value == high) && (exists p <- ps :: p.epoch == last)
  }

  /** A summary holds these points: their number, sum, extremes and last epoch, and whether one was estimated. */
  predicate Holds(s: Summary, ps: seq<Point>, instrument: Instrument) {
    if ps == [] then s == Empty else
    && s != Empty && s.count == |ps| && (instrument != Other ==> s.total == SumOf(ps))
    && Extremes(ps, s.low, s.high, s.last) && (s.estimated <==> exists p <- ps :: p.estimated)
  }

  lemma OnePointHolds(p: Point)
    ensures Holds(PointEntry(p).summary, [p], p.series.instrument)
  {
    assert p in [p] && [p][..0] == [];
  }

  lemma ExtremesGrow(ps: seq<Point>, low: real, high: real, last: int, p: Point)
    requires Extremes(ps, low, high, last)
    ensures Extremes(ps + [p], MinReal(low, p.value), MaxReal(high, p.value), Max(last, p.epoch))
  {
    assert p in ps + [p];
  }

  lemma OneMoreHolds(s: Summary, ps: seq<Point>, p: Point)
    requires Holds(s, ps, p.series.instrument)
    ensures Holds(Merge(s, PointEntry(p).summary), ps + [p], p.series.instrument)
  {
    OnePointHolds(p);
    if ps == [] {
      assert ps + [p] == [p];
    } else {
      ExtremesGrow(ps, s.low, s.high, s.last, p);
      assert (ps + [p])[..|ps|] == ps && p in ps + [p];
      assert forall x <- ps :: x in ps + [p];
    }
  }

  lemma StraightOfOneMore(less: seq<Point>, p: Point, width: int, offset: int)
    requires width > 0
    ensures Posted(map[], Moved(PointEntries(less + [p]), Placing(width, offset)))
         == Add(Posted(map[], Moved(PointEntries(less), Placing(width, offset))),
                Key(BucketStart(p.epoch, width, offset), width, p.series), PointEntry(p).summary)
  {
    assert PointEntries(less + [p]) == PointEntries(less) + [PointEntry(p)];
    MovedAppend(PointEntries(less), PointEntry(p), Placing(width, offset));
    PostedAppend(map[], Moved(PointEntries(less), Placing(width, offset)),
                 Entry(Placed(PointEntry(p).key, width, offset), PointEntry(p).summary));
  }

  lemma StraightNext(points: seq<Point>, q: Query, width: int, offset: int, g: Key)
    requires width > 0 && points != []
    ensures var n := |points| - 1;
            var before := At(Straight(points[..n], q, width, offset), g);
            At(Straight(points, q, width, offset), g)
            == if FallsIn(points[n], q, width, offset, g) then Merge(before, PointEntry(points[n]).summary) else before
  {
    var n := |points| - 1;
    var less, p := PointsWanted(points[..n], q), points[n];
    if q.since <= p.epoch <= q.until && Wanted(q, p.series) {
      StraightOfOneMore(less, p, width, offset);
      assert PointsWanted(points, q) == less + [p];
    } else {
      assert PointsWanted(points, q) == less;
    }
  }

  /** Each bucket of a straight answer holds the raw points that fall in it. */
  lemma {:induction false} StraightHolds(points: seq<Point>, q: Query, width: int, offset: int, g: Key)
    requires width > 0
    ensures Holds(At(Straight(points, q, width, offset), g), InBucket(points, q, width, offset, g),
                  g.series.instrument)
  {
    if points != [] {
      var n := |points| - 1;
      var before := InBucket(points[..n], q, width, offset, g);
      StraightHolds(points[..n], q, width, offset, g);
      StraightNext(points, q, width, offset, g);
      if FallsIn(points[n], q, width, offset, g) {
        OneMoreHolds(At(Straight(points[..n], q, width, offset), g), before, points[n]);
      } else {
        assert InBucket(points, q, width, offset, g) == before;
      }
    }
  }

  /** A returned point is the sum of the raw points of its bucket, if they count, or their mean, if they measure. */
  predicate Tells(p: QueryPoint, ps: seq<Point>) {
    && ps != [] && p.count == |ps| && Extremes(ps, p.low, p.high, p.last)
    && (p.estimated <==> exists x <- ps :: x.estimated)
    && (p.series.instrument == Counter ==> p.value == SumOf(ps))
    && (p.series.instrument == Gauge ==> p.value * (|ps| as real) == SumOf(ps))
  }

  lemma ShownSummaryTells(p: QueryPoint, s: Summary, ps: seq<Point>, book: Book<Key>, width: int)
    requires ShowsOne(p, book, width) && s == book[Key(p.epoch, width, p.series)]
    requires Holds(s, ps, p.series.instrument)
    ensures Tells(p, ps)
  {
    MeanTimesCount(s.total, s.count);
  }

  lemma StraightPointTells(points: seq<Point>, q: Query, width: int, offset: int, p: QueryPoint)
    requires width > 0 && ShowsOne(p, Straight(points, q, width, offset), width)
    ensures Tells(p, InBucket(points, q, width, offset, Key(p.epoch, width, p.series)))
  {
    var g, book := Key(p.epoch, width, p.series), Straight(points, q, width, offset);
    StraightHolds(points, q, width, offset, g);
    ShownSummaryTells(p, book[g], InBucket(points, q, width, offset, g), book, width);
  }

  lemma StraightPointIsShown(points: seq<Point>, q: Query, width: int, offset: int, found: seq<QueryPoint>, x: Point)
    requires width > 0 && Shows(found, Straight(points, q, width, offset), width)
    requires x in points && q.since <= x.epoch <= q.until && Wanted(q, x.series)
    ensures HasPoint(found, x.series, BucketStart(x.epoch, width, offset))
  {
    var g := Key(BucketStart(x.epoch, width, offset), width, x.series);
    FallsInIsFound(points, q, width, offset, x);
    StraightHolds(points, q, width, offset, g);
    ShownIsAll(found, Straight(points, q, width, offset), width);
    assert g in ShownKeys(found, width);
    var i :| 0 <= i < |found| && g == Key(found[i].epoch, width, found[i].series);
    assert found[i] in found;
  }

  /** Over any run, and for requests of whole hot buckets: every returned point tells the sum or the mean, the
      extremes and the number of the raw points asked for that fall in its bucket, and each of those is in one. */
  lemma AnswersTellThePoints(hot: int, events: seq<Event>, q: Query, width: int, offset: int,
                             found: seq<QueryPoint>)
    requires HotAligned(hot, q, width, offset) && Orderly(Engine(map[], map[]), hot, events)
    requires forall i :: 0 <= i < |events| && events[i].Compact? ==> Undisturbed(q, width, offset, events[i].job)
    requires Shows(found, Answer(Run(Engine(map[], map[]), hot, events), q, width, offset), width)
    ensures forall p <- found :: Tells(p, InBucket(PointsOf(events), q, width, offset, Key(p.epoch, width, p.series)))
    ensures forall x <- PointsOf(events) :: q.since <= x.epoch <= q.until && Wanted(q, x.series) ==>
              HasPoint(found, x.series, BucketStart(x.epoch, width, offset))
  {
    AlignedAnswersAreStraight(hot, events, q, width, offset);
    TellsThePoints(PointsOf(events), q, width, offset, found);
  }

  lemma TellsThePoints(points: seq<Point>, q: Query, width: int, offset: int, found: seq<QueryPoint>)
    requires width > 0 && Shows(found, Straight(points, q, width, offset), width)
    ensures forall p <- found :: Tells(p, InBucket(points, q, width, offset, Key(p.epoch, width, p.series)))
    ensures forall x <- points :: q.since <= x.epoch <= q.until && Wanted(q, x.series) ==>
              HasPoint(found, x.series, BucketStart(x.epoch, width, offset))
  {
    forall p | p in found ensures Tells(p, InBucket(points, q, width, offset, Key(p.epoch, width, p.series))) {
      StraightPointTells(points, q, width, offset, p);
    }
    forall x | x in points && q.since <= x.epoch <= q.until && Wanted(q, x.series)
      ensures HasPoint(found, x.series, BucketStart(x.epoch, width, offset))
    {
      StraightPointIsShown(points, q, width, offset, found, x);
    }
  }

  lemma {:induction false} FallsInIsFound(points: seq<Point>, q: Query, width: int, offset: int, x: Point)
    requires width > 0 && x in points && q.since <= x.epoch <= q.until && Wanted(q, x.series)
    ensures InBucket(points, q, width, offset, Key(BucketStart(x.epoch, width, offset), width, x.series)) != []
  {
    var n := |points| - 1;
    if points[n] != x {
      assert x in points[..n];
      FallsInIsFound(points[..n], q, width, offset, x);
    }
  }
}
