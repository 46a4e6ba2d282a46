/**
 * The table of stored buckets: the upsert, the way back from a row to a bucket, and the grouping
 * read. The table is a map from its unique identity to the remaining columns.
 */
module MetricRows {
  import opened Prelude
  import opened MetricBooks
  import opened MetricAggregates

  datatype Row = Row(value: real, count: nat, low: real, high: real, lastValue: real, last: int,
                     tag: Tag, estimated: bool)

  type Table = map<Key, Row>

  ghost predicate SoundTable(rows: Table) {
    forall k :: k in rows ==> rows[k].count >= 1
  }

  function RowContent(k: Key, row: Row): Summary {
    Summary(Weight(k.series.instrument, row.value, row.count), row.count, row.low, row.high, row.last, row.estimated)
  }

  function Ledger(rows: Table): Book<Key> {
    map k | k in rows :: RowContent(k, rows[k])
  }

  // ---- Writing ----

  function BucketRow(b: Bucket): Row {
    Row(b.Value(), b.count, b.low, b.high, b.lastValue, b.last, b.tag, b.estimated)
  }

  /** What the conflict clause makes of the stored row and the excluded one. */
  function Merged(instrument: Instrument, stored: Row, excluded: Row): Row {
    Row(match instrument
        case Counter => stored.value + excluded.value
        case Gauge =>
          (stored.value * (stored.count as real) + excluded.value * (excluded.count as real))
          / (Max(1, stored.count + excluded.count) as real)
        case Other => excluded.value,
        stored.count + excluded.count,
        MinReal(stored.low, excluded.low),
        MaxReal(stored.high, excluded.high),
        if excluded.last >= stored.last then excluded.lastValue else stored.lastValue,
        Max(stored.last, excluded.last),
        stored.tag,
        stored.estimated || excluded.estimated)
  }

  function Upserted(rows: Table, b: Bucket): Table {
    rows[b.key := if b.key in rows then Merged(b.key.series.instrument, rows[b.key], BucketRow(b)) else BucketRow(b)]
  }

  function UpsertedAll(rows: Table, bs: seq<Bucket>): Table {
    if bs == [] then rows else Upserted(UpsertedAll(rows, bs[..|bs| - 1]), bs[|bs| - 1])
  }

  lemma MergedContent(k: Key, stored: Row, excluded: Row)
    requires stored.count >= 1
    ensures RowContent(k, Merged(k.series.instrument, stored, excluded))
         == Merge(RowContent(k, stored), RowContent(k, excluded))
  {
    MeanTimesCount(stored.value * (stored.count as real) + excluded.value * (excluded.count as real),
                   stored.count + excluded.count);
  }

  lemma UpsertAdds(rows: Table, b: Bucket)
    requires SoundTable(rows) && b.count >= 1
    ensures SoundTable(Upserted(rows, b))
    ensures Ledger(Upserted(rows, b)) == Add(Ledger(rows), b.key, Content(b))
  {
    if b.key in rows {
      MergedContent(b.key, rows[b.key], BucketRow(b));
    }
    LedgerPut(rows, b.key, Upserted(rows, b)[b.key]);
  }

  lemma LedgerPut(rows: Table, k: Key, row: Row)
    ensures Ledger(rows[k := row]) == Ledger(rows)[k := RowContent(k, row)]
  {
  }

  /** Writing a list of buckets adds what they contain to the table. */
  lemma {:induction false} UpsertsPost(rows: Table, bs: seq<Bucket>)
    requires SoundTable(rows) && forall b :: b in bs ==> b.count >= 1
    ensures SoundTable(UpsertedAll(rows, bs))
    ensures Ledger(UpsertedAll(rows, bs)) == Posted(Ledger(rows), BucketEntries(bs))
  {
    if bs != [] {
      var n := |bs| - 1;
      UpsertsPost(rows, bs[..n]);
      UpsertAdds(UpsertedAll(rows, bs[..n]), bs[n]);
      assert BucketEntries(bs)[..n] == BucketEntries(bs[..n]);
    }
  }

  lemma UpsertedNext(rows: Table, bs: seq<Bucket>, i: nat)
    requires i < |bs|
    ensures UpsertedAll(rows, bs[..i + 1]) == Upserted(UpsertedAll(rows, bs[..i]), bs[i])
  {
    assert bs[..i + 1][..i] == bs[..i];
  }

  // ---- Reading a row back ----

  function RowBucket(k: Key, row: Row): Bucket {
    var samples := Max(1, row.count);
    Bucket(k, if k.series.instrument == Gauge then row.value * (samples as real) else row.value, samples,
           row.low, row.high, row.lastValue, row.last, row.tag, row.estimated)
  }

  lemma RowBucketContent(k: Key, row: Row)
    requires row.count >= 1
    ensures k.series.instrument != Other ==> BucketRow(RowBucket(k, row)) == row
    ensures Content(RowBucket(k, row)) == RowContent(k, row)
  {
    MeanTimesCount(row.value * (row.count as real), row.count);
    TimesCountMean(row.value, row.count);
  }

  lemma TimesCountMean(value: real, count: nat)
    requires count >= 1
    ensures value * (count as real) / (Max(1, count) as real) == value
  {
  }

  // ---- The grouping read ----

  datatype Query = Query(since: int, until: int, resource: Option<string>, source: Option<string>,
                         metric: Option<string>, instrument: Instrument)

  predicate Matches(q: Query, k: Key) {
    && q.since <= k.epoch <= q.until
    && (q.resource.Some? ==> k.series.resource == q.resource.value)
    && (q.source.Some? ==> k.series.source == q.source.value)
    && (q.metric.Some? ==> k.series.metric == q.metric.value)
    && k.series.instrument == q.instrument
  }

  /** A field is as asked for, or was left open. */
  predicate Given(asked: Option<string>, value: string) {
    asked.None? || asked.value == value
  }

  /** The series a request is about, field by field. */
  predicate Wanted(q: Query, s: Series) {
    && Given(q.metric, s.metric) && Given(q.source, s.source) && Given(q.resource, s.resource)
    && s.instrument == q.instrument
  }

  lemma MatchesIsWantedInWindow(q: Query, k: Key)
    ensures Matches(q, k) <==> q.since <= k.epoch && k.epoch <= q.until && Wanted(q, k.series)
  {
  }

  function Matching(q: Query): Selector<Key> {
    k => Matches(q, k)
  }

  /** CAST to INTEGER drops the fraction, whichever side of zero it is on. */
  function CastBucket(epoch: int, width: int, offset: int): int
    requires width > 0
  {
    var d := epoch - offset;
    (if d >= 0 then d / width else -(-d / width)) * width + offset
  }

  /** The read puts an epoch in its bucket exactly when it is at or above the offset or on the grid. */
  lemma CastAgreesFromOffsetUp(epoch: int, width: int, offset: int)
    requires width > 0
    ensures CastBucket(epoch, width, offset) == BucketStart(epoch, width, offset)
       <==> epoch >= offset || (epoch - offset) % width == 0
  {
    if epoch < offset {
      var d := epoch - offset;
      var q, r := d / width, d % width;
      assert d == q * width + r;
      if r == 0 {
        DivisionIsUnique(-d, -q, width, 0);
      } else {
        DivisionIsUnique(-d, -q - 1, width, width - r);
        assert -(-d / width) == q + 1;
        assert (q + 1) * width == q * width + width;
      }
    }
  }

  /** The columns of GROUP BY. */
  datatype Group = Group(epoch: int, series: Series, tag: Tag, estimated: bool)

  function GroupOf(k: Key, row: Row, width: int, offset: int): Group
    requires width > 0
  {
    Group(CastBucket(k.epoch, width, offset), k.series, row.tag, row.estimated)
  }

  function Grouping(rows: Table, width: int, offset: int): Key -> Group
    requires width > 0
  {
    k => if k in rows then GroupOf(k, rows[k], width, offset)
         else Group(CastBucket(k.epoch, width, offset), k.series, Tag("", ""), false)
  }

  /** The aggregates of one group: SUM(value), SUM(value * sample_count), SUM(sample_count), and so on. */
  datatype Sums = Sums(plain: real, weighted: real, count: nat, low: real, high: real, lastValue: real, last: int,
                       resolution: int)

  function FirstSums(k: Key, row: Row): Sums {
    Sums(row.value, row.value * (row.count as real), row.count, row.low, row.high, row.lastValue, row.last,
         k.resolution)
  }

  function AddSums(s: Sums, k: Key, row: Row): Sums {
    Sums(s.plain + row.value, s.weighted + row.value * (row.count as real), s.count + row.count,
         MinReal(s.low, row.low), MaxReal(s.high, row.high), MaxReal(s.lastValue, row.lastValue),
         Max(s.last, row.last), Max(s.resolution, k.resolution))
  }

  datatype QueryPoint = QueryPoint(epoch: int, series: Series, value: real, count: nat, low: real, high: real,
                                   lastValue: real, last: int, tag: Tag, estimated: bool, resolution: int)

  function GroupPoint(g: Group, s: Sums, instrument: Instrument): QueryPoint {
    QueryPoint(g.epoch, g.series, if instrument == Gauge then s.weighted / (Max(1, s.count) as real) else s.plain,
               s.count, s.low, s.high, s.lastValue, s.last, g.tag, g.estimated, s.resolution)
  }

  /** What a group's sums hold, in the terms of a book. */
  function SumsContent(g: Group, s: Sums): Summary {
    Summary(match g.series.instrument case Counter => s.plain case Gauge => s.weighted case Other => 0.0,
            s.count, s.low, s.high, s.last, g.estimated)
  }

  function SumsBook(groups: map<Group, Sums>): Book<Group> {
    map g | g in groups :: SumsContent(g, groups[g])
  }

  function Collected(groups: map<Group, Sums>, g: Group, k: Key, row: Row): map<Group, Sums> {
    groups[g := if g in groups then AddSums(groups[g], k, row) else FirstSums(k, row)]
  }

  lemma CollectAdds(groups: map<Group, Sums>, g: Group, k: Key, row: Row)
    requires g.series == k.series && g.estimated == row.estimated
    ensures SumsBook(Collected(groups, g, k, row)) == Add(SumsBook(groups), g, RowContent(k, row))
  {
    var s := Collected(groups, g, k, row)[g];
    assert SumsContent(g, s) == Merge(At(SumsBook(groups), g), RowContent(k, row));
    SumsPut(groups, g, s);
  }

  lemma SumsPut(groups: map<Group, Sums>, g: Group, s: Sums)
    ensures SumsBook(groups[g := s]) == SumsBook(groups)[g := SumsContent(g, s)]
  {
  }

  /** The bucket a query point is turned into when memory is laid over the table. */
  function PointToBucket(p: QueryPoint, width: int): Bucket {
    var samples := Max(1, p.count);
    Bucket(Key(p.epoch, Max(width, p.resolution), p.series),
           if p.series.instrument == Gauge then p.value * (samples as real) else p.value, samples,
           p.low, p.high, p.lastValue, p.last, p.tag, p.estimated)
  }

  lemma GroupPointContent(g: Group, s: Sums, instrument: Instrument, width: int)
    requires s.count >= 1 && g.series.instrument == instrument
    ensures Content(PointToBucket(GroupPoint(g, s, instrument), width)) == SumsContent(g, s)
  {
    MeanTimesCount(s.weighted, s.count);
    var p := GroupPoint(g, s, instrument);
    TimesCountMean(p.value, p.count);
  }
}
