/**
 * Time buckets and the in-memory accumulator.
 *
 * Epochs and widths are whole ticks of a clock as fine as one likes. Values are reals: rounding of
 * floating-point sums is not part of this model.
 */
module MetricAggregates {
  import opened Prelude
  import opened Folding
  import opened MetricBooks

  // ---- Time buckets ----

  function BucketStart(epoch: int, width: int, offset: int): int
    requires width > 0
  {
    (epoch - offset) / width * width + offset
  }

  /** The start is the only aligned epoch at most one width behind. */
  lemma BucketStartIsTheAlignedFloor(epoch: int, width: int, offset: int, start: int)
    requires width > 0
    ensures start == BucketStart(epoch, width, offset)
       <==> start <= epoch < start + width && (start - offset) % width == 0
  {
    var q, r := (epoch - offset) / width, (epoch - offset) % width;
    assert epoch - offset == q * width + r;
    DivisionIsUnique(q * width, q, width, 0);
    if start <= epoch < start + width && (start - offset) % width == 0 {
      var p := (start - offset) / width;
      assert start - offset == p * width;
      DivisionIsUnique(epoch - offset, p, width, epoch - start);
    }
  }

  lemma MultiplesAreApart(p: int, q: int, d: int)
    requires d > 0 && p * d > q * d
    ensures p * d >= q * d + d
  {
    if p > q {
      assert (p - q - 1) * d >= 0;
      assert (p - q - 1) * d == p * d - q * d - d;
    }
  }

  lemma DivisionIsUnique(n: int, q: int, d: int, r: int)
    requires 0 <= r < d && n == q * d + r
    ensures n / d == q && n % d == r
  {
    var p, s := n / d, n % d;
    assert n == p * d + s;
    if p * d > q * d {
      MultiplesAreApart(p, q, d);
    } else if q * d > p * d {
      MultiplesAreApart(q, p, d);
    }
    assert (p - q) * d == p * d - q * d == 0;
  }

  /** The grid of width `r` at offset `o` contains the grid of width `w` at offset `p`. */
  predicate Refines(r: int, o: int, w: int, p: int) {
    r > 0 && w > 0 && w % r == 0 && (p - o) % r == 0
  }

  lemma AlignedToFinerGrid(x: int, r: int, o: int, w: int, p: int)
    requires Refines(r, o, w, p) && (x - p) % w == 0
    ensures (x - o) % r == 0
  {
    var b, c, d := (x - p) / w, w / r, (p - o) / r;
    assert x - p == b * w && w == c * r && p - o == d * r;
    assert b * (c * r) == (b * c) * r;
    assert (b * c + d) * r == (b * c) * r + d * r;
    DivisionIsUnique(x - o, b * c + d, r, 0);
  }

  lemma AlignedEpochsAreApart(x: int, y: int, r: int, o: int)
    requires r > 0 && (x - o) % r == 0 && (y - o) % r == 0 && x < y
    ensures x + r <= y
  {
    var a, b := (x - o) / r, (y - o) / r;
    assert x - o == a * r && y - o == b * r;
    MultiplesAreApart(b, a, r);
  }

  /** Bucketing finely first does not change the coarse bucket. */
  lemma BucketsNest(epoch: int, r: int, o: int, w: int, p: int)
    requires Refines(r, o, w, p)
    ensures BucketStart(BucketStart(epoch, r, o), w, p) == BucketStart(epoch, w, p)
  {
    var fine, coarse := BucketStart(epoch, r, o), BucketStart(epoch, w, p);
    BucketStartIsTheAlignedFloor(epoch, r, o, fine);
    BucketStartIsTheAlignedFloor(epoch, w, p, coarse);
    AlignedToFinerGrid(coarse, r, o, w, p);
    if fine < coarse {
      AlignedEpochsAreApart(fine, coarse, r, o);
    }
    BucketStartIsTheAlignedFloor(fine, w, p, coarse);
  }

  // ---- Buckets ----

  datatype Tag = Tag(attribution: string, confidence: string)

  datatype Point = Point(epoch: int, series: Series, value: real, tag: Tag, estimated: bool)

  datatype Bucket = Bucket(key: Key, sum: real, count: nat, low: real, high: real,
                           lastValue: real, last: int, tag: Tag, estimated: bool)
  {
    function Value(): real {
      match key.series.instrument
      case Gauge => sum / (Max(1, count) as real)
      case Counter => sum
      case Other => lastValue
    }
  }

  function ConfidenceRank(confidence: string): int {
    if confidence == "high" then 0 else if confidence == "medium" then 1 else 2
  }

  function MergeTags(a: Tag, b: Tag): Tag {
    Tag(if b.attribution != a.attribution then "inferred" else a.attribution,
        if ConfidenceRank(b.confidence) > ConfidenceRank(a.confidence) then b.confidence else a.confidence)
  }

  function PointBucket(p: Point): Bucket {
    Bucket(Key(p.epoch, 0, p.series), p.value, 1, p.value, p.value, p.value, p.epoch, p.tag, p.estimated)
  }

  function Placed(k: Key, width: int, offset: int): Key
    requires width > 0
  {
    Key(BucketStart(k.epoch, width, offset), width, k.series)
  }

  /** The first bucket to land in a slot. */
  function Started(slot: Key, b: Bucket): Bucket {
    b.(key := slot,
       sum := if b.key.series.instrument == Gauge then b.Value() * (b.count as real) else b.Value())
  }

  /** A later bucket merged into the slot. */
  function MergedInto(current: Bucket, b: Bucket): Bucket {
    Bucket(current.key,
           match current.key.series.instrument
           case Counter => current.sum + b.Value()
           case Gauge => current.sum + b.Value() * (b.count as real)
           case Other => b.Value(),
           current.count + b.count,
           MinReal(current.low, b.low),
           MaxReal(current.high, b.high),
           if b.last >= current.last then b.lastValue else current.lastValue,
           if b.last >= current.last then b.last else current.last,
           MergeTags(current.tag, b.tag),
           current.estimated || b.estimated)
  }

  function Weight(instrument: Instrument, value: real, count: nat): real {
    match instrument
    case Counter => value
    case Gauge => value * (count as real)
    case Other => 0.0
  }

  function Content(b: Bucket): (s: Summary)
    ensures s != Empty
  {
    Summary(Weight(b.key.series.instrument, b.Value(), b.count), b.count, b.low, b.high, b.last, b.estimated)
  }

  lemma MeanTimesCount(sum: real, count: nat)
    requires count >= 1
    ensures sum / (Max(1, count) as real) * (count as real) == sum
  {
  }

  /** Merging buckets merges what they contain. */
  lemma MergeKeepsContent(current: Bucket, b: Bucket)
    requires current.count >= 1 && b.count >= 1 && current.key.series == b.key.series
    ensures Content(MergedInto(current, b)) == Merge(Content(current), Content(b))
  {
    var m := MergedInto(current, b);
    MeanTimesCount(current.sum, current.count);
    MeanTimesCount(b.sum, b.count);
    MeanTimesCount(m.sum, m.count);
  }

  lemma StartKeepsContent(slot: Key, b: Bucket)
    requires b.count >= 1 && slot.series == b.key.series
    ensures Content(Started(slot, b)) == Content(b)
  {
    MeanTimesCount(b.sum, b.count);
  }

  /** A bucket holding at least one sample, filed under its own key. */
  predicate Sound(buckets: map<Key, Bucket>) {
    forall k :: k in buckets ==> buckets[k].key == k && buckets[k].count >= 1
  }

  function Contents(buckets: map<Key, Bucket>): Book<Key> {
    map k | k in buckets :: Content(buckets[k])
  }

  function BucketEntry(b: Bucket): Entry<Key> {
    Entry(b.key, Content(b))
  }

  function BucketEntries(bs: seq<Bucket>): (r: seq<Entry<Key>>)
    ensures |r| == |bs| && forall i :: 0 <= i < |r| ==> r[i] == BucketEntry(bs[i])
  {
    seq(|bs|, i requires 0 <= i < |bs| => BucketEntry(bs[i]))
  }

  /** What one metric point adds to the bucket it falls in. */
  function PointEntry(p: Point): Entry<Key> {
    BucketEntry(PointBucket(p))
  }

  function PointEntries(ps: seq<Point>): (r: seq<Entry<Key>>)
    ensures |r| == |ps| && forall i :: 0 <= i < |r| ==> r[i] == PointEntry(ps[i])
  {
    seq(|ps|, i requires 0 <= i < |ps| => PointEntry(ps[i]))
  }

  // ---- The accumulator ----

  function Absorbed(buckets: map<Key, Bucket>, slot: Key, b: Bucket): map<Key, Bucket> {
    buckets[slot := if slot in buckets then MergedInto(buckets[slot], b) else Started(slot, b)]
  }

  lemma AbsorbAdds(buckets: map<Key, Bucket>, slot: Key, b: Bucket)
    requires Sound(buckets) && b.count >= 1 && slot.series == b.key.series
    ensures Sound(Absorbed(buckets, slot, b))
    ensures Contents(Absorbed(buckets, slot, b)) == Add(Contents(buckets), slot, Content(b))
  {
    AbsorbedAt(buckets, slot, b);
    ContentsPut(buckets, slot, Absorbed(buckets, slot, b)[slot]);
  }

  lemma AbsorbedAt(buckets: map<Key, Bucket>, slot: Key, b: Bucket)
    requires Sound(buckets) && b.count >= 1 && slot.series == b.key.series
    ensures var now := Absorbed(buckets, slot, b)[slot];
            now.key == slot && now.count >= 1 && Content(now) == Merge(At(Contents(buckets), slot), Content(b))
  {
    if slot in buckets {
      MergeKeepsContent(buckets[slot], b);
    } else {
      StartKeepsContent(slot, b);
    }
  }

  lemma ContentsPut(buckets: map<Key, Bucket>, slot: Key, b: Bucket)
    ensures Contents(buckets[slot := b]) == Contents(buckets)[slot := Content(b)]
  {
  }

  function Placing(width: int, offset: int): Key -> Key
    requires width > 0
  {
    k => Placed(k, width, offset)
  }

  lemma PlacedTwice(k: Key, width: int, offset: int)
    requires width > 0
    ensures Placed(Placed(k, width, offset), width, offset) == Placed(k, width, offset)
  {
    var q := (k.epoch - offset) / width;
    DivisionIsUnique(q * width, q, width, 0);
  }

  function Before(cutoff: int): Selector<Key> {
    (k: Key) => k.epoch < cutoff
  }

  function NotBefore(cutoff: int): Selector<Key> {
    (k: Key) => !(k.epoch < cutoff)
  }

  lemma ContentsKept(buckets: map<Key, Bucket>, keep: Selector<Key>, kept: map<Key, Bucket>)
    requires kept == map k | k in buckets && keep(k) :: buckets[k]
    ensures Contents(kept) == Kept(Contents(buckets), keep)
  {
  }

  class MetricAccumulator {
    const width: int
    const offset: int
    var buckets: map<Key, Bucket>

    ghost predicate Valid()
      reads this
    {
      width > 0 && Sound(buckets) && forall k :: k in buckets ==> Placed(k, width, offset) == k
    }

    ghost function Book(): Book<Key>
      reads this
    {
      Contents(buckets)
    }

    constructor (width: int, offset: int)
      requires width > 0
      ensures Valid() && this.width == width && this.offset == offset && buckets == map[]
    {
      this.width := width;
      this.offset := offset;
      buckets := map[];
    }

    method AddBucket(b: Bucket)
      requires Valid() && b.count >= 1
      modifies this
      ensures Valid()
      ensures buckets == Absorbed(old(buckets), Placed(b.key, width, offset), b)
      ensures Book() == Add(old(Book()), Placed(b.key, width, offset), Content(b))
    {
      var slot := Placed(b.key, width, offset);
      AbsorbAdds(buckets, slot, b);
      PlacedTwice(b.key, width, offset);
      if slot !in buckets {
        buckets := buckets[slot := Started(slot, b)];
      } else {
        buckets := buckets[slot := MergedInto(buckets[slot], b)];
      }
    }

    /** Every listed bucket moves to its slot and is merged there. */
    method AddBuckets(bs: seq<Bucket>)
      requires Valid() && forall b :: b in bs ==> b.count >= 1
      modifies this
      ensures Valid()
      ensures Book() == Posted(old(Book()), Moved(BucketEntries(bs), Placing(width, offset)))
    {
      var i := 0;
      ghost var entries := Moved(BucketEntries(bs), Placing(width, offset));
      while i < |bs|
        invariant 0 <= i <= |bs|
        invariant Valid()
        invariant Book() == Posted(old(Book()), entries[..i])
      {
        assert entries[i] == Entry(Placed(bs[i].key, width, offset), Content(bs[i]));
        PostedNext(old(Book()), entries, i);
        AddBucket(bs[i]);
        i := i + 1;
      }
      assert entries[..i] == entries;
    }

    method AddPoints(ps: seq<Point>)
      requires Valid()
      modifies this
      ensures Valid()
      ensures Book() == Posted(old(Book()), Moved(PointEntries(ps), Placing(width, offset)))
    {
      var bs := seq(|ps|, i requires 0 <= i < |ps| => PointBucket(ps[i]));
      assert BucketEntries(bs) == PointEntries(ps);
      AddBuckets(bs);
    }

    /** The buckets as a list, each once. */
    method Buckets() returns (bs: seq<Bucket>)
      requires Valid()
      ensures Lists(BucketEntries(bs), Book())
      ensures forall i :: 0 <= i < |bs| ==> bs[i].key in buckets && bs[i] == buckets[bs[i].key]
    {
      bs := ListOf(buckets);
    }

    /** The buckets that start before the cutoff leave the accumulator. */
    method DrainBefore(cutoff: int) returns (bs: seq<Bucket>)
      requires Valid()
      modifies this
      ensures Valid()
      ensures buckets == map k | k in old(buckets) && NotBefore(cutoff)(k) :: old(buckets)[k]
      ensures Book() == Kept(old(Book()), NotBefore(cutoff))
      ensures Lists(BucketEntries(bs), Kept(old(Book()), Before(cutoff)))
      ensures forall b :: b in bs ==> b.count >= 1 && Placed(b.key, width, offset) == b.key
    {
      var drained := map k | k in buckets && Before(cutoff)(k) :: buckets[k];
      ContentsKept(buckets, Before(cutoff), drained);
      bs := ListOf(drained);
      var kept := map k | k in buckets && NotBefore(cutoff)(k) :: buckets[k];
      ContentsKept(buckets, NotBefore(cutoff), kept);
      buckets := kept;
    }

    method DrainAll() returns (bs: seq<Bucket>)
      requires Valid()
      modifies this
      ensures Valid() && buckets == map[] && Book() == map[]
      ensures Lists(BucketEntries(bs), old(Book()))
      ensures forall b :: b in bs ==> b.count >= 1 && Placed(b.key, width, offset) == b.key
    {
      bs := ListOf(buckets);
      buckets := map[];
    }
  }

  method ListOf(buckets: map<Key, Bucket>) returns (bs: seq<Bucket>)
    requires Sound(buckets)
    ensures Lists(BucketEntries(bs), Contents(buckets))
    ensures forall i :: 0 <= i < |bs| ==> bs[i].key in buckets && bs[i] == buckets[bs[i].key]
  {
    var ks := MapKeys(buckets);
    bs := seq(|ks|, i requires 0 <= i < |ks| => buckets[ks[i]]);
    ListedBuckets(ks, bs, buckets);
    ListedUnderTheirKeys(ks, bs, buckets);
  }

  lemma ListedUnderTheirKeys(ks: seq<Key>, bs: seq<Bucket>, buckets: map<Key, Bucket>)
    requires Sound(buckets) && |bs| == |ks|
    requires forall i :: 0 <= i < |ks| ==> ks[i] in buckets && bs[i] == buckets[ks[i]]
    ensures forall i :: 0 <= i < |bs| ==> bs[i].key in buckets && bs[i] == buckets[bs[i].key]
  {
  }

  lemma ListedBuckets(ks: seq<Key>, bs: seq<Bucket>, buckets: map<Key, Bucket>)
    requires Sound(buckets) && |bs| == |ks|
    requires forall i :: 0 <= i < |ks| ==> ks[i] in buckets && bs[i] == buckets[ks[i]]
    requires forall i, j :: 0 <= i < j < |ks| ==> ks[i] != ks[j]
    requires forall k :: k in buckets ==> k in ks
    ensures Lists(BucketEntries(bs), Contents(buckets))
  {
    var book := Contents(buckets);
    EntriesAtList(book, ks);
    forall i | 0 <= i < |ks|
      ensures BucketEntries(bs)[i] == EntriesAt(book, ks)[i]
    {
    }
    assert BucketEntries(bs) == EntriesAt(book, ks);
  }
}
