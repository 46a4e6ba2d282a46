/** Where the agreement of queries with direct aggregation ends. */
module MetricLimits {
  import opened Prelude
  import opened MetricBooks
  import opened MetricAggregates
  import opened MetricRows
  import opened MetricEngine
  import opened MetricTiers
  import opened MetricStore

  /** A restart without a flush is harmless exactly when the buffer is empty. */
  lemma RestartLosesTheBuffer(e: Engine, width: int)
    requires width > 0 && forall k :: k in e.buffer ==> e.buffer[k].Summary? && e.buffer[k].count >= 1
    ensures Whole(Apply(e, width, Restart)) == Whole(e) <==> e.buffer == map[]
  {
    if k :| k in e.buffer {
      assert At(Whole(e), k) == Merge(At(e.table, k), e.buffer[k]);
      assert At(Whole(Apply(e, width, Restart)), k) == At(e.table, k);
    }
  }

  // ---- Exactly which compactions a request notices ----

  /** Whatever is stored and buffered, the request is answered alike before and after the compaction. */
  ghost predicate Unnoticed(q: Query, width: int, offset: int, job: Job)
    requires width > 0
  {
    forall e: Engine :: Answer(Apply(e, HOT, Compact(job)), q, width, offset) == Answer(e, q, width, offset)
  }

  lemma UndisturbedIsUnnoticed(q: Query, width: int, offset: int, job: Job)
    requires width > 0 && Undisturbed(q, width, offset, job)
    ensures Unnoticed(q, width, offset, job)
  {
    forall e: Engine
      ensures Answer(Apply(e, HOT, Compact(job)), q, width, offset) == Answer(e, q, width, offset)
    {
      forall pick: Selector<Key>
        ensures Total(Answer(Apply(e, HOT, Compact(job)), q, width, offset), pick)
             == Total(Answer(e, q, width, offset), pick)
      {
        AnswerTotal(e, q, width, offset, pick);
        AnswerTotal(Apply(e, HOT, Compact(job)), q, width, offset, pick);
        UndisturbedIsBlind(q, width, offset, job, pick);
        CompactionIsUnseen(e, HOT, job, Asked(q, width, offset, pick));
      }
      SameTotalsSameBook(Answer(Apply(e, HOT, Compact(job)), q, width, offset), Answer(e, q, width, offset));
    }
  }

  /** A table of one row. */
  function OneRow(k: Key, s: Summary): Engine
    requires s != Empty
  {
    Engine(map[k := s], map[])
  }

  lemma OneRowAnswer(k: Key, s: Summary, q: Query, width: int, offset: int)
    requires s != Empty && width > 0
    ensures Answer(OneRow(k, s), q, width, offset)
         == if Matches(q, k) then map[Placed(k, width, offset) := s] else map[]
  {
    var e := OneRow(k, s);
    PlusEmpty(e.table);
    if Matches(q, k) {
      assert Kept(Whole(e), Matching(q)) == map[k := s];
      ShiftOne(k, s, Placing(width, offset));
    } else {
      assert Kept(Whole(e), Matching(q)) == map[];
    }
  }

  lemma OneRowMoves(k: Key, s: Summary, job: Job)
    requires s != Empty
    ensures Apply(OneRow(k, s), HOT, Compact(job)) == OneRow(Rolling(job)(k), s)
  {
    ShiftOne(k, s, Rolling(job));
  }

  /** A series that the request asks for and the compaction moves. */
  function SharedSeries(q: Query, job: Job): Series {
    Series(q.metric.GetOr(""), q.instrument, "", q.source.GetOr(""),
           if job.resource.Some? then job.resource.value else q.resource.GetOr(""), map[])
  }

  /** The row to look at for a bound off the grid: the one at the bound or, if the bound closes a window that
      lies inside one bucket of the compaction, the one at its start. */
  function Witness(q: Query, job: Job, x: int): Key {
    Key(if x > q.until && BucketStart(x, job.width, job.offset) < q.since then q.since else x,
        job.source, SharedSeries(q, job))
  }

  lemma WitnessMoves(q: Query, width: int, offset: int, job: Job, x: int)
    requires width > 0 && q.since <= q.until && Bound(q, width, offset, x) && x < job.before && !OnGrid(job, x)
    ensures var epoch := Witness(q, job, x).epoch;
            var start := BucketStart(epoch, job.width, job.offset);
            && epoch < job.before && start < epoch
            && if q.since <= epoch <= q.until
               then start < q.since || BucketStart(start, width, offset) != BucketStart(epoch, width, offset)
               else q.since <= start <= q.until
  {
    var epoch, home := Witness(q, job, x).epoch, BucketStart(x, job.width, job.offset);
    var start := BucketStart(epoch, job.width, job.offset);
    BucketStartIsTheAlignedFloor(x, job.width, job.offset, home);
    if epoch != x {
      BucketStartIsTheAlignedFloor(epoch, job.width, job.offset, home);
    } else if q.since < x <= q.until {
      BucketStartIsTheAlignedFloor(x, width, offset, x);
      BucketStartIsTheAlignedFloor(start, width, offset, BucketStart(start, width, offset));
    }
  }

  lemma BoundOffGridIsNoticed(q: Query, width: int, offset: int, job: Job, x: int)
    requires width > 0 && q.since <= q.until && Bound(q, width, offset, x) && x < job.before && !OnGrid(job, x)
    requires !Foreign(q, job)
    ensures !Unnoticed(q, width, offset, job)
  {
    var k, s := Witness(q, job, x), Summary(0.0, 1, 0.0, 0.0, 0, false);
    WitnessMoves(q, width, offset, job, x);
    OneRowMoves(k, s, job);
    OneRowAnswer(k, s, q, width, offset);
    OneRowAnswer(Rolling(job)(k), s, q, width, offset);
    var here, there := Placed(k, width, offset), Placed(Rolling(job)(k), width, offset);
    var before, after := Answer(OneRow(k, s), q, width, offset), Answer(OneRow(Rolling(job)(k), s), q, width, offset);
    assert here in before <==> Matches(q, k);
    assert Matches(q, k) ==> here !in after;
    assert !Matches(q, k) ==> there in after;
    assert before != after;
  }

  /** A compaction changes no answer of any table if and only if every bound of the request before its cutoff is
      on its grid, or it moves another resource. */
  lemma UnnoticedIff(q: Query, width: int, offset: int, job: Job)
    requires width > 0 && q.since <= q.until
    ensures Unnoticed(q, width, offset, job) <==> Undisturbed(q, width, offset, job)
  {
    if Undisturbed(q, width, offset, job) {
      UndisturbedIsUnnoticed(q, width, offset, job);
    } else {
      var x :| Bound(q, width, offset, x) && x < job.before && !OnGrid(job, x);
      BoundOffGridIsNoticed(q, width, offset, job, x);
    }
  }

  /** An hourly compaction is noticed by a window that starts at half past. */
  lemma HalfHourWindowIsCut(series: Series, width: int, offset: int)
    requires width > 0
    ensures !Unnoticed(Query(2 * HOT, HOUR, None, None, None, series.instrument), width, offset,
                       Roll(HOT, HOUR, 0, HOUR, None))
  {
    var job: Job := Roll(HOT, HOUR, 0, HOUR, None);
    var q := Query(2 * HOT, HOUR, None, None, None, series.instrument);
    assert Bound(q, width, offset, q.since) && !OnGrid(job, q.since);
    UnnoticedIff(q, width, offset, job);
  }

  /** Buckets merged one after the other, the later argument being the later call. */
  function MergedAll(first: Bucket, rest: seq<Bucket>): Bucket {
    if rest == [] then first else MergedInto(MergedAll(first, rest[..|rest| - 1]), rest[|rest| - 1])
  }

  /** The accumulator keeps the last value of the newest bucket, so it does not depend on levels or order. */
  lemma {:induction false} NewestBucketGivesLastValue(first: Bucket, rest: seq<Bucket>, newest: Bucket)
    requires newest in [first] + rest
    requires forall b :: b in [first] + rest && b != newest ==> b.last < newest.last
    ensures MergedAll(first, rest).last == newest.last && MergedAll(first, rest).lastValue == newest.lastValue
  {
    LastOfSome(first, rest);
    var m := MergedAll(first, rest);
    assert newest.last <= m.last;
  }

  lemma {:induction false} LastOfSome(first: Bucket, rest: seq<Bucket>)
    ensures var m := MergedAll(first, rest);
            && (exists b :: b in [first] + rest && m.last == b.last && m.lastValue == b.lastValue)
            && (forall b :: b in [first] + rest ==> b.last <= m.last)
  {
    if rest == [] {
      assert first in [first] + rest;
    } else {
      var n := |rest| - 1;
      LastOfSome(first, rest[..n]);
      assert [first] + rest == ([first] + rest[..n]) + [rest[n]];
      assert rest[n] in [first] + rest;
    }
  }

  /** Every group merged by itself. */
  function MergedGroups(groups: seq<seq<Bucket>>): (r: seq<Bucket>)
    requires forall i | 0 <= i < |groups| :: groups[i] != []
    ensures |r| == |groups| && forall i | 0 <= i < |r| :: r[i] == MergedAll(groups[i][0], groups[i][1..])
  {
    seq(|groups|, i requires 0 <= i < |groups| => MergedAll(groups[i][0], groups[i][1..]))
  }

  lemma GroupLast(g: seq<Bucket>, newest: Bucket)
    requires g != [] && forall b :: b in g && b != newest ==> b.last < newest.last
    ensures var m := MergedAll(g[0], g[1..]);
            if newest in g then m.last == newest.last && m.lastValue == newest.lastValue else m.last < newest.last
  {
    assert [g[0]] + g[1..] == g;
    LastOfSome(g[0], g[1..]);
    if newest in g {
      NewestBucketGivesLastValue(g[0], g[1..], newest);
    }
  }

  /** Two levels of merging keep the last value of the newest bucket, so they agree with one level. */
  lemma TwoLevelsKeepLastValue(groups: seq<seq<Bucket>>, j: nat, newest: Bucket)
    requires (forall i | 0 <= i < |groups| :: groups[i] != []) && j < |groups| && newest in groups[j]
    requires forall i, b | 0 <= i < |groups| && b in groups[i] && b != newest :: b.last < newest.last
    requires forall i | 0 <= i < |groups| && newest in groups[i] :: i == j
    ensures var m := MergedGroups(groups);
            var top := MergedAll(m[0], m[1..]);
            top.last == newest.last && top.lastValue == newest.lastValue
  {
    var m := MergedGroups(groups);
    forall i | 0 <= i < |m|
      ensures if i == j then m[i].last == newest.last && m[i].lastValue == newest.lastValue else m[i].last < newest.last
    {
      GroupLast(groups[i], newest);
    }
    assert m[j] in m && forall b :: b in m && b != m[j] ==> b.last < m[j].last;
    GroupLast(m, m[j]);
  }

  /** A listed row that the grouped read puts in a group. */
  predicate InGroup(rows: Table, ks: seq<Key>, width: int, offset: int, g: Group, k: Key)
    requires width > 0
  {
    k in ks && k in rows && GroupOf(k, rows[k], width, offset) == g
  }

  lemma {:induction false} GroupTakesTheGreatest(rows: Table, ks: seq<Key>, width: int, offset: int, g: Group)
    requires width > 0 && (forall k :: k in ks ==> k in rows) && g in GroupsRead(rows, ks, width, offset)
    ensures var value := GroupsRead(rows, ks, width, offset)[g].lastValue;
            && (exists k :: InGroup(rows, ks, width, offset, g, k) && rows[k].lastValue == value)
            && (forall k :: InGroup(rows, ks, width, offset, g, k) ==> rows[k].lastValue <= value)
  {
    var n := |ks| - 1;
    var less, last := ks[..n], ks[n];
    assert ks == less + [last];
    forall k ensures InGroup(rows, ks, width, offset, g, k)
                <==> || InGroup(rows, less, width, offset, g, k)
                     || (k == last && GroupOf(last, rows[last], width, offset) == g)
    {
    }
    if g in GroupsRead(rows, less, width, offset) {
      GroupTakesTheGreatest(rows, less, width, offset, g);
    } else {
      NotReadYet(rows, less, width, offset, g);
    }
  }

  lemma {:induction false} NotReadYet(rows: Table, ks: seq<Key>, width: int, offset: int, g: Group)
    requires width > 0 && (forall k :: k in ks ==> k in rows) && g !in GroupsRead(rows, ks, width, offset)
    ensures forall k :: !InGroup(rows, ks, width, offset, g, k)
  {
    if ks != [] {
      var n := |ks| - 1;
      assert ks == ks[..n] + [ks[n]];
      NotReadYet(rows, ks[..n], width, offset, g);
      forall k
        ensures InGroup(rows, ks, width, offset, g, k) ==> InGroup(rows, ks[..n], width, offset, g, k) || k == ks[n]
      {
      }
    }
  }

  /** No row of its group is newer. */
  ghost predicate Newest(rows: Table, ks: seq<Key>, width: int, offset: int, newest: Key)
    requires width > 0 && newest in rows
  {
    var g := GroupOf(newest, rows[newest], width, offset);
    forall k :: InGroup(rows, ks, width, offset, g, k) ==> rows[k].last <= rows[newest].last
  }

  /** A grouped read shows the last value of the newest row of a group if and only if no other row of the group
      has a greater one. */
  lemma GroupedLastValueIsTheNewestIff(rows: Table, ks: seq<Key>, width: int, offset: int, newest: Key,
                                       instrument: Instrument)
    requires width > 0 && (forall k :: k in ks ==> k in rows) && newest in ks && Newest(rows, ks, width, offset, newest)
    ensures var g := GroupOf(newest, rows[newest], width, offset);
            && g in GroupsRead(rows, ks, width, offset)
            && (GroupPoint(g, GroupsRead(rows, ks, width, offset)[g], instrument).lastValue == rows[newest].lastValue
                <==> forall k :: InGroup(rows, ks, width, offset, g, k) ==> rows[k].lastValue <= rows[newest].lastValue)
  {
    var g := GroupOf(newest, rows[newest], width, offset);
    assert InGroup(rows, ks, width, offset, g, newest);
    if g !in GroupsRead(rows, ks, width, offset) {
      NotReadYet(rows, ks, width, offset, g);
    }
    GroupTakesTheGreatest(rows, ks, width, offset, g);
  }

  /** Two quarter hours of one hour, the older with the greater last value: an hourly read shows the older value. */
  lemma OlderLastValueIsShown(series: Series, tag: Tag)
    ensures var older, newer := Key(0, HOT, series), Key(HOT, HOT, series);
            var rows: Table := map[older := Row(2.0, 1, 2.0, 2.0, 2.0, 1, tag, false),
                                   newer := Row(1.0, 1, 1.0, 1.0, 1.0, HOT + 1, tag, false)];
            var g := Group(0, series, tag, false);
            && Newest(rows, [older, newer], HOUR, 0, newer)
            && g in GroupsRead(rows, [older, newer], HOUR, 0)
            && GroupsRead(rows, [older, newer], HOUR, 0)[g].lastValue == 2.0 != rows[newer].lastValue
  {
    var older, newer := Key(0, HOT, series), Key(HOT, HOT, series);
    var rows: Table := map[older := Row(2.0, 1, 2.0, 2.0, 2.0, 1, tag, false),
                           newer := Row(1.0, 1, 1.0, 1.0, 1.0, HOT + 1, tag, false)];
    var ks, g := [older, newer], Group(0, series, tag, false);
    DivisionIsUnique(0, 0, HOUR, 0);
    DivisionIsUnique(HOT, 0, HOUR, HOT);
    assert GroupOf(older, rows[older], HOUR, 0) == g && GroupOf(newer, rows[newer], HOUR, 0) == g;
    assert InGroup(rows, ks, HOUR, 0, g, older) && InGroup(rows, ks, HOUR, 0, g, newer);
    assert forall k :: InGroup(rows, ks, HOUR, 0, g, k) ==> k == older || k == newer;
    GroupedLastValueIsTheNewestIff(rows, ks, HOUR, 0, newer, Gauge);
    GroupTakesTheGreatest(rows, ks, HOUR, 0, g);
  }
}
