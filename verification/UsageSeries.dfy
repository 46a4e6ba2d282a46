/**
 * Reconciling interval counters with provider-declared totals: every token lands in exactly one row,
 * and models always add up to their row.
 *
 * Token counts are natural numbers and the scale is an exact fraction; a Map is visited in any order.
 */
module UsageSeries {
  import opened Folding

  type Models = map<string, nat>

  const UNATTRIBUTED: string := "__unattributed__"

  function Adding(): (nat, nat) -> nat {
    (a: nat, b: nat) => a + b
  }

  ghost function Sum<K>(m: map<K, nat>): nat {
    FoldMap(Adding(), m, 0)
  }

  function Held<K>(m: map<K, nat>, k: K): nat {
    if k in m then m[k] else 0
  }

  function Bump<K>(m: map<K, nat>, k: K, v: nat): map<K, nat> {
    m[k := Held(m, k) + v]
  }

  lemma SumWithout<K>(m: map<K, nat>, k: K)
    requires k in m
    ensures Sum(m) == Sum(m - {k}) + m[k]
  {
    FoldMapWithout(Adding(), m, k, 0);
  }

  lemma SumBump<K>(m: map<K, nat>, k: K, v: nat)
    ensures Sum(Bump(m, k, v)) == Sum(m) + v
  {
    FoldMapPut<K, nat, nat>(Adding(), m, k, Held(m, k) + v, 0);
    if k in m {
      SumWithout(m, k);
    } else {
      assert m - {k} == m;
    }
  }

  lemma SumPut<K>(m: map<K, nat>, k: K, v: nat)
    ensures Sum(m[k := v]) + Held(m, k) == Sum(m) + v
  {
    FoldMapPut(Adding(), m, k, v, 0);
    if k in m {
      SumWithout(m, k);
    } else {
      assert m - {k} == m;
    }
  }

  // ---- Scaling models to an authoritative total ----

  /** The floor of the scaled value; a raw total that fits is not scaled. */
  function Scaled(v: nat, total: nat, raw: nat): nat {
    if raw > total then v * total / raw else v
  }

  ghost function ScaledAll(m: Models, total: nat, raw: nat): Models {
    map k | k in m :: Scaled(m[k], total, raw)
  }

  lemma FloorBounds(v: nat, total: nat, raw: nat)
    requires raw > 0
    ensures raw * (v * total / raw) <= total * v <= raw * (v * total / raw) + raw - 1
  {
    var q, r := v * total / raw, v * total % raw;
    assert v * total == q * raw + r;
    assert raw * q == q * raw && total * v == v * total;
  }

  lemma ScaledWithout(m: Models, k: string, total: nat, raw: nat)
    requires k in m
    ensures Sum(ScaledAll(m, total, raw)) == Sum(ScaledAll(m - {k}, total, raw)) + Scaled(m[k], total, raw)
  {
    SumWithout(ScaledAll(m, total, raw), k);
    assert ScaledAll(m, total, raw) - {k} == ScaledAll(m - {k}, total, raw);
  }

  lemma {:induction false} ScaledBounds(m: Models, total: nat, raw: nat)
    requires raw > total
    ensures var s := Sum(ScaledAll(m, total, raw));
            raw * s <= total * Sum(m) <= raw * s + |m| * (raw - 1)
    decreases |m|
  {
    if m == map[] {
      assert ScaledAll(m, total, raw) == map[];
    } else {
      var k :| k in m;
      var less := m - {k};
      ScaledBounds(less, total, raw);
      FloorBounds(m[k], total, raw);
      SumWithout(m, k);
      ScaledWithout(m, k, total, raw);
      assert |m| == |less| + 1;
      AddBounds(Sum(ScaledAll(less, total, raw)), Scaled(m[k], total, raw), Sum(less), m[k], total, raw, |less|);
    }
  }

  lemma AddBounds(s: nat, x: nat, t: nat, v: nat, total: nat, raw: nat, n: nat)
    requires raw > 0 && raw * s <= total * t <= raw * s + n * (raw - 1)
    requires raw * x <= total * v <= raw * x + raw - 1
    ensures raw * (s + x) <= total * (t + v) <= raw * (s + x) + (n + 1) * (raw - 1)
  {
    assert raw * (s + x) == raw * s + raw * x;
    assert total * (t + v) == total * t + total * v;
    assert (n + 1) * (raw - 1) == n * (raw - 1) + (raw - 1);
  }

  lemma ScaledUnchanged(m: Models, total: nat, raw: nat)
    requires raw <= total
    ensures ScaledAll(m, total, raw) == m
  {
  }

  /** Scaling never exceeds the total and falls short by less than one token per model. */
  lemma ScaledFits(m: Models, total: nat)
    ensures var s := Sum(ScaledAll(m, total, Sum(m)));
            s <= total && (Sum(m) > total ==> total - s < |m|) && (Sum(m) <= total ==> s == Sum(m))
  {
    var raw := Sum(m);
    if raw > total {
      ScaledBounds(m, total, raw);
      var s, n := Sum(ScaledAll(m, total, raw)), |m|;
      DividesOut(s, total, raw, n);
    } else {
      ScaledUnchanged(m, total, raw);
    }
  }

  lemma DividesOut(s: nat, total: nat, raw: nat, n: nat)
    requires raw > 0 && raw * s <= total * raw <= raw * s + n * (raw - 1)
    ensures s <= total && (n > 0 ==> total - s < n) && (n == 0 ==> s == total)
  {
    FactorsInOrder(raw, s, total);
    var d := total - s;
    assert raw * d == raw * total - raw * s;
    assert n * (raw - 1) == raw * n - n;
    if n > 0 {
      FactorsInOrder(raw, n, d);
    } else {
      FactorsInOrder(raw, d, 0);
    }
  }

  lemma FactorsInOrder(f: nat, a: nat, b: nat)
    requires f > 0
    ensures f * a <= f * b <==> a <= b
  {
    assert f * a - f * b == f * (a - b);
  }

  method SumValues<K>(m: map<K, nat>) returns (sum: nat)
    ensures sum == Sum(m)
  {
    sum := 0;
    var rest := m;
    while rest != map[]
      invariant sum + Sum(rest) == Sum(m)
      decreases |rest|
    {
      var k :| k in rest;
      SumWithout(rest, k);
      sum := sum + rest[k];
      rest := rest - {k};
    }
  }

  /** What one model of the source brings, unless it is still to be visited. */
  function Share(models: Models, rest: Models, k: string, total: nat, raw: nat): nat {
    if k in models && k !in rest then Scaled(models[k], total, raw) else 0
  }

  /** Every model visited so far has brought its scaled value. */
  ghost predicate Brought(after: Models, destination: Models, models: Models, rest: Models, total: nat, raw: nat) {
    forall k :: Held(after, k) == Held(destination, k) + Share(models, rest, k, total, raw)
  }

  lemma BringsNext(after: Models, destination: Models, models: Models, rest: Models, k: string, total: nat, raw: nat)
    requires k in rest && k in models && Brought(after, destination, models, rest, total, raw)
    ensures Brought(Bump(after, k, Scaled(models[k], total, raw)), destination, models, rest - {k}, total, raw)
  {
  }

  lemma BumpNothing(m: Models, k: string)
    ensures forall j :: Held(Bump(m, k, 0), j) == Held(m, j)
  {
  }

  /** Adding the scaled models one by one. */
  method AddScaled(destination: Models, models: Models, total: nat, raw: nat) returns (after: Models, attributed: nat)
    ensures Brought(after, destination, models, map[], total, raw)
    ensures attributed == Sum(ScaledAll(models, total, raw)) && Sum(after) == Sum(destination) + attributed
  {
    after, attributed := destination, 0;
    var rest := models;
    while rest != map[]
      invariant forall k :: k in rest ==> k in models && rest[k] == models[k]
      invariant Sum(after) == Sum(destination) + attributed
      invariant attributed + Sum(ScaledAll(rest, total, raw)) == Sum(ScaledAll(models, total, raw))
      invariant Brought(after, destination, models, rest, total, raw)
      decreases |rest|
    {
      var k :| k in rest;
      var part := Scaled(rest[k], total, raw);
      ScaledWithout(rest, k, total, raw);
      BringsNext(after, destination, models, rest, k, total, raw);
      BumpNothing(after, k);
      if part > 0 {
        SumBump(after, k, part);
        after, attributed := Bump(after, k, part), attributed + part;
      }
      rest := rest - {k};
    }
    assert ScaledAll(rest, total, raw) == map[];
  }

  /** The destination grows by exactly the authoritative total. */
  method AddNormalizedModels(destination: Models, models: Models, total: nat) returns (after: Models)
    ensures Sum(after) == Sum(destination) + total
    ensures forall k :: k != UNATTRIBUTED
              ==> Held(after, k) == Held(destination, k)
                                    + if k in models then Scaled(models[k], total, Sum(models)) else 0
  {
    var raw := SumValues(models);
    ScaledFits(models, total);
    var attributed;
    after, attributed := AddScaled(destination, models, total, raw);
    if attributed < total {
      SumBump(after, UNATTRIBUTED, total - attributed);
      after := Bump(after, UNATTRIBUTED, total - attributed);
    }
  }

  // ---- Rows ----

  datatype Row = Row(epoch: int, source: string, total: nat, models: Models, estimated: bool)

  ghost predicate Balanced(r: Row) {
    Sum(r.models) == r.total
  }

  function Authoritative(total: nat, raw: nat): nat {
    if total != 0 then total else raw
  }

  /** No scaled share under the reserved name is overwritten by the remainder. */
  ghost predicate KeepsShares(declared: nat, models: Models) {
    var total, raw := Authoritative(declared, Sum(models)), Sum(models);
    Scaled(Held(models, UNATTRIBUTED), total, raw) == 0 || Sum(ScaledAll(models, total, raw)) == total
  }

  /** Every named model has its scaled share. */
  ghost predicate SharesOf(row: Row, models: Models) {
    forall m :: m != UNATTRIBUTED ==> Held(row.models, m) == Scaled(Held(models, m), row.total, Sum(models))
  }

  lemma SharesStay(scaled: Models, models: Models, whole: nat, raw: nat, residual: nat)
    requires scaled == ScaledAll(models, whole, raw)
    ensures var named := if residual > 0 then scaled[UNATTRIBUTED := residual] else scaled;
            forall m :: m != UNATTRIBUTED ==> Held(named, m) == Scaled(Held(models, m), whole, raw)
  {
    NothingToScale(whole, raw);
  }

  /**
   * A row of raw points: the unattributed points declare the total, the models are scaled to it.
   * Its models add up to it except when a model carries the reserved name and its share is overwritten.
   */
  method NormalizedRow(epoch: int, source: string, total: nat, models: Models, estimated: bool) returns (row: Row)
    ensures row.epoch == epoch && row.source == source && row.estimated == estimated
    ensures row.total == Authoritative(total, Sum(models))
    ensures Balanced(row) <==> KeepsShares(total, models)
    ensures SharesOf(row, models)
    ensures Sum(models) > row.total ==> Held(row.models, UNATTRIBUTED) < |models| || UNATTRIBUTED in models
  {
    var raw := SumValues(models);
    var whole := Authoritative(total, raw);
    ScaledFits(models, whole);
    var scaled: Models := map k | k in models :: Scaled(models[k], whole, raw);
    assert scaled == ScaledAll(models, whole, raw);
    var attributed := SumValues(scaled);
    var residual := if whole > attributed then whole - attributed else 0;
    SumPut(scaled, UNATTRIBUTED, residual);
    SharesStay(scaled, models, whole, raw, residual);
    row := Row(epoch, source, whole, if residual > 0 then scaled[UNATTRIBUTED := residual] else scaled, estimated);
  }

  // ---- Grouping raw points ----

  /** A point with its canonical model, empty when it names none. */
  datatype Point = Point(epoch: int, source: string, model: string, value: nat, estimated: bool)

  datatype Slot = Slot(epoch: int, source: string)

  datatype Raw = Raw(total: nat, models: Models, estimated: bool)

  function RawAt(rows: map<Slot, Raw>, k: Slot): Raw {
    if k in rows then rows[k] else Raw(0, map[], false)
  }

  function WithPoint(rows: map<Slot, Raw>, p: Point): map<Slot, Raw> {
    if p.epoch == 0 then rows else
    var k := Slot(p.epoch, p.source);
    var row := RawAt(rows, k);
    rows[k := if p.model != "" then Raw(row.total, Bump(row.models, p.model, p.value), row.estimated || p.estimated)
              else Raw(row.total + p.value, row.models, row.estimated || p.estimated)]
  }

  function Grouped(points: seq<Point>): map<Slot, Raw> {
    if points == [] then map[] else WithPoint(Grouped(points[..|points| - 1]), points[|points| - 1])
  }

  /** The values of the points of one slot, with or without a model. */
  function Values(points: seq<Point>, k: Slot, modelled: bool): nat {
    if points == [] then 0
    else var p := points[|points| - 1];
         Values(points[..|points| - 1], k, modelled)
         + if Slot(p.epoch, p.source) == k && (p.model != "") == modelled then p.value else 0
  }

  predicate Seen(points: seq<Point>, k: Slot) {
    exists i :: 0 <= i < |points| && Slot(points[i].epoch, points[i].source) == k
  }

  /** Each slot declares what its unmodelled points add up to and attributes what the modelled ones do. */
  lemma {:induction false} GroupsAddUp(points: seq<Point>, k: Slot)
    requires k.epoch != 0
    ensures k in Grouped(points) <==> Seen(points, k)
    ensures RawAt(Grouped(points), k).total == Values(points, k, false)
    ensures Sum(RawAt(Grouped(points), k).models) == Values(points, k, true)
  {
    if points == [] {
    } else {
      var n := |points| - 1;
      var less, p := points[..n], points[n];
      GroupsAddUp(less, k);
      SumBump(RawAt(Grouped(less), k).models, p.model, p.value);
      SeenLonger(less, p, k);
      assert points == less + [p];
    }
  }

  /** The values of the points of one slot that name one model. */
  function ModelValues(points: seq<Point>, k: Slot, model: string): nat {
    if points == [] then 0
    else var p := points[|points| - 1];
         ModelValues(points[..|points| - 1], k, model)
         + if Slot(p.epoch, p.source) == k && p.model == model then p.value else 0
  }

  /** Each slot attributes to a model what the points that name it add up to, and is estimated if one of its points
      is. */
  lemma {:induction false} GroupsKeepModels(points: seq<Point>, k: Slot, model: string)
    requires k.epoch != 0 && model != ""
    ensures Held(RawAt(Grouped(points), k).models, model) == ModelValues(points, k, model)
    ensures RawAt(Grouped(points), k).estimated
       <==> exists p <- points :: Slot(p.epoch, p.source) == k && p.estimated
  {
    if points != [] {
      var n := |points| - 1;
      GroupsKeepModels(points[..n], k, model);
      assert points == points[..n] + [points[n]];
    }
  }

  lemma SeenLonger(points: seq<Point>, p: Point, k: Slot)
    ensures Seen(points + [p], k) <==> Seen(points, k) || Slot(p.epoch, p.source) == k
  {
    var more := points + [p];
    assert more[|points|] == p;
    if Seen(points, k) {
      var i :| 0 <= i < |points| && Slot(points[i].epoch, points[i].source) == k;
      assert more[i] == points[i];
    }
  }

  method GroupPoints(points: seq<Point>) returns (rows: map<Slot, Raw>)
    ensures rows == Grouped(points)
  {
    rows := map[];
    var i := 0;
    while i < |points|
      invariant 0 <= i <= |points| && rows == Grouped(points[..i])
    {
      var p := points[i];
      assert points[..i + 1][..i] == points[..i];
      i := i + 1;
      if p.epoch == 0 {
        continue;
      }
      var k := Slot(p.epoch, p.source);
      var row := if k in rows then rows[k] else Raw(0, map[], false);
      row := row.(estimated := row.estimated || p.estimated);
      if p.model != "" {
        row := row.(models := Bump(row.models, p.model, p.value));
      } else {
        row := row.(total := row.total + p.value);
      }
      rows := rows[k := row];
    }
    assert points[..i] == points;
  }

  lemma {:induction false} GroupedModels(points: seq<Point>, k: Slot, model: string)
    requires forall p :: p in points ==> p.model != model
    ensures model !in RawAt(Grouped(points), k).models
  {
    if points != [] {
      assert points == points[..|points| - 1] + [points[|points| - 1]];
      GroupedModels(points[..|points| - 1], k, model);
    }
  }

  /** One row per slot; its models add up to its total exactly when no share under the reserved name is
      overwritten, so always when no point uses that name. */
  method RawIntervals(points: seq<Point>) returns (rows: seq<Row>)
    ensures |rows| == |Grouped(points)|
    ensures forall i, j :: 0 <= i < j < |rows| ==> SlotOf(rows[i]) != SlotOf(rows[j])
    ensures forall i :: 0 <= i < |rows| ==> RowOf(rows[i], Grouped(points))
    ensures forall i :: 0 <= i < |rows| ==> BalancedIfKept(rows[i], Grouped(points))
    ensures (forall p :: p in points ==> p.model != UNATTRIBUTED) ==> forall i :: 0 <= i < |rows| ==> Balanced(rows[i])
  {
    var groups := GroupPoints(points);
    var ks := MapKeys(groups);
    ghost var clean := forall p :: p in points ==> p.model != UNATTRIBUTED;
    rows := [];
    while |rows| < |ks|
      invariant |rows| <= |ks|
      invariant forall i :: 0 <= i < |rows| ==> SlotOf(rows[i]) == ks[i] && RowOf(rows[i], groups)
      invariant forall i :: 0 <= i < |rows| ==> BalancedIfKept(rows[i], groups)
      invariant clean ==> forall i :: 0 <= i < |rows| ==> Balanced(rows[i])
    {
      var k := ks[|rows|];
      var row := NormalizedRow(k.epoch, k.source, groups[k].total, groups[k].models, groups[k].estimated);
      if clean {
        GroupedModels(points, k, UNATTRIBUTED);
        assert Held(groups[k].models, UNATTRIBUTED) == 0;
        NothingToScale(row.total, Sum(groups[k].models));
      }
      rows := rows + [row];
    }
  }

  lemma NothingToScale(total: nat, raw: nat)
    ensures Scaled(0, total, raw) == 0
  {
  }

  function SlotOf(r: Row): Slot {
    Slot(r.epoch, r.source)
  }

  /** The row declares what its slot's points do, and gives each model its share of it. */
  ghost predicate RowOf(r: Row, groups: map<Slot, Raw>) {
    && SlotOf(r) in groups && r.total == Authoritative(groups[SlotOf(r)].total, Sum(groups[SlotOf(r)].models))
    && r.estimated == groups[SlotOf(r)].estimated && SharesOf(r, groups[SlotOf(r)].models)
  }

  /** The row's models add up exactly when its shares are kept. */
  ghost predicate BalancedIfKept(r: Row, groups: map<Slot, Raw>) {
    SlotOf(r) in groups && (Balanced(r) <==> KeepsShares(groups[SlotOf(r)].total, groups[SlotOf(r)].models))
  }

  /** Three points under the reserved name, a model and a declared total: two of three tokens are declared, the
      reserved name's share of one is overwritten by a remainder of one, and the row names one token too few. */
  lemma ReservedNameUnbalances(epoch: int, source: string)
    requires epoch != 0
    ensures var points := [Point(epoch, source, UNATTRIBUTED, 2, false), Point(epoch, source, "a", 1, false),
                           Point(epoch, source, "", 2, false)];
            var group := RawAt(Grouped(points), Slot(epoch, source));
            group == Raw(2, map[UNATTRIBUTED := 2, "a" := 1], false) && !KeepsShares(group.total, group.models)
  {
    var p, q, r := Point(epoch, source, UNATTRIBUTED, 2, false), Point(epoch, source, "a", 1, false),
                   Point(epoch, source, "", 2, false);
    ThreePoints(p, q, r);
    ShareIsOverwritten();
  }

  lemma ThreePoints(p: Point, q: Point, r: Point)
    requires p.epoch == q.epoch == r.epoch != 0 && p.source == q.source == r.source
    requires p.model != "" && q.model != "" && p.model != q.model && r.model == ""
    requires !p.estimated && !q.estimated && !r.estimated
    ensures RawAt(Grouped([p, q, r]), Slot(p.epoch, p.source))
         == Raw(r.value, map[p.model := p.value, q.model := q.value], false)
  {
    var k := Slot(p.epoch, p.source);
    GroupedNext([], p);
    assert [] + [p] == [p] && Grouped([]) == map[];
    assert RawAt(Grouped([p]), k) == Raw(0, map[p.model := p.value], false);
    GroupedNext([p], q);
    assert [p] + [q] == [p, q];
    assert RawAt(Grouped([p, q]), k) == Raw(0, map[p.model := p.value, q.model := q.value], false);
    GroupedNext([p, q], r);
    assert [p, q] + [r] == [p, q, r];
  }

  lemma ShareIsOverwritten()
    ensures !KeepsShares(2, map[UNATTRIBUTED := 2, "a" := 1])
  {
    TwoModels(2, 1);
    TwoModels(1, 0);
    var models: Models := map[UNATTRIBUTED := 2, "a" := 1];
    assert Scaled(2, 2, 3) == 1 && Scaled(1, 2, 3) == 0;
    assert ScaledAll(models, 2, 3) == map[UNATTRIBUTED := 1, "a" := 0];
  }

  lemma GroupedNext(points: seq<Point>, p: Point)
    ensures Grouped(points + [p]) == WithPoint(Grouped(points), p)
  {
    assert (points + [p])[..|points|] == points;
  }

  lemma TwoModels(a: nat, b: nat)
    ensures var models: Models := map[UNATTRIBUTED := a, "a" := b];
            Sum(models) == a + b
  {
    var none: Models := map[];
    SumPut(none, UNATTRIBUTED, a);
    SumPut(none[UNATTRIBUTED := a], "a", b);
    assert map[UNATTRIBUTED := a, "a" := b] == none[UNATTRIBUTED := a]["a" := b];
  }
}
