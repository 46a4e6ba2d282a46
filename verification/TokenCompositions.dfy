/** Per-model token totals with a bounded number of named models. */
module TokenCompositions {
  import opened Folding
  import opened CodexRecords
  import opened CodexParser
  import opened CodexLog
  import opened CodexDays
  import opened CodexLedger

  /** A dictionary that remembers the order in which its keys were inserted. */
  datatype Dict<V> = Dict(keys: seq<string>, values: map<string, V>) {
    ghost predicate WellFormed() {
      && (forall i, j | 0 <= i < j < |keys| :: keys[i] != keys[j])
      && forall k :: k in keys <==> k in values
    }

    function Get(k: string, default: V): V {
      if k in values then values[k] else default
    }

    function Put(k: string, v: V): Dict<V> {
      Dict(if k in keys then keys else keys + [k], values[k := v])
    }
  }

  function Sum(a: Counters, b: Counters): Counters {
    Counters(a.events + b.events, a.usage.Add(b.usage))
  }

  /** Where an identifier is kept: under its own name while there is room, else under "other". */
  function Slot(keys: seq<string>, identifier: string): string {
    if identifier in keys || |keys| < MAX_SAMPLED_MODELS then identifier else "other"
  }

  function AddTotalAt(models: Dict<nat>, slot: string, tokens: nat): Dict<nat> {
    models.Put(slot, models.Get(slot, 0) + tokens)
  }

  function AddPartAt(parts: Dict<Counters>, slot: string, c: Counters): Dict<Counters> {
    parts.Put(slot, Sum(parts.Get(slot, NoCounters()), c))
  }

  function AddTotal(models: Dict<nat>, identifier: string, tokens: nat): Dict<nat> {
    AddTotalAt(models, Slot(models.keys, identifier), tokens)
  }

  function AddPart(parts: Dict<Counters>, identifier: string, c: Counters): Dict<Counters> {
    AddPartAt(parts, Slot(parts.keys, identifier), c)
  }

  /** The two model maps have the same keys in the same order, matching totals, and at most 129 keys. */
  ghost predicate Parallel(models: Dict<nat>, parts: Dict<Counters>) {
    && models.WellFormed() && parts.WellFormed() && models.keys == parts.keys && Bounded(models.keys)
    && (forall k <- models.keys :: models.values[k] == parts.values[k].usage.total)
  }

  predicate Bounded(keys: seq<string>) {
    |keys| <= MAX_SAMPLED_MODELS || ("other" in keys && |keys| == MAX_SAMPLED_MODELS + 1)
  }

  lemma PutKeepsWellFormed<V>(d: Dict<V>, k: string, v: V)
    requires d.WellFormed()
    ensures d.Put(k, v).WellFormed()
  {
  }

  /** Adding to both maps keeps them parallel: the decision for "other" is the same in each because the key
      orders are the same. */
  lemma AddKeepsParallel(models: Dict<nat>, parts: Dict<Counters>, identifier: string, c: Counters)
    requires Parallel(models, parts)
    ensures Parallel(AddTotal(models, identifier, c.usage.total), AddPart(parts, identifier, c))
  {
    var slot := Slot(models.keys, identifier);
    var tokens, counters := models.Get(slot, 0) + c.usage.total, Sum(parts.Get(slot, NoCounters()), c);
    PutKeepsWellFormed(models, slot, tokens);
    PutKeepsWellFormed(parts, slot, counters);
    PutKeepsTotals(models, parts, slot, tokens, counters);
  }

  lemma PutKeepsTotals(models: Dict<nat>, parts: Dict<Counters>, slot: string, tokens: nat, counters: Counters)
    requires models.WellFormed() && parts.WellFormed() && models.keys == parts.keys && tokens == counters.usage.total
    requires forall k <- models.keys :: models.values[k] == parts.values[k].usage.total
    ensures var m, p := models.Put(slot, tokens), parts.Put(slot, counters);
            m.keys == p.keys && m.WellFormed() && p.WellFormed()
            && forall k <- m.keys :: m.values[k] == p.values[k].usage.total
  {
    PutKeepsWellFormed(models, slot, tokens);
    PutKeepsWellFormed(parts, slot, counters);
  }

  function SumStep(): (Counters, Counters) -> Counters {
    (a, b) => Sum(a, b)
  }

  ghost function SumParts(parts: map<string, Counters>): Counters {
    FoldMap(SumStep(), parts, NoCounters())
  }

  lemma AddPartAddsToSum(parts: Dict<Counters>, identifier: string, c: Counters)
    ensures SumParts(AddPart(parts, identifier, c).values) == Sum(SumParts(parts.values), c)
  {
    var slot := Slot(parts.keys, identifier);
    FoldMapPut(SumStep(), parts.values, slot, Sum(parts.Get(slot, NoCounters()), c), NoCounters());
    if slot in parts.values {
      FoldMapWithout(SumStep(), parts.values, slot, NoCounters());
      SumAssociates(SumParts(parts.values - {slot}), parts.values[slot], c);
    } else {
      assert parts.values - {slot} == parts.values;
    }
  }

  lemma SumAssociates(a: Counters, b: Counters, c: Counters)
    ensures Sum(a, Sum(b, c)) == Sum(Sum(a, b), c)
  {
  }

  // ---- Merging ----

  ghost function MergeTotals(models: Dict<nat>, items: Dict<nat>, n: nat): Dict<nat>
    requires n <= |items.keys| && items.WellFormed()
  {
    if n == 0 then models
    else AddTotal(MergeTotals(models, items, n - 1), items.keys[n - 1], items.values[items.keys[n - 1]])
  }

  ghost function MergeParts(parts: Dict<Counters>, items: Dict<Counters>, n: nat): Dict<Counters>
    requires n <= |items.keys| && items.WellFormed()
  {
    if n == 0 then parts
    else AddPart(MergeParts(parts, items, n - 1), items.keys[n - 1], items.values[items.keys[n - 1]])
  }

  lemma {:induction false} MergeKeepsParallel(models: Dict<nat>, parts: Dict<Counters>,
                                              items: Dict<nat>, pieces: Dict<Counters>, n: nat)
    requires Parallel(models, parts) && Parallel(items, pieces) && n <= |items.keys|
    ensures Parallel(MergeTotals(models, items, n), MergeParts(parts, pieces, n))
  {
    if n > 0 {
      MergeKeepsParallel(models, parts, items, pieces, n - 1);
      var k := items.keys[n - 1];
      assert items.values[k] == pieces.values[k].usage.total;
      AddKeepsParallel(MergeTotals(models, items, n - 1), MergeParts(parts, pieces, n - 1), k, pieces.values[k]);
    }
  }

  ghost function Restricted(items: Dict<Counters>, n: nat): map<string, Counters>
    requires n <= |items.keys| && items.WellFormed()
  {
    map k | k in items.keys[..n] :: items.values[k]
  }

  lemma RestrictedGrows(items: Dict<Counters>, n: nat)
    requires 0 < n <= |items.keys| && items.WellFormed()
    ensures var k, before := items.keys[n - 1], Restricted(items, n - 1);
            k !in before && Restricted(items, n) == before[k := items.values[k]]
  {
    assert items.keys[..n] == items.keys[..n - 1] + [items.keys[n - 1]];
  }

  lemma RestrictedSum(items: Dict<Counters>, n: nat)
    requires 0 < n <= |items.keys| && items.WellFormed()
    ensures SumParts(Restricted(items, n)) == Sum(SumParts(Restricted(items, n - 1)), items.values[items.keys[n - 1]])
  {
    RestrictedGrows(items, n);
    FoldMapInsert(SumStep(), Restricted(items, n - 1), items.keys[n - 1], items.values[items.keys[n - 1]],
                  NoCounters());
  }

  lemma {:induction false} MergeAddsSums(parts: Dict<Counters>, items: Dict<Counters>, n: nat)
    requires n <= |items.keys| && items.WellFormed()
    ensures SumParts(MergeParts(parts, items, n).values) == Sum(SumParts(parts.values), SumParts(Restricted(items, n)))
  {
    if n == 0 {
      assert Restricted(items, 0) == map[];
    } else {
      var k, merged := items.keys[n - 1], MergeParts(parts, items, n - 1);
      MergeAddsSums(parts, items, n - 1);
      AddPartAddsToSum(merged, k, items.values[k]);
      RestrictedSum(items, n);
      SumAssociates(SumParts(parts.values), SumParts(Restricted(items, n - 1)), items.values[k]);
    }
  }

  // ---- The aggregate ----

  datatype Composition = Composition(total: Counters, models: Dict<nat>, parts: Dict<Counters>)

  function EmptyComposition(): Composition {
    Composition(NoCounters(), Dict([], map[]), Dict([], map[]))
  }

  /** Adding decides the slot once, by the map of totals. */
  function Added(c: Composition, model: string, usage: Usage): Composition {
    var slot := Slot(c.models.keys, model);
    Composition(Sum(c.total, Counters(1, usage)), AddTotalAt(c.models, slot, usage.total),
                AddPartAt(c.parts, slot, Counters(1, usage)))
  }

  ghost predicate Mergeable(c: Composition) {
    c.models.WellFormed() && c.parts.WellFormed()
  }

  ghost function Merged(c: Composition, other: Composition): Composition
    requires Mergeable(other)
  {
    Composition(Sum(c.total, other.total), MergeTotals(c.models, other.models, |other.models.keys|),
                MergeParts(c.parts, other.parts, |other.parts.keys|))
  }

  /** The split by model is complete: its parts add up to the whole in every counter, and the totals by model
      are those of the parts. */
  ghost predicate Complete(c: Composition) {
    Parallel(c.models, c.parts) && SumParts(c.parts.values) == c.total
  }

  lemma EmptyIsComplete()
    ensures Complete(EmptyComposition())
  {
  }

  lemma AddKeepsComplete(c: Composition, model: string, usage: Usage)
    requires Complete(c)
    ensures Complete(Added(c, model, usage))
  {
    AddKeepsParallel(c.models, c.parts, model, Counters(1, usage));
    AddPartAddsToSum(c.parts, model, Counters(1, usage));
  }

  lemma AllIsRestricted(items: Dict<Counters>)
    requires items.WellFormed()
    ensures Restricted(items, |items.keys|) == items.values
  {
    assert items.keys[..|items.keys|] == items.keys;
  }

  lemma MergedSum(c: Composition, other: Composition)
    requires Mergeable(other) && SumParts(c.parts.values) == c.total && SumParts(other.parts.values) == other.total
    ensures SumParts(Merged(c, other).parts.values) == Merged(c, other).total
  {
    MergeAddsSums(c.parts, other.parts, |other.parts.keys|);
    AllIsRestricted(other.parts);
  }

  lemma MergeKeepsComplete(c: Composition, other: Composition)
    requires Complete(c) && Complete(other)
    ensures Complete(Merged(c, other))
  {
    MergedSum(c, other);
    MergeKeepsParallel(c.models, c.parts, other.models, other.parts, |other.models.keys|);
  }

  // ---- Under which name usage is kept ----

  predicate Distinct(keys: seq<string>) {
    forall i, j | 0 <= i < j < |keys| :: keys[i] != keys[j]
  }

  predicate Within(keys: seq<string>, names: set<string>) {
    forall k <- keys :: k in names
  }

  /** There is room for all of the names. */
  predicate Fits(a: seq<string>, b: seq<string>, names: set<string>) {
    Distinct(a) && Within(a, names) && Within(b, names) && |names| <= 128
  }

  lemma {:induction false} DistinctSize(keys: seq<string>, names: set<string>)
    requires Distinct(keys) && Within(keys, names)
    ensures |keys| <= |names|
  {
    if keys != [] {
      var less, last := keys[..|keys| - 1], keys[|keys| - 1];
      assert last in keys && forall k <- less :: k in keys && k != last;
      DistinctSize(less, names - {last});
    }
  }

  /** A name that is held, or for which there is room, keeps its own. */
  lemma RoomForName(keys: seq<string>, names: set<string>, name: string)
    requires Distinct(keys) && Within(keys, names) && name in names && |names| <= 128
    ensures Slot(keys, name) == name
  {
    if name !in keys {
      DistinctSize(keys, names - {name});
    }
  }

  /** The names after the first `n` of the others have been merged. */
  function NamesAfter(keys: seq<string>, others: seq<string>, n: nat): seq<string>
    requires n <= |others|
  {
    if n == 0 then keys else OneMoreName(NamesAfter(keys, others, n - 1), others[n - 1])
  }

  function OneMoreName(keys: seq<string>, name: string): seq<string> {
    var slot := Slot(keys, name);
    if slot in keys then keys else keys + [slot]
  }

  lemma {:induction false} NamesStayTheirOwn(keys: seq<string>, others: seq<string>, n: nat, names: set<string>)
    requires Fits(keys, others, names) && n <= |others|
    ensures Distinct(NamesAfter(keys, others, n)) && Within(NamesAfter(keys, others, n), names)
    ensures n < |others| ==> Slot(NamesAfter(keys, others, n), others[n]) == others[n]
  {
    if n > 0 {
      NamesStayTheirOwn(keys, others, n - 1, names);
    }
    if n < |others| {
      assert others[n] in others;
      RoomForName(NamesAfter(keys, others, n), names, others[n]);
    }
  }

  lemma {:induction false} NamesOfBoth(keys: seq<string>, others: seq<string>, n: nat, names: set<string>, name: string)
    requires Fits(keys, others, names) && n <= |others|
    ensures name in NamesAfter(keys, others, n) <==> name in keys || name in others[..n]
  {
    if n > 0 {
      NamesOfBoth(keys, others, n - 1, names, name);
      NamesStayTheirOwn(keys, others, n - 1, names);
      assert others[..n] == others[..n - 1] + [others[n - 1]];
    }
  }

  lemma {:induction false} TotalNames(models: Dict<nat>, items: Dict<nat>, n: nat)
    requires items.WellFormed() && n <= |items.keys|
    ensures MergeTotals(models, items, n).keys == NamesAfter(models.keys, items.keys, n)
  {
    if n > 0 {
      TotalNames(models, items, n - 1);
    }
  }

  lemma {:induction false} PartNames(parts: Dict<Counters>, items: Dict<Counters>, n: nat)
    requires items.WellFormed() && n <= |items.keys|
    ensures MergeParts(parts, items, n).keys == NamesAfter(parts.keys, items.keys, n)
  {
    if n > 0 {
      PartNames(parts, items, n - 1);
    }
  }

  lemma NameIsNew(keys: seq<string>, n: nat, name: string)
    requires 0 < n <= |keys| && Distinct(keys)
    ensures name in keys[..n] <==> name in keys[..n - 1] || name == keys[n - 1]
    ensures keys[n - 1] !in keys[..n - 1]
  {
    assert keys[..n] == keys[..n - 1] + [keys[n - 1]];
  }

  lemma AddTotalAtOwn(models: Dict<nat>, key: string, tokens: nat, name: string)
    requires Slot(models.keys, key) == key
    ensures AddTotal(models, key, tokens).Get(name, 0) == models.Get(name, 0) + if name == key then tokens else 0
  {
  }

  lemma AddPartAtOwn(parts: Dict<Counters>, key: string, c: Counters, name: string)
    requires Slot(parts.keys, key) == key
    ensures AddPart(parts, key, c).Get(name, NoCounters())
         == if name == key then Sum(parts.Get(name, NoCounters()), c) else parts.Get(name, NoCounters())
  {
  }

  lemma SumWithNothing(a: Counters)
    ensures Sum(a, NoCounters()) == a
  {
  }

  /** What is held under a name after the first `n` names of the other side have been merged. */
  lemma {:induction false} MergedNames(models: Dict<nat>, items: Dict<nat>, n: nat, names: set<string>, name: string)
    requires items.WellFormed() && n <= |items.keys| && Fits(models.keys, items.keys, names)
    ensures MergeTotals(models, items, n).Get(name, 0)
         == models.Get(name, 0) + if name in items.keys[..n] then items.values[name] else 0
  {
    if n > 0 {
      var key := items.keys[n - 1];
      MergedNames(models, items, n - 1, names, name);
      NamesStayTheirOwn(models.keys, items.keys, n - 1, names);
      TotalNames(models, items, n - 1);
      NameIsNew(items.keys, n, name);
      AddTotalAtOwn(MergeTotals(models, items, n - 1), key, items.values[key], name);
    }
  }

  /** The same of the splits. */
  lemma {:induction false} MergedPartNames(parts: Dict<Counters>, items: Dict<Counters>, n: nat, names: set<string>,
                                           name: string)
    requires items.WellFormed() && n <= |items.keys| && Fits(parts.keys, items.keys, names)
    ensures MergeParts(parts, items, n).Get(name, NoCounters())
         == Sum(parts.Get(name, NoCounters()), if name in items.keys[..n] then items.values[name] else NoCounters())
  {
    if n > 0 {
      var key := items.keys[n - 1];
      MergedPartNames(parts, items, n - 1, names, name);
      NamesStayTheirOwn(parts.keys, items.keys, n - 1, names);
      PartNames(parts, items, n - 1);
      NameIsNew(items.keys, n, name);
      AddPartAtOwn(MergeParts(parts, items, n - 1), key, items.values[key], name);
      SumWithNothing(parts.Get(name, NoCounters()));
    }
  }

  /** While all names fit into 128, each name of a merge holds the sum of what both sides held under it. */
  lemma MergeKeepsNames(c: Composition, other: Composition, names: set<string>, name: string)
    requires Mergeable(c) && Mergeable(other)
    requires Fits(c.models.keys, other.models.keys, names) && Fits(c.parts.keys, other.parts.keys, names)
    ensures Merged(c, other).models.Get(name, 0) == c.models.Get(name, 0) + other.models.Get(name, 0)
    ensures Merged(c, other).parts.Get(name, NoCounters())
         == Sum(c.parts.Get(name, NoCounters()), other.parts.Get(name, NoCounters()))
    ensures name in Merged(c, other).models.keys <==> name in c.models.keys || name in other.models.keys
  {
    var n, m := |other.models.keys|, |other.parts.keys|;
    assert other.models.keys[..n] == other.models.keys && other.parts.keys[..m] == other.parts.keys;
    MergedNames(c.models, other.models, n, names, name);
    MergedPartNames(c.parts, other.parts, m, names, name);
    TotalNames(c.models, other.models, n);
    NamesOfBoth(c.models.keys, other.models.keys, n, names, name);
  }

  /** Past 128 names too, a name that was held keeps what both sides held under it. */
  lemma {:induction false} HeldNamesStay(models: Dict<nat>, items: Dict<nat>, n: nat, name: string)
    requires items.WellFormed() && n <= |items.keys| && name in models.keys && name != "other"
    requires models.WellFormed()
    ensures var merged := MergeTotals(models, items, n);
            && name in merged.keys
            && merged.Get(name, 0) == models.Get(name, 0) + if name in items.keys[..n] then items.values[name] else 0
  {
    if n > 0 {
      HeldNamesStay(models, items, n - 1, name);
      assert items.keys[..n] == items.keys[..n - 1] + [items.keys[n - 1]];
    }
  }

  /** A model is added under its own name while it is held or there is room, and under "other" past 128. */
  lemma AddKeepsNames(c: Composition, model: string, usage: Usage, name: string)
    requires Mergeable(c) && c.models.keys == c.parts.keys
    ensures var added := Added(c, model, usage);
            var kept := if model in c.models.keys || |c.models.keys| < 128 then model else "other";
            && added.total == Sum(c.total, Counters(1, usage))
            && added.models.Get(name, 0) == c.models.Get(name, 0) + (if name == kept then usage.total else 0)
            && added.parts.Get(name, NoCounters())
               == Sum(c.parts.Get(name, NoCounters()), if name == kept then Counters(1, usage) else NoCounters())
  {
  }

  class TokenComposition {
    var total: Counters
    var models: Dict<nat>
    var parts: Dict<Counters>

    function Value(): Composition
      reads this
    {
      Composition(total, models, parts)
    }

    constructor ()
      ensures Value() == EmptyComposition()
    {
      total, models, parts := NoCounters(), Dict([], map[]), Dict([], map[]);
    }

    method Add(model: string, usage: Usage)
      modifies this
      ensures Value() == Added(old(Value()), model, usage)
    {
      total := Counters(total.events + 1, total.usage.Add(usage));
      var identifier := Slot(models.keys, model);
      models := models.Put(identifier, models.Get(identifier, 0) + usage.total);
      parts := parts.Put(identifier, Sum(parts.Get(identifier, NoCounters()), Counters(1, usage)));
    }

    /** Merging another aggregate: counters add, and each of its models goes where this one has room. */
    method Merge(other: TokenComposition)
      requires Mergeable(other.Value()) && other != this
      modifies this
      ensures Value() == Merged(old(Value()), other.Value())
    {
      total := Sum(total, other.total);
      models := MergeModels(models, other.models);
      parts := MergeCompositions(parts, other.parts);
    }
  }

  method MergeModels(before: Dict<nat>, items: Dict<nat>) returns (models: Dict<nat>)
    requires items.WellFormed()
    ensures models == MergeTotals(before, items, |items.keys|)
  {
    models := before;
    for i := 0 to |items.keys|
      invariant models == MergeTotals(before, items, i)
    {
      var accepted := Slot(models.keys, items.keys[i]);
      models := models.Put(accepted, models.Get(accepted, 0) + items.values[items.keys[i]]);
    }
  }

  method MergeCompositions(before: Dict<Counters>, items: Dict<Counters>) returns (parts: Dict<Counters>)
    requires items.WellFormed()
    ensures parts == MergeParts(before, items, |items.keys|)
  {
    parts := before;
    for i := 0 to |items.keys|
      invariant parts == MergeParts(before, items, i)
    {
      var accepted := Slot(parts.keys, items.keys[i]);
      parts := parts.Put(accepted, Sum(parts.Get(accepted, NoCounters()), items.values[items.keys[i]]));
    }
  }

  ghost function MergedAll(days: seq<Composition>): Composition
    requires forall day <- days :: Mergeable(day)
  {
    if days == [] then EmptyComposition() else Merged(MergedAll(days[..|days| - 1]), days[|days| - 1])
  }

  function SumTotals(days: seq<Composition>): Counters {
    if days == [] then NoCounters() else Sum(SumTotals(days[..|days| - 1]), days[|days| - 1].total)
  }

  /** Merging complete days gives a complete whole whose counters are the sum over the days. */
  lemma {:induction false} CumulativeIsComplete(days: seq<Composition>)
    requires forall day <- days :: Mergeable(day) && Complete(day)
    ensures Complete(MergedAll(days)) && MergedAll(days).total == SumTotals(days)
  {
    if days == [] {
      EmptyIsComplete();
    } else {
      assert days[|days| - 1] in days;
      CumulativeIsComplete(days[..|days| - 1]);
      MergeKeepsComplete(MergedAll(days[..|days| - 1]), days[|days| - 1]);
    }
  }

  // ---- The rows of a ledger ----

  /** A day row and the composition it keeps. */
  predicate RowHolds(row: AuditDay, c: Composition) {
    row.total == c.total && row.models == c.models.values && row.compositions == c.parts.values
  }

  ghost predicate RowIs(row: AuditDay, c: Composition) {
    RowHolds(row, c) && Complete(c)
  }

  lemma {:induction false} DistinctNames(names: seq<string>)
    requires forall i, j | 0 <= i < j < |names| :: names[i] != names[j]
    ensures |set k | k in names| == |names|
  {
    if names != [] {
      var init, last := names[..|names| - 1], names[|names| - 1];
      DistinctNames(init);
      assert names == init + [last];
      assert (set k | k in names) == (set k | k in init) + {last};
    }
  }

  lemma KeysAreCounted<V>(d: Dict<V>)
    requires d.WellFormed()
    ensures |d.values| == |d.keys|
  {
    DistinctNames(d.keys);
    assert d.values.Keys == set k | k in d.keys;
  }

  lemma SameSlot(row: AuditDay, c: Composition, model: string)
    requires row.models == c.models.values && c.models.WellFormed()
    ensures ModelSlot(row.models, model) == Slot(c.models.keys, model)
  {
    KeysAreCounted(c.models);
  }

  lemma SlotsAreAdded(row: AuditDay, c: Composition, slot: string, u: Usage)
    requires row.models == c.models.values && row.compositions == c.parts.values
    ensures row.models[slot := Lookup(row.models, slot, 0) + u.total] == AddTotalAt(c.models, slot, u.total).values
    ensures row.compositions[slot := Lookup(row.compositions, slot, NoCounters()).Plus(u)]
         == AddPartAt(c.parts, slot, Counters(1, u)).values
  {
  }

  lemma UsageHolds(row: AuditDay, c: Composition, model: string, source: string, u: Usage)
    requires RowHolds(row, c) && c.models.WellFormed()
    ensures RowHolds(AddUsage(row, model, source, u), Added(c, model, u))
  {
    SameSlot(row, c, model);
    SlotsAreAdded(row, c, Slot(c.models.keys, model), u);
  }

  lemma UsageIsAdded(row: AuditDay, c: Composition, model: string, source: string, u: Usage)
    requires RowIs(row, c)
    ensures RowIs(AddUsage(row, model, source, u), Added(c, model, u))
  {
    UsageHolds(row, c, model, source, u);
    AddKeepsComplete(c, model, u);
  }

  ghost predicate HasComposition(row: AuditDay) {
    exists c: Composition :: RowIs(row, c)
  }

  lemma EventKeepsRows(env: Env, days: Days, e: TokenEvent, d: Day)
    requires HasComposition(Lookup(days, d, EmptyDay()))
    ensures HasComposition(Lookup(AddEvent(env, days, e), d, EmptyDay()))
  {
    var row := Lookup(days, d, EmptyDay());
    var c: Composition :| RowIs(row, c);
    assert RowIs(NoteInDay(row, e), c);
    UsageIsAdded(NoteInDay(row, e), c, e.model, e.source, e.usage);
    assert RowIs(AddToDay(row, e), if e.usage.total == 0 then c else Added(c, e.model, e.usage));
    assert Lookup(AddEvent(env, days, e), d, EmptyDay()) in {row, AddToDay(row, e)};
  }

  lemma {:induction false} EventsKeepRows(env: Env, days: Days, events: seq<TokenEvent>, d: Day)
    requires HasComposition(Lookup(days, d, EmptyDay()))
    ensures HasComposition(Lookup(AddEvents(env, days, events), d, EmptyDay()))
    decreases |events|
  {
    if events != [] {
      EventKeepsRows(env, days, events[0], d);
      EventsKeepRows(env, AddEvent(env, days, events[0]), events[1..], d);
    }
  }

  /** The per-model split of a row adds up to the row, in every counter, under at most 129 names. */
  ghost predicate CompleteRow(row: AuditDay) {
    && SumParts(row.compositions) == row.total && row.models.Keys == row.compositions.Keys
    && (forall m <- row.models :: row.models[m] == row.compositions[m].usage.total)
    && (|row.models| <= MAX_SAMPLED_MODELS || (|row.models| == MAX_SAMPLED_MODELS + 1 && "other" in row.models))
  }

  lemma CompositionIsComplete(row: AuditDay)
    requires HasComposition(row)
    ensures CompleteRow(row)
  {
    var c: Composition :| RowIs(row, c);
    KeysAreCounted(c.models);
    assert row.models.Keys == row.compositions.Keys by {
      assert forall m :: m in c.models.values <==> m in c.parts.values;
    }
  }

  lemma {:induction false} RunKeepsRows(env: Env, steps: seq<Step>, d: Day)
    ensures HasComposition(Lookup(Run(env, steps).days, d, EmptyDay()))
  {
    if steps == [] {
      EmptyIsComplete();
      assert RowIs(EmptyDay(), EmptyComposition());
    } else {
      var init, step := steps[..|steps| - 1], steps[|steps| - 1];
      RunKeepsRows(env, init, d);
      var l := Run(env, init);
      if step.Poll? && Possible(l, step) {
        EventsKeepRows(env, l.days, SettleAll(Parsed(env, l, step).1, l.keys).1, d);
      }
    }
  }

  /** Over any run -- with more models than are kept apart, with read errors and reloads -- every day row is
      split by model without loss. */
  lemma RowsOfRunsAreComplete(env: Env, steps: seq<Step>)
    ensures forall d <- Run(env, steps).days :: CompleteRow(Run(env, steps).days[d])
  {
    forall d | d in Run(env, steps).days ensures CompleteRow(Run(env, steps).days[d]) {
      RunKeepsRows(env, steps, d);
      CompositionIsComplete(Run(env, steps).days[d]);
    }
  }
}
