/** The totals shown for a window: models and sources are two readings of the same sum. */
module UsageTotals {
  import opened Prelude
  import opened UsageSeries
  import opened UsageWindows

  /** A provider's declaration for the selected window, if it has one, with its models. */
  datatype Provider = Provider(source: string, tokens: Option<nat>, models: Models) {
    predicate Declares() {
      source != "" && tokens.Some?
    }
  }

  datatype Range = TodayRange | RecordedRange | DatedRange

  ghost predicate DistinctSources(providers: seq<Provider>) {
    forall i, k :: 0 <= i < k < |providers| && providers[i].Declares() && providers[k].Declares()
                   ==> providers[i].source != providers[k].source
  }

  predicate DeclaredBy(providers: seq<Provider>, source: string) {
    exists i :: 0 <= i < |providers| && providers[i].Declares() && providers[i].source == source
  }

  /** Adding every model of one map to another. */
  method AddModels(models: Models, more: Models) returns (after: Models)
    ensures Sum(after) == Sum(models) + Sum(more)
    ensures forall k :: Held(after, k) == Held(models, k) + Held(more, k)
  {
    after := models;
    var rest := more;
    while rest != map[]
      invariant forall k :: k in rest ==> k in more && rest[k] == more[k]
      invariant Sum(after) + Sum(rest) == Sum(models) + Sum(more)
      invariant forall k :: Held(after, k) == Held(models, k) + if k in rest then 0 else Held(more, k)
      decreases |rest|
    {
      var k :| k in rest;
      SumWithout(rest, k);
      SumBump(after, k, rest[k]);
      after := Bump(after, k, rest[k]);
      rest := rest - {k};
    }
  }

  lemma ShownOneMore(rows: seq<Row>, i: nat, source: string)
    requires i < |rows|
    ensures Shown(rows[..i + 1], source)
         == Shown(rows[..i], source) + if rows[i].source == source then rows[i].total else 0
  {
    assert rows[..i + 1] == rows[..i] + [rows[i]];
    TotalOne(rows[i]);
    ShownAfter(rows[..i], [rows[i]], rows[i].source, source);
  }

  method AggregateBySource(rows: seq<Row>) returns (totals: map<string, nat>)
    ensures forall s :: Held(totals, s) == Shown(rows, s)
    ensures Sum(totals) == TotalOf(rows)
    ensures forall s :: s in totals <==> exists r <- rows :: r.source == s
  {
    totals := map[];
    var i := 0;
    while i < |rows|
      invariant 0 <= i <= |rows|
      invariant forall s :: Held(totals, s) == Shown(rows[..i], s)
      invariant Sum(totals) == TotalOf(rows[..i])
      invariant forall s :: s in totals <==> exists r <- rows[..i] :: r.source == s
    {
      assert rows[..i + 1][..i] == rows[..i];
      forall s
        ensures Held(Bump(totals, rows[i].source, rows[i].total), s) == Shown(rows[..i + 1], s)
      {
        ShownOneMore(rows, i, s);
      }
      assert rows[..i + 1] == rows[..i] + [rows[i]];
      SumBump(totals, rows[i].source, rows[i].total);
      totals := Bump(totals, rows[i].source, rows[i].total);
      i := i + 1;
    }
    assert rows[..i] == rows;
  }

  function ModelsAt(models: map<string, Models>, source: string): Models {
    if source in models then models[source] else map[]
  }

  /** Each source's models add up to what its rows show. */
  ghost predicate Tracks(models: map<string, Models>, rows: seq<Row>) {
    forall s :: Sum(ModelsAt(models, s)) == Shown(rows, s)
  }

  lemma TracksOneMore(models: map<string, Models>, rows: seq<Row>, i: nat, merged: Models, after: map<string, Models>)
    requires i < |rows| && AllBalanced(rows) && Tracks(models, rows[..i])
    requires Sum(merged) == Sum(ModelsAt(models, rows[i].source)) + Sum(rows[i].models)
    requires after == models[rows[i].source := merged]
    ensures Tracks(after, rows[..i + 1])
  {
    forall s
      ensures Sum(ModelsAt(after, s)) == Shown(rows[..i + 1], s)
    {
      ShownOneMore(rows, i, s);
      assert Sum(ModelsAt(models, s)) == Shown(rows[..i], s);
      assert Balanced(rows[i]);
      PutModels(models, rows[i].source, merged, s);
    }
  }

  lemma PutModels(models: map<string, Models>, source: string, merged: Models, s: string)
    ensures ModelsAt(models[source := merged], s) == if s == source then merged else ModelsAt(models, s)
  {
  }

  /** What the rows of some sources hold for a model. */
  function ModelShown(rows: seq<Row>, counts: string -> bool, model: string): nat {
    if rows == [] then 0 else
    var last := rows[|rows| - 1];
    ModelShown(rows[..|rows| - 1], counts, model) + if counts(last.source) then Held(last.models, model) else 0
  }

  function Is(source: string): string -> bool {
    s => s == source
  }

  lemma ModelShownNext(rows: seq<Row>, i: nat, counts: string -> bool, model: string)
    requires i < |rows|
    ensures ModelShown(rows[..i + 1], counts, model)
         == ModelShown(rows[..i], counts, model) + if counts(rows[i].source) then Held(rows[i].models, model) else 0
  {
    assert rows[..i + 1][..i] == rows[..i];
  }

  lemma {:induction false} SameSourcesCount(rows: seq<Row>, p: string -> bool, q: string -> bool, model: string)
    requires forall r <- rows :: p(r.source) == q(r.source)
    ensures ModelShown(rows, p, model) == ModelShown(rows, q, model)
  {
    if rows != [] {
      assert rows[|rows| - 1] in rows && forall r <- rows[..|rows| - 1] :: r in rows;
      SameSourcesCount(rows[..|rows| - 1], p, q, model);
    }
  }

  lemma {:induction false} OneMoreSourceCounts(rows: seq<Row>, p: string -> bool, q: string -> bool, source: string,
                                               model: string)
    requires !p(source) && forall s :: q(s) <==> p(s) || s == source
    ensures ModelShown(rows, q, model) == ModelShown(rows, p, model) + ModelShown(rows, Is(source), model)
  {
    if rows != [] {
      OneMoreSourceCounts(rows[..|rows| - 1], p, q, source, model);
    }
  }

  lemma {:induction false} NoSourceCounts(rows: seq<Row>, p: string -> bool, model: string)
    requires forall r <- rows :: !p(r.source)
    ensures ModelShown(rows, p, model) == 0
  {
    if rows != [] {
      assert rows[|rows| - 1] in rows && forall r <- rows[..|rows| - 1] :: r in rows;
      NoSourceCounts(rows[..|rows| - 1], p, model);
    }
  }

  /** Source by source and model by model. */
  ghost predicate Splits(models: map<string, Models>, rows: seq<Row>) {
    forall s, m :: Held(ModelsAt(models, s), m) == ModelShown(rows, Is(s), m)
  }

  lemma SplitsOneMore(models: map<string, Models>, rows: seq<Row>, i: nat, merged: Models, after: map<string, Models>)
    requires i < |rows| && Splits(models, rows[..i])
    requires forall m :: Held(merged, m) == Held(ModelsAt(models, rows[i].source), m) + Held(rows[i].models, m)
    requires after == models[rows[i].source := merged]
    ensures Splits(after, rows[..i + 1])
  {
    forall s, m ensures Held(ModelsAt(after, s), m) == ModelShown(rows[..i + 1], Is(s), m) {
      ModelShownNext(rows, i, Is(s), m);
      assert Held(ModelsAt(models, s), m) == ModelShown(rows[..i], Is(s), m);
      PutModels(models, rows[i].source, merged, s);
    }
  }

  method ModelsBySource(rows: seq<Row>) returns (models: map<string, Models>)
    ensures AllBalanced(rows) ==> Tracks(models, rows)
    ensures Splits(models, rows)
  {
    models := map[];
    EmptyRowIsBalanced();
    var i := 0;
    while i < |rows|
      invariant 0 <= i <= |rows|
      invariant AllBalanced(rows) ==> Tracks(models, rows[..i])
      invariant Splits(models, rows[..i])
    {
      var source := rows[i].source;
      var merged := AddModels(ModelsAt(models, source), rows[i].models);
      SplitsOneMore(models, rows, i, merged, models[source := merged]);
      if AllBalanced(rows) {
        TracksOneMore(models, rows, i, merged, models[source := merged]);
      }
      models := models[source := merged];
      i := i + 1;
    }
    assert rows[..i] == rows;
  }

  /** What the declarations give a model, each scaled to its own total. */
  ghost function DeclaredModel(providers: seq<Provider>, model: string): nat {
    if providers == [] then 0 else
    var p := providers[|providers| - 1];
    DeclaredModel(providers[..|providers| - 1], model)
    + if p.Declares() && model in p.models then ScaledOf(p.models, model, p.tokens.value) else 0
  }

  ghost function ScaledOf(models: Models, model: string, total: nat): nat
    requires model in models
  {
    var raw := Sum(models);
    if raw > total then models[model] * total / raw else models[model]
  }

  ghost predicate HoldsShares(models: Models, providers: seq<Provider>) {
    forall m :: m != UNATTRIBUTED ==> Held(models, m) == DeclaredModel(providers, m)
  }

  lemma SharesNext(models: Models, after: Models, providers: seq<Provider>, i: nat)
    requires i < |providers| && providers[i].Declares() && HoldsShares(models, providers[..i])
    requires forall m :: m != UNATTRIBUTED ==>
               Held(after, m) == Held(models, m)
                                 + if m in providers[i].models
                                   then Scaled(providers[i].models[m], providers[i].tokens.value,
                                               Sum(providers[i].models))
                                   else 0
    ensures HoldsShares(after, providers[..i + 1])
  {
    assert providers[..i + 1][..i] == providers[..i];
  }

  lemma SharesPast(models: Models, providers: seq<Provider>, i: nat)
    requires i < |providers| && HoldsShares(models, providers[..i])
    ensures !providers[i].Declares() ==> HoldsShares(models, providers[..i + 1])
  {
    assert providers[..i + 1][..i] == providers[..i];
  }

  /** Declared sources first: each declaration is normalized to its own total. */
  method DeclaredTotals(providers: seq<Provider>) returns (sources: map<string, nat>, models: Models)
    ensures forall s :: s in sources <==> DeclaredBy(providers, s)
    ensures DistinctSources(providers) ==> Sum(models) == Sum(sources)
    ensures DistinctSources(providers) ==>
              forall i :: 0 <= i < |providers| && providers[i].Declares()
                  ==> Held(sources, providers[i].source) == providers[i].tokens.value
    ensures HoldsShares(models, providers)
  {
    sources, models := map[], map[];
    var i := 0;
    while i < |providers|
      invariant 0 <= i <= |providers|
      invariant forall s :: s in sources <==> DeclaredBy(providers[..i], s)
      invariant DistinctSources(providers) ==> Sum(models) == Sum(sources)
      invariant DistinctSources(providers) ==>
                  forall k :: 0 <= k < i && providers[k].Declares()
                      ==> Held(sources, providers[k].source) == providers[k].tokens.value
      invariant HoldsShares(models, providers[..i])
    {
      var p := providers[i];
      SharesPast(models, providers, i);
      DeclaredOneMore(providers, i);
      if p.Declares() {
        SumPut(sources, p.source, p.tokens.value);
        var after := AddNormalizedModels(models, p.models, p.tokens.value);
        SharesNext(models, after, providers, i);
        models := after;
        sources := sources[p.source := p.tokens.value];
      }
      i := i + 1;
    }
    assert providers[..i] == providers;
  }

  lemma DeclaredOneMore(providers: seq<Provider>, i: nat)
    requires i < |providers|
    ensures forall s :: DeclaredBy(providers[..i + 1], s)
              <==> DeclaredBy(providers[..i], s) || (providers[i].Declares() && providers[i].source == s)
    ensures DistinctSources(providers) && providers[i].Declares() ==> !DeclaredBy(providers[..i], providers[i].source)
  {
    var less, more := providers[..i], providers[..i + 1];
    assert more == less + [providers[i]];
    forall s
      ensures DeclaredBy(more, s) <==> DeclaredBy(less, s) || (providers[i].Declares() && providers[i].source == s)
    {
      if DeclaredBy(less, s) {
        var k :| 0 <= k < |less| && less[k].Declares() && less[k].source == s;
        assert more[k] == less[k];
      }
      assert more[i] == providers[i];
    }
  }

  ghost function Others(providers: seq<Provider>): string -> bool {
    (s: string) => !DeclaredBy(providers, s)
  }

  /** Sources of the rows that declare nothing and have been taken over. */
  function TakesOver(fallback: map<string, nat>, declared: map<string, nat>, rest: map<string, nat>): string -> bool {
    (s: string) => s in fallback && s !in declared && s !in rest
  }

  lemma OthersAreTakenOver(models: Models, models0: Models, rows: seq<Row>, providers: seq<Provider>,
                           fallback: map<string, nat>, declared: map<string, nat>)
    requires Taking(models0, rows, fallback, declared)(models, map[])
    requires forall s :: s in fallback <==> exists r <- rows :: r.source == s
    requires forall s :: s in declared <==> DeclaredBy(providers, s)
    ensures forall m :: Held(models, m) == Held(models0, m) + ModelShown(rows, Others(providers), m)
  {
    forall m ensures Held(models, m) == Held(models0, m) + ModelShown(rows, Others(providers), m) {
      forall r | r in rows
        ensures Others(providers)(r.source) == TakesOver(fallback, declared, map[])(r.source)
      {
        assert r.source in fallback;
      }
      SameSourcesCount(rows, Others(providers), TakesOver(fallback, declared, map[]), m);
    }
  }

  /** Every provider window is normalized; other sources fall back to their rows. */
  method TotalsForProviderWindow(providers: seq<Provider>, rows: seq<Row>)
    returns (sources: map<string, nat>, models: Models)
    ensures DistinctSources(providers) && AllBalanced(rows) ==> Sum(models) == Sum(sources)
    ensures DistinctSources(providers) ==>
              forall i :: 0 <= i < |providers| && providers[i].Declares()
                  ==> Held(sources, providers[i].source) == providers[i].tokens.value
    ensures forall s :: !DeclaredBy(providers, s) ==> Held(sources, s) == Shown(rows, s)
    // a model has its scaled shares of the declarations, and what the rows of the other sources hold for it
    ensures forall m :: m != UNATTRIBUTED ==>
              Held(models, m) == DeclaredModel(providers, m) + ModelShown(rows, Others(providers), m)
  {
    var fallback := AggregateBySource(rows);
    var byModel := ModelsBySource(rows);
    sources, models := DeclaredTotals(providers);
    ghost var declared, shares := sources, models;
    sources, models := AddFallback(sources, models, fallback, byModel, rows);
    OthersAreTakenOver(models, shares, rows, providers, fallback, declared);
  }

  ghost predicate TookOver(models: Models, models0: Models, rows: seq<Row>, fallback: map<string, nat>,
                           sources0: map<string, nat>, rest: map<string, nat>) {
    forall m :: Held(models, m) == Held(models0, m) + ModelShown(rows, TakesOver(fallback, sources0, rest), m)
  }

  /** The same as a function value, which only lemmas unfold. */
  ghost function Taking(models0: Models, rows: seq<Row>, fallback: map<string, nat>, sources0: map<string, nat>)
    : (Models, map<string, nat>) -> bool
  {
    (models: Models, rest: map<string, nat>) => TookOver(models, models0, rows, fallback, sources0, rest)
  }

  lemma TookOverNone(models0: Models, rows: seq<Row>, fallback: map<string, nat>, sources0: map<string, nat>)
    ensures Taking(models0, rows, fallback, sources0)(models0, fallback)
  {
    forall m ensures ModelShown(rows, TakesOver(fallback, sources0, fallback), m) == 0 {
      NoSourceCounts(rows, TakesOver(fallback, sources0, fallback), m);
    }
  }

  lemma TakesOverNext(before: Models, after: Models, models0: Models, rows: seq<Row>, byModel: map<string, Models>,
                      fallback: map<string, nat>, sources0: map<string, nat>, rest: map<string, nat>, source: string)
    requires Taking(models0, rows, fallback, sources0)(before, rest) && Splits(byModel, rows)
    requires forall m :: Held(after, m) == Held(before, m) + Held(ModelsAt(byModel, source), m)
    requires source in rest && source in fallback && source !in sources0
    ensures Taking(models0, rows, fallback, sources0)(after, rest - {source})
  {
    forall m ensures Held(after, m) == Held(models0, m)
                                       + ModelShown(rows, TakesOver(fallback, sources0, rest - {source}), m)
    {
      OneMoreSourceCounts(rows, TakesOver(fallback, sources0, rest), TakesOver(fallback, sources0, rest - {source}),
                          source, m);
      assert Held(ModelsAt(byModel, source), m) == ModelShown(rows, Is(source), m);
    }
  }

  lemma PassesOverNext(models: Models, models0: Models, rows: seq<Row>, fallback: map<string, nat>,
                       sources0: map<string, nat>, rest: map<string, nat>, source: string)
    requires Taking(models0, rows, fallback, sources0)(models, rest) && source in sources0
    ensures Taking(models0, rows, fallback, sources0)(models, rest - {source})
  {
    forall m ensures Held(models, m) == Held(models0, m)
                                        + ModelShown(rows, TakesOver(fallback, sources0, rest - {source}), m)
    {
      SameSourcesCount(rows, TakesOver(fallback, sources0, rest), TakesOver(fallback, sources0, rest - {source}), m);
    }
  }

  /** Sources that are not normalized yet take over their totals and models. */
  method AddFallback(sources0: map<string, nat>, models0: Models, fallback: map<string, nat>,
                     byModel: map<string, Models>, ghost rows: seq<Row>)
    returns (sources: map<string, nat>, models: Models)
    requires Splits(byModel, rows)
    ensures SourcesSoFar(sources, sources0, fallback, map[])
    ensures Balances(fallback, byModel) && Sum(models0) == Sum(sources0) ==> Sum(models) == Sum(sources)
    ensures Taking(models0, rows, fallback, sources0)(models, map[])
  {
    sources, models := sources0, models0;
    TookOverNone(models0, rows, fallback, sources0);
    SourcesStart(sources0, fallback);
    var rest := fallback;
    while rest != map[]
      invariant forall s :: s in rest ==> s in fallback && rest[s] == fallback[s]
      invariant SourcesSoFar(sources, sources0, fallback, rest)
      invariant Balances(fallback, byModel) && Sum(models0) == Sum(sources0) ==> Sum(models) == Sum(sources)
      invariant Taking(models0, rows, fallback, sources0)(models, rest)
      decreases |rest|
    {
      var source :| source in rest;
      if source !in sources0 {
        SourceTakenOver(sources, sources0, fallback, rest, byModel, source);
        var after := AddModels(models, ModelsAt(byModel, source));
        TakesOverNext(models, after, models0, rows, byModel, fallback, sources0, rest, source);
        sources, models := sources[source := rest[source]], after;
      } else {
        SourcePassed(sources, sources0, fallback, rest, source);
        PassesOverNext(models, models0, rows, fallback, sources0, rest, source);
      }
      rest := rest - {source};
    }
  }

  /** The models of every source add up to its total. */
  ghost predicate Balances(fallback: map<string, nat>, byModel: map<string, Models>) {
    forall s :: s in fallback ==> Sum(ModelsAt(byModel, s)) == fallback[s]
  }

  ghost predicate SourcesSoFar(sources: map<string, nat>, sources0: map<string, nat>, fallback: map<string, nat>,
                               rest: map<string, nat>) {
    forall s :: Held(sources, s) == SourceSoFar(sources0, fallback, rest, s)
  }

  function SourceSoFar(sources0: map<string, nat>, fallback: map<string, nat>, rest: map<string, nat>, s: string): nat {
    if s in sources0 then sources0[s] else if s in rest then 0 else Held(fallback, s)
  }

  lemma SourcesStart(sources0: map<string, nat>, fallback: map<string, nat>)
    ensures SourcesSoFar(sources0, sources0, fallback, fallback)
  {
  }

  lemma SourcePassed(sources: map<string, nat>, sources0: map<string, nat>, fallback: map<string, nat>,
                     rest: map<string, nat>, source: string)
    requires SourcesSoFar(sources, sources0, fallback, rest) && source in sources0
    ensures SourcesSoFar(sources, sources0, fallback, rest - {source})
  {
    forall s ensures SourceSoFar(sources0, fallback, rest - {source}, s) == SourceSoFar(sources0, fallback, rest, s) {
    }
  }

  lemma SourceTakenOver(sources: map<string, nat>, sources0: map<string, nat>, fallback: map<string, nat>,
                        rest: map<string, nat>, byModel: map<string, Models>, source: string)
    requires SourcesSoFar(sources, sources0, fallback, rest) && source in rest && source !in sources0
    requires source in fallback && rest[source] == fallback[source]
    ensures SourcesSoFar(sources[source := rest[source]], sources0, fallback, rest - {source})
    ensures Sum(sources[source := rest[source]]) == Sum(sources) + rest[source]
    ensures Balances(fallback, byModel) ==> Sum(ModelsAt(byModel, source)) == rest[source]
  {
    SumPut(sources, source, rest[source]);
    forall s ensures Held(sources[source := rest[source]], s)
                  == SourceSoFar(sources0, fallback, rest - {source}, s)
    {
      assert Held(sources, s) == SourceSoFar(sources0, fallback, rest, s);
    }
  }

  function Every(): string -> bool {
    (s: string) => true
  }

  datatype Projection = Projection(sources: map<string, nat>, models: Models, dated: nat, undated: nat)

  method AggregateByModel(rows: seq<Row>) returns (models: Models)
    ensures AllBalanced(rows) ==> Sum(models) == TotalOf(rows)
    ensures forall m :: Held(models, m) == ModelShown(rows, Every(), m)
  {
    models := map[];
    EmptyRowIsBalanced();
    var i := 0;
    while i < |rows|
      invariant 0 <= i <= |rows|
      invariant AllBalanced(rows) ==> Sum(models) == TotalOf(rows[..i])
      invariant forall m :: Held(models, m) == ModelShown(rows[..i], Every(), m)
    {
      assert rows[..i + 1][..i] == rows[..i];
      forall m ensures ModelShown(rows[..i + 1], Every(), m)
                    == ModelShown(rows[..i], Every(), m) + Held(rows[i].models, m)
      {
        ModelShownNext(rows, i, Every(), m);
      }
      assert AllBalanced(rows) ==> Balanced(rows[i]);
      models := AddModels(models, rows[i].models);
      i := i + 1;
    }
    assert rows[..i] == rows;
  }

  /** Sources and models are those of these declarations, and of the rows of sources that declare nothing. */
  ghost predicate Declares(p: Projection, rows: seq<Row>, providers: seq<Provider>) {
    && (DistinctSources(providers) ==>
          forall i :: 0 <= i < |providers| && providers[i].Declares()
              ==> Held(p.sources, providers[i].source) == providers[i].tokens.value)
    && (forall s :: !DeclaredBy(providers, s) ==> Held(p.sources, s) == Shown(rows, s))
    && (forall m :: m != UNATTRIBUTED ==>
          Held(p.models, m) == DeclaredModel(providers, m) + ModelShown(rows, Others(providers), m))
  }

  /** Model totals and source totals agree, and the dated rows with the undated remainder cover them. */
  method ProjectUsage(rows: seq<Row>, today: seq<Provider>, recorded: seq<Provider>, range: Range)
    returns (p: Projection)
    ensures AllBalanced(rows) && DistinctSources(today) && DistinctSources(recorded) ==> Sum(p.models) == Sum(p.sources)
    ensures p.dated == TotalOf(rows) && p.dated + p.undated == Max(p.dated, Sum(p.sources))
    ensures range == DatedRange ==> p.undated == 0
    // the declarations shown are those of the range, and a dated range shows the rows alone
    ensures range != DatedRange ==> Declares(p, rows, if range == TodayRange then today else recorded)
    ensures range == DatedRange ==> forall s :: Held(p.sources, s) == Shown(rows, s)
    ensures range == DatedRange ==> forall m :: Held(p.models, m) == ModelShown(rows, Every(), m)
  {
    var bySource := AggregateBySource(rows);
    var dated := SumValues(bySource);
    var sources, models;
    match range {
      case TodayRange => sources, models := TotalsForProviderWindow(today, rows);
      case RecordedRange => sources, models := TotalsForProviderWindow(recorded, rows);
      case DatedRange =>
        sources := bySource;
        models := AggregateByModel(rows);
    }
    var selected := SumValues(sources);
    return Projection(sources, models, dated, if selected > dated then selected - dated else 0);
  }
}
