/** Daily totals built from token events, and what they are a function of. */
module CodexDays {
  import opened Folding
  import opened CodexRecords
  import opened CodexParser
  import opened CodexLog

  const MAX_SAMPLED_MODELS: nat := 128

  datatype Counters = Counters(events: nat, usage: Usage) {
    function Plus(u: Usage): Counters {
      Counters(events + 1, usage.Add(u))
    }
  }

  function NoCounters(): Counters {
    Counters(0, ZeroUsage())
  }

  datatype AuditDay = AuditDay(
    total: Counters, models: map<string, nat>, compositions: map<string, Counters>, sources: map<string, nat>,
    records: nat, duplicates: nat, inherited: nat, resets: nat)

  function EmptyDay(): AuditDay {
    AuditDay(NoCounters(), map[], map[], map[], 0, 0, 0, 0)
  }

  type Days = map<Day, AuditDay>

  function Lookup<K, V>(m: map<K, V>, k: K, default: V): V {
    if k in m then m[k] else default
  }

  /** A day keeps at most 128 named models; later ones share one slot. */
  function ModelSlot(models: map<string, nat>, model: string): string {
    if model in models || |models| < MAX_SAMPLED_MODELS then model else "other"
  }

  function AddUsage(day: AuditDay, model: string, source: string, u: Usage): AuditDay {
    var slot := ModelSlot(day.models, model);
    day.(total := day.total.Plus(u),
         models := day.models[slot := Lookup(day.models, slot, 0) + u.total],
         compositions := day.compositions[slot := Lookup(day.compositions, slot, NoCounters()).Plus(u)],
         sources := day.sources[source := Lookup(day.sources, source, 0) + u.total])
  }

  function Tick(b: bool): nat {
    if b then 1 else 0
  }

  function NoteInDay(day: AuditDay, e: TokenEvent): AuditDay {
    day.(records := day.records + 1, duplicates := day.duplicates + Tick(e.duplicate),
         inherited := day.inherited + Tick(e.inherited), resets := day.resets + Tick(e.reset))
  }

  function AddToDay(day: AuditDay, e: TokenEvent): AuditDay {
    if e.usage.total == 0 then NoteInDay(day, e) else AddUsage(NoteInDay(day, e), e.model, e.source, e.usage)
  }

  function AddEvent(env: Env, days: Days, e: TokenEvent): Days {
    var d := env.dayOf(e.at);
    days[d := AddToDay(Lookup(days, d, EmptyDay()), e)]
  }

  function AddStep(env: Env): (Days, TokenEvent) -> Days {
    (days, e) => AddEvent(env, days, e)
  }

  function AddEvents(env: Env, days: Days, events: seq<TokenEvent>): Days {
    Accumulate(AddStep(env), events, days)
  }

  /** Settling emissions on an empty ledger and adding the events up. */
  function DaysOf(env: Env, es: seq<Emission>): Days {
    AddEvents(env, map[], SettleAll(es, {}).1)
  }

  /** A claim always brings usage. */
  predicate Proper(e: Emission) {
    e.Claim? ==> e.usage.total > 0
  }

  // ---- What is credited: the first claim of every key ----

  datatype Contribution = Contribution(day: Day, model: string, source: string, usage: Usage)

  function ContributionOf(env: Env, e: Emission): Contribution
    requires e.Claim?
  {
    Contribution(env.dayOf(e.at), e.model, e.source, e.usage)
  }

  type Credits = map<DedupKey, Contribution>

  function CreditStep(env: Env, credits: Credits, e: Emission): Credits {
    if e.Claim? && e.key !in credits then credits[e.key := ContributionOf(env, e)] else credits
  }

  function Credited(env: Env, es: seq<Emission>): (c: Credits) {
    if es == [] then map[] else CreditStep(env, Credited(env, es[..|es| - 1]), es[|es| - 1])
  }

  /** A day's totals without the cap on models. */
  datatype Tally = Tally(total: Counters, models: map<string, Counters>, sources: map<string, nat>)

  function NoTally(): Tally {
    Tally(NoCounters(), map[], map[])
  }

  function AddContribution(t: Tally, c: Contribution): Tally {
    Tally(t.total.Plus(c.usage),
          AddModels(t.models, c),
          t.sources[c.source := Lookup(t.sources, c.source, 0) + c.usage.total])
  }

  lemma AddContributionCommutes(t: Tally, a: Contribution, b: Contribution)
    ensures AddContribution(AddContribution(t, a), b) == AddContribution(AddContribution(t, b), a)
  {
    ModelsCommute(t.models, a, b);
    var ab, ba := AddContribution(AddContribution(t, a), b), AddContribution(AddContribution(t, b), a);
    assert ab.models == AddModels(AddModels(t.models, a), b) && ba.models == AddModels(AddModels(t.models, b), a);
    assert ab.sources == ba.sources;
  }

  function AddModels(m: map<string, Counters>, c: Contribution): map<string, Counters> {
    m[c.model := Lookup(m, c.model, NoCounters()).Plus(c.usage)]
  }

  lemma ModelsCommute(m: map<string, Counters>, a: Contribution, b: Contribution)
    ensures AddModels(AddModels(m, a), b) == AddModels(AddModels(m, b), a)
  {
  }

  function TallyOn(d: Day): (Tally, Contribution) -> Tally {
    (t: Tally, c: Contribution) => if c.day == d then AddContribution(t, c) else t
  }

  lemma TallyCommutes(d: Day)
    ensures Commutes(TallyOn(d))
  {
    forall t, a, b ensures TallyOn(d)(TallyOn(d)(t, a), b) == TallyOn(d)(TallyOn(d)(t, b), a) {
      AddContributionCommutes(t, a, b);
    }
  }

  /** The tally of one day over the credited keys. */
  ghost function DayTally(credits: Credits, d: Day): Tally {
    FoldMap(TallyOn(d), credits, NoTally())
  }

  // ---- What is noted: counts that do not depend on the keys ----

  datatype Notes = Notes(records: nat, duplicates: nat, resets: nat, gated: nat) {
    function Plus(n: Notes): Notes {
      Notes(records + n.records, duplicates + n.duplicates, resets + n.resets, gated + n.gated)
    }
  }

  function NoNotes(): Notes {
    Notes(0, 0, 0, 0)
  }

  function NoteOf(env: Env, e: Emission, d: Day): Notes {
    if e.Silent? || env.dayOf(e.at) != d then NoNotes()
    else if e.Noted? then Notes(1, Tick(e.duplicate), Tick(e.reset), Tick(e.inherited))
    else Notes(1, 0, Tick(e.reset), 1)
  }

  function NoteStep(env: Env, d: Day): (Notes, Emission) -> Notes {
    (n: Notes, e: Emission) => n.Plus(NoteOf(env, e, d))
  }

  function NotesOf(env: Env, es: seq<Emission>, d: Day): Notes {
    Accumulate(NoteStep(env, d), es, NoNotes())
  }

  lemma NotesSnoc(env: Env, es: seq<Emission>, e: Emission, d: Day)
    ensures NotesOf(env, es + [e], d) == NotesOf(env, es, d).Plus(NoteOf(env, e, d))
  {
    AccumulateConcat(NoteStep(env, d), es, [e], NoNotes());
    AccumulateOne(NoteStep(env, d), e, NotesOf(env, es, d));
  }

  lemma NotesPermuted(env: Env, a: seq<Emission>, b: seq<Emission>, d: Day)
    requires multiset(a) == multiset(b)
    ensures NotesOf(env, a, d) == NotesOf(env, b, d)
  {
    AccumulatePermuted(NoteStep(env, d), a, b, NoNotes());
  }

  /** A day's row says exactly: the tally of its credited keys, the notes of all its records, and every
      gated record either credited or counted as inherited. */
  predicate RowMatches(present: bool, row: AuditDay, t: Tally, n: Notes) {
    && (present <==> n.records > 0)
    && row.total == t.total && row.sources == t.sources
    && row.records == n.records && row.duplicates == n.duplicates && row.resets == n.resets
    && row.inherited + t.total.events == n.gated
  }

  /** The model maps of a row, which agree with the tally while the cap is not hit. */
  ghost predicate ModelsMatch(row: AuditDay, t: Tally) {
    && row.compositions == t.models
    && row.models.Keys == t.models.Keys
    && forall m <- t.models :: row.models[m] == t.models[m].usage.total
  }

  lemma CreditedKeys(env: Env, es: seq<Emission>)
    ensures Credited(env, es).Keys == KeysOf(es)
  {
    if es != [] {
      var init, e := es[..|es| - 1], es[|es| - 1];
      CreditedKeys(env, init);
      assert es == init + [e];
      KeysOfConcat(init, [e]);
      assert KeysOf([e]) == if e.Claim? then {e.key} else {} by {
        if e.Claim? {
          assert [e][0].key == e.key;
        }
      }
    }
  }

  lemma KeysOfConcat(a: seq<Emission>, b: seq<Emission>)
    ensures KeysOf(a + b) == KeysOf(a) + KeysOf(b)
  {
    forall k | k in KeysOf(a) + KeysOf(b) ensures k in KeysOf(a + b) {
      if k in KeysOf(a) {
        var i :| 0 <= i < |a| && a[i].Claim? && a[i].key == k;
        assert (a + b)[i].key == k;
      } else {
        var i :| 0 <= i < |b| && b[i].Claim? && b[i].key == k;
        assert (a + b)[|a| + i].key == k;
      }
    }
  }

  lemma DaysOfSnoc(env: Env, es: seq<Emission>, e: Emission)
    ensures var event := Settle(e, KeysOf(es)).0;
            var days := DaysOf(env, es);
            DaysOf(env, es + [e]) == if event.Some? then AddEvent(env, days, event.value) else days
  {
    FoldConcat(SettleStep(), es, [e], {});
    SettledKeys(es, {});
    FoldOne(SettleStep(), e, KeysOf(es));
    var more := SettleStep()(KeysOf(es), e).1;
    AccumulateConcat(AddStep(env), SettleAll(es, {}).1, more, map[]);
    if more != [] {
      AccumulateOne(AddStep(env), more[0], DaysOf(env, es));
    }
  }

  lemma SlotIsModel(row: AuditDay, t: Tally, c: Contribution)
    requires ModelsMatch(row, t) && |AddContribution(t, c).models| <= MAX_SAMPLED_MODELS
    ensures ModelSlot(row.models, c.model) == c.model
  {
    var t' := AddContribution(t, c);
    assert t'.models.Keys == t.models.Keys + {c.model};
    assert |t'.models.Keys| == if c.model in t.models then |t.models.Keys| else |t.models.Keys| + 1;
    assert |row.models.Keys| == |t.models.Keys|;
  }

  lemma ModelsAfterUsage(row: AuditDay, t: Tally, c: Contribution)
    requires |t.models| <= MAX_SAMPLED_MODELS ==> ModelsMatch(row, t)
    ensures var t' := AddContribution(t, c);
            |t'.models| <= MAX_SAMPLED_MODELS ==> ModelsMatch(AddUsage(row, c.model, c.source, c.usage), t')
  {
    var t' := AddContribution(t, c);
    if |t'.models| <= MAX_SAMPLED_MODELS {
      assert t'.models.Keys == t.models.Keys + {c.model};
      assert |t.models.Keys| <= |t'.models.Keys|;
      SlotIsModel(row, t, c);
    }
  }

  lemma RowAfterUsage(present: bool, row: AuditDay, t: Tally, n: Notes, c: Contribution, e: TokenEvent)
    requires RowMatches(present, row, t, n)
    requires !e.duplicate && !e.inherited && e.usage.total > 0
    requires c.source == e.source && c.usage == e.usage
    ensures RowMatches(true, AddToDay(row, e), AddContribution(t, c), n.Plus(Notes(1, 0, Tick(e.reset), 1)))
  {
    var noted := NoteInDay(row, e);
    assert noted.total == t.total && noted.sources == t.sources;
    var row' := AddUsage(noted, e.model, e.source, e.usage);
    assert row'.records == noted.records && row'.duplicates == noted.duplicates && row'.inherited == noted.inherited;
  }

  lemma RowAfterNote(present: bool, row: AuditDay, t: Tally, n: Notes, e: TokenEvent)
    requires RowMatches(present, row, t, n) && e.usage.total == 0
    ensures RowMatches(true, AddToDay(row, e), t, n.Plus(Notes(1, Tick(e.duplicate), Tick(e.reset), Tick(e.inherited))))
  {
  }

  function RowAfter(env: Env, row: AuditDay, keys: set<DedupKey>, e: Emission, d: Day): AuditDay {
    var event := Settle(e, keys).0;
    if event.Some? && env.dayOf(e.at) == d then AddToDay(row, event.value) else row
  }

  function TallyAfter(env: Env, t: Tally, keys: set<DedupKey>, e: Emission, d: Day): Tally {
    if e.Claim? && e.key !in keys && env.dayOf(e.at) == d then AddContribution(t, ContributionOf(env, e)) else t
  }

  lemma TallyStep(env: Env, credits: Credits, e: Emission, d: Day)
    ensures DayTally(CreditStep(env, credits, e), d) == TallyAfter(env, DayTally(credits, d), credits.Keys, e, d)
  {
    if e.Claim? && e.key !in credits {
      TallyCommutes(d);
      FoldMapInsert(TallyOn(d), credits, e.key, ContributionOf(env, e), NoTally());
    }
  }

  lemma RowUpdated(env: Env, days: Days, d: Day, keys: set<DedupKey>, e: Emission)
    ensures var event := Settle(e, keys).0;
            var days' := if event.Some? then AddEvent(env, days, event.value) else days;
            && Lookup(days', d, EmptyDay()) == RowAfter(env, Lookup(days, d, EmptyDay()), keys, e, d)
            && (d in days' <==> d in days || (!e.Silent? && env.dayOf(e.at) == d))
  {
  }

  lemma RowStep(env: Env, present: bool, row: AuditDay, t: Tally, n: Notes, keys: set<DedupKey>, e: Emission, d: Day)
    requires Proper(e) && RowMatches(present, row, t, n)
    ensures RowMatches(present || (!e.Silent? && env.dayOf(e.at) == d), RowAfter(env, row, keys, e, d),
                       TallyAfter(env, t, keys, e, d), n.Plus(NoteOf(env, e, d)))
  {
    var event := Settle(e, keys).0;
    if event.Some? && env.dayOf(e.at) == d {
      if event.value.usage.total > 0 {
        RowAfterUsage(present, row, t, n, ContributionOf(env, e), event.value);
      } else {
        RowAfterNote(present, row, t, n, event.value);
      }
    }
  }

  lemma ModelsStep(env: Env, row: AuditDay, t: Tally, keys: set<DedupKey>, e: Emission, d: Day)
    requires Proper(e)
    requires |t.models| <= MAX_SAMPLED_MODELS ==> ModelsMatch(row, t)
    ensures var t' := TallyAfter(env, t, keys, e, d);
            |t'.models| <= MAX_SAMPLED_MODELS ==> ModelsMatch(RowAfter(env, row, keys, e, d), t')
  {
    var event := Settle(e, keys).0;
    if event.Some? && event.value.usage.total > 0 && env.dayOf(e.at) == d {
      ModelsAfterUsage(NoteInDay(row, event.value), t, ContributionOf(env, e));
    }
  }

  /** Every row of a ledger is a function of the credited keys and the notes. */
  lemma {:induction false} RowsAreTallies(env: Env, es: seq<Emission>, d: Day)
    requires forall e <- es :: Proper(e)
    ensures var days, t := DaysOf(env, es), DayTally(Credited(env, es), d);
            && RowMatches(d in days, Lookup(days, d, EmptyDay()), t, NotesOf(env, es, d))
            && (|t.models| <= MAX_SAMPLED_MODELS ==> ModelsMatch(Lookup(days, d, EmptyDay()), t))
  {
    if es == [] {
      assert DaysOf(env, es) == map[];
    } else {
      var init, e := es[..|es| - 1], es[|es| - 1];
      assert es == init + [e];
      NotesSnoc(env, init, e, d);
      RowsAreTallies(env, init, d);
      DaysOfSnoc(env, init, e);
      CreditedKeys(env, init);
      TallyStep(env, Credited(env, init), e, d);
      var days, t, keys := DaysOf(env, init), DayTally(Credited(env, init), d), KeysOf(init);
      RowUpdated(env, days, d, keys, e);
      RowStep(env, d in days, Lookup(days, d, EmptyDay()), t, NotesOf(env, init, d), keys, e, d);
      ModelsStep(env, Lookup(days, d, EmptyDay()), t, keys, e, d);
    }
  }
}
