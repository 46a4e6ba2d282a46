/** Which parts of a ledger depend on the order in which records arrived, and which do not. */
module CodexAgreement {
  import opened Folding
  import opened CodexRecords
  import opened CodexParser
  import opened CodexLog
  import opened CodexDays

  // ---- Counting keys ----

  function EventStep(): (nat, AuditDay) -> nat {
    (n: nat, row: AuditDay) => n + row.total.events
  }

  /** All events counted on any day. */
  ghost function SumEvents(days: Days): nat {
    FoldMap(EventStep(), days, 0)
  }

  lemma SumEventsAfter(env: Env, days: Days, e: TokenEvent)
    ensures SumEvents(AddEvent(env, days, e)) == SumEvents(days) + Tick(e.usage.total > 0)
  {
    var d := env.dayOf(e.at);
    FoldMapPut(EventStep(), days, d, AddToDay(Lookup(days, d, EmptyDay()), e), 0);
    if d in days {
      FoldMapWithout(EventStep(), days, d, 0);
    } else {
      assert days - {d} == days;
    }
  }

  /** Settling adds one counted event for every key it inserts, and none otherwise. */
  lemma {:induction false} EventsCountKeys(env: Env, es: seq<Emission>, keys: set<DedupKey>, days: Days)
    requires forall e <- es :: Proper(e)
    ensures var (keys', events) := SettleAll(es, keys);
            SumEvents(AddEvents(env, days, events)) + |keys| == SumEvents(days) + |keys'|
    decreases |es|
  {
    if es != [] {
      var init, e := es[..|es| - 1], es[|es| - 1];
      assert es == init + [e];
      var (keys1, events1) := SettleAll(init, keys);
      EventsCountKeys(env, init, keys, days);
      FoldConcat(SettleStep(), init, [e], keys);
      FoldOne(SettleStep(), e, keys1);
      AccumulateConcat(AddStep(env), events1, SettleStep()(keys1, e).1, days);
      EventsCountKey(env, e, keys1, AddEvents(env, days, events1));
    }
  }

  lemma EventsCountKey(env: Env, e: Emission, keys: set<DedupKey>, days: Days)
    requires Proper(e)
    ensures var (keys', events) := SettleStep()(keys, e);
            SumEvents(AddEvents(env, days, events)) + |keys| == SumEvents(days) + |keys'|
  {
    var (keys', events) := SettleStep()(keys, e);
    if events != [] {
      assert events == [events[0]];
      AccumulateOne(AddStep(env), events[0], days);
      SumEventsAfter(env, days, events[0]);
    }
    if e.Claim? && e.key !in keys {
      assert |keys + {e.key}| == |keys| + 1;
      assert events[0].usage == e.usage;
    } else if e.Claim? {
      assert keys + {e.key} == keys;
    }
  }

  // ---- Order ----

  /** Records that claim one key claim the same thing. */
  predicate Consistent(env: Env, es: seq<Emission>) {
    forall i, j | 0 <= i < |es| && 0 <= j < |es| && es[i].Claim? && es[j].Claim? && es[i].key == es[j].key ::
      ContributionOf(env, es[i]) == ContributionOf(env, es[j])
  }

  lemma {:induction false} CreditIsSomeClaim(env: Env, es: seq<Emission>, k: DedupKey) returns (i: nat)
    requires k in Credited(env, es)
    ensures i < |es| && es[i].Claim? && es[i].key == k && Credited(env, es)[k] == ContributionOf(env, es[i])
  {
    var init := es[..|es| - 1];
    if k in Credited(env, init) {
      i := CreditIsSomeClaim(env, init, k);
    } else {
      i := |es| - 1;
    }
  }

  lemma SameBagSameElements(a: seq<Emission>, b: seq<Emission>, i: nat) returns (j: nat)
    requires multiset(a) == multiset(b) && i < |a|
    ensures j < |b| && b[j] == a[i]
  {
    assert a[i] in multiset(b);
    j :| 0 <= j < |b| && b[j] == a[i];
  }

  lemma SameBagSameKeys(a: seq<Emission>, b: seq<Emission>)
    requires multiset(a) == multiset(b)
    ensures KeysOf(a) == KeysOf(b)
  {
    forall k | k in KeysOf(a) ensures k in KeysOf(b) {
      var i :| 0 <= i < |a| && a[i].Claim? && a[i].key == k;
      var j := SameBagSameElements(a, b, i);
    }
    forall k | k in KeysOf(b) ensures k in KeysOf(a) {
      var i :| 0 <= i < |b| && b[i].Claim? && b[i].key == k;
      var j := SameBagSameElements(b, a, i);
    }
  }

  lemma SameBagSameCredits(env: Env, a: seq<Emission>, b: seq<Emission>)
    requires multiset(a) == multiset(b) && Consistent(env, a)
    ensures Credited(env, a) == Credited(env, b)
  {
    SameBagSameKeys(a, b);
    CreditedKeys(env, a);
    CreditedKeys(env, b);
    forall k | k in Credited(env, a) ensures Credited(env, a)[k] == Credited(env, b)[k] {
      var i := CreditIsSomeClaim(env, a, k);
      var j := CreditIsSomeClaim(env, b, k);
      var j' := SameBagSameElements(b, a, j);
    }
  }

  predicate SameModels(x: AuditDay, y: AuditDay) {
    x.models == y.models && x.compositions == y.compositions
  }

  predicate SameRow(x: AuditDay, y: AuditDay) {
    && x.total == y.total && x.sources == y.sources && x.records == y.records
    && x.duplicates == y.duplicates && x.inherited == y.inherited && x.resets == y.resets
  }

  /** Two ledgers with the same days and the same rows. Per-model splits are the same too on every day whose
      credited usage names at most 128 models; past that the shared slot depends on arrival order. */
  ghost predicate SameDays(x: Days, y: Days, credits: Credits) {
    && x.Keys == y.Keys
    && forall d <- x :: SameRow(x[d], y[d])
                        && (|DayTally(credits, d).models| <= MAX_SAMPLED_MODELS ==> SameModels(x[d], y[d]))
  }

  /** The rows follow from the credited keys and the bag of emissions. */
  lemma SameCreditsSameDays(env: Env, a: seq<Emission>, b: seq<Emission>)
    requires multiset(a) == multiset(b) && Credited(env, a) == Credited(env, b)
    requires forall e <- a :: Proper(e)
    ensures SameDays(DaysOf(env, a), DaysOf(env, b), Credited(env, a))
  {
    forall e | e in b ensures Proper(e) {
      assert e in multiset(b);
    }
    var x, y := DaysOf(env, a), DaysOf(env, b);
    forall d: Day
      ensures (d in x <==> d in y)
      ensures d in x ==> SameRow(x[d], y[d])
      ensures d in x && |DayTally(Credited(env, a), d).models| <= MAX_SAMPLED_MODELS ==> SameModels(x[d], y[d])
    {
      RowsAreTallies(env, a, d);
      RowsAreTallies(env, b, d);
      NotesPermuted(env, a, b, d);
    }
    assert forall d <- x.Keys :: d in y.Keys;
    assert forall d <- y.Keys :: d in x.Keys;
  }

  /** The order of the records does not matter, as long as equal keys claim equal things. */
  lemma OrderDoesNotMatter(env: Env, a: seq<Emission>, b: seq<Emission>)
    requires multiset(a) == multiset(b) && Consistent(env, a)
    requires forall e <- a :: Proper(e)
    ensures SameDays(DaysOf(env, a), DaysOf(env, b), Credited(env, a))
  {
    SameBagSameCredits(env, a, b);
    SameCreditsSameDays(env, a, b);
  }

  /** Of two stretches of emissions the earlier one is credited where both claim a key. */
  lemma {:induction false} CreditedConcat(env: Env, a: seq<Emission>, b: seq<Emission>)
    ensures Credited(env, a + b) == Credited(env, b) + Credited(env, a)
  {
    if b == [] {
      assert a + b == a;
    } else {
      var init := b[..|b| - 1];
      assert (a + b)[..|a + b| - 1] == a + init;
      CreditedConcat(env, a, init);
    }
  }
}
