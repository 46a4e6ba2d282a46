/** Time order and size of the journal over every run. */
module DiagnosticBounds {
  import opened Prelude
  import opened Folding
  import opened DiagnosticJournal

  function EventIn(e: LogEntry): seq<Event> {
    if e.Emitted? then [e.event] else []
  }

  function EmittedOf(log: seq<LogEntry>): seq<Event> {
    if log == [] then [] else EventIn(log[0]) + EmittedOf(log[1..])
  }

  lemma {:induction false} EmittedConcat(a: seq<LogEntry>, b: seq<LogEntry>)
    ensures EmittedOf(a + b) == EmittedOf(a) + EmittedOf(b)
  {
    if a == [] {
      assert a + b == b;
    } else {
      assert (a + b)[1..] == a[1..] + b;
      EmittedConcat(a[1..], b);
      Associate(EventIn(a[0]), EmittedOf(a[1..]), EmittedOf(b));
    }
  }

  lemma Associate<T>(a: seq<T>, b: seq<T>, c: seq<T>)
    ensures a + b + c == a + (b + c)
  {
  }

  lemma EmittedAfter(emitted: seq<Event>, a: seq<LogEntry>, b: seq<LogEntry>)
    ensures emitted + EmittedOf(a + b) == emitted + EmittedOf(a) + EmittedOf(b)
  {
    EmittedConcat(a, b);
    Associate(emitted, EmittedOf(a), EmittedOf(b));
  }

  /** Numbers and times rise together, and no episode starts after its events. */
  predicate InOrder(events: seq<Event>, next: nat, latest: int) {
    && (forall i :: 0 <= i < |events| ==> events[i].number < next && events[i].started <= events[i].at <= latest)
    && (forall i, k :: 0 <= i < k < |events| ==> events[i].number < events[k].number && events[i].at <= events[k].at)
  }

  predicate IsSuffix<T(==)>(a: seq<T>, b: seq<T>) {
    |a| <= |b| && a == b[|b| - |a|..]
  }

  /** The tables agree with each other and with every event emitted so far. */
  ghost predicate Consistent(j: Journal, emitted: seq<Event>, now: int) {
    && InOrder(emitted, j.nextNumber, now)
    && IsSuffix(j.events, emitted)
    && (forall id :: id in j.active ==> id in j.checks && j.active[id].started <= now)
  }

  ghost predicate Bounded(j: Journal, now: int) {
    && |j.active| <= 512 && |j.checks| <= 1024 && |j.events| <= 10000
    && forall i :: 0 <= i < |j.events| ==> j.events[i].at >= now - 30 * 86400
  }

  lemma RecordedEmits(j: Journal, c: Check, now: int)
    ensures Recorded(j, c, now).events == j.events + EmittedOf(NewEvents(j, Recorded(j, c, now)))
    ensures |NewEvents(j, Recorded(j, c, now))| <= 1
  {
    var after := Recorded(j, c, now);
    if after.events != j.events {
      assert after.events == j.events + [after.events[|j.events|]];
      assert NewEvents(j, after) == [Emitted(after.events[|j.events|])];
      assert NewEvents(j, after)[1..] == [];
    }
  }

  lemma RecordedStaysConsistent(j: Journal, c: Check, now: int, emitted: seq<Event>)
    requires Consistent(j, emitted, now)
    ensures Consistent(Recorded(j, c, now), emitted + EmittedOf(NewEvents(j, Recorded(j, c, now))), now)
  {
    RecordedEmits(j, c, now);
    SuffixAppend(j.events, emitted, EmittedOf(NewEvents(j, Recorded(j, c, now))));
    RecordedInOrder(j, c, now, emitted);
    RecordedIsCovered(j, c, now);
  }

  lemma RecordedIsCovered(j: Journal, c: Check, now: int)
    requires forall id :: id in j.active ==> id in j.checks && j.active[id].started <= now
    ensures var after := Recorded(j, c, now);
            forall id :: id in after.active ==> id in after.checks && after.active[id].started <= now
  {
  }

  lemma RecordedInOrder(j: Journal, c: Check, now: int, emitted: seq<Event>)
    requires InOrder(emitted, j.nextNumber, now)
    requires forall id :: id in j.active ==> j.active[id].started <= now
    ensures var after := Recorded(j, c, now);
            InOrder(emitted + EmittedOf(NewEvents(j, after)), after.nextNumber, now)
  {
    var after := Recorded(j, c, now);
    RecordedEmits(j, c, now);
    var added := EmittedOf(NewEvents(j, after));
    assert after.events[|j.events|..] == added;
    RecordedEvent(j, c, now);
    if added == [] {
      assert emitted + [] == emitted;
    } else {
      AppendedInOrder(emitted, added[0], j.nextNumber, now);
    }
  }

  lemma RecordedEvent(j: Journal, c: Check, now: int)
    requires forall id :: id in j.active ==> j.active[id].started <= now
    ensures var after := Recorded(j, c, now);
            if |after.events| == |j.events| then after.nextNumber == j.nextNumber
            else |after.events| == |j.events| + 1 && after.nextNumber == j.nextNumber + 1
                 && var e := after.events[|j.events|..][0];
                    e.number == j.nextNumber && e.at == now && e.started <= now
  {
  }

  lemma AppendedInOrder(events: seq<Event>, e: Event, next: nat, now: int)
    requires InOrder(events, next, now) && e.number == next && e.at == now && e.started <= now
    ensures InOrder(events + [e], next + 1, now)
  {
  }

  lemma SuffixAppend<T>(a: seq<T>, b: seq<T>, more: seq<T>)
    requires IsSuffix(a, b)
    ensures IsSuffix(a + more, b + more)
  {
  }

  lemma {:induction false} ChecksStayConsistent(j: Journal, cs: seq<Check>, now: int, emitted: seq<Event>)
    requires Consistent(j, emitted, now)
    ensures var (after, log) := Fold(RecordStep(now), cs, j);
            Consistent(after, emitted + EmittedOf(log), now)
    decreases |cs|
  {
    if cs == [] {
      assert emitted + [] == emitted;
    } else {
      var (next, first) := RecordStep(now)(j, cs[0]);
      var (after, rest) := Fold(RecordStep(now), cs[1..], next);
      RecordedStaysConsistent(j, cs[0], now, emitted);
      ChecksStayConsistent(next, cs[1..], now, emitted + EmittedOf(first));
      EmittedAfter(emitted, first, rest);
    }
  }

  // ---- Retention ----

  lemma {:induction false} RecentIsSuffix(events: seq<Event>, cutoff: int, next: nat, now: int)
    requires InOrder(events, next, now)
    ensures IsSuffix(Recent(events, cutoff), events)
    ensures forall i :: 0 <= i < |Recent(events, cutoff)| ==> Recent(events, cutoff)[i].at >= cutoff
  {
    if events == [] {
    } else if events[0].at < cutoff {
      RecentIsSuffix(events[1..], cutoff, next, now);
    } else {
      AllRecent(events, cutoff);
    }
  }

  lemma {:induction false} AllRecent(events: seq<Event>, cutoff: int)
    requires forall i :: 0 <= i < |events| ==> events[i].at >= cutoff
    ensures Recent(events, cutoff) == events
  {
    if events != [] {
      AllRecent(events[1..], cutoff);
    }
  }

  lemma SuffixOfSuffix<T>(a: seq<T>, b: seq<T>, c: seq<T>)
    requires IsSuffix(a, b) && IsSuffix(b, c)
    ensures IsSuffix(a, c)
  {
  }

  lemma SuffixInOrder(a: seq<Event>, b: seq<Event>, next: nat, now: int)
    requires IsSuffix(a, b) && InOrder(b, next, now)
    ensures InOrder(a, next, now)
  {
    var d := |b| - |a|;
    assert forall i :: 0 <= i < |a| ==> a[i] == b[d + i];
  }

  lemma KeptActiveFits(active: map<Id, Condition>)
    ensures |KeptActive(active)| <= MAX_ACTIVE
    ensures |active| <= MAX_ACTIVE ==> KeptActive(active) == active
    ensures forall a, b :: a in KeptActive(active) && b in active && b !in KeptActive(active)
              ==> active[a].evidence >= active[b].evidence
  {
    var score := EvidenceOf(active);
    assert score.Keys == active.Keys;
    assert |score| == |score.Keys| == |active.Keys| == |active|;
    TopSize(score, MAX_ACTIVE);
    var kept := KeptActive(active);
    assert kept.Keys == Top(score, MAX_ACTIVE);
    assert |kept| == |kept.Keys|;
    forall a, b | a in kept && b in active && b !in kept
      ensures active[a].evidence >= active[b].evidence
    {
      KeptRankAhead(score, MAX_ACTIVE, a, b);
    }
  }

  lemma KeptChecksKeys(checks: map<Id, Coverage>, active: map<Id, Condition>, cutoff: int)
    requires |active| <= MAX_CHECKS
    ensures KeptChecks(checks, active, cutoff).Keys
         <= active.Keys + Top(Idle(checks, active, cutoff), MAX_CHECKS - |active|)
  {
  }

  lemma KeptChecksFit(checks: map<Id, Coverage>, active: map<Id, Condition>, cutoff: int)
    requires |active| <= MAX_CHECKS
    ensures |KeptChecks(checks, active, cutoff)| <= MAX_CHECKS
  {
    var room := MAX_CHECKS - |active|;
    TopSize(Idle(checks, active, cutoff), room);
    KeptChecksKeys(checks, active, cutoff);
    KeysWithin(KeptChecks(checks, active, cutoff), active, Top(Idle(checks, active, cutoff), room));
  }

  lemma KeysWithin<V, W>(kept: map<Id, V>, a: map<Id, W>, b: set<Id>)
    requires kept.Keys <= a.Keys + b && |a| + |b| <= MAX_CHECKS
    ensures |kept| <= MAX_CHECKS
  {
    assert |kept| == |kept.Keys| && |a| == |a.Keys|;
    WithinUnion(kept.Keys, a.Keys, b, MAX_CHECKS);
  }

  lemma WithinUnion(kept: set<Id>, a: set<Id>, b: set<Id>, limit: nat)
    requires kept <= a + b && |a| + |b| <= limit
    ensures |kept| <= limit
  {
    SubsetSize(kept, a + b);
    UnionSize(a, b);
  }

  lemma UnionSize(a: set<Id>, b: set<Id>)
    ensures |a + b| <= |a| + |b|
  {
    assert a + b == a + (b - a);
    SubsetSize(b - a, b);
  }

  lemma RetainedFits(j: Journal, emitted: seq<Event>, now: int)
    requires Consistent(j, emitted, now)
    ensures Consistent(Retained(j, now), emitted, now) && Bounded(Retained(j, now), now)
  {
    SuffixInOrder(j.events, emitted, j.nextNumber, now);
    RecentIsSuffix(j.events, now - RETENTION, j.nextNumber, now);
    var recent := Recent(j.events, now - RETENTION);
    SuffixOfSuffix(recent, j.events, emitted);
    SuffixOfSuffix(Newest(recent, MAX_EVENTS), recent, emitted);
    KeptActiveFits(j.active);
    KeptChecksFit(j.checks, KeptActive(j.active), now - RETENTION);
  }

  // ---- Any run ----

  /** Before the first observation nothing is stored. */
  ghost predicate Holds(j: Journal, emitted: seq<Event>) {
    if j.observedAt.None? then j == EmptyJournal() && emitted == []
    else Consistent(j, emitted, j.observedAt.value) && Bounded(j, j.observedAt.value)
  }

  lemma OpenedIsConsistent(j: Journal, o: Observation, emitted: seq<Event>)
    requires Holds(j, emitted) && (j.observedAt.Some? ==> o.now >= j.observedAt.value)
    ensures Consistent(Opened(j, o), emitted, o.now)
  {
  }

  lemma ObservationHolds(j: Journal, o: Observation, emitted: seq<Event>)
    requires Holds(j, emitted)
    ensures Holds(ObservedBy(j, o).0, emitted + EmittedOf(ObservedBy(j, o).1))
  {
    if !o.commits || (j.observedAt.Some? && o.now < j.observedAt.value) {
      assert emitted + [] == emitted;
    } else {
      OpenedIsConsistent(j, o, emitted);
      var (recorded, log) := Fold(RecordStep(o.now), o.checks, Opened(j, o));
      ChecksStayConsistent(Opened(j, o), o.checks, o.now, emitted);
      RetainedFits(recorded, emitted + EmittedOf(log), o.now);
      EvictionEmitsNothing(log, recorded.active.Keys - Retained(recorded, o.now).active.Keys);
      ChecksKeepTheClock(Opened(j, o), o.checks, o.now);
    }
  }

  lemma EvictionEmitsNothing(log: seq<LogEntry>, ids: set<Id>)
    ensures EmittedOf(log + [Evicted(ids)]) == EmittedOf(log)
  {
    EmittedConcat(log, [Evicted(ids)]);
    assert [Evicted(ids)][1..] == [];
    assert EmittedOf(log) + [] == EmittedOf(log);
  }

  lemma {:induction false} ChecksKeepTheClock(j: Journal, cs: seq<Check>, now: int)
    ensures Fold(RecordStep(now), cs, j).0.observedAt == j.observedAt
    decreases |cs|
  {
    if cs != [] {
      ChecksKeepTheClock(Recorded(j, cs[0], now), cs[1..], now);
    }
  }

  lemma {:induction false} RunHolds(j: Journal, os: seq<Observation>, emitted: seq<Event>)
    requires Holds(j, emitted)
    ensures var (after, log) := Fold(ObserveStep(), os, j);
            Holds(after, emitted + EmittedOf(log))
    decreases |os|
  {
    if os == [] {
      assert emitted + [] == emitted;
    } else {
      var (next, first) := ObserveStep()(j, os[0]);
      var (after, rest) := Fold(ObserveStep(), os[1..], next);
      ObservationHolds(j, os[0], emitted);
      RunHolds(next, os[1..], emitted + EmittedOf(first));
      EmittedAfter(emitted, first, rest);
    }
  }

  /**
   * After any run the stored events are the newest part of all events ever emitted, in order of number
   * and time; the tables keep their bounds, and every unresolved condition is covered.
   */
  lemma EveryRunStaysBounded(os: seq<Observation>)
    ensures Holds(History(os).0, EmittedOf(History(os).1))
  {
    RunHolds(EmptyJournal(), os, []);
    assert [] + EmittedOf(History(os).1) == EmittedOf(History(os).1);
  }

  // ---- Evidence ----

  /** Every observed check says when its evidence was gathered. */
  predicate CarriesEvidence(cs: seq<Check>) {
    forall i :: 0 <= i < |cs| ==> cs[i].status == Observed ==> cs[i].evidence.Some?
  }

  lemma {:induction false} EvidenceRisesInChecks(j: Journal, cs: seq<Check>, now: int, id: Id)
    requires CarriesEvidence(cs) && DistinctIds(cs)
    requires id in j.active && id in Fold(RecordStep(now), cs, j).0.active
    ensures Fold(RecordStep(now), cs, j).0.active[id].evidence >= j.active[id].evidence
    decreases |cs|
  {
    if cs != [] {
      var next := Recorded(j, cs[0], now);
      assert CarriesEvidence(cs[1..]) && DistinctIds(cs[1..]) by {
        assert forall i :: 0 <= i < |cs[1..]| ==> cs[1..][i] == cs[i + 1];
      }
      if id in next.active {
        EvidenceRisesInChecks(next, cs[1..], now, id);
      } else {
        OnlyItsOwnCheckRaises(next, cs[1..], now, id);
      }
    }
  }

  lemma {:induction false} OnlyItsOwnCheckRaises(j: Journal, cs: seq<Check>, now: int, id: Id)
    requires id !in j.active && forall i :: 0 <= i < |cs| ==> cs[i].id != id
    ensures id !in Fold(RecordStep(now), cs, j).0.active
    decreases |cs|
  {
    if cs != [] {
      OnlyItsOwnCheckRaises(Recorded(j, cs[0], now), cs[1..], now, id);
    }
  }

  /** While a condition stays unresolved its evidence never gets older. */
  lemma EvidenceNeverFalls(j: Journal, o: Observation, id: Id)
    requires CarriesEvidence(o.checks) && DistinctIds(o.checks)
    requires id in j.active && id in ObservedBy(j, o).0.active
    ensures ObservedBy(j, o).0.active[id].evidence >= j.active[id].evidence
  {
    if o.commits && (j.observedAt.Some? ==> o.now >= j.observedAt.value) {
      EvidenceRisesInChecks(Opened(j, o), o.checks, o.now, id);
    }
  }

  // ---- Coverage ----

  /** The coverage a check leaves: its effective status, the newest known evidence, seen now. */
  function CoverageAfter(j: Journal, c: Check, now: int): Coverage {
    Coverage(if c.id in j.checks then j.checks[c.id].subject else c.subject,
             EffectiveStatus(Lookup(j.active, c.id), c),
             if c.evidence.Some? then c.evidence else if c.id in j.checks then j.checks[c.id].evidence else None,
             now, c.freshness)
  }

  lemma RecordedTouchesItsOwn(j: Journal, c: Check, now: int)
    ensures var after := Recorded(j, c, now);
            && after.checks == j.checks[c.id := CoverageAfter(j, c, now)]
            && forall id :: id != c.id ==> Lookup(after.active, id) == Lookup(j.active, id)
  {
  }

  lemma {:induction false} OthersCoverNothing(j: Journal, cs: seq<Check>, now: int, id: Id)
    requires forall i :: 0 <= i < |cs| ==> cs[i].id != id
    ensures var after := Fold(RecordStep(now), cs, j).0;
            (id in after.checks <==> id in j.checks) && (id in j.checks ==> after.checks[id] == j.checks[id])
    decreases |cs|
  {
    if cs != [] {
      RecordedTouchesItsOwn(j, cs[0], now);
      OthersCoverNothing(Recorded(j, cs[0], now), cs[1..], now, id);
    }
  }

  lemma {:induction false} ChecksCover(j: Journal, cs: seq<Check>, now: int, i: nat)
    requires DistinctIds(cs) && i < |cs|
    ensures var after := Fold(RecordStep(now), cs, j).0;
            cs[i].id in after.checks && after.checks[cs[i].id] == CoverageAfter(j, cs[i], now)
    decreases |cs|
  {
    var next, rest := Recorded(j, cs[0], now), cs[1..];
    RecordedTouchesItsOwn(j, cs[0], now);
    assert forall k :: 0 <= k < |rest| ==> rest[k] == cs[k + 1];
    if i == 0 {
      OthersCoverNothing(next, rest, now, cs[0].id);
    } else {
      assert rest[i - 1] == cs[i];
      ChecksCover(next, rest, now, i - 1);
      assert CoverageAfter(next, cs[i], now) == CoverageAfter(j, cs[i], now);
    }
  }

  /** Observed evidence that is older than that of the open condition shows as unknown, anything else as it is. */
  function StatusShown(active: map<Id, Condition>, c: Check): Status {
    if c.status == Observed && c.id in active && c.evidence.Some? && c.evidence.value < active[c.id].evidence
    then Unknown else c.status
  }

  /** After a sample every check still stored says what the sample observed of it, or that it observed nothing. */
  lemma CoverageOfOneSample(j: Journal, o: Observation, id: Id)
    requires DistinctIds(o.checks) && o.commits && (j.observedAt.Some? ==> o.now >= j.observedAt.value)
    requires id in ObservedBy(j, o).0.checks
    ensures var row := ObservedBy(j, o).0.checks[id];
            if exists i :: 0 <= i < |o.checks| && o.checks[i].id == id then
              exists i :: 0 <= i < |o.checks| && o.checks[i].id == id
                          && row.lastSeen == o.now && row.status == StatusShown(j.active, o.checks[i])
            else id in j.checks && row == j.checks[id].(status := Unobserved)
  {
    if i: nat :| i < |o.checks| && o.checks[i].id == id {
      ChecksCover(Opened(j, o), o.checks, o.now, i);
    } else {
      OthersCoverNothing(Opened(j, o), o.checks, o.now, id);
    }
  }

  // ---- Replayed samples ----

  lemma {:induction false} ClockNeverFalls(j: Journal, os: seq<Observation>)
    requires j.observedAt.Some?
    ensures var after := Fold(ObserveStep(), os, j).0;
            after.observedAt.Some? && after.observedAt.value >= j.observedAt.value
    decreases |os|
  {
    if os != [] {
      ChecksKeepTheClock(Opened(j, os[0]), os[0].checks, os[0].now);
      ClockNeverFalls(ObservedBy(j, os[0]).0, os[1..]);
    }
  }

  /** A sample older than one already committed can be left out of the run. */
  lemma OldSamplesLeaveNoTrace(before: seq<Observation>, between: seq<Observation>, newer: Observation,
                               older: Observation, rest: seq<Observation>)
    requires newer.commits && older.now < newer.now
    ensures History(before + [newer] + between + [older] + rest) == History(before + [newer] + between + rest)
  {
    var head := before + [newer] + between;
    FoldConcat(ObserveStep(), before, [newer], EmptyJournal());
    FoldOne(ObserveStep(), newer, History(before).0);
    ChecksKeepTheClock(Opened(History(before).0, newer), newer.checks, newer.now);
    FoldConcat(ObserveStep(), before + [newer], between, EmptyJournal());
    ClockNeverFalls(History(before + [newer]).0, between);
    FoldConcat(ObserveStep(), head, [older], EmptyJournal());
    FoldOne(ObserveStep(), older, History(head).0);
    assert History(head).1 + [] == History(head).1;
    FoldConcat(ObserveStep(), head + [older], rest, EmptyJournal());
    FoldConcat(ObserveStep(), head, rest, EmptyJournal());
  }
}
