/** What every run of observations keeps true of the journal. */
module DiagnosticHistory {
  import opened Folding
  import opened DiagnosticJournal

  // ---- The log as the source of the active table ----

  datatype Episode = Episode(severity: Severity, started: int)

  type Episodes = map<Id, Episode>

  function EpisodesOf(active: map<Id, Condition>): Episodes {
    map k | k in active :: Episode(active[k].severity, active[k].started)
  }

  /** Raised opens an episode, changed alters its severity, recovered closes it with the severity it had. */
  predicate Legal(m: Episodes, e: LogEntry) {
    match e
    case Emitted(ev) =>
      (match ev.transition
       case Raised => ev.id !in m && ev.started == ev.at
       case Changed => ev.id in m && m[ev.id].severity != ev.severity && m[ev.id].started == ev.started
       case Recovered => ev.id in m && m[ev.id] == Episode(ev.severity, ev.started))
    case Evicted(ids) => ids <= m.Keys
  }

  function Replayed(m: Episodes, e: LogEntry): Episodes {
    match e
    case Emitted(ev) => if ev.transition == Recovered then m - {ev.id} else m[ev.id := Episode(ev.severity, ev.started)]
    case Evicted(ids) => m - ids
  }

  predicate WellFormed(m: Episodes, log: seq<LogEntry>)
    decreases |log|
  {
    log == [] || (Legal(m, log[0]) && WellFormed(Replayed(m, log[0]), log[1..]))
  }

  function Replay(m: Episodes, log: seq<LogEntry>): Episodes
    decreases |log|
  {
    if log == [] then m else Replay(Replayed(m, log[0]), log[1..])
  }

  /** The log explains the step from one active table to the next. */
  ghost predicate Explains(before: map<Id, Condition>, log: seq<LogEntry>, after: map<Id, Condition>) {
    WellFormed(EpisodesOf(before), log) && Replay(EpisodesOf(before), log) == EpisodesOf(after)
  }

  lemma {:induction false} LogConcat(m: Episodes, a: seq<LogEntry>, b: seq<LogEntry>)
    ensures WellFormed(m, a + b) <==> WellFormed(m, a) && WellFormed(Replay(m, a), b)
    ensures Replay(m, a + b) == Replay(Replay(m, a), b)
    decreases |a|
  {
    if a == [] {
      assert a + b == b;
    } else {
      assert (a + b)[1..] == a[1..] + b;
      LogConcat(Replayed(m, a[0]), a[1..], b);
    }
  }

  lemma ExplainsBoth(a: map<Id, Condition>, first: seq<LogEntry>, b: map<Id, Condition>, second: seq<LogEntry>,
                     c: map<Id, Condition>)
    requires Explains(a, first, b) && Explains(b, second, c)
    ensures Explains(a, first + second, c)
  {
    LogConcat(EpisodesOf(a), first, second);
  }

  lemma OneEntry(m: Episodes, e: LogEntry)
    ensures WellFormed(m, [e]) <==> Legal(m, e)
    ensures Replay(m, [e]) == Replayed(m, e)
  {
    assert [e][1..] == [];
  }

  lemma RecordedExplained(j: Journal, c: Check, now: int)
    ensures Explains(j.active, NewEvents(j, Recorded(j, c, now)), Recorded(j, c, now).active)
  {
    var after := Recorded(j, c, now);
    if after.events == j.events {
      UneventfulKeepsEpisodes(j, c, now);
    } else {
      var event := after.events[|j.events|];
      assert NewEvents(j, after) == [Emitted(event)];
      OneEntry(EpisodesOf(j.active), Emitted(event));
      EventExplained(j, c, now, event);
    }
  }

  lemma UneventfulKeepsEpisodes(j: Journal, c: Check, now: int)
    requires Recorded(j, c, now).events == j.events
    ensures EpisodesOf(Recorded(j, c, now).active) == EpisodesOf(j.active)
  {
  }

  lemma EventExplained(j: Journal, c: Check, now: int, event: Event)
    requires Recorded(j, c, now).events == j.events + [event]
    ensures Legal(EpisodesOf(j.active), Emitted(event))
    ensures Replayed(EpisodesOf(j.active), Emitted(event)) == EpisodesOf(Recorded(j, c, now).active)
  {
    var after := Recorded(j, c, now);
    assert event == after.events[|j.events|];
    if c.severity.None? {
      assert after.active == j.active - {c.id};
    } else {
      EpisodesPut(j.active, c.id, after.active[c.id]);
    }
  }

  lemma EpisodesPut(active: map<Id, Condition>, id: Id, condition: Condition)
    ensures EpisodesOf(active[id := condition])
         == EpisodesOf(active)[id := Episode(condition.severity, condition.started)]
  {
  }

  lemma {:induction false} ChecksExplained(j: Journal, cs: seq<Check>, now: int)
    ensures Explains(j.active, Fold(RecordStep(now), cs, j).1, Fold(RecordStep(now), cs, j).0.active)
    decreases |cs|
  {
    if cs != [] {
      var (next, first) := RecordStep(now)(j, cs[0]);
      RecordedExplained(j, cs[0], now);
      ChecksExplained(next, cs[1..], now);
      ExplainsBoth(j.active, first, next.active, Fold(RecordStep(now), cs[1..], next).1,
                   Fold(RecordStep(now), cs[1..], next).0.active);
    }
  }

  lemma EvictionExplained(before: map<Id, Condition>, after: map<Id, Condition>)
    requires after.Keys <= before.Keys && forall k :: k in after ==> after[k] == before[k]
    ensures Explains(before, [Evicted(before.Keys - after.Keys)], after)
  {
    OneEntry(EpisodesOf(before), Evicted(before.Keys - after.Keys));
    assert EpisodesOf(before) - (before.Keys - after.Keys) == EpisodesOf(after);
  }

  lemma ObservationExplained(j: Journal, o: Observation)
    ensures Explains(j.active, ObservedBy(j, o).1, ObservedBy(j, o).0.active)
  {
    if o.commits && (j.observedAt.Some? ==> o.now >= j.observedAt.value) {
      var started := Opened(j, o);
      var (recorded, log) := Fold(RecordStep(o.now), o.checks, started);
      ChecksExplained(started, o.checks, o.now);
      var kept := Retained(recorded, o.now);
      EvictionExplained(recorded.active, kept.active);
      ExplainsBoth(j.active, log, recorded.active, [Evicted(recorded.active.Keys - kept.active.Keys)], kept.active);
    }
  }

  lemma {:induction false} RunExplained(os: seq<Observation>, j: Journal)
    ensures Explains(j.active, Fold(ObserveStep(), os, j).1, Fold(ObserveStep(), os, j).0.active)
    decreases |os|
  {
    if os != [] {
      var (next, first) := ObserveStep()(j, os[0]);
      ObservationExplained(j, os[0]);
      RunExplained(os[1..], next);
      ExplainsBoth(j.active, first, next.active, Fold(ObserveStep(), os[1..], next).1,
                   Fold(ObserveStep(), os[1..], next).0.active);
    }
  }

  /** Over any run the log is well formed, and the active table is its replay. */
  lemma ActiveIsTheReplayOfTheLog(os: seq<Observation>)
    ensures WellFormed(map[], History(os).1)
    ensures EpisodesOf(History(os).0.active) == Replay(map[], History(os).1)
  {
    RunExplained(os, EmptyJournal());
    assert EpisodesOf(map[]) == map[];
  }

  // ---- One diagnostic's events ----

  predicate About(e: LogEntry, id: Id) {
    match e
    case Emitted(ev) => ev.id == id
    case Evicted(ids) => id in ids
  }

  predicate Opens(e: LogEntry) {
    e.Emitted? && e.event.transition != Recovered
  }

  lemma {:induction false} OthersLeaveAnEpisodeAlone(m: Episodes, log: seq<LogEntry>, id: Id)
    requires forall e :: e in log ==> !About(e, id)
    ensures id in Replay(m, log) <==> id in m
    ensures id in m ==> Replay(m, log)[id] == m[id]
    decreases |log|
  {
    if log != [] {
      assert log[0] in log;
      OthersLeaveAnEpisodeAlone(Replayed(m, log[0]), log[1..], id);
    }
  }

  /**
   * The language of one diagnostic: raised, then changes between different severities, then recovered
   * with the last severity, and raised again only after that or after an eviction.
   */
  lemma NextEventOfOneDiagnostic(os: seq<Observation>, i: nat, k: nat, id: Id)
    requires i < k < |History(os).1|
    requires About(History(os).1[i], id) && About(History(os).1[k], id)
    requires forall n :: i < n < k ==> !About(History(os).1[n], id)
    ensures var a, b := History(os).1[i], History(os).1[k];
            if Opens(a) then
              b.Evicted? || (b.event.transition != Raised && b.event.started == a.event.started
                             && (b.event.transition == Changed <==> b.event.severity != a.event.severity))
            else b.Emitted? && b.event.transition == Raised
  {
    var log := History(os).1;
    ActiveIsTheReplayOfTheLog(os);
    LegalAt(map[], log, i);
    LegalAt(map[], log, k);
    BetweenLeavesAlone(map[], log, i, k, id);
  }

  /** Every entry of a well-formed log is legal after the entries before it. */
  lemma LegalAt(m: Episodes, log: seq<LogEntry>, i: nat)
    requires WellFormed(m, log) && i < |log|
    ensures Legal(Replay(m, log[..i]), log[i])
    ensures Replay(m, log[..i + 1]) == Replayed(Replay(m, log[..i]), log[i])
  {
    assert log == log[..i] + log[i..];
    LogConcat(m, log[..i], log[i..]);
    assert log[i..][0] == log[i];
    assert log[..i + 1] == log[..i] + [log[i]];
    LogConcat(m, log[..i], [log[i]]);
    OneEntry(Replay(m, log[..i]), log[i]);
  }

  lemma BetweenLeavesAlone(m: Episodes, log: seq<LogEntry>, i: nat, k: nat, id: Id)
    requires i < k < |log| && forall n :: i < n < k ==> !About(log[n], id)
    ensures var a, b := Replay(m, log[..i + 1]), Replay(m, log[..k]);
            (id in b <==> id in a) && (id in a ==> b[id] == a[id])
  {
    var between := log[i + 1..k];
    assert log[..k] == log[..i + 1] + between;
    LogConcat(m, log[..i + 1], between);
    OthersLeaveAnEpisodeAlone(Replay(m, log[..i + 1]), between, id);
  }

  lemma FirstEventOfOneDiagnostic(os: seq<Observation>, k: nat, id: Id)
    requires k < |History(os).1| && About(History(os).1[k], id)
    requires forall n :: 0 <= n < k ==> !About(History(os).1[n], id)
    ensures History(os).1[k].Emitted? && History(os).1[k].event.transition == Raised
  {
    var log := History(os).1;
    ActiveIsTheReplayOfTheLog(os);
    assert log == log[..k] + log[k..];
    LogConcat(map[], log[..k], log[k..]);
    OthersLeaveAnEpisodeAlone(map[], log[..k], id);
    assert log[k..][0] == log[k];
  }
}
