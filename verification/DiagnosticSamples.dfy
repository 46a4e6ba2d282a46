/** What one committed sample makes of each condition, told from its checks and the conditions that were open. */
module DiagnosticSamples {
  import opened Prelude
  import opened Folding
  import opened DiagnosticJournal
  import opened DiagnosticBounds

  /** The check observed its condition, on evidence no older than the open one's. */
  predicate Tells(prior: Option<Condition>, c: Check) {
    && c.status == Observed
    && (prior.Some? && c.evidence.Some? ==> prior.value.evidence <= c.evidence.value)
  }

  /** What is open under the id of a check afterwards: what it was, nothing, or the severity and evidence it tells. */
  function OpenAfter(prior: Option<Condition>, c: Check, now: int): Option<Condition> {
    if !Tells(prior, c) then prior
    else if c.severity.None? then None
    else
      var evidence := if c.evidence.Some? then c.evidence.value else now;
      match prior
      case None => Some(Condition(c.subject, c.severity.value, evidence, now))
      case Some(open) => Some(Condition(open.subject, c.severity.value, evidence, open.started))
  }

  /** One event, of this kind and about this condition. */
  predicate IsOne(es: seq<Event>, transition: Transition, c: Check, subject: Subject, severity: Severity, now: int,
                  started: int) {
    && |es| == 1
    && es[0].id == c.id && es[0].subject == subject && es[0].severity == severity && es[0].transition == transition
    && es[0].at == now && es[0].started == started
  }

  /** The events about one check: a new condition is raised once, a changed severity noted once, a cleared one
      recovered once, and nothing else is written. */
  predicate Writes(es: seq<Event>, prior: Option<Condition>, c: Check, now: int) {
    if !Tells(prior, c) then es == [] else
    match (prior, c.severity)
    case (None, None) => es == []
    case (None, Some(severity)) => IsOne(es, Raised, c, c.subject, severity, now, now)
    case (Some(open), None) => IsOne(es, Recovered, c, open.subject, open.severity, now, open.started)
    case (Some(open), Some(severity)) =>
      if severity == open.severity then es == [] else IsOne(es, Changed, c, c.subject, severity, now, open.started)
  }

  function EventsAbout(es: seq<Event>, id: Id): seq<Event> {
    if es == [] then [] else (if es[0].id == id then [es[0]] else []) + EventsAbout(es[1..], id)
  }

  lemma {:induction false} EventsAboutConcat(a: seq<Event>, b: seq<Event>, id: Id)
    ensures EventsAbout(a + b, id) == EventsAbout(a, id) + EventsAbout(b, id)
  {
    if a == [] {
      assert a + b == b;
    } else {
      assert (a + b)[1..] == a[1..] + b;
      EventsAboutConcat(a[1..], b, id);
    }
  }

  // ---- One check ----

  lemma RecordedOpens(j: Journal, c: Check, now: int, id: Id)
    ensures Lookup(Recorded(j, c, now).active, id)
         == if id == c.id then OpenAfter(Lookup(j.active, id), c, now) else Lookup(j.active, id)
  {
  }

  lemma RecordedWrites(j: Journal, c: Check, now: int)
    ensures var es := EmittedOf(NewEvents(j, Recorded(j, c, now)));
            Writes(es, Lookup(j.active, c.id), c, now) && forall e <- es :: e.id == c.id
  {
    var after := Recorded(j, c, now);
    RecordedEmits(j, c, now);
    assert after.events[|j.events|..] == EmittedOf(NewEvents(j, after));
  }

  lemma {:induction false} AllAbout(es: seq<Event>, id: Id)
    requires forall e <- es :: e.id == id
    ensures EventsAbout(es, id) == es
    ensures forall other :: other != id ==> EventsAbout(es, other) == []
  {
    if es != [] {
      assert es[0] in es && forall e <- es[1..] :: e in es;
      AllAbout(es[1..], id);
    }
  }

  // ---- The checks of a sample ----

  lemma EmittedFirst(j: Journal, cs: seq<Check>, now: int, id: Id)
    requires cs != []
    ensures var next := Recorded(j, cs[0], now);
            && Fold(RecordStep(now), cs, j).0 == Fold(RecordStep(now), cs[1..], next).0
            && EventsAbout(EmittedOf(Fold(RecordStep(now), cs, j).1), id)
               == EventsAbout(EmittedOf(NewEvents(j, next)), id)
                  + EventsAbout(EmittedOf(Fold(RecordStep(now), cs[1..], next).1), id)
  {
    var next := Recorded(j, cs[0], now);
    var rest := Fold(RecordStep(now), cs[1..], next).1;
    EmittedConcat(NewEvents(j, next), rest);
    EventsAboutConcat(EmittedOf(NewEvents(j, next)), EmittedOf(rest), id);
  }

  lemma {:induction false} OthersTellNothing(j: Journal, cs: seq<Check>, now: int, id: Id)
    requires forall i :: 0 <= i < |cs| ==> cs[i].id != id
    ensures var (after, log) := Fold(RecordStep(now), cs, j);
            Lookup(after.active, id) == Lookup(j.active, id) && EventsAbout(EmittedOf(log), id) == []
    decreases |cs|
  {
    if cs != [] {
      RecordedOpens(j, cs[0], now, id);
      RecordedWrites(j, cs[0], now);
      AllAbout(EmittedOf(NewEvents(j, Recorded(j, cs[0], now))), cs[0].id);
      EmittedFirst(j, cs, now, id);
      OthersTellNothing(Recorded(j, cs[0], now), cs[1..], now, id);
    }
  }

  lemma {:induction false} CheckTells(j: Journal, cs: seq<Check>, now: int, i: nat)
    requires DistinctIds(cs) && i < |cs|
    ensures var (after, log) := Fold(RecordStep(now), cs, j);
            var c, prior := cs[i], Lookup(j.active, cs[i].id);
            && Lookup(after.active, c.id) == OpenAfter(prior, c, now)
            && Writes(EventsAbout(EmittedOf(log), c.id), prior, c, now)
    decreases |cs|
  {
    var next, rest, id := Recorded(j, cs[0], now), cs[1..], cs[i].id;
    assert forall k :: 0 <= k < |rest| ==> rest[k] == cs[k + 1];
    RecordedOpens(j, cs[0], now, id);
    RecordedWrites(j, cs[0], now);
    AllAbout(EmittedOf(NewEvents(j, next)), cs[0].id);
    EmittedFirst(j, cs, now, id);
    if i == 0 {
      OthersTellNothing(next, rest, now, id);
      assert EventsAbout(EmittedOf(NewEvents(j, next)), id) + [] == EmittedOf(NewEvents(j, next));
    } else {
      assert rest[i - 1] == cs[i];
      CheckTells(next, rest, now, i - 1);
      var es := EventsAbout(EmittedOf(Fold(RecordStep(now), rest, next).1), id);
      assert [] + es == es;
    }
  }

  // ---- One sample ----

  /** A sample that is stored. */
  predicate Stored(j: Journal, o: Observation) {
    DistinctIds(o.checks) && o.commits && (j.observedAt.Some? ==> j.observedAt.value <= o.now)
  }

  /** What is open under an id once the checks of a sample have been told. */
  ghost predicate OpenUnder(j: Journal, o: Observation, id: Id, open: Option<Condition>) {
    && (forall i | 0 <= i < |o.checks| && o.checks[i].id == id ::
          open == OpenAfter(Lookup(j.active, id), o.checks[i], o.now))
    && ((forall i | 0 <= i < |o.checks| :: o.checks[i].id != id) ==> open == Lookup(j.active, id))
  }

  /** Each check wrote its events, and nothing else was written. */
  ghost predicate Wrote(j: Journal, o: Observation, es: seq<Event>) {
    && (forall i :: 0 <= i < |o.checks| ==>
          Writes(EventsAbout(es, o.checks[i].id), Lookup(j.active, o.checks[i].id), o.checks[i], o.now))
    && (forall id :: (forall i :: 0 <= i < |o.checks| ==> o.checks[i].id != id) ==> EventsAbout(es, id) == [])
  }

  /** The conditions left are those that the checks leave open, all of them if at most 512, and otherwise the 512
      with the newest evidence. */
  ghost predicate LeftOpen(j: Journal, o: Observation, open: map<Id, Condition>, after: map<Id, Condition>) {
    && (forall id :: OpenUnder(j, o, id, Lookup(open, id)))
    && (|open| <= 512 ==> after == open) && (|open| > 512 ==> |after| == 512)
    && (forall id :: id in after ==> id in open && after[id] == open[id])
    && (forall a, b :: a in after && b in open && b !in after ==> open[a].evidence >= open[b].evidence)
  }

  lemma SampleWrites(j: Journal, o: Observation)
    requires Stored(j, o)
    ensures Wrote(j, o, EmittedOf(ObservedBy(j, o).1))
  {
    var (recorded, log) := Fold(RecordStep(o.now), o.checks, Opened(j, o));
    EvictionEmitsNothing(log, recorded.active.Keys - Retained(recorded, o.now).active.Keys);
    forall i | 0 <= i < |o.checks|
      ensures Writes(EventsAbout(EmittedOf(log), o.checks[i].id), Lookup(j.active, o.checks[i].id), o.checks[i], o.now)
    {
      CheckTells(Opened(j, o), o.checks, o.now, i);
    }
    forall id | forall i :: 0 <= i < |o.checks| ==> o.checks[i].id != id
      ensures EventsAbout(EmittedOf(log), id) == []
    {
      OthersTellNothing(Opened(j, o), o.checks, o.now, id);
    }
  }

  lemma SampleOpens(j: Journal, o: Observation) returns (open: map<Id, Condition>)
    requires Stored(j, o)
    ensures LeftOpen(j, o, open, ObservedBy(j, o).0.active)
    ensures open == Fold(RecordStep(o.now), o.checks, Opened(j, o)).0.active
  {
    open := Fold(RecordStep(o.now), o.checks, Opened(j, o)).0.active;
    forall id ensures OpenUnder(j, o, id, Lookup(open, id)) {
      if i: nat :| i < |o.checks| && o.checks[i].id == id {
        CheckTells(Opened(j, o), o.checks, o.now, i);
        assert forall k :: 0 <= k < |o.checks| && o.checks[k].id == id ==> k == i;
      } else {
        OthersTellNothing(Opened(j, o), o.checks, o.now, id);
      }
    }
    KeptActiveFits(open);
    KeptActiveSize(open);
  }

  lemma KeptActiveSize(active: map<Id, Condition>)
    ensures |KeptActive(active)| == Min(512, |active|)
  {
    var score := EvidenceOf(active);
    assert score.Keys == active.Keys;
    assert |score| == |score.Keys| == |active.Keys| == |active|;
    TopSize(score, MAX_ACTIVE);
    assert KeptActive(active).Keys == Top(score, MAX_ACTIVE);
  }

  /** The events of a stored sample end the table of events, unless they are more than it holds. */
  lemma SampleIsListed(j: Journal, o: Observation)
    requires Stored(j, o) && |EmittedOf(ObservedBy(j, o).1)| <= 10000
    ensures IsSuffix(EmittedOf(ObservedBy(j, o).1), ObservedBy(j, o).0.events)
  {
    var start := Opened(j, o);
    var (recorded, log) := Fold(RecordStep(o.now), o.checks, start);
    EvictionEmitsNothing(log, recorded.active.Keys - Retained(recorded, o.now).active.Keys);
    ChecksAppend(start, o.checks, o.now);
    RecentKeepsTail(j.events, EmittedOf(log), o.now - RETENTION);
    NewestKeepsTail(EmittedOf(log), Recent(recorded.events, o.now - RETENTION), MAX_EVENTS);
  }

  lemma NewestKeepsTail(tail: seq<Event>, events: seq<Event>, limit: nat)
    requires IsSuffix(tail, events) && |tail| <= limit
    ensures IsSuffix(tail, Newest(events, limit))
  {
    if |events| > limit {
      var newest := events[|events| - limit..];
      assert newest[|newest| - |tail|..] == events[|events| - |tail|..];
    }
  }

  /** A stored sample stamps the journal with its time, keeps the time of the first one, and notes whether it was cut
      short or anything of the history has been dropped. */
  lemma SampleIsStamped(j: Journal, o: Observation) returns (open: map<Id, Condition>)
    requires Stored(j, o)
    ensures LeftOpen(j, o, open, ObservedBy(j, o).0.active)
    ensures var (after, log) := ObservedBy(j, o);
            && after.observedAt == Some(o.now) && after.sampleTruncated == o.truncated
            && after.startedAt == (if j.startedAt.Some? then j.startedAt else Some(o.now))
            && (after.historyTruncated <==> || j.historyTruncated
                                            || |after.events| < |j.events| + |EmittedOf(log)|
                                            || |after.active| < |open|)
  {
    var (recorded, log) := Fold(RecordStep(o.now), o.checks, Opened(j, o));
    EvictionEmitsNothing(log, recorded.active.Keys - Retained(recorded, o.now).active.Keys);
    ChecksAppend(Opened(j, o), o.checks, o.now);
    ChecksKeepStamps(Opened(j, o), o.checks, o.now);
    open := SampleOpens(j, o);
  }

  lemma {:induction false} ChecksKeepStamps(j: Journal, cs: seq<Check>, now: int)
    ensures var after := Fold(RecordStep(now), cs, j).0;
            && after.observedAt == j.observedAt && after.startedAt == j.startedAt
            && after.sampleTruncated == j.sampleTruncated && after.historyTruncated == j.historyTruncated
    decreases |cs|
  {
    if cs != [] {
      ChecksKeepStamps(Recorded(j, cs[0], now), cs[1..], now);
    }
  }

  lemma {:induction false} ChecksAppend(j: Journal, cs: seq<Check>, now: int)
    ensures var (after, log) := Fold(RecordStep(now), cs, j);
            && after.events == j.events + EmittedOf(log)
            && forall e <- EmittedOf(log) :: e.at == now
    decreases |cs|
  {
    if cs == [] {
      assert j.events + [] == j.events;
    } else {
      var next := Recorded(j, cs[0], now);
      RecordedEmits(j, cs[0], now);
      RecordedWrites(j, cs[0], now);
      ChecksAppend(next, cs[1..], now);
      EmittedConcat(NewEvents(j, next), Fold(RecordStep(now), cs[1..], next).1);
      Associate(j.events, EmittedOf(NewEvents(j, next)), EmittedOf(Fold(RecordStep(now), cs[1..], next).1));
    }
  }

  lemma {:induction false} RecentKeepsTail(before: seq<Event>, tail: seq<Event>, cutoff: int)
    requires forall e <- tail :: e.at >= cutoff
    ensures IsSuffix(tail, Recent(before + tail, cutoff))
  {
    if before == [] {
      AllRecent(tail, cutoff);
      assert before + tail == tail;
    } else {
      assert (before + tail)[1..] == before[1..] + tail;
      RecentKeepsTail(before[1..], tail, cutoff);
    }
  }
}
