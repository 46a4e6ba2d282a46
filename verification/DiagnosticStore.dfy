/** The journal's single writer, table by table. */
module DiagnosticStore {
  import opened Prelude
  import opened Folding
  import opened DiagnosticJournal
  import opened DiagnosticHistory
  import opened DiagnosticBounds
  import opened DiagnosticSamples

  /** A request for events; the window defaults to the retention period before `until`. */
  datatype EventQuery = EventQuery(category: Option<string>, source: Option<string>, severity: Option<Severity>,
                                   transition: Option<Transition>, since: Option<int>, until: Option<int>, limit: int)

  const MAX_QUERY_LIMIT: int := 200

  function UntilOf(q: EventQuery, now: int): int {
    q.until.GetOr(now)
  }

  function SinceOf(q: EventQuery, now: int): int {
    q.since.GetOr(Max(0, UntilOf(q, now) - RETENTION))
  }

  predicate Acceptable(q: EventQuery, now: int) {
    1 <= q.limit <= MAX_QUERY_LIMIT && SinceOf(q, now) <= UntilOf(q, now) <= SinceOf(q, now) + RETENTION
  }

  predicate MatchesEvent(q: EventQuery, now: int, e: Event) {
    && (q.category.Some? ==> e.subject.category == q.category.value)
    && (q.source.Some? ==> e.subject.source == q.source.value)
    && (q.severity.Some? ==> e.severity == q.severity.value)
    && (q.transition.Some? ==> e.transition == q.transition.value)
    && SinceOf(q, now) <= e.at <= UntilOf(q, now)
  }

  /** A field is as asked for, or was left open. */
  predicate Given<T(==)>(asked: Option<T>, value: T) {
    asked.None? || asked.value == value
  }

  /** What a request asks for, field by field; without bounds, the last thirty days up to now. */
  predicate Asked(q: EventQuery, now: int, e: Event) {
    var until := if q.until.Some? then q.until.value else now;
    && Given(q.category, e.subject.category) && Given(q.source, e.subject.source)
    && Given(q.severity, e.severity) && Given(q.transition, e.transition)
    && e.at <= until
    && (if q.since.Some? then e.at >= q.since.value else e.at >= 0 && e.at >= until - 2592000)
  }

  lemma AskedIsMatched(q: EventQuery, now: int, e: Event)
    ensures Asked(q, now, e) <==> MatchesEvent(q, now, e)
  {
  }

  function Matching(q: EventQuery, now: int, events: seq<Event>): (r: seq<Event>)
    ensures forall e :: e in r <==> e in events && MatchesEvent(q, now, e)
  {
    if events == [] then []
    else Matching(q, now, events[..|events| - 1])
         + if MatchesEvent(q, now, events[|events| - 1]) then [events[|events| - 1]] else []
  }

  function Reversed<T>(s: seq<T>): (r: seq<T>)
    ensures |r| == |s| && forall i :: 0 <= i < |s| ==> r[i] == s[|s| - 1 - i]
  {
    if s == [] then [] else [s[|s| - 1]] + Reversed(s[..|s| - 1])
  }

  class DiagnosticStore {
    var journal: Journal
    ghost var log: seq<LogEntry>

    /** The tables are what the log of every transaction so far explains. */
    ghost predicate Valid()
      reads this
    {
      && WellFormed(map[], log) && Replay(map[], log) == EpisodesOf(journal.active)
      && Holds(journal, EmittedOf(log))
    }

    constructor ()
      ensures Valid() && journal == EmptyJournal() && log == []
    {
      journal, log := EmptyJournal(), [];
      new;
      assert EpisodesOf(map[]) == map[];
    }

    /** One transaction; it either commits as a whole or leaves every table as it was. */
    method ObserveProjection(now: int, checks: seq<Check>, truncated: bool, commits: bool)
      returns (stored: bool, ghost open: map<Id, Condition>)
      requires Valid() && DistinctIds(checks)
      modifies this
      ensures Valid()
      ensures stored <==> commits
      ensures journal == ObservedBy(old(journal), Observation(now, checks, truncated, commits)).0
      ensures log == old(log) + ObservedBy(old(journal), Observation(now, checks, truncated, commits)).1
      // what a stored sample raises, changes, recovers and leaves open, check by check
      ensures Stored(old(journal), Observation(now, checks, truncated, commits)) ==>
                var o, es := Observation(now, checks, truncated, commits), EmittedOf(log[|old(log)|..]);
                && Wrote(old(journal), o, es) && LeftOpen(old(journal), o, open, journal.active)
                && (|es| <= MAX_EVENTS ==> IsSuffix(es, journal.events))
    {
      ghost var o := Observation(now, checks, truncated, commits);
      ghost var entries := ObservedBy(journal, o).1;
      ObservationExplained(journal, o);
      LogConcat(map[], log, entries);
      ObservationHolds(journal, o, EmittedOf(log));
      EmittedConcat(log, entries);
      if commits {
        if journal.observedAt.None? || now >= journal.observedAt.value {
          var recorded := Record(Opened(journal, Observation(now, checks, truncated, true)), now, checks);
          journal := Retained(recorded, now);
        }
      }
      log := log + entries;
      stored, open := commits, map[];
      if Stored(old(journal), o) {
        SampleWrites(old(journal), o);
        open := SampleOpens(old(journal), o);
        if |EmittedOf(entries)| <= MAX_EVENTS {
          SampleIsListed(old(journal), o);
        }
      }
    }

    /** The newest matching events, newest first, and whether more match than the limit lets through. */
    method QueryEvents(q: EventQuery, now: int) returns (found: Option<seq<Event>>, more: bool)
      requires Valid()
      ensures found.Some? <==> Acceptable(q, now)
      ensures found.Some? ==>
                var all := Matching(q, now, journal.events);
                found.value == Reversed(Newest(all, q.limit)) && (more <==> |all| > q.limit)
      // only what was asked for, and without more all of it
      ensures found.Some? ==> forall e <- found.value :: e in journal.events && Asked(q, now, e)
      ensures found.Some? && !more ==> forall e <- journal.events :: Asked(q, now, e) ==> e in found.value
      ensures found.None? <==> || q.limit < 1 || q.limit > 200
                               || RangeOf(q, now) < 0 || RangeOf(q, now) > 2592000
    {
      if !(1 <= q.limit <= MAX_QUERY_LIMIT) {
        return None, false;
      }
      var until := q.until.GetOr(now);
      var since := q.since.GetOr(Max(0, until - RETENTION));
      if until < since || until - since > RETENTION {
        return None, false;
      }
      var page, others := NewestPage(journal.events, q, now);
      PageIsAsked(journal.events, q, now, page, others);
      return Some(page), others;
    }
  }

  /** The length of the window asked for. */
  function RangeOf(q: EventQuery, now: int): int {
    var until := if q.until.Some? then q.until.value else now;
    if q.since.Some? then until - q.since.value else if until >= 2592000 then 2592000 else until
  }

  lemma PageIsAsked(events: seq<Event>, q: EventQuery, now: int, page: seq<Event>, more: bool)
    requires q.limit >= 0 && page == Reversed(Newest(Matching(q, now, events), q.limit))
    requires more <==> |Matching(q, now, events)| > q.limit
    ensures forall e <- page :: e in events && Asked(q, now, e)
    ensures !more ==> forall e <- events :: Asked(q, now, e) ==> e in page
  {
    var all := Matching(q, now, events);
    forall e | e in page ensures e in events && Asked(q, now, e) {
      var i :| 0 <= i < |page| && page[i] == e;
      assert Newest(all, q.limit)[|page| - 1 - i] in all;
      AskedIsMatched(q, now, e);
    }
    if !more {
      forall e | e in events && Asked(q, now, e) ensures e in page {
        AskedIsMatched(q, now, e);
        var i :| 0 <= i < |all| && all[i] == e;
        assert page[|all| - 1 - i] == e;
      }
    }
  }

  method NewestPage(events: seq<Event>, q: EventQuery, now: int) returns (page: seq<Event>, more: bool)
    requires q.limit >= 0
    ensures var all := Matching(q, now, events);
            page == Reversed(Newest(all, q.limit)) && (more <==> |all| > q.limit)
  {
    var rows := NewestMatching(events, q, now, q.limit + 1);
    TakeReversed(Matching(q, now, events), q.limit);
    more := |rows| > q.limit;
    page := if more then rows[..q.limit] else rows;
  }

  method NewestMatching(events: seq<Event>, q: EventQuery, now: int, limit: nat) returns (rows: seq<Event>)
    ensures rows == Reversed(Newest(Matching(q, now, events), limit))
  {
    rows := [];
    var i := |events|;
    assert events[..i] == events;
    while i > 0 && |rows| < limit
      invariant 0 <= i <= |events| && |rows| <= limit
      invariant Matching(q, now, events) == Matching(q, now, events[..i]) + Reversed(rows)
    {
      i := i - 1;
      TakenOneMore(q, now, events, i, rows);
      if MatchesEvent(q, now, events[i]) {
        rows := rows + [events[i]];
      }
    }
    assert i == 0 ==> Matching(q, now, events[..i]) == [];
    TakenFromTheBack(Matching(q, now, events), Matching(q, now, events[..i]), rows, limit);
  }

  lemma TakenOneMore(q: EventQuery, now: int, events: seq<Event>, i: nat, rows: seq<Event>)
    requires i < |events|
    ensures var more := if MatchesEvent(q, now, events[i]) then rows + [events[i]] else rows;
            Matching(q, now, events[..i + 1]) + Reversed(rows) == Matching(q, now, events[..i]) + Reversed(more)
  {
    assert events[..i + 1][..i] == events[..i];
    ReversedSnoc(rows, events[i]);
  }

  lemma ReversedSnoc(rows: seq<Event>, e: Event)
    ensures Reversed(rows + [e]) == [e] + Reversed(rows)
  {
  }

  lemma TakenFromTheBack(all: seq<Event>, rest: seq<Event>, rows: seq<Event>, limit: nat)
    requires all == rest + Reversed(rows) && |rows| <= limit && (rest == [] || |rows| == limit)
    ensures rows == Reversed(Newest(all, limit))
  {
    assert Newest(all, limit) == Reversed(rows);
    assert Reversed(Reversed(rows)) == rows;
  }

  lemma TakeReversed(all: seq<Event>, limit: nat)
    ensures var rows := Reversed(Newest(all, limit + 1));
            && (|rows| > limit <==> |all| > limit)
            && Reversed(Newest(all, limit)) == if |rows| > limit then rows[..limit] else rows
  {
    if |all| > limit {
      var rows := Reversed(Newest(all, limit + 1));
      assert rows[..limit] == Reversed(Newest(all, limit));
    }
  }

  /** The loop over the checks; the active table is read once, before it. */
  method Record(j0: Journal, now: int, checks: seq<Check>) returns (j: Journal)
    requires DistinctIds(checks)
    ensures j == Fold(RecordStep(now), checks, j0).0
  {
    j := j0;
    var active := j0.active;
    var i := 0;
    while i < |checks|
      invariant 0 <= i <= |checks|
      invariant j == Fold(RecordStep(now), checks[..i], j0).0
      invariant forall k :: i <= k < |checks| ==> Lookup(active, checks[k].id) == Lookup(j.active, checks[k].id)
    {
      FoldNext(j0, now, checks, i);
      OtherChecksStay(j, checks[i], now);
      j := RecordCheck(j, Lookup(active, checks[i].id), checks[i], now);
      i := i + 1;
    }
    assert checks[..i] == checks;
  }

  lemma OtherChecksStay(j: Journal, c: Check, now: int)
    ensures forall id :: id != c.id ==> Lookup(Recorded(j, c, now).active, id) == Lookup(j.active, id)
  {
  }

  /** One turn of the loop, given the check's row of the active table. */
  method RecordCheck(j0: Journal, prior: Option<Condition>, c: Check, now: int) returns (j: Journal)
    requires prior == Lookup(j0.active, c.id)
    ensures j == Recorded(j0, c, now)
  {
    var status := c.status;
    if status == Observed && prior.Some? && c.evidence.Some? && c.evidence.value < prior.value.evidence {
      status := Unknown;
    }
    j := j0.(checks := Covered(j0.checks, c, status, now));
    if status == Observed {
      if c.severity.None? {
        if prior.Some? {
          j := WithEvent(j, c.id, prior.value.subject, prior.value.severity, Recovered, now, prior.value.started);
          j := j.(active := j.active - {c.id});
        }
      } else {
        var row := Condition(c.subject, c.severity.value, c.evidence.GetOr(now),
                             if prior.Some? then prior.value.started else now);
        if prior.None? || prior.value.severity != row.severity {
          j := WithEvent(j, c.id, c.subject, row.severity, if prior.None? then Raised else Changed, now, row.started);
        }
        if c.id in j.active {
          j := j.(active := j.active[c.id := j.active[c.id].(severity := row.severity, evidence := row.evidence)]);
        } else {
          j := j.(active := j.active[c.id := row]);
        }
      }
    }
  }

  lemma FoldNext(j0: Journal, now: int, checks: seq<Check>, i: nat)
    requires i < |checks|
    ensures Fold(RecordStep(now), checks[..i + 1], j0).0
         == Recorded(Fold(RecordStep(now), checks[..i], j0).0, checks[i], now)
  {
    assert checks[..i + 1] == checks[..i] + [checks[i]];
    FoldConcat(RecordStep(now), checks[..i], [checks[i]], j0);
    FoldOne(RecordStep(now), checks[i], Fold(RecordStep(now), checks[..i], j0).0);
  }
}
