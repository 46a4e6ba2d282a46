/**
 * The diagnostic journal: which conditions are unresolved, what was last covered, and the bounded
 * list of transitions. Each observation is one transaction over these tables.
 */
module DiagnosticJournal {
  import opened Prelude
  import opened Folding

  const RETENTION: int := 30 * 86400
  const MAX_EVENTS: nat := 10000
  const MAX_ACTIVE: nat := 512
  const MAX_CHECKS: nat := 1024

  /** A digest; digests compare like the text they are written as. */
  datatype Id = Id(digest: nat)

  datatype Subject = Subject(category: string, source: string, caption: string, code: string)

  datatype Severity = Info | Warning | Critical

  datatype Status = Observed | Unknown | Disabled | Unobserved

  datatype Check = Check(id: Id, subject: Subject, severity: Option<Severity>, status: Status,
                         evidence: Option<int>, freshness: int)

  datatype Condition = Condition(subject: Subject, severity: Severity, evidence: int, started: int)

  datatype Coverage = Coverage(subject: Subject, status: Status, evidence: Option<int>, lastSeen: int, freshness: int)

  datatype Transition = Raised | Changed | Recovered

  datatype Event = Event(number: nat, id: Id, subject: Subject, severity: Severity, transition: Transition,
                         at: int, started: int)

  datatype Journal = Journal(observedAt: Option<int>, startedAt: Option<int>, sampleTruncated: bool,
                             historyTruncated: bool, active: map<Id, Condition>, checks: map<Id, Coverage>,
                             events: seq<Event>, nextNumber: nat)

  function EmptyJournal(): Journal {
    Journal(None, None, false, false, map[], map[], [], 1)
  }

  /** What the full history would show, had nothing ever been deleted. */
  datatype LogEntry = Emitted(event: Event) | Evicted(ids: set<Id>)

  // ---- One check ----

  function Lookup(active: map<Id, Condition>, id: Id): Option<Condition> {
    if id in active then Some(active[id]) else None
  }

  /** Evidence older than that of the unresolved condition is no observation at all. */
  function EffectiveStatus(prior: Option<Condition>, c: Check): Status {
    if c.status == Observed && prior.Some? && c.evidence.Some? && c.evidence.value < prior.value.evidence
    then Unknown else c.status
  }

  function Covered(checks: map<Id, Coverage>, c: Check, status: Status, now: int): map<Id, Coverage> {
    checks[c.id := if c.id in checks
                   then Coverage(checks[c.id].subject, status,
                                 if c.evidence.Some? then c.evidence else checks[c.id].evidence, now, c.freshness)
                   else Coverage(c.subject, status, c.evidence, now, c.freshness)]
  }

  function WithEvent(j: Journal, id: Id, subject: Subject, severity: Severity, transition: Transition, now: int,
                     started: int): Journal {
    j.(events := j.events + [Event(j.nextNumber, id, subject, severity, transition, now, started)],
       nextNumber := j.nextNumber + 1)
  }

  function Recorded(j0: Journal, c: Check, now: int): Journal {
    var prior := Lookup(j0.active, c.id);
    var status := EffectiveStatus(prior, c);
    var j := j0.(checks := Covered(j0.checks, c, status, now));
    if status != Observed then j
    else if c.severity.None? then
      if prior.None? then j
      else
        WithEvent(j, c.id, prior.value.subject, prior.value.severity, Recovered, now, prior.value.started)
        .(active := j.active - {c.id})
    else
      var severity := c.severity.value;
      var evidence := c.evidence.GetOr(now);
      var started := if prior.Some? then prior.value.started else now;
      var logged := if prior.None? || prior.value.severity != severity
                    then WithEvent(j, c.id, c.subject, severity, if prior.None? then Raised else Changed, now, started)
                    else j;
      logged.(active := j.active[c.id := if prior.Some? then prior.value.(severity := severity, evidence := evidence)
                                         else Condition(c.subject, severity, evidence, started)])
  }

  /** The events a step appended. */
  function NewEvents(before: Journal, after: Journal): seq<LogEntry> {
    if |after.events| <= |before.events| then []
    else var added := after.events[|before.events|..];
         seq(|added|, i requires 0 <= i < |added| => Emitted(added[i]))
  }

  function RecordStep(now: int): (Journal, Check) -> (Journal, seq<LogEntry>) {
    (j: Journal, c: Check) => (Recorded(j, c, now), NewEvents(j, Recorded(j, c, now)))
  }

  // ---- Ranking ----

  /** Later first, ties by digest. */
  predicate Ahead(score: map<Id, int>, a: Id, b: Id)
    requires a in score && b in score
  {
    score[a] > score[b] || (score[a] == score[b] && a.digest < b.digest)
  }

  function Rank(score: map<Id, int>, k: Id): nat
    requires k in score
  {
    |set j | j in score && Ahead(score, j, k)|
  }

  /** The first `limit` keys. */
  function Top(score: map<Id, int>, limit: nat): (top: set<Id>)
    ensures top <= score.Keys
  {
    set k | k in score && Rank(score, k) < limit
  }

  lemma {:induction false} SomeoneIsLast(score: map<Id, int>) returns (last: Id)
    requires score != map[]
    ensures last in score && forall j :: j in score && j != last ==> Ahead(score, j, last)
    decreases |score|
  {
    var k :| k in score;
    var less := score - {k};
    if less == map[] {
      forall j | j in score
        ensures j == k
      {
        assert j != k ==> j in less;
      }
      return k;
    }
    var other := SomeoneIsLast(less);
    last := if Ahead(score, other, k) then k else other;
    forall j | j in score && j != last
      ensures Ahead(score, j, last)
    {
      if j != k && j != other {
        assert j in less && Ahead(less, j, other);
      }
    }
  }

  lemma RankWithoutLast(score: map<Id, int>, last: Id, k: Id)
    requires last in score && k in score && k != last
    requires forall j :: j in score && j != last ==> Ahead(score, j, last)
    ensures Rank(score - {last}, k) == Rank(score, k)
  {
    assert (set j | j in score && Ahead(score, j, k)) == (set j | j in score - {last} && Ahead(score - {last}, j, k));
  }

  lemma RankOfLast(score: map<Id, int>, last: Id)
    requires last in score
    requires forall j :: j in score && j != last ==> Ahead(score, j, last)
    ensures Rank(score, last) == |score| - 1
  {
    assert (set j | j in score && Ahead(score, j, last)) == score.Keys - {last};
    assert |score.Keys - {last}| == |score.Keys| - 1;
  }

  /** Exactly as many are kept as fit, and everything when everything fits. */
  lemma {:induction false} TopSize(score: map<Id, int>, limit: nat)
    ensures |Top(score, limit)| == Min(limit, |score|)
    ensures |score| <= limit ==> Top(score, limit) == score.Keys
    decreases |score|
  {
    if score == map[] {
      assert Top(score, limit) == {};
    } else {
      var last := SomeoneIsLast(score);
      var less := score - {last};
      TopSize(less, limit);
      RankOfLast(score, last);
      forall k | k in less
        ensures k in Top(score, limit) <==> k in Top(less, limit)
      {
        RankWithoutLast(score, last, k);
      }
      if |score| <= limit {
        assert Top(score, limit) == score.Keys;
      } else {
        assert Top(score, limit) == Top(less, limit);
      }
    }
  }

  /** Whoever is kept ranks ahead of whoever is not. */
  lemma KeptRankAhead(score: map<Id, int>, limit: nat, a: Id, b: Id)
    requires a in Top(score, limit) && b in score && b !in Top(score, limit)
    ensures Ahead(score, a, b)
  {
    if !Ahead(score, a, b) {
      var before, upTo := set j | j in score && Ahead(score, j, b), set j | j in score && Ahead(score, j, a);
      assert a != b && Ahead(score, b, a);
      assert before <= upTo;
      SubsetSize(before, upTo);
    }
  }

  lemma {:induction false} SubsetSize(a: set<Id>, b: set<Id>)
    requires a <= b
    ensures |a| <= |b|
    decreases |a|
  {
    if x :| x in a {
      SubsetSize(a - {x}, b - {x});
    }
  }

  // ---- Retention ----

  function Recent(events: seq<Event>, cutoff: int): seq<Event> {
    if events == [] then []
    else if events[0].at < cutoff then Recent(events[1..], cutoff)
    else [events[0]] + Recent(events[1..], cutoff)
  }

  /** The newest events by time and number; both rise along the list, so the oldest are in front. */
  function Newest(events: seq<Event>, limit: nat): seq<Event> {
    if |events| <= limit then events else events[|events| - limit..]
  }

  function EvidenceOf(active: map<Id, Condition>): map<Id, int> {
    map k | k in active :: active[k].evidence
  }

  function KeptActive(active: map<Id, Condition>): map<Id, Condition> {
    var top := Top(EvidenceOf(active), MAX_ACTIVE);
    map k | k in active && k in top :: active[k]
  }

  function Idle(checks: map<Id, Coverage>, active: map<Id, Condition>, cutoff: int): map<Id, int> {
    map k | k in checks && k !in active && checks[k].lastSeen >= cutoff :: checks[k].lastSeen
  }

  /** Coverage of unresolved conditions stays; the rest is bounded by age, then by room. */
  function KeptChecks(checks: map<Id, Coverage>, active: map<Id, Condition>, cutoff: int): map<Id, Coverage> {
    var room := if |active| <= MAX_CHECKS then MAX_CHECKS - |active| else 0;
    var top := Top(Idle(checks, active, cutoff), room);
    map k | k in checks && (k in active || k in top) :: checks[k]
  }

  function Retained(j: Journal, now: int): Journal {
    var events := Newest(Recent(j.events, now - RETENTION), MAX_EVENTS);
    var active := KeptActive(j.active);
    j.(events := events, active := active, checks := KeptChecks(j.checks, active, now - RETENTION),
       historyTruncated := j.historyTruncated || |events| < |j.events| || |active| < |j.active|)
  }

  // ---- One observation ----

  datatype Observation = Observation(now: int, checks: seq<Check>, truncated: bool, commits: bool)

  /** The checks of one sample carry distinct ids. */
  predicate DistinctIds(checks: seq<Check>) {
    forall i, k :: 0 <= i < k < |checks| ==> checks[i].id != checks[k].id
  }

  function Opened(j: Journal, o: Observation): Journal {
    j.(observedAt := Some(o.now),
       startedAt := if j.startedAt.None? then Some(o.now) else j.startedAt,
       sampleTruncated := o.truncated,
       checks := map k | k in j.checks :: j.checks[k].(status := Unobserved))
  }

  function ObservedBy(j: Journal, o: Observation): (Journal, seq<LogEntry>) {
    if !o.commits || (j.observedAt.Some? && o.now < j.observedAt.value) then (j, []) else
    var (recorded, log) := Fold(RecordStep(o.now), o.checks, Opened(j, o));
    var kept := Retained(recorded, o.now);
    (kept, log + [Evicted(recorded.active.Keys - kept.active.Keys)])
  }

  function ObserveStep(): (Journal, Observation) -> (Journal, seq<LogEntry>) {
    (j: Journal, o: Observation) => ObservedBy(j, o)
  }

  /** A journal and its full log after a run of observations. */
  function History(os: seq<Observation>): (Journal, seq<LogEntry>) {
    Fold(ObserveStep(), os, EmptyJournal())
  }
}
