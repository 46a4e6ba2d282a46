/**
 * The traffic alert on its way into the journal. The confirmation window lives in memory and starts
 * again at quiet after a restart of the agent; the journal survives.
 */
module TrafficJournal {
  import opened Prelude
  import opened Folding
  import opened StatusStability
  import opened DiagnosticJournal
  import opened DiagnosticChecks
  import opened DiagnosticBounds
  import opened DiagnosticSamples
  import Traffic = TrafficAlerts

  datatype IntervalKind = Realtime | CatchUp | Unavailable

  /** The row of the local source, if the projection has one. */
  datatype LocalSource = NoRow | Row(status: string, enabled: bool, updatedAt: Stamp)

  function Availability(status: string, enabled: bool): Status {
    if !enabled || status == "disabled" then Disabled
    else if status in ["ok", "degraded", "healthy", "error"] then Observed
    else Unknown
  }

  function LevelRank(level: Traffic.Level): int {
    match level case Quiet => 0 case Warning => 1 case Critical => 2
  }

  function SeverityOf(level: Traffic.Level): Option<Severity> {
    match level case Quiet => None case Warning => Some(Warning) case Critical => Some(Critical)
  }

  /** Pending worsening is no evidence that an earlier condition cleared. */
  function TrafficStatus(local: LocalSource, kind: IntervalKind, level: Traffic.Level,
                         candidate: Option<Traffic.Level>): Status {
    if candidate.Some? && LevelRank(candidate.value) > LevelRank(level) then Unknown
    else if (local.Row? && local.status == "error") || kind != Realtime then Unknown
    else if local.NoRow? then Unobserved
    else Availability(local.status, local.enabled)
  }

  function TrafficCheck(now: int, id: Id, subject: Subject, local: LocalSource, kind: IntervalKind,
                        st: Stability<Traffic.Level>): (c: Check)
    ensures c.id == id
  {
    Made(now, id, subject, SeverityOf(st.status), TrafficStatus(local, kind, st.status, st.pending),
         if local.Row? then local.updatedAt else Missing, FRESHNESS)
  }

  /** One sampling cycle: the raw level its windows give, and the checks of the other families around it. */
  datatype Cycle = Cycle(now: int, kind: IntervalKind, raw: Traffic.Level, local: LocalSource,
                         before: seq<Check>, after: seq<Check>, truncated: bool, commits: bool)

  datatype Step = Sample(cycle: Cycle) | AgentRestart

  datatype Agent = Agent(stability: Stability<Traffic.Level>, journal: Journal)

  function FreshStability(): Stability<Traffic.Level> {
    Stability(Traffic.Quiet, None, 0)
  }

  /** Unavailable cycles do not reach the alert. */
  function Evaluated(st: Stability<Traffic.Level>, c: Cycle): Stability<Traffic.Level> {
    if c.kind == Unavailable then st else StatusStability.Observed(Traffic.AlertWindows(), st, c.raw, false)
  }

  function ChecksOf(id: Id, subject: Subject, st: Stability<Traffic.Level>, c: Cycle): seq<Check> {
    c.before + [TrafficCheck(c.now, id, subject, c.local, c.kind, st)] + c.after
  }

  function Stepped(id: Id, subject: Subject, a: Agent, s: Step): (Agent, seq<LogEntry>) {
    match s
    case AgentRestart => (a.(stability := FreshStability()), [])
    case Sample(c) =>
      var st := Evaluated(a.stability, c);
      var (journal, log) := ObservedBy(a.journal,
                                       Observation(c.now, ChecksOf(id, subject, st, c), c.truncated, c.commits));
      (Agent(st, journal), log)
  }

  /** Ids are injective, so no other family files a check under the traffic id. */
  ghost predicate OthersDiffer(id: Id, c: Cycle) {
    (forall x :: x in c.before ==> x.id != id) && (forall x :: x in c.after ==> x.id != id)
  }

  predicate Recovers(e: LogEntry, id: Id) {
    e.Emitted? && e.event.id == id && e.event.transition == Recovered
  }

  predicate EmitsFor(log: seq<LogEntry>, id: Id) {
    exists e :: e in log && e.Emitted? && e.event.id == id
  }

  // ---- A single sample ----

  lemma {:induction false} OtherChecksSayNothing(j: Journal, cs: seq<Check>, now: int, id: Id)
    requires forall x :: x in cs ==> x.id != id
    ensures !EmitsFor(Fold(RecordStep(now), cs, j).1, id)
    ensures Lookup(Fold(RecordStep(now), cs, j).0.active, id) == Lookup(j.active, id)
    decreases |cs|
  {
    if cs != [] {
      assert cs[0] in cs;
      var (next, first) := RecordStep(now)(j, cs[0]);
      OneCheckSpeaksForItself(j, cs[0], now);
      OtherChecksSayNothing(next, cs[1..], now, id);
    }
  }

  lemma OneCheckSpeaksForItself(j: Journal, c: Check, now: int)
    ensures forall e :: e in NewEvents(j, Recorded(j, c, now)) ==> e.Emitted? && e.event.id == c.id
  {
  }

  /** What a check does to its own condition. */
  lemma OneCheckDecides(j: Journal, c: Check, now: int)
    ensures c.status != Observed ==> NewEvents(j, Recorded(j, c, now)) == []
    ensures forall e :: e in NewEvents(j, Recorded(j, c, now)) && e.event.transition == Recovered ==> c.severity.None?
    ensures c.status != Observed ==> Lookup(Recorded(j, c, now).active, c.id) == Lookup(j.active, c.id)
    ensures c.severity.Some? && c.id in j.active ==> c.id in Recorded(j, c, now).active
  {
  }

  lemma CycleSplits(id: Id, subject: Subject, st: Stability<Traffic.Level>, c: Cycle, j: Journal)
    ensures var step, check := RecordStep(c.now), TrafficCheck(c.now, id, subject, c.local, c.kind, st);
            var whole, a := Fold(step, ChecksOf(id, subject, st, c), j), Fold(step, c.before, j);
            var b := step(a.0, check);
            var z := Fold(step, c.after, b.0);
            whole.0 == z.0 && whole.1 == a.1 + b.1 + z.1
  {
    var step, check := RecordStep(c.now), TrafficCheck(c.now, id, subject, c.local, c.kind, st);
    FoldConcat(step, c.before + [check], c.after, j);
    FoldConcat(step, c.before, [check], j);
    FoldOne(step, check, Fold(step, c.before, j).0);
  }

  /** Observed without severity means a realtime cycle, an available source and a quiet raw level. */
  lemma ClearMeansQuiet(now: int, id: Id, subject: Subject, window: Stability<Traffic.Level>, c: Cycle)
    ensures var check := TrafficCheck(now, id, subject, c.local, c.kind, Evaluated(window, c));
            check.status == Observed && check.severity.None?
            ==> c.raw == Traffic.Quiet && c.kind == Realtime && c.local.Row?
                && c.local.status in ["ok", "degraded", "healthy"]
  {
    NothingPendingMeansConfirmed(Traffic.AlertWindows(), window, c.raw, false);
  }

  /** Wherever the confirmation window stands, one cycle emits for the traffic condition only what it saw. */
  lemma CycleSpeaksTruly(id: Id, subject: Subject, a: Agent, c: Cycle, e: LogEntry)
    requires OthersDiffer(id, c)
    requires e in Stepped(id, subject, a, Sample(c)).1 && e.Emitted? && e.event.id == id
    ensures c.kind == Realtime && c.local.Row? && c.local.status in ["ok", "degraded", "healthy"]
    ensures e.event.transition == Recovered ==> c.raw == Traffic.Quiet
  {
    var st := Evaluated(a.stability, c);
    var o := Observation(c.now, ChecksOf(id, subject, st, c), c.truncated, c.commits);
    var j := Opened(a.journal, o);
    var step, check := RecordStep(c.now), TrafficCheck(c.now, id, subject, c.local, c.kind, st);
    CycleSplits(id, subject, st, c, j);
    OtherChecksSayNothing(j, c.before, c.now, id);
    var first := Fold(step, c.before, j);
    OneCheckDecides(first.0, check, c.now);
    var second := step(first.0, check);
    OtherChecksSayNothing(second.0, c.after, c.now, id);
    assert e in second.1;
    ClearMeansQuiet(c.now, id, subject, a.stability, c);
  }

  // ---- Any run ----

  function StepOf(id: Id, subject: Subject): (Agent, Step) -> (Agent, seq<LogEntry>) {
    (a: Agent, s: Step) => Stepped(id, subject, a, s)
  }

  ghost predicate AllDiffer(id: Id, steps: seq<Step>) {
    forall i :: 0 <= i < |steps| && steps[i].Sample? ==> OthersDiffer(id, steps[i].cycle)
  }

  /** Step `i` of the run is a quiet realtime cycle, and it wrote the entry. */
  ghost predicate QuietlyWritten(id: Id, subject: Subject, a: Agent, steps: seq<Step>, i: int, e: LogEntry)
    requires 0 <= i < |steps|
  {
    && steps[i].Sample? && steps[i].cycle.raw == Traffic.Quiet && steps[i].cycle.kind == Realtime
    && e in Stepped(id, subject, Fold(StepOf(id, subject), steps[..i], a).0, steps[i]).1
  }

  /** Restarts anywhere: every recovery in the log was written by a cycle whose raw level was quiet. */
  lemma RecoveriesAreQuiet(id: Id, subject: Subject, a: Agent, steps: seq<Step>, e: LogEntry)
    requires AllDiffer(id, steps)
    requires e in Fold(StepOf(id, subject), steps, a).1 && Recovers(e, id)
    ensures exists i :: 0 <= i < |steps| && QuietlyWritten(id, subject, a, steps, i, e)
  {
    var i := QuietWriter(id, subject, a, steps, e);
  }

  lemma {:induction false} QuietWriter(id: Id, subject: Subject, a: Agent, steps: seq<Step>, e: LogEntry)
    returns (i: nat)
    requires AllDiffer(id, steps)
    requires e in Fold(StepOf(id, subject), steps, a).1 && Recovers(e, id)
    ensures i < |steps| && QuietlyWritten(id, subject, a, steps, i, e)
    decreases |steps|
  {
    var next := Stepped(id, subject, a, steps[0]).0;
    if e in Fold(StepOf(id, subject), steps[1..], next).1 {
      i := QuietWriter(id, subject, next, steps[1..], e);
      QuietlyWrittenLater(id, subject, a, steps, i, e);
      i := i + 1;
    } else {
      i := 0;
      QuietStep(id, subject, a, steps[0], e);
      assert steps[..0] == [];
    }
  }

  lemma QuietlyWrittenLater(id: Id, subject: Subject, a: Agent, steps: seq<Step>, i: nat, e: LogEntry)
    requires i + 1 < |steps|
    requires QuietlyWritten(id, subject, Stepped(id, subject, a, steps[0]).0, steps[1..], i, e)
    ensures QuietlyWritten(id, subject, a, steps, i + 1, e)
  {
    assert steps[..i + 1][1..] == steps[1..][..i];
  }

  lemma QuietStep(id: Id, subject: Subject, last: Agent, s: Step, e: LogEntry)
    requires s.Sample? ==> OthersDiffer(id, s.cycle)
    requires e in Stepped(id, subject, last, s).1 && Recovers(e, id)
    ensures s.Sample? && s.cycle.raw == Traffic.Quiet && s.cycle.kind == Realtime
  {
    CycleSpeaksTruly(id, subject, last, s.cycle, e);
  }

  /** So a run without a quiet realtime cycle recovers nothing, however often the agent restarts. */
  lemma LoudRunsRecoverNothing(id: Id, subject: Subject, a: Agent, steps: seq<Step>)
    requires AllDiffer(id, steps)
    requires forall i :: 0 <= i < |steps| && steps[i].Sample? ==>
               steps[i].cycle.raw != Traffic.Quiet || steps[i].cycle.kind != Realtime
    ensures forall e :: e in Fold(StepOf(id, subject), steps, a).1 ==> !Recovers(e, id)
  {
    forall e | e in Fold(StepOf(id, subject), steps, a).1
      ensures !Recovers(e, id)
    {
      if Recovers(e, id) {
        RecoveriesAreQuiet(id, subject, a, steps, e);
      }
    }
  }

  // ---- Recovery does come ----

  /** A committed realtime cycle at a quiet level with an available source and fresh evidence. */
  predicate Calm(c: Cycle) {
    && c.raw == Traffic.Quiet && c.kind == Realtime && c.commits
    && c.local.Row? && c.local.enabled && c.local.status == "ok"
    && c.local.updatedAt.At? && c.now - FRESHNESS <= c.local.updatedAt.epoch <= c.now + FRESHNESS
  }

  ghost predicate EvidenceUpTo(j: Journal, id: Id, epoch: int) {
    id in j.active ==> j.active[id].evidence <= epoch
  }

  lemma TwoQuietSamplesConfirm(st: Stability<Traffic.Level>)
    ensures var w := Traffic.AlertWindows();
            var one := StatusStability.Observed(w, st, Traffic.Quiet, false);
            StatusStability.Observed(w, one, Traffic.Quiet, false) == FreshStability()
  {
  }

  /** What a calm cycle leaves of the traffic condition. */
  lemma CalmCycle(id: Id, subject: Subject, a: Agent, c: Cycle)
    requires OthersDiffer(id, c) && Calm(c)
    requires a.journal.observedAt.Some? ==> a.journal.observedAt.value <= c.now
    requires EvidenceUpTo(a.journal, id, c.local.updatedAt.epoch)
    ensures var after := Stepped(id, subject, a, Sample(c)).0;
            && after.stability == Evaluated(a.stability, c)
            && after.journal.observedAt == Some(c.now)
            && EvidenceUpTo(after.journal, id, c.local.updatedAt.epoch)
            && (after.stability.status == Traffic.Quiet ==> id !in after.journal.active)
  {
    var st := Evaluated(a.stability, c);
    var o := Observation(c.now, ChecksOf(id, subject, st, c), c.truncated, c.commits);
    var j := Opened(a.journal, o);
    var step, check := RecordStep(c.now), TrafficCheck(c.now, id, subject, c.local, c.kind, st);
    CycleSplits(id, subject, st, c, j);
    OtherChecksSayNothing(j, c.before, c.now, id);
    var first := Fold(step, c.before, j);
    var second := step(first.0, check);
    CalmCheckSettles(first.0, id, subject, st, c);
    OtherChecksSayNothing(second.0, c.after, c.now, id);
    ChecksKeepTheClock(j, o.checks, c.now);
  }

  lemma CalmCheckSettles(j: Journal, id: Id, subject: Subject, st: Stability<Traffic.Level>, c: Cycle)
    requires Calm(c) && EvidenceUpTo(j, id, c.local.updatedAt.epoch)
    requires st.status == Traffic.Quiet ==> st.pending.None?
    requires st.pending.Some? ==> st.pending.value == Traffic.Quiet
    ensures var after := Recorded(j, TrafficCheck(c.now, id, subject, c.local, c.kind, st), c.now);
            EvidenceUpTo(after, id, c.local.updatedAt.epoch) && (st.status == Traffic.Quiet ==> id !in after.active)
  {
  }

  // ---- And a raised level is reported ----

  /** A committed realtime cycle at some level with an available source and evidence of the last minute. */
  predicate Steady(c: Cycle) {
    && c.kind == Realtime && c.commits && c.local.Row? && c.local.enabled && c.local.status == "ok"
    && c.local.updatedAt.At? && c.now - 60 <= c.local.updatedAt.epoch <= c.now + 60
  }

  lemma SteadyIsObserved(id: Id, subject: Subject, st: Stability<Traffic.Level>, c: Cycle)
    requires Steady(c) && st.pending.None?
    ensures var check := TrafficCheck(c.now, id, subject, c.local, c.kind, st);
            && check.status == Observed && check.evidence == Some(c.local.updatedAt.epoch) && check.subject == subject
            && (check.severity == None <==> st.status == Traffic.Quiet)
            && (check.severity == Some(Warning) <==> st.status == Traffic.Warning)
            && (check.severity == Some(Critical) <==> st.status == Traffic.Critical)
  {
  }

  /** A cycle whose level is confirmed opens the condition with its severity and evidence, and writes one event if it
      was not open or open with another severity. */
  lemma ConfirmedLevelIsReported(id: Id, subject: Subject, a: Agent, c: Cycle) returns (open: map<Id, Condition>)
    requires Steady(c) && c.raw != Traffic.Quiet && Evaluated(a.stability, c) == Stability(c.raw, None, 0)
    requires DistinctIds(ChecksOf(id, subject, Evaluated(a.stability, c), c))
    requires a.journal.observedAt.Some? ==> a.journal.observedAt.value <= c.now
    requires EvidenceUpTo(a.journal, id, c.local.updatedAt.epoch)
    ensures var (after, log) := Stepped(id, subject, a, Sample(c));
            var checks := ChecksOf(id, subject, Evaluated(a.stability, c), c);
            var severity := if c.raw == Traffic.Warning then Warning else Critical;
            var prior, es := Lookup(a.journal.active, id), EventsAbout(EmittedOf(log), id);
            && LeftOpen(a.journal, Observation(c.now, checks, c.truncated, true), open, after.journal.active)
            && id in open && open[id].severity == severity && open[id].evidence == c.local.updatedAt.epoch
            && |es| == (if prior.Some? && prior.value.severity == severity then 0 else 1)
            && (es != [] ==> es[0].severity == severity && es[0].at == c.now
                             && es[0].transition == if prior.None? then Raised else Changed)
  {
    var st := Evaluated(a.stability, c);
    var checks := ChecksOf(id, subject, st, c);
    var o := Observation(c.now, checks, c.truncated, c.commits);
    SteadyIsObserved(id, subject, st, c);
    assert checks[|c.before|] == TrafficCheck(c.now, id, subject, c.local, c.kind, st);
    SampleWrites(a.journal, o);
    open := SampleOpens(a.journal, o);
    assert OpenUnder(a.journal, o, id, Lookup(open, id));
    assert Writes(EventsAbout(EmittedOf(ObservedBy(a.journal, o).1), id), Lookup(a.journal.active, id),
                  checks[|c.before|], c.now);
  }

  /** Two calm cycles in a row clear the condition, whatever the window held before. */
  lemma TwoCalmCyclesRecover(id: Id, subject: Subject, a: Agent, c1: Cycle, c2: Cycle)
    requires OthersDiffer(id, c1) && OthersDiffer(id, c2) && Calm(c1) && Calm(c2)
    requires a.journal.observedAt.Some? ==> a.journal.observedAt.value <= c1.now
    requires c1.now <= c2.now && c1.local.updatedAt.epoch <= c2.local.updatedAt.epoch
    requires EvidenceUpTo(a.journal, id, c1.local.updatedAt.epoch)
    ensures id !in Fold(StepOf(id, subject), [Sample(c1), Sample(c2)], a).0.journal.active
  {
    var step := StepOf(id, subject);
    var next := Stepped(id, subject, a, Sample(c1)).0;
    CalmCycle(id, subject, a, c1);
    TwoQuietSamplesConfirm(a.stability);
    CalmCycle(id, subject, next, c2);
    assert [Sample(c1), Sample(c2)] == [Sample(c1)] + [Sample(c2)];
    FoldConcat(step, [Sample(c1)], [Sample(c2)], a);
    FoldOne(step, Sample(c1), a);
    FoldOne(step, Sample(c2), next);
  }
}
