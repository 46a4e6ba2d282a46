/** The ledger object and its update loop, and which of its histories are faithful runs. */
module CodexService {
  import opened Prelude
  import opened Folding
  import opened CodexRecords
  import opened CodexParser
  import opened CodexCheckpoint
  import opened CodexLog
  import opened CodexReading
  import opened CodexTail
  import opened CodexDays
  import opened CodexLedger
  import opened CodexReplay

  /** A rollout file as one update sees it: its size when listed, its bytes when read, its size afterwards,
      and the position at which reading it fails, if it does. */
  datatype Candidate = Candidate(file: string, size: nat, content: Bytes, sizeAfter: nat, id: Identity,
                                 fault: Option<nat>) {
    predicate Sane() {
      size <= |content| <= sizeAfter
    }
  }

  /** A step that reading this candidate from an offset may give. */
  ghost predicate StepFor(c: Candidate, from: nat, step: Step)
    requires from <= |c.content|
  {
    match step
    case Poll(file, content, id, done, consumed, _) =>
      && file == c.file && content == c.content && id == c.id && done <= consumed <= |content|
      && Reached(content, from, done, consumed) && (Readable(content, from) ==> done == consumed)
    case FailedPoll(file, content, id, _) => c.fault.Some? && file == c.file && content == c.content && id == c.id
    case Reload => false
  }

  /** The step that reading this candidate from an offset under a budget gives: it stops where the budget makes the
      reader stop, is told to come back for a reason, and fails at a fault only. */
  ghost predicate StepUnder(c: Candidate, from: nat, budget: nat, step: Step)
    requires from <= |c.content|
  {
    && StepFor(c, from, step)
    && (step.Poll? ==> && step.consumed == Stop(c.content, from, budget)
                       && (step.exhausted <==> LeavesOff(c.content, c.sizeAfter, from, budget, step.consumed)))
    && (step.FailedPoll? ==> c.fault.Some? && c.fault.value <= |c.content|)
    && (budget > 0 && c.fault.Some? && c.fault.value <= from ==> step.FailedPoll?)
  }

  /** Bytes that a step moves the offset of its file by. */
  function UsedBy(step: Step, from: nat): nat {
    if step.Poll? && step.consumed >= from then step.consumed - from else 0
  }

  /** What is left of a scan limit bounds the next read; without a limit the unread bytes do. */
  function BudgetFor(c: Candidate, from: nat, limit: Option<nat>, scanned: nat): int {
    if limit.Some? then limit.value - scanned else c.size - from
  }

  /** What an update did with the candidates so far, in order: passed each over, or read it from an offset. */
  datatype Visit = Start | Past(rest: Visit) | Read(rest: Visit, from: nat, step: Step) {
    function Count(): nat {
      match this
      case Start => 0
      case Past(rest) => rest.Count() + 1
      case Read(rest, _, _) => rest.Count() + 1
    }

    function Steps(): seq<Step> {
      match this
      case Start => []
      case Past(rest) => rest.Steps()
      case Read(rest, _, step) => rest.Steps() + [step]
    }

    /** The bytes it read. */
    function Scanned(): nat {
      match this
      case Start => 0
      case Past(rest) => rest.Scanned()
      case Read(rest, from, step) => rest.Scanned() + UsedBy(step, from)
    }

    /** The offset of a file: where its last poll left it. */
    function OffsetOf(files: map<string, Entry>, file: string): nat {
      match this
      case Start => OffsetIn(files, file)
      case Past(rest) => rest.OffsetOf(files, file)
      case Read(rest, _, step) =>
        if step.Poll? && step.file == file then step.consumed else rest.OffsetOf(files, file)
    }

    /** Some read left bytes for a later call, or failed. */
    predicate LeftOff() {
      match this
      case Start => false
      case Past(rest) => rest.LeftOff()
      case Read(rest, _, step) => rest.LeftOff() || step.FailedPoll? || (step.Poll? && step.exhausted)
    }
  }

  function OffsetIn(files: map<string, Entry>, file: string): nat {
    if file in files then files[file].offset else 0
  }

  /** A candidate is read if it has unread bytes, from its offset and under what is left of the limit, and passed
      over otherwise. */
  ghost predicate Orderly(v: Visit, cs: seq<Candidate>, limit: Option<nat>, files: map<string, Entry>)
    ensures Orderly(v, cs, limit, files) ==> v.Count() <= |cs|
  {
    match v
    case Start => true
    case Past(rest) =>
      && Orderly(rest, cs, limit, files) && rest.Count() < |cs|
      && cs[rest.Count()].size <= rest.OffsetOf(files, cs[rest.Count()].file)
    case Read(rest, from, step) =>
      && Orderly(rest, cs, limit, files) && rest.Count() < |cs|
      && from == rest.OffsetOf(files, cs[rest.Count()].file)
      && Comes(cs[rest.Count()], from, limit, rest.Scanned(), step)
  }

  /** A step that reading this candidate gives, if it has unread bytes and the limit is not spent. */
  ghost predicate Comes(c: Candidate, from: nat, limit: Option<nat>, scanned: nat, step: Step) {
    && from < c.size && from <= |c.content| && BudgetFor(c, from, limit, scanned) > 0
    && StepUnder(c, from, BudgetFor(c, from, limit, scanned), step)
  }

  class CodexRolloutLedger {
    var days: Days
    var files: map<string, Entry>
    const seen: KeySet
    ghost var trace: seq<Step>

    function Value(): Ledger
      reads this, seen
    {
      Ledger(days, files, seen.keys)
    }

    /** The ledger is what its history of steps makes of the empty ledger. */
    ghost predicate Valid(env: Env)
      reads this, seen
    {
      Value() == Run(env, trace)
    }

    constructor (env: Env)
      ensures Valid(env) && trace == [] && fresh(seen)
    {
      days, files, trace := map[], map[], [];
      seen := new KeySet();
    }

    /** One increment into its day. */
    method AddIncrement(env: Env, e: TokenEvent)
      modifies this`days
      ensures days == AddEvent(env, old(days), e)
    {
      var d := env.dayOf(e.at);
      var day := Lookup(days, d, EmptyDay());
      day := day.(records := day.records + 1, duplicates := day.duplicates + Tick(e.duplicate),
                  inherited := day.inherited + Tick(e.inherited), resets := day.resets + Tick(e.reset));
      assert day == NoteInDay(Lookup(days, d, EmptyDay()), e);
      if e.usage.total > 0 {
        day := AddUsage(day, e.model, e.source, e.usage);
      }
      assert day == AddToDay(Lookup(days, d, EmptyDay()), e);
      days := days[d := day];
    }

    method AddIncrements(env: Env, increments: seq<TokenEvent>)
      modifies this`days
      ensures days == AddEvents(env, old(days), increments)
    {
      for i := 0 to |increments|
        invariant days == AddEvents(env, old(days), increments[..i])
      {
        AccumulateConcat(AddStep(env), increments[..i], [increments[i]], old(days));
        AccumulateOne(AddStep(env), increments[i], days);
        assert increments[..i] + [increments[i]] == increments[..i + 1];
        AddIncrement(env, increments[i]);
      }
      assert increments[..|increments|] == increments;
    }

    /** One file under a budget: read its tail, store its checkpoint, add its increments. */
    method PollFile(env: Env, c: Candidate, budget: nat) returns (stored: Entry, ghost step: Step)
      requires Valid(env) && c.Sane() && EntryOf(Value(), c.file).offset <= |c.content|
      modifies this`days, this`files, this`trace, seen
      ensures Valid(env)
      ensures trace == old(trace) + [step] && StepFor(c, old(EntryOf(Value(), c.file).offset), step)
      ensures files == old(files)[c.file := stored]
      ensures var offset := old(EntryOf(Value(), c.file).offset);
              && offset <= stored.offset <= offset + budget + 1 && stored.offset == offset + UsedBy(step, offset)
              && StepUnder(c, offset, budget, step)
      ensures stored.incomplete <==> step.FailedPoll? || step.exhausted
      ensures !stored.incomplete ==> stored.offset == |c.content|
    {
      ghost var l := Value();
      var entry := EntryOf(Value(), c.file);
      var increments;
      stored, increments, step := IngestStep(env, c, entry, budget, l, seen);
      files := files[c.file := stored];
      AddIncrements(env, increments);
      IngestIsStep(env, l, Value(), c, step, stored, increments);
      RunNext(env, trace, step);
      trace := trace + [step];
    }

    /** The next candidate of an update, which has unread bytes. */
    method PollNext(env: Env, candidates: seq<Candidate>, i: nat, budget: nat, ghost limit: Option<nat>,
                    ghost start: seq<Step>, ghost before: Visit, ghost scanned: nat, ghost partial: bool)
      returns (used: nat, left: bool, ghost visit: Visit)
      requires Valid(env) && trace == start + before.Steps() && i < |candidates|
      requires Progress(before, candidates, i, limit, Run(env, start).files, files, scanned, partial)
      requires var c, from := candidates[i], OffsetIn(files, candidates[i].file);
               c.Sane() && from < c.size && budget == BudgetFor(c, from, limit, scanned) > 0
      modifies this`days, this`files, this`trace, seen
      ensures Valid(env) && used <= budget + 1 && trace == start + visit.Steps()
      ensures Progress(visit, candidates, i + 1, limit, Run(env, start).files, files, scanned + used, partial || left)
    {
      var c := candidates[i];
      var offset := EntryOf(Value(), c.file).offset;
      ghost var old_files := files;
      var stored;
      ghost var step;
      stored, step := PollFile(env, c, budget);
      used, left, visit := stored.offset - offset, stored.incomplete, Read(before, offset, step);
      ReadProgresses(env, before, candidates, i, limit, start, old_files, scanned, partial, step, stored);
    }

    /** One update: the candidates in order, under a shared budget. An archived copy shorter than what was
        already captured is passed over. */
    method Update(env: Env, candidates: seq<Candidate>, maxScan: Option<nat>)
      returns (scanned: nat, partial: bool, ghost visit: Visit)
      requires Valid(env) && forall c <- candidates :: c.Sane()
      modifies this`days, this`files, this`trace, seen
      ensures Valid(env) && trace == old(trace) + visit.Steps()
      ensures Orderly(visit, candidates, maxScan, old(files)) && scanned == visit.Scanned()
      ensures OffsetsAre(files, old(files), visit)
      ensures visit.Count() < |candidates| ==>
                && maxScan.Some? && scanned >= maxScan.value
                && OffsetIn(files, candidates[visit.Count()].file) < candidates[visit.Count()].size
      ensures partial <==> || visit.Count() < |candidates| || visit.LeftOff()
                           || exists f <- files :: files[f].incomplete
      // with files at rest and a limit for all unread bytes, everything is read, by one poll each
      ensures Ample(candidates, maxScan, old(files)) ==>
                && visit.Count() == |candidates| && Totals(visit, candidates, old(files))
                && (forall j: nat | j < |candidates| :: OffsetRead(visit, candidates, old(files), j))
                && (partial <==> exists f <- files :: files[f].incomplete)
      ensures GaveAll(env, candidates, trace, |old(trace)|)
      ensures maxScan.Some? ==> scanned <= maxScan.value + 1
      ensures OffsetsKept(old(files), files) && (!partial ==> CaughtUp(files, candidates, |candidates|))
    {
      var remaining: int := maxScan.GetOr(0);
      scanned, partial, visit := 0, false, Start;
      for i := 0 to |candidates|
        invariant Valid(env) && trace == old(trace) + visit.Steps()
        invariant maxScan.Some? ==> scanned == maxScan.value - remaining && remaining >= -1
        invariant Progress(visit, candidates, i, maxScan, old(files), files, scanned, partial)
      {
        var c := candidates[i];
        var offset := OffsetIn(files, c.file);
        if c.size <= offset {
          PastProgresses(env, visit, candidates, i, maxScan, old(trace), files, scanned, partial);
          visit := Past(visit);
          continue;
        }
        if maxScan.Some? && remaining <= 0 {
          partial := true;
          break;
        }
        var budget := if maxScan.None? then c.size - offset else remaining;
        var used, left;
        used, left, visit := PollNext(env, candidates, i, budget, maxScan, old(trace), visit, scanned, partial);
        scanned, remaining, partial := scanned + used, remaining - used, partial || left;
      }
      UpdateEnds(env, visit, candidates, maxScan, old(trace));
      if Ample(candidates, maxScan, old(files)) {
        AmpleVisitIsWhole(visit, candidates, maxScan, old(files));
      }
      partial := partial || exists f <- files.Keys :: files[f].incomplete;
    }

    /** Saving the ledger and loading it again. */
    method Reload(env: Env)
      requires Valid(env)
      modifies this`files, this`trace
      ensures Valid(env) && trace == old(trace) + [Step.Reload]
    {
      RunNext(env, trace, Step.Reload);
      files := ReloadedFiles(files);
      trace := trace + [Step.Reload];
    }
  }

  ghost predicate OffsetsAre(files: map<string, Entry>, first: map<string, Entry>, v: Visit) {
    forall f :: OffsetIn(files, f) == v.OffsetOf(first, f)
  }

  lemma StepMovesOffset(env: Env, l: Ledger, c: Candidate, from: nat, step: Step, f: string)
    requires from == OffsetIn(l.files, c.file) <= |c.content| && StepFor(c, from, step)
    ensures OffsetIn(Apply(env, l, step).files, f)
         == if step.Poll? && step.file == f then step.consumed else OffsetIn(l.files, f)
  {
  }

  /** The offsets of a visit are those of the ledger. */
  lemma {:induction false} OffsetOfVisit(env: Env, v: Visit, cs: seq<Candidate>, limit: Option<nat>, start: seq<Step>,
                                         f: string)
    requires Orderly(v, cs, limit, Run(env, start).files)
    ensures OffsetIn(Run(env, start + v.Steps()).files, f) == v.OffsetOf(Run(env, start).files, f)
  {
    match v
    case Start =>
      assert start + v.Steps() == start;
    case Past(rest) =>
      OffsetOfVisit(env, rest, cs, limit, start, f);
    case Read(rest, from, step) =>
      OffsetOfVisit(env, rest, cs, limit, start, f);
      OffsetOfVisit(env, rest, cs, limit, start, cs[rest.Count()].file);
      RunNext(env, start + rest.Steps(), step);
      StepMovesOffset(env, Run(env, start + rest.Steps()), cs[rest.Count()], from, step, f);
      assert start + v.Steps() == (start + rest.Steps()) + [step];
  }

  /** Each step of a visit was given by a candidate. */
  lemma {:induction false} VisitGave(env: Env, v: Visit, cs: seq<Candidate>, limit: Option<nat>, start: seq<Step>)
    requires Orderly(v, cs, limit, Run(env, start).files)
    ensures GaveAll(env, cs, start + v.Steps(), |start|)
  {
    match v
    case Start =>
      assert start + v.Steps() == start;
    case Past(rest) =>
      VisitGave(env, rest, cs, limit, start);
    case Read(rest, from, step) =>
      VisitGave(env, rest, cs, limit, start);
      OffsetOfVisit(env, rest, cs, limit, start, cs[rest.Count()].file);
      GaveOneMore(env, cs, cs[rest.Count()], start + rest.Steps(), step, |start|);
      assert start + v.Steps() == (start + rest.Steps()) + [step];
  }

  /** What an update has done after `i` candidates, from the entries `first` to `files`. */
  ghost predicate Progress(v: Visit, cs: seq<Candidate>, i: nat, limit: Option<nat>, first: map<string, Entry>,
                           files: map<string, Entry>, scanned: nat, partial: bool) {
    && i <= |cs| && v.Count() == i && Orderly(v, cs, limit, first) && scanned == v.Scanned()
    && (partial <==> v.LeftOff()) && OffsetsKept(first, files) && (!partial ==> CaughtUp(files, cs, i))
  }

  lemma PastProgresses(env: Env, v: Visit, cs: seq<Candidate>, i: nat, limit: Option<nat>, start: seq<Step>,
                       files: map<string, Entry>, scanned: nat, partial: bool)
    requires Progress(v, cs, i, limit, Run(env, start).files, files, scanned, partial)
    requires i < |cs| && files == Run(env, start + v.Steps()).files && cs[i].size <= OffsetIn(files, cs[i].file)
    ensures Progress(Past(v), cs, i + 1, limit, Run(env, start).files, files, scanned, partial)
  {
    OffsetOfVisit(env, v, cs, limit, start, cs[i].file);
    PassesOver(v, cs, i, limit, Run(env, start).files, files, partial);
  }

  lemma PassesOver(v: Visit, cs: seq<Candidate>, i: nat, limit: Option<nat>, first: map<string, Entry>,
                   files: map<string, Entry>, partial: bool)
    requires i < |cs| && v.Count() == i && Orderly(v, cs, limit, first) && (!partial ==> CaughtUp(files, cs, i))
    requires cs[i].size <= OffsetIn(files, cs[i].file) == v.OffsetOf(first, cs[i].file)
    ensures Orderly(Past(v), cs, limit, first) && (!partial ==> CaughtUp(files, cs, i + 1))
  {
  }

  lemma ReadProgresses(env: Env, v: Visit, cs: seq<Candidate>, i: nat, limit: Option<nat>, start: seq<Step>,
                       files: map<string, Entry>, scanned: nat, partial: bool, step: Step, stored: Entry)
    requires Progress(v, cs, i, limit, Run(env, start).files, files, scanned, partial)
    requires i < |cs| && files == Run(env, start + v.Steps()).files
    requires var from := OffsetIn(files, cs[i].file);
             && Comes(cs[i], from, limit, scanned, step) && stored.offset == from + UsedBy(step, from)
    requires stored.incomplete <==> step.FailedPoll? || step.exhausted
    requires !stored.incomplete ==> stored.offset == |cs[i].content| && cs[i].Sane()
    ensures var from := OffsetIn(files, cs[i].file);
            Progress(Read(v, from, step), cs, i + 1, limit, Run(env, start).files, files[cs[i].file := stored],
                     scanned + UsedBy(step, from), partial || stored.incomplete)
  {
    OffsetOfVisit(env, v, cs, limit, start, cs[i].file);
    OneMorePolled(files, stored, cs, i);
    KeptTwice(Run(env, start).files, files, files[cs[i].file := stored]);
  }

  /** What an update leaves, as far as its visit tells. */
  lemma UpdateEnds(env: Env, v: Visit, cs: seq<Candidate>, limit: Option<nat>, start: seq<Step>)
    requires Orderly(v, cs, limit, Run(env, start).files)
    ensures GaveAll(env, cs, start + v.Steps(), |start|)
    ensures OffsetsAre(Run(env, start + v.Steps()).files, Run(env, start).files, v)
  {
    VisitGave(env, v, cs, limit, start);
    forall f ensures OffsetIn(Run(env, start + v.Steps()).files, f) == v.OffsetOf(Run(env, start).files, f) {
      OffsetOfVisit(env, v, cs, limit, start, f);
    }
  }

  ghost predicate OffsetsKept(before: map<string, Entry>, after: map<string, Entry>) {
    forall f <- before :: f in after && after[f].offset >= before[f].offset
  }

  predicate CaughtUp(files: map<string, Entry>, candidates: seq<Candidate>, n: nat)
    requires n <= |candidates|
  {
    forall j | 0 <= j < n ::
      OffsetIn(files, candidates[j].file) >= candidates[j].size
  }

  lemma KeptTwice(a: map<string, Entry>, b: map<string, Entry>, c: map<string, Entry>)
    requires OffsetsKept(a, b) && OffsetsKept(b, c)
    ensures OffsetsKept(a, c)
  {
  }

  /** Polling candidate `i` stores its entry only; read to its size, it joins those caught up. */
  lemma OneMorePolled(before: map<string, Entry>, stored: Entry, candidates: seq<Candidate>, i: nat)
    requires i < |candidates|
    requires candidates[i].file in before ==> stored.offset >= before[candidates[i].file].offset
    ensures var after := before[candidates[i].file := stored];
            && OffsetsKept(before, after)
            && (CaughtUp(before, candidates, i) && stored.offset >= candidates[i].size
                ==> CaughtUp(after, candidates, i + 1))
  {
    if CaughtUp(before, candidates, i) && stored.offset >= candidates[i].size {
      var after := before[candidates[i].file := stored];
      forall j | 0 <= j < i + 1
        ensures OffsetIn(after, candidates[j].file) >= candidates[j].size
      {
      }
    }
  }

  // ---- An update that may read everything ----

  function UnreadIn(c: Candidate, files: map<string, Entry>): nat {
    Max(0, c.size - OffsetIn(files, c.file))
  }

  /** The unread bytes of the first candidates. */
  function Unread(cs: seq<Candidate>, n: nat, files: map<string, Entry>): nat
    requires n <= |cs|
  {
    if n == 0 then 0 else Unread(cs, n - 1, files) + UnreadIn(cs[n - 1], files)
  }

  function PollToEnd(c: Candidate): Step {
    Poll(c.file, c.content, c.id, |c.content|, |c.content|, false)
  }

  /** One poll to the end of each candidate with unread bytes, in order. */
  function PollsToEnd(cs: seq<Candidate>, n: nat, files: map<string, Entry>): seq<Step>
    requires n <= |cs|
  {
    if n == 0 then []
    else PollsToEnd(cs, n - 1, files) + if UnreadIn(cs[n - 1], files) > 0 then [PollToEnd(cs[n - 1])] else []
  }

  /** A file at rest, of complete lines that fit, which can be read without errors. */
  ghost predicate AtRest(c: Candidate, files: map<string, Entry>) {
    && c.fault.None? && c.size == |c.content| == c.sizeAfter
    && (UnreadIn(c, files) > 0 ==> Fits(c.content, OffsetIn(files, c.file)))
  }

  /** Different files, all of them at rest, and a scan limit for all of their unread bytes. */
  ghost predicate Ample(cs: seq<Candidate>, limit: Option<nat>, files: map<string, Entry>) {
    && (forall c <- cs :: AtRest(c, files))
    && (forall i, j | 0 <= i < j < |cs| :: cs[i].file != cs[j].file)
    && (limit.Some? ==> Unread(cs, |cs|, files) <= limit.value)
  }

  lemma {:induction false} UnreadGrows(cs: seq<Candidate>, n: nat, m: nat, files: map<string, Entry>)
    requires n <= m <= |cs|
    ensures Unread(cs, n, files) <= Unread(cs, m, files)
  {
    if n < m {
      UnreadGrows(cs, n, m - 1, files);
    }
  }

  /** Reading a file at rest under a budget for its unread bytes ends at its end, with nothing left. */
  lemma ReadsToEnd(c: Candidate, files: map<string, Entry>, budget: nat, step: Step)
    requires AtRest(c, files) && OffsetIn(files, c.file) < c.size && budget >= UnreadIn(c, files)
    requires StepUnder(c, OffsetIn(files, c.file), budget, step)
    ensures step == PollToEnd(c)
  {
    var from := OffsetIn(files, c.file);
    BudgetReadsAll(c.content, from, from, budget);
    assert step.done == |c.content| by {
      assert c.content[|c.content| - 1] == NEWLINE;
    }
  }

  /** One poll to the end of each unread candidate so far, no more, and nothing left. */
  predicate Totals(v: Visit, cs: seq<Candidate>, files: map<string, Entry>)
    requires v.Count() <= |cs|
  {
    v.Steps() == PollsToEnd(cs, v.Count(), files) && v.Scanned() == Unread(cs, v.Count(), files) && !v.LeftOff()
  }

  /** The offset of candidate `j`: its size once it has been visited, unless it was beyond that already. */
  predicate OffsetRead(v: Visit, cs: seq<Candidate>, files: map<string, Entry>, j: nat)
    requires j < |cs|
  {
    v.OffsetOf(files, cs[j].file)
    == if j < v.Count() then Max(cs[j].size, OffsetIn(files, cs[j].file)) else OffsetIn(files, cs[j].file)
  }

  lemma NextIsToEnd(cs: seq<Candidate>, n: nat, limit: Option<nat>, files: map<string, Entry>, step: Step)
    requires n < |cs| && Ample(cs, limit, files)
    requires Comes(cs[n], OffsetIn(files, cs[n].file), limit, Unread(cs, n, files), step)
    ensures step == PollToEnd(cs[n]) && UsedBy(step, OffsetIn(files, cs[n].file)) == UnreadIn(cs[n], files)
    ensures cs[n].size == |cs[n].content|
  {
    assert cs[n] in cs;
    UnreadGrows(cs, n + 1, |cs|, files);
    ReadsToEnd(cs[n], files, BudgetFor(cs[n], OffsetIn(files, cs[n].file), limit, Unread(cs, n, files)), step);
  }

  lemma PastKeepsTotals(rest: Visit, cs: seq<Candidate>, files: map<string, Entry>, j: nat)
    requires rest.Count() < |cs| && Totals(rest, cs, files) && j < |cs| && OffsetRead(rest, cs, files, j)
    requires OffsetRead(rest, cs, files, rest.Count())
    requires cs[rest.Count()].size <= rest.OffsetOf(files, cs[rest.Count()].file)
    ensures Totals(Past(rest), cs, files) && OffsetRead(Past(rest), cs, files, j)
  {
  }

  lemma ReadKeepsTotals(rest: Visit, cs: seq<Candidate>, files: map<string, Entry>, from: nat, step: Step, j: nat)
    requires rest.Count() < |cs| && Totals(rest, cs, files) && j < |cs| && OffsetRead(rest, cs, files, j)
    requires j != rest.Count() ==> cs[j].file != cs[rest.Count()].file
    requires var c := cs[rest.Count()];
             && step == PollToEnd(c) && from == OffsetIn(files, c.file) < c.size == |c.content|
             && UsedBy(step, from) == UnreadIn(c, files)
    ensures Totals(Read(rest, from, step), cs, files) && OffsetRead(Read(rest, from, step), cs, files, j)
  {
  }

  lemma {:induction false} AmpleVisitReadsAll(v: Visit, cs: seq<Candidate>, limit: Option<nat>,
                                              files: map<string, Entry>, j: nat)
    requires Ample(cs, limit, files) && Orderly(v, cs, limit, files) && j < |cs|
    ensures Totals(v, cs, files) && OffsetRead(v, cs, files, j)
  {
    match v
    case Start =>
    case Past(rest) =>
      AmpleVisitReadsAll(rest, cs, limit, files, j);
      AmpleVisitReadsAll(rest, cs, limit, files, rest.Count());
      PastKeepsTotals(rest, cs, files, j);
    case Read(rest, from, step) =>
      AmpleVisitReadsAll(rest, cs, limit, files, j);
      AmpleVisitReadsAll(rest, cs, limit, files, rest.Count());
      NextIsToEnd(cs, rest.Count(), limit, files, step);
      ReadKeepsTotals(rest, cs, files, from, step, j);
  }

  /** Such an update visits every candidate: a spent limit never cuts it short. */
  lemma AmpleVisitIsWhole(v: Visit, cs: seq<Candidate>, limit: Option<nat>, files: map<string, Entry>)
    requires Ample(cs, limit, files) && Orderly(v, cs, limit, files)
    requires v.Count() < |cs| ==>
               limit.Some? && v.Scanned() >= limit.value && v.OffsetOf(files, cs[v.Count()].file) < cs[v.Count()].size
    ensures v.Count() == |cs| && Totals(v, cs, files)
    ensures forall j: nat | j < |cs| :: OffsetRead(v, cs, files, j)
  {
    forall j: nat | j < |cs| ensures OffsetRead(v, cs, files, j) {
      AmpleVisitReadsAll(v, cs, limit, files, j);
    }
    if cs != [] {
      AmpleVisitReadsAll(v, cs, limit, files, 0);
    }
    if v.Count() < |cs| {
      assert OffsetRead(v, cs, files, v.Count());
      UnreadGrows(cs, v.Count() + 1, |cs|, files);
    }
  }

  /** A step that reading a candidate from the ledger's own offset gave. */
  ghost predicate GaveStep(env: Env, before: seq<Step>, c: Candidate, step: Step) {
    var from := EntryOf(Run(env, before), c.file).offset;
    from <= |c.content| && StepFor(c, from, step)
  }

  ghost predicate GaveAll(env: Env, candidates: seq<Candidate>, steps: seq<Step>, start: nat) {
    forall i | start <= i < |steps| :: exists c <- candidates :: GaveStep(env, steps[..i], c, steps[i])
  }

  lemma GaveOneMore(env: Env, candidates: seq<Candidate>, c: Candidate, before: seq<Step>, step: Step, start: nat)
    requires GaveAll(env, candidates, before, start) && c in candidates && GaveStep(env, before, c, step)
    ensures GaveAll(env, candidates, before + [step], start)
  {
    var after := before + [step];
    forall i | start <= i < |after| ensures exists c <- candidates :: GaveStep(env, after[..i], c, after[i]) {
      if i < |before| {
        assert after[..i] == before[..i] && after[i] == before[i];
      }
    }
  }

  // ---- From candidates to faithful runs ----

  /** A candidate as the agent normally meets it: an append-only file with clean, readable lines, read without
      errors under its own lineage. */
  predicate GoodCandidate(env: Env, ids: map<string, Identity>, headed: set<string>, captured: Bytes, c: Candidate) {
    && c.fault.None? && captured <= c.content && Readable(c.content, |captured|) && CleanBytes(env, c.content)
    && c.file in ids && (c.id == ids[c.file] || (c.file in headed && !HeaderFirst(env, c.content)))
    && StandsIn(c.id, ids[c.file], c.file in headed)
    && (c.file in headed && !Plain(c.content, 0, |c.content|) ==> HeaderFirst(env, c.content))
  }

  ghost predicate GoodStep(env: Env, ids: map<string, Identity>, headed: set<string>, before: seq<Step>, step: Step) {
    step.Reload? || exists c: Candidate :: GoodCandidate(env, ids, headed, Lookup(Captured(before), c.file, []), c)
                                           && GaveStep(env, before, c, step)
  }

  lemma PrefixIsClean(env: Env, now: Bytes, rest: Bytes)
    requires Ended(now) && CleanBytes(env, now + rest)
    ensures CleanBytes(env, now)
  {
    LinesConcat(now, rest);
    assert forall line <- Lines(now) :: line in Lines(now + rest);
  }

  lemma PrefixHasHeader(env: Env, now: Bytes, rest: Bytes)
    requires now != [] && Ended(now) && HeaderFirst(env, now + rest)
    ensures HeaderFirst(env, now)
  {
    LineEndOfPrefix(now, rest);
    assert now[..LineEnd(now)] == (now + rest)[..LineEnd(now)];
  }

  lemma GoodPollIsFaithful(env: Env, ids: map<string, Identity>, headed: set<string>, captured: Bytes, c: Candidate,
                           step: Step)
    requires GoodCandidate(env, ids, headed, captured, c) && Ended(captured)
    requires StepFor(c, |captured|, step)
    ensures step.Poll? && FaithfulPoll(env, ids, headed, captured, step)
  {
    var now, rest := c.content[..step.done], c.content[step.done..];
    GrownPrefix(c.content, captured, step.done);
    PrefixIsClean(env, now, rest);
    if step.done > 0 && c.file in headed {
      PrefixHasHeader(env, now, rest);
    }
  }

  lemma GrownPrefix(content: Bytes, captured: Bytes, done: nat)
    requires captured <= content && Ended(captured)
    requires |captured| <= done <= |content| && Boundary(content, |captured|, done)
    ensures Ended(content[..done]) && content == content[..done] + content[done..]
    ensures done > 0 ==> content[done - 1] == NEWLINE
  {
    assert done == |captured| ==> content[..done] == captured;
    assert done > 0 ==> content[..done][done - 1] == content[done - 1];
  }

  lemma GoodStepIsFaithful(env: Env, ids: map<string, Identity>, headed: set<string>, before: seq<Step>, step: Step)
    requires Faithful(env, ids, headed, before) && GoodStep(env, ids, headed, before, step)
    ensures FaithfulStep(env, ids, headed, Captured(before), step)
  {
    if !step.Reload? {
      var captured := Captured(before);
      var c: Candidate :| GoodCandidate(env, ids, headed, Lookup(captured, c.file, []), c)
          && GaveStep(env, before, c, step);
      CheckpointIsReplay(env, ids, headed, before);
      assert EntryOf(Run(env, before), c.file).offset == |Lookup(captured, c.file, [])|;
      GoodPollIsFaithful(env, ids, headed, Lookup(captured, c.file, []), c, step);
    }
  }

  /** Any history of updates and reloads over good candidates is a faithful run, so that everything proved of
      faithful runs holds of it. */
  lemma {:induction false} GoodHistoryIsFaithful(env: Env, ids: map<string, Identity>, headed: set<string>,
                                                 steps: seq<Step>)
    requires forall i: nat | i < |steps| :: GoodStep(env, ids, headed, steps[..i], steps[i])
    ensures Faithful(env, ids, headed, steps)
  {
    if steps != [] {
      var n, init := |steps| - 1, steps[..|steps| - 1];
      forall i: nat | i < |init| ensures GoodStep(env, ids, headed, init[..i], init[i]) {
        assert init[..i] == steps[..i];
      }
      GoodHistoryIsFaithful(env, ids, headed, init);
      assert steps[..n] == init;
      GoodStepIsFaithful(env, ids, headed, init, steps[n]);
    }
  }

  /** One growing file: whatever the splits into polls, the budgets and the reloads between them, the ledger's
      days, keys, offset and parser state are those of a one-shot replay of what was captured. */
  lemma GrowingFileIsItsReplay(env: Env, ids: map<string, Identity>, headed: set<string>, steps: seq<Step>, f: string)
    requires forall i: nat | i < |steps| :: GoodStep(env, ids, headed, steps[..i], steps[i])
    requires Captured(steps).Keys == {f}
    ensures f in ids && f in Run(env, steps).files
    ensures var captured, ledger := Captured(steps)[f], Run(env, steps);
            var (state, es) := OneShot(env, ids[f], captured);
            && ledger.days == DaysOf(env, es) && ledger.keys == KeysOf(es)
            && ledger.files[f].offset == |captured| && (captured != [] ==> ledger.files[f].state == Encode(state))
  {
    GoodHistoryIsFaithful(env, ids, headed, steps);
    CheckpointIsReplay(env, ids, headed, steps);
    assert f in Captured(steps).Keys;
    OneFileIsItsReplay(env, ids, headed, steps, f);
  }

  /** The entry a step stores. */
  function StoredBy(env: Env, l: Ledger, step: Step): Entry
    requires !step.Reload? && Possible(l, step)
  {
    if step.FailedPoll? then ReloadedEntry(EntryOf(l, step.file)).(incomplete := true)
    else Entry(step.consumed, Encode(Parsed(env, l, step).0), step.exhausted)
  }

  /** Ingesting a candidate, described as one step on the ledger it was called for. */
  method IngestStep(env: Env, c: Candidate, entry: Entry, budget: nat, ghost l: Ledger, seen: KeySet)
    returns (stored: Entry, increments: seq<TokenEvent>, ghost step: Step)
    requires c.Sane() && entry == EntryOf(l, c.file) && entry.offset <= |c.content| && seen.keys == l.keys
    modifies seen
    ensures !step.Reload? && step.file == c.file && Possible(l, step) && StepFor(c, entry.offset, step)
    ensures seen.keys == SettleAll(Parsed(env, l, step).1, l.keys).0
    ensures increments == if step.FailedPoll? then [] else SettleAll(Parsed(env, l, step).1, l.keys).1
    ensures stored == StoredBy(env, l, step)
    ensures entry.offset <= stored.offset <= entry.offset + budget + 1
    ensures stored.offset == entry.offset + UsedBy(step, entry.offset) && StepUnder(c, entry.offset, budget, step)
    ensures stored.incomplete <==> step.FailedPoll? || step.exhausted
    ensures !stored.incomplete ==> stored.offset == |c.content|
  {
    var consumed, state, exhausted;
    ghost var done, failed;
    consumed, state, increments, exhausted, done, failed :=
      IngestTail(env, c.content, c.sizeAfter, entry.offset, budget, c.fault, entry.state, c.id, seen);
    stored := Entry(consumed, state, exhausted);
    step := if failed then FailedPoll(c.file, c.content, c.id, done)
            else Poll(c.file, c.content, c.id, done, consumed, exhausted);
    if !failed && Readable(c.content, entry.offset) {
      ReadableIsWhole(c.content, entry.offset, done, consumed);
    }
  }

  /** The values an ingest call leaves behind are those of the step it took. */
  lemma IngestIsStep(env: Env, l: Ledger, l': Ledger, c: Candidate, step: Step, stored: Entry,
                     increments: seq<TokenEvent>)
    requires !step.Reload? && Possible(l, step) && step.file == c.file && stored == StoredBy(env, l, step)
    requires l'.keys == SettleAll(Parsed(env, l, step).1, l.keys).0
    requires increments == if step.FailedPoll? then [] else SettleAll(Parsed(env, l, step).1, l.keys).1
    requires l'.days == AddEvents(env, l.days, increments) && l'.files == l.files[c.file := stored]
    ensures l' == Apply(env, l, step)
  {
  }
}
