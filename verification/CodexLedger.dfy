/** The durable ledger over whole runs: polls, read errors and reloads, compared with a one-shot replay. */
module CodexLedger {
  import opened Folding
  import opened CodexRecords
  import opened CodexParser
  import opened CodexCheckpoint
  import opened CodexLog
  import opened CodexDays
  import opened CodexAgreement

  datatype Entry = Entry(offset: nat, state: StatePayload, incomplete: bool)

  datatype Ledger = Ledger(days: Days, files: map<string, Entry>, keys: set<DedupKey>)

  function EmptyLedger(): Ledger {
    Ledger(map[], map[], {})
  }

  function EntryOf(l: Ledger, file: string): Entry {
    Lookup(l.files, file, Entry(0, EmptyPayload(), false))
  }

  /** One thing that happens to a ledger. A poll went through the whole lines up to `done` and left the
      offset at `consumed`; a failed poll met a read error after the whole lines up to `done`; a reload is
      a save followed by a load. */
  datatype Step =
    | Poll(file: string, content: Bytes, id: Identity, done: nat, consumed: nat, exhausted: bool)
    | FailedPoll(file: string, content: Bytes, id: Identity, done: nat)
    | Reload

  predicate Possible(l: Ledger, step: Step) {
    step.Reload? || EntryOf(l, step.file).offset <= step.done <= |step.content|
  }

  /** What the parser makes of the bytes a poll goes through. */
  function Parsed(env: Env, l: Ledger, step: Step): (ParseState, seq<Emission>)
    requires !step.Reload? && Possible(l, step)
  {
    var entry := EntryOf(l, step.file);
    Replay(env, step.content[entry.offset..step.done], Decode(entry.state, step.id))
  }

  function ReloadedEntry(entry: Entry): Entry {
    entry.(state := Reloaded(entry.state))
  }

  function ReloadedFiles(files: map<string, Entry>): map<string, Entry> {
    map f | f in files :: ReloadedEntry(files[f])
  }

  /** The ledger after a poll parsed to `state` and `es`: keys inserted, events added, checkpoint stored. */
  function Posted(env: Env, l: Ledger, file: string, state: ParseState, es: seq<Emission>, consumed: nat,
                  exhausted: bool): Ledger {
    var (keys, events) := SettleAll(es, l.keys);
    Ledger(AddEvents(env, l.days, events), l.files[file := Entry(consumed, Encode(state), exhausted)], keys)
  }

  function Apply(env: Env, l: Ledger, step: Step): Ledger {
    if !Possible(l, step) then l else
    match step
    case Poll(file, _, _, _, consumed, exhausted) =>
      var (state, es) := Parsed(env, l, step);
      Posted(env, l, file, state, es, consumed, exhausted)
    case FailedPoll(file, _, _, _) =>
      l.(files := l.files[file := ReloadedEntry(EntryOf(l, file)).(incomplete := true)],
         keys := SettleAll(Parsed(env, l, step).1, l.keys).0)
    case Reload =>
      l.(files := ReloadedFiles(l.files))
  }

  function Run(env: Env, steps: seq<Step>): Ledger {
    if steps == [] then EmptyLedger() else Apply(env, Run(env, steps[..|steps| - 1]), steps[|steps| - 1])
  }

  lemma RunNext(env: Env, steps: seq<Step>, step: Step)
    ensures Run(env, steps + [step]) == Apply(env, Run(env, steps), step)
  {
    assert (steps + [step])[..|steps|] == steps;
  }

  // ---- Every emission is proper ----

  lemma {:induction false} FoldIsProper(env: Env, lines: seq<Bytes>, s: ParseState)
    ensures forall e <- Fold(LineStep(env), lines, s).1 :: Proper(e)
  {
    if lines != [] {
      var (s1, first) := LineStep(env)(s, lines[0]);
      assert forall e <- first :: Proper(e);
      FoldIsProper(env, lines[1..], s1);
    }
  }

  lemma ParsedIsProper(env: Env, l: Ledger, step: Step)
    requires !step.Reload? && Possible(l, step)
    ensures forall e <- Parsed(env, l, step).1 :: Proper(e)
  {
    var entry := EntryOf(l, step.file);
    FoldIsProper(env, Lines(step.content[entry.offset..step.done]), Decode(entry.state, step.id));
  }

  // ---- Conservation: every key is counted once, except what a failed poll inserted ----

  /** Keys a step inserts without counting them. */
  function LostBy(env: Env, l: Ledger, step: Step): set<DedupKey> {
    if step.FailedPoll? && Possible(l, step) then KeysOf(Parsed(env, l, step).1) - l.keys else {}
  }

  function Lost(env: Env, steps: seq<Step>): nat {
    if steps == [] then 0 else
    var init := steps[..|steps| - 1];
    Lost(env, init) + |LostBy(env, Run(env, init), steps[|steps| - 1])|
  }

  lemma StepCountsKeys(env: Env, l: Ledger, step: Step)
    ensures var l' := Apply(env, l, step);
            SumEvents(l'.days) + |LostBy(env, l, step)| + |l.keys| == SumEvents(l.days) + |l'.keys|
  {
    if Possible(l, step) && !step.Reload? {
      var es := Parsed(env, l, step).1;
      if step.Poll? {
        ParsedIsProper(env, l, step);
        EventsCountKeys(env, es, l.keys, l.days);
      } else {
        SettledKeys(es, l.keys);
        assert l.keys + KeysOf(es) == l.keys + (KeysOf(es) - l.keys);
      }
    }
  }

  /** Over any run, with any files, copies, forks, errors and reloads: counted events plus lost keys are the keys. */
  lemma {:induction false} EventsAndKeys(env: Env, steps: seq<Step>)
    ensures SumEvents(Run(env, steps).days) + Lost(env, steps) == |Run(env, steps).keys|
  {
    if steps != [] {
      EventsAndKeys(env, steps[..|steps| - 1]);
      StepCountsKeys(env, Run(env, steps[..|steps| - 1]), steps[|steps| - 1]);
    }
  }

  /** Step `i` of a run inserted no key without counting it. */
  predicate Lossless(env: Env, steps: seq<Step>, i: nat)
    requires i < |steps|
  {
    LostBy(env, Run(env, steps[..i]), steps[i]) == {}
  }

  lemma LosslessInPrefix(env: Env, steps: seq<Step>, i: nat)
    requires i < |steps| - 1
    ensures Lossless(env, steps[..|steps| - 1], i) == Lossless(env, steps, i)
  {
    assert steps[..|steps| - 1][..i] == steps[..i];
  }

  lemma {:induction false} NothingLost(env: Env, steps: seq<Step>)
    ensures Lost(env, steps) == 0 <==> forall i: nat | i < |steps| :: Lossless(env, steps, i)
  {
    if steps != [] {
      var n, init := |steps| - 1, steps[..|steps| - 1];
      NothingLost(env, init);
      forall i: nat | i < n ensures Lossless(env, init, i) == Lossless(env, steps, i) {
        LosslessInPrefix(env, steps, i);
      }
      LostAtEnd(env, steps);
    }
  }

  lemma LostAtEnd(env: Env, steps: seq<Step>)
    requires steps != []
    ensures Lost(env, steps) == 0 <==> Lost(env, steps[..|steps| - 1]) == 0 && Lossless(env, steps, |steps| - 1)
  {
    var lost := LostBy(env, Run(env, steps[..|steps| - 1]), steps[|steps| - 1]);
    assert |lost| == 0 <==> lost == {};
  }

  /** Each key is counted exactly once if and only if no failed poll inserted a new key before its error. */
  lemma CountedOnce(env: Env, steps: seq<Step>)
    ensures SumEvents(Run(env, steps).days) == |Run(env, steps).keys|
       <==> forall i: nat | i < |steps| :: Lossless(env, steps, i)
  {
    EventsAndKeys(env, steps);
    NothingLost(env, steps);
  }
}
