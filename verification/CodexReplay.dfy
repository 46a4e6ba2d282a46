/** Polling, checkpointing and budgeting change nothing: a ledger equals the one-shot replay of what it captured. */
module CodexReplay {
  import opened Prelude
  import opened Folding
  import opened CodexRecords
  import opened CodexParser
  import opened CodexCheckpoint
  import opened CodexLog
  import opened CodexDays
  import opened CodexAgreement
  import opened CodexLedger

  // ---- The lineage of a file ----

  const IDENTITY_LINES: nat := 32

  /** The lineage in the first session header among the first lines; the file name stands in for a missing one. */
  function HeadIdentity(env: Env, lines: seq<Bytes>, fallback: Marker, n: nat): Identity {
    if lines == [] || n == 0 || |lines[0]| > MAX_LINE_BYTES then Identity(fallback, None) else
    match env.decode(lines[0])
    case Some(SessionMeta(id, forkedFrom, _)) =>
      Identity(if id.Some? then SessionMarker(id.value) else fallback,
               if forkedFrom.Some? then Some(SessionMarker(forkedFrom.value)) else None)
    case _ => HeadIdentity(env, lines[1..], fallback, n - 1)
  }

  function ReadIdentity(env: Env, content: Bytes, name: string): Identity {
    HeadIdentity(env, Lines(content), FileMarker(name), IDENTITY_LINES)
  }

  /** The first line of the file is a session header that names its session. */
  predicate HeaderFirst(env: Env, bs: Bytes) {
    && bs != [] && LineEnd(bs) <= MAX_LINE_BYTES && bs[LineEnd(bs) - 1] == NEWLINE
    && var r := env.decode(bs[..LineEnd(bs)]);
       r.Some? && r.value.SessionMeta? && r.value.id.Some?
  }

  /** An unfinished header line is either not yet JSON or already the same record. */
  predicate PartialHeader(env: Env, partial: Bytes, whole: Bytes)
    requires HeaderFirst(env, whole)
  {
    && partial <= whole && |partial| < LineEnd(whole)
    && (env.decode(partial).Some? ==> env.decode(partial) == env.decode(whole[..LineEnd(whole)]))
  }

  /** Once a header line is written, every later poll reads the same lineage; before that a poll reads either
      it or the fallback without a parent. */
  lemma HeaderFixesIdentity(env: Env, content: Bytes, later: Bytes, name: string)
    requires HeaderFirst(env, later) && content <= later
    ensures HeaderFirst(env, content) ==> ReadIdentity(env, content, name) == ReadIdentity(env, later, name)
    ensures PartialHeader(env, content, later) ==>
              ReadIdentity(env, content, name) in {ReadIdentity(env, later, name), Identity(FileMarker(name), None)}
  {
    if HeaderFirst(env, content) {
      var n := LineEnd(content);
      assert later == content[..n] + later[n..] && content == content[..n] + content[n..];
      LineEndOfPrefix(content[..n], later[n..]);
      LineEndOfPrefix(content[..n], content[n..]);
      assert later[..n] == content[..n];
    }
    if PartialHeader(env, content, later) && content != [] {
      assert NoNewlineIn(content) by {
        assert forall i :: 0 <= i < |content| ==> content[i] == later[i];
      }
      LineEndWithout(content);
      HeadOfOneLine(env, content, FileMarker(name));
      assert Lines(later)[0] == later[..LineEnd(later)];
    }
  }

  lemma HeadOfOneLine(env: Env, line: Bytes, fallback: Marker)
    requires line != [] && LineEnd(line) == |line| <= MAX_LINE_BYTES
    ensures HeadIdentity(env, Lines(line), fallback, IDENTITY_LINES)
         == match env.decode(line)
            case Some(SessionMeta(id, forkedFrom, _)) =>
              Identity(if id.Some? then SessionMarker(id.value) else fallback,
                       if forkedFrom.Some? then Some(SessionMarker(forkedFrom.value)) else None)
            case _ => Identity(fallback, None)
  {
    LinesOfOne(line);
    assert [line][1..] == [];
  }

  predicate NoNewlineIn(bs: Bytes) {
    forall i :: 0 <= i < |bs| ==> bs[i] != NEWLINE
  }

  lemma LineEndWithout(bs: Bytes)
    requires NoNewlineIn(bs)
    ensures LineEnd(bs) == |bs|
  {
  }

  // ---- Faithful runs ----

  function CapturedAfter(captured: map<string, Bytes>, step: Step): map<string, Bytes> {
    if step.Poll? && step.done <= |step.content| then captured[step.file := step.content[..step.done]] else captured
  }

  /** The bytes of each file that a run has gone through. */
  function Captured(steps: seq<Step>): map<string, Bytes> {
    if steps == [] then map[] else CapturedAfter(Captured(steps[..|steps| - 1]), steps[|steps| - 1])
  }

  predicate CleanLine(env: Env, line: Bytes) {
    |line| <= MAX_LINE_BYTES && env.decode(line).Some? ==> Clean(env.decode(line).value)
  }

  predicate CleanBytes(env: Env, bs: Bytes) {
    forall line <- Lines(bs) :: CleanLine(env, line)
  }

  /** The lineage a poll may read: the file's own or, while a header is unfinished, one with a stand-in session. */
  predicate StandsIn(x: Identity, id: Identity, headed: bool) {
    x == id || (headed && (x.parent.None? || x.parent == id.parent))
  }

  /** A poll of an append-only file: what was captured is still there, the poll ends on a record boundary, and
      the lineage it reads is the file's own. Files with a header may be polled before the header is complete. */
  predicate FaithfulPoll(env: Env, ids: map<string, Identity>, headed: set<string>, captured: Bytes, step: Step)
    requires step.Poll?
  {
    && step.file in ids
    && captured <= step.content && |captured| <= step.done == step.consumed <= |step.content|
    && Ended(step.content[..step.done]) && CleanBytes(env, step.content[..step.done])
    && if step.done == 0 then StandsIn(step.id, ids[step.file], step.file in headed)
       else step.id == ids[step.file] && (step.file in headed ==> HeaderFirst(env, step.content[..step.done]))
  }

  predicate FaithfulStep(env: Env, ids: map<string, Identity>, headed: set<string>, captured: map<string, Bytes>,
                         step: Step) {
    match step
    case Poll(file, _, _, _, _, _) => FaithfulPoll(env, ids, headed, Lookup(captured, file, []), step)
    case FailedPoll(_, _, _, _) => false
    case Reload => true
  }

  /** A run of faithful polls and reloads, without read errors. */
  predicate Faithful(env: Env, ids: map<string, Identity>, headed: set<string>, steps: seq<Step>) {
    steps != [] ==>
      var init := steps[..|steps| - 1];
      Faithful(env, ids, headed, init) && FaithfulStep(env, ids, headed, Captured(init), steps[|steps| - 1])
  }

  /** The reference: parse the captured bytes from the start in one go. */
  function OneShot(env: Env, id: Identity, captured: Bytes): (ParseState, seq<Emission>) {
    Replay(env, captured, FreshState(id))
  }

  /** A stored entry is the one-shot replay of the captured bytes; before the first line it is a fresh state. */
  ghost predicate EntryIsReplay(env: Env, id: Identity, headed: bool, captured: Bytes, entry: Entry) {
    && entry.offset == |captured| && Ended(captured)
    && if captured == [] then exists x :: StandsIn(x, id, headed) && entry.state == Encode(FreshState(x))
       else entry.state == Encode(OneShot(env, id, captured).0) && Codable(OneShot(env, id, captured).0, id)
  }

  lemma {:induction false} FoldKeepsCodable(env: Env, lines: seq<Bytes>, s: ParseState, id: Identity)
    requires Codable(s, id) && forall line <- lines :: CleanLine(env, line)
    ensures Codable(Fold(LineStep(env), lines, s).0, id)
  {
    if lines != [] {
      var line := lines[0];
      assert line in lines;
      if |line| <= MAX_LINE_BYTES && env.decode(line).Some? {
        ConsumeKeepsCodable(s, id, env.decode(line).value);
      }
      FoldKeepsCodable(env, lines[1..], LineStep(env)(s, line).0, id);
    }
  }

  /** A session header overwrites whatever session the state stood in with. */
  lemma HeaderResetsSession(env: Env, bs: Bytes, id: Identity, session: Marker)
    requires HeaderFirst(env, bs)
    ensures Replay(env, bs, FreshState(id).(session := session)) == OneShot(env, id, bs)
  {
    var n := LineEnd(bs);
    var r := env.decode(bs[..n]).value;
    assert Consume(FreshState(id).(session := session), r) == Consume(FreshState(id), r);
    assert Lines(bs)[0] == bs[..n];
    assert LineStep(env)(FreshState(id).(session := session), bs[..n]) == LineStep(env)(FreshState(id), bs[..n]);
  }

  lemma WholeLinesAreCodable(env: Env, id: Identity, bs: Bytes)
    requires CleanBytes(env, bs)
    ensures Codable(OneShot(env, id, bs).0, id)
  {
    FreshIsCodable(id);
    FoldKeepsCodable(env, Lines(bs), FreshState(id), id);
  }

  /** The state a poll starts from, before the first whole line. */
  lemma FirstState(x: Identity, id: Identity)
    ensures Decode(Encode(FreshState(x)), id)
         == FreshState(Identity(x.session, if x.parent.Some? then x.parent else id.parent))
  {
    StripFixesTrimmed("unknown");
  }

  lemma FirstPoll(env: Env, id: Identity, headed: bool, now: Bytes, entry: Entry, read: Identity)
    requires entry.state == EmptyPayload() || EntryIsReplay(env, id, headed, [], entry)
    requires Ended(now) && CleanBytes(env, now)
    requires if now == [] then StandsIn(read, id, headed) else read == id && (headed ==> HeaderFirst(env, now))
    ensures var (s, es) := Replay(env, now, Decode(entry.state, read));
            && es == OneShot(env, id, now).1
            && EntryIsReplay(env, id, headed, now, Entry(|now|, Encode(s), false))
  {
    FreshIsCodable(read);
    var s0 := Decode(entry.state, read);
    if entry.state != EmptyPayload() {
      var x :| StandsIn(x, id, headed) && entry.state == Encode(FreshState(x));
      FirstState(x, read);
    }
    var y := Identity(s0.session, s0.parent);
    assert s0 == FreshState(y);
    if now == [] {
      assert StandsIn(y, id, headed);
    } else {
      WholeLinesAreCodable(env, id, now);
      assert s0 == FreshState(id).(session := s0.session);
      if headed {
        HeaderResetsSession(env, now, id, s0.session);
      } else {
        assert s0 == FreshState(id);
      }
    }
  }

  lemma NextPoll(env: Env, id: Identity, headed: bool, captured: Bytes, more: Bytes, entry: Entry)
    requires captured != [] && EntryIsReplay(env, id, headed, captured, entry)
    requires Ended(captured + more) && CleanBytes(env, captured + more)
    ensures var (s, es) := Replay(env, more, Decode(entry.state, id));
            && OneShot(env, id, captured + more).1 == OneShot(env, id, captured).1 + es
            && EntryIsReplay(env, id, headed, captured + more, Entry(|captured + more|, Encode(s), false))
  {
    RoundTrip(OneShot(env, id, captured).0, id);
    ReplayConcat(env, captured, more, FreshState(id));
    WholeLinesAreCodable(env, id, captured + more);
  }

  lemma BytesExtendReplay(env: Env, id: Identity, headed: bool, captured: Bytes, more: Bytes, entry: Entry,
                          read: Identity, exhausted: bool)
    requires EntryIsReplay(env, id, headed, captured, entry) || (captured == [] && entry.state == EmptyPayload())
    requires Ended(captured + more) && CleanBytes(env, captured + more)
    requires if captured + more == [] then StandsIn(read, id, headed)
             else read == id && (headed ==> HeaderFirst(env, captured + more))
    ensures var (s, es) := Replay(env, more, Decode(entry.state, read));
            && OneShot(env, id, captured + more).1 == OneShot(env, id, captured).1 + es
            && EntryIsReplay(env, id, headed, captured + more, Entry(|captured + more|, Encode(s), exhausted))
  {
    if captured != [] {
      NextPoll(env, id, headed, captured, more, entry);
    } else {
      assert captured + more == more;
      FirstPoll(env, id, headed, more, entry, read);
      NoBytesNoEmissions(env, id);
    }
  }

  lemma PollUnfolded(env: Env, l: Ledger, step: Step, captured: Bytes, more: Bytes)
    requires step.Poll? && captured + more <= step.content && step.done == step.consumed == |captured + more|
    requires EntryOf(l, step.file).offset == |captured|
    ensures var parsed := Replay(env, more, Decode(EntryOf(l, step.file).state, step.id));
            && Possible(l, step) && Parsed(env, l, step) == parsed
            && Apply(env, l, step).files
               == l.files[step.file := Entry(|captured + more|, Encode(parsed.0), step.exhausted)]
  {
    assert step.content[|captured|..step.done] == more;
  }

  ghost predicate MaybeReplay(env: Env, id: Identity, headed: bool, captured: Bytes, files: map<string, Entry>,
                              file: string) {
    if file in files then EntryIsReplay(env, id, headed, captured, files[file]) else captured == []
  }

  /** One poll extends the replay by exactly the bytes it went through. */
  lemma PollExtendsReplay(env: Env, ids: map<string, Identity>, headed: set<string>, captured: Bytes, l: Ledger,
                          step: Step)
    requires step.Poll? && FaithfulPoll(env, ids, headed, captured, step)
    requires MaybeReplay(env, ids[step.file], step.file in headed, captured, l.files, step.file)
    ensures var now := step.content[..step.done];
            && Possible(l, step)
            && OneShot(env, ids[step.file], now).1 == OneShot(env, ids[step.file], captured).1 + Parsed(env, l, step).1
            && EntryIsReplay(env, ids[step.file], step.file in headed, now, Apply(env, l, step).files[step.file])
  {
    var more := step.content[|captured|..step.done];
    assert step.content[..step.done] == captured + more;
    BytesExtendReplay(env, ids[step.file], step.file in headed, captured, more, EntryOf(l, step.file), step.id,
                      step.exhausted);
    PollUnfolded(env, l, step, captured, more);
  }

  lemma PollTouchesOneFile(env: Env, l: Ledger, step: Step)
    requires step.Poll? && Possible(l, step)
    ensures step.file in Apply(env, l, step).files
    ensures Apply(env, l, step).files == l.files[step.file := Apply(env, l, step).files[step.file]]
  {
  }

  // ---- Whole runs ----

  ghost predicate LedgerIsReplay(env: Env, ids: map<string, Identity>, headed: set<string>,
                                 captured: map<string, Bytes>, files: map<string, Entry>) {
    && files.Keys == captured.Keys && captured.Keys <= ids.Keys
    && forall f <- captured :: EntryIsReplay(env, ids[f], f in headed, captured[f], files[f])
  }

  lemma ReloadKeepsReplay(env: Env, id: Identity, headed: bool, captured: Bytes, entry: Entry)
    requires EntryIsReplay(env, id, headed, captured, entry)
    ensures EntryIsReplay(env, id, headed, captured, ReloadedEntry(entry))
  {
    if captured == [] {
      var x :| StandsIn(x, id, headed) && entry.state == Encode(FreshState(x));
      FreshIsCodable(x);
      ReloadKeepsCodable(FreshState(x), x);
    } else {
      ReloadKeepsCodable(OneShot(env, id, captured).0, id);
    }
  }

  lemma PollKeepsReplay(env: Env, ids: map<string, Identity>, headed: set<string>,
                        captured: map<string, Bytes>, l: Ledger, step: Step)
    requires LedgerIsReplay(env, ids, headed, captured, l.files)
    requires step.Poll? && FaithfulPoll(env, ids, headed, Lookup(captured, step.file, []), step)
    ensures LedgerIsReplay(env, ids, headed, CapturedAfter(captured, step), Apply(env, l, step).files)
  {
    PollExtendsReplay(env, ids, headed, Lookup(captured, step.file, []), l, step);
    PollTouchesOneFile(env, l, step);
    FilesPut(env, ids, headed, captured, l.files, step.file, step.content[..step.done],
             Apply(env, l, step).files[step.file]);
  }

  lemma FilesPut(env: Env, ids: map<string, Identity>, headed: set<string>, captured: map<string, Bytes>,
                 files: map<string, Entry>, file: string, now: Bytes, entry: Entry)
    requires LedgerIsReplay(env, ids, headed, captured, files) && file in ids
    requires EntryIsReplay(env, ids[file], file in headed, now, entry)
    ensures LedgerIsReplay(env, ids, headed, captured[file := now], files[file := entry])
  {
  }

  lemma ReloadKeepsLedger(env: Env, ids: map<string, Identity>, headed: set<string>,
                          captured: map<string, Bytes>, files: map<string, Entry>)
    requires LedgerIsReplay(env, ids, headed, captured, files)
    ensures LedgerIsReplay(env, ids, headed, captured, ReloadedFiles(files))
  {
    forall f | f in captured
      ensures EntryIsReplay(env, ids[f], f in headed, captured[f], ReloadedFiles(files)[f])
    {
      ReloadKeepsReplay(env, ids[f], f in headed, captured[f], files[f]);
    }
  }

  lemma StepKeepsReplay(env: Env, ids: map<string, Identity>, headed: set<string>,
                        captured: map<string, Bytes>, l: Ledger, step: Step)
    requires LedgerIsReplay(env, ids, headed, captured, l.files)
    requires FaithfulStep(env, ids, headed, captured, step)
    ensures LedgerIsReplay(env, ids, headed, CapturedAfter(captured, step), Apply(env, l, step).files)
  {
    if step.Poll? {
      PollKeepsReplay(env, ids, headed, captured, l, step);
    } else {
      ReloadKeepsLedger(env, ids, headed, captured, l.files);
      assert Apply(env, l, step).files == ReloadedFiles(l.files);
    }
  }

  /** After any faithful run every checkpoint is the one-shot replay of its file's captured prefix. */
  lemma {:induction false} CheckpointIsReplay(env: Env, ids: map<string, Identity>, headed: set<string>,
                                              steps: seq<Step>)
    requires Faithful(env, ids, headed, steps)
    ensures LedgerIsReplay(env, ids, headed, Captured(steps), Run(env, steps).files)
  {
    if steps != [] {
      var init, step := steps[..|steps| - 1], steps[|steps| - 1];
      CheckpointIsReplay(env, ids, headed, init);
      StepKeepsReplay(env, ids, headed, Captured(init), Run(env, init), step);
    }
  }

  // ---- The emissions of a run ----

  function EmissionsOf(env: Env, l: Ledger, step: Step): seq<Emission> {
    if step.Poll? && Possible(l, step) then Parsed(env, l, step).1 else []
  }

  /** All emissions of a run, in the order in which they were settled. */
  function AllEmissions(env: Env, steps: seq<Step>): seq<Emission> {
    if steps == [] then [] else
    var init := steps[..|steps| - 1];
    AllEmissions(env, init) + EmissionsOf(env, Run(env, init), steps[|steps| - 1])
  }

  ghost predicate BooksOf(env: Env, l: Ledger, es: seq<Emission>) {
    l.days == DaysOf(env, es) && l.keys == KeysOf(es) && forall e <- es :: Proper(e)
  }

  lemma PostedBooks(env: Env, l: Ledger, file: string, state: ParseState, es: seq<Emission>, more: seq<Emission>,
                    consumed: nat, exhausted: bool)
    requires BooksOf(env, l, es) && forall e <- more :: Proper(e)
    ensures BooksOf(env, Posted(env, l, file, state, more, consumed, exhausted), es + more)
  {
    SettledKeys(es, {});
    assert {} + KeysOf(es) == KeysOf(es);
    SettledKeys(more, l.keys);
    KeysOfConcat(es, more);
    FoldConcat(SettleStep(), es, more, {});
    AccumulateConcat(AddStep(env), SettleAll(es, {}).1, SettleAll(more, l.keys).1, map[]);
  }

  lemma StepBooks(env: Env, l: Ledger, es: seq<Emission>, step: Step)
    requires BooksOf(env, l, es) && !step.FailedPoll?
    ensures BooksOf(env, Apply(env, l, step), es + EmissionsOf(env, l, step))
  {
    if step.Poll? && Possible(l, step) {
      ParsedIsProper(env, l, step);
      var (state, more) := Parsed(env, l, step);
      PostedBooks(env, l, step.file, state, es, more, step.consumed, step.exhausted);
    } else {
      assert es + [] == es;
    }
  }

  predicate WithoutErrors(steps: seq<Step>) {
    forall step <- steps :: !step.FailedPoll?
  }

  /** Without read errors the days and the keys are a function of the emissions alone. */
  lemma {:induction false} LedgerOfEmissions(env: Env, steps: seq<Step>)
    requires WithoutErrors(steps)
    ensures BooksOf(env, Run(env, steps), AllEmissions(env, steps))
  {
    if steps != [] {
      var init, step := steps[..|steps| - 1], steps[|steps| - 1];
      assert step in steps && forall x <- init :: x in steps;
      LedgerOfEmissions(env, init);
      StepBooks(env, Run(env, init), AllEmissions(env, init), step);
    }
  }

  function PoolStep<V>(): (multiset<V>, seq<V>) -> multiset<V> {
    (bag, xs) => bag + multiset(xs)
  }

  /** The contents of a map of sequences, as a bag. */
  ghost function Pooled<K, V>(m: map<K, seq<V>>): multiset<V> {
    FoldMap(PoolStep(), m, multiset{})
  }

  lemma PoolCommutes<V(!new)>()
    ensures Commutes(PoolStep<V>())
  {
    forall bag: multiset<V>, x, y: seq<V>
      ensures PoolStep()(PoolStep()(bag, x), y) == PoolStep()(PoolStep()(bag, y), x)
    {
      assert bag + multiset(x) + multiset(y) == bag + multiset(y) + multiset(x);
    }
  }

  lemma PooledGrows<K, V(!new)>(m: map<K, seq<V>>, k: K, more: seq<V>)
    ensures Pooled(m[k := Lookup(m, k, []) + more]) == Pooled(m) + multiset(more)
  {
    PoolCommutes<V>();
    FoldMapPut(PoolStep(), m, k, Lookup(m, k, []) + more, multiset{});
    if k in m {
      FoldMapWithout(PoolStep(), m, k, multiset{});
      assert multiset(m[k] + more) == multiset(m[k]) + multiset(more);
    } else {
      assert m - {k} == m && [] + more == more;
    }
  }

  /** What a one-shot replay of every captured file emits. */
  function OneShots(env: Env, ids: map<string, Identity>, captured: map<string, Bytes>): map<string, seq<Emission>>
    requires captured.Keys <= ids.Keys
  {
    map f | f in captured :: OneShot(env, ids[f], captured[f]).1
  }

  lemma OneShotsGrow(env: Env, ids: map<string, Identity>, headed: set<string>,
                     captured: map<string, Bytes>, l: Ledger, step: Step)
    requires LedgerIsReplay(env, ids, headed, captured, l.files)
    requires step.Poll? && FaithfulStep(env, ids, headed, captured, step)
    ensures var before := OneShots(env, ids, captured);
            (OneShots(env, ids, CapturedAfter(captured, step))
              == before[step.file := Lookup(before, step.file, []) + EmissionsOf(env, l, step)])
  {
    PollExtendsReplay(env, ids, headed, Lookup(captured, step.file, []), l, step);
    NoBytesNoEmissions(env, ids[step.file]);
    OneShotsPut(env, ids, captured, step.file, step.content[..step.done]);
  }

  lemma NoBytesNoEmissions(env: Env, id: Identity)
    ensures OneShot(env, id, []) == (FreshState(id), [])
  {
  }

  lemma OneShotsPut(env: Env, ids: map<string, Identity>, captured: map<string, Bytes>, f: string, now: Bytes)
    requires captured.Keys + {f} <= ids.Keys
    ensures OneShots(env, ids, captured[f := now]) == OneShots(env, ids, captured)[f := OneShot(env, ids[f], now).1]
  {
  }

  /** A run settles exactly the one-shot emissions of its captured files, in some order. */
  lemma {:induction false} EmissionsAreReplays(env: Env, ids: map<string, Identity>, headed: set<string>,
                                               steps: seq<Step>)
    requires Faithful(env, ids, headed, steps)
    ensures Captured(steps).Keys <= ids.Keys
    ensures multiset(AllEmissions(env, steps)) == Pooled(OneShots(env, ids, Captured(steps)))
  {
    CheckpointIsReplay(env, ids, headed, steps);
    if steps != [] {
      var init, step := steps[..|steps| - 1], steps[|steps| - 1];
      EmissionsAreReplays(env, ids, headed, init);
      CheckpointIsReplay(env, ids, headed, init);
      var l, captured := Run(env, init), Captured(init);
      if step.Poll? {
        OneShotsGrow(env, ids, headed, captured, l, step);
        PooledGrows(OneShots(env, ids, captured), step.file, EmissionsOf(env, l, step));
      }
    }
  }

  lemma {:induction false} FaithfulHasNoErrors(env: Env, ids: map<string, Identity>, headed: set<string>,
                                               steps: seq<Step>)
    requires Faithful(env, ids, headed, steps)
    ensures WithoutErrors(steps) && Lost(env, steps) == 0
  {
    if steps != [] {
      var init, step := steps[..|steps| - 1], steps[|steps| - 1];
      FaithfulHasNoErrors(env, ids, headed, init);
      assert LostBy(env, Run(env, init), step) == {};
    }
  }

  // ---- What a run credits ----

  /** Every credited key is credited as it is in the replay of one of the files. */
  ghost predicate CreditsComeFrom(env: Env, shots: map<string, seq<Emission>>, credits: Credits) {
    forall k <- credits :: exists f <- shots :: CreditedIn(env, shots[f], k, credits[k])
  }

  predicate CreditedIn(env: Env, es: seq<Emission>, k: DedupKey, c: Contribution) {
    k in Credited(env, es) && Credited(env, es)[k] == c
  }

  lemma MoreEmissionsCredited(env: Env, shots: map<string, seq<Emission>>, f: string, es: seq<Emission>,
                              all: seq<Emission>)
    requires CreditsComeFrom(env, shots, Credited(env, all))
    requires f in shots ==> KeysOf(shots[f]) <= KeysOf(all)
    ensures CreditsComeFrom(env, shots[f := Lookup(shots, f, []) + es], Credited(env, all + es))
  {
    var before := Lookup(shots, f, []);
    var shots' := shots[f := before + es];
    CreditedConcat(env, all, es);
    CreditedConcat(env, before, es);
    CreditedKeys(env, all);
    CreditedKeys(env, before);
    forall k | k in Credited(env, all + es)
      ensures exists g <- shots' :: CreditedIn(env, shots'[g], k, Credited(env, all + es)[k])
    {
      if k in Credited(env, all) {
        var g :| g in shots && CreditedIn(env, shots[g], k, Credited(env, all)[k]);
        assert CreditedIn(env, shots'[g], k, Credited(env, all + es)[k]);
      } else {
        assert CreditedIn(env, shots'[f], k, Credited(env, all + es)[k]);
      }
    }
  }

  lemma PooledHolds<K, V(!new)>(m: map<K, seq<V>>, k: K)
    requires k in m
    ensures multiset(m[k]) <= Pooled(m)
  {
    PoolCommutes<V>();
    FoldMapWithout(PoolStep(), m, k, multiset{});
  }

  lemma ReplaysAreEmitted(env: Env, ids: map<string, Identity>, headed: set<string>, steps: seq<Step>, f: string)
    requires Faithful(env, ids, headed, steps) && f in Captured(steps)
    ensures f in ids && KeysOf(OneShot(env, ids[f], Captured(steps)[f]).1) <= KeysOf(AllEmissions(env, steps))
  {
    EmissionsAreReplays(env, ids, headed, steps);
    var shots, all := OneShots(env, ids, Captured(steps)), AllEmissions(env, steps);
    PooledHolds(shots, f);
    forall k | k in KeysOf(shots[f]) ensures k in KeysOf(all) {
      var i :| 0 <= i < |shots[f]| && shots[f][i].Claim? && shots[f][i].key == k;
      assert shots[f][i] in multiset(shots[f]);
      assert shots[f][i] in multiset(all);
      var j :| 0 <= j < |all| && all[j] == shots[f][i];
    }
  }

  /** The first claim of a key in a run is the first claim of that key in one of the files. */
  lemma {:induction false} CreditsOfRun(env: Env, ids: map<string, Identity>, headed: set<string>, steps: seq<Step>)
    requires Faithful(env, ids, headed, steps)
    ensures Captured(steps).Keys <= ids.Keys
    ensures CreditsComeFrom(env, OneShots(env, ids, Captured(steps)), Credited(env, AllEmissions(env, steps)))
  {
    CheckpointIsReplay(env, ids, headed, steps);
    if steps != [] {
      var init, step := steps[..|steps| - 1], steps[|steps| - 1];
      CreditsOfRun(env, ids, headed, init);
      CheckpointIsReplay(env, ids, headed, init);
      var l, captured, all := Run(env, init), Captured(init), AllEmissions(env, init);
      if step.Poll? {
        OneShotsGrow(env, ids, headed, captured, l, step);
        if step.file in captured {
          ReplaysAreEmitted(env, ids, headed, init, step.file);
        }
        MoreEmissionsCredited(env, OneShots(env, ids, captured), step.file, EmissionsOf(env, l, step), all);
      } else {
        assert all + [] == all;
      }
    }
  }

  /** Files that claim one key would credit it alike. Within a file the first claim counts, so that a single
      file, or files whose keys differ, meet this without further ado. */
  ghost predicate FirstClaimsAgree(env: Env, shots: map<string, seq<Emission>>) {
    forall f, g, k | f in shots && g in shots && k in Credited(env, shots[f]) && k in Credited(env, shots[g]) ::
      Credited(env, shots[f])[k] == Credited(env, shots[g])[k]
  }

  lemma AgreeingRunsCreditAlike(env: Env, ids: map<string, Identity>, headed: set<string>, a: seq<Step>, b: seq<Step>)
    requires Faithful(env, ids, headed, a) && Faithful(env, ids, headed, b) && Captured(a) == Captured(b)
    requires Captured(a).Keys <= ids.Keys && FirstClaimsAgree(env, OneShots(env, ids, Captured(a)))
    requires KeysOf(AllEmissions(env, a)) == KeysOf(AllEmissions(env, b))
    ensures Credited(env, AllEmissions(env, a)) == Credited(env, AllEmissions(env, b))
  {
    CreditsOfRun(env, ids, headed, a);
    CreditsOfRun(env, ids, headed, b);
    CreditedKeys(env, AllEmissions(env, a));
    CreditedKeys(env, AllEmissions(env, b));
    AgreeingSources(env, OneShots(env, ids, Captured(a)), Credited(env, AllEmissions(env, a)),
                    Credited(env, AllEmissions(env, b)));
  }

  lemma AgreeingSources(env: Env, shots: map<string, seq<Emission>>, x: Credits, y: Credits)
    requires CreditsComeFrom(env, shots, x) && CreditsComeFrom(env, shots, y) && x.Keys == y.Keys
    requires FirstClaimsAgree(env, shots)
    ensures x == y
  {
    forall k | k in x ensures x[k] == y[k] {
      var f :| f in shots && CreditedIn(env, shots[f], k, x[k]);
      var g :| g in shots && CreditedIn(env, shots[g], k, y[k]);
    }
  }

  // ---- The main results ----

  lemma {:induction false} EmissionsOfOneFile(env: Env, ids: map<string, Identity>, headed: set<string>,
                                              steps: seq<Step>, f: string)
    requires Faithful(env, ids, headed, steps) && f in ids && Captured(steps).Keys <= {f}
    ensures AllEmissions(env, steps) == OneShot(env, ids[f], Lookup(Captured(steps), f, [])).1
  {
    NoBytesNoEmissions(env, ids[f]);
    if steps != [] {
      var init, step := steps[..|steps| - 1], steps[|steps| - 1];
      assert Captured(init).Keys <= Captured(steps).Keys;
      EmissionsOfOneFile(env, ids, headed, init, f);
      CheckpointIsReplay(env, ids, headed, init);
      if step.Poll? {
        assert step.file in Captured(steps).Keys;
        PollExtendsReplay(env, ids, headed, Lookup(Captured(init), f, []), Run(env, init), step);
      }
    }
  }

  /** One growing file: any polls, budgets and reloads leave exactly the days and the keys of a one-shot replay
      of the captured prefix, per-model splits included. */
  lemma OneFileIsItsReplay(env: Env, ids: map<string, Identity>, headed: set<string>, steps: seq<Step>, f: string)
    requires Faithful(env, ids, headed, steps) && f in ids && Captured(steps).Keys <= {f}
    ensures var es := OneShot(env, ids[f], Lookup(Captured(steps), f, [])).1;
            Run(env, steps).days == DaysOf(env, es) && Run(env, steps).keys == KeysOf(es)
  {
    EmissionsOfOneFile(env, ids, headed, steps, f);
    FaithfulHasNoErrors(env, ids, headed, steps);
    LedgerOfEmissions(env, steps);
  }

  predicate SameFiles(env: Env, ids: map<string, Identity>, captured: map<string, Bytes>,
                      x: map<string, Entry>, y: map<string, Entry>)
    requires captured.Keys <= ids.Keys
  {
    && x.Keys == y.Keys == captured.Keys
    && forall f <- captured ::
         && x[f].offset == y[f].offset == |captured[f]|
         && (captured[f] != [] ==> x[f].state == y[f].state == Encode(OneShot(env, ids[f], captured[f]).0))
  }

  /** Two runs that captured the same prefixes -- with whatever splits into polls, budgets, interleavings of
      files and reloads -- hold the same offsets, parser states and keys, and have counted one event per key;
      and where the first claims of different files under one key agree, they hold the same daily totals. */
  lemma PollingDoesNotMatter(env: Env, ids: map<string, Identity>, headed: set<string>, a: seq<Step>, b: seq<Step>)
    requires Faithful(env, ids, headed, a) && Faithful(env, ids, headed, b) && Captured(a) == Captured(b)
    ensures Captured(a).Keys <= ids.Keys
    ensures SameFiles(env, ids, Captured(a), Run(env, a).files, Run(env, b).files)
    ensures Run(env, a).keys == Run(env, b).keys
    ensures SumEvents(Run(env, a).days) == SumEvents(Run(env, b).days) == |Run(env, a).keys|
    ensures FirstClaimsAgree(env, OneShots(env, ids, Captured(a))) ==>
              SameDays(Run(env, a).days, Run(env, b).days, Credited(env, AllEmissions(env, a)))
  {
    CheckpointIsReplay(env, ids, headed, a);
    CheckpointIsReplay(env, ids, headed, b);
    SameBooks(env, ids, headed, a, b);
  }

  lemma SameBooks(env: Env, ids: map<string, Identity>, headed: set<string>, a: seq<Step>, b: seq<Step>)
    requires Faithful(env, ids, headed, a) && Faithful(env, ids, headed, b) && Captured(a) == Captured(b)
    ensures Captured(a).Keys <= ids.Keys
    ensures Run(env, a).keys == Run(env, b).keys
    ensures SumEvents(Run(env, a).days) == SumEvents(Run(env, b).days) == |Run(env, a).keys|
    ensures FirstClaimsAgree(env, OneShots(env, ids, Captured(a))) ==>
              SameDays(Run(env, a).days, Run(env, b).days, Credited(env, AllEmissions(env, a)))
  {
    EmissionsAreReplays(env, ids, headed, a);
    EmissionsAreReplays(env, ids, headed, b);
    FaithfulHasNoErrors(env, ids, headed, a);
    FaithfulHasNoErrors(env, ids, headed, b);
    LedgerOfEmissions(env, a);
    LedgerOfEmissions(env, b);
    EventsAndKeys(env, a);
    EventsAndKeys(env, b);
    SameBagSameKeys(AllEmissions(env, a), AllEmissions(env, b));
    if FirstClaimsAgree(env, OneShots(env, ids, Captured(a))) {
      AgreeingRunsCreditAlike(env, ids, headed, a, b);
      SameCreditsSameDays(env, AllEmissions(env, a), AllEmissions(env, b));
    }
  }

  lemma PostedTwice(env: Env, l: Ledger, file: string, s1: ParseState, es1: seq<Emission>, n1: nat, e1: bool,
                    s2: ParseState, es2: seq<Emission>, n2: nat, e2: bool)
    ensures Posted(env, Posted(env, l, file, s1, es1, n1, e1), file, s2, es2, n2, e2)
         == Posted(env, l, file, s2, es1 + es2, n2, e2)
  {
    FoldConcat(SettleStep(), es1, es2, l.keys);
    var (keys1, events1) := SettleAll(es1, l.keys);
    AccumulateConcat(AddStep(env), events1, SettleAll(es2, keys1).1, l.days);
  }

  lemma PollPosts(env: Env, l: Ledger, file: string, content: Bytes, id: Identity, more: Bytes, exhausted: bool)
    requires EntryOf(l, file).offset <= |content| && content[EntryOf(l, file).offset..] == more
    ensures var parsed := Replay(env, more, Decode(EntryOf(l, file).state, id));
            (Apply(env, l, Poll(file, content, id, |content|, |content|, exhausted))
             == Posted(env, l, file, parsed.0, parsed.1, |content|, exhausted))
  {
    assert content[EntryOf(l, file).offset..|content|] == more;
  }

  /** Polling a file in two goes is polling it once: the whole ledger is the same, per-model splits included. */
  lemma SplitPoll(env: Env, l: Ledger, file: string, first: Bytes, content: Bytes, id: Identity, e1: bool, e2: bool)
    requires EntryOf(l, file).offset <= |first| && first <= content
    requires Ended(first[EntryOf(l, file).offset..])
    requires Codable(Replay(env, first[EntryOf(l, file).offset..], Decode(EntryOf(l, file).state, id)).0, id)
    ensures var once := Poll(file, content, id, |content|, |content|, e2);
            Apply(env, Apply(env, l, Poll(file, first, id, |first|, |first|, e1)), once) == Apply(env, l, once)
  {
    var entry := EntryOf(l, file);
    var s0, a, b := Decode(entry.state, id), first[entry.offset..], content[|first|..];
    assert content[entry.offset..] == a + b;
    ReplayConcat(env, a, b, s0);
    var (s1, es1) := Replay(env, a, s0);
    var (s2, es2) := Replay(env, b, s1);
    RoundTrip(s1, id);
    PollPosts(env, l, file, first, id, a, e1);
    PollPosts(env, Posted(env, l, file, s1, es1, |first|, e1), file, content, id, b, e2);
    PollPosts(env, l, file, content, id, a + b, e2);
    PostedTwice(env, l, file, s1, es1, |first|, e1, s2, es2, |content|, e2);
  }
}
