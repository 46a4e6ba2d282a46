/** Where the ledger and its replay part: inputs on which polling does matter. */
module CodexLimits {
  import opened Prelude
  import opened Folding
  import opened CodexRecords
  import opened CodexParser
  import opened CodexCheckpoint
  import opened CodexLog
  import opened CodexReading
  import opened CodexDays
  import opened CodexAgreement
  import opened CodexLedger
  import opened CodexReplay
  import opened CodexFork
  import opened CodexLineage
  import opened CodexLateHeader

  lemma ReplayTokenLine(env: Env, line: Bytes, s: ParseState, raw: RawUsage, at: Epoch)
    requires line != [] && LineEnd(line) == |line| <= MAX_LINE_BYTES
    requires env.decode(line) == Some(TokenCount(Some(raw), None, Some(at))) && raw.total > 0
    requires !s.forkWaiting && s.previous.None? && s.baseline.None? && s.reportedTotal.None?
    ensures var es := Replay(env, line, s).1;
            |es| == 1 && es[0].Claim? && es[0].key.scope == s.parent.GetOr(s.session) && KeysOf(es) == {es[0].key}
  {
    ReplayOneLine(env, line, s);
    var es := Replay(env, line, s).1;
    assert es[0].key in KeysOf(es);
  }

  /** A line longer than the limit whose tail reads as a token record. A poll whose budget ends inside the line
      leaves the offset there, and the next poll takes the tail for a record; the one-shot replay skips the line. */
  lemma OversizedLineIsMisread(env: Env, head: Bytes, tail: Bytes, file: string, id: Identity, raw: RawUsage, at: Epoch)
    requires |head| == MAX_LINE_BYTES + 1 && Plain(head, 0, |head|)
    requires tail != [] && LineEnd(tail) == |tail| <= MAX_LINE_BYTES && Ended(tail)
    requires env.decode(tail) == Some(TokenCount(Some(raw), None, Some(at))) && raw.total > 0
    ensures var content := head + tail;
            var polls := [Poll(file, content, id, 0, |head|, true),
                          Poll(file, content, id, |content|, |content|, false)];
            && Stop(content, 0, MAX_LINE_BYTES) == |head| && Reached(content, 0, 0, |head|)
            && |Run(env, polls).keys| == 1
            && OneShot(env, id, content).1 == []
  {
    var content := head + tail;
    assert Plain(content, 0, |head|) by {
      assert forall i | 0 <= i < |head| :: content[i] == head[i];
    }
    assert Stretch(content, 0, 0);
    StopsInStretch(content, 0, 0, 0);
    SecondPollCounts(env, head, tail, file, id, raw, at);
    LineEndOfWhole(head, tail);
    ReplayOneLine(env, content, FreshState(id));
  }

  lemma SecondPollCounts(env: Env, head: Bytes, tail: Bytes, file: string, id: Identity, raw: RawUsage, at: Epoch)
    requires tail != [] && LineEnd(tail) == |tail| <= MAX_LINE_BYTES
    requires env.decode(tail) == Some(TokenCount(Some(raw), None, Some(at))) && raw.total > 0
    ensures var content := head + tail;
            |Run(env, [Poll(file, content, id, 0, |head|, true),
                       Poll(file, content, id, |content|, |content|, false)]).keys| == 1
  {
    var content := head + tail;
    var first, second := Poll(file, content, id, 0, |head|, true), Poll(file, content, id, |content|, |content|, false);
    assert content[0..0] == [] && content[|head|..|content|] == tail;
    var l1 := Apply(env, EmptyLedger(), first);
    FreshIsCodable(id);
    RoundTrip(FreshState(id), id);
    assert l1.files[file] == Entry(|head|, Encode(FreshState(id)), true) && l1.keys == {};
    ReplayTokenLine(env, tail, FreshState(id), raw, at);
    var es := Replay(env, tail, FreshState(id)).1;
    SettledKeys(es, {});
    assert [first, second][..1] == [first] && [first][..0] == [];
    assert Run(env, [first]) == l1;
    assert Parsed(env, l1, second).1 == es;
    assert Run(env, [first, second]).keys == {} + KeysOf(es);
  }

  lemma LineEndOfWhole(head: Bytes, tail: Bytes)
    requires Plain(head, 0, |head|) && tail != [] && LineEnd(tail) == |tail|
    ensures LineEnd(head + tail) == |head + tail|
  {
    if head == [] {
      assert head + tail == tail;
    } else {
      assert (head + tail)[1..] == head[1..] + tail;
      LineEndOfWhole(head[1..], tail);
    }
  }

  predicate OneLine(line: Bytes) {
    line != [] && LineEnd(line) == |line| <= MAX_LINE_BYTES && Ended(line)
  }

  lemma RecordsOfOneLine(env: Env, line: Bytes)
    requires OneLine(line)
    ensures Records(env, line) == if env.decode(line).Some? then [env.decode(line).value] else []
  {
    LinesOfOne(line);
    assert [line][1..] == [];
    assert RecordsIn(env, [line])
        == (if env.decode(line).Some? then [env.decode(line).value] else []) + RecordsIn(env, []);
  }

  /** A token record written before the session header, polled before the header arrives, is keyed under the
      stand-in session of the file name; a one-shot replay keys it under the session the header names. */
  lemma LateHeaderChangesKeys(env: Env, line: Bytes, header: Bytes, name: string, raw: RawUsage, at: Epoch,
                              id: Id, threadSource: Option<string>)
    requires OneLine(line) && env.decode(line) == Some(TokenCount(Some(raw), None, Some(at))) && raw.total > 0 && at > 0
    requires OneLine(header) && env.decode(header) == Some(SessionMeta(Some(id), None, threadSource))
    ensures var x, y := ReadIdentity(env, line, name), ReadIdentity(env, line + header, name);
            var both := line + header;
            x == Identity(FileMarker(name), None) && y == Identity(SessionMarker(id), None)
            && (Run(env, [Poll(name, line, x, |line|, |line|, false), Poll(name, both, y, |both|, |both|, false)]).keys
                != KeysOf(OneShot(env, y, both).1))
  {
    LinesOfOne(line);
    LinesOfOne(header);
    LinesConcat(line, header);
    HeadsOfTwoLines(env, line, header, name);
    RecordsOfOneLine(env, line);
    RecordsOfOneLine(env, header);
    RecordsConcat(env, Lines(line), Lines(header));
    assert Records(env, line + header) == [env.decode(line).value, env.decode(header).value];
    assert Unscoped(Records(env, line + header))[0] == env.decode(line).value && Counts(env.decode(line).value);
    TwoLinePolls(env, name, line, header);
    LateHeaderAgreesIff(env, name, LinePolls(env, name, line, line + header));
  }

  function LinePolls(env: Env, name: string, a: Bytes, b: Bytes): seq<Step> {
    [Poll(name, a, ReadIdentity(env, a, name), |a|, |a|, false),
     Poll(name, b, ReadIdentity(env, b, name), |b|, |b|, false)]
  }

  lemma GrowsByPoll(env: Env, name: string, steps: seq<Step>, p: Step)
    requires Growing(env, name, steps) && LinePoll(env, name, p)
    requires LastPoll(steps).Some? ==> CleanPoll(env, LastPoll(steps).value) && Follows(LastPoll(steps).value, p)
    ensures Growing(env, name, steps + [p]) && LastPoll(steps + [p]) == Some(p)
    ensures forall y :: EarlyPoll(steps + [p], y) == if p.id != y then Some(p) else EarlyPoll(steps, y)
  {
    assert (steps + [p])[..|steps|] == steps;
  }

  lemma TwoLinePolls(env: Env, name: string, a: Bytes, b: Bytes)
    requires Ended(a) && Ended(b) && CleanBytes(env, a)
    ensures var steps := LinePolls(env, name, a, a + b);
            && Growing(env, name, steps) && LastPoll(steps) == Some(steps[1])
            && (steps[0].id != steps[1].id ==> EarlyPoll(steps, steps[1].id) == Some(steps[0]))
            && CapturedBy(steps[0]) == a && CapturedBy(steps[1]) == a + b
  {
    var steps := LinePolls(env, name, a, a + b);
    var p, q := steps[0], steps[1];
    assert CapturedBy(p) == a && CapturedBy(q) == a + b;
    assert Ended(a + b) by {
      assert b == [] ==> a + b == a;
    }
    GrowsByPoll(env, name, [], p);
    GrowsByPoll(env, name, [p], q);
    assert [] + [p] == [p] && [p] + [q] == steps;
  }

  lemma HeadsOfTwoLines(env: Env, line: Bytes, header: Bytes, name: string)
    requires OneLine(line) && env.decode(line).Some? && env.decode(line).value.TokenCount?
    requires OneLine(header) && env.decode(header).Some?
    requires env.decode(header).value.SessionMeta? && env.decode(header).value.id.Some?
             && env.decode(header).value.forkedFrom.None?
    ensures HeadIdentity(env, [line], FileMarker(name), IDENTITY_LINES) == Identity(FileMarker(name), None)
    ensures HeadIdentity(env, [line] + [header], FileMarker(name), IDENTITY_LINES)
         == Identity(SessionMarker(env.decode(header).value.id.value), None)
  {
    var two := [line] + [header];
    assert [line][1..] == [] && two[1..] == [header];
  }

  /** A read error right after the first token record of a new file: its key is kept and its event lost. */
  lemma FailedPollLosesAKey(env: Env, line: Bytes, file: string, id: Identity, raw: RawUsage, at: Epoch)
    requires OneLine(line) && env.decode(line) == Some(TokenCount(Some(raw), None, Some(at))) && raw.total > 0
    ensures var failed := Run(env, [FailedPoll(file, line, id, |line|)]);
            SumEvents(failed.days) == 0 && |failed.keys| == 1
  {
    var step := FailedPoll(file, line, id, |line|);
    ReplayTokenLine(env, line, FreshState(id), raw, at);
    FreshIsCodable(id);
    assert line[0..|line|] == line && [step][..0] == [] && Run(env, []) == EmptyLedger();
    SettledKeys(Replay(env, line, FreshState(id)).1, {});
    assert Run(env, [step]).keys == {} + KeysOf(Replay(env, line, FreshState(id)).1);
  }

  /** Without a header the retry then counts the same record under a second key. */
  lemma FirstRetryCountsAgain(env: Env, line: Bytes, file: string, raw: RawUsage, at: Epoch)
    requires OneLine(line) && env.decode(line) == Some(TokenCount(Some(raw), None, Some(at))) && raw.total > 0
    ensures RetryCounts(env, EmptyLedger(), file, line, ReadIdentity(env, line, file), |line|) > 0
  {
    var id := ReadIdentity(env, line, file);
    HeadOfOneLine(env, line, FileMarker(file));
    RecordsOfOneLine(env, line);
    assert line[..|line|] == line && line[0..|line|] == line;
    assert Unscoped(Records(env, line))[0] == env.decode(line).value && Counts(env.decode(line).value);
    FirstRetry(env, EmptyLedger(), file, line, id, |line|);
    RetryCountsNewKeys(env, EmptyLedger(), file, line, id, |line|);
  }

  // ---- Copies that disagree ----

  /** Two copies of a session that end in the same counter with different last usage: the total of the day is
      the last usage of whichever copy was polled first. */
  lemma CopiesMayDisagree(env: Env, x: Bytes, y: Bytes, id: Identity, raw: RawUsage, a: RawUsage, b: RawUsage,
                          at: Epoch)
    requires OneLine(x) && env.decode(x) == Some(TokenCount(Some(raw), Some(a), Some(at))) && at > 0
    requires OneLine(y) && env.decode(y) == Some(TokenCount(Some(raw), Some(b), Some(at)))
    requires raw.total > 0 && a.total > 0 && b.total > 0
    ensures DayTotal(env, [Poll("x", x, id, |x|, |x|, false), Poll("y", y, id, |y|, |y|, false)], at) == a.total
    ensures DayTotal(env, [Poll("y", y, id, |y|, |y|, false), Poll("x", x, id, |x|, |x|, false)], at) == b.total
  {
    FirstCopyCounts(env, "x", x, "y", y, id, raw, a, b, at);
    FirstCopyCounts(env, "y", y, "x", x, id, raw, b, a, at);
  }

  function DayTotal(env: Env, steps: seq<Step>, at: Epoch): nat {
    Lookup(Run(env, steps).days, env.dayOf(at), EmptyDay()).total.usage.total
  }

  /** The emission of a lone token line. */
  function LoneClaim(id: Identity, raw: RawUsage, last: RawUsage, at: Epoch): Emission
    requires raw.total > 0 && last.total > 0
  {
    var s := FreshState(id);
    var total, usage := UsageField(Some(raw)), UsageField(Some(last)).value;
    Claim(at, s.model, s.source, usage, ScopedKey(s.parent.GetOr(s.session), s.model, total, usage, at), false)
  }

  lemma LoneLine(env: Env, line: Bytes, id: Identity, raw: RawUsage, last: RawUsage, at: Epoch)
    requires OneLine(line) && env.decode(line) == Some(TokenCount(Some(raw), Some(last), Some(at)))
    requires raw.total > 0 && last.total > 0
    ensures OneShot(env, id, line).1 == [LoneClaim(id, raw, last, at)]
  {
    ReplayOneLine(env, line, FreshState(id));
  }

  lemma FirstCopyCounts(env: Env, f: string, x: Bytes, g: string, y: Bytes, id: Identity,
                        raw: RawUsage, a: RawUsage, b: RawUsage, at: Epoch)
    requires f != g && raw.total > 0 && a.total > 0 && b.total > 0
    requires OneLine(x) && env.decode(x) == Some(TokenCount(Some(raw), Some(a), Some(at)))
    requires OneLine(y) && env.decode(y) == Some(TokenCount(Some(raw), Some(b), Some(at)))
    ensures DayTotal(env, [Poll(f, x, id, |x|, |x|, false), Poll(g, y, id, |y|, |y|, false)], at) == a.total
  {
    var e1, e2 := LoneClaim(id, raw, a, at), LoneClaim(id, raw, b, at);
    LoneLine(env, x, id, raw, a, at);
    LoneLine(env, y, id, raw, b, at);
    TwoNewFiles(env, f, x, g, y, id);
    assert [e1] + [e2] == [e1, e2];
    FirstIsCredited(env, e1, e2);
  }

  lemma TwoNewFiles(env: Env, f: string, x: Bytes, g: string, y: Bytes, id: Identity)
    requires f != g
    ensures Run(env, [Poll(f, x, id, |x|, |x|, false), Poll(g, y, id, |y|, |y|, false)]).days
         == DaysOf(env, OneShot(env, id, x).1 + OneShot(env, id, y).1)
  {
    var first, q := [Poll(f, x, id, |x|, |x|, false)], Poll(g, y, id, |y|, |y|, false);
    FirstFile(env, f, x, id);
    NextNewFile(env, first, g, y, id);
    assert first + [q] == [Poll(f, x, id, |x|, |x|, false), q];
  }

  lemma NextNewFile(env: Env, steps: seq<Step>, g: string, y: Bytes, id: Identity)
    requires WithoutErrors(steps) && g !in Run(env, steps).files
    ensures Run(env, steps + [Poll(g, y, id, |y|, |y|, false)]).days
         == DaysOf(env, AllEmissions(env, steps) + OneShot(env, id, y).1)
  {
    var q := Poll(g, y, id, |y|, |y|, false);
    EmitsNext(env, steps, q);
    NewFileEmits(env, Run(env, steps), g, y, id);
    LedgerOfEmissions(env, steps + [q]);
  }

  lemma FirstFile(env: Env, f: string, x: Bytes, id: Identity)
    ensures var first := [Poll(f, x, id, |x|, |x|, false)];
            AllEmissions(env, first) == OneShot(env, id, x).1 && Run(env, first).files.Keys == {f}
  {
    var p := Poll(f, x, id, |x|, |x|, false);
    EmitsNext(env, [], p);
    assert [] + [p] == [p];
    NewFileEmits(env, EmptyLedger(), f, x, id);
    assert [] + OneShot(env, id, x).1 == OneShot(env, id, x).1;
  }

  lemma EmitsNext(env: Env, steps: seq<Step>, step: Step)
    ensures AllEmissions(env, steps + [step]) == AllEmissions(env, steps) + EmissionsOf(env, Run(env, steps), step)
    ensures Run(env, steps + [step]) == Apply(env, Run(env, steps), step)
  {
    RunNext(env, steps, step);
    assert (steps + [step])[..|steps|] == steps;
  }

  lemma NewFileEmits(env: Env, l: Ledger, file: string, content: Bytes, id: Identity)
    requires file !in l.files
    ensures EmissionsOf(env, l, Poll(file, content, id, |content|, |content|, false)) == OneShot(env, id, content).1
  {
    FreshIsCodable(id);
    assert content[0..|content|] == content;
  }

  lemma FirstIsCredited(env: Env, e1: Emission, e2: Emission)
    requires e1.Claim? && e2.Claim? && e1.key == e2.key && e1.usage.total > 0 && e2.usage.total > 0
    ensures Lookup(DaysOf(env, [e1, e2]), env.dayOf(e1.at), EmptyDay()).total.usage.total == e1.usage.total
  {
    var d, c := env.dayOf(e1.at), ContributionOf(env, e1);
    CreditedOnce(env, e1, e2);
    RowsAreTallies(env, [e1, e2], d);
    TallyCommutes(d);
    FoldMapInsert(TallyOn(d), map[], e1.key, c, NoTally());
    assert map[][e1.key := c] == map[e1.key := c];
  }

  lemma CreditedOnce(env: Env, e1: Emission, e2: Emission)
    requires e1.Claim? && e2.Claim? && e1.key == e2.key
    ensures Credited(env, [e1, e2]) == map[e1.key := ContributionOf(env, e1)]
  {
    assert [e1, e2][..1] == [e1] && [e1][..0] == [] && [e1, e2][1] == e2;
    assert Credited(env, []) == map[];
    assert Credited(env, [e1]) == CreditStep(env, map[], e1);
    assert Credited(env, [e1, e2]) == CreditStep(env, Credited(env, [e1]), e2);
  }
}
