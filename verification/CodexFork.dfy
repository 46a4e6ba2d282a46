/** What a session counts: nothing of its parent's replayed history, and its own growth exactly. */
module CodexFork {
  import opened Prelude
  import opened Folding
  import opened CodexRecords
  import opened CodexParser
  import opened CodexLog
  import opened CodexDays

  function RecordStep(): (ParseState, Record) -> (ParseState, seq<Emission>) {
    (s, r) => var (s', e) := Consume(s, r); (s', [e])
  }

  function ParseAll(rs: seq<Record>, s: ParseState): (ParseState, seq<Emission>) {
    Fold(RecordStep(), rs, s)
  }

  function Claimed(e: Emission): Usage {
    if e.Claim? then e.usage else ZeroUsage()
  }

  function ClaimStep(): (Usage, Emission) -> Usage {
    (u: Usage, e) => u.Add(Claimed(e))
  }

  /** A counter raised by everything the emissions claim. */
  function PlusClaims(counter: Usage, es: seq<Emission>): Usage {
    Accumulate(ClaimStep(), es, counter)
  }

  // ---- The closed gate ----

  /** The inherited baseline, when there is one, is the last replayed counter. */
  predicate BaselineIsPrevious(s: ParseState) {
    if s.baseline.None? then s.reportedTotal.None?
    else s.baseline == s.previous && s.reportedTotal == Some(s.previous.value.total)
  }

  /** A session header that names a parent closes the gate and clears the baseline, unless the child is already
      active. */
  lemma HeaderArmsGate(s: ParseState, id: Id, forkedFrom: Id, threadSource: Option<string>)
    requires !s.forkWaiting && s.childSession != Some(SessionMarker(id))
    ensures var s' := Consume(s, SessionMeta(Some(id), Some(forkedFrom), threadSource)).0;
            s'.forkWaiting && BaselineIsPrevious(s') && s'.baseline.None? && s'.previous == s.previous
            && s'.childSession == Some(SessionMarker(id)) && s'.parent == Some(SessionMarker(forkedFrom))
  {
  }

  /** The last cumulative counter in replayed records. */
  function LastTotal(rs: seq<Record>, previous: Option<Usage>): Option<Usage> {
    if rs == [] then previous else
    var last := rs[|rs| - 1];
    if last.TokenCount? && UsageField(last.rawTotal).Some? then UsageField(last.rawTotal)
    else LastTotal(rs[..|rs| - 1], previous)
  }

  /** The gate stays closed up to the last of these records, which opens it or not. */
  predicate ClosedDuring(rs: seq<Record>, s: ParseState) {
    forall i | 0 <= i < |rs| :: ParseAll(rs[..i], s).0.forkWaiting
  }

  lemma ParseSnoc(rs: seq<Record>, s: ParseState)
    requires rs != []
    ensures var before, last := ParseAll(rs[..|rs| - 1], s), Consume(ParseAll(rs[..|rs| - 1], s).0, rs[|rs| - 1]);
            ParseAll(rs, s).0 == last.0 && ParseAll(rs, s).1 == before.1 + [last.1]
  {
    var init, r := rs[..|rs| - 1], rs[|rs| - 1];
    assert rs == init + [r];
    FoldConcat(RecordStep(), init, [r], s);
    FoldOne(RecordStep(), r, ParseAll(init, s).0);
  }

  /** Whatever is replayed behind a closed gate -- records, other sessions' headers, turns that do not open it --
      claims nothing, and leaves the last replayed counter as both the previous counter and the baseline. */
  lemma {:induction false} ReplayedClaimsNothing(rs: seq<Record>, s: ParseState)
    requires s.forkWaiting && BaselineIsPrevious(s) && ClosedDuring(rs, s)
    ensures forall e <- ParseAll(rs, s).1 :: !e.Claim?
    ensures ParseAll(rs, s).0.previous == LastTotal(rs, s.previous)
    ensures BaselineIsPrevious(ParseAll(rs, s).0)
  {
    if rs != [] {
      var init := rs[..|rs| - 1];
      assert ClosedDuring(init, s) by {
        assert forall i | 0 <= i < |init| :: init[..i] == rs[..i];
      }
      ReplayedClaimsNothing(init, s);
      ParseSnoc(rs, s);
      assert ParseAll(init, s).0.forkWaiting;
    }
  }

  // ---- The session's own records ----

  /** A record that leaves a well-behaved cumulative counter where it is or raises it by its own usage. */
  predicate OwnRecord(r: Record, counter: Usage) {
    match r
    case TokenCount(rawTotal, rawLast, Some(_)) =>
      UsageField(rawTotal) == Some(counter) || Grows(r, counter)
    case TurnContext(_, _, _) => true
    case TaskStarted(_, _) => true
    case UserMessage(_, _) => true
    case SessionMeta(_, forkedFrom, _) => forkedFrom.None?
    case OtherRecord => true
    case _ => false
  }

  predicate Grows(r: Record, counter: Usage) {
    && r.TokenCount? && r.at.Some? && UsageField(r.rawLast).Some?
    && UsageField(r.rawTotal) == Some(counter.Add(UsageField(r.rawLast).value))
    && UsageField(r.rawLast).value.Magnitude() > 0
  }

  function CounterAfter(r: Record, counter: Usage): Usage {
    if Grows(r, counter) then counter.Add(UsageField(r.rawLast).value) else counter
  }

  predicate OwnRun(rs: seq<Record>, counter: Usage) {
    rs != [] ==> OwnRecord(rs[0], counter) && OwnRun(rs[1..], CounterAfter(rs[0], counter))
  }

  function FinalCounter(rs: seq<Record>, counter: Usage): Usage {
    if rs == [] then counter else FinalCounter(rs[1..], CounterAfter(rs[0], counter))
  }

  /** The parser is past the gate, at this counter; a baseline, if any, is the same counter. */
  predicate AtCounter(s: ParseState, counter: Usage) {
    && !s.forkWaiting && BaselineIsPrevious(s)
    && s.previous.GetOr(ZeroUsage()) == counter
  }

  function KeyMagnitude(k: DedupKey): nat {
    if k.ByTotal? then k.input + k.output + k.cached + k.reasoning else 0
  }

  /** A growing record claims exactly its own usage; any other own record claims nothing. */
  lemma OwnRecordClaims(s: ParseState, r: Record, counter: Usage)
    requires AtCounter(s, counter) && OwnRecord(r, counter)
    ensures var (s', e) := Consume(s, r);
            var counter' := CounterAfter(r, counter);
            && AtCounter(s', counter')
            && counter.Add(Claimed(e)) == counter'
            && (e.Claim? ==> counter.Magnitude() < KeyMagnitude(e.key) == counter'.Magnitude())
            && counter.Magnitude() <= counter'.Magnitude()
  {
    if r.TokenCount? {
      OwnTokensClaim(s, r, counter);
    }
  }

  lemma OwnTokensClaim(s: ParseState, r: Record, counter: Usage)
    requires AtCounter(s, counter) && OwnRecord(r, counter) && r.TokenCount?
    ensures var (s', e) := ConsumeTokens(s, UsageField(r.rawTotal), UsageField(r.rawLast), r.at.value);
            var counter' := CounterAfter(r, counter);
            && AtCounter(s', counter')
            && counter.Add(Claimed(e)) == counter'
            && (e.Claim? ==> counter.Magnitude() < KeyMagnitude(e.key) == counter'.Magnitude())
            && counter.Magnitude() <= counter'.Magnitude()
  {
    if Grows(r, counter) {
      GrowthIsClaimed(s, counter, UsageField(r.rawLast).value, r.at.value);
    } else {
      RepeatIsNoted(s, counter, UsageField(r.rawLast), r.at.value);
      assert counter.Add(ZeroUsage()) == counter;
    }
  }

  /** A snapshot of the counter as it was is noted as inherited or as a duplicate. */
  lemma RepeatIsNoted(s: ParseState, counter: Usage, last: Option<Usage>, at: Epoch)
    requires AtCounter(s, counter) && counter.total > 0
    ensures var (s', e) := ConsumeTokens(s, Some(counter), last, at);
            AtCounter(s', counter) && e.Noted?
  {
    if !IsInheritedBaseline(s, Some(counter)) {
      assert s.previous == Some(counter);
      assert ReadCounters(s.previous, Some(counter), last) == Unchanged;
    }
  }

  /** A counter raised by `last` is read as exactly that usage. */
  lemma GrowthIsRead(previous: Option<Usage>, last: Usage)
    requires last.Magnitude() > 0
    ensures ReadCounters(previous, Some(previous.GetOr(ZeroUsage()).Add(last)), Some(last))
         == Counted(last, Some(previous.GetOr(ZeroUsage()).Add(last)), false)
  {
    if previous.Some? {
      assert !SameCounter(previous.value.Add(last), previous.value);
      assert CounterAtMost(previous.value, previous.value.Add(last));
    }
  }

  lemma GrowthIsClaimed(s: ParseState, counter: Usage, last: Usage, at: Epoch)
    requires AtCounter(s, counter) && last.Magnitude() > 0 && last.total > 0
    ensures var (s', e) := ConsumeTokens(s, Some(counter.Add(last)), Some(last), at);
            && AtCounter(s', counter.Add(last)) && e.Claim? && e.usage == last
            && KeyMagnitude(e.key) == counter.Add(last).Magnitude() == counter.Magnitude() + last.Magnitude()
  {
    assert !IsInheritedBaseline(s, Some(counter.Add(last)));
    GrowthIsRead(s.previous, last);
  }

  predicate DistinctKeys(es: seq<Emission>) {
    forall i, j | 0 <= i < j < |es| && es[i].Claim? && es[j].Claim? :: es[i].key != es[j].key
  }

  lemma ParseFirst(rs: seq<Record>, s: ParseState)
    requires rs != []
    ensures ParseAll(rs, s).1 == [Consume(s, rs[0]).1] + ParseAll(rs[1..], Consume(s, rs[0]).0).1
  {
  }

  lemma ClaimsCons(e: Emission, rest: seq<Emission>, counter: Usage, next: Usage)
    requires counter.Add(Claimed(e)) == next && counter.Magnitude() <= next.Magnitude()
    requires e.Claim? ==> counter.Magnitude() < KeyMagnitude(e.key) == next.Magnitude()
    requires DistinctKeys(rest) && forall f <- rest :: f.Claim? ==> next.Magnitude() < KeyMagnitude(f.key)
    ensures PlusClaims(counter, [e] + rest) == PlusClaims(next, rest)
    ensures DistinctKeys([e] + rest)
    ensures forall f <- [e] + rest :: f.Claim? ==> counter.Magnitude() < KeyMagnitude(f.key)
  {
    var es := [e] + rest;
    assert es[1..] == rest;
    forall i, j | 0 <= i < j < |es| && es[i].Claim? && es[j].Claim? ensures es[i].key != es[j].key {
      assert es[j] == rest[j - 1] && rest[j - 1] in rest;
      assert i > 0 ==> es[i] == rest[i - 1];
    }
  }

  /** Over a whole run of own records the claims add up to the growth of the counter, under distinct keys. */
  lemma {:induction false} OwnRunClaimsGrowth(rs: seq<Record>, s: ParseState, counter: Usage)
    requires AtCounter(s, counter) && OwnRun(rs, counter)
    ensures var es := ParseAll(rs, s).1;
            && PlusClaims(counter, es) == FinalCounter(rs, counter)
            && DistinctKeys(es)
            && forall e <- es :: e.Claim? ==> counter.Magnitude() < KeyMagnitude(e.key)
  {
    if rs != [] {
      var (s', e) := Consume(s, rs[0]);
      var counter' := CounterAfter(rs[0], counter);
      OwnRecordClaims(s, rs[0], counter);
      OwnRunClaimsGrowth(rs[1..], s', counter');
      ParseFirst(rs, s);
      ClaimsCons(e, ParseAll(rs[1..], s').1, counter, counter');
    }
  }

  // ---- Settled usage ----

  function UsageStep(): (Usage, TokenEvent) -> Usage {
    (u: Usage, e: TokenEvent) => u.Add(e.usage)
  }

  /** A counter raised by the usage that was counted. */
  function PlusUsage(counter: Usage, events: seq<TokenEvent>): Usage {
    Accumulate(UsageStep(), events, counter)
  }

  /** Distinct new keys are all credited, so the settled usage is what was claimed. */
  lemma {:induction false} DistinctClaimsAreCredited(es: seq<Emission>, keys: set<DedupKey>, counter: Usage)
    requires DistinctKeys(es) && KeysOf(es) !! keys
    ensures PlusUsage(counter, SettleAll(es, keys).1) == PlusClaims(counter, es)
  {
    if es != [] {
      var e, rest := es[0], es[1..];
      var (keys', head) := SettleStep()(keys, e);
      assert e.Claim? ==> e.key in KeysOf(es);
      forall i | 0 <= i < |rest| && rest[i].Claim? ensures rest[i].key !in keys' {
        assert rest[i] == es[i + 1] && es[i + 1].key in KeysOf(es);
      }
      DistinctClaimsAreCredited(rest, keys', counter.Add(Claimed(e)));
      AccumulateConcat(UsageStep(), head, SettleAll(rest, keys').1, counter);
      if head != [] {
        AccumulateOne(UsageStep(), head[0], counter);
      }
    }
  }

  lemma {:induction false} SilentClaims(es: seq<Emission>, counter: Usage)
    requires forall e <- es :: !e.Claim?
    ensures PlusClaims(counter, es) == counter
  {
    if es != [] {
      assert es[0] in es;
      SilentClaims(es[1..], counter);
    }
  }

  lemma SilentPrefixKeys(a: seq<Emission>, b: seq<Emission>)
    requires (forall e <- a :: !e.Claim?) && DistinctKeys(b)
    ensures KeysOf(a + b) == KeysOf(b) && DistinctKeys(a + b)
  {
    KeysOfConcat(a, b);
    assert KeysOf(a) == {};
    assert forall k | 0 <= k < |a| :: !a[k].Claim?;
    forall i, j | 0 <= i < j < |a + b| && (a + b)[i].Claim? && (a + b)[j].Claim?
      ensures (a + b)[i].key != (a + b)[j].key
    {
      assert i >= |a|;
      assert (a + b)[i] == b[i - |a|] && (a + b)[j] == b[j - |a|];
    }
  }

  /** A forked session counts exactly its growth over the last replayed counter, and nothing of the replay,
      as long as its keys are new to the ledger. */
  lemma ForkedSession(s: ParseState, replayed: seq<Record>, own: seq<Record>, keys: set<DedupKey>)
    requires s.forkWaiting && BaselineIsPrevious(s) && ClosedDuring(replayed, s)
    requires !ParseAll(replayed, s).0.forkWaiting
    requires OwnRun(own, LastTotal(replayed, s.previous).GetOr(ZeroUsage()))
    requires KeysOf(ParseAll(replayed + own, s).1) !! keys
    ensures var base := LastTotal(replayed, s.previous).GetOr(ZeroUsage());
            PlusUsage(base, SettleAll(ParseAll(replayed + own, s).1, keys).1) == FinalCounter(own, base)
  {
    var base := LastTotal(replayed, s.previous).GetOr(ZeroUsage());
    ReplayedClaimsNothing(replayed, s);
    var (s1, es1) := ParseAll(replayed, s);
    OwnRunClaimsGrowth(own, s1, base);
    FoldConcat(RecordStep(), replayed, own, s);
    var es2 := ParseAll(own, s1).1;
    SilentClaims(es1, base);
    AccumulateConcat(ClaimStep(), es1, es2, base);
    SilentPrefixKeys(es1, es2);
    DistinctClaimsAreCredited(es1 + es2, keys, base);
  }

  /** An unforked session counts exactly its final counter. */
  lemma UnforkedSession(id: Identity, own: seq<Record>, keys: set<DedupKey>)
    requires OwnRun(own, ZeroUsage()) && KeysOf(ParseAll(own, FreshState(id)).1) !! keys
    ensures PlusUsage(ZeroUsage(), SettleAll(ParseAll(own, FreshState(id)).1, keys).1) == FinalCounter(own, ZeroUsage())
  {
    OwnRunClaimsGrowth(own, FreshState(id), ZeroUsage());
    DistinctClaimsAreCredited(ParseAll(own, FreshState(id)).1, keys, ZeroUsage());
  }

  // ---- From bytes to records ----

  function RecordsIn(env: Env, lines: seq<Bytes>): seq<Record> {
    if lines == [] then [] else
    var record := if |lines[0]| > MAX_LINE_BYTES then None else env.decode(lines[0]);
    (if record.Some? then [record.value] else []) + RecordsIn(env, lines[1..])
  }

  /** Replaying the lines of a file is parsing the records in them. */
  lemma {:induction false} ReplayIsParse(env: Env, lines: seq<Bytes>, s: ParseState)
    ensures Fold(LineStep(env), lines, s).0 == ParseAll(RecordsIn(env, lines), s).0
    ensures Fold(LineStep(env), lines, s).1 == ParseAll(RecordsIn(env, lines), s).1
  {
    if lines != [] {
      var (s1, es) := LineStep(env)(s, lines[0]);
      ReplayIsParse(env, lines[1..], s1);
      var record := if |lines[0]| > MAX_LINE_BYTES then None else env.decode(lines[0]);
      if record.Some? {
        assert ([record.value] + RecordsIn(env, lines[1..]))[1..] == RecordsIn(env, lines[1..]);
      } else {
        assert [] + RecordsIn(env, lines[1..]) == RecordsIn(env, lines[1..]);
      }
    }
  }
}
