/** Under which session or parent usage is keyed, and what happens when the lineage of a file is read too early
    or lost to a read error. */
module CodexLineage {
  import opened Prelude
  import opened CodexRecords
  import opened CodexParser
  import opened CodexCheckpoint
  import opened CodexLog
  import opened CodexDays
  import opened CodexAgreement
  import opened CodexLedger
  import opened CodexReplay
  import opened CodexFork

  function Scope(s: ParseState): Marker {
    s.parent.GetOr(s.session)
  }

  // ---- States that differ in their lineage only ----

  predicate Alike(s: ParseState, t: ParseState) {
    t == s.(session := t.session, parent := t.parent, source := t.source)
  }

  /** States that key everything alike, now and later. */
  predicate Kin(s: ParseState, t: ParseState) {
    Alike(s, t) && s.parent == t.parent && (s.parent.None? ==> s.session == t.session)
  }

  predicate SameClaim(e: Emission, f: Emission) {
    (e.Claim? <==> f.Claim?) && (e.Claim? ==> e.key == f.key)
  }

  lemma ConsumeReadingAlike(s: ParseState, t: ParseState, total: Option<Usage>, reading: Reading, at: Epoch)
    requires Alike(s, t)
    ensures var (s', e), (t', f) := ConsumeReading(s, total, reading, at), ConsumeReading(t, total, reading, at);
            && Alike(s', t') && s'.session == s.session && s'.parent == s.parent
            && t'.session == t.session && t'.parent == t.parent
            && (e.Claim? <==> f.Claim?) && (e.Claim? ==> e.key.scope == Scope(s) && f.key.scope == Scope(t))
            && (Scope(s) == Scope(t) ==> SameClaim(e, f))
  {
  }

  lemma ConsumeTokensAlike(s: ParseState, t: ParseState, total: Option<Usage>, last: Option<Usage>, at: Epoch)
    requires Alike(s, t)
    ensures var (s', e), (t', f) := ConsumeTokens(s, total, last, at), ConsumeTokens(t, total, last, at);
            && Alike(s', t') && s'.session == s.session && s'.parent == s.parent
            && t'.session == t.session && t'.parent == t.parent
            && (e.Claim? <==> f.Claim?) && (e.Claim? ==> e.key.scope == Scope(s) && f.key.scope == Scope(t))
            && (Scope(s) == Scope(t) ==> SameClaim(e, f))
  {
    if (total.Some? || last.Some?) && !IsInheritedBaseline(s, total) {
      ConsumeReadingAlike(s.(baseline := None, reportedTotal := None), t.(baseline := None, reportedTotal := None),
                          total, ReadCounters(s.previous, total, last), at);
    }
  }

  lemma ConsumeReplayedKin(s: ParseState, t: ParseState, r: Record)
    requires Kin(s, t)
    ensures Kin(ConsumeReplayed(s, r).0, ConsumeReplayed(t, r).0)
    ensures !ConsumeReplayed(s, r).1.Claim? && !ConsumeReplayed(t, r).1.Claim?
  {
  }

  lemma ConsumeKin(s: ParseState, t: ParseState, r: Record)
    requires Kin(s, t)
    ensures Kin(Consume(s, r).0, Consume(t, r).0) && SameClaim(Consume(s, r).1, Consume(t, r).1)
  {
    if s.forkWaiting {
      ConsumeReplayedKin(s, t, r);
    } else if r.TokenCount? && r.at.Some? {
      ConsumeTokensAlike(s, t, UsageField(r.rawTotal), UsageField(r.rawLast), r.at.value);
    }
  }

  lemma KeysOfCons(e: Emission, es: seq<Emission>)
    ensures KeysOf([e] + es) == (if e.Claim? then {e.key} else {}) + KeysOf(es)
  {
    KeysOfConcat([e], es);
    if e.Claim? {
      assert [e][0].key in KeysOf([e]);
    }
  }

  lemma ParseCons(rs: seq<Record>, s: ParseState)
    requires rs != []
    ensures var (s', e) := Consume(s, rs[0]);
            && ParseAll(rs, s).0 == ParseAll(rs[1..], s').0
            && ParseAll(rs, s).1 == [e] + ParseAll(rs[1..], s').1
  {
  }

  lemma {:induction false} KinKeys(rs: seq<Record>, s: ParseState, t: ParseState)
    requires Kin(s, t)
    ensures KeysOf(ParseAll(rs, s).1) == KeysOf(ParseAll(rs, t).1)
  {
    if rs != [] {
      var (s', e) := Consume(s, rs[0]);
      var (t', f) := Consume(t, rs[0]);
      ConsumeKin(s, t, rs[0]);
      KinKeys(rs[1..], s', t');
      ParseCons(rs, s);
      ParseCons(rs, t);
      KeysOfCons(e, ParseAll(rs[1..], s').1);
      KeysOfCons(f, ParseAll(rs[1..], t').1);
    }
  }

  // ---- Records before the file names its session or parent ----

  predicate Names(r: Record) {
    r.SessionMeta? && (r.id.Some? || r.forkedFrom.Some?)
  }

  function Unscoped(rs: seq<Record>): seq<Record> {
    if rs == [] || Names(rs[0]) then [] else [rs[0]] + Unscoped(rs[1..])
  }

  /** A dated token record that carries usage. */
  predicate Counts(r: Record) {
    r.TokenCount? && r.at.Some? && (UsageField(r.rawTotal).Some? || UsageField(r.rawLast).Some?)
  }

  predicate Uncounted(rs: seq<Record>) {
    forall r <- rs :: !Counts(r)
  }

  /** Nothing was counted or replayed yet. */
  predicate Unused(s: ParseState) {
    !s.forkWaiting && s.previous.None? && s.baseline.None? && s.reportedTotal.None?
  }

  lemma NamelessRecord(s: ParseState, t: ParseState, r: Record)
    requires Alike(s, t) && Unused(s) && !Names(r)
    ensures var (s', e), (t', f) := Consume(s, r), Consume(t, r);
            && Alike(s', t') && s'.session == s.session && t'.session == t.session
            && s'.parent == s.parent && t'.parent == t.parent
            && (e.Claim? <==> Counts(r)) && (f.Claim? <==> Counts(r))
            && (e.Claim? ==> e.key.scope == Scope(s) && f.key.scope == Scope(t))
            && (!Counts(r) ==> Unused(s'))
  {
    if r.TokenCount? && r.at.Some? {
      var total, last := UsageField(r.rawTotal), UsageField(r.rawLast);
      ConsumeTokensAlike(s, t, total, last, r.at.value);
      UnusedTokensClaim(s, total, last, r.at.value);
    }
  }

  lemma UnusedTokensClaim(s: ParseState, total: Option<Usage>, last: Option<Usage>, at: Epoch)
    requires Unused(s) && Countable(total) && Countable(last)
    ensures var (s', e) := ConsumeTokens(s, total, last, at);
            (e.Claim? <==> total.Some? || last.Some?) && (!e.Claim? ==> s' == s)
  {
  }

  /** Where the parent is known, or no usage precedes the name of the session, a wrong stand-in session does
      no harm. */
  lemma {:induction false} StandInIsHarmless(rs: seq<Record>, s: ParseState, t: ParseState)
    requires Alike(s, t) && s.parent == t.parent && Unused(s)
    requires s.parent.Some? || Uncounted(Unscoped(rs))
    ensures KeysOf(ParseAll(rs, s).1) == KeysOf(ParseAll(rs, t).1)
  {
    if s.parent.Some? {
      KinKeys(rs, s, t);
    } else if rs != [] {
      var (s', e) := Consume(s, rs[0]);
      var (t', f) := Consume(t, rs[0]);
      ParseCons(rs, s);
      ParseCons(rs, t);
      KeysOfCons(e, ParseAll(rs[1..], s').1);
      KeysOfCons(f, ParseAll(rs[1..], t').1);
      if Names(rs[0]) {
        KinKeys(rs[1..], s', t');
      } else {
        assert rs[0] in Unscoped(rs) && forall r <- Unscoped(rs[1..]) :: r in Unscoped(rs);
        NamelessRecord(s, t, rs[0]);
        StandInIsHarmless(rs[1..], s', t');
      }
    }
  }

  predicate KeyedUnder(es: seq<Emission>, m: Marker) {
    exists k <- KeysOf(es) :: k.scope == m
  }

  /** Otherwise both sessions key some usage. */
  lemma {:induction false} StandInIsSeen(rs: seq<Record>, s: ParseState)
    requires s.parent.None? && Unused(s) && !Uncounted(Unscoped(rs))
    ensures KeyedUnder(ParseAll(rs, s).1, s.session)
  {
    var (s', e) := Consume(s, rs[0]);
    NamelessRecord(s, s, rs[0]);
    ParseCons(rs, s);
    KeysOfCons(e, ParseAll(rs[1..], s').1);
    if !Counts(rs[0]) {
      StandInIsSeen(rs[1..], s');
      var k :| k in KeysOf(ParseAll(rs[1..], s').1) && k.scope == s.session;
      assert k in KeysOf(ParseAll(rs, s).1);
    } else {
      assert e.key in KeysOf(ParseAll(rs, s).1);
    }
  }

  /** Nothing is, or will be, keyed under this marker. */
  predicate Avoids(s: ParseState, m: Marker) {
    (s.parent.None? ==> s.session != m) && s.parent != Some(m) && s.childSession != Some(m)
  }

  lemma ConsumeAvoids(s: ParseState, r: Record, m: Marker)
    requires Avoids(s, m) && !m.SessionMarker?
    ensures Avoids(Consume(s, r).0, m)
    ensures Consume(s, r).1.Claim? ==> Consume(s, r).1.key.scope != m
  {
    if s.forkWaiting {
    } else if r.TokenCount? && r.at.Some? {
      TokensAvoid(s, UsageField(r.rawTotal), UsageField(r.rawLast), r.at.value, m);
    }
  }

  lemma TokensAvoid(s: ParseState, total: Option<Usage>, last: Option<Usage>, at: Epoch, m: Marker)
    requires Avoids(s, m)
    ensures var (s', e) := ConsumeTokens(s, total, last, at);
            Avoids(s', m) && (e.Claim? ==> e.key.scope != m)
  {
  }

  lemma {:induction false} RunAvoids(rs: seq<Record>, s: ParseState, m: Marker)
    requires Avoids(s, m) && !m.SessionMarker?
    ensures !KeyedUnder(ParseAll(rs, s).1, m)
  {
    if rs != [] {
      var (s', e) := Consume(s, rs[0]);
      ConsumeAvoids(s, rs[0], m);
      RunAvoids(rs[1..], s', m);
      ParseCons(rs, s);
      KeysOfCons(e, ParseAll(rs[1..], s').1);
    }
  }

  // ---- A header that is written after usage ----

  lemma {:induction false} RecordsConcat(env: Env, a: seq<Bytes>, b: seq<Bytes>)
    ensures RecordsIn(env, a + b) == RecordsIn(env, a) + RecordsIn(env, b)
  {
    if a == [] {
      assert a + b == b;
    } else {
      assert (a + b)[1..] == a[1..] + b;
      RecordsConcat(env, a[1..], b);
    }
  }

  /** The records of some bytes. */
  function Records(env: Env, bs: Bytes): seq<Record> {
    RecordsIn(env, Lines(bs))
  }

  lemma ReplayKeys(env: Env, bs: Bytes, s: ParseState)
    ensures Replay(env, bs, s).0 == ParseAll(Records(env, bs), s).0
    ensures KeysOf(Replay(env, bs, s).1) == KeysOf(ParseAll(Records(env, bs), s).1)
  {
    ReplayIsParse(env, Lines(bs), s);
  }

  lemma {:induction false} UnscopedConcat(a: seq<Record>, b: seq<Record>)
    requires forall r <- a :: !Names(r)
    ensures Unscoped(a) == a && Unscoped(a + b) == a + Unscoped(b)
  {
    if a == [] {
      assert a + b == b;
    } else {
      assert (a + b)[1..] == a[1..] + b;
      UnscopedConcat(a[1..], b);
    }
  }

  lemma {:induction false} HeadIsSessionOrFile(env: Env, lines: seq<Bytes>, fallback: Marker, n: nat)
    ensures var id := HeadIdentity(env, lines, fallback, n);
            && (id.session == fallback || id.session.SessionMarker?)
            && (id.parent.Some? ==> id.parent.value.SessionMarker?)
  {
    if lines != [] && n > 0 && |lines[0]| <= MAX_LINE_BYTES {
      HeadIsSessionOrFile(env, lines[1..], fallback, n - 1);
    }
  }

  // ---- Retrying after a read error ----

  /** Events that a retry of the same bytes counts after a read error at their end. */
  ghost function RetryCounts(env: Env, l: Ledger, file: string, content: Bytes, id: Identity, done: nat): int {
    var failed := Apply(env, l, FailedPoll(file, content, id, done));
    SumEvents(Apply(env, failed, Poll(file, content, id, done, done, false)).days) - SumEvents(l.days)
  }

  lemma {:induction false} SameKeysOfBytes(env: Env, bs: Bytes, s: ParseState, t: ParseState)
    requires Kin(s, t)
    ensures KeysOf(Replay(env, bs, s).1) == KeysOf(Replay(env, bs, t).1)
  {
    ReplayKeys(env, bs, s);
    ReplayKeys(env, bs, t);
    KinKeys(Records(env, bs), s, t);
  }

  /** A retry counts the keys that its own parse has beyond those of the failed one. */
  lemma RetryCountsNewKeys(env: Env, l: Ledger, file: string, content: Bytes, id: Identity, done: nat)
    requires EntryOf(l, file).offset <= done <= |content|
    ensures var state, bytes := EntryOf(l, file).state, content[EntryOf(l, file).offset..done];
            var first := KeysOf(Replay(env, bytes, Decode(state, id)).1);
            var again := KeysOf(Replay(env, bytes, Decode(Reloaded(state), id)).1);
            RetryCounts(env, l, file, content, id, done) == |again - (l.keys + first)|
  {
    var failing, retry := FailedPoll(file, content, id, done), Poll(file, content, id, done, done, false);
    var failed := Apply(env, l, failing);
    var first, again := Parsed(env, l, failing).1, Parsed(env, failed, retry).1;
    SettledKeys(first, l.keys);
    SettledKeys(again, failed.keys);
    StepCountsKeys(env, failed, retry);
    UnionSize(failed.keys, KeysOf(again));
  }

  lemma UnionSize(a: set<DedupKey>, b: set<DedupKey>)
    ensures |a + b| == |a| + |b - a|
  {
    assert a + b == a + (b - a) && a !! (b - a);
  }

  lemma ModelIsReadAlike(model: Option<string>)
    ensures ModelOrUnknown(Some(ModelOrUnknown(model))) == ModelOrUnknown(model)
  {
    StripFixesTrimmed(ModelOrUnknown(model));
  }

  lemma ReloadedIsKin(p: StatePayload, id: Identity)
    requires p.session.Some?
    ensures Kin(Decode(p, id), Decode(Reloaded(p), id))
  {
    ModelIsReadAlike(p.model);
  }

  /** What a read error costs on a file with a stored state: retrying the same bytes counts nothing at all,
      because every key of them is already in the set. */
  lemma RetryAfterErrorCountsNothing(env: Env, l: Ledger, file: string, content: Bytes, id: Identity, done: nat)
    requires EntryOf(l, file).offset <= done <= |content| && EntryOf(l, file).state.session.Some?
    ensures RetryCounts(env, l, file, content, id, done) == 0
  {
    RetryCountsNewKeys(env, l, file, content, id, done);
    ReloadedIsKin(EntryOf(l, file).state, id);
    SameKeysOfBytes(env, content[EntryOf(l, file).offset..done], Decode(EntryOf(l, file).state, id),
                    Decode(Reloaded(EntryOf(l, file).state), id));
  }

  lemma FirstRetryKeys(rs: seq<Record>, id: Identity, keys: set<DedupKey>)
    requires id.session != MissingMarker && id.parent != Some(MissingMarker) && !KeyedInSet(keys, MissingMarker)
    ensures var first := KeysOf(ParseAll(rs, FreshState(id)).1);
            var again := KeysOf(ParseAll(rs, FreshState(Identity(MissingMarker, id.parent))).1);
            |again - (keys + first)| == 0 <==> id.parent.Some? || Uncounted(Unscoped(rs))
  {
    var s, t := FreshState(id), FreshState(Identity(MissingMarker, id.parent));
    if id.parent.Some? || Uncounted(Unscoped(rs)) {
      StandInIsHarmless(rs, s, t);
    } else {
      StandInIsSeen(rs, t);
      RunAvoids(rs, s, MissingMarker);
      var k :| k in KeysOf(ParseAll(rs, t).1) && k.scope == MissingMarker;
      assert k in KeysOf(ParseAll(rs, t).1) - (keys + KeysOf(ParseAll(rs, s).1));
    }
  }

  /** A first poll that fails stores the marker of a missing session, under which the retry then keys. */
  lemma FirstRetry(env: Env, l: Ledger, file: string, content: Bytes, id: Identity, done: nat)
    requires file !in l.files && done <= |content|
    requires id.session != MissingMarker && id.parent != Some(MissingMarker)
    requires !KeyedInSet(l.keys, MissingMarker)
    ensures RetryCounts(env, l, file, content, id, done) == 0
       <==> id.parent.Some? || Uncounted(Unscoped(Records(env, content[..done])))
  {
    assert content[0..done] == content[..done];
    RetryCountsNewKeys(env, l, file, content, id, done);
    FreshIsCodable(id);
    FreshIsCodable(Identity(MissingMarker, None));
    FirstState(Identity(MissingMarker, None), id);
    ReplayKeys(env, content[..done], FreshState(id));
    ReplayKeys(env, content[..done], FreshState(Identity(MissingMarker, id.parent)));
    FirstRetryKeys(Records(env, content[..done]), id, l.keys);
  }

  predicate KeyedInSet(keys: set<DedupKey>, m: Marker) {
    exists k <- keys :: k.scope == m
  }

  lemma {:induction false} StoredStatesHaveSessions(env: Env, steps: seq<Step>)
    ensures forall f <- Run(env, steps).files :: Run(env, steps).files[f].state.session.Some?
  {
    if steps != [] {
      StoredStatesHaveSessions(env, steps[..|steps| - 1]);
    }
  }

  /** In any reachable ledger without keys of an earlier such retry: retrying after a read error counts nothing
      if and only if the file has a stored state, or its parent is known, or no usage precedes the record that
      names its session. */
  lemma RetryCountsNothingIff(env: Env, steps: seq<Step>, file: string, content: Bytes, done: nat)
    requires EntryOf(Run(env, steps), file).offset <= done <= |content|
    requires !KeyedInSet(Run(env, steps).keys, MissingMarker)
    ensures var id := ReadIdentity(env, content, file);
            var quiet := RetryCounts(env, Run(env, steps), file, content, id, done) == 0;
            var early := Unscoped(Records(env, content[..done]));
            quiet <==> file in Run(env, steps).files || id.parent.Some? || Uncounted(early)
  {
    var l, id := Run(env, steps), ReadIdentity(env, content, file);
    StoredStatesHaveSessions(env, steps);
    if file in l.files {
      RetryAfterErrorCountsNothing(env, l, file, content, id, done);
    } else {
      HeadIsSessionOrFile(env, Lines(content), FileMarker(file), IDENTITY_LINES);
      FirstRetry(env, l, file, content, id, done);
    }
  }
}
