/** A growing file whose session header is written late: what its polls key, count and store meanwhile, against a
    replay that knew the header from the start. */
module CodexLateHeader {
  import opened Prelude
  import opened Folding
  import opened CodexRecords
  import opened CodexParser
  import opened CodexCheckpoint
  import opened CodexLog
  import opened CodexDays
  import opened CodexLedger
  import opened CodexReplay
  import opened CodexFork
  import opened CodexLineage

  // ---- Parsing under a stand-in session ----

  /** States that differ in their session only. */
  predicate Twins(s: ParseState, t: ParseState) {
    t == s.(session := t.session)
  }

  /** The first session header, whatever it names. */
  function FirstMeta(rs: seq<Record>): (meta: Option<Record>)
    ensures meta.Some? ==> meta.value.SessionMeta?
  {
    if rs == [] then None else if rs[0].SessionMeta? then Some(rs[0]) else FirstMeta(rs[1..])
  }

  lemma ReadingTwins(s: ParseState, t: ParseState, total: Option<Usage>, reading: Reading, at: Epoch)
    requires Alike(s, t) && s.source == t.source
    ensures var (s', e), (t', f) := ConsumeReading(s, total, reading, at), ConsumeReading(t, total, reading, at);
            s'.source == s.source && t'.source == t.source && (Scope(s) == Scope(t) || !e.Claim? ==> e == f)
  {
  }

  lemma TokensTwins(s: ParseState, t: ParseState, total: Option<Usage>, last: Option<Usage>, at: Epoch)
    requires Alike(s, t) && s.source == t.source
    ensures var (s', e), (t', f) := ConsumeTokens(s, total, last, at), ConsumeTokens(t, total, last, at);
            s'.source == s.source && t'.source == t.source && (Scope(s) == Scope(t) || !e.Claim? ==> e == f)
  {
    if (total.Some? || last.Some?) && !IsInheritedBaseline(s, total) {
      ReadingTwins(s.(baseline := None, reportedTotal := None), t.(baseline := None, reportedTotal := None),
                   total, ReadCounters(s.previous, total, last), at);
    }
  }

  lemma ConsumeTwins(s: ParseState, t: ParseState, r: Record)
    requires Twins(s, t)
    ensures var (s', e), (t', f) := Consume(s, r), Consume(t, r);
            && Twins(s', t') && (s.session == t.session ==> s'.session == t'.session)
            && (s.parent.Some? ==> s'.parent.Some?)
            && (Scope(s) == Scope(t) || !e.Claim? ==> e == f)
  {
    if !s.forkWaiting && r.TokenCount? && r.at.Some? {
      ConsumeTokensAlike(s, t, UsageField(r.rawTotal), UsageField(r.rawLast), r.at.value);
      TokensTwins(s, t, UsageField(r.rawTotal), UsageField(r.rawLast), r.at.value);
    }
  }

  /** Where both states give the same scope they emit the same. */
  lemma {:induction false} TwinsEmitAlike(rs: seq<Record>, s: ParseState, t: ParseState)
    requires Twins(s, t) && (s.parent.Some? || s.session == t.session)
    ensures ParseAll(rs, s).1 == ParseAll(rs, t).1
  {
    if rs != [] {
      ConsumeTwins(s, t, rs[0]);
      TwinsEmitAlike(rs[1..], Consume(s, rs[0]).0, Consume(t, rs[0]).0);
      ParseCons(rs, s);
      ParseCons(rs, t);
    }
  }

  /** So they do where no usage precedes the record that names the session or the parent. */
  lemma {:induction false} QuietTwinsEmitAlike(rs: seq<Record>, s: ParseState, t: ParseState)
    requires Twins(s, t) && Unused(s) && (s.parent.Some? || Uncounted(Unscoped(rs)))
    ensures ParseAll(rs, s).1 == ParseAll(rs, t).1
  {
    if s.parent.Some? {
      TwinsEmitAlike(rs, s, t);
    } else if rs != [] {
      ConsumeTwins(s, t, rs[0]);
      ParseCons(rs, s);
      ParseCons(rs, t);
      if Names(rs[0]) {
        TwinsEmitAlike(rs[1..], Consume(s, rs[0]).0, Consume(t, rs[0]).0);
      } else {
        assert rs[0] in Unscoped(rs) && forall r <- Unscoped(rs[1..]) :: r in Unscoped(rs);
        NamelessRecord(s, t, rs[0]);
        QuietTwinsEmitAlike(rs[1..], Consume(s, rs[0]).0, Consume(t, rs[0]).0);
      }
    }
  }

  lemma HeaderlessRecord(s: ParseState, t: ParseState, r: Record)
    requires Alike(s, t) && s.source == t.source && !s.forkWaiting && !r.SessionMeta?
    ensures var (s', e), (t', f) := Consume(s, r), Consume(t, r);
            && Alike(s', t') && s'.source == t'.source && !s'.forkWaiting
            && s'.session == s.session && s'.parent == s.parent
            && t'.session == t.session && t'.parent == t.parent
            && (Unused(s) && !Counts(r) ==> e == f && Unused(s'))
  {
    if r.TokenCount? && r.at.Some? {
      var total, last := UsageField(r.rawTotal), UsageField(r.rawLast);
      ConsumeTokensAlike(s, t, total, last, r.at.value);
      TokensTwins(s, t, total, last, r.at.value);
      GateStaysOpen(s, total, last, r.at.value);
      if Unused(s) {
        UnusedTokensClaim(s, total, last, r.at.value);
      }
    }
  }

  lemma GateStaysOpen(s: ParseState, total: Option<Usage>, last: Option<Usage>, at: Epoch)
    ensures ConsumeTokens(s, total, last, at).0.forkWaiting == s.forkWaiting
  {
  }

  /** Records without a header keep what states know of their lineage; without usage they emit alike. */
  lemma {:induction false} HeaderlessRun(rs: seq<Record>, s: ParseState, t: ParseState)
    requires Alike(s, t) && s.source == t.source && !s.forkWaiting && FirstMeta(rs).None?
    ensures var (s', es), (t', fs) := ParseAll(rs, s), ParseAll(rs, t);
            && Alike(s', t') && s'.source == t'.source && !s'.forkWaiting
            && s'.session == s.session && s'.parent == s.parent
            && t'.session == t.session && t'.parent == t.parent
            && (Unused(s) && Uncounted(rs) ==> es == fs && Unused(s'))
  {
    if rs != [] {
      HeaderlessRecord(s, t, rs[0]);
      assert rs[0] in rs;
      HeaderlessRun(rs[1..], Consume(s, rs[0]).0, Consume(t, rs[0]).0);
      ParseCons(rs, s);
      ParseCons(rs, t);
    }
  }

  lemma {:induction false} TwinsStayTwins(rs: seq<Record>, s: ParseState, t: ParseState)
    requires Twins(s, t)
    ensures var s', t' := ParseAll(rs, s).0, ParseAll(rs, t).0;
            Twins(s', t') && (s.session == t.session ==> s' == t')
  {
    if rs != [] {
      ConsumeTwins(s, t, rs[0]);
      TwinsStayTwins(rs[1..], Consume(s, rs[0]).0, Consume(t, rs[0]).0);
      ParseCons(rs, s);
      ParseCons(rs, t);
    }
  }

  /** Twins become one state at the first header, if it names a session. */
  lemma {:induction false} HeaderJoinsTwins(rs: seq<Record>, s: ParseState, t: ParseState)
    requires Twins(s, t) && !s.forkWaiting && s.session != t.session
    requires FirstMeta(rs).Some? ==> FirstMeta(rs).value.id.Some?
    ensures ParseAll(rs, s).0 == ParseAll(rs, t).0 <==> FirstMeta(rs).Some?
  {
    if rs != [] {
      ParseCons(rs, s);
      ParseCons(rs, t);
      if rs[0].SessionMeta? {
        ConsumeTwins(s, t, rs[0]);
        TwinsStayTwins(rs[1..], Consume(s, rs[0]).0, Consume(t, rs[0]).0);
      } else {
        HeaderlessRecord(s, t, rs[0]);
        HeaderJoinsTwins(rs[1..], Consume(s, rs[0]).0, Consume(t, rs[0]).0);
      }
    }
  }

  lemma ParseConcat(a: seq<Record>, b: seq<Record>, s: ParseState)
    ensures ParseAll(a + b, s).0 == ParseAll(b, ParseAll(a, s).0).0
    ensures ParseAll(a + b, s).1 == ParseAll(a, s).1 + ParseAll(b, ParseAll(a, s).0).1
  {
    FoldConcat(RecordStep(), a, b, s);
  }

  // ---- The header in a file ----

  function NoLineage(name: string): Identity {
    Identity(FileMarker(name), None)
  }

  lemma FirstMetaOfLines(env: Env, lines: seq<Bytes>)
    requires lines != []
    ensures var record := if |lines[0]| > MAX_LINE_BYTES then None else env.decode(lines[0]);
            (FirstMeta(RecordsIn(env, lines))
             == if record.Some? && record.value.SessionMeta? then record else FirstMeta(RecordsIn(env, lines[1..])))
  {
    var record := if |lines[0]| > MAX_LINE_BYTES then None else env.decode(lines[0]);
    var rest := RecordsIn(env, lines[1..]);
    assert record.Some? ==> ([record.value] + rest)[1..] == rest;
    assert [] + rest == rest;
  }

  predicate IsHeader(env: Env, line: Bytes) {
    env.decode(line).Some? && env.decode(line).value.SessionMeta?
  }

  /** The first header of these lines, with no over-long line up to it. */
  predicate HeaderAt(env: Env, lines: seq<Bytes>, i: nat) {
    && i < |lines| && IsHeader(env, lines[i])
    && (forall k | 0 <= k <= i :: |lines[k]| <= 524288) && (forall k | 0 <= k < i :: !IsHeader(env, lines[k]))
  }

  function LineageIn(header: Record, fallback: Marker): Identity
    requires header.SessionMeta?
  {
    Identity(if header.id.Some? then SessionMarker(header.id.value) else fallback,
             if header.forkedFrom.Some? then Some(SessionMarker(header.forkedFrom.value)) else None)
  }

  lemma {:induction false} HeadIsFirstHeader(env: Env, lines: seq<Bytes>, fallback: Marker, n: nat)
    ensures (forall i: nat | i < n :: !HeaderAt(env, lines, i)) ==>
              HeadIdentity(env, lines, fallback, n) == Identity(fallback, None)
    ensures forall i: nat | i < n && HeaderAt(env, lines, i) ::
              HeadIdentity(env, lines, fallback, n) == LineageIn(env.decode(lines[i]).value, fallback)
  {
    if lines != [] && n > 0 && |lines[0]| <= MAX_LINE_BYTES {
      if IsHeader(env, lines[0]) {
        assert HeaderAt(env, lines, 0);
      } else {
        HeadIsFirstHeader(env, lines[1..], fallback, n - 1);
        forall i: nat | i < n - 1 ensures HeaderAt(env, lines[1..], i) <==> HeaderAt(env, lines, i + 1) {
          HeaderOneLater(env, lines, i);
        }
      }
    }
  }

  lemma HeaderOneLater(env: Env, lines: seq<Bytes>, i: nat)
    requires lines != [] && |lines[0]| <= 524288 && !IsHeader(env, lines[0])
    ensures HeaderAt(env, lines[1..], i) <==> HeaderAt(env, lines, i + 1)
  {
    if HeaderAt(env, lines[1..], i) {
      assert forall k | 0 < k <= i + 1 :: lines[k] == lines[1..][k - 1];
    }
    if HeaderAt(env, lines, i + 1) {
      assert forall k | 0 <= k <= i :: lines[1..][k] == lines[k + 1];
    }
  }

  /** The lineage of a file is that of the first header among its first 32 lines, if no line up to it is over-long,
      and else the stand-in of the file name. */
  lemma LineageIsFirstHeader(env: Env, content: Bytes, name: string, limit: nat)
    requires limit == 32
    ensures var lines := Lines(content);
            && ((forall i: nat | i < limit :: !HeaderAt(env, lines, i)) ==>
                  ReadIdentity(env, content, name) == NoLineage(name))
            && (forall i: nat | i < limit && HeaderAt(env, lines, i) ::
                  ReadIdentity(env, content, name) == LineageIn(env.decode(lines[i]).value, FileMarker(name)))
  {
    HeadIsFirstHeader(env, Lines(content), FileMarker(name), limit);
    assert ReadIdentity(env, content, name) == HeadIdentity(env, Lines(content), FileMarker(name), limit);
  }

  /** When the head of a longer file gives another lineage than the head read so far, the file had no header yet. */
  lemma {:induction false} LaterHeader(env: Env, a: seq<Bytes>, b: seq<Bytes>, fallback: Marker, n: nat)
    requires HeadIdentity(env, a + b, fallback, n) != HeadIdentity(env, a, fallback, n)
    ensures HeadIdentity(env, a, fallback, n) == Identity(fallback, None)
    ensures FirstMeta(RecordsIn(env, a)).None?
  {
    if a != [] {
      assert (a + b)[1..] == a[1..] + b;
      FirstMetaOfLines(env, a);
      LaterHeader(env, a[1..], b, fallback, n - 1);
    }
  }

  /** A lineage with a session of its own names the session of the first header. */
  lemma {:induction false} HeadNamesSession(env: Env, lines: seq<Bytes>, fallback: Marker, n: nat)
    requires HeadIdentity(env, lines, fallback, n).session != fallback
    ensures FirstMeta(RecordsIn(env, lines)).Some? && FirstMeta(RecordsIn(env, lines)).value.id.Some?
  {
    FirstMetaOfLines(env, lines);
    if env.decode(lines[0]).None? || !env.decode(lines[0]).value.SessionMeta? {
      HeadNamesSession(env, lines[1..], fallback, n - 1);
    }
  }

  lemma {:induction false} FirstMetaConcat(a: seq<Record>, b: seq<Record>)
    ensures FirstMeta(a + b) == if FirstMeta(a).Some? then FirstMeta(a) else FirstMeta(b)
  {
    if a == [] {
      assert a + b == b;
    } else {
      assert (a + b)[1..] == a[1..] + b;
      FirstMetaConcat(a[1..], b);
    }
  }

  lemma {:induction false} HeaderlessIsNameless(rs: seq<Record>)
    requires FirstMeta(rs).None?
    ensures forall r <- rs :: !Names(r)
  {
    if rs != [] {
      HeaderlessIsNameless(rs[1..]);
    }
  }

  lemma RecordsOfBoth(env: Env, a: Bytes, b: Bytes)
    requires Ended(a)
    ensures Records(env, a + b) == Records(env, a) + Records(env, b)
  {
    LinesConcat(a, b);
    RecordsConcat(env, Lines(a), Lines(b));
  }

  // ---- Reading the lineage late ----

  /** What makes polls that came before the header agree with a replay: a parent and no usage so far, or no
      usage before the header. */
  predicate NothingKeyedTooEarly(env: Env, a: Bytes, whole: Bytes, y: Identity) {
    Uncounted(if y.parent.Some? then Records(env, a) else Unscoped(Records(env, whole)))
  }

  /** A lineage as a header may give it. */
  predicate MayBeRead(y: Identity, name: string) {
    && (y.session == FileMarker(name) || y.session.SessionMarker?)
    && (y.parent.Some? ==> y.parent.value.SessionMarker?)
  }

  /** The records `u` are parsed under the stand-in `name`, the records `w` under the lineage `y`. */
  function LateParse(u: seq<Record>, w: seq<Record>, name: string, y: Identity): (ParseState, seq<Emission>) {
    var (s, es) := ParseAll(u, FreshState(NoLineage(name)));
    var (s', more) := ParseAll(w, s.(parent := y.parent));
    (s', es + more)
  }

  lemma LateParseIsHarmless(u: seq<Record>, w: seq<Record>, name: string, y: Identity)
    requires FirstMeta(u).None? && Uncounted(if y.parent.Some? then u else Unscoped(u + w))
    ensures LateParse(u, w, name, y).1 == ParseAll(u + w, FreshState(y)).1
  {
    var s, t := FreshState(NoLineage(name)), FreshState(y);
    HeaderlessIsNameless(u);
    UnscopedConcat(u, w);
    assert forall r <- u :: r in u + Unscoped(w);
    assert forall r <- Unscoped(w) :: r in u + Unscoped(w);
    HeaderlessRun(u, s, t);
    ParseConcat(u, w, t);
    QuietTwinsEmitAlike(w, ParseAll(u, s).0.(parent := y.parent), ParseAll(u, t).0);
  }

  lemma LateParseIsSeen(u: seq<Record>, w: seq<Record>, name: string, y: Identity)
    requires FirstMeta(u).None? && !Uncounted(if y.parent.Some? then u else Unscoped(u + w))
    ensures KeyedUnder(LateParse(u, w, name, y).1, FileMarker(name))
  {
    var s := FreshState(NoLineage(name));
    var (s1, es) := ParseAll(u, s);
    var more := ParseAll(w, s1.(parent := y.parent)).1;
    HeaderlessIsNameless(u);
    UnscopedConcat(u, []);
    assert u + [] == u;
    UnscopedConcat(u, w);
    KeysOfConcat(es, more);
    if Uncounted(u) {
      HeaderlessRun(u, s, s);
      assert !Uncounted(Unscoped(w));
      StandInIsSeen(w, s1.(parent := y.parent));
      var k :| k in KeysOf(more) && k.scope == FileMarker(name);
      assert k in KeysOf(es + more);
    } else {
      StandInIsSeen(u, s);
      var k :| k in KeysOf(es) && k.scope == FileMarker(name);
      assert k in KeysOf(es + more);
    }
  }

  /** The late lineage changes no key exactly where it changes no emission. */
  lemma LateParseAgreesIff(u: seq<Record>, w: seq<Record>, name: string, y: Identity)
    requires FirstMeta(u).None? && MayBeRead(y, name) && y != NoLineage(name)
    ensures var late, once := LateParse(u, w, name, y).1, ParseAll(u + w, FreshState(y)).1;
            var quiet := Uncounted(if y.parent.Some? then u else Unscoped(u + w));
            (KeysOf(late) == KeysOf(once) <==> quiet) && (late == once <==> quiet)
  {
    if Uncounted(if y.parent.Some? then u else Unscoped(u + w)) {
      LateParseIsHarmless(u, w, name, y);
    } else {
      LateParseIsSeen(u, w, name, y);
      RunAvoids(u + w, FreshState(y), FileMarker(name));
    }
  }

  lemma LateStateAgreesIff(u: seq<Record>, w: seq<Record>, name: string, y: Identity)
    requires FirstMeta(u).None?
    requires y.session != FileMarker(name) && FirstMeta(w).Some? ==> FirstMeta(w).value.id.Some?
    ensures LateParse(u, w, name, y).0 == ParseAll(u + w, FreshState(y)).0
       <==> y.session == FileMarker(name) || FirstMeta(u + w).Some?
  {
    var s, t := FreshState(NoLineage(name)), FreshState(y);
    HeaderlessRun(u, s, t);
    ParseConcat(u, w, t);
    FirstMetaConcat(u, w);
    var s1, t1 := ParseAll(u, s).0.(parent := y.parent), ParseAll(u, t).0;
    assert Twins(s1, t1);
    if y.session == FileMarker(name) {
      TwinsStayTwins(w, s1, t1);
    } else {
      HeaderJoinsTwins(w, s1, t1);
    }
  }

  // ---- Runs over one growing file ----

  /** The complete lines of a file. */
  function Complete(bs: Bytes): (whole: Bytes)
    ensures Ended(whole) && whole <= bs
  {
    if Ended(bs) then bs else Complete(bs[..|bs| - 1])
  }

  lemma {:induction false} CompleteIsLongest(part: Bytes, bs: Bytes)
    requires Ended(part) && part <= bs
    ensures part <= Complete(bs)
  {
    if !Ended(bs) {
      CompleteIsLongest(part, bs[..|bs| - 1]);
    }
  }

  /** The bytes a poll went through. */
  function CapturedBy(p: Step): Bytes {
    if p.Poll? && p.done <= |p.content| then p.content[..p.done] else []
  }

  /** A poll of complete lines that reads the lineage they give; a line still being written gives none. */
  predicate LinePoll(env: Env, name: string, p: Step) {
    && p.Poll? && p.file == name && p.done == p.consumed <= |p.content|
    && Ended(p.content[..p.done])
    && p.id == ReadIdentity(env, Complete(p.content), name)
  }

  /** What the poll stored can be read back. */
  predicate CleanPoll(env: Env, p: Step) {
    CleanBytes(env, CapturedBy(p))
  }

  predicate Follows(p: Step, q: Step) {
    p.Poll? && q.Poll? && p.content <= q.content && p.done <= q.done
  }

  function LastPoll(steps: seq<Step>): (last: Option<Step>)
    ensures last.Some? ==> last.value.Poll?
  {
    if steps == [] then None
    else if steps[|steps| - 1].Poll? then Some(steps[|steps| - 1])
    else LastPoll(steps[..|steps| - 1])
  }

  /** Polls of one file that only grows, and reloads. */
  predicate Growing(env: Env, name: string, steps: seq<Step>) {
    steps != [] ==>
      var init, step := steps[..|steps| - 1], steps[|steps| - 1];
      && Growing(env, name, init)
      && (LastPoll(init).Some? ==> CleanPoll(env, LastPoll(init).value))
      && (step.Reload? ||
          (LinePoll(env, name, step) && (LastPoll(init).Some? ==> Follows(LastPoll(init).value, step))))
  }

  /** The last poll that read another lineage. */
  function EarlyPoll(steps: seq<Step>, y: Identity): (early: Option<Step>)
    ensures early.Some? ==> early.value.Poll? && early.value.id != y
  {
    if steps == [] then None else
    var step := steps[|steps| - 1];
    if step.Poll? && step.id != y then Some(step) else EarlyPoll(steps[..|steps| - 1], y)
  }

  lemma {:induction false} LastPollIsLinePoll(env: Env, name: string, steps: seq<Step>)
    requires Growing(env, name, steps)
    ensures LastPoll(steps).Some? ==> LinePoll(env, name, LastPoll(steps).value)
  {
    if steps != [] {
      LastPollIsLinePoll(env, name, steps[..|steps| - 1]);
    }
  }

  predicate NoHeaderIn(env: Env, p: Step)
    requires p.Poll? && p.done <= |p.content|
  {
    FirstMeta(Records(env, p.content[..p.done])).None?
  }

  /** The first header of complete lines is the first of the longer file. */
  lemma MetaOfPrefix(env: Env, part: Bytes, whole: Bytes)
    requires Ended(part) && part <= whole
    ensures var meta := FirstMeta(Records(env, part));
            meta.Some? ==> FirstMeta(Records(env, whole)) == meta
  {
    assert whole == part + whole[|part|..];
    RecordsOfBoth(env, part, whole[|part|..]);
    FirstMetaConcat(Records(env, part), Records(env, whole[|part|..]));
  }

  lemma LineageChangesOnce(env: Env, a: Bytes, b: Bytes, name: string)
    requires Ended(a) && a <= b && ReadIdentity(env, a, name) != ReadIdentity(env, b, name)
    ensures ReadIdentity(env, a, name) == NoLineage(name) && FirstMeta(Records(env, a)).None?
  {
    assert b == a + b[|a|..];
    LinesConcat(a, b[|a|..]);
    LaterHeader(env, Lines(a), Lines(b[|a|..]), FileMarker(name), IDENTITY_LINES);
  }

  lemma ReadsBeforeHeader(env: Env, name: string, p: Step, q: Step)
    requires LinePoll(env, name, p) && LinePoll(env, name, q) && Follows(p, q) && p.id != q.id
    ensures p.id == NoLineage(name) && NoHeaderIn(env, p)
  {
    CompleteIsLongest(Complete(p.content), q.content);
    CompleteIsLongest(CapturedBy(p), p.content);
    LineageChangesOnce(env, Complete(p.content), Complete(q.content), name);
    MetaOfPrefix(env, CapturedBy(p), Complete(p.content));
  }

  /** Before the last poll a run may have read the stand-in of a missing header, and nothing else. */
  lemma {:induction false} EarlyPollsHadNoHeader(env: Env, name: string, steps: seq<Step>, q: Step)
    requires Growing(env, name, steps) && LinePoll(env, name, q)
    requires LastPoll(steps).Some? ==> Follows(LastPoll(steps).value, q)
    requires LastPoll(steps).Some? && LastPoll(steps).value.id != q.id ==> CleanPoll(env, LastPoll(steps).value)
    ensures var early := EarlyPoll(steps, q.id);
            early.Some? ==> && LinePoll(env, name, early.value) && CleanPoll(env, early.value)
                            && Follows(early.value, q)
                            && early.value.id == NoLineage(name) && NoHeaderIn(env, early.value)
  {
    if steps != [] {
      var init, step := steps[..|steps| - 1], steps[|steps| - 1];
      if step.Poll? && step.id != q.id {
        ReadsBeforeHeader(env, name, step, q);
      } else {
        if step.Poll? && LastPoll(init).Some? {
          FollowsOn(LastPoll(init).value, step, q);
        }
        EarlyPollsHadNoHeader(env, name, init, q);
      }
    }
  }

  lemma FollowsOn(p: Step, q: Step, r: Step)
    requires Follows(p, q) && Follows(q, r)
    ensures Follows(p, r)
  {
  }

  lemma {:induction false} EarlyIsLast(steps: seq<Step>, y: Identity)
    requires LastPoll(steps).Some? && LastPoll(steps).value.id != y
    ensures EarlyPoll(steps, y) == LastPoll(steps)
  {
    if !steps[|steps| - 1].Poll? {
      EarlyIsLast(steps[..|steps| - 1], y);
    }
  }

  // ---- A run is two polls ----

  function AfterEarly(env: Env, early: Option<Step>): Ledger {
    if early.Some? then Apply(env, EmptyLedger(), early.value) else EmptyLedger()
  }

  /** A ledger from which polls of the file under `y` can go on. */
  predicate Resumable(env: Env, l: Ledger, name: string, y: Identity) {
    Codable(Decode(EntryOf(l, name).state, y), y)
  }

  lemma CleanRest(env: Env, bs: Bytes, n: nat)
    requires n <= |bs| && Ended(bs[..n]) && CleanBytes(env, bs)
    ensures CleanBytes(env, bs[n..])
  {
    assert bs == bs[..n] + bs[n..];
    LinesConcat(bs[..n], bs[n..]);
    assert forall line <- Lines(bs[n..]) :: line in Lines(bs);
  }

  lemma ReplayKeepsCodable(env: Env, bs: Bytes, s: ParseState, id: Identity)
    requires CleanBytes(env, bs) && Codable(s, id)
    ensures Codable(Replay(env, bs, s).0, id)
  {
    FoldKeepsCodable(env, Lines(bs), s, id);
  }

  lemma ParsedIsCodable(env: Env, l: Ledger, name: string, p: Step)
    requires LinePoll(env, name, p) && CleanPoll(env, p) && Resumable(env, l, name, p.id)
    requires EntryOf(l, name).offset <= p.done && Ended(p.content[..EntryOf(l, name).offset])
    ensures Possible(l, p) && Codable(Parsed(env, l, p).0, p.id)
  {
    var n := EntryOf(l, name).offset;
    assert CapturedBy(p)[..n] == p.content[..n] && CapturedBy(p)[n..] == p.content[n..p.done];
    CleanRest(env, CapturedBy(p), n);
    ReplayKeepsCodable(env, CapturedBy(p)[n..], Decode(EntryOf(l, name).state, p.id), p.id);
  }

  lemma EarlyIsResumable(env: Env, name: string, early: Option<Step>, y: Identity)
    requires early.Some? ==>
               LinePoll(env, name, early.value) && CleanPoll(env, early.value) && early.value.id == NoLineage(name)
    ensures Resumable(env, AfterEarly(env, early), name, y)
    ensures early.Some? ==>
              && Possible(EmptyLedger(), early.value)
              && Codable(OneShot(env, NoLineage(name), early.value.content[..early.value.done]).0, NoLineage(name))
              && EntryOf(AfterEarly(env, early), name)
                 == Entry(early.value.done,
                          Encode(OneShot(env, NoLineage(name), early.value.content[..early.value.done]).0),
                          early.value.exhausted)
  {
    FreshIsCodable(y);
    if early.Some? {
      var p := early.value;
      var a := p.content[..p.done];
      FreshIsCodable(p.id);
      WholeLinesAreCodable(env, p.id, a);
      var s := OneShot(env, p.id, a).0;
      RoundTrip(s, Identity(y.session, None));
      assert p.content[0..p.done] == a;
    }
  }

  /** A poll that stopped early saw no more than the bytes it went through. */
  lemma PollOfCaptured(env: Env, l: Ledger, p: Step)
    requires p.Poll? && p.done == p.consumed <= |p.content| && EntryOf(l, p.file).offset <= p.done
    ensures var c := p.content[..p.done];
            Apply(env, l, p) == Apply(env, l, Poll(p.file, c, p.id, |c|, |c|, p.exhausted))
  {
    var n := EntryOf(l, p.file).offset;
    assert p.content[..p.done][n..p.done] == p.content[n..p.done];
  }

  /** Two polls under one lineage are the second of them alone. */
  lemma SecondPollIsEnough(env: Env, l: Ledger, name: string, p: Step, q: Step)
    requires LinePoll(env, name, p) && LinePoll(env, name, q) && Follows(p, q) && p.id == q.id
    requires CleanPoll(env, p) && Resumable(env, l, name, p.id)
    requires EntryOf(l, name).offset <= p.done && Ended(p.content[..EntryOf(l, name).offset])
    ensures Apply(env, Apply(env, l, p), q) == Apply(env, l, q)
  {
    var a, c, n := p.content[..p.done], q.content[..q.done], EntryOf(l, name).offset;
    assert a <= c;
    ParsedIsCodable(env, l, name, p);
    assert a[n..] == p.content[n..p.done];
    PollOfCaptured(env, l, p);
    PollOfCaptured(env, l, q);
    PollOfCaptured(env, Apply(env, l, p), q);
    EndedSuffix(a, n);
    SplitPoll(env, l, name, a, c, p.id, p.exhausted, q.exhausted);
  }

  lemma EndedSuffix(bs: Bytes, n: nat)
    requires n <= |bs| && Ended(bs)
    ensures Ended(bs[n..])
  {
  }

  /** Loading what a poll stored gives it back. */
  lemma ReloadAfterPoll(env: Env, l: Ledger, name: string, p: Step)
    requires LinePoll(env, name, p) && CleanPoll(env, p)
    requires Resumable(env, l, name, p.id) && l.files.Keys <= {name}
    requires EntryOf(l, name).offset <= p.done && Ended(p.content[..EntryOf(l, name).offset])
    ensures Apply(env, Apply(env, l, p), Reload) == Apply(env, l, p)
  {
    ParsedIsCodable(env, l, name, p);
    ReloadKeepsCodable(Parsed(env, l, p).0, p.id);
    var entry := Apply(env, l, p).files[name];
    OnlyEntry(l.files, name, entry);
    ReloadedOnly(name, entry);
  }

  lemma OnlyEntry(files: map<string, Entry>, name: string, entry: Entry)
    requires files.Keys <= {name}
    ensures files[name := entry] == map[name := entry]
  {
  }

  lemma ReloadedOnly(name: string, entry: Entry)
    requires Reloaded(entry.state) == entry.state
    ensures ReloadedFiles(map[name := entry]) == map[name := entry]
  {
  }

  lemma {:induction false} WithoutPolls(env: Env, name: string, steps: seq<Step>)
    requires Growing(env, name, steps) && LastPoll(steps).None?
    ensures Run(env, steps) == EmptyLedger()
  {
    if steps != [] {
      WithoutPolls(env, name, steps[..|steps| - 1]);
      assert ReloadedFiles(map[]) == map[];
    }
  }

  /** The last poll can go on from what the early polls left. */
  lemma LastGoesOn(env: Env, name: string, steps: seq<Step>)
    requires Growing(env, name, steps) && LastPoll(steps).Some?
    ensures var last := LastPoll(steps).value;
            var l := AfterEarly(env, EarlyPoll(steps, last.id));
            && LinePoll(env, name, last) && Resumable(env, l, name, last.id) && l.files.Keys <= {name}
            && EntryOf(l, name).offset <= last.done && Ended(last.content[..EntryOf(l, name).offset])
  {
    LastPollIsLinePoll(env, name, steps);
    var last := LastPoll(steps).value;
    var early := EarlyPoll(steps, last.id);
    EarlyPollsHadNoHeader(env, name, steps, last);
    EarlyIsResumable(env, name, early, last.id);
    if early.Some? {
      assert last.content[..early.value.done] == early.value.content[..early.value.done];
    }
  }

  /** Any run over a growing file leaves the ledger of at most two polls: the last one under the stand-in of the
      missing header, and the last one of all. */
  lemma {:induction false} RunIsTwoPolls(env: Env, name: string, steps: seq<Step>)
    requires Growing(env, name, steps) && LastPoll(steps).Some?
    ensures var last := LastPoll(steps).value;
            Run(env, steps) == Apply(env, AfterEarly(env, EarlyPoll(steps, last.id)), last)
  {
    var init, step := steps[..|steps| - 1], steps[|steps| - 1];
    if LastPoll(init).None? {
      WithoutPolls(env, name, init);
      NoEarlyPoll(init, step.id);
    } else {
      RunIsTwoPolls(env, name, init);
      LastGoesOn(env, name, init);
      var before := LastPoll(init).value;
      var l := AfterEarly(env, EarlyPoll(init, before.id));
      if step.Reload? {
        ReloadAfterPoll(env, l, name, before);
      } else if before.id == step.id {
        SecondPollIsEnough(env, l, name, before, step);
      } else {
        EarlyIsLast(init, step.id);
        ReadsBeforeHeader(env, name, before, step);
        EarlyPollsHadNoHeader(env, name, init, before);
        assert EarlyPoll(init, before.id).None?;
      }
    }
  }

  lemma {:induction false} NoEarlyPoll(steps: seq<Step>, y: Identity)
    requires LastPoll(steps).None?
    ensures EarlyPoll(steps, y).None?
  {
    if steps != [] {
      NoEarlyPoll(steps[..|steps| - 1], y);
    }
  }

  // ---- The main result ----

  /** The entries of a ledger of one file after a poll that ended in state `s`. */
  function Stored(name: string, p: Step, s: ParseState): map<string, Entry>
    requires p.Poll?
  {
    map[name := Entry(p.done, Encode(s), p.exhausted)]
  }

  /** One poll leaves the replay under the lineage it read. */
  lemma OnePollIsReplay(env: Env, name: string, p: Step)
    requires LinePoll(env, name, p)
    ensures var (l, (s, es)) := (Apply(env, EmptyLedger(), p), OneShot(env, p.id, p.content[..p.done]));
            && l.keys == KeysOf(es) && l.days == DaysOf(env, es)
            && l.files == Stored(name, p, s)
  {
    FreshIsCodable(p.id);
    assert p.content[0..p.done] == p.content[..p.done];
    var es := OneShot(env, p.id, p.content[..p.done]).1;
    SettledKeys(es, {});
  }

  lemma LateParseOfBytes(env: Env, a: Bytes, b: Bytes, name: string, y: Identity)
    requires FirstMeta(Records(env, a)).None? && CleanBytes(env, a)
    ensures var (s, es) := OneShot(env, NoLineage(name), a);
            var (s', more) := Replay(env, b, Decode(Encode(s), y));
            && LateParse(Records(env, a), Records(env, b), name, y).0 == s'
            && LateParse(Records(env, a), Records(env, b), name, y).1 == es + more
  {
    var start := FreshState(NoLineage(name));
    ReplayIsParse(env, Lines(a), start);
    HeaderlessRun(Records(env, a), start, start);
    WholeLinesAreCodable(env, NoLineage(name), a);
    var s := OneShot(env, NoLineage(name), a).0;
    RoundTrip(s, NoLineage(name));
    assert Decode(Encode(s), y) == s.(parent := y.parent);
    ReplayIsParse(env, Lines(b), s.(parent := y.parent));
  }

  /** Two polls under different lineages leave a late parse. */
  lemma TwoPollsAreLateParse(env: Env, name: string, early: Step, last: Step)
    requires LinePoll(env, name, early) && LinePoll(env, name, last) && Follows(early, last)
    requires early.id == NoLineage(name) && NoHeaderIn(env, early) && CleanPoll(env, early)
    ensures var a, b := early.content[..early.done], last.content[early.done..last.done];
            var late := LateParse(Records(env, a), Records(env, b), name, last.id);
            var l := Apply(env, AfterEarly(env, Some(early)), last);
            && l.keys == KeysOf(late.1) && l.days == DaysOf(env, late.1)
            && l.files == Stored(name, last, late.0)
  {
    var a, b := early.content[..early.done], last.content[early.done..last.done];
    OnePollIsReplay(env, name, early);
    LateParseOfBytes(env, a, b, name, last.id);
    var (s, es) := OneShot(env, early.id, a);
    FoldIsProper(env, Lines(a), FreshState(early.id));
    SecondPollPosts(env, name, Apply(env, EmptyLedger(), early), last, a, b, s, es);
  }

  lemma SecondPollPosts(env: Env, name: string, l: Ledger, p: Step, a: Bytes, b: Bytes, s: ParseState,
                        es: seq<Emission>)
    requires LinePoll(env, name, p) && |a| <= p.done && p.content[|a|..p.done] == b
    requires BooksOf(env, l, es) && l.files.Keys == {name}
    requires l.files[name].offset == |a| && l.files[name].state == Encode(s)
    ensures var (s', more) := Replay(env, b, Decode(Encode(s), p.id));
            var l' := Apply(env, l, p);
            && l'.keys == KeysOf(es + more) && l'.days == DaysOf(env, es + more)
            && l'.files == Stored(name, p, s')
  {
    var (s', more) := Replay(env, b, Decode(Encode(s), p.id));
    assert Apply(env, l, p) == Posted(env, l, name, s', more, p.done, p.exhausted);
    FoldIsProper(env, Lines(b), Decode(Encode(s), p.id));
    PostedBooks(env, l, name, s', es, more, p.done, p.exhausted);
    OnlyEntry(l.files, name, Entry(p.done, Encode(s'), p.exhausted));
  }

  function LateBytes(env: Env, a: Bytes, b: Bytes, name: string, y: Identity): (ParseState, seq<Emission>) {
    LateParse(Records(env, a), Records(env, b), name, y)
  }

  lemma LateBytesAgreeIff(env: Env, a: Bytes, b: Bytes, name: string, y: Identity)
    requires Ended(a) && FirstMeta(Records(env, a)).None? && MayBeRead(y, name) && y != NoLineage(name)
    ensures var late, once := LateBytes(env, a, b, name, y).1, OneShot(env, y, a + b).1;
            && (KeysOf(late) == KeysOf(once) <==> NothingKeyedTooEarly(env, a, a + b, y))
            && (NothingKeyedTooEarly(env, a, a + b, y) ==> late == once)
  {
    RecordsOfBoth(env, a, b);
    ReplayIsParse(env, Lines(a + b), FreshState(y));
    LateParseAgreesIff(Records(env, a), Records(env, b), name, y);
  }

  lemma LateBytesStateIff(env: Env, a: Bytes, b: Bytes, name: string, y: Identity)
    requires Ended(a) && FirstMeta(Records(env, a)).None?
    requires var header := FirstMeta(Records(env, a + b));
             y.session != FileMarker(name) && header.Some? ==> header.value.id.Some?
    ensures LateBytes(env, a, b, name, y).0 == OneShot(env, y, a + b).0
       <==> y.session == FileMarker(name) || FirstMeta(Records(env, a + b)).Some?
  {
    RecordsOfBoth(env, a, b);
    ReplayIsParse(env, Lines(a + b), FreshState(y));
    FirstMetaConcat(Records(env, a), Records(env, b));
    LateStateAgreesIff(Records(env, a), Records(env, b), name, y);
  }

  lemma CapturedSince(early: Step, last: Step)
    requires Follows(early, last) && last.done <= |last.content| && early.done <= |early.content|
    ensures CapturedBy(last) == CapturedBy(early) + last.content[early.done..last.done]
  {
  }

  lemma ReadMayBeRead(env: Env, name: string, p: Step)
    requires LinePoll(env, name, p)
    ensures MayBeRead(p.id, name)
  {
    HeadIsSessionOrFile(env, Lines(Complete(p.content)), FileMarker(name), IDENTITY_LINES);
  }

  lemma LateHeaderOfBytes(env: Env, name: string, early: Step, last: Step)
    requires LinePoll(env, name, early) && LinePoll(env, name, last) && Follows(early, last)
    requires early.id == NoLineage(name) != last.id && NoHeaderIn(env, early) && CleanPoll(env, early)
    ensures var a, whole := CapturedBy(early), CapturedBy(last);
            var l, es := Apply(env, AfterEarly(env, Some(early)), last), OneShot(env, last.id, whole).1;
            && (l.keys == KeysOf(es) <==> NothingKeyedTooEarly(env, a, whole, last.id))
            && (NothingKeyedTooEarly(env, a, whole, last.id) ==> l.days == DaysOf(env, es))
  {
    var a, b := CapturedBy(early), last.content[early.done..last.done];
    CapturedSince(early, last);
    TwoPollsAreLateParse(env, name, early, last);
    ReadMayBeRead(env, name, last);
    LateBytesAgreeIff(env, a, b, name, last.id);
  }

  lemma LateStateOfBytes(env: Env, name: string, early: Step, last: Step)
    requires LinePoll(env, name, early) && LinePoll(env, name, last) && Follows(early, last)
    requires early.id == NoLineage(name) != last.id && NoHeaderIn(env, early) && CleanPoll(env, early)
    ensures var whole := CapturedBy(last);
            Apply(env, AfterEarly(env, Some(early)), last).files == Stored(name, last, OneShot(env, last.id, whole).0)
            <==> last.id.session == FileMarker(name) || FirstMeta(Records(env, whole)).Some?
  {
    var a, b := CapturedBy(early), last.content[early.done..last.done];
    CapturedSince(early, last);
    TwoPollsAreLateParse(env, name, early, last);
    HeaderOfPrefix(env, name, last);
    LateBytesStateIff(env, a, b, name, last.id);
    StoredStateIsSeen(name, last, LateBytes(env, a, b, name, last.id).0, OneShot(env, last.id, a + b).0);
  }

  lemma StoredStateIsSeen(name: string, p: Step, s: ParseState, t: ParseState)
    requires p.Poll?
    ensures Stored(name, p, s) == Stored(name, p, t) <==> s == t
  {
    assert Stored(name, p, s)[name].state == Encode(s);
    assert Stored(name, p, t)[name].state == Encode(t);
  }

  /** A captured header names the session that the poll has read. */
  lemma HeaderOfPrefix(env: Env, name: string, p: Step)
    requires LinePoll(env, name, p)
    ensures var header := FirstMeta(Records(env, CapturedBy(p)));
            p.id.session != FileMarker(name) && header.Some? ==> header.value.id.Some?
  {
    if p.id.session != FileMarker(name) {
      CompleteIsLongest(CapturedBy(p), p.content);
      MetaOfPrefix(env, CapturedBy(p), Complete(p.content));
      HeadNamesSession(env, Lines(Complete(p.content)), FileMarker(name), IDENTITY_LINES);
    }
  }

  /** Any polls, budgets and reloads of a growing file, against one replay of the captured bytes under the lineage
      read last. The keys agree, and with them the days, if and only if every poll read that lineage or nothing was
      keyed too early; the stored entry agrees if and only if every poll read that lineage, or it names no session,
      or the header itself has been captured. */
  lemma LateHeaderAgreesIff(env: Env, name: string, steps: seq<Step>)
    requires Growing(env, name, steps) && LastPoll(steps).Some?
    ensures var last := LastPoll(steps).value;
            var early, whole := EarlyPoll(steps, last.id), CapturedBy(last);
            var (l, (s, es)) := (Run(env, steps), OneShot(env, last.id, whole));
            var quiet := early.None? || NothingKeyedTooEarly(env, CapturedBy(early.value), whole, last.id);
            var named := last.id.session == FileMarker(name) || FirstMeta(Records(env, whole)).Some?;
            && (l.keys == KeysOf(es) <==> quiet)
            && (quiet ==> l.days == DaysOf(env, es))
            && (l.files == Stored(name, last, s) <==> early.None? || named)
  {
    var last := LastPoll(steps).value;
    RunIsTwoPolls(env, name, steps);
    LastPollIsLinePoll(env, name, steps);
    EarlyPollsHadNoHeader(env, name, steps, last);
    if EarlyPoll(steps, last.id).Some? {
      LateHeaderOfBytes(env, name, EarlyPoll(steps, last.id).value, last);
      LateStateOfBytes(env, name, EarlyPoll(steps, last.id).value, last);
    } else {
      OnePollIsReplay(env, name, last);
    }
  }

  lemma {:induction false} UnfinishedHead(env: Env, lines: seq<Bytes>, tail: Bytes, fallback: Marker, n: nat)
    requires |tail| > MAX_LINE_BYTES || env.decode(tail).None?
    ensures HeadIdentity(env, lines + [tail], fallback, n) == HeadIdentity(env, lines, fallback, n)
  {
    if lines == [] {
      assert [] + [tail] == [tail] && [tail][1..] == [];
    } else {
      assert (lines + [tail])[1..] == lines[1..] + [tail];
      if n > 0 {
        UnfinishedHead(env, lines[1..], tail, fallback, n - 1);
      }
    }
  }

  /** A line still being written changes no lineage until it decodes. */
  lemma UnfinishedLineNamesNothing(env: Env, whole: Bytes, tail: Bytes, name: string)
    requires Ended(whole) && tail != [] && NoNewlineIn(tail)
    requires |tail| > MAX_LINE_BYTES || env.decode(tail).None?
    ensures Complete(whole + tail) == whole
    ensures ReadIdentity(env, whole + tail, name) == ReadIdentity(env, Complete(whole + tail), name)
  {
    CompleteWithout(whole, tail);
    LinesConcat(whole, tail);
    LineEndWithout(tail);
    LinesOfOne(tail);
    UnfinishedHead(env, Lines(whole), tail, FileMarker(name), IDENTITY_LINES);
  }

  lemma {:induction false} CompleteWithout(whole: Bytes, tail: Bytes)
    requires Ended(whole) && NoNewlineIn(tail)
    ensures Complete(whole + tail) == whole
  {
    if tail == [] {
      assert whole + tail == whole;
    } else {
      var rest := tail[..|tail| - 1];
      assert (whole + tail)[..|whole + tail| - 1] == whole + rest;
      CompleteWithout(whole, rest);
    }
  }
}
