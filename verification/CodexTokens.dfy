/** What a token record past the fork gate counts, and what a whole session counts, whatever its counters do. */
module CodexTokens {
  import opened Prelude
  import opened CodexRecords
  import opened CodexParser
  import opened CodexFork

  // ---- A cumulative counter, the one before it and the last usage ----

  /** In none of the four counted fields does `a` exceed `b`. */
  predicate Within(a: Usage, b: Usage) {
    a.input <= b.input && a.output <= b.output && a.cached <= b.cached && a.reasoning <= b.reasoning
  }

  /** A counter that did not move, as far as it is counted. */
  predicate Unmoved(t: Usage, p: Usage) {
    Within(t, p) && Within(p, t)
  }

  function Sum(u: Usage): nat {
    u.input + u.cached + u.output + u.reasoning
  }

  /** A counter that fell a little is an old snapshot: by at most two percent, or by at most twice the last usage. */
  predicate Old(t: Usage, p: Usage, l: Usage) {
    && !Within(p, t) && Sum(t) > 0 && Sum(p) > 0 && Sum(l) > 0
    && (100 * (Sum(p) - Sum(t)) <= 2 * Sum(p) || Sum(p) - Sum(t) <= 2 * Sum(l))
  }

  /** What a record spends: the last usage where one is given, else the rise of the counter. */
  function Spent(t: Option<Usage>, l: Option<Usage>, p: Option<Usage>): Usage {
    if t.Some? && p.Some? && Unmoved(t.value, p.value) then ZeroUsage()
    else if t.Some? && p.Some? && l.Some? && Old(t.value, p.value, l.value) then ZeroUsage()
    else if l.Some? then l.value
    else if t.None? || (p.Some? && !Within(p.value, t.value)) then ZeroUsage()
    else if p.Some? then t.value.Minus(p.value)
    else t.value
  }

  /** The counter to compare the next record with. A record that spends nothing moves it only down. */
  function Next(t: Option<Usage>, l: Option<Usage>, p: Option<Usage>): Option<Usage> {
    if t.None? then (if p.Some? && l.Some? then Some(p.value.Add(l.value)) else p)
    else if Spent(t, l, p).total > 0 then t
    else if p.Some? && l.None? && !Within(p.value, t.value) then t
    else p
  }

  /** A counter that rose by `d` and carries no last usage spends `d`. */
  lemma RiseIsSpent(p: Usage, d: Usage)
    requires !Unmoved(p.Add(d), p)
    ensures Spent(Some(p.Add(d)), None, Some(p)) == d
  {
  }

  // ---- One record ----

  /** The counter is still covered by what was replayed behind the gate. */
  predicate Covered(s: ParseState, t: Usage) {
    || (s.reportedTotal.Some? && t.total <= s.reportedTotal.value)
    || (s.baseline.Some? && Within(t, s.baseline.value))
  }

  /** Which of the reasons not to count is given. */
  predicate NotedAs(e: Emission, s: ParseState, at: Epoch, duplicate: bool, inherited: bool, reset: bool) {
    e == Noted(at, s.model, s.source, duplicate, inherited, reset)
  }

  lemma CoveredIsNoted(s: ParseState, rawTotal: Option<RawUsage>, rawLast: Option<RawUsage>, at: Epoch)
    requires !s.forkWaiting && UsageField(rawTotal).Some? && Covered(s, UsageField(rawTotal).value)
    ensures var (s', e) := Consume(s, TokenCount(rawTotal, rawLast, Some(at)));
            s' == s && NotedAs(e, s, at, false, true, false)
  {
  }

  /** A record with usage that is not covered. */
  predicate Fresh(s: ParseState, t: Option<Usage>, l: Option<Usage>) {
    !s.forkWaiting && (t.Some? || l.Some?) && (t.Some? ==> !Covered(s, t.value))
  }

  lemma OldIsStale(t: Usage, p: Usage, l: Usage)
    ensures Old(t, p, l) <==> CounterRegressed(t, p) && LooksLikeStaleRegression(t, p, l)
    ensures Unmoved(t, p) <==> SameCounter(t, p)
  {
  }

  /** The state after a fresh record: only the counter and, with a claim, the accepted instant move. */
  lemma FreshRecordSpends(s: ParseState, rawTotal: Option<RawUsage>, rawLast: Option<RawUsage>, at: Epoch)
    requires Fresh(s, UsageField(rawTotal), UsageField(rawLast))
    ensures var t, l, p := UsageField(rawTotal), UsageField(rawLast), s.previous;
            var (s', e) := Consume(s, TokenCount(rawTotal, rawLast, Some(at)));
            && s'.previous == Next(t, l, p) && s'.baseline.None? && s'.reportedTotal.None?
            && (e.Claim? <==> Spent(t, l, p).total > 0) && (e.Claim? ==> e.usage == Spent(t, l, p))
            && s' == s.(previous := s'.previous, baseline := None, reportedTotal := None,
                        lastAccepted := s'.lastAccepted)
  {
    ReadAsSpent(s.previous, UsageField(rawTotal), UsageField(rawLast));
  }

  lemma ReadAsSpent(p: Option<Usage>, t: Option<Usage>, l: Option<Usage>)
    requires (t.Some? || l.Some?) && (t.Some? ==> t.value.total > 0) && (l.Some? ==> l.value.total > 0)
    ensures var reading := ReadCounters(p, t, l);
            && (reading.Counted? ==> reading.usage == Spent(t, l, p))
            && (reading.Counted? && reading.usage.total > 0 ==> reading.next == Next(t, l, p))
            && (!reading.Counted? || reading.usage.total == 0 ==> Spent(t, l, p).total == 0)
            && (reading.Rebased? ==> Next(t, l, p) == Some(reading.total))
            && (!reading.Rebased? && !(reading.Counted? && reading.usage.total > 0) ==> Next(t, l, p) == p)
  {
    if t.Some? && p.Some? {
      OldIsStale(t.value, p.value, l.GetOr(ZeroUsage()));
    }
  }

  /** A claim is dated at the turn or prompt it belongs to, and keyed by its counter or, without one, by its
      instant and usage, under the parent or else the session. */
  lemma ClaimIsDatedAndKeyed(s: ParseState, rawTotal: Option<RawUsage>, rawLast: Option<RawUsage>, at: Epoch)
    requires Consume(s, TokenCount(rawTotal, rawLast, Some(at))).1.Claim?
    ensures var (s', e) := Consume(s, TokenCount(rawTotal, rawLast, Some(at)));
            var t, scope := UsageField(rawTotal), if s.parent.Some? then s.parent.value else s.session;
            && e.model == s.model && e.source == s.source
            && e.at == (if s.lastAccepted.Some? then s.lastAccepted.value else at)
            && s'.lastAccepted == Some(if s.lastAccepted.Some? then Max(s.lastAccepted.value, at) else at)
            && e.key == (if t.Some?
                         then ByTotal(scope, s.model, t.value.input, t.value.output, t.value.cached, t.value.reasoning)
                         else ByInstant(scope, s.model, at, e.usage))
            && (e.reset <==> t.Some? && s.previous.Some? && !Within(s.previous.value, t.value))
  {
    OldIsStale(UsageField(rawTotal).GetOr(ZeroUsage()), s.previous.GetOr(ZeroUsage()),
               UsageField(rawLast).GetOr(ZeroUsage()));
  }

  /** What is not claimed is noted, with the reason. */
  lemma UnspentIsNoted(s: ParseState, rawTotal: Option<RawUsage>, rawLast: Option<RawUsage>, at: Epoch)
    requires Fresh(s, UsageField(rawTotal), UsageField(rawLast))
    requires Spent(UsageField(rawTotal), UsageField(rawLast), s.previous).total == 0
    ensures var t, l, p := UsageField(rawTotal), UsageField(rawLast), s.previous;
            var (s', e) := Consume(s, TokenCount(rawTotal, rawLast, Some(at)));
            var repeated := t.Some? && p.Some? && (Unmoved(t.value, p.value)
                                                   || (l.Some? && Old(t.value, p.value, l.value)));
            var restarted := t.Some? && p.Some? && l.None? && !Within(p.value, t.value);
            NotedAs(e, s, at, repeated, false, restarted) && s'.lastAccepted == s.lastAccepted
  {
    ReadAsSpent(s.previous, UsageField(rawTotal), UsageField(rawLast));
    OldIsStale(UsageField(rawTotal).GetOr(ZeroUsage()), s.previous.GetOr(ZeroUsage()),
               UsageField(rawLast).GetOr(ZeroUsage()));
  }

  // ---- Whole sessions ----

  predicate Unforked(rs: seq<Record>) {
    forall r <- rs :: r.SessionMeta? ==> r.forkedFrom.None?
  }

  predicate Dated(r: Record) {
    r.TokenCount? && r.at.Some?
  }

  /** What a session spends, from a counter on. */
  function SpentBy(rs: seq<Record>, p: Option<Usage>): Usage {
    if rs == [] then ZeroUsage()
    else if !Dated(rs[0]) then SpentBy(rs[1..], p)
    else
      var t, l := UsageField(rs[0].rawTotal), UsageField(rs[0].rawLast);
      CountedOf(Spent(t, l, p)).Add(SpentBy(rs[1..], Next(t, l, p)))
  }

  /** Usage without a total does not count. */
  function CountedOf(u: Usage): Usage {
    if u.total > 0 then u else ZeroUsage()
  }

  /** The gate is open and nothing is inherited. */
  predicate Clear(s: ParseState) {
    !s.forkWaiting && s.baseline.None? && s.reportedTotal.None?
  }

  lemma ClearRecordSpends(s: ParseState, r: Record)
    requires Clear(s) && (r.SessionMeta? ==> r.forkedFrom.None?)
    ensures var (s', e) := Consume(s, r);
            && Clear(s')
            && (!Dated(r) ==> e == Silent && s'.previous == s.previous)
            && (Dated(r) ==> var t, l := UsageField(r.rawTotal), UsageField(r.rawLast);
                  Claimed(e) == CountedOf(Spent(t, l, s.previous)) && s'.previous == Next(t, l, s.previous))
  {
    if Dated(r) && (UsageField(r.rawTotal).Some? || UsageField(r.rawLast).Some?) {
      FreshRecordSpends(s, r.rawTotal, r.rawLast, r.at.value);
    }
  }

  /** Whatever its counters do -- rise, repeat, fall back a little, start again, or be missing -- a session claims what
      its records spend. */
  lemma {:induction false} SessionClaimsWhatItSpends(rs: seq<Record>, s: ParseState, from: Usage)
    requires Clear(s) && Unforked(rs)
    ensures PlusClaims(from, ParseAll(rs, s).1) == from.Add(SpentBy(rs, s.previous))
  {
    if rs == [] {
      assert from.Add(ZeroUsage()) == from;
    } else {
      var (s', e) := Consume(s, rs[0]);
      assert rs[0] in rs;
      ClearRecordSpends(s, rs[0]);
      SessionClaimsWhatItSpends(rs[1..], s', from.Add(Claimed(e)));
      ParseFirst(rs, s);
      assert ([e] + ParseAll(rs[1..], s').1)[1..] == ParseAll(rs[1..], s').1;
      AddIsAssociative(from, Claimed(e), SpentBy(rs[1..], s'.previous));
      assert from.Add(ZeroUsage()) == from;
      assert ZeroUsage().Add(SpentBy(rs[1..], s'.previous)) == SpentBy(rs[1..], s'.previous);
    }
  }

  lemma AddIsAssociative(a: Usage, b: Usage, c: Usage)
    ensures a.Add(b).Add(c) == a.Add(b.Add(c))
  {
  }

  // ---- What a claim carries ----

  function LastModel(rs: seq<Record>, model: string): string {
    if rs == [] then model else
    var last := rs[|rs| - 1];
    if last.TurnContext? then ModelOrUnknown(last.rawModel) else LastModel(rs[..|rs| - 1], model)
  }

  function LastSession(rs: seq<Record>, session: Marker): Marker {
    if rs == [] then session else
    var last := rs[|rs| - 1];
    if last.SessionMeta? && last.id.Some? then SessionMarker(last.id.value) else LastSession(rs[..|rs| - 1], session)
  }

  /** A session without a parent is the user's unless its header says otherwise. */
  function LastSource(rs: seq<Record>, source: string, parent: bool): string {
    if rs == [] then source else
    var last := rs[|rs| - 1];
    if last.SessionMeta? then (if parent then "subagent" else RolloutSource(last.threadSource))
    else LastSource(rs[..|rs| - 1], source, parent)
  }

  lemma {:induction false} ContextOfRun(rs: seq<Record>, s: ParseState)
    requires !s.forkWaiting && Unforked(rs)
    ensures var s' := ParseAll(rs, s).0;
            && !s'.forkWaiting && s'.parent == s.parent
            && s'.model == LastModel(rs, s.model) && s'.session == LastSession(rs, s.session)
            && s'.source == LastSource(rs, s.source, s.parent.Some?)
  {
    if rs != [] {
      var init, r := rs[..|rs| - 1], rs[|rs| - 1];
      assert r in rs && forall x <- init :: x in rs;
      ContextOfRun(init, s);
      ParseSnoc(rs, s);
      RecordKeepsContext(ParseAll(init, s).0, r);
    }
  }

  lemma RecordKeepsContext(s: ParseState, r: Record)
    requires !s.forkWaiting && (r.SessionMeta? ==> r.forkedFrom.None?)
    ensures var s' := Consume(s, r).0;
            && !s'.forkWaiting && s'.parent == s.parent
            && (!r.TurnContext? ==> s'.model == s.model)
            && (r.TurnContext? ==> s'.model == ModelOrUnknown(r.rawModel))
            && s'.session == (if r.SessionMeta? && r.id.Some? then SessionMarker(r.id.value) else s.session)
            && s'.source == (if !r.SessionMeta? then s.source
                             else if s.parent.Some? then "subagent" else RolloutSource(r.threadSource))
  {
  }

  /** A message that is neither blank nor markup. */
  predicate Prompts(r: Record) {
    r.UserMessage? && r.message.Some? && StripLeft(r.message.value) != "" && StripLeft(r.message.value)[0] != '<'
  }

  lemma {:induction false} SolidStaysSolid(text: string)
    requires text != "" && !IsBlank(text[0])
    ensures StripRight(text) != ""
  {
    if IsBlank(text[|text| - 1]) {
      SolidStaysSolid(text[..|text| - 1]);
    }
  }

  /** Turns and prompts set the instant that later claims are dated at; a claim moves it forward only. */
  lemma AcceptedInstant(s: ParseState, r: Record)
    requires !s.forkWaiting
    ensures var (s', e) := Consume(s, r);
            && (r.TurnContext? || Prompts(r) ==> s'.lastAccepted == r.at)
            && (e.Claim? ==> s'.lastAccepted == Some(Max(s.lastAccepted.GetOr(r.at.value), r.at.value)))
            && (!r.TurnContext? && !Prompts(r) && !e.Claim? ==> s'.lastAccepted == s.lastAccepted)
  {
    if r.UserMessage? && r.message.Some? && StripLeft(r.message.value) != "" {
      SolidStaysSolid(StripLeft(r.message.value));
    }
  }

  /** A claim of a session is made under the model of its last turn, the session of its last header and the source
      that header gives. */
  lemma ClaimsCarryTheirContext(rs: seq<Record>, s: ParseState, r: Record)
    requires !s.forkWaiting && Unforked(rs) && Consume(ParseAll(rs, s).0, r).1.Claim?
    ensures var e := Consume(ParseAll(rs, s).0, r).1;
            && ParseAll(rs + [r], s).1 == ParseAll(rs, s).1 + [e]
            && e.model == LastModel(rs, s.model) && e.source == LastSource(rs, s.source, s.parent.Some?)
            && e.key.model == e.model
            && e.key.scope == (if s.parent.Some? then s.parent.value else LastSession(rs, s.session))
  {
    ContextOfRun(rs, s);
    assert (rs + [r])[..|rs|] == rs;
    ParseSnoc(rs + [r], s);
    ClaimIsDatedAndKeyed(ParseAll(rs, s).0, r.rawTotal, r.rawLast, r.at.value);
  }
}
