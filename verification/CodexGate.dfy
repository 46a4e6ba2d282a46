/** Which turn opens the fork gate, told from the records alone, and what a forked file counts from its first byte. */
module CodexGate {
  import opened Prelude
  import opened CodexRecords
  import opened CodexParser
  import opened CodexLog
  import opened CodexDays
  import opened CodexFork

  // ---- The turn that starts the child ----

  /** What a forking header says of the session it starts. */
  datatype Fork = Fork(child: Option<Id>, user: bool)

  function TimeOf(id: Option<Id>): Option<nat> {
    if id.Some? then id.value.uuidMs else None
  }

  /** The header of another session: history of the parent is being replayed. */
  predicate Foreign(r: Record, child: Option<Id>) {
    r.SessionMeta? && r.id.Some? && r.id != child
  }

  /** A task of this turn that began no earlier than the child: by the time of the turn, or of the task if the turn
      has none. */
  predicate BeganInChild(r: Record, turn: Id, child: Option<Id>) {
    && r.TaskStarted? && r.turn == Some(turn)
    && (TimeOf(child).Some? ==>
          if turn.uuidMs.Some? then turn.uuidMs.value >= TimeOf(child).value
          else r.startedAt.Some? && r.startedAt.value >= TimeOf(child).value / 1000)
  }

  predicate Began(before: seq<Record>, turn: Option<Id>, child: Option<Id>) {
    turn.Some? && exists r <- before :: BeganInChild(r, turn.value, child)
  }

  /** A turn is the child's: always while nothing foreign was seen, else if it is later than the child, or if,
      with an equal or an unknown time, the user forked or a task of it began in the child. */
  predicate Opens(before: seq<Record>, r: Record, fork: Fork) {
    && r.TurnContext?
    && (|| fork.child.None?
        || (forall x <- before :: !Foreign(x, fork.child))
        || (TimeOf(r.turn).Some? && TimeOf(fork.child).Some? && TimeOf(r.turn).value > TimeOf(fork.child).value)
        || ((TimeOf(r.turn).None? || TimeOf(fork.child).None? || TimeOf(r.turn) == TimeOf(fork.child))
            && (fork.user || Began(before, r.turn, fork.child))))
  }

  predicate NoneOpens(rs: seq<Record>, fork: Fork) {
    forall j | 0 <= j < |rs| :: !Opens(rs[..j], rs[j], fork)
  }

  /** The last of these records is the first that opens the gate. */
  predicate OpensLast(rs: seq<Record>, fork: Fork) {
    rs != [] && NoneOpens(rs[..|rs| - 1], fork) && Opens(rs[..|rs| - 1], rs[|rs| - 1], fork)
  }

  /** What the parser remembers behind the gate. */
  ghost predicate Behind(s: ParseState, before: seq<Record>, fork: Fork) {
    && s.forkWaiting && s.userFork == fork.user && s.childMs == TimeOf(fork.child)
    && s.childSession == (if fork.child.Some? then Some(SessionMarker(fork.child.value)) else None)
    && (s.replaySeen <==> exists x <- before :: Foreign(x, fork.child))
    && forall turn: Id :: TurnMarker(turn) in s.startedTurns <==> Began(before, Some(turn), fork.child)
  }

  lemma ForeignSnoc(before: seq<Record>, r: Record, child: Option<Id>)
    ensures (exists x <- before + [r] :: Foreign(x, child))
       <==> (exists x <- before :: Foreign(x, child)) || Foreign(r, child)
  {
    assert r in before + [r];
  }

  lemma BeganSnoc(before: seq<Record>, r: Record, turn: Id, child: Option<Id>)
    ensures Began(before + [r], Some(turn), child) <==> Began(before, Some(turn), child) || BeganInChild(r, turn, child)
  {
    assert r in before + [r];
  }

  /** One record behind the gate. */
  lemma GateStep(s: ParseState, before: seq<Record>, r: Record, fork: Fork)
    requires Behind(s, before, fork)
    ensures var s' := Consume(s, r).0;
            (s'.forkWaiting <==> !Opens(before, r, fork)) && (s'.forkWaiting ==> Behind(s', before + [r], fork))
  {
    ForeignSnoc(before, r, fork.child);
    forall turn: Id ensures Began(before + [r], Some(turn), fork.child)
                       <==> Began(before, Some(turn), fork.child) || BeganInChild(r, turn, fork.child)
    {
      BeganSnoc(before, r, turn, fork.child);
    }
  }

  lemma {:induction false} StaysBehind(rs: seq<Record>, s: ParseState, fork: Fork)
    requires Behind(s, [], fork) && NoneOpens(rs, fork)
    ensures Behind(ParseAll(rs, s).0, rs, fork) && ClosedDuring(rs, s)
  {
    if rs != [] {
      var init := rs[..|rs| - 1];
      assert NoneOpens(init, fork) by {
        assert forall j | 0 <= j < |init| :: init[..j] == rs[..j];
      }
      StaysBehind(init, s, fork);
      ParseSnoc(rs, s);
      GateStep(ParseAll(init, s).0, init, rs[|rs| - 1], fork);
      assert init + [rs[|rs| - 1]] == rs;
      forall i | 0 <= i < |rs| ensures ParseAll(rs[..i], s).0.forkWaiting {
        assert i < |init| ==> rs[..i] == init[..i];
        assert i == |init| ==> rs[..i] == init;
      }
    }
  }

  /** Behind a header that names a parent the gate stays closed as long as no turn is the child's, and the first
      turn that is opens it. */
  lemma GateOpensAtChild(rs: seq<Record>, s: ParseState, fork: Fork)
    requires Behind(s, [], fork)
    ensures OpensLast(rs, fork) <==> rs != [] && ClosedDuring(rs, s) && !ParseAll(rs, s).0.forkWaiting
    ensures NoneOpens(rs, fork) <==> ClosedDuring(rs, s) && ParseAll(rs, s).0.forkWaiting
  {
    if rs != [] {
      var init, last := rs[..|rs| - 1], rs[|rs| - 1];
      GateOpensAtChild(init, s, fork);
      assert ClosedDuring(rs, s) <==> ClosedDuring(init, s) && ParseAll(init, s).0.forkWaiting by {
        assert forall i | 0 <= i < |init| :: init[..i] == rs[..i];
        assert rs[..|init|] == init;
      }
      NoneOpensSnoc(rs, fork);
      if NoneOpens(init, fork) {
        StaysBehind(init, s, fork);
        ParseSnoc(rs, s);
        GateStep(ParseAll(init, s).0, init, last, fork);
      }
    }
  }

  lemma NoneOpensSnoc(rs: seq<Record>, fork: Fork)
    requires rs != []
    ensures var init := rs[..|rs| - 1];
            NoneOpens(rs, fork) <==> NoneOpens(init, fork) && !Opens(init, rs[|rs| - 1], fork)
  {
    var init := rs[..|rs| - 1];
    assert forall j | 0 <= j < |init| :: init[..j] == rs[..j];
  }

  /** A header that names a parent puts the parser behind the gate, unless it repeats the active child's. */
  lemma HeaderShutsGate(s: ParseState, child: Option<Id>, parent: Id, threadSource: Option<string>)
    requires !s.forkWaiting
    ensures var s' := Consume(s, SessionMeta(child, Some(parent), threadSource)).0;
            if child.Some? && s.childSession == Some(SessionMarker(child.value)) then !s'.forkWaiting
            else Behind(s', [], Fork(child, threadSource == Some("user")))
  {
  }

  /** The turn that opens the gate is counted under its own model and the child's session. */
  lemma OpeningTurnIsTheChilds(s: ParseState, before: seq<Record>, r: Record, fork: Fork)
    requires Behind(s, before, fork) && Opens(before, r, fork)
    ensures var (s', e) := Consume(s, r);
            && e == Silent && s'.model == ModelOrUnknown(r.rawModel)
            && s'.session == (if fork.child.Some? then SessionMarker(fork.child.value) else s.session)
            && s'.previous == s.previous && s'.baseline == s.baseline && s'.reportedTotal == s.reportedTotal
            && s'.parent == s.parent && s'.source == s.source && s'.lastAccepted == s.lastAccepted
  {
    GateStep(s, before, r, fork);
  }

  // ---- A forked file from its first byte ----

  lemma SilentHeadSettles(es: seq<Emission>, keys: set<DedupKey>)
    ensures SettleAll([Silent] + es, keys) == SettleAll(es, keys)
    ensures KeysOf([Silent] + es) == KeysOf(es)
  {
    assert ([Silent] + es)[1..] == es;
    assert [] + SettleAll(es, keys).1 == SettleAll(es, keys).1;
    KeysOfConcat([Silent], es);
    assert KeysOf([Silent]) == {};
  }

  lemma ReplayAfterHeader(env: Env, id: Identity, bs: Bytes, header: Record, rest: seq<Record>)
    requires RecordsIn(env, Lines(bs)) == [header] + rest && header.SessionMeta?
    ensures var s := Consume(FreshState(id), header).0;
            Replay(env, bs, FreshState(id)).1 == [Silent] + ParseAll(rest, s).1
  {
    ReplayIsParse(env, Lines(bs), FreshState(id));
    assert ([header] + rest)[1..] == rest;
    ParseFirst([header] + rest, FreshState(id));
  }

  /** A file that starts with a forking header, goes on with replayed history up to the first turn of the child and
      then with records of its own counts exactly its growth over the last replayed counter, as long as its keys
      are new. */
  lemma ForkedFile(env: Env, id: Identity, bs: Bytes, child: Option<Id>, parent: Id, threadSource: Option<string>,
                   replayed: seq<Record>, own: seq<Record>, keys: set<DedupKey>)
    requires RecordsIn(env, Lines(bs)) == [SessionMeta(child, Some(parent), threadSource)] + (replayed + own)
    requires OpensLast(replayed, Fork(child, threadSource == Some("user")))
    requires OwnRun(own, LastTotal(replayed, None).GetOr(ZeroUsage()))
    requires KeysOf(Replay(env, bs, FreshState(id)).1) !! keys
    ensures var base := LastTotal(replayed, None).GetOr(ZeroUsage());
            PlusUsage(base, SettleAll(Replay(env, bs, FreshState(id)).1, keys).1) == FinalCounter(own, base)
  {
    var header := SessionMeta(child, Some(parent), threadSource);
    var s := Consume(FreshState(id), header).0;
    HeaderShutsGate(FreshState(id), child, parent, threadSource);
    GateOpensAtChild(replayed, s, Fork(child, threadSource == Some("user")));
    ReplayAfterHeader(env, id, bs, header, replayed + own);
    SilentHeadSettles(ParseAll(replayed + own, s).1, keys);
    ForkedSession(s, replayed, own, keys);
  }

  /** Until a turn is the child's a forked file claims nothing at all. */
  lemma ReplayOnlyClaimsNothing(env: Env, id: Identity, bs: Bytes, child: Option<Id>, parent: Id,
                                threadSource: Option<string>, replayed: seq<Record>)
    requires RecordsIn(env, Lines(bs)) == [SessionMeta(child, Some(parent), threadSource)] + replayed
    requires NoneOpens(replayed, Fork(child, threadSource == Some("user")))
    ensures forall e <- Replay(env, bs, FreshState(id)).1 :: !e.Claim?
  {
    var header := SessionMeta(child, Some(parent), threadSource);
    var s := Consume(FreshState(id), header).0;
    HeaderShutsGate(FreshState(id), child, parent, threadSource);
    StaysBehind(replayed, s, Fork(child, threadSource == Some("user")));
    ReplayAfterHeader(env, id, bs, header, replayed);
    ReplayedClaimsNothing(replayed, s);
  }

  /** So the parent's turns, all of them earlier than the child, never count, whoever forked. */
  lemma EarlierTurnsStayClosed(child: Id, user: bool, foreign: Record, rest: seq<Record>)
    requires child.uuidMs.Some? && Foreign(foreign, Some(child))
    requires forall r <- rest :: r.TurnContext? ==> TimeOf(r.turn).Some? && TimeOf(r.turn).value < child.uuidMs.value
    ensures NoneOpens([foreign] + rest, Fork(Some(child), user))
  {
    var rs := [foreign] + rest;
    forall j | 0 <= j < |rs| ensures !Opens(rs[..j], rs[j], Fork(Some(child), user)) {
      if j > 0 {
        assert rs[..j][0] == foreign && foreign in rs[..j];
        assert rs[j] == rest[j - 1] && rest[j - 1] in rest;
      }
    }
  }
}
