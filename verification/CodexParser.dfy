/** The fork gate and counter state machine that turns records into token events. */
module CodexParser {
  import opened Prelude
  import opened CodexRecords

  /** What makes two token records the same request: a scope, a model and the cumulative counter,
      or, without a cumulative counter, the instant and the usage itself. */
  datatype DedupKey =
    | ByTotal(scope: Marker, model: string, input: nat, output: nat, cached: nat, reasoning: nat)
    | ByInstant(scope: Marker, model: string, at: Epoch, usage: Usage)

  /** What one record contributes before it meets the keys already counted.
      `Noted` is a token record without usage; `Claim` asks to count `usage` under `key`. */
  datatype Emission =
    | Silent
    | Noted(at: Epoch, model: string, source: string, duplicate: bool, inherited: bool, reset: bool)
    | Claim(at: Epoch, model: string, source: string, usage: Usage, key: DedupKey, reset: bool)

  datatype TokenEvent = TokenEvent(at: Epoch, model: string, source: string, usage: Usage,
                                   duplicate: bool, inherited: bool, reset: bool)

  function ScopedKey(scope: Marker, model: string, total: Option<Usage>, usage: Usage, at: Epoch): DedupKey {
    match total
    case Some(t) => ByTotal(scope, model, t.input, t.output, t.cached, t.reasoning)
    case None => ByInstant(scope, model, at, usage)
  }

  predicate IsStartedTurn(s: ParseState, turn: Option<Id>) {
    turn.Some? && TurnMarker(turn.value) in s.startedTurns
  }

  predicate ForkTurnStartsChild(s: ParseState, turn: Option<Id>) {
    if !s.replaySeen || s.childSession.None? then true else
    var turnMs := if turn.Some? then turn.value.uuidMs else None;
    if turnMs.None? || s.childMs.None? then s.userFork || IsStartedTurn(s, turn)
    else if turnMs.value != s.childMs.value then turnMs.value > s.childMs.value
    else s.userFork || IsStartedTurn(s, turn)
  }

  predicate TaskStartsChild(s: ParseState, turn: Option<Id>, startedAt: Option<int>) {
    if turn.None? then false
    else if s.childMs.None? then true
    else if turn.value.uuidMs.Some? then turn.value.uuidMs.value >= s.childMs.value
    else startedAt.Some? && startedAt.value >= s.childMs.value / 1000
  }

  predicate IsInheritedBaseline(s: ParseState, total: Option<Usage>) {
    && total.Some?
    && (|| (s.reportedTotal.Some? && total.value.total <= s.reportedTotal.value)
        || (s.baseline.Some? && CounterAtMost(total.value, s.baseline.value)))
  }

  /** While the gate is closed every record belongs to the parent's replayed history. */
  function ConsumeReplayed(s: ParseState, r: Record): (ParseState, Emission) {
    match r
    case TurnContext(turn, rawModel, _) =>
      if ForkTurnStartsChild(s, turn) then
        (s.(forkWaiting := false, replaySeen := false, startedTurns := {}, userFork := false,
            session := s.childSession.GetOr(s.session), model := ModelOrUnknown(rawModel)), Silent)
      else (s, Silent)
    case TaskStarted(turn, startedAt) =>
      if TaskStartsChild(s, turn, startedAt) then
        (s.(startedTurns := s.startedTurns + {TurnMarker(turn.value)}), Silent)
      else (s, Silent)
    case SessionMeta(id, _, _) =>
      if id.Some? && Some(SessionMarker(id.value)) != s.childSession then (s.(replaySeen := true), Silent)
      else (s, Silent)
    case TokenCount(rawTotal, _, at) =>
      var total := UsageField(rawTotal);
      if total.None? then (s, Silent) else
      (s.(previous := total, baseline := total, reportedTotal := Some(total.value.total)),
       if at.Some? then Noted(at.value, s.model, s.source, false, true, false) else Silent)
    case _ => (s, Silent)
  }

  function ConsumeSessionMeta(s: ParseState, id: Option<Id>, forkedFrom: Option<Id>,
                              threadSource: Option<string>): ParseState {
    var marker := if id.Some? then Some(SessionMarker(id.value)) else None;
    var repeatedActiveChild := marker.Some? && marker == s.childSession && !s.forkWaiting;
    var forked := forkedFrom.Some?;
    var arms := forked && !repeatedActiveChild;
    var parent := if forked then Some(SessionMarker(forkedFrom.value)) else s.parent;
    s.(session := marker.GetOr(s.session),
       parent := parent,
       source := if parent.None? then RolloutSource(threadSource) else "subagent",
       childSession := if forked then marker else s.childSession,
       childMs := if forked then (if id.Some? then id.value.uuidMs else None) else s.childMs,
       forkWaiting := arms || s.forkWaiting,
       replaySeen := !arms && s.replaySeen,
       baseline := if arms then None else s.baseline,
       reportedTotal := if arms then None else s.reportedTotal,
       startedTurns := if arms then {} else s.startedTurns,
       userFork := if arms then threadSource == Some("user") else s.userFork)
  }

  /** How a token record past the baseline gate is read: its usage, the counter to remember, and its flags. */
  datatype Reading =
    | Counted(usage: Usage, next: Option<Usage>, reset: bool)
    | Unchanged
    | Rebased(total: Usage)

  function ReadCounters(previous: Option<Usage>, total: Option<Usage>, last: Option<Usage>): Reading
    requires total.Some? || last.Some?
  {
    match (total, last, previous)
    case (Some(t), Some(l), Some(p)) =>
      if SameCounter(t, p) then Unchanged
      else if CounterRegressed(t, p) && LooksLikeStaleRegression(t, p, l) then Unchanged
      else Counted(l, total, CounterRegressed(t, p))
    case (Some(t), Some(l), None) => Counted(l, total, false)
    case (Some(t), None, Some(p)) =>
      if SameCounter(t, p) then Unchanged
      else if !CounterRegressed(t, p) then Counted(t.Minus(p), total, false)
      else Rebased(t)
    case (Some(t), None, None) => Counted(t, total, false)
    case (None, Some(l), Some(p)) => Counted(l, Some(p.Add(l)), false)
    case (None, Some(l), None) => Counted(l, None, false)
  }

  /** Usage is claimed at the last accepted instant, and the claim moves that instant forward. */
  function ClaimUsage(s: ParseState, total: Option<Usage>, usage: Usage, next: Option<Usage>, reset: bool, at: Epoch)
    : (ParseState, Emission)
  {
    var accepted := if s.lastAccepted.None? || at > s.lastAccepted.value then Some(at) else s.lastAccepted;
    (s.(previous := next, lastAccepted := accepted),
     Claim(s.lastAccepted.GetOr(at), s.model, s.source, usage,
           ScopedKey(s.parent.GetOr(s.session), s.model, total, usage, at), reset))
  }

  /** What becomes of a reading. */
  function ConsumeReading(s: ParseState, total: Option<Usage>, reading: Reading, at: Epoch): (ParseState, Emission) {
    match reading
    case Unchanged => (s, Noted(at, s.model, s.source, true, false, false))
    case Rebased(t) => (s.(previous := Some(t)), Noted(at, s.model, s.source, false, false, true))
    case Counted(usage, next, reset) =>
      if usage.total == 0 then (s, Noted(at, s.model, s.source, false, false, reset))
      else ClaimUsage(s, total, usage, next, reset, at)
  }

  function ConsumeTokens(s: ParseState, total: Option<Usage>, last: Option<Usage>, at: Epoch)
    : (ParseState, Emission)
  {
    if total.None? && last.None? then (s, Silent)
    else if IsInheritedBaseline(s, total) then (s, Noted(at, s.model, s.source, false, true, false))
    else ConsumeReading(s.(baseline := None, reportedTotal := None), total, ReadCounters(s.previous, total, last), at)
  }

  /** One record through the parser. (The program's fallback scope for a missing session marker is
      unreachable: a state always carries the session of its lineage.) */
  function Consume(s: ParseState, r: Record): (ParseState, Emission) {
    if s.forkWaiting then ConsumeReplayed(s, r) else
    match r
    case SessionMeta(id, forkedFrom, threadSource) => (ConsumeSessionMeta(s, id, forkedFrom, threadSource), Silent)
    case TurnContext(_, rawModel, at) => (s.(model := ModelOrUnknown(rawModel), lastAccepted := at), Silent)
    case UserMessage(message, at) => (if IsPrompt(message) then s.(lastAccepted := at) else s, Silent)
    case TokenCount(rawTotal, rawLast, Some(at)) =>
      ConsumeTokens(s, UsageField(rawTotal), UsageField(rawLast), at)
    case _ => (s, Silent)
  }

  // ---- Counting an emission against the keys already counted ----

  /** A claim whose key was counted before becomes an inherited record without usage. */
  function Settle(e: Emission, keys: set<DedupKey>): (Option<TokenEvent>, set<DedupKey>) {
    match e
    case Silent => (None, keys)
    case Noted(at, model, source, duplicate, inherited, reset) =>
      (Some(TokenEvent(at, model, source, ZeroUsage(), duplicate, inherited, reset)), keys)
    case Claim(at, model, source, usage, key, reset) =>
      (Some(TokenEvent(at, model, source, if key in keys then ZeroUsage() else usage, false, key in keys, reset)),
       keys + {key})
  }

  /** The program's set of counted keys: one object shared by every file of a ledger. */
  class KeySet {
    var keys: set<DedupKey>

    constructor ()
      ensures keys == {}
    {
      keys := {};
    }
  }

  /** The parser object of one file: one record of fields, updated field by field as records arrive. */
  class RolloutParser {
    var state: ParseState

    constructor (s: ParseState)
      ensures state == s
    {
      state := s;
    }

    method ConsumeReplayedRecord(r: Record) returns (event: Option<TokenEvent>)
      requires state.forkWaiting
      modifies this
      ensures state == ConsumeReplayed(old(state), r).0
      ensures !ConsumeReplayed(old(state), r).1.Claim?
      ensures event == Settle(ConsumeReplayed(old(state), r).1, {}).0
    {
      event := None;
      match r {
        case TurnContext(turn, rawModel, _) =>
          if ForkTurnStartsChild(state, turn) {
            state := state.(forkWaiting := false, replaySeen := false, startedTurns := {}, userFork := false);
            if state.childSession.Some? {
              state := state.(session := state.childSession.value);
            }
            state := state.(model := ModelOrUnknown(rawModel));
          }
        case TaskStarted(turn, startedAt) =>
          if TaskStartsChild(state, turn, startedAt) {
            state := state.(startedTurns := state.startedTurns + {TurnMarker(turn.value)});
          }
        case SessionMeta(id, _, _) =>
          if id.Some? && Some(SessionMarker(id.value)) != state.childSession {
            state := state.(replaySeen := true);
          }
        case TokenCount(rawTotal, _, at) =>
          var total := UsageField(rawTotal);
          if total.Some? {
            state := state.(previous := total, baseline := total, reportedTotal := Some(total.value.total));
            if at.Some? {
              event := Some(TokenEvent(at.value, state.model, state.source, ZeroUsage(), false, true, false));
            }
          }
        case _ =>
      }
    }

    method ConsumeMeta(id: Option<Id>, forkedFrom: Option<Id>, threadSource: Option<string>)
      requires !state.forkWaiting
      modifies this
      ensures state == ConsumeSessionMeta(old(state), id, forkedFrom, threadSource)
    {
      var marker := if id.Some? then Some(SessionMarker(id.value)) else None;
      var repeatedActiveChild := marker.Some? && marker == state.childSession;
      if marker.Some? {
        state := state.(session := marker.value);
      }
      if forkedFrom.Some? {
        state := state.(parent := Some(SessionMarker(forkedFrom.value)), childSession := marker,
                        childMs := if id.Some? then id.value.uuidMs else None);
        if !repeatedActiveChild {
          state := state.(forkWaiting := true, replaySeen := false, baseline := None, reportedTotal := None,
                          startedTurns := {}, userFork := threadSource == Some("user"));
        }
      }
      state := state.(source := if state.parent.None? then RolloutSource(threadSource) else "subagent");
    }

    method ClaimTokens(total: Option<Usage>, usage: Usage, next: Option<Usage>, reset: bool, at: Epoch, seen: KeySet)
      returns (event: Option<TokenEvent>)
      modifies this, seen
      ensures state == ClaimUsage(old(state), total, usage, next, reset, at).0
      ensures (event, seen.keys) == Settle(ClaimUsage(old(state), total, usage, next, reset, at).1, old(seen.keys))
    {
      ghost var before := state;
      state := state.(previous := next);
      var effective := state.lastAccepted.GetOr(at);
      if state.lastAccepted.None? || at > state.lastAccepted.value {
        state := state.(lastAccepted := Some(at));
      }
      assert state == ClaimUsage(before, total, usage, next, reset, at).0;
      var key := ScopedKey(state.parent.GetOr(state.session), state.model, total, usage, at);
      ghost var claim := ClaimUsage(before, total, usage, next, reset, at).1;
      assert claim == Claim(effective, state.model, state.source, usage, key, reset);
      var inherited := key in seen.keys;
      seen.keys := seen.keys + {key};
      event := Some(TokenEvent(effective, state.model, state.source, if inherited then ZeroUsage() else usage,
                               false, inherited, reset));
    }

    /** The token branch past the fork gate. */
    method ConsumeTokenCount(total: Option<Usage>, last: Option<Usage>, at: Epoch, seen: KeySet)
      returns (event: Option<TokenEvent>)
      modifies this, seen
      ensures state == ConsumeTokens(old(state), total, last, at).0
      ensures (event, seen.keys) == Settle(ConsumeTokens(old(state), total, last, at).1, old(seen.keys))
    {
      if total.None? && last.None? {
        return None;
      }
      if IsInheritedBaseline(state, total) {
        return Some(TokenEvent(at, state.model, state.source, ZeroUsage(), false, true, false));
      }
      state := state.(baseline := None, reportedTotal := None);
      match ReadCounters(state.previous, total, last) {
        case Unchanged =>
          event := Some(TokenEvent(at, state.model, state.source, ZeroUsage(), true, false, false));
        case Rebased(counter) =>
          state := state.(previous := Some(counter));
          event := Some(TokenEvent(at, state.model, state.source, ZeroUsage(), false, false, true));
        case Counted(usage, next, reset) =>
          if usage.total == 0 {
            return Some(TokenEvent(at, state.model, state.source, ZeroUsage(), false, false, reset));
          }
          event := ClaimTokens(total, usage, next, reset, at, seen);
      }
    }

    /** One record: the state becomes what `Consume` says, and the emission is settled against `seen`. */
    method ConsumeRecord(r: Record, seen: KeySet) returns (event: Option<TokenEvent>)
      modifies this, seen
      ensures state == Consume(old(state), r).0
      ensures (event, seen.keys) == Settle(Consume(old(state), r).1, old(seen.keys))
    {
      if state.forkWaiting {
        event := ConsumeReplayedRecord(r);
        return;
      }
      event := None;
      match r {
        case SessionMeta(id, forkedFrom, threadSource) => ConsumeMeta(id, forkedFrom, threadSource);
        case TurnContext(_, rawModel, at) => state := state.(model := ModelOrUnknown(rawModel), lastAccepted := at);
        case UserMessage(message, at) =>
          if IsPrompt(message) {
            state := state.(lastAccepted := at);
          }
        case TokenCount(rawTotal, rawLast, Some(at)) =>
          event := ConsumeTokenCount(UsageField(rawTotal), UsageField(rawLast), at, seen);
        case _ =>
      }
    }
  }
}
