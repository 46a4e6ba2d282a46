/** The parser state as it is stored in a ledger file, and when storing it loses nothing. */
module CodexCheckpoint {
  import opened Prelude
  import opened CodexRecords
  import opened CodexParser

  /** The stored object. Absent or ill-typed fields are None. */
  datatype StatePayload = StatePayload(
    model: Option<string>, source: Option<string>,
    previous: Option<Usage>,
    session: Option<Marker>, parent: Option<Marker>,
    forkWaiting: bool, childSession: Option<Marker>, childMs: Option<int>,
    replaySeen: bool, baseline: Option<Usage>, reportedTotal: Option<int>,
    startedTurns: set<Marker>, userFork: bool,
    lastAccepted: Option<Epoch>)

  function EmptyPayload(): StatePayload {
    StatePayload(None, None, None, None, None, false, None, None, false, None, None, {}, false, None)
  }

  function Encode(s: ParseState): StatePayload {
    StatePayload(Some(s.model), Some(s.source), s.previous, Some(s.session), s.parent,
                 s.forkWaiting, s.childSession, s.childMs, s.replaySeen, s.baseline, s.reportedTotal,
                 s.startedTurns, s.userFork, s.lastAccepted)
  }

  function SourceOrUnknown(value: Option<string>): string {
    if value.Some? && Strip(value.value) != "" then Cut(Strip(value.value), MAX_SOURCE_LENGTH) else "unknown"
  }

  function UsageFromPayload(value: Option<Usage>): Option<Usage> {
    if value.Some? && value.value.total > 0 then value else None
  }

  function PositiveOrNone(value: Option<int>): (r: Option<nat>) {
    if value.Some? && value.value > 0 then Some(value.value) else None
  }

  function Decode(p: StatePayload, id: Identity): ParseState {
    ParseState(ModelOrUnknown(p.model), SourceOrUnknown(p.source), UsageFromPayload(p.previous),
               p.session.GetOr(id.session), if p.parent.Some? then p.parent else id.parent,
               p.forkWaiting, p.childSession, PositiveOrNone(p.childMs), p.replaySeen,
               UsageFromPayload(p.baseline), PositiveOrNone(p.reportedTotal), p.startedTurns, p.userFork,
               PositiveOrNone(p.lastAccepted))
  }

  predicate Countable(u: Option<Usage>) {
    u.Some? ==> u.value.total > 0
  }

  predicate TextCodable(s: ParseState) {
    && ValidModel(s.model) && Trimmed(s.model)
    && s.source != "" && Trimmed(s.source) && |s.source| <= MAX_SOURCE_LENGTH
  }

  predicate CountersCodable(s: ParseState) {
    && Countable(s.previous) && Countable(s.baseline)
    && s.childMs != Some(0) && s.reportedTotal != Some(0)
    && (s.lastAccepted.Some? ==> s.lastAccepted.value > 0)
  }

  /** The states that survive storage. Each conjunct is a check on one field. */
  predicate Codable(s: ParseState, id: Identity) {
    && TextCodable(s) && CountersCodable(s)
    && (s.parent.None? ==> id.parent.None?)
  }

  /** Storing and reading back is the identity on exactly the codable states. */
  lemma RoundTrip(s: ParseState, id: Identity)
    ensures Decode(Encode(s), id) == s <==> Codable(s, id)
  {
    StripFixesTrimmed(s.model);
    StripFixesTrimmed(s.source);
  }

  lemma FreshIsCodable(id: Identity)
    ensures Codable(FreshState(id), id)
    ensures Decode(EmptyPayload(), id) == FreshState(id)
  {
    StripFixesTrimmed("unknown");
  }

  /** Normalising a stored entry on load: decoding with its own lineage and encoding again.
      An entry without a session is given the marker of a missing one. */
  function Reloaded(p: StatePayload): StatePayload {
    Encode(Decode(p, Identity(p.session.GetOr(MissingMarker), p.parent)))
  }

  lemma ReloadKeepsCodable(s: ParseState, id: Identity)
    requires Codable(s, id)
    ensures Reloaded(Encode(s)) == Encode(s)
  {
    RoundTrip(s, Identity(s.session, s.parent));
  }

  /** Records whose effect on the state the stored form can express. */
  predicate Clean(r: Record) {
    match r
    case SessionMeta(id, _, threadSource) =>
      (id.Some? ==> id.value.uuidMs != Some(0)) && Trimmed(RolloutSource(threadSource))
    case TurnContext(_, _, at) => at.Some? ==> at.value > 0
    case UserMessage(_, at) => at.Some? ==> at.value > 0
    case TokenCount(_, _, at) => at.Some? ==> at.value > 0
    case _ => true
  }

  /** Parsing clean records never leaves the codable states, so a checkpoint may be taken after any record. */
  lemma ConsumeKeepsCodable(s: ParseState, id: Identity, r: Record)
    requires Codable(s, id) && Clean(r)
    ensures Codable(Consume(s, r).0, id)
  {
    match r
    case SessionMeta(meta, forkedFrom, threadSource) =>
      StripFixesTrimmed("subagent");
    case TokenCount(rawTotal, rawLast, Some(at)) =>
      if !s.forkWaiting {
        TokensKeepText(s, UsageField(rawTotal), UsageField(rawLast), at);
        TokensKeepCodable(s, UsageField(rawTotal), UsageField(rawLast), at);
      }
    case _ =>
  }

  lemma TokensKeepCodable(s: ParseState, total: Option<Usage>, last: Option<Usage>, at: Epoch)
    requires CountersCodable(s) && Countable(total) && Countable(last) && at > 0
    ensures CountersCodable(ConsumeTokens(s, total, last, at).0)
  {
    if (total.Some? || last.Some?) && !IsInheritedBaseline(s, total) {
      ReadingIsCountable(s.previous, total, last);
      ReadingKeepsCodable(s.(baseline := None, reportedTotal := None), total, ReadCounters(s.previous, total, last),
                          at);
    }
  }

  lemma ReadingKeepsCodable(s: ParseState, total: Option<Usage>, reading: Reading, at: Epoch)
    requires CountersCodable(s) && at > 0
    requires (reading.Counted? ==> Countable(reading.next)) && (reading.Rebased? ==> reading.total.total > 0)
    ensures CountersCodable(ConsumeReading(s, total, reading, at).0)
  {
  }

  lemma TokensKeepText(s: ParseState, total: Option<Usage>, last: Option<Usage>, at: Epoch)
    ensures var s' := ConsumeTokens(s, total, last, at).0;
            s'.model == s.model && s'.source == s.source && s'.parent == s.parent
  {
  }

  lemma ReadingIsCountable(previous: Option<Usage>, total: Option<Usage>, last: Option<Usage>)
    requires Countable(previous) && Countable(total) && Countable(last)
    requires total.Some? || last.Some?
    ensures var r := ReadCounters(previous, total, last);
            (r.Counted? ==> Countable(r.next)) && (r.Rebased? ==> r.total.total > 0)
  {
  }

  /** Each clean-record condition is needed: a record that breaks it drives the fresh state of its file
      out of the codable states. */
  lemma UncleanRecordIsLost(id: Identity, r: Record)
    requires id.parent.None? && !Clean(r)
    requires r.SessionMeta? ==> (r.forkedFrom.Some? <==> (r.id.Some? && r.id.value.uuidMs == Some(0)))
    requires r.TokenCount? ==> UsageField(r.rawTotal).Some? || UsageField(r.rawLast).Some?
    requires r.UserMessage? ==> IsPrompt(r.message)
    ensures var s := Consume(FreshState(id), r).0; Decode(Encode(s), id) != s
  {
    RoundTrip(Consume(FreshState(id), r).0, id);
  }

  /** A thread source of 63 letters, a blank and one more letter is cut after the blank, and loses it on reload. */
  lemma CutSourceLosesItsBlank()
    ensures var source := seq(63, _ => 'a') + " b";
            RolloutSource(Some(source)) == seq(63, _ => 'a') + " "
            && SourceOrUnknown(Some(RolloutSource(Some(source)))) != RolloutSource(Some(source))
  {
    var source := seq(63, _ => 'a') + " b";
    assert source[0] == 'a' && source[64] == 'b';
    StripFixesTrimmed(source);
    assert source[..64] == seq(63, _ => 'a') + " ";
    assert IsBlank(source[..64][63]);
    StripFixesTrimmed(source[..64]);
  }
}
