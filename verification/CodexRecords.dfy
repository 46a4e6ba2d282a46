/** Rollout records, token counters and the parser state of one rollout file. */
module CodexRecords {
  import opened Prelude

  /** Record time as whole ticks since the Unix epoch. */
  type Epoch = int
  datatype Day = Day(number: int)

  /** An identifier as written in a record; `uuidMs` is the time field of a version-7 UUID, if it is one. */
  datatype Id = Id(text: string, uuidMs: Option<nat>)

  /** Irreversible markers; the hash is taken to be injective per namespace. */
  datatype Marker =
    | SessionMarker(id: Id)
    | TurnMarker(id: Id)
    | FileMarker(name: string)
    | MissingMarker

  datatype Usage = Usage(input: nat, cached: nat, cacheWrite: nat, output: nat, reasoning: nat, total: nat) {
    function Add(u: Usage): Usage {
      Usage(input + u.input, cached + u.cached, cacheWrite + u.cacheWrite,
            output + u.output, reasoning + u.reasoning, total + u.total)
    }

    /** Field-wise difference, clamped at zero. */
    function Minus(u: Usage): Usage {
      Usage(Max(0, input - u.input), Max(0, cached - u.cached), Max(0, cacheWrite - u.cacheWrite),
            Max(0, output - u.output), Max(0, reasoning - u.reasoning), Max(0, total - u.total))
    }

    function Magnitude(): nat {
      input + output + cached + reasoning
    }
  }

  function ZeroUsage(): Usage {
    Usage(0, 0, 0, 0, 0, 0)
  }

  /** A usage object as found in a record, after each number was clamped to a natural. */
  datatype RawUsage = RawUsage(input: nat, cached: nat, cacheRead: nat, cacheWrite: nat,
                               output: nat, reasoning: nat, total: nat)

  function UsageField(raw: Option<RawUsage>): (u: Option<Usage>)
    ensures u.Some? ==> u.value.total > 0
    ensures u.Some? <==> raw.Some? && raw.value.total + raw.value.input + raw.value.output > 0
    ensures u.Some? ==>
              && u.value.input == raw.value.input && u.value.output == raw.value.output
              && u.value.cacheWrite == raw.value.cacheWrite && u.value.reasoning == raw.value.reasoning
              && u.value.cached >= raw.value.cached && u.value.cached >= raw.value.cacheRead
              && u.value.cached in {raw.value.cached, raw.value.cacheRead}
              && (raw.value.total > 0 ==> u.value.total == raw.value.total)
              && (raw.value.total == 0 ==> u.value.total == raw.value.input + raw.value.output)
  {
    if raw.None? then None else
    var r := raw.value;
    var total := if r.total != 0 then r.total else r.input + r.output;
    if total == 0 then None
    else Some(Usage(r.input, Max(r.cached, r.cacheRead), r.cacheWrite, r.output, r.reasoning, total))
  }

  // The four fields that count as "the counter" of a cumulative snapshot.

  predicate SameCounter(a: Usage, b: Usage) {
    a.input == b.input && a.output == b.output && a.cached == b.cached && a.reasoning == b.reasoning
  }

  predicate CounterAtMost(a: Usage, b: Usage) {
    a.input <= b.input && a.output <= b.output && a.cached <= b.cached && a.reasoning <= b.reasoning
  }

  predicate CounterRegressed(current: Usage, previous: Usage) {
    !CounterAtMost(previous, current)
  }

  predicate LooksLikeStaleRegression(current: Usage, previous: Usage, last: Usage) {
    && current.Magnitude() > 0 && previous.Magnitude() > 0 && last.Magnitude() > 0
    && (|| current.Magnitude() * 100 >= previous.Magnitude() * 98
        || current.Magnitude() + last.Magnitude() * 2 >= previous.Magnitude())
  }

  /** One decoded line, reduced to the fields the accounting reads. */
  datatype Record =
    | SessionMeta(id: Option<Id>, forkedFrom: Option<Id>, threadSource: Option<string>)
    | TurnContext(turn: Option<Id>, rawModel: Option<string>, at: Option<Epoch>)
    | TaskStarted(turn: Option<Id>, startedAt: Option<int>)
    | UserMessage(message: Option<string>, at: Option<Epoch>)
    | TokenCount(rawTotal: Option<RawUsage>, rawLast: Option<RawUsage>, at: Option<Epoch>)
    | OtherRecord

  const MAX_MODEL_LENGTH := 128
  const MAX_SOURCE_LENGTH := 64

  predicate ValidModel(value: string) {
    Strip(value) != "" && |value| <= MAX_MODEL_LENGTH
  }

  function ModelOrUnknown(value: Option<string>): (m: string)
    ensures ValidModel(m) && Trimmed(m)
  {
    if value.Some? && ValidModel(value.value) then
      StripFixesTrimmed(Strip(value.value));
      Cut(Strip(value.value), MAX_MODEL_LENGTH)
    else
      StripFixesTrimmed("unknown");
      "unknown"
  }

  function RolloutSource(threadSource: Option<string>): (s: string)
    ensures s != "" && |s| <= MAX_SOURCE_LENGTH
  {
    if threadSource.Some? && Strip(threadSource.value) != "" then
      Cut(Strip(threadSource.value), MAX_SOURCE_LENGTH)
    else "user"
  }

  predicate IsPrompt(message: Option<string>) {
    message.Some? && Strip(message.value) != ""
    && (StripLeft(message.value) != "" ==> StripLeft(message.value)[0] != '<')
  }

  /** Lineage read from the head of a rollout file. */
  datatype Identity = Identity(session: Marker, parent: Option<Marker>)

  datatype ParseState = ParseState(
    model: string, source: string,
    previous: Option<Usage>,
    session: Marker, parent: Option<Marker>,
    forkWaiting: bool, childSession: Option<Marker>, childMs: Option<nat>,
    replaySeen: bool, baseline: Option<Usage>, reportedTotal: Option<nat>,
    startedTurns: set<Marker>, userFork: bool,
    lastAccepted: Option<Epoch>)

  function FreshState(id: Identity): ParseState {
    ParseState("unknown", "unknown", None, id.session, id.parent,
               false, None, None, false, None, None, {}, false, None)
  }
}
