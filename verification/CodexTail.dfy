/** Reading the unread tail of a rollout file under a byte budget. */
module CodexTail {
  import opened Prelude
  import opened Folding
  import opened CodexRecords
  import opened CodexParser
  import opened CodexCheckpoint
  import opened CodexLog
  import opened CodexReading

  lemma BoundaryIsEnded(content: Bytes, offset: nat, at: nat)
    requires offset <= at <= |content|
    ensures Boundary(content, offset, at) <==> Ended(content[offset..at])
  {
  }

  lemma NextLineIsLineEnd(content: Bytes, position: nat, next: nat)
    requires WholeLine(content, position, next)
    ensures LineEnd(content[position..next]) == next - position
    decreases next - position
  {
    if position + 1 < next {
      assert content[position] != NEWLINE;
      assert content[position..next][1..] == content[position + 1..next];
      NextLineIsLineEnd(content, position + 1, next);
    }
  }

  lemma ReplayGrows(env: Env, content: Bytes, offset: nat, done: nat, next: nat, s: ParseState)
    requires offset <= done < next <= |content|
    requires Ended(content[offset..done]) && LineEnd(content[done..next]) == next - done
    ensures var whole, before := Replay(env, content[offset..next], s), Replay(env, content[offset..done], s);
            var line := ReplayLine(env, content[done..next], before.0);
            whole.0 == line.0 && whole.1 == before.1 + line.1
  {
    assert content[offset..next] == content[offset..done] + content[done..next];
    ReplayConcat(env, content[offset..done], content[done..next], s);
    ReplayOneLine(env, content[done..next], Replay(env, content[offset..done], s).0);
  }

  /** One readline: up to `limit` bytes, at most to the end of the current line. */
  method ReadChunk(content: Bytes, position: nat, limit: nat) returns (next: nat, ended: bool)
    requires position <= |content| && limit > 0
    ensures next == ReadLine(content, position, limit) && IsRead(content, position, limit, next, ended)
  {
    ReadLineReads(content, position, limit);
    next := ReadLine(content, position, limit);
    ended := position < next && content[next - 1] == NEWLINE;
  }

  /** Skipping the rest of an oversized line, as far as the budget and the file allow. */
  method SkipOversized(content: Bytes, start: nat, from: nat, budget: int)
    returns (position: nat, remaining: int, finished: bool)
    requires start < from <= |content| && Plain(content, start, from) && budget >= -1
    ensures Skip(content, from, budget) == Turn(if finished then Whole else Headless, position, remaining)
    ensures from <= position <= |content| && remaining == budget - (position - from) && remaining >= -1
    ensures if finished then Plain(content, start, position - 1) && content[position - 1] == NEWLINE
            else Plain(content, start, position) && (remaining <= 0 || position == |content|)
  {
    position, remaining, finished := from, budget, false;
    while remaining > 0
      invariant from <= position <= |content| && remaining == budget - (position - from) && remaining >= -1
      invariant !finished && Skip(content, from, budget) == Skip(content, position, remaining)
      decreases remaining
    {
      var next, ended := ReadChunk(content, position, Min(MAX_LINE_BYTES + 1, remaining + 1));
      if next == position {
        break;
      }
      remaining, position := remaining - (next - position), next;
      if ended {
        finished := true;
        break;
      }
    }
    SkipGoesOn(content, start, from, budget);
  }

  /** Replaying some whole lines and settling what they emit, as one function value. */
  function InOneGo(env: Env): (Bytes, ParseState, set<DedupKey>) -> (ParseState, set<DedupKey>, seq<TokenEvent>) {
    (bs, s, keys) =>
      var (state, es) := Replay(env, bs, s);
      var (seen, events) := SettleAll(es, keys);
      (state, seen, events)
  }

  /** What a call that met no read error has done, for the bytes [offset, done) of whole lines. */
  ghost predicate Ingested(env: Env, content: Bytes, offset: nat, done: nat, s: ParseState, keys: set<DedupKey>,
                           s': ParseState, keys': set<DedupKey>, events: seq<TokenEvent>)
    requires offset <= done <= |content|
  {
    InOneGo(env)(content[offset..done], s, keys) == (s', keys', events)
  }

  lemma IngestedLine(env: Env, content: Bytes, offset: nat, done: nat, next: nat, s: ParseState, keys: set<DedupKey>,
                     s1: ParseState, keys1: set<DedupKey>, events: seq<TokenEvent>,
                     s2: ParseState, es: seq<Emission>, keys2: set<DedupKey>, more: seq<TokenEvent>)
    requires offset <= done < next <= |content|
    requires Ended(content[offset..done]) && LineEnd(content[done..next]) == next - done
    requires Ingested(env, content, offset, done, s, keys, s1, keys1, events)
    requires ReplayLine(env, content[done..next], s1) == (s2, es)
    requires SettleAll(es, keys1) == (keys2, more)
    ensures Ingested(env, content, offset, next, s, keys, s2, keys2, events + more)
  {
    ReplayGrows(env, content, offset, done, next, s);
    FoldConcat(SettleStep(), Replay(env, content[offset..done], s).1, es, keys);
  }

  lemma EndedGrows(content: Bytes, offset: nat, done: nat, next: nat)
    requires offset <= done && WholeLine(content, done, next)
    ensures Ended(content[offset..next])
    ensures LineEnd(content[done..next]) == next - done
  {
    BoundaryIsEnded(content, offset, next);
    NextLineIsLineEnd(content, done, next);
  }

  /** One parsed line: the record's effect on the parser, the keys and the events. */
  method ConsumeLine(env: Env, line: Bytes, parser: RolloutParser, seen: KeySet) returns (events: seq<TokenEvent>)
    modifies parser, seen
    ensures parser.state == ReplayLine(env, line, old(parser.state)).0
    ensures SettleAll(ReplayLine(env, line, old(parser.state)).1, old(seen.keys)) == (seen.keys, events)
  {
    events := [];
    if |line| > MAX_LINE_BYTES {
      return;
    }
    var record := env.decode(line);
    if record.None? {
      return;
    }
    ghost var s, keys := parser.state, seen.keys;
    var event := parser.ConsumeRecord(record.value, seen);
    if event.Some? {
      events := [event.value];
    }
    FoldOne(SettleStep(), Consume(s, record.value).1, keys);
  }

  /** The line at `start`, consumed by a call that has come so far. */
  method ConsumeNext(env: Env, content: Bytes, offset: nat, start: nat, next: nat,
                     parser: RolloutParser, seen: KeySet, ghost increments: seq<TokenEvent>,
                     ghost s: ParseState, ghost keys: set<DedupKey>)
    returns (events: seq<TokenEvent>)
    requires offset <= start && WholeLine(content, start, next) && Boundary(content, offset, start)
    requires Ingested(env, content, offset, start, s, keys, parser.state, seen.keys, increments)
    modifies parser, seen
    ensures Boundary(content, offset, next)
    ensures Ingested(env, content, offset, next, s, keys, parser.state, seen.keys, increments + events)
  {
    BoundaryIsEnded(content, offset, start);
    EndedGrows(content, offset, start, next);
    ghost var s1, keys1 := parser.state, seen.keys;
    events := ConsumeLine(env, content[start..next], parser, seen);
    IngestedLine(env, content, offset, start, next, s, keys, s1, keys1, increments,
                 parser.state, ReplayLine(env, content[start..next], s1).1, seen.keys, events);
  }

  /** One turn of the reading loop; a partial line is left where it starts. */
  method TakeLine(content: Bytes, position: nat, budget: int) returns (taken: Taken, next: nat, remaining: int)
    requires position <= |content| && budget > 0
    ensures Take(content, position, budget) == Turn(taken, next, remaining)
  {
    var ended;
    next, ended := ReadChunk(content, position, Min(MAX_LINE_BYTES + 1, budget + 1));
    if next == position {
      return Nothing, position, budget;
    }
    remaining := budget - (next - position);
    if ended {
      return Whole, next, remaining;
    }
    if next - position <= MAX_LINE_BYTES {
      return Partial, position, budget;
    }
    var finished;
    next, remaining, finished := SkipOversized(content, position, next, remaining);
    taken := if finished then Whole else Headless;
  }

  lemma TurnTaken(content: Bytes, position: nat, budget: int, t: Turn)
    requires position <= |content| && budget > 0 && Take(content, position, budget) == t
    ensures Means(content, position, budget, t)
    ensures var stop := Stopping(content);
            stop(position, budget) == if t.taken.Whole? then stop(t.next, t.remaining) else t.next
  {
    TakeMeans(content, position, budget);
    StopAfterTurn(content, position, budget);
  }

  /** The reading loop of one call. `fault` is the position at which reading raises an error, if it does; `done`
      is the end of the last whole line it went through. */
  method ReadTail(env: Env, content: Bytes, offset: nat, budget: nat, fault: Option<nat>,
                  parser: RolloutParser, seen: KeySet)
    returns (position: nat, remaining: int, increments: seq<TokenEvent>, exhausted: bool, failed: bool, ghost done: nat)
    requires offset <= |content|
    modifies parser, seen
    ensures Reached(content, offset, done, position)
    ensures Ingested(env, content, offset, done, old(parser.state), old(seen.keys), parser.state, seen.keys, increments)
    ensures !failed ==> position == Stopping(content)(offset, budget)
    ensures failed ==> fault.Some? && fault.value <= position
    ensures !failed ==> remaining == budget - (position - offset)
    ensures !failed ==> (exhausted <==> LongLine(content, offset, position) || (remaining > 0 && position < |content|))
    ensures fault.Some? && budget > 0 && fault.value <= offset ==> failed
    ensures fault.Some? && !failed && remaining > 0 ==> position < fault.value
  {
    ghost var s, keys := parser.state, seen.keys;
    position, remaining := offset, budget;
    increments, exhausted, failed, done := [], false, false, offset;
    assert content[offset..offset] == [];
    NoLongLineYet(content, offset);
    while remaining > 0
      invariant Reached(content, offset, done, position)
      invariant done < position ==> remaining <= 0 || position == |content|
      invariant remaining == budget - (position - offset)
      invariant exhausted <==> LongLine(content, offset, position)
      invariant position == offset || (fault.Some? ==> fault.value > offset)
      invariant Stopping(content)(offset, budget) == Stopping(content)(position, remaining)
      invariant Ingested(env, content, offset, done, s, keys, parser.state, seen.keys, increments)
      decreases remaining
    {
      if fault.Some? && position >= fault.value {
        return position, remaining, increments, exhausted, true, done;
      }
      var taken, next, left := TakeLine(content, position, remaining);
      TurnTaken(content, position, remaining, Turn(taken, next, left));
      match taken {
        case Nothing =>
          return;
        case Partial =>
          exhausted := true;
          return;
        case Headless =>
          LongLineFound(content, offset, done, next);
          exhausted, position, remaining := true, next, left;
          StopAtEnd(content, position, remaining);
        case Whole =>
          exhausted := exhausted || next - position > MAX_LINE_BYTES;
          assert position == done;
          LongLineGrows(content, offset, position, next);
          var events := ConsumeNext(env, content, offset, position, next, parser, seen, increments, s, keys);
          increments := increments + events;
          position, remaining, done := next, left, next;
      }
    }
    StopAtEnd(content, position, remaining);
  }

  /** One call on one file; `sizeAfter` is the size seen when the call ends. */
  method IngestTail(env: Env, content: Bytes, sizeAfter: nat, offset: nat, budget: nat, fault: Option<nat>,
                    stored: StatePayload, id: Identity, seen: KeySet)
    returns (consumed: nat, entry: StatePayload, increments: seq<TokenEvent>, exhausted: bool,
             ghost done: nat, ghost failed: bool)
    requires offset <= |content| <= sizeAfter
    modifies seen
    ensures failed ==> fault.Some?
    ensures offset <= done <= |content| && Ended(content[offset..done])
    ensures !failed ==> consumed == Stop(content, offset, budget)
    ensures seen.keys == SettleAll(Replay(env, content[offset..done], Decode(stored, id)).1, old(seen.keys)).0
    ensures failed ==> consumed == offset && entry == Reloaded(stored) && increments == [] && exhausted
    ensures !failed ==> Reached(content, offset, done, consumed) && consumed <= offset + budget + 1
    ensures !failed ==> entry == Encode(Replay(env, content[offset..done], Decode(stored, id)).0)
    ensures !failed ==>
              increments == SettleAll(Replay(env, content[offset..done], Decode(stored, id)).1, old(seen.keys)).1
    ensures !failed ==> (exhausted <==> LeavesOff(content, sizeAfter, offset, budget, consumed))
    ensures fault.Some? ==> (failed ==> fault.value <= |content|) && (budget > 0 && fault.value <= offset ==> failed)
    // every line that ends within the budget was taken
    ensures !failed ==> forall i | consumed <= i < |content| && i < offset + budget :: content[i] != NEWLINE
  {
    var parser := new RolloutParser(Decode(stored, id));
    var position, remaining, error;
    position, remaining, increments, exhausted, error, done :=
      ReadTail(env, content, offset, budget, fault, parser, seen);
    BoundaryIsEnded(content, offset, done);
    StopUsesBudget(content, offset, budget);
    failed := error;
    if error {
      return offset, Reloaded(stored), [], true, done, true;
    }
    consumed, entry := position, Encode(parser.state);
    exhausted := exhausted || (remaining <= 0 && sizeAfter > position);
  }
}
