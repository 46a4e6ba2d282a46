/** Where the reading loop of a rollout file stops, and for which bytes that is always a record boundary. */
module CodexReading {
  import opened Prelude
  import opened CodexLog

  /** No newline at these positions. */
  predicate Plain(content: Bytes, from: nat, to: nat)
    requires to <= |content|
  {
    forall i | from <= i < to :: content[i] != NEWLINE
  }

  /** A whole number of lines lies between the two positions. */
  predicate Boundary(content: Bytes, offset: nat, at: nat)
    requires offset <= at <= |content|
  {
    at == offset || content[at - 1] == NEWLINE
  }

  /** The end of the line at a position. */
  function NextLine(content: Bytes, position: nat): (end: nat)
    requires position <= |content|
    ensures position <= end <= |content| && (end == position <==> position == |content|)
    ensures forall i | position <= i < end - 1 :: content[i] != NEWLINE
    ensures end < |content| ==> content[end - 1] == NEWLINE
    decreases |content| - position
  {
    if position == |content| then position
    else if content[position] == NEWLINE then position + 1
    else NextLine(content, position + 1)
  }

  /** Where handle.readline(limit) ends. */
  function ReadLine(content: Bytes, position: nat, limit: nat): (next: nat)
    requires position <= |content|
  {
    Min(position + limit, NextLine(content, position))
  }

  /** A readline ends at the first newline, the limit or the end of the file, whichever comes first. */
  predicate IsRead(content: Bytes, position: nat, limit: nat, next: nat, ended: bool) {
    && position <= next <= |content| && next - position <= limit && (next == position <==> position == |content|)
    && if ended then position < next && Plain(content, position, next - 1) && content[next - 1] == NEWLINE
       else Plain(content, position, next) && (next == |content| || next - position == limit)
  }

  lemma ReadLineReads(content: Bytes, position: nat, limit: nat)
    requires position <= |content| && limit > 0
    ensures var next := ReadLine(content, position, limit);
            IsRead(content, position, limit, next, position < next && content[next - 1] == NEWLINE)
  {
  }

  // ---- Turns of the reading loop ----

  /** What one turn finds: the end of the file, an unfinished line that is left for later, the head of an
      oversized line, or a whole line. */
  datatype Taken = Nothing | Partial | Headless | Whole

  /** A turn with the position and the budget it leaves. */
  datatype Turn = Turn(taken: Taken, next: nat, remaining: int)

  /** Skipping reads from inside an oversized line, until its end, the end of the file or of the budget. */
  function Skip(content: Bytes, position: nat, budget: int): (t: Turn)
    requires position <= |content|
    decreases |content| - position
  {
    if budget <= 0 || position == |content| then Turn(Headless, position, budget) else
    var next := ReadLine(content, position, Min(MAX_LINE_BYTES + 1, budget + 1));
    if content[next - 1] == NEWLINE then Turn(Whole, next, budget - (next - position))
    else Skip(content, next, budget - (next - position))
  }

  function Take(content: Bytes, position: nat, budget: int): (t: Turn)
    requires position <= |content| && budget > 0
  {
    if position == |content| then Turn(Nothing, position, budget) else
    var next := ReadLine(content, position, Min(MAX_LINE_BYTES + 1, budget + 1));
    if content[next - 1] == NEWLINE then Turn(Whole, next, budget - (next - position))
    else if next - position <= MAX_LINE_BYTES then Turn(Partial, position, budget)
    else Skip(content, next, budget - (next - position))
  }

  lemma {:induction false} SkipGoesOn(content: Bytes, start: nat, position: nat, budget: int)
    requires start < position <= |content| && Plain(content, start, position) && budget >= -1
    ensures var t := Skip(content, position, budget);
            && position <= t.next <= |content| && t.remaining == budget - (t.next - position) && t.remaining >= -1
            && if t.taken.Whole? then Plain(content, start, t.next - 1) && content[t.next - 1] == NEWLINE
               else t.taken.Headless? && Plain(content, start, t.next) && (t.remaining <= 0 || t.next == |content|)
    decreases |content| - position
  {
    if budget > 0 && position < |content| {
      var limit := Min(MAX_LINE_BYTES + 1, budget + 1);
      ReadLineReads(content, position, limit);
      var next := ReadLine(content, position, limit);
      if content[next - 1] != NEWLINE {
        SkipGoesOn(content, start, next, budget - (next - position));
      }
    }
  }

  predicate WholeLine(content: Bytes, position: nat, next: nat) {
    position < next <= |content| && Plain(content, position, next - 1) && content[next - 1] == NEWLINE
  }

  /** What a turn of each kind means for the bytes. */
  predicate Means(content: Bytes, position: nat, budget: int, t: Turn) {
    && position <= t.next <= |content| && t.remaining == budget - (t.next - position) && t.remaining >= -1
    && match t.taken
       case Nothing => t.next == position == |content|
       case Partial => t.next == position && Plain(content, position, Min(|content|, position + budget + 1))
       case Headless => t.next - position > MAX_LINE_BYTES && Plain(content, position, t.next)
                        && (t.remaining <= 0 || t.next == |content|)
       case Whole => WholeLine(content, position, t.next)
  }

  lemma TakeMeans(content: Bytes, position: nat, budget: int)
    requires position <= |content| && budget > 0
    ensures Means(content, position, budget, Take(content, position, budget))
  {
    if position < |content| {
      var limit := Min(MAX_LINE_BYTES + 1, budget + 1);
      ReadLineReads(content, position, limit);
      var next := ReadLine(content, position, limit);
      if content[next - 1] != NEWLINE && next - position > MAX_LINE_BYTES {
        SkipGoesOn(content, position, next, budget - (next - position));
      }
    }
  }

  /** Where the loop stops when no read fails. */
  function Stop(content: Bytes, position: nat, budget: int): (end: nat)
    requires position <= |content|
    decreases |content| - position
  {
    if budget <= 0 then position else
    TakeMeans(content, position, budget);
    var t := Take(content, position, budget);
    if t.taken.Whole? then Stop(content, t.next, t.remaining) else t.next
  }

  /** A call consumes at most one byte over its budget and takes every line that ends within it. */
  lemma {:induction false} StopUsesBudget(content: Bytes, position: nat, budget: int)
    requires position <= |content| && budget >= -1
    ensures var end := Stop(content, position, budget);
            && position <= end <= Max(position, position + budget + 1) && end <= |content|
            && Plain(content, end, Max(end, Min(|content|, position + budget)))
    decreases |content| - position
  {
    if budget > 0 {
      TakeMeans(content, position, budget);
      var t := Take(content, position, budget);
      if t.taken.Whole? {
        StopUsesBudget(content, t.next, t.remaining);
      }
    }
  }

  /** The same as a function value, which only the next lemma unfolds. */
  function Stopping(content: Bytes): (nat, int) -> nat {
    (position: nat, budget: int) => if position <= |content| then Stop(content, position, budget) else 0
  }

  lemma StopAfterTurn(content: Bytes, position: nat, budget: int)
    requires position <= |content| && budget > 0
    ensures var t := Take(content, position, budget);
            var stop := Stopping(content);
            stop(position, budget) == if t.taken.Whole? then stop(t.next, t.remaining) else t.next
  {
    TakeMeans(content, position, budget);
  }

  lemma StopAtEnd(content: Bytes, position: nat, budget: int)
    requires position <= |content| && (budget <= 0 || position == |content|)
    ensures Stopping(content)(position, budget) == position
  {
  }

  /** How far a call got: `done` is the end of the last whole line, and past it only the head of an
      oversized line may have been consumed. */
  predicate Reached(content: Bytes, offset: nat, done: nat, position: nat) {
    && offset <= done <= position <= |content| && Boundary(content, offset, done)
    && (done < position ==> position - done > MAX_LINE_BYTES && Plain(content, done, position))
  }

  lemma {:induction false} StopReaches(content: Bytes, offset: nat, position: nat, budget: int) returns (done: nat)
    requires offset <= position <= |content| && Boundary(content, offset, position)
    ensures Reached(content, offset, done, Stop(content, position, budget))
    decreases |content| - position
  {
    done := position;
    if budget > 0 {
      TakeMeans(content, position, budget);
      var t := Take(content, position, budget);
      if t.taken.Whole? {
        done := StopReaches(content, offset, t.next, t.remaining);
      }
    }
  }

  // ---- When every budget ends on a record boundary ----

  /** More than MAX_LINE_BYTES bytes after a record boundary without a newline. */
  predicate Stretch(content: Bytes, offset: nat, at: nat) {
    offset <= at && at + MAX_LINE_BYTES < |content|
    && Boundary(content, offset, at) && Plain(content, at, at + MAX_LINE_BYTES + 1)
  }

  predicate Readable(content: Bytes, offset: nat) {
    forall at | offset <= at < |content| :: !Stretch(content, offset, at)
  }

  lemma ReadableIsWhole(content: Bytes, offset: nat, done: nat, position: nat)
    requires Reached(content, offset, done, position) && Readable(content, offset)
    ensures done == position
  {
    assert !Stretch(content, offset, done);
  }

  /** The budget that reaches the first stretch with MAX_LINE_BYTES to spare stops inside it. */
  lemma {:induction false} StopsInStretch(content: Bytes, offset: nat, position: nat, at: nat)
    requires Stretch(content, offset, at) && offset <= position <= at && Boundary(content, offset, position)
    requires forall b | offset <= b < at :: !Stretch(content, offset, b)
    ensures Stop(content, position, at - position + MAX_LINE_BYTES) == at + MAX_LINE_BYTES + 1
    decreases at - position
  {
    var budget := at - position + MAX_LINE_BYTES;
    ReadLineReads(content, position, MAX_LINE_BYTES + 1);
    var next := ReadLine(content, position, MAX_LINE_BYTES + 1);
    if position < at {
      assert !Stretch(content, offset, position);
      assert content[at - 1] == NEWLINE;
      StopsInStretch(content, offset, next, at);
    }
  }

  /** Every budget leaves the offset on a record boundary if and only if no stretch of more than MAX_LINE_BYTES
      bytes after a record boundary lacks a newline. */
  lemma EveryBudgetStopsOnBoundaryIff(content: Bytes, offset: nat)
    requires offset <= |content|
    ensures (forall budget: nat :: StopsOnBoundary(content, offset, budget)) <==> Readable(content, offset)
  {
    if Readable(content, offset) {
      forall budget: nat ensures StopsOnBoundary(content, offset, budget) {
        var done := StopReaches(content, offset, offset, budget);
        ReadableIsWhole(content, offset, done, Stop(content, offset, budget));
      }
    } else {
      var some :| offset <= some < |content| && Stretch(content, offset, some);
      var at := FirstStretch(content, offset, some);
      StopsInStretch(content, offset, offset, at);
      assert !StopsOnBoundary(content, offset, at - offset + MAX_LINE_BYTES);
    }
  }

  predicate StopsOnBoundary(content: Bytes, offset: nat, budget: nat)
    requires offset <= |content|
  {
    var end := Stop(content, offset, budget);
    offset <= end <= |content| && Boundary(content, offset, end)
  }

  lemma {:induction false} FirstStretch(content: Bytes, offset: nat, some: nat) returns (at: nat)
    requires Stretch(content, offset, some)
    ensures Stretch(content, offset, at) && forall b | offset <= b < at :: !Stretch(content, offset, b)
    decreases some
  {
    if b :| offset <= b < some && Stretch(content, offset, b) {
      at := FirstStretch(content, offset, b);
    } else {
      at := some;
    }
  }

  // ---- What a call leaves unread, and why ----

  /** A line of more than 524288 bytes, its newline included, begins before the position is reached. */
  ghost predicate LongLine(content: Bytes, offset: nat, end: nat) {
    exists at: nat :: LongAt(content, offset, end, at)
  }

  predicate LongAt(content: Bytes, offset: nat, end: nat, at: nat) {
    && offset <= at && at + 524288 + 1 <= end <= |content|
    && Boundary(content, offset, at) && Plain(content, at, at + 524288)
  }

  lemma NoLongLineYet(content: Bytes, offset: nat)
    ensures !LongLine(content, offset, offset)
  {
  }

  lemma LongLineFound(content: Bytes, offset: nat, done: nat, next: nat)
    requires offset <= done <= next <= |content| && Boundary(content, offset, done)
    requires next - done > MAX_LINE_BYTES && Plain(content, done, next)
    ensures LongLine(content, offset, next)
  {
    assert LongAt(content, offset, next, done);
  }

  lemma LongLineGrows(content: Bytes, offset: nat, done: nat, next: nat)
    requires WholeLine(content, done, next) && offset <= done && Boundary(content, offset, done)
    ensures LongLine(content, offset, next) <==> LongLine(content, offset, done) || next - done > MAX_LINE_BYTES
  {
    if LongLine(content, offset, done) {
      var at: nat :| LongAt(content, offset, done, at);
      assert LongAt(content, offset, next, at);
    }
    if next - done > MAX_LINE_BYTES {
      assert LongAt(content, offset, next, done);
    }
    if LongLine(content, offset, next) {
      var at: nat :| LongAt(content, offset, next, at);
      if at < done {
        assert content[done - 1] == NEWLINE;
        assert LongAt(content, offset, done, at);
      }
    }
  }

  lemma LongLineStays(content: Bytes, offset: nat, end: nat)
    ensures LongLine(content, offset, end) ==> LongLine(content, offset, |content|)
  {
    if LongLine(content, offset, end) {
      var at: nat :| LongAt(content, offset, end, at);
      assert LongAt(content, offset, |content|, at);
    }
  }

  /** A call is told to come back exactly if it met a long line, an unfinished line, or the end of its budget before
      the end of the file. */
  ghost predicate LeavesOff(content: Bytes, sizeAfter: nat, offset: nat, budget: nat, end: nat) {
    || LongLine(content, offset, end)
    || (if end < offset + budget then end < |content| else end < sizeAfter)
  }

  /** Every line is complete and fits. */
  ghost predicate Fits(content: Bytes, offset: nat) {
    Ended(content) && !LongLine(content, offset, |content|)
  }

  /** A budget for all of the unread bytes reads all of them. */
  lemma {:induction false} BudgetReadsAll(content: Bytes, offset: nat, position: nat, budget: int)
    requires offset <= position <= |content| && Boundary(content, offset, position)
    requires Fits(content, offset) && budget >= |content| - position
    ensures Stop(content, position, budget) == |content|
    decreases |content| - position
  {
    if position < |content| {
      var next := NextLine(content, position);
      assert content[next - 1] == NEWLINE;
      LongLineGrows(content, offset, position, next);
      LongLineStays(content, offset, next);
      assert Take(content, position, budget) == Turn(Whole, next, budget - (next - position));
      BudgetReadsAll(content, offset, next, budget - (next - position));
    }
  }
}
