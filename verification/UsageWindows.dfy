/** Provider windows: the rows of the current day and the totals shown for a window. */
module UsageWindows {
  import opened Prelude
  import opened UsageSeries

  const DAILY: int := 86400

  datatype Target = Target(tokens: nat, startedEpoch: Option<int>, models: Models)

  // ---- Rows and their totals ----

  function TotalOf(rows: seq<Row>): nat {
    if rows == [] then 0 else TotalOf(rows[..|rows| - 1]) + rows[|rows| - 1].total
  }

  lemma {:induction false} TotalConcat(a: seq<Row>, b: seq<Row>)
    ensures TotalOf(a + b) == TotalOf(a) + TotalOf(b)
  {
    if b == [] {
      assert a + b == a;
    } else {
      assert (a + b)[..|a + b| - 1] == a + b[..|b| - 1];
      TotalConcat(a, b[..|b| - 1]);
    }
  }

  lemma TotalOne(r: Row)
    ensures TotalOf([r]) == r.total
  {
    assert [r][..0] == [];
  }

  lemma TotalPut(rows: seq<Row>, i: nat, r: Row)
    requires i < |rows|
    ensures TotalOf(rows[i := r]) + rows[i].total == TotalOf(rows) + r.total
  {
    assert rows == rows[..i] + [rows[i]] + rows[i + 1..];
    assert rows[i := r] == rows[..i] + [r] + rows[i + 1..];
    TotalConcat(rows[..i] + [rows[i]], rows[i + 1..]);
    TotalConcat(rows[..i], [rows[i]]);
    TotalConcat(rows[..i] + [r], rows[i + 1..]);
    TotalConcat(rows[..i], [r]);
    TotalOne(r);
    TotalOne(rows[i]);
  }

  ghost predicate AllBalanced(rows: seq<Row>) {
    forall i :: 0 <= i < |rows| ==> Balanced(rows[i])
  }

  // ---- One source's day ----

  /** A candidate is taken whole or dropped; it is dropped when empty or larger than what is missing. */
  function Accepted(candidates: seq<Row>, target: nat): (rows: seq<Row>)
    ensures TotalOf(rows) <= target
    ensures forall r :: r in rows ==> r in candidates
  {
    if candidates == [] then []
    else
      var rows, r := Accepted(candidates[..|candidates| - 1], target), candidates[|candidates| - 1];
      if r.total == 0 || r.total > target - TotalOf(rows) then rows
      else
        assert (rows + [r])[..|rows|] == rows;
        rows + [r]
  }

  /** The row at the anchor, or a new one behind the others. */
  function IndexOf(rows: seq<Row>, epoch: int): (i: nat)
    ensures i <= |rows|
    ensures i < |rows| ==> rows[i].epoch == epoch
    ensures forall k :: 0 <= k < i ==> rows[k].epoch != epoch
  {
    if rows == [] || rows[0].epoch == epoch then 0 else 1 + IndexOf(rows[1..], epoch)
  }

  /** The rows with an unattributed tail: on the row of the anchor, estimated from then on, or on a new one. */
  function WithTail(rows: seq<Row>, tail: nat, anchor: int, source: string): seq<Row> {
    if tail == 0 then rows else
    var i := IndexOf(rows, anchor);
    if i == |rows| then rows + [Row(anchor, source, tail, map[UNATTRIBUTED := tail], true)]
    else
      rows[i := Row(anchor, rows[i].source, rows[i].total + tail,
                    rows[i].models[UNATTRIBUTED := Held(rows[i].models, UNATTRIBUTED) + tail], true)]
  }

  /** What is still missing goes to the anchor row, to the remaining models first and then unattributed. */
  method AddResidual(rows: seq<Row>, tokens: nat, accepted: nat, remaining: Option<Models>, anchor: int, source: string)
    returns (after: seq<Row>)
    requires accepted <= tokens
    ensures AllBalanced(rows) ==> AllBalanced(after)
    ensures TotalOf(after) == TotalOf(rows) + tokens - accepted
    ensures var i := IndexOf(rows, anchor);
            if accepted == tokens then after == rows
            else |after| == Max(|rows|, i + 1)
                 && (forall k :: 0 <= k < |rows| && k != i ==> after[k] == rows[k])
                 && after[i].epoch == anchor && after[i].estimated
                 && after[i].total == (if i < |rows| then rows[i].total else 0) + tokens - accepted
                 && after[i].source == (if i < |rows| then rows[i].source else source)
    ensures remaining.None? ==> after == WithTail(rows, tokens - accepted, anchor, source)
  {
    if accepted == tokens {
      return rows;
    }
    var i := IndexOf(rows, anchor);
    var row0 := if i < |rows| then rows[i] else Row(anchor, source, 0, map[], true);
    EmptyRowIsBalanced();
    var row := Filled(row0, tokens - accepted, remaining);
    PutAtAnchor(rows, i, row);
    after := Put(rows, i, row);
  }

  /** The row in place of row `i`, or behind the others. */
  function Put(rows: seq<Row>, i: nat, row: Row): (r: seq<Row>)
    requires i <= |rows|
    ensures |r| == Max(|rows|, i + 1) && r[i] == row && forall k :: 0 <= k < |rows| && k != i ==> r[k] == rows[k]
  {
    if i < |rows| then rows[i := row] else rows + [row]
  }

  lemma PutAtAnchor(rows: seq<Row>, i: nat, row: Row)
    requires i <= |rows|
    ensures TotalOf(Put(rows, i, row)) + (if i < |rows| then rows[i].total else 0) == TotalOf(rows) + row.total
    ensures AllBalanced(rows) && Balanced(row) ==> AllBalanced(Put(rows, i, row))
  {
    if i < |rows| {
      TotalPut(rows, i, row);
    } else {
      TotalConcat(rows, [row]);
      TotalOne(row);
    }
  }

  method Filled(row0: Row, residual: nat, remaining: Option<Models>) returns (row: Row)
    ensures Balanced(row0) ==> Balanced(row)
    ensures row.epoch == row0.epoch && row.source == row0.source && row.estimated && row.total == row0.total + residual
    ensures remaining.None? ==>
              row.models == if residual > 0 then Bump(row0.models, UNATTRIBUTED, residual) else row0.models
  {
    row := row0.(total := row0.total + residual, estimated := true);
    var left := residual;
    if remaining.Some? {
      var rest := remaining.value;
      while rest != map[] && left > 0
        invariant row == row0.(total := row0.total + residual, estimated := true, models := row.models)
        invariant left >= 0 && Sum(row.models) + left == Sum(row0.models) + residual
        decreases |rest|
      {
        var k :| k in rest;
        var given := Min(left, rest[k]);
        if given > 0 {
          SumBump(row.models, k, given);
          row := row.(models := Bump(row.models, k, given));
          left := left - given;
        }
        rest := rest - {k};
      }
    }
    if left > 0 {
      SumBump(row.models, UNATTRIBUTED, left);
      row := row.(models := Bump(row.models, UNATTRIBUTED, left));
    }
  }

  lemma EmptyRowIsBalanced()
    ensures Sum<string>(map[]) == 0
  {
  }

  /** The bucket the unpersisted tail is shown in. */
  function Anchor(target: Target, since: int, bucket: int): int
    requires bucket > 0
  {
    target.startedEpoch.GetOr(since) / bucket * bucket
  }

  /** The anchor is the bucket that the declared day started in, or, without a start, the one the window starts in. */
  lemma AnchorHoldsTheStart(target: Target, since: int, bucket: int)
    requires bucket > 0
    ensures var start := if target.startedEpoch.Some? then target.startedEpoch.value else since;
            var anchor := Anchor(target, since, bucket);
            anchor <= start < anchor + bucket && anchor % bucket == 0
  {
    var start := target.startedEpoch.GetOr(since);
    assert start == start / bucket * bucket + start % bucket;
    MultipleLeavesNothing(start / bucket, bucket);
  }

  lemma MultipleLeavesNothing(n: int, d: int)
    requires d > 0
    ensures n * d % d == 0
  {
    var m := n * d;
    var q, r := m / d, m % d;
    assert m == q * d + r;
    assert (n - q) * d == n * d - q * d == r;
    MultipleIsLarge(n - q, d);
  }

  lemma MultipleIsLarge(k: int, d: int)
    requires d > 0
    ensures (k >= 1 ==> k * d >= d) && (k <= -1 ==> k * d <= -d) && (k == 0 ==> k * d == 0)
  {
    if k >= 1 {
      assert (k - 1) * d >= 0 && (k - 1) * d == k * d - d;
    } else if k <= -1 {
      assert (-k - 1) * d >= 0 && (-k - 1) * d == -(k * d) - d;
    }
  }

  /** For a declared day the rows add up to the declaration exactly, each still balanced. */
  method ResolveDay(candidates: seq<Row>, target: Target, since: int, bucket: int, source: string)
    returns (rows: seq<Row>)
    requires bucket > 0
    ensures TotalOf(rows) == target.tokens
    ensures AllBalanced(candidates) ==> AllBalanced(rows)
    ensures var accepted, anchor := Accepted(candidates, target.tokens), Anchor(target, since, bucket);
            |rows| >= |accepted|
            && (forall k :: 0 <= k < |accepted| && accepted[k].epoch != anchor ==> rows[k] == accepted[k])
    ensures (forall r :: r in candidates ==> r.source == source) ==> forall r :: r in rows ==> r.source == source
    ensures rows == AcceptedWithTail(candidates, target.tokens, Anchor(target, since, bucket), source)
  {
    var accepted, total := Accept(candidates, target.tokens);
    forall k | 0 <= k < |accepted|
      ensures AllBalanced(candidates) ==> Balanced(accepted[k])
    {
      assert accepted[k] in candidates;
    }
    rows := AddResidual(accepted, target.tokens, total, None, Anchor(target, since, bucket), source);
  }

  method Accept(candidates: seq<Row>, target: nat) returns (accepted: seq<Row>, total: nat)
    ensures accepted == Accepted(candidates, target) && total == TotalOf(accepted)
  {
    accepted, total := [], 0;
    var i := 0;
    while i < |candidates|
      invariant 0 <= i <= |candidates|
      invariant accepted == Accepted(candidates[..i], target) && total == TotalOf(accepted)
    {
      var row := candidates[i];
      assert candidates[..i + 1][..i] == candidates[..i];
      if row.total != 0 && row.total <= target - total {
        assert (accepted + [row])[..|accepted|] == accepted;
        accepted, total := accepted + [row], total + row.total;
      }
      i := i + 1;
    }
    assert candidates[..i] == candidates;
  }

  /** No accepted prefix exceeds the declaration, and a non-empty row is only dropped when it would. */
  lemma {:induction false} GreedyAcceptance(candidates: seq<Row>, target: nat, n: nat)
    requires n < |candidates|
    ensures var before, r := Accepted(candidates[..n], target), candidates[n];
            var after := Accepted(candidates[..n + 1], target);
            && TotalOf(before) <= TotalOf(after) <= target
            && (after == before <==> r.total == 0 || TotalOf(before) + r.total > target)
            && (after != before ==> after == before + [r])
  {
    assert candidates[..n + 1][..n] == candidates[..n];
    var before, r := Accepted(candidates[..n], target), candidates[n];
    assert (before + [r])[..|before|] == before;
    assert |before + [r]| == |before| + 1;
  }

  // ---- All sources ----

  function SortedByEpoch(rows: seq<Row>): (sorted: seq<Row>)
    ensures forall r :: r in sorted <==> r in rows
  {
    if rows == [] then [] else Inserted(SortedByEpoch(rows[..|rows| - 1]), rows[|rows| - 1])
  }

  /** Behind the rows of the same epoch, so that the order of equals stays. */
  function Inserted(rows: seq<Row>, r: Row): (more: seq<Row>)
    ensures forall x :: x in more <==> x == r || x in rows
  {
    if rows == [] || rows[|rows| - 1].epoch <= r.epoch then rows + [r]
    else
      assert rows == rows[..|rows| - 1] + [rows[|rows| - 1]];
      Inserted(rows[..|rows| - 1], r) + [rows[|rows| - 1]]
  }

  predicate InOrder(rows: seq<Row>) {
    forall i, k :: 0 <= i < k < |rows| ==> rows[i].epoch <= rows[k].epoch
  }

  lemma AppendInOrder(rows: seq<Row>, last: Row)
    requires InOrder(rows) && forall x :: x in rows ==> x.epoch <= last.epoch
    ensures InOrder(rows + [last])
  {
  }

  lemma {:induction false} InsertedInOrder(rows: seq<Row>, r: Row)
    requires InOrder(rows)
    ensures InOrder(Inserted(rows, r))
  {
    if rows == [] || rows[|rows| - 1].epoch <= r.epoch {
      AppendInOrder(rows, r);
    } else {
      var less, last := rows[..|rows| - 1], rows[|rows| - 1];
      InsertedInOrder(less, r);
      AppendInOrder(Inserted(less, r), last);
    }
  }

  lemma {:induction false} InsertedBag(rows: seq<Row>, r: Row)
    ensures multiset(Inserted(rows, r)) == multiset(rows) + multiset{r}
  {
    if rows != [] && rows[|rows| - 1].epoch > r.epoch {
      var less := rows[..|rows| - 1];
      InsertedBag(less, r);
      assert rows == less + [rows[|rows| - 1]];
    }
  }

  /** Sorting rearranges the rows by epoch. */
  lemma {:induction false} SortedIsInOrder(rows: seq<Row>)
    ensures InOrder(SortedByEpoch(rows)) && multiset(SortedByEpoch(rows)) == multiset(rows)
  {
    if rows != [] {
      SortedIsInOrder(rows[..|rows| - 1]);
      InsertedInOrder(SortedByEpoch(rows[..|rows| - 1]), rows[|rows| - 1]);
      InsertedBag(SortedByEpoch(rows[..|rows| - 1]), rows[|rows| - 1]);
      assert rows == rows[..|rows| - 1] + [rows[|rows| - 1]];
    }
  }

  function Selected(rows: seq<Row>, keep: Row -> bool): (kept: seq<Row>)
    ensures forall r :: r in kept <==> r in rows && keep(r)
  {
    if rows == [] then []
    else Selected(rows[..|rows| - 1], keep) + if keep(rows[|rows| - 1]) then [rows[|rows| - 1]] else []
  }

  function OfSource(source: string): Row -> bool {
    (r: Row) => r.source == source
  }

  /** What the rows hold for one source. */
  function Shown(rows: seq<Row>, source: string): nat {
    TotalOf(Selected(rows, OfSource(source)))
  }

  lemma {:induction false} SelectedConcat(a: seq<Row>, b: seq<Row>, keep: Row -> bool)
    ensures Selected(a + b, keep) == Selected(a, keep) + Selected(b, keep)
  {
    if b == [] {
      assert a + b == a;
    } else {
      assert (a + b)[..|a + b| - 1] == a + b[..|b| - 1];
      SelectedConcat(a, b[..|b| - 1], keep);
    }
  }

  lemma {:induction false} SelectedAll(rows: seq<Row>, keep: Row -> bool)
    ensures (forall r :: r in rows ==> keep(r)) ==> Selected(rows, keep) == rows
    ensures (forall r :: r in rows ==> !keep(r)) ==> Selected(rows, keep) == []
  {
    if rows != [] {
      SelectedAll(rows[..|rows| - 1], keep);
      assert rows == rows[..|rows| - 1] + [rows[|rows| - 1]];
    }
  }

  lemma ShownAfter(rows: seq<Row>, more: seq<Row>, owner: string, source: string)
    requires forall r :: r in more ==> r.source == owner
    ensures Shown(rows + more, source) == Shown(rows, source) + if source == owner then TotalOf(more) else 0
  {
    SelectedConcat(rows, more, OfSource(source));
    SelectedAll(more, OfSource(source));
    TotalConcat(Selected(rows, OfSource(source)), Selected(more, OfSource(source)));
  }

  datatype Request = Request(since: int, bucket: int, dayStart: int, hourly: set<string>)

  /** A row of the source today: unless its rows come by the hour or it names no start, from its start on. */
  predicate CountsToday(r: Row, source: string, target: Target, q: Request) {
    && r.source == source && r.epoch >= q.dayStart
    && (source in q.hourly || target.startedEpoch in {None, Some(0)} || r.epoch >= target.startedEpoch.value)
  }

  /** The rows a source's day is resolved from. */
  function Candidates(rows: seq<Row>, source: string, target: Target, q: Request): (c: seq<Row>)
    ensures forall r :: r in c <==> r in rows && CountsToday(r, source, target, q)
  {
    var started := target.startedEpoch.GetOr(0);
    SortedByEpoch(Selected(rows, (r: Row) => r.source == source && r.epoch >= q.dayStart
                                             && (source in q.hourly || started == 0 || r.epoch >= started)))
  }

  lemma {:induction false} SelectedCount(rows: seq<Row>, keep: Row -> bool, r: Row)
    ensures multiset(Selected(rows, keep))[r] == if keep(r) then multiset(rows)[r] else 0
  {
    if rows != [] {
      SelectedCount(rows[..|rows| - 1], keep, r);
      assert rows == rows[..|rows| - 1] + [rows[|rows| - 1]];
    }
  }

  lemma {:induction false} InsertedKeepsOrder(rows: seq<Row>, r: Row, at: int)
    requires InOrder(rows)
    ensures Selected(Inserted(rows, r), AtEpoch(at)) == Selected(rows + [r], AtEpoch(at))
  {
    assert (rows + [r])[..|rows|] == rows;
    if rows != [] && rows[|rows| - 1].epoch > r.epoch {
      var less, last := rows[..|rows| - 1], rows[|rows| - 1];
      InsertedKeepsOrder(less, r, at);
      assert (less + [r])[..|less|] == less;
      assert (Inserted(less, r) + [last])[..|Inserted(less, r)|] == Inserted(less, r);
      assert Selected(less, AtEpoch(at)) + [] == Selected(less, AtEpoch(at));
    }
  }

  function AtEpoch(epoch: int): Row -> bool {
    (r: Row) => r.epoch == epoch
  }

  /** Rows of one epoch stay in the order they came in. */
  lemma {:induction false} SortIsStable(rows: seq<Row>, at: int)
    ensures Selected(SortedByEpoch(rows), AtEpoch(at)) == Selected(rows, AtEpoch(at))
  {
    if rows != [] {
      var less, last := rows[..|rows| - 1], rows[|rows| - 1];
      SortedIsInOrder(less);
      SortIsStable(less, at);
      InsertedKeepsOrder(SortedByEpoch(less), last, at);
      assert (SortedByEpoch(less) + [last])[..|SortedByEpoch(less)|] == SortedByEpoch(less);
    }
  }

  /** A day is resolved from all of the source's rows of today, each as often as it occurs, by epoch and, within an
      epoch, in the order they came in. */
  lemma CandidatesAreTodaysRows(rows: seq<Row>, source: string, target: Target, q: Request)
    ensures var c := Candidates(rows, source, target, q);
            && InOrder(c)
            && (forall r :: multiset(c)[r] == if CountsToday(r, source, target, q) then multiset(rows)[r] else 0)
            && (forall at :: Selected(c, AtEpoch(at))
                             == Selected(rows, (r: Row) => CountsToday(r, source, target, q) && r.epoch == at))
  {
    var started := target.startedEpoch.GetOr(0);
    var keep: Row -> bool := (r: Row) => r.source == source && r.epoch >= q.dayStart
                                         && (source in q.hourly || started == 0 || r.epoch >= started);
    var kept := Selected(rows, keep);
    assert Candidates(rows, source, target, q) == SortedByEpoch(kept);
    SortedIsInOrder(kept);
    forall r ensures multiset(kept)[r] == if CountsToday(r, source, target, q) then multiset(rows)[r] else 0 {
      SelectedCount(rows, keep, r);
    }
    forall at ensures Selected(SortedByEpoch(kept), AtEpoch(at))
                   == Selected(rows, (r: Row) => CountsToday(r, source, target, q) && r.epoch == at)
    {
      SortIsStable(kept, at);
      SelectedTwice(rows, keep, AtEpoch(at));
      SameSelection(rows, (r: Row) => keep(r) && AtEpoch(at)(r),
                    (r: Row) => CountsToday(r, source, target, q) && r.epoch == at);
    }
  }

  function Past(rows: seq<Row>, q: Request): seq<Row> {
    Selected(rows, (r: Row) => r.epoch < q.dayStart)
  }

  function Today(rows: seq<Row>, q: Request): seq<Row> {
    Selected(rows, (r: Row) => r.epoch >= q.dayStart)
  }

  lemma {:induction false} SameSelection(rows: seq<Row>, p: Row -> bool, q: Row -> bool)
    requires forall r :: r in rows ==> p(r) == q(r)
    ensures Selected(rows, p) == Selected(rows, q)
  {
    if rows != [] {
      assert rows == rows[..|rows| - 1] + [rows[|rows| - 1]];
      SameSelection(rows[..|rows| - 1], p, q);
    }
  }

  /** What a source shows: its past rows, and the declared day in place of today's rows if it declares one. */
  function Expected(rows: seq<Row>, targets: map<string, Target>, source: string, q: Request): nat {
    Shown(Past(rows, q), source)
    + if source in targets then targets[source].tokens else Shown(Today(rows, q), source)
  }

  /** Declared models add up to the declared day. */
  ghost predicate DeclaresBalance(target: Target) {
    Sum(target.models) == target.tokens
  }

  ghost predicate StaysBalanced(rows: seq<Row>, targets: map<string, Target>, q: Request) {
    AllBalanced(rows) && (q.bucket == DAILY ==> forall s :: s in targets ==> DeclaresBalance(targets[s]))
  }

  /** The rows of one declared source: in a daily view the declaration, else the accepted rows of today with what is
      missing as their tail. */
  function DayRows(rows: seq<Row>, source: string, target: Target, q: Request): seq<Row>
    requires q.bucket > 0
  {
    if q.bucket == DAILY then [Row(q.dayStart, source, target.tokens, target.models, false)]
    else AcceptedWithTail(Candidates(rows, source, target, q), target.tokens, Anchor(target, q.since, q.bucket), source)
  }

  function AcceptedWithTail(candidates: seq<Row>, tokens: nat, anchor: int, source: string): seq<Row> {
    WithTail(Accepted(candidates, tokens), TailOf(candidates, tokens), anchor, source)
  }

  function TailOf(candidates: seq<Row>, tokens: nat): nat {
    tokens - TotalOf(Accepted(candidates, tokens))
  }

  lemma CandidatesAreBalanced(rows: seq<Row>, candidates: seq<Row>)
    requires forall r :: r in candidates ==> r in rows
    ensures AllBalanced(rows) ==> AllBalanced(candidates)
  {
    if AllBalanced(rows) {
      forall k | 0 <= k < |candidates| ensures Balanced(candidates[k]) {
        assert candidates[k] in rows;
      }
    }
  }

  /** One declared source; a daily view takes the declaration as its row. */
  method DayOf(rows: seq<Row>, source: string, target: Target, q: Request) returns (day: seq<Row>)
    requires q.bucket > 0
    ensures day == DayRows(rows, source, target, q)
    ensures TotalOf(day) == target.tokens && forall r :: r in day ==> r.source == source
    ensures AllBalanced(rows) && (q.bucket == DAILY ==> DeclaresBalance(target)) ==> AllBalanced(day)
  {
    if q.bucket == DAILY {
      day := [Row(q.dayStart, source, target.tokens, target.models, false)];
      TotalOne(day[0]);
    } else {
      var candidates := Candidates(rows, source, target, q);
      CandidatesAreBalanced(rows, candidates);
      day := ResolveDay(candidates, target, q.since, q.bucket, source);
    }
  }

  /** In a daily view a declared day is one row at its start, with the declared tokens and models. */
  lemma DailyViewShowsDeclaration(rows: seq<Row>, source: string, target: Target, q: Request)
    requires q.bucket == 86400
    ensures var day := DayRows(rows, source, target, q);
            && |day| == 1 && day[0].epoch == q.dayStart && day[0].source == source && !day[0].estimated
            && day[0].total == target.tokens && day[0].models == target.models
  {
  }

  function OffAnchor(anchor: int): Row -> bool {
    (r: Row) => r.epoch != anchor
  }

  lemma {:induction false} TailIsAtAnchor(rows: seq<Row>, tail: nat, anchor: int, source: string)
    ensures Selected(WithTail(rows, tail, anchor, source), OffAnchor(anchor)) == Selected(rows, OffAnchor(anchor))
  {
    var i := IndexOf(rows, anchor);
    if tail > 0 {
      var after := WithTail(rows, tail, anchor, source);
      if i == |rows| {
        assert after[..|rows|] == rows;
      } else {
        assert rows == rows[..i] + [rows[i]] + rows[i + 1..] && after == rows[..i] + [after[i]] + rows[i + 1..];
        SelectedConcat(rows[..i] + [rows[i]], rows[i + 1..], OffAnchor(anchor));
        SelectedConcat(rows[..i], [rows[i]], OffAnchor(anchor));
        SelectedConcat(rows[..i] + [after[i]], rows[i + 1..], OffAnchor(anchor));
        SelectedConcat(rows[..i], [after[i]], OffAnchor(anchor));
        assert [rows[i]][..0] == [] && [after[i]][..0] == [];
      }
    }
  }

  /** Off the anchor a declared day shows exactly the accepted rows, as they were. */
  lemma {:induction false} DayKeepsAcceptedRows(rows: seq<Row>, source: string, target: Target, q: Request)
    requires q.bucket > 0 && q.bucket != DAILY
    ensures var anchor := Anchor(target, q.since, q.bucket);
            Selected(DayRows(rows, source, target, q), OffAnchor(anchor))
            == Selected(Accepted(Candidates(rows, source, target, q), target.tokens), OffAnchor(anchor))
  {
    var candidates, anchor := Candidates(rows, source, target, q), Anchor(target, q.since, q.bucket);
    var tail := TailOf(candidates, target.tokens);
    TailIsAtAnchor(Accepted(candidates, target.tokens), tail, anchor, source);
    assert DayRows(rows, source, target, q) == AcceptedWithTail(candidates, target.tokens, anchor, source);
  }

  /** A declaration that covers today's rows keeps all that are not empty. */
  lemma {:induction false} CoveredRowsAreAccepted(candidates: seq<Row>, tokens: nat)
    requires TotalOf(candidates) <= tokens
    ensures Accepted(candidates, tokens) == Selected(candidates, (r: Row) => r.total > 0)
    ensures TotalOf(Accepted(candidates, tokens)) == TotalOf(candidates)
  {
    if candidates != [] {
      CoveredRowsAreAccepted(candidates[..|candidates| - 1], tokens);
      var rows, r := Accepted(candidates[..|candidates| - 1], tokens), candidates[|candidates| - 1];
      assert (rows + [r])[..|rows|] == rows;
      assert rows + [] == rows;
    }
  }

  function Undeclared(targets: map<string, Target>): Row -> bool {
    (r: Row) => r.source !in targets
  }

  lemma {:induction false} SelectedTwice(rows: seq<Row>, p: Row -> bool, q: Row -> bool)
    ensures Selected(Selected(rows, p), q) == Selected(rows, (r: Row) => p(r) && q(r))
  {
    if rows != [] {
      var less, last := rows[..|rows| - 1], rows[|rows| - 1];
      SelectedTwice(less, p, q);
      if p(last) {
        assert (Selected(less, p) + [last])[..|Selected(less, p)|] == Selected(less, p);
      } else {
        assert Selected(less, p) + [] == Selected(less, p);
      }
    }
  }

  lemma UndeclaredShown(rows: seq<Row>, targets: map<string, Target>, source: string)
    ensures Shown(Selected(rows, Undeclared(targets)), source) == if source in targets then 0 else Shown(rows, source)
  {
    UndeclaredRows(rows, targets, source);
  }

  lemma SelectedBalanced(rows: seq<Row>, keep: Row -> bool)
    requires AllBalanced(rows)
    ensures AllBalanced(Selected(rows, keep))
  {
    forall k | 0 <= k < |Selected(rows, keep)|
      ensures Balanced(Selected(rows, keep)[k])
    {
      assert Selected(rows, keep)[k] in rows;
    }
  }

  /** Each declared source has its day's rows, which add up to what it declares, and no other source has any. */
  ghost predicate AreDays(days: seq<Row>, rows: seq<Row>, targets: map<string, Target>, q: Request)
    requires q.bucket > 0
  {
    forall s :: && Shown(days, s) == (if s in targets then targets[s].tokens else 0)
                && Selected(days, OfSource(s)) == DayRowsOutside(rows, targets, map[], s, q)
  }

  /** The days of the declared sources, one after the other. */
  method DeclaredDays(rows: seq<Row>, targets: map<string, Target>, q: Request) returns (days: seq<Row>)
    requires q.bucket > 0
    ensures AreDays(days, rows, targets, q)
    ensures StaysBalanced(rows, targets, q) ==> AllBalanced(days)
  {
    days := [];
    var rest := targets;
    while rest != map[]
      invariant forall s :: s in rest ==> s in targets && rest[s] == targets[s]
      invariant forall s :: Shown(days, s) == DeclaredOutside(targets, rest, s)
      invariant forall s :: Selected(days, OfSource(s)) == DayRowsOutside(rows, targets, rest, s, q)
      invariant StaysBalanced(rows, targets, q) ==> AllBalanced(days)
      decreases |rest|
    {
      var source :| source in rest;
      var day := DayOf(rows, source, rest[source], q);
      ShownByAll(days, day, source, targets, rest);
      RowsByAll(rows, days, day, source, targets, rest, q);
      days := days + day;
      rest := rest - {source};
    }
  }

  function DeclaredOutside(targets: map<string, Target>, rest: map<string, Target>, source: string): nat {
    if source in targets && source !in rest then targets[source].tokens else 0
  }

  /** The day of a declared source that is no longer to be resolved. */
  function DayRowsOutside(rows: seq<Row>, targets: map<string, Target>, rest: map<string, Target>, source: string,
                          q: Request): seq<Row>
    requires q.bucket > 0
  {
    if source in targets && source !in rest then DayRows(rows, source, targets[source], q) else []
  }

  lemma {:induction false} RowsByAll(rows: seq<Row>, days: seq<Row>, day: seq<Row>, source: string,
                                     targets: map<string, Target>, rest: map<string, Target>, q: Request)
    requires q.bucket > 0 && source in rest && source in targets && rest[source] == targets[source]
    requires day == DayRows(rows, source, targets[source], q) && forall r :: r in day ==> r.source == source
    requires forall s :: Selected(days, OfSource(s)) == DayRowsOutside(rows, targets, rest, s, q)
    ensures forall s :: Selected(days + day, OfSource(s)) == DayRowsOutside(rows, targets, rest - {source}, s, q)
  {
    forall s
      ensures Selected(days + day, OfSource(s)) == DayRowsOutside(rows, targets, rest - {source}, s, q)
    {
      SelectedConcat(days, day, OfSource(s));
      SelectedAll(day, OfSource(s));
    }
  }

  lemma ShownByAll(days: seq<Row>, day: seq<Row>, source: string, targets: map<string, Target>,
                   rest: map<string, Target>)
    requires source in rest && source in targets && rest[source] == targets[source]
    requires forall r :: r in day ==> r.source == source
    requires TotalOf(day) == targets[source].tokens
    requires forall s :: Shown(days, s) == DeclaredOutside(targets, rest, s)
    ensures forall s :: Shown(days + day, s) == DeclaredOutside(targets, rest - {source}, s)
  {
    forall s
      ensures Shown(days + day, s) == DeclaredOutside(targets, rest - {source}, s)
    {
      ShownAfter(days, day, source, s);
    }
  }

  lemma ShownConcat(a: seq<Row>, b: seq<Row>, source: string)
    ensures Shown(a + b, source) == Shown(a, source) + Shown(b, source)
  {
    SelectedConcat(a, b, OfSource(source));
    TotalConcat(Selected(a, OfSource(source)), Selected(b, OfSource(source)));
  }

  function ExpectedRows(rows: seq<Row>, targets: map<string, Target>, source: string, q: Request): seq<Row>
    requires q.bucket > 0
  {
    Selected(Past(rows, q), OfSource(source))
    + if source in targets then DayRows(rows, source, targets[source], q)
      else Selected(Today(rows, q), OfSource(source))
  }

  /** Source by source: the past as it was, then the resolved day, or today's rows where nothing is declared; and in
      sum what is expected. */
  ghost predicate IsResolved(resolved: seq<Row>, rows: seq<Row>, targets: map<string, Target>, q: Request)
    requires q.bucket > 0
  {
    forall source :: && Shown(resolved, source) == Expected(rows, targets, source, q)
                     && Selected(resolved, OfSource(source)) == ExpectedRows(rows, targets, source, q)
  }

  lemma UndeclaredRows(rows: seq<Row>, targets: map<string, Target>, source: string)
    ensures Selected(Selected(rows, Undeclared(targets)), OfSource(source))
         == if source in targets then [] else Selected(rows, OfSource(source))
  {
    var both: Row -> bool := r => Undeclared(targets)(r) && OfSource(source)(r);
    SelectedTwice(rows, Undeclared(targets), OfSource(source));
    if source in targets {
      SelectedAll(rows, both);
    } else {
      SameSelection(rows, both, OfSource(source));
    }
  }

  lemma {:induction false} ResolvedRows(rows: seq<Row>, targets: map<string, Target>, days: seq<Row>, source: string,
                                        q: Request)
    requires q.bucket > 0 && Selected(days, OfSource(source)) == DayRowsOutside(rows, targets, map[], source, q)
    ensures Selected(Past(rows, q) + days + Selected(Today(rows, q), Undeclared(targets)), OfSource(source))
         == ExpectedRows(rows, targets, source, q)
  {
    SelectedThree(Past(rows, q), days, Selected(Today(rows, q), Undeclared(targets)), OfSource(source));
    UndeclaredRows(Today(rows, q), targets, source);
    WithoutNothing(Selected(Past(rows, q), OfSource(source)),
                   if source in targets then DayRows(rows, source, targets[source], q)
                   else Selected(Today(rows, q), OfSource(source)));
  }

  lemma WithoutNothing(a: seq<Row>, b: seq<Row>)
    ensures a + b + [] == a + b && a + [] + b == a + b
  {
  }

  lemma SelectedThree(a: seq<Row>, b: seq<Row>, c: seq<Row>, keep: Row -> bool)
    ensures Selected(a + b + c, keep) == Selected(a, keep) + Selected(b, keep) + Selected(c, keep)
  {
    SelectedConcat(a + b, c, keep);
    SelectedConcat(a, b, keep);
  }

  /**
   * The resolved rows of every source add up to what it declares for the day plus its past rows;
   * sources that declare nothing keep their rows.
   */
  method ResolvedIntervals(rows: seq<Row>, targets: map<string, Target>, q: Request) returns (resolved: seq<Row>)
    requires q.bucket > 0
    ensures IsResolved(resolved, rows, targets, q)
    ensures StaysBalanced(rows, targets, q) ==> AllBalanced(resolved)
  {
    var days := DeclaredDays(rows, targets, q);
    var others := Selected(Today(rows, q), Undeclared(targets));
    resolved := Past(rows, q) + days + others;
    ResolvedMeans(rows, targets, days, q);
    if StaysBalanced(rows, targets, q) {
      PartsBalanced(rows, targets, q);
    }
  }

  lemma ResolvedMeans(rows: seq<Row>, targets: map<string, Target>, days: seq<Row>, q: Request)
    requires q.bucket > 0
    requires AreDays(days, rows, targets, q)
    ensures IsResolved(Past(rows, q) + days + Selected(Today(rows, q), Undeclared(targets)), rows, targets, q)
  {
    forall s
      ensures var resolved := Past(rows, q) + days + Selected(Today(rows, q), Undeclared(targets));
              Shown(resolved, s) == Expected(rows, targets, s, q)
              && Selected(resolved, OfSource(s)) == ExpectedRows(rows, targets, s, q)
    {
      ResolvedRows(rows, targets, days, s, q);
      ResolvedShown(rows, targets, days, s, q);
    }
  }

  lemma ResolvedShown(rows: seq<Row>, targets: map<string, Target>, days: seq<Row>, source: string, q: Request)
    requires Shown(days, source) == if source in targets then targets[source].tokens else 0
    ensures Shown(Past(rows, q) + days + Selected(Today(rows, q), Undeclared(targets)), source)
         == Expected(rows, targets, source, q)
  {
    ShownConcat(Past(rows, q) + days, Selected(Today(rows, q), Undeclared(targets)), source);
    ShownConcat(Past(rows, q), days, source);
    UndeclaredShown(Today(rows, q), targets, source);
  }

  lemma PartsBalanced(rows: seq<Row>, targets: map<string, Target>, q: Request)
    requires AllBalanced(rows)
    ensures AllBalanced(Past(rows, q)) && AllBalanced(Selected(Today(rows, q), Undeclared(targets)))
  {
    SelectedBalanced(rows, (r: Row) => r.epoch < q.dayStart);
    SelectedBalanced(rows, (r: Row) => r.epoch >= q.dayStart);
    SelectedBalanced(Today(rows, q), Undeclared(targets));
  }
}
