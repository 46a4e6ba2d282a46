/** Confirmation windows: a status changes only after enough identical candidates in a row. */
module StatusStability {
  import opened Prelude
  import opened Folding

  /** Ranks of the statuses and the number of samples that confirm a change for the worse or the better. */
  datatype Windows<!S> = Windows(ranks: map<S, int>, worsenAfter: int, recoverAfter: int)

  datatype Stability<S> = Stability(status: S, pending: Option<S>, count: nat)

  datatype Decision<S> = Decision(status: S, changed: bool, pending: Option<S>, count: nat, required: int)

  function RankOr<S>(w: Windows<S>, s: S, default: int): int {
    if s in w.ranks then w.ranks[s] else default
  }

  /** How many candidates in a row it takes to leave a status for another. */
  function Required<S>(w: Windows<S>, status: S, candidate: S): (n: int)
    ensures n >= 1
  {
    var current := RankOr(w, status, 0);
    Max(1, if RankOr(w, candidate, current) > current then w.worsenAfter else w.recoverAfter)
  }

  function Observed<S(==)>(w: Windows<S>, st: Stability<S>, candidate: S, immediate: bool): Stability<S> {
    if candidate == st.status then Stability(st.status, None, 0)
    else if immediate then Stability(candidate, None, 0)
    else
      var count := if st.pending == Some(candidate) then st.count + 1 else 1;
      if count < Required(w, st.status, candidate) then Stability(st.status, Some(candidate), count)
      else Stability(candidate, None, 0)
  }

  function ObserveStep<S(==)>(w: Windows<S>): (Stability<S>, S) -> Stability<S> {
    (st: Stability<S>, c: S) => Observed(w, st, c, false)
  }

  /** The state after a run of candidates. */
  function After<S(==)>(w: Windows<S>, initial: S, cs: seq<S>): Stability<S> {
    Accumulate(ObserveStep(w), cs, Stability(initial, None, 0))
  }

  lemma AfterOneMore<S>(w: Windows<S>, initial: S, cs: seq<S>, c: S)
    ensures After(w, initial, cs + [c]) == Observed(w, After(w, initial, cs), c, false)
  {
    AccumulateConcat(ObserveStep(w), cs, [c], Stability(initial, None, 0));
    AccumulateOne(ObserveStep(w), c, After(w, initial, cs));
  }

  /** With nothing pending the confirmed status is the candidate just seen. */
  lemma NothingPendingMeansConfirmed<S>(w: Windows<S>, st: Stability<S>, candidate: S, immediate: bool)
    ensures Observed(w, st, candidate, immediate).pending == None
       <==> Observed(w, st, candidate, immediate).status == candidate
  {
  }

  /** Length of the last run of identical elements. */
  function LastRun<S(==)>(cs: seq<S>): (n: nat)
    ensures n <= |cs| && (n == 0 <==> cs == [])
  {
    var n := |cs|;
    if n == 0 then 0
    else if n >= 2 && cs[n - 2] == cs[n - 1] then LastRun(cs[..n - 1]) + 1
    else 1
  }

  lemma {:induction false} LastRunIsMaximal<S>(cs: seq<S>, m: nat)
    requires 1 <= m <= |cs|
    ensures m <= LastRun(cs) <==> forall i :: |cs| - m <= i < |cs| ==> cs[i] == cs[|cs| - 1]
  {
    var n := |cs|;
    if n >= 2 && cs[n - 2] == cs[n - 1] && m >= 2 {
      var less := cs[..n - 1];
      LastRunIsMaximal(less, m - 1);
      assert forall i :: n - m <= i < n - 1 ==> less[i] == cs[i];
    } else if m >= 2 {
      assert cs[n - 2] != cs[n - 1];
    }
  }

  /** The pending count is the length of the last run of identical candidates, always short of what is required. */
  lemma {:induction false} PendingIsTheLastRun<S>(w: Windows<S>, initial: S, cs: seq<S>)
    requires cs != []
    ensures var st, c := After(w, initial, cs), cs[|cs| - 1];
            if st.status == c then st.pending == None && st.count == 0
            else st.pending == Some(c) && st.count == LastRun(cs) < Required(w, st.status, c)
  {
    var n := |cs| - 1;
    var c := cs[n];
    assert cs == cs[..n] + [c];
    AfterOneMore(w, initial, cs[..n], c);
    if n > 0 {
      PendingIsTheLastRun(w, initial, cs[..n]);
    } else {
      assert cs[..n] == [];
    }
  }

  /** The status changes exactly when the last run of a new candidate reaches the required length. */
  lemma ChangesWhenTheRunIsLongEnough<S>(w: Windows<S>, initial: S, cs: seq<S>, c: S)
    ensures var before, after := After(w, initial, cs), After(w, initial, cs + [c]);
            && (after.status != before.status <==>
                  c != before.status && LastRun(cs + [c]) >= Required(w, before.status, c))
            && (after.status != before.status
                ==> after.status == c && LastRun(cs + [c]) == Required(w, before.status, c))
  {
    AfterOneMore(w, initial, cs, c);
    if cs != [] {
      PendingIsTheLastRun(w, initial, cs);
      assert (cs + [c])[..|cs|] == cs;
    }
  }

  // ---- Two statuses ----

  /** The block of `m` samples from position `from` on all equal `c`. */
  predicate Block<S(==)>(cs: seq<S>, from: int, m: nat, c: S) {
    0 <= from && from + m <= |cs| && forall i :: from <= i < from + m ==> cs[i] == c
  }

  /** Some block of `worsen` bad samples is not followed by a block of `recover` good ones. */
  ghost predicate Tripped<S>(cs: seq<S>, good: S, bad: S, worsen: nat, recover: nat) {
    exists i :: worsen <= i <= |cs| && Trip(cs, good, bad, worsen, recover, i)
  }

  ghost predicate Trip<S>(cs: seq<S>, good: S, bad: S, worsen: nat, recover: nat, i: int)
    requires worsen <= i <= |cs|
  {
    && Block(cs, i - worsen, worsen, bad)
    && forall j :: i <= j ==> !Block(cs, j, recover, good)
  }

  lemma LastRunCovers<S>(cs: seq<S>, c: S, m: nat)
    requires 1 <= m
    ensures cs != [] && cs[|cs| - 1] == c && LastRun(cs) >= m <==> Block(cs, |cs| - m, m, c)
  {
    if cs != [] && m <= |cs| {
      LastRunIsMaximal(cs, m);
    }
  }

  lemma BlockGrows<S>(cs: seq<S>, x: S, from: int, m: nat, c: S)
    ensures from + m <= |cs| ==> (Block(cs + [x], from, m, c) <==> Block(cs, from, m, c))
  {
    if 0 <= from && from + m <= |cs| {
      assert forall i :: from <= i < from + m ==> (cs + [x])[i] == cs[i];
    }
  }

  lemma TripStarts<S>(cs: seq<S>, c: S, good: S, bad: S, worsen: nat, recover: nat)
    requires good != bad && worsen >= 1 && recover >= 1
    requires !Tripped(cs, good, bad, worsen, recover)
    ensures Tripped(cs + [c], good, bad, worsen, recover) <==> Block(cs + [c], |cs| + 1 - worsen, worsen, bad)
  {
    var more, n := cs + [c], |cs|;
    if Block(more, n + 1 - worsen, worsen, bad) {
      assert Trip(more, good, bad, worsen, recover, n + 1);
    }
    forall i | worsen <= i <= n
      ensures !Trip(more, good, bad, worsen, recover, i)
    {
      assert !Trip(cs, good, bad, worsen, recover, i);
      BlockGrows(cs, c, i - worsen, worsen, bad);
      if Block(cs, i - worsen, worsen, bad) {
        var j :| i <= j && Block(cs, j, recover, good);
        BlockGrows(cs, c, j, recover, good);
      }
    }
  }

  lemma TripLasts<S>(cs: seq<S>, c: S, good: S, bad: S, worsen: nat, recover: nat)
    requires good != bad && worsen >= 1 && recover >= 1
    requires Tripped(cs, good, bad, worsen, recover)
    ensures Tripped(cs + [c], good, bad, worsen, recover) <==> !Block(cs + [c], |cs| + 1 - recover, recover, good)
  {
    var more, n := cs + [c], |cs|;
    if Block(more, n + 1 - recover, recover, good) {
      forall i | worsen <= i <= n + 1
        ensures !Trip(more, good, bad, worsen, recover, i)
      {
        if i > n + 1 - recover {
          assert more[i - 1] == good;
        }
      }
    } else {
      var i :| worsen <= i <= n && Trip(cs, good, bad, worsen, recover, i);
      BlockGrows(cs, c, i - worsen, worsen, bad);
      forall j | i <= j
        ensures !Block(more, j, recover, good)
      {
        BlockGrows(cs, c, j, recover, good);
      }
      assert Trip(more, good, bad, worsen, recover, i);
    }
  }

  /** Between two statuses the windows implement exactly this hysteresis. */
  lemma {:induction false} TwoStatusHysteresis<S>(w: Windows<S>, good: S, bad: S, cs: seq<S>)
    requires good != bad && w.worsenAfter >= 1 && w.recoverAfter >= 1
    requires good in w.ranks && bad in w.ranks && w.ranks[good] < w.ranks[bad]
    requires forall c :: c in cs ==> c in [good, bad]
    ensures After(w, good, cs).status in [good, bad]
    ensures After(w, good, cs).status == bad <==> Tripped(cs, good, bad, w.worsenAfter, w.recoverAfter)
  {
    if cs == [] {
    } else {
      var n := |cs| - 1;
      var less, c := cs[..n], cs[n];
      assert cs == less + [c];
      TwoStatusHysteresis(w, good, bad, less);
      ChangesWhenTheRunIsLongEnough(w, good, less, c);
      AfterOneMore(w, good, less, c);
      if After(w, good, less).status == good {
        TripStarts(less, c, good, bad, w.worsenAfter, w.recoverAfter);
        LastRunCovers(cs, bad, w.worsenAfter);
      } else {
        TripLasts(less, c, good, bad, w.worsenAfter, w.recoverAfter);
        LastRunCovers(cs, good, w.recoverAfter);
      }
    }
  }

  class StatusStabilizer<S(==)> {
    const windows: Windows<S>
    var status: S
    var pendingStatus: Option<S>
    var pendingCount: nat

    ghost function State(): Stability<S>
      reads this
    {
      Stability(status, pendingStatus, pendingCount)
    }

    constructor (initial: S, windows: Windows<S>)
      ensures State() == Stability(initial, None, 0) && this.windows == windows
    {
      this.windows := windows;
      status, pendingStatus, pendingCount := initial, None, 0;
    }

    method Observe(candidate: S, immediate: bool) returns (d: Decision<S>)
      modifies this
      ensures State() == Observed(windows, old(State()), candidate, immediate)
      ensures d.status == status && d.changed == (status != old(status))
      ensures d.pending == pendingStatus && d.count == pendingCount
      ensures d.required == if pendingStatus.Some? then Required(windows, status, candidate) else 0
    {
      if candidate == status {
        pendingStatus, pendingCount := None, 0;
        return Decision(status, false, None, 0, 0);
      }
      if immediate {
        status, pendingStatus, pendingCount := candidate, None, 0;
        return Decision(status, true, None, 0, 0);
      }
      var required := Required(windows, status, candidate);
      if pendingStatus == Some(candidate) {
        pendingCount := pendingCount + 1;
      } else {
        pendingStatus, pendingCount := Some(candidate), 1;
      }
      if pendingCount < required {
        return Decision(status, false, Some(candidate), pendingCount, required);
      }
      status, pendingStatus, pendingCount := candidate, None, 0;
      return Decision(status, true, None, 0, 0);
    }
  }
}
