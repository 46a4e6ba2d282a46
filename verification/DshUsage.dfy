/** Emitting each settled DSH request once, across polls, failed checkpoints and restarts. */
module DshUsage {
  import opened Prelude
  import opened Folding
  import opened DshSessions

  /** A metric point of the collector. */
  datatype Emitted = Emitted(marker: Marker, tokens: nat)

  /** How a poll ends: delivered, an error while writing the checkpoint, or a crash right after writing it. */
  datatype Outcome = Delivered | WriteFails | CrashAfterWrite

  datatype Collector = Collector(seen: Option<set<Marker>>, disk: Option<set<Marker>>)

  /** `Lose` stands for whatever makes the checkpoint file vanish or unreadable. */
  datatype Act = Poll(requests: seq<Request>, outcome: Outcome) | Restart | Lose

  function Settled(requests: seq<Request>): set<Marker> {
    set r | r in requests && r.settled :: r.marker
  }

  function Known(c: Collector): set<Marker> {
    c.seen.GetOr({})
  }

  /** The points of one poll, in order: settled requests not seen before that carry tokens. */
  function Points(requests: seq<Request>, seen: set<Marker>): seq<Emitted>
    decreases |requests|
  {
    if requests == [] then []
    else PointOf(requests[0], seen) + Points(requests[1..], MarkOf(requests[0], seen))
  }

  predicate IsNew(r: Request, seen: set<Marker>) {
    r.settled && r.marker !in seen
  }

  function PointOf(r: Request, seen: set<Marker>): seq<Emitted> {
    if IsNew(r, seen) && r.counters.Total() > 0 then [Emitted(r.marker, r.counters.Total())] else []
  }

  function MarkOf(r: Request, seen: set<Marker>): set<Marker> {
    if IsNew(r, seen) then seen + {r.marker} else seen
  }

  lemma {:induction false} PointsAreNew(requests: seq<Request>, seen: set<Marker>)
    ensures forall p :: p in Points(requests, seen) ==> p.marker !in seen && p.marker in Settled(requests)
    ensures forall i, k :: 0 <= i < k < |Points(requests, seen)|
              ==> Points(requests, seen)[i].marker != Points(requests, seen)[k].marker
    decreases |requests|
  {
    if requests != [] {
      PointsAreNew(requests[1..], MarkOf(requests[0], seen));
      assert Settled(requests[1..]) <= Settled(requests);
    }
  }

  function Polled(c: Collector, requests: seq<Request>, outcome: Outcome): (Collector, seq<Emitted>) {
    var bootstrap := c.seen.None?;
    var seen := Known(c) + Settled(requests);
    var points := if bootstrap then [] else Points(requests, Known(c));
    if !bootstrap && seen == Known(c) then (Collector(Some(seen), c.disk), points)
    else match outcome
      case Delivered => (Collector(Some(seen), Some(seen)), points)
      case WriteFails => (c, [])
      case CrashAfterWrite => (Collector(Some(seen), Some(seen)), [])
  }

  function Acted(c: Collector, a: Act): (Collector, seq<Emitted>) {
    match a
    case Poll(requests, outcome) => Polled(c, requests, outcome)
    case Restart => (Collector(c.disk, c.disk), [])
    case Lose => (Collector(c.seen, None), [])
  }

  function ActStep(): (Collector, Act) -> (Collector, seq<Emitted>) {
    (c: Collector, a: Act) => Acted(c, a)
  }

  function Fresh(): Collector {
    Collector(None, None)
  }

  function History(acts: seq<Act>): (Collector, seq<Emitted>) {
    Fold(ActStep(), acts, Fresh())
  }

  lemma HistoryNext(acts: seq<Act>)
    requires acts != []
    ensures var n := |acts| - 1;
            var before := History(acts[..n]);
            History(acts).0 == Acted(before.0, acts[n]).0 && History(acts).1 == before.1 + Acted(before.0, acts[n]).1
  {
    var n := |acts| - 1;
    assert acts == acts[..n] + [acts[n]];
    FoldConcat(ActStep(), acts[..n], [acts[n]], Fresh());
    FoldOne(ActStep(), acts[n], History(acts[..n]).0);
  }

  /** A restart that finds no checkpoint although the process before it had seen something. */
  predicate Forgets(c: Collector, a: Act) {
    a.Restart? && c.disk.None? && c.seen.Some?
  }

  ghost predicate Remembering(acts: seq<Act>) {
    forall i | 0 <= i < |acts| :: !Forgets(History(acts[..i]).0, acts[i])
  }

  lemma RememberingPrefix(acts: seq<Act>)
    requires acts != [] && Remembering(acts)
    ensures Remembering(acts[..|acts| - 1]) && !Forgets(History(acts[..|acts| - 1]).0, acts[|acts| - 1])
  {
    var less := acts[..|acts| - 1];
    forall i | 0 <= i < |less| ensures !Forgets(History(less[..i]).0, less[i]) {
      assert less[..i] == acts[..i];
    }
  }

  /** Without lost checkpoints nothing is ever forgotten. */
  lemma {:induction false} KeptCheckpointsAreRemembered(acts: seq<Act>)
    requires forall a <- acts :: !a.Lose?
    ensures Remembering(acts) && History(acts).0.seen == History(acts).0.disk
  {
    if acts != [] {
      var n, less := |acts| - 1, acts[..|acts| - 1];
      assert forall a <- less :: a in acts;
      assert acts[n] in acts;
      KeptCheckpointsAreRemembered(less);
      HistoryNext(acts);
      forall i | 0 <= i < |acts| ensures !Forgets(History(acts[..i]).0, acts[i]) {
        assert i < n ==> less[..i] == acts[..i] && less[i] == acts[i];
      }
    }
  }

  /** The checkpoint, if it is there, equals memory; and everything emitted is in memory, once. */
  ghost predicate Accounted(c: Collector, emitted: seq<Emitted>) {
    && (c.disk.Some? ==> c.disk == c.seen)
    && (forall e :: e in emitted ==> e.marker in Known(c))
    && (forall i, k :: 0 <= i < k < |emitted| ==> emitted[i].marker != emitted[k].marker)
  }

  lemma ActKeepsAccounts(c: Collector, a: Act, emitted: seq<Emitted>)
    requires Accounted(c, emitted) && !Forgets(c, a)
    ensures Accounted(Acted(c, a).0, emitted + Acted(c, a).1)
  {
    var (next, points) := Acted(c, a);
    if a.Poll? {
      PointsAreNew(a.requests, Known(c));
    }
    if points != [] {
      var all := emitted + points;
      forall i, k | 0 <= i < k < |all|
        ensures all[i].marker != all[k].marker
      {
        if i < |emitted| <= k {
          assert all[i] in emitted && all[k] in points;
        }
      }
    } else {
      assert emitted + points == emitted;
    }
  }

  lemma {:induction false} RunKeepsAccounts(acts: seq<Act>)
    requires Remembering(acts)
    ensures Accounted(History(acts).0, History(acts).1)
  {
    if acts != [] {
      var n := |acts| - 1;
      RememberingPrefix(acts);
      RunKeepsAccounts(acts[..n]);
      HistoryNext(acts);
      ActKeepsAccounts(History(acts[..n]).0, acts[n], History(acts[..n]).1);
    }
  }

  /** Over all polls, failures, crashes and restarts no request is emitted twice, unless a lost checkpoint is
      forgotten by a restart. */
  lemma NoMarkerIsEmittedTwice(acts: seq<Act>, i: nat, k: nat)
    requires Remembering(acts) && i < k < |History(acts).1|
    ensures History(acts).1[i].marker != History(acts).1[k].marker
  {
    RunKeepsAccounts(acts);
  }

  /** Whatever was emitted had been reported settled by some poll. */
  lemma {:induction false} OnlySettledRequestsAreEmitted(acts: seq<Act>, e: Emitted)
    requires e in History(acts).1
    ensures exists i :: 0 <= i < |acts| && acts[i].Poll? && e.marker in Settled(acts[i].requests)
  {
    if acts != [] {
      var n := |acts| - 1;
      HistoryNext(acts);
      if acts[n].Poll? {
        PointsAreNew(acts[n].requests, Known(History(acts[..n]).0));
      }
      if e in History(acts[..n]).1 {
        OnlySettledRequestsAreEmitted(acts[..n], e);
        var i :| 0 <= i < n && acts[..n][i].Poll? && e.marker in Settled(acts[..n][i].requests);
        assert acts[i] == acts[..n][i];
      }
    }
  }

  // ---- Exactly what is emitted ----

  /** The tokens of the first settled request under a marker. */
  function FirstTokens(requests: seq<Request>, m: Marker): int {
    if requests == [] then 0
    else if requests[0].settled && requests[0].marker == m then requests[0].counters.Total()
    else FirstTokens(requests[1..], m)
  }

  lemma {:induction false} PointsOfMarker(requests: seq<Request>, seen: set<Marker>, e: Emitted)
    ensures e in Points(requests, seen)
       <==> e.marker !in seen && e.tokens > 0 && e.tokens == FirstTokens(requests, e.marker)
    decreases |requests|
  {
    if requests != [] {
      PointsOfMarker(requests[1..], MarkOf(requests[0], seen), e);
    }
  }

  /** A poll whose marks were kept. */
  predicate Kept(a: Act) {
    a.Poll? && !a.outcome.WriteFails?
  }

  /** Markers settled in the kept polls. */
  function SettledIn(acts: seq<Act>): set<Marker> {
    if acts == [] then {} else
    SettledIn(acts[..|acts| - 1]) + if Kept(acts[|acts| - 1]) then Settled(acts[|acts| - 1].requests) else {}
  }

  /** There was a kept poll to start from. */
  predicate Started(acts: seq<Act>) {
    exists i | 0 <= i < |acts| :: Kept(acts[i])
  }

  lemma StartedNext(acts: seq<Act>)
    requires acts != []
    ensures Started(acts) <==> Started(acts[..|acts| - 1]) || Kept(acts[|acts| - 1])
  {
    var n, less := |acts| - 1, acts[..|acts| - 1];
    if i :| 0 <= i < |acts| && Kept(acts[i]) {
      assert i < n ==> Kept(less[i]);
    }
    if i :| 0 <= i < |less| && Kept(less[i]) {
      assert Kept(acts[i]);
    }
  }

  lemma {:induction false} SeenIsSettled(acts: seq<Act>)
    requires Remembering(acts)
    ensures Known(History(acts).0) == SettledIn(acts)
    ensures History(acts).0.seen.Some? <==> Started(acts)
  {
    if acts != [] {
      RememberingPrefix(acts);
      SeenIsSettled(acts[..|acts| - 1]);
      RunKeepsAccounts(acts[..|acts| - 1]);
      StartedNext(acts);
      HistoryNext(acts);
    }
  }

  /** Poll `i` delivers a marker: some poll before it was kept, none that was kept had it settled, and its first
      settled request under the marker carries tokens. */
  predicate Delivers(acts: seq<Act>, i: nat, e: Emitted)
    requires i < |acts|
  {
    && acts[i].Poll? && acts[i].outcome.Delivered? && Started(acts[..i]) && e.marker !in SettledIn(acts[..i])
    && e.tokens > 0 && e.tokens == FirstTokens(acts[i].requests, e.marker)
  }

  lemma {:induction false} NothingNewNoPoints(requests: seq<Request>, seen: set<Marker>)
    requires Settled(requests) <= seen
    ensures Points(requests, seen) == []
    decreases |requests|
  {
    if requests != [] {
      assert Settled(requests[1..]) <= Settled(requests);
      assert requests[0].settled ==> requests[0].marker in Settled(requests);
      NothingNewNoPoints(requests[1..], seen);
    }
  }

  lemma PolledEmits(c: Collector, requests: seq<Request>, outcome: Outcome, e: Emitted)
    ensures e in Polled(c, requests, outcome).1
       <==> outcome.Delivered? && c.seen.Some? && e in Points(requests, Known(c))
  {
    if Known(c) + Settled(requests) == Known(c) {
      NothingNewNoPoints(requests, Known(c));
    }
  }

  /** A point is emitted exactly when some poll delivers it. */
  lemma {:induction false} EmittedIffDelivered(acts: seq<Act>, e: Emitted)
    requires Remembering(acts)
    ensures e in History(acts).1 <==> exists i: nat | i < |acts| :: Delivers(acts, i, e)
  {
    if acts != [] {
      var n, less := |acts| - 1, acts[..|acts| - 1];
      RememberingPrefix(acts);
      EmittedIffDelivered(less, e);
      SeenIsSettled(less);
      HistoryNext(acts);
      if acts[n].Poll? {
        PolledEmits(History(less).0, acts[n].requests, acts[n].outcome, e);
        PointsOfMarker(acts[n].requests, Known(History(less).0), e);
      }
      assert e in Acted(History(less).0, acts[n]).1 <==> Delivers(acts, n, e);
      forall i: nat | i < n ensures Delivers(less, i, e) <==> Delivers(acts, i, e) {
        assert less[..i] == acts[..i];
      }
    }
  }

  // ---- A lost checkpoint ----

  lemma {:induction false} LostIsFresh(before: seq<Act>, later: seq<Act>)
    requires History(before).0.disk.None?
    ensures History(before + [Restart] + later).0 == History(later).0
    ensures History(before + [Restart] + later).1 == History(before).1 + History(later).1
  {
    FoldConcat(ActStep(), before + [Restart], later, Fresh());
    FoldConcat(ActStep(), before, [Restart], Fresh());
    FoldOne(ActStep(), Restart, History(before).0);
    assert History(before).1 + [] == History(before).1;
  }

  /** After a restart that finds no checkpoint a request emitted before is emitted again exactly when a later
      poll delivers it: not if the first kept poll shows it settled, but if it was out of sight then. */
  lemma ComesBackIff(before: seq<Act>, later: seq<Act>, e: Emitted)
    requires History(before).0.disk.None? && Remembering(later)
    ensures History(before + [Restart] + later).1 == History(before).1 + History(later).1
    ensures e in History(later).1 <==> exists i: nat | i < |later| :: Delivers(later, i, e)
  {
    LostIsFresh(before, later);
    EmittedIffDelivered(later, e);
  }

  class DshUsageCollector {
    var seen: Option<set<Marker>>
    var checkpoint: Option<set<Marker>>

    ghost function State(): Collector
      reads this
    {
      Collector(seen, checkpoint)
    }

    /** A new process reads the checkpoint, if there is one. */
    constructor (checkpoint: Option<set<Marker>>)
      ensures State() == Collector(checkpoint, checkpoint)
    {
      this.seen, this.checkpoint := checkpoint, checkpoint;
    }

    /** None stands for the error that leaves the poll without a result. */
    method Collect(requests: seq<Request>, writes: bool) returns (points: Option<seq<Emitted>>)
      modifies this
      ensures var (next, emitted) := Polled(old(State()), requests, if writes then Delivered else WriteFails);
              State() == next && points.GetOr([]) == emitted
    {
      var bootstrap := seen.None?;
      var known := seen.GetOr({});
      var marked, emitted := Scan(requests, known, bootstrap);
      if bootstrap || marked != known {
        if !writes {
          return None;
        }
        checkpoint := Some(marked);
      }
      seen := Some(marked);
      return Some(emitted);
    }
  }

  method Scan(requests: seq<Request>, known: set<Marker>, bootstrap: bool)
    returns (marked: set<Marker>, emitted: seq<Emitted>)
    ensures marked == known + Settled(requests)
    ensures emitted == if bootstrap then [] else Points(requests, known)
  {
    marked, emitted := known, [];
    ghost var found: seq<Emitted> := [];
    var i := 0;
    assert requests[i..] == requests;
    while i < |requests|
      invariant 0 <= i <= |requests|
      invariant marked == known + Settled(requests[..i])
      invariant Points(requests, known) == found + Points(requests[i..], marked)
      invariant emitted == if bootstrap then [] else found
    {
      var r := requests[i];
      PointsNext(requests, i, marked);
      MarksNext(requests, i, known);
      ghost var point, later := PointOf(r, marked), Points(requests[i + 1..], MarkOf(r, marked));
      assert found + (point + later) == (found + point) + later;
      found := found + point;
      if r.settled && r.marker !in marked {
        marked := marked + {r.marker};
        if !bootstrap && r.counters.Total() > 0 {
          emitted := emitted + [Emitted(r.marker, r.counters.Total())];
        }
      }
      i := i + 1;
    }
    assert requests[..i] == requests;
  }

  lemma PointsNext(requests: seq<Request>, i: nat, marked: set<Marker>)
    requires i < |requests|
    ensures Points(requests[i..], marked)
         == PointOf(requests[i], marked) + Points(requests[i + 1..], MarkOf(requests[i], marked))
  {
    assert requests[i..][1..] == requests[i + 1..];
  }

  lemma MarksNext(requests: seq<Request>, i: nat, known: set<Marker>)
    requires i < |requests|
    ensures known + Settled(requests[..i + 1]) == MarkOf(requests[i], known + Settled(requests[..i]))
  {
    assert requests[..i + 1] == requests[..i] + [requests[i]];
  }

  /** A request that is emitted, forgotten with the checkpoint, hidden from the first poll and then found again. */
  lemma LostCheckpointEmitsTwice(r: Request, other: Request)
    requires r.settled && other.settled && r.marker != other.marker && r.counters.Total() > 0
    ensures var polls := [Poll([other], Delivered), Poll([r], Delivered)];
            var point := Emitted(r.marker, r.counters.Total());
            History(polls + [Lose] + [Restart] + polls).1 == [point, point]
  {
    var polls := [Poll([other], Delivered), Poll([r], Delivered)];
    var point := Emitted(r.marker, r.counters.Total());
    TwoPollsEmit(r, other);
    FoldConcat(ActStep(), polls, [Lose], Fresh());
    FoldOne(ActStep(), Lose, History(polls).0);
    LostIsFresh(polls + [Lose], polls);
  }

  lemma TwoPollsEmit(r: Request, other: Request)
    requires r.settled && other.settled && r.marker != other.marker && r.counters.Total() > 0
    ensures History([Poll([other], Delivered), Poll([r], Delivered)]).1 == [Emitted(r.marker, r.counters.Total())]
  {
    var first, second := Poll([other], Delivered), Poll([r], Delivered);
    assert [first] + [second] == [first, second];
    FoldConcat(ActStep(), [first], [second], Fresh());
    FoldOne(ActStep(), first, Fresh());
    assert [r][1..] == [] && [other][1..] == [];
    assert Settled([other]) == {other.marker};
    assert Settled([r]) == {r.marker};
    var c := Collector(Some({other.marker}), Some({other.marker}));
    assert {} + {other.marker} == {other.marker};
    assert Acted(Fresh(), first) == (c, []);
    FoldOne(ActStep(), second, c);
    assert r.marker in {other.marker} + {r.marker} && r.marker !in {other.marker};
    assert Points([r], {other.marker})
        == [Emitted(r.marker, r.counters.Total())] + Points([], {other.marker, r.marker});
  }
}
