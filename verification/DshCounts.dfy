/** Whose counters a DSH point carries: those of the last report its poll saw, which may not be the last of all. */
module DshCounts {
  import opened Prelude
  import opened DshSessions
  import opened DshUsage

  /** A poll lists the requests of a session as these records make them, among those of other sessions. */
  ghost predicate Lists(session: string, bodies: seq<Body>, requests: seq<Request>) {
    var read := Requests(Folded(session, bodies));
    && (forall r :: r in requests && r.marker.session == session ==> r.marker in read && read[r.marker] == r)
    && (forall m :: m in read ==> read[m] in requests)
  }

  /** Every poll of the run read some prefix of the log of the session. */
  ghost predicate PollsLog(session: string, log: seq<Body>, acts: seq<Act>, cuts: seq<nat>) {
    && |cuts| == |acts|
    && forall i | 0 <= i < |acts| && acts[i].Poll? ::
         cuts[i] <= |log| && Lists(session, log[..cuts[i]], acts[i].requests)
  }

  lemma {:induction false} FirstTokensAreSettled(requests: seq<Request>, m: Marker)
    requires FirstTokens(requests, m) > 0
    ensures exists r :: r in requests && r.settled && r.marker == m && r.counters.Total() == FirstTokens(requests, m)
  {
    if requests[0].settled && requests[0].marker == m {
      assert requests[0] in requests;
    } else {
      FirstTokensAreSettled(requests[1..], m);
      var r :| r in requests[1..] && r.settled && r.marker == m && r.counters.Total() == FirstTokens(requests[1..], m);
      assert r in requests;
    }
  }

  /** An emitted count is that of the last report under its marker that the delivering poll had read, and the
      poll had found it settled. */
  lemma EmittedCount(session: string, log: seq<Body>, acts: seq<Act>, cuts: seq<nat>, e: Emitted)
    returns (i: nat, r: nat)
    requires Remembering(acts) && PollsLog(session, log, acts, cuts)
    requires e in History(acts).1 && e.marker.session == session
    ensures i < |acts| && Delivers(acts, i, e) && cuts[i] <= |log|
    ensures IsLastReport(session, log[..cuts[i]], e.marker, r) && e.tokens == log[r].counters.Total()
    ensures e.tokens == log[r].counters.input + log[r].counters.output
                        + log[r].counters.cacheRead + log[r].counters.cacheWrite
    ensures RequestOf(session, log[..cuts[i]], r).settled
  {
    EmittedIffDelivered(acts, e);
    i :| i < |acts| && Delivers(acts, i, e);
    FirstTokensAreSettled(acts[i].requests, e.marker);
    var bodies := log[..cuts[i]];
    var request :| request in acts[i].requests && request.settled && request.marker == e.marker
                   && request.counters.Total() == e.tokens;
    FoldMeetsItsMeaning(session, bodies);
    r :| IsLastReport(session, bodies, e.marker, r)
         && Requests(Folded(session, bodies))[e.marker] == RequestOf(session, bodies, r);
  }

  /** No report under the marker follows the cut. */
  ghost predicate NoneAfter(session: string, log: seq<Body>, cut: nat, m: Marker) {
    forall k: nat | cut <= k < |log| && log[k].Report? :: MarkerAt(session, log, k) != m
  }

  lemma CutMarkers(session: string, log: seq<Body>, cut: nat, k: nat)
    requires k < cut <= |log| && log[k].Report?
    ensures MarkerAt(session, log[..cut], k) == MarkerAt(session, log, k)
  {
    assert log[..cut][..k + 1] == log[..k + 1];
  }

  /** The last report of the whole log is the one before the cut exactly when none follows the cut. */
  lemma LastBeforeCut(session: string, log: seq<Body>, cut: nat, m: Marker, r: nat, last: nat)
    requires cut <= |log| && IsLastReport(session, log[..cut], m, r) && IsLastReport(session, log, m, last)
    ensures last == r <==> NoneAfter(session, log, cut, m)
    ensures r <= last
  {
    CutMarkers(session, log, cut, r);
    if last < cut {
      CutMarkers(session, log, cut, last);
      assert last == r;
    }
  }

  /** So it is the count of the last report of the log if and only if no report under the marker came after that
      poll, or the last of those reports the same total. */
  lemma EmittedCountIsFinalIff(session: string, log: seq<Body>, acts: seq<Act>, cuts: seq<nat>, e: Emitted, last: nat)
    returns (i: nat, r: nat)
    requires Remembering(acts) && PollsLog(session, log, acts, cuts)
    requires e in History(acts).1 && e.marker.session == session
    requires IsLastReport(session, log, e.marker, last)
    ensures i < |acts| && Delivers(acts, i, e) && cuts[i] <= |log| && IsLastReport(session, log[..cuts[i]], e.marker, r)
    ensures e.tokens == log[last].counters.Total()
       <==> NoneAfter(session, log, cuts[i], e.marker) || log[last].counters.Total() == log[r].counters.Total()
  {
    i, r := EmittedCount(session, log, acts, cuts, e);
    LastBeforeCut(session, log, cuts[i], e.marker, r, last);
  }

  // ---- A request that is reopened ----

  /** A request that ended and was emitted, and is then reported again: the later count never arrives. */
  lemma ReopenedCountIsLost(session: string, p: Placement, a: Counters, b: Counters)
    requires a.Total() > 0
    ensures var log := [Report(p, a, 0, None, true), End, Report(p, b, 1, None, true)];
            var m := Marker(session, p, 0);
            var acts := [Poll([], Delivered), Poll([RequestOf(session, log[..2], 0)], Delivered),
                         Poll([RequestOf(session, log, 2)], Delivered)];
            && PollsLog(session, log, acts, [0, 2, 3]) && Remembering(acts)
            && IsLastReport(session, log, m, 2)
            && History(acts).1 == [Emitted(m, a.Total())]
  {
    var log := [Report(p, a, 0, None, true), End, Report(p, b, 1, None, true)];
    var first, second := RequestOf(session, log[..2], 0), RequestOf(session, log, 2);
    var acts := [Poll([], Delivered), Poll([first], Delivered), Poll([second], Delivered)];
    LogMeans(session, p, a, b);
    KeptCheckpointsAreRemembered(acts);
    ReopenedPolls(first, second);
  }

  lemma LogMeans(session: string, p: Placement, a: Counters, b: Counters)
    ensures var log := [Report(p, a, 0, None, true), End, Report(p, b, 1, None, true)];
            var m := Marker(session, p, 0);
            && Lists(session, log[..0], []) && Lists(session, log[..2], [RequestOf(session, log[..2], 0)])
            && Lists(session, log[..3], [RequestOf(session, log, 2)])
            && RequestOf(session, log[..2], 0) == Request(m, 0, "unknown", a, true)
            && RequestOf(session, log, 2) == Request(m, 1, "unknown", b, true)
            && IsLastReport(session, log, m, 2)
  {
    var log := [Report(p, a, 0, None, true), End, Report(p, b, 1, None, true)];
    var m := Marker(session, p, 0);
    var x, y := Request(m, 0, "unknown", a, true), Request(m, 1, "unknown", b, true);
    assert log[..3] == log && log[..3][..2] == log[..2] && log[..2][..1] == log[..1] && log[..1][..0] == [];
    assert Folded(session, log[..1]) == State(map[], Some(x), Some(p), 0, "unknown");
    assert Folded(session, log[..2]) == State(map[m := x], None, Some(p), 0, "unknown");
    assert Folded(session, log) == State(map[m := x], Some(y), Some(p), 0, "unknown");
    assert AttemptOf(log[..1]) == 0 && AttemptOf(log[..2]) == 0 && AttemptOf(log) == 0;
    assert RouteOf(log[..0]) == "unknown" && RouteOf(log[..2]) == "unknown";
    assert log[..2][..0] == [];
  }

  /** Polls of nothing, of a settled request and of another one under its marker. */
  lemma ReopenedPolls(first: Request, second: Request)
    requires first.settled && second.settled && first.marker == second.marker && first.counters.Total() > 0
    ensures History([Poll([], Delivered), Poll([first], Delivered), Poll([second], Delivered)]).1
         == [Emitted(first.marker, first.counters.Total())]
  {
    var acts := [Poll([], Delivered), Poll([first], Delivered), Poll([second], Delivered)];
    var m, point := first.marker, Emitted(first.marker, first.counters.Total());
    var none: set<Marker> := {};
    assert acts[..2][..1] == acts[..1] && acts[..1][..0] == [] && History([]) == (Fresh(), []);
    assert Settled([]) == none && Settled([first]) == {m} && Settled([second]) == {m};
    HistoryNext(acts[..1]);
    assert Known(Fresh()) == none && none + none == none;
    assert Acted(Fresh(), acts[0]) == (Collector(Some(none), Some(none)), []);
    HistoryNext(acts[..2]);
    OnePoint(first);
    assert none + {m} == {m} && m !in none;
    assert Acted(Collector(Some(none), Some(none)), acts[1]) == (Collector(Some({m}), Some({m})), [point]);
    HistoryNext(acts);
    NothingNewNoPoints([second], {m});
    assert {m} + {m} == {m};
  }

  lemma OnePoint(r: Request)
    requires r.settled && r.counters.Total() > 0
    ensures Points([r], {}) == [Emitted(r.marker, r.counters.Total())]
  {
    assert [r][1..] == [] && Points([], {r.marker}) == [];
    assert Points([r], {}) == PointOf(r, {}) + Points([], {r.marker});
  }
}
