/**
 * DeepSeek Harness sessions: folding a log of streaming and final usage reports into one request per
 * attempt, and emitting each settled request once across polls and restarts.
 */
module DshSessions {
  import opened Prelude

  datatype Placement = Placement(turn: int, step: int)

  /** The irreversible digest of session, placement and attempt. */
  datatype Marker = Marker(session: string, placement: Placement, attempt: nat)

  datatype Counters = Counters(input: nat, output: nat, cacheRead: nat, cacheWrite: nat) {
    function Total(): nat {
      input + output + cacheRead + cacheWrite
    }
  }

  /** What a record means to the fold. A malformed report is one the reader raises an error on. */
  datatype Body =
    | Inert
    | Route(model: Option<string>)
    | Retry
    | Report(placement: Placement, counters: Counters, epoch: int, source: Option<string>, final: bool)
    | Malformed
    | End

  datatype Record = Packed | Unreadable | Row(number: int, body: Body)

  datatype Request = Request(marker: Marker, epoch: int, model: string, counters: Counters, settled: bool)

  datatype State = State(samples: map<Marker, Request>, pending: Option<Request>, placement: Option<Placement>,
                         attempt: nat, route: string)

  function Start(): State {
    State(map[], None, None, 0, "unknown")
  }

  function Close(st: State): State {
    if st.pending.None? then st
    else st.(samples := st.samples[st.pending.value.marker := st.pending.value.(settled := true)], pending := None)
  }

  /** The fold over one well-formed record. */
  function Step(session: string, st: State, b: Body): State {
    match b
    case Route(model) => st.(route := model.GetOr(st.route))
    case Retry => Close(st).(attempt := st.attempt + 1)
    case Report(placement, counters, epoch, source, final) =>
      var moved := if st.placement == Some(placement) then st
                   else Close(st).(placement := Some(placement), attempt := 0);
      moved.(pending := Some(Request(Marker(session, placement, moved.attempt), epoch, source.GetOr(st.route),
                                     counters, final)))
    case End => Close(st)
    case _ => st
  }

  function Folded(session: string, bodies: seq<Body>): State {
    if bodies == [] then Start()
    else Step(session, Folded(session, bodies[..|bodies| - 1]), bodies[|bodies| - 1])
  }

  /** The requests with a still open one among them, as reported. */
  function Requests(st: State): map<Marker, Request> {
    if st.pending.Some? then st.samples[st.pending.value.marker := st.pending.value] else st.samples
  }

  // ---- What the requests mean ----

  /** The placement of the last report. */
  function PlacementOf(bodies: seq<Body>): Option<Placement> {
    if bodies == [] then None
    else var last := bodies[|bodies| - 1];
         if last.Report? then Some(last.placement) else PlacementOf(bodies[..|bodies| - 1])
  }

  /** Retries since reports moved to the present placement. */
  function AttemptOf(bodies: seq<Body>): nat {
    if bodies == [] then 0
    else var last, before := bodies[|bodies| - 1], bodies[..|bodies| - 1];
         if last.Retry? then AttemptOf(before) + 1
         else if last.Report? && PlacementOf(before) != Some(last.placement) then 0
         else AttemptOf(before)
  }

  function RouteOf(bodies: seq<Body>): string {
    if bodies == [] then "unknown"
    else var last := bodies[|bodies| - 1];
         if last.Route? && last.model.Some? then last.model.value else RouteOf(bodies[..|bodies| - 1])
  }

  function MarkerAt(session: string, bodies: seq<Body>, i: nat): Marker
    requires i < |bodies| && bodies[i].Report?
  {
    Marker(session, bodies[i].placement, AttemptOf(bodies[..i + 1]))
  }

  /** Reports, retries and ends all close what was open before them. */
  predicate Closes(b: Body) {
    b.Report? || b.Retry? || b.End?
  }

  predicate IsLastReport(session: string, bodies: seq<Body>, m: Marker, i: nat) {
    && i < |bodies| && bodies[i].Report? && MarkerAt(session, bodies, i) == m
    && forall k :: i < k < |bodies| && bodies[k].Report? ==> MarkerAt(session, bodies, k) != m
  }

  predicate ClosedAfter(bodies: seq<Body>, i: nat) {
    exists k :: i < k < |bodies| && Closes(bodies[k])
  }

  /** The last report of an attempt wins; it is settled when final or when anything closing followed. */
  function RequestOf(session: string, bodies: seq<Body>, i: nat): Request
    requires i < |bodies| && bodies[i].Report?
  {
    var r := bodies[i];
    Request(MarkerAt(session, bodies, i), r.epoch, r.source.GetOr(RouteOf(bodies[..i])), r.counters,
            r.final || ClosedAfter(bodies, i))
  }

  /** One request per attempt reported, made of its last report. */
  ghost predicate Meets(session: string, requests: map<Marker, Request>, bodies: seq<Body>) {
    && (forall i :: 0 <= i < |bodies| && bodies[i].Report? ==> MarkerAt(session, bodies, i) in requests)
    && (forall m :: m in requests ==> exists i: nat ::
          IsLastReport(session, bodies, m, i) && requests[m] == RequestOf(session, bodies, i))
  }

  // ---- The fold refines it ----

  lemma {:induction false} FoldFollowsPlacements(session: string, bodies: seq<Body>)
    ensures var st := Folded(session, bodies);
            st.placement == PlacementOf(bodies) && st.attempt == AttemptOf(bodies) && st.route == RouteOf(bodies)
  {
    if bodies != [] {
      FoldFollowsPlacements(session, bodies[..|bodies| - 1]);
    }
  }

  /** The open request is that of a report which nothing closing has followed. */
  ghost predicate OpenAt(session: string, r: Request, bodies: seq<Body>, i: nat) {
    && i < |bodies| && bodies[i].Report? && !ClosedAfter(bodies, i)
    && r == RequestOf(session, bodies, i)
    && PlacementOf(bodies) == Some(bodies[i].placement)
    && AttemptOf(bodies) == AttemptOf(bodies[..i + 1])
  }

  ghost predicate OpenIsLast(session: string, st: State, bodies: seq<Body>) {
    match st.pending
    case Some(r) => exists i: nat :: OpenAt(session, r, bodies, i)
    case None => forall i :: 0 <= i < |bodies| && bodies[i].Report? ==> ClosedAfter(bodies, i)
  }

  lemma PrefixMarkers(session: string, bodies: seq<Body>, b: Body, i: nat)
    requires i < |bodies| && bodies[i].Report?
    ensures MarkerAt(session, bodies + [b], i) == MarkerAt(session, bodies, i)
    ensures ClosedAfter(bodies + [b], i) <==> ClosedAfter(bodies, i) || Closes(b)
    ensures RequestOf(session, bodies + [b], i)
         == RequestOf(session, bodies, i).(settled := bodies[i].final || ClosedAfter(bodies, i) || Closes(b))
  {
    var more := bodies + [b];
    assert more[..i + 1] == bodies[..i + 1] && more[..i] == bodies[..i];
    assert more[|bodies|] == b;
    if ClosedAfter(bodies, i) {
      var k :| i < k < |bodies| && Closes(bodies[k]);
      assert more[k] == bodies[k];
    }
    if ClosedAfter(more, i) {
      var k :| i < k < |more| && Closes(more[k]);
      assert k < |bodies| ==> more[k] == bodies[k];
    }
  }

  lemma {:induction false} OpenIsTheLast(session: string, bodies: seq<Body>)
    ensures OpenIsLast(session, Folded(session, bodies), bodies)
  {
    if bodies != [] {
      var n := |bodies| - 1;
      var less, b := bodies[..n], bodies[n];
      assert bodies == less + [b];
      OpenIsTheLast(session, less);
      FoldFollowsPlacements(session, less);
      if b.Report? {
        FoldFollowsPlacements(session, bodies);
        assert bodies[..n + 1] == bodies;
        assert OpenAt(session, Folded(session, bodies).pending.value, bodies, n);
      } else if Closes(b) {
        ClosingClosesAll(less, b);
      } else {
        StaysOpen(session, Folded(session, less), less, b);
      }
    }
  }

  lemma ClosingClosesAll(less: seq<Body>, b: Body)
    requires Closes(b)
    ensures forall i :: 0 <= i < |less| ==> ClosedAfter(less + [b], i)
  {
    assert (less + [b])[|less|] == b;
  }

  lemma StaysOpen(session: string, st: State, less: seq<Body>, b: Body)
    requires !Closes(b) && OpenIsLast(session, st, less)
    ensures OpenIsLast(session, st, less + [b])
  {
    var bodies := less + [b];
    assert bodies[..|less|] == less;
    forall i | 0 <= i < |less| && less[i].Report?
      ensures ClosedAfter(bodies, i) <==> ClosedAfter(less, i)
    {
      PrefixMarkers(session, less, b, i);
    }
    if st.pending.Some? {
      var i: nat :| OpenAt(session, st.pending.value, less, i);
      PrefixMarkers(session, less, b, i);
      assert bodies[..i + 1] == less[..i + 1];
      assert OpenAt(session, st.pending.value, bodies, i);
    }
  }

  /** The loop refines the declarative reading: one request per attempt, its last report winning. */
  lemma {:induction false} FoldMeetsItsMeaning(session: string, bodies: seq<Body>)
    ensures Meets(session, Requests(Folded(session, bodies)), bodies)
  {
    if bodies == [] {
    } else {
      var n := |bodies| - 1;
      var less, b := bodies[..n], bodies[n];
      assert bodies == less + [b];
      FoldMeetsItsMeaning(session, less);
      StepMeetsMeaning(session, less, b);
    }
  }

  /** A record settles what is open if it closes, and a report also puts its own request. */
  ghost predicate Follows(session: string, less: seq<Body>, b: Body, before: map<Marker, Request>,
                          after: map<Marker, Request>) {
    var own := if b.Report? then {MarkerAt(session, less + [b], |less|)} else {};
    && after.Keys == before.Keys + own
    && (forall m :: m in before && m !in own ==> after[m] == before[m].(settled := before[m].settled || Closes(b)))
    && (b.Report? ==> after[MarkerAt(session, less + [b], |less|)] == RequestOf(session, less + [b], |less|))
  }

  lemma FollowingMeets(session: string, less: seq<Body>, b: Body, before: map<Marker, Request>,
                       after: map<Marker, Request>)
    requires Meets(session, before, less) && Follows(session, less, b, before, after)
    ensures Meets(session, after, less + [b])
  {
    var bodies := less + [b];
    forall i | 0 <= i < |bodies| && bodies[i].Report?
      ensures MarkerAt(session, bodies, i) in after
    {
      ReportIsListed(session, less, b, before, after, i);
    }
    forall m | m in after
      ensures exists i: nat :: IsLastReport(session, bodies, m, i) && after[m] == RequestOf(session, bodies, i)
    {
      var i := LastReportAfter(session, less, b, before, after, m);
    }
  }

  lemma ReportIsListed(session: string, less: seq<Body>, b: Body, before: map<Marker, Request>,
                       after: map<Marker, Request>, i: nat)
    requires Meets(session, before, less) && Follows(session, less, b, before, after)
    requires i < |less + [b]| && (less + [b])[i].Report?
    ensures MarkerAt(session, less + [b], i) in after
  {
    if i < |less| {
      PrefixMarkers(session, less, b, i);
    }
  }

  lemma LastReportAfter(session: string, less: seq<Body>, b: Body, before: map<Marker, Request>,
                        after: map<Marker, Request>, m: Marker)
    returns (i: nat)
    requires Meets(session, before, less) && Follows(session, less, b, before, after) && m in after
    ensures IsLastReport(session, less + [b], m, i) && after[m] == RequestOf(session, less + [b], i)
  {
    if b.Report? && m == MarkerAt(session, less + [b], |less|) {
      i := |less|;
    } else {
      i :| IsLastReport(session, less, m, i) && before[m] == RequestOf(session, less, i);
      LastReportStays(session, less, b, m, i);
    }
  }

  lemma StepMeetsMeaning(session: string, less: seq<Body>, b: Body)
    requires Meets(session, Requests(Folded(session, less)), less)
    ensures Meets(session, Requests(Folded(session, less + [b])), less + [b])
  {
    RequestsAfter(session, less, b);
    FollowingMeets(session, less, b, Requests(Folded(session, less)), Requests(Folded(session, less + [b])));
  }

  lemma LastReportStays(session: string, less: seq<Body>, b: Body, m: Marker, i: nat)
    requires IsLastReport(session, less, m, i)
    requires b.Report? ==> MarkerAt(session, less + [b], |less|) != m
    ensures IsLastReport(session, less + [b], m, i)
    ensures RequestOf(session, less + [b], i)
         == RequestOf(session, less, i).(settled := RequestOf(session, less, i).settled || Closes(b))
  {
    PrefixMarkers(session, less, b, i);
    forall k | i < k < |less + [b]| && (less + [b])[k].Report?
      ensures MarkerAt(session, less + [b], k) != m
    {
      if k < |less| {
        PrefixMarkers(session, less, b, k);
      }
    }
  }

  lemma RequestsAfter(session: string, less: seq<Body>, b: Body)
    requires Meets(session, Requests(Folded(session, less)), less)
    ensures Follows(session, less, b, Requests(Folded(session, less)), Requests(Folded(session, less + [b])))
  {
    if b.Report? {
      AllOthersAreSettled(session, less);
      ReportMarker(session, less, b);
      ReportReplaces(Folded(session, less), Folded(session, less + [b]));
    } else {
      OthersFollow(session, less, b);
    }
  }

  lemma OthersFollow(session: string, less: seq<Body>, b: Body)
    requires Meets(session, Requests(Folded(session, less)), less) && !b.Report?
    ensures Follows(session, less, b, Requests(Folded(session, less)), Requests(Folded(session, less + [b])))
  {
    AllOthersAreSettled(session, less);
    assert (less + [b])[..|less|] == less;
    OpenIsReported(session, less);
  }

  lemma OpenIsReported(session: string, bodies: seq<Body>)
    ensures var st := Folded(session, bodies);
            st.pending.Some? ==> Requests(st)[st.pending.value.marker] == st.pending.value
  {
  }

  lemma ReportReplaces(st: State, next: State)
    requires next.pending.Some?
    requires next.samples == st.samples || next.samples == Close(st).samples
    requires st.pending.Some? ==>
               (next.samples == st.samples && st.pending.value.marker == next.pending.value.marker)
               || (next.samples == Close(st).samples && st.pending.value.marker != next.pending.value.marker)
    requires forall m :: m in Requests(st) && (st.pending.None? || st.pending.value.marker != m) ==>
               Requests(st)[m].settled
    ensures var own := next.pending.value.marker;
            && Requests(next).Keys == Requests(st).Keys + {own}
            && Requests(next)[own] == next.pending.value
            && forall m :: m in Requests(st) && m != own ==> Requests(next)[m] == Requests(st)[m].(settled := true)
  {
  }

  /** A report replaces the open request of the same attempt, and only of that. */
  lemma ReportMarker(session: string, less: seq<Body>, b: Body)
    requires b.Report?
    ensures var st, next := Folded(session, less), Folded(session, less + [b]);
            && next.pending == Some(RequestOf(session, less + [b], |less|))
            && next.samples == (if st.placement == Some(b.placement) then st.samples else Close(st).samples)
            && (st.placement == Some(b.placement) && st.pending.Some?
                ==> st.pending.value.marker == next.pending.value.marker)
            && (st.placement != Some(b.placement) && st.pending.Some?
                ==> st.pending.value.marker != next.pending.value.marker)
  {
    var bodies := less + [b];
    assert bodies[..|less|] == less && bodies[..|less| + 1] == bodies;
    FoldFollowsPlacements(session, less);
    FoldFollowsPlacements(session, bodies);
    OpenIsTheLast(session, less);
    var st := Folded(session, less);
    if st.pending.Some? {
      var i: nat :| OpenAt(session, st.pending.value, less, i);
    }
    assert !ClosedAfter(bodies, |less|);
  }

  lemma AllOthersAreSettled(session: string, bodies: seq<Body>)
    requires Meets(session, Requests(Folded(session, bodies)), bodies)
    ensures var st := Folded(session, bodies);
            forall m :: m in Requests(st) && (st.pending.None? || st.pending.value.marker != m) ==>
              Requests(st)[m].settled
  {
    var st := Folded(session, bodies);
    forall m | m in Requests(st) && (st.pending.None? || st.pending.value.marker != m)
      ensures Requests(st)[m].settled
    {
      OthersAreSettled(session, bodies, m);
    }
  }

  lemma OthersAreSettled(session: string, bodies: seq<Body>, m: Marker)
    requires Meets(session, Requests(Folded(session, bodies)), bodies)
    requires var st := Folded(session, bodies);
             m in Requests(st) && (st.pending.None? || st.pending.value.marker != m)
    ensures Requests(Folded(session, bodies))[m].settled
  {
    var st := Folded(session, bodies);
    OpenIsTheLast(session, bodies);
    var i: nat :| IsLastReport(session, bodies, m, i) && Requests(st)[m] == RequestOf(session, bodies, i);
    if st.pending.Some? {
      var k: nat :| OpenAt(session, st.pending.value, bodies, k);
      assert k != i;
      assert Closes(bodies[i]) && Closes(bodies[k]);
    }
  }

  // ---- Reading a log ----

  const MAX_COUNTER: int := 0x1F_FFFF_FFFF_FFFF

  function Prepended(b: Body, rest: Option<seq<Body>>): Option<seq<Body>> {
    if rest.None? then None else Some([b] + rest.value)
  }

  function Joined(done: seq<Body>, rest: Option<seq<Body>>): Option<seq<Body>> {
    if rest.None? then None else Some(done + rest.value)
  }

  /** The records that count: unpacked, in rising order, past the inherited prefix. None is a reading error. */
  function Effective(records: seq<Record>, inherited: int, last: int): Option<seq<Body>> {
    if records == [] then Some([])
    else match records[0]
      case Packed => Effective(records[1..], inherited, last)
      case Unreadable => None
      case Row(number, body) =>
        if !(0 <= number <= MAX_COUNTER) || number <= last then None
        else if number < inherited then Effective(records[1..], inherited, number)
        else if body.Malformed? then None
        else Prepended(body, Effective(records[1..], inherited, number))
  }

  /** Every record is packed or a row; rows are numbered upwards within the exact integers, and none past the
      inherited prefix is malformed. */
  predicate Sound(records: seq<Record>, inherited: int, last: int) {
    && (forall i | 0 <= i < |records| :: records[i] != Unreadable)
    && (forall i | 0 <= i < |records| && records[i].Row? ::
          && 0 <= records[i].number <= 9007199254740991 && last < records[i].number
          && (records[i].number >= inherited ==> records[i].body != Malformed))
    && (forall i, k | 0 <= i < k < |records| && records[i].Row? && records[k].Row? ::
          records[i].number < records[k].number)
  }

  /** The rows past the inherited prefix, in order. */
  function OwnBodies(records: seq<Record>, inherited: int): seq<Body> {
    if records == [] then []
    else (if records[0].Row? && records[0].number >= inherited then [records[0].body] else [])
         + OwnBodies(records[1..], inherited)
  }

  function LastNumber(records: seq<Record>): int {
    if records == [] then -1
    else var last := records[|records| - 1];
         if last.Row? then last.number else LastNumber(records[..|records| - 1])
  }

  /** A sound log counts all of its own rows; any other is a reading error. */
  lemma {:induction false} EffectiveIffSound(records: seq<Record>, inherited: int, last: int)
    ensures Effective(records, inherited, last)
         == if Sound(records, inherited, last) then Some(OwnBodies(records, inherited)) else None
    decreases |records|
  {
    if records != [] {
      var rest := records[1..];
      assert forall i | 0 <= i < |rest| :: rest[i] == records[i + 1];
      var first := records[0];
      var next := if first.Row? then first.number else last;
      EffectiveIffSound(rest, inherited, next);
      SoundFirst(records, inherited, last);
      assert [] + OwnBodies(rest, inherited) == OwnBodies(rest, inherited);
    }
  }

  lemma SoundFirst(records: seq<Record>, inherited: int, last: int)
    requires records != []
    ensures var first := records[0];
            Sound(records, inherited, last)
            <==> match first
                 case Packed => Sound(records[1..], inherited, last)
                 case Unreadable => false
                 case Row(number, body) =>
                   && 0 <= number <= 9007199254740991 && last < number && (number >= inherited ==> body != Malformed)
                   && Sound(records[1..], inherited, number)
  {
    var rest := records[1..];
    assert forall i | 0 < i < |records| :: records[i] == rest[i - 1];
    if records[0].Row? && Sound(rest, inherited, records[0].number) {
      assert forall i | 0 <= i < |rest| && rest[i].Row? :: records[0].number < rest[i].number;
    }
    if Sound(records, inherited, last) && records[0].Row? {
      forall i | 0 <= i < |rest| && rest[i].Row? ensures records[0].number < rest[i].number {
        assert records[i + 1] == rest[i];
      }
    }
  }

  /** One pass over the log; a session is returned whole or not at all. */
  method ReadSession(session: string, inherited: int, records: seq<Record>)
    returns (requests: Option<map<Marker, Request>>, sequence: int)
    ensures var bodies := Effective(records, inherited, -1);
            if bodies.None? then requests == None else requests == Some(Requests(Folded(session, bodies.value)))
    ensures requests.Some? <==> Sound(records, inherited, -1)
    ensures requests.Some? ==> requests == Some(Requests(Folded(session, OwnBodies(records, inherited))))
                               && sequence == LastNumber(records)
  {
    EffectiveIffSound(records, inherited, -1);
    var st := Start();
    ghost var done: seq<Body> := [];
    sequence := -1;
    var i := 0;
    assert records[i..] == records;
    assert forall rest: seq<Body> :: [] + rest == rest;
    while i < |records|
      invariant 0 <= i <= |records|
      invariant st == Folded(session, done)
      invariant var rest := Effective(records[i..], inherited, sequence);
                Effective(records, inherited, -1) == Joined(done, rest)
      invariant sequence == LastNumber(records[..i])
    {
      var record := records[i];
      assert records[i..][0] == record && records[i..][1..] == records[i + 1..];
      assert forall b: Body, rest: seq<Body> :: done + ([b] + rest) == (done + [b]) + rest;
      assert records[..i + 1][..i] == records[..i];
      i := i + 1;
      match record
      case Packed =>
      case Unreadable => return None, sequence;
      case Row(number, body) =>
        if !(0 <= number <= MAX_COUNTER) || number <= sequence {
          return None, sequence;
        }
        sequence := number;
        if number >= inherited {
          if body.Malformed? {
            return None, sequence;
          }
          assert (done + [body])[..|done|] == done;
          match body {
            case Route(model) =>
              if model.Some? {
                st := st.(route := model.value);
              }
            case Retry =>
              st := Close(st);
              st := st.(attempt := st.attempt + 1);
            case Report(placement, counters, epoch, source, final) =>
              if st.placement != Some(placement) {
                st := Close(st);
                st := st.(placement := Some(placement), attempt := 0);
              }
              st := st.(pending := Some(Request(Marker(session, placement, st.attempt), epoch, source.GetOr(st.route),
                                                counters, final)));
            case End => st := Close(st);
            case _ =>
          }
          done := done + [body];
        }
    }
    assert done + [] == done && records[..i] == records;
    if st.pending.Some? {
      return Some(st.samples[st.pending.value.marker := st.pending.value]), sequence;
    }
    return Some(st.samples), sequence;
  }
}
