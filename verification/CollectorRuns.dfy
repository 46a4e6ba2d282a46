/** The collector registry: what it publishes for a collector that fails now and then. */
module CollectorRuns {
  import opened Prelude
  import opened Folding
  import opened StatusStability

  /** What calling a collector leads to: an exception, or a collection with its own status. */
  datatype Outcome<T> =
    | Raised(kind: string, sampledAt: Option<string>)
    | Returned(status: string, points: seq<T>, snapshot: Option<string>, checkedAt: Option<string>)
  {
    predicate Failed() {
      Raised? || status == "error"
    }
  }

  datatype Publication<T> = Publication(status: string, points: seq<T>, snapshot: Option<string>,
                                        errorKind: Option<string>, checkedAt: Option<string>)

  /** One collector's availability window and its last available run, kept without its points. */
  datatype Slot<T> = Slot(availability: Stability<string>, last: Option<Publication<T>>)

  function Availability(): Windows<string> {
    Windows(map["available" := 0, "error" := 1], 3, 2)
  }

  function FreshSlot<T>(): Slot<T> {
    Slot(Stability("available", None, 0), None)
  }

  function Previous<T>(last: Option<Publication<T>>, checkedAt: Option<string>): Publication<T> {
    if last.Some? then Publication(last.value.status, [], last.value.snapshot, None, last.value.checkedAt)
    else Publication("waiting", [], None, None, checkedAt)
  }

  function Attempt<T>(o: Outcome<T>): Option<string> {
    if o.Raised? then o.sampledAt else o.checkedAt
  }

  function Collected<T>(slot: Slot<T>, o: Outcome<T>): (Slot<T>, Publication<T>) {
    var availability := Observed(Availability(), slot.availability, if o.Failed() then "error" else "available", false);
    if availability.status == "error" then
      (slot.(availability := availability),
       Publication("error", [], None, if o.Raised? then Some(o.kind) else None, Attempt(o)))
    else if o.Failed() then
      (slot.(availability := availability), Previous(slot.last, Attempt(o)))
    else
      (Slot(availability, Some(Publication(o.status, [], o.snapshot, None, o.checkedAt))),
       Publication(o.status, o.points, o.snapshot, None, o.checkedAt))
  }

  // ---- Any run of one collector ----

  function CollectStep<T>(): (Slot<T>, Outcome<T>) -> Slot<T> {
    (slot: Slot<T>, o: Outcome<T>) => Collected(slot, o).0
  }

  function SlotAfter<T>(os: seq<Outcome<T>>): Slot<T> {
    Accumulate(CollectStep(), os, FreshSlot())
  }

  /** The publication for the last outcome of a run. */
  function Published<T>(os: seq<Outcome<T>>): Publication<T>
    requires os != []
  {
    Collected(SlotAfter(os[..|os| - 1]), os[|os| - 1]).1
  }

  function Candidates<T>(os: seq<Outcome<T>>): (cs: seq<string>)
    ensures |cs| == |os| && forall i :: 0 <= i < |os| ==> cs[i] == if os[i].Failed() then "error" else "available"
  {
    seq(|os|, i requires 0 <= i < |os| => if os[i].Failed() then "error" else "available")
  }

  lemma {:induction false} SlotFollowsTheWindow<T>(os: seq<Outcome<T>>)
    ensures SlotAfter(os).availability == After(Availability(), "available", Candidates(os))
    ensures SlotAfter(os).last.Some? ==> SlotAfter(os).last.value.status != "error"
  {
    if os == [] {
    } else {
      var n := |os| - 1;
      var less, o := os[..n], os[n];
      assert os == less + [o];
      SlotFollowsTheWindow(less);
      AccumulateConcat(CollectStep(), less, [o], FreshSlot());
      AccumulateOne(CollectStep(), o, SlotAfter(less));
      var c := if o.Failed() then "error" else "available";
      assert Candidates(os) == Candidates(less) + [c];
      AfterOneMore(Availability(), "available", Candidates(less), c);
    }
  }

  /** A block of three failures has not been followed by two successes in a row. */
  ghost predicate Down<T>(os: seq<Outcome<T>>) {
    Tripped(Candidates(os), "available", "error", 3, 2)
  }

  /** The error published for an outcome: the kind of an exception, no points and no snapshot, and when it was tried. */
  function ErrorOf<T>(o: Outcome<T>): Publication<T> {
    match o
    case Raised(kind, sampledAt) => Publication("error", [], None, Some(kind), sampledAt)
    case Returned(_, _, _, checkedAt) => Publication("error", [], None, None, checkedAt)
  }

  /** An error is published exactly while the collector counts as down. */
  lemma ErrorIsPublishedWhileDown<T>(os: seq<Outcome<T>>)
    requires os != []
    ensures Published(os).status == "error" <==> Down(os)
    ensures Down(os) ==> Published(os) == ErrorOf(os[|os| - 1])
  {
    var less := os[..|os| - 1];
    SlotFollowsTheWindow(less);
    SlotFollowsTheWindow(os);
    TwoStatusHysteresis(Availability(), "available", "error", Candidates(os));
    assert os == less + [os[|os| - 1]];
    AccumulateConcat(CollectStep(), less, [os[|os| - 1]], FreshSlot());
    AccumulateOne(CollectStep(), os[|os| - 1], SlotAfter(less));
  }

  /** Points reach the metrics exactly when the collector succeeded and does not count as down. */
  lemma PointsAreLostWhileDown<T>(os: seq<Outcome<T>>)
    requires os != []
    ensures var o := os[|os| - 1];
            Published(os).points == if o.Failed() || Down(os) then [] else o.points
  {
    ErrorIsPublishedWhileDown(os);
  }

  /** A success that was published as such. */
  ghost predicate Shown<T>(os: seq<Outcome<T>>, i: int)
    requires 0 <= i < |os|
  {
    !os[i].Failed() && !Down(os[..i + 1])
  }

  function Remembered<T>(o: Outcome<T>): Publication<T>
    requires o.Returned?
  {
    Publication(o.status, [], o.snapshot, None, o.checkedAt)
  }

  ghost predicate LastShown<T>(os: seq<Outcome<T>>, i: int) {
    0 <= i < |os| && Shown(os, i) && forall k :: i < k < |os| ==> !Shown(os, k)
  }

  lemma SlotStep<T>(less: seq<Outcome<T>>, o: Outcome<T>)
    ensures SlotAfter(less + [o]).last
         == if !o.Failed() && !Down(less + [o]) then Some(Remembered(o)) else SlotAfter(less).last
  {
    AccumulateConcat(CollectStep(), less, [o], FreshSlot());
    AccumulateOne(CollectStep(), o, SlotAfter(less));
    assert (less + [o])[..|less|] == less;
    SlotFollowsTheWindow(less + [o]);
    TwoStatusHysteresis(Availability(), "available", "error", Candidates(less + [o]));
  }

  /** The slot remembers the last success published as such, if there is one. */
  lemma {:induction false} SlotRemembersLastSuccess<T>(os: seq<Outcome<T>>)
    ensures var last := SlotAfter(os).last;
            if last.None? then forall i :: 0 <= i < |os| ==> !Shown(os, i)
            else exists i :: LastShown(os, i) && last.value == Remembered(os[i])
  {
    if os != [] {
      var n := |os| - 1;
      var less := os[..n];
      assert os == less + [os[n]] && os[..n + 1] == os;
      SlotRemembersLastSuccess(less);
      SlotStep(less, os[n]);
      forall i | 0 <= i < n
        ensures Shown(os, i) == Shown(less, i)
      {
        assert os[..i + 1] == less[..i + 1];
      }
      if Shown(os, n) {
        assert LastShown(os, n);
      } else if SlotAfter(less).last.Some? {
        var i :| LastShown(less, i) && SlotAfter(less).last.value == Remembered(less[i]);
        assert LastShown(os, i);
      }
    }
  }

  /** A failure that does not count as down repeats the last published success, without its points. */
  lemma FailuresRepeatTheLastSuccess<T>(os: seq<Outcome<T>>)
    requires os != [] && os[|os| - 1].Failed() && !Down(os)
    ensures Published(os) == Previous(SlotAfter(os[..|os| - 1]).last, Attempt(os[|os| - 1]))
  {
    ErrorIsPublishedWhileDown(os);
  }

  function RunsOf<T>(slots: map<string, Slot<T>>, ids: seq<string>, outcomes: map<string, Outcome<T>>)
    : (runs: seq<Publication<T>>)
    requires forall id :: id in ids ==> id in slots && id in outcomes
    ensures |runs| == |ids| && forall i :: 0 <= i < |ids| ==> runs[i] == Collected(slots[ids[i]], outcomes[ids[i]]).1
  {
    seq(|ids|, i requires 0 <= i < |ids| => Collected(slots[ids[i]], outcomes[ids[i]]).1)
  }

  function SlotsAfter<T>(slots: map<string, Slot<T>>, ids: seq<string>, outcomes: map<string, Outcome<T>>)
    : map<string, Slot<T>>
    requires forall id :: id in ids ==> id in outcomes
  {
    map id | id in slots :: if id in ids then Collected(slots[id], outcomes[id]).0 else slots[id]
  }

  lemma RegistryStep<T>(slots: map<string, Slot<T>>, order: seq<string>, i: nat, outcomes: map<string, Outcome<T>>)
    requires i < |order| && forall id :: id in order ==> id in slots && id in outcomes
    requires forall j, k :: 0 <= j < k < |order| ==> order[j] != order[k]
    ensures order[i] !in order[..i]
    ensures RunsOf(slots, order[..i + 1], outcomes)
         == RunsOf(slots, order[..i], outcomes) + [Collected(slots[order[i]], outcomes[order[i]]).1]
    ensures SlotsAfter(slots, order[..i + 1], outcomes)
         == SlotsAfter(slots, order[..i], outcomes)[order[i] := Collected(slots[order[i]], outcomes[order[i]]).0]
  {
    assert order[..i + 1] == order[..i] + [order[i]];
  }

  class CollectorRegistry<T> {
    var order: seq<string>
    var slots: map<string, Slot<T>>

    ghost predicate Valid()
      reads this
    {
      && (forall id :: id in order <==> id in slots)
      && forall i, j :: 0 <= i < j < |order| ==> order[i] != order[j]
    }

    constructor ()
      ensures Valid() && order == []
    {
      order, slots := [], map[];
    }

    /** Refuses an incomplete capability and a second collector of the same id. */
    method Register(id: string, source: string, resource: string) returns (accepted: bool)
      requires Valid()
      modifies this
      ensures Valid()
      ensures accepted <==> id != "" && source != "" && resource != "" && id !in old(slots)
      ensures accepted ==> order == old(order) + [id] && slots == old(slots)[id := FreshSlot()]
      ensures !accepted ==> order == old(order) && slots == old(slots)
    {
      if id == "" || source == "" || resource == "" || id in slots {
        return false;
      }
      order, slots := order + [id], slots[id := FreshSlot()];
      return true;
    }

    /** Every registered collector runs once, whatever happens to the others. */
    method Collect(outcomes: map<string, Outcome<T>>) returns (runs: seq<Publication<T>>)
      requires Valid() && forall id :: id in slots ==> id in outcomes
      modifies this
      ensures Valid() && order == old(order)
      ensures |runs| == |order|
      ensures forall i :: 0 <= i < |order| ==> runs[i] == Collected(old(slots)[order[i]], outcomes[order[i]]).1
      ensures slots == map id | id in old(slots) :: Collected(old(slots)[id], outcomes[id]).0
    {
      runs := [];
      ghost var before := slots;
      var i := 0;
      while i < |order|
        invariant 0 <= i <= |order| && order == old(order)
        invariant runs == RunsOf(before, order[..i], outcomes)
        invariant slots == SlotsAfter(before, order[..i], outcomes)
      {
        var id := order[i];
        RegistryStep(before, order, i, outcomes);
        var collected := Collected(slots[id], outcomes[id]);
        slots := slots[id := collected.0];
        runs := runs + [collected.1];
        i := i + 1;
      }
      assert order[..i] == order;
    }
  }
}
