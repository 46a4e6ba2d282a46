/** Turning projection facts into checks: freshness decides what counts as observed. */
module DiagnosticChecks {
  import opened Prelude
  import opened DiagnosticJournal

  const FRESHNESS: int := 60
  const MAX_NORMALIZED: nat := 512

  /** A timestamp field: missing, not a timestamp, or an epoch. */
  datatype Stamp = Missing | Malformed | At(epoch: int)

  /** The check made of one assertion; only a fresh observation keeps a severity. */
  function Made(now: int, id: Id, subject: Subject, severity: Option<Severity>, status: Status, stamp: Stamp,
                freshness: int): (c: Check)
    ensures c.severity.Some? ==> c.status == Observed
    ensures c.status == Observed ==> status == Observed && stamp != Malformed && c.evidence.Some?
    ensures c.status == Observed && freshness >= 0 ==> now - freshness <= c.evidence.value <= now + FRESHNESS
  {
    var first := if stamp == Malformed then Unknown else status;
    var evidence := if stamp.At? then Some(stamp.epoch) else if first == Observed then Some(now) else None;
    var final := if evidence.Some? && (evidence.value > now + FRESHNESS || now - evidence.value > freshness)
                 then Unknown else first;
    Check(id, subject, if final == Observed then severity else None, final, evidence, freshness)
  }

  /** A check counts as observed exactly when it says so and its timestamp, if it has one, is readable and neither
      more than a minute ahead nor older than its freshness; it then keeps its severity. */
  lemma MadeIsObservedIff(now: int, id: Id, subject: Subject, severity: Option<Severity>, status: Status,
                          stamp: Stamp, freshness: int)
    requires freshness >= 0
    ensures var c := Made(now, id, subject, severity, status, stamp, freshness);
            && (c.status == Observed <==> status == Observed && stamp != Malformed
                                          && (stamp.At? ==> now - freshness <= stamp.epoch <= now + 60))
            && (c.status == Observed ==> c.severity == severity
                                         && c.evidence == Some(if stamp.At? then stamp.epoch else now))
            && (c.status != Observed ==> c.severity.None? && c.status in {status, Unknown})
            && c.id == id && c.subject == subject && c.freshness == freshness
  {
  }

  /** The dictionary of checks, in insertion order; a repeated id replaces the earlier check. */
  class Checks {
    const now: int
    var order: seq<Id>
    var items: map<Id, Check>
    var truncated: bool

    ghost predicate Valid()
      reads this
    {
      && (forall id :: id in order <==> id in items)
      && (forall i, k :: 0 <= i < k < |order| ==> order[i] != order[k])
      && |order| <= MAX_NORMALIZED
      && (forall id :: id in items ==> items[id].id == id)
      && (forall id :: id in items ==> items[id].status == Observed ==> items[id].evidence.Some?)
    }

    constructor (now: int)
      ensures Valid() && this.now == now && order == [] && !truncated
    {
      this.now := now;
      order, items, truncated := [], map[], false;
    }

    method Add(id: Id, subject: Subject, severity: Option<Severity>, status: Status, stamp: Stamp, freshness: int)
      requires Valid()
      modifies this
      ensures Valid()
      ensures var c := Made(now, id, subject, severity, status, stamp, freshness);
              if id !in old(items) && |old(order)| >= MAX_NORMALIZED
              then items == old(items) && order == old(order) && truncated
              else items == old(items)[id := c] && truncated == old(truncated)
                   && order == if id in old(items) then old(order) else old(order) + [id]
    {
      if id !in items && |order| >= MAX_NORMALIZED {
        truncated := true;
        return;
      }
      if id !in items {
        order := order + [id];
      }
      items := items[id := Made(now, id, subject, severity, status, stamp, freshness)];
    }

    method Rows() returns (rows: seq<Check>)
      requires Valid()
      ensures |rows| == |order| <= MAX_NORMALIZED
      ensures forall i :: 0 <= i < |rows| ==> rows[i] == items[order[i]]
      ensures DistinctIds(rows)
    {
      var ids, found := order, items;
      rows := seq(|ids|, i requires 0 <= i < |ids| && ids[i] in found => found[ids[i]]);
    }
  }
}
