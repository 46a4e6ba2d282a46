/** The traffic alert: two byte windows, two limits and a confirmation window. */
module TrafficAlerts {
  import opened Prelude
  import opened StatusStability

  datatype Level = Quiet | Warning | Critical

  datatype Traffic = Traffic(up: nat, down: nat)

  datatype Limits = Limits(warning: int, critical: int)

  datatype Transition = Recovered | Deescalated | Alert(level: Level)

  datatype Confirmation = Confirmation(candidate: Level, consecutive: nat, required: int)

  /** The raw level of one sample. */
  function Classified(short: Traffic, long: Traffic, limits: Limits): Level {
    if long.up + long.down > limits.critical then Critical
    else if Max(short.up, short.down) > limits.warning then Warning
    else Quiet
  }

  /** The level that bytes sent and received in the two windows call for. */
  predicate Calls(level: Level, shortUp: nat, shortDown: nat, longUp: nat, longDown: nat, limits: Limits) {
    && (level == Critical <==> longUp + longDown > limits.critical)
    && (level == Warning <==> longUp + longDown <= limits.critical
                              && (shortUp > limits.warning || shortDown > limits.warning))
  }

  function AlertWindows(): Windows<Level> {
    Windows(map[Quiet := 0, Warning := 1, Critical := 2], 2, 2)
  }

  function TransitionTo(previous: Level, next: Level): Transition {
    if next == Quiet then Recovered
    else if previous == Critical && next == Warning then Deescalated
    else Alert(next)
  }

  function ConfirmationOf(st: Stability<Level>, candidate: Level): Option<Confirmation> {
    if st.pending.Some?
    then Some(Confirmation(st.pending.value, st.count, Required(AlertWindows(), st.status, candidate)))
    else None
  }

  class AlertEngine {
    var level: Level
    var confirmation: Option<Confirmation>
    const stability: StatusStabilizer<Level>

    ghost predicate Valid()
      reads this, stability
    {
      && stability.windows == AlertWindows() && level == stability.status
      && (confirmation.None? <==> stability.pendingStatus.None?)
      && (confirmation.Some? ==> Some(confirmation.value.candidate) == stability.pendingStatus)
    }

    constructor ()
      ensures Valid() && fresh(stability) && stability.State() == Stability(Quiet, None, 0)
    {
      level, confirmation := Quiet, None;
      stability := new StatusStabilizer(Quiet, AlertWindows());
    }

    /** A transition is reported exactly when the confirmed level changes. */
    method Evaluate(short: Traffic, long: Traffic, limits: Limits) returns (transition: Option<Transition>)
      requires Valid()
      modifies this, stability
      ensures Valid()
      ensures stability.State()
           == Observed(AlertWindows(), old(stability.State()), Classified(short, long, limits), false)
      ensures confirmation == ConfirmationOf(stability.State(), Classified(short, long, limits))
      ensures transition == if level == old(level) then None else Some(TransitionTo(old(level), level))
      ensures confirmation.None? <==> level == Classified(short, long, limits)
      // both directions of the long window against the critical limit, the busier of the short one against the other
      ensures Calls(Classified(short, long, limits), short.up, short.down, long.up, long.down, limits)
      ensures transition.None? <==> level == old(level)
      ensures transition.Some? ==>
                && (transition.value == Recovered <==> level == Quiet)
                && (transition.value == Deescalated <==> old(level) == Critical && level == Warning)
                && (transition.value.Alert? ==> transition.value.level == level)
    {
      var next;
      if long.up + long.down > limits.critical {
        next := Critical;
      } else if Max(short.up, short.down) > limits.warning {
        next := Warning;
      } else {
        next := Quiet;
      }
      NothingPendingMeansConfirmed(AlertWindows(), stability.State(), next, false);
      var decision := stability.Observe(next, false);
      confirmation := if decision.pending.Some?
                      then Some(Confirmation(decision.pending.value, decision.count, decision.required)) else None;
      if !decision.changed {
        return None;
      }
      var previous := level;
      level := decision.status;
      return Some(if level == Quiet then Recovered
                  else if previous == Critical && level == Warning then Deescalated
                  else Alert(level));
    }
  }

  /** The confirmed level is the last one that two samples in a row called for. */
  lemma SecondSampleConfirms(cs: seq<Level>, c: Level)
    ensures After(AlertWindows(), Quiet, cs + [c]).status
         == if cs != [] && cs[|cs| - 1] == c then c else After(AlertWindows(), Quiet, cs).status
  {
    ChangesWhenTheRunIsLongEnough(AlertWindows(), Quiet, cs, c);
    assert (cs + [c])[..|cs|] == cs;
  }

  /** The level rises above quiet only after two samples in a row that call for the same higher level. */
  lemma {:induction false} AlertsNeedTwoSamples(cs: seq<Level>)
    requires After(AlertWindows(), Quiet, cs).status != Quiet
    ensures exists i :: 0 < i < |cs| && cs[i] == cs[i - 1] == After(AlertWindows(), Quiet, cs).status
  {
    if cs == [] {
    } else {
      var n := |cs| - 1;
      var less, c := cs[..n], cs[n];
      assert cs == less + [c];
      ChangesWhenTheRunIsLongEnough(AlertWindows(), Quiet, less, c);
      var before, after := After(AlertWindows(), Quiet, less).status, After(AlertWindows(), Quiet, cs).status;
      if after == before {
        AlertsNeedTwoSamples(less);
        var i :| 0 < i < |less| && less[i] == less[i - 1] == before;
        assert cs[i] == cs[i - 1] == after;
      } else {
        assert LastRun(cs) >= 2;
        assert cs[n] == cs[n - 1] == after;
      }
    }
  }
}
