/** Readiness (internal/server/server.go): what the health marks of the scheduler's cycles add up
    to, and the server that keeps count of them. */
module Readiness {
  import opened Wrappers

  datatype Health = Health(ready: bool, failures: nat)

  const STARTED: Health := Health(false, 0)

  /** New's clamp. */
  function Clamp(threshold: int): (t: nat)
    ensures t >= 1 && (threshold >= 1 ==> t == threshold)
  {
    if threshold < 1 then 1 else threshold
  }

  function Marked(h: Health, threshold: nat, success: bool): Health {
    if success then Health(true, 0)
    else Health(h.ready && h.failures + 1 < threshold, h.failures + 1)
  }

  function After(threshold: nat, marks: seq<bool>): Health {
    if marks == [] then STARTED
    else Marked(After(threshold, marks[..|marks| - 1]), threshold, marks[|marks| - 1])
  }

  /** `n` is the length of the run of failures the history ends in. */
  ghost predicate EndsInFailures(marks: seq<bool>, n: nat) {
    && n <= |marks|
    && (forall i | |marks| - n <= i < |marks| :: !marks[i])
    && (n < |marks| ==> marks[|marks| - n - 1])
  }

  /** After any history the counter is the length of its trailing run of failures, and the server
      is ready exactly when some mark was a success and that run is below the threshold. */
  lemma {:induction false} ReadyIff(threshold: nat, marks: seq<bool>)
    requires threshold >= 1
    ensures forall n: nat :: EndsInFailures(marks, n) <==> n == After(threshold, marks).failures
    ensures After(threshold, marks).ready <==>
            true in marks && After(threshold, marks).failures < threshold
  {
    if marks != [] {
      var init, n := marks[..|marks| - 1], After(threshold, marks).failures;
      ReadyIff(threshold, init);
      assert marks[|marks| - 1] || EndsInFailures(init, n - 1);
    }
  }

  lemma AfterStep(threshold: nat, marks: seq<bool>, success: bool)
    ensures After(threshold, marks + [success]) == Marked(After(threshold, marks), threshold, success)
  {
    assert (marks + [success])[..|marks|] == marks;
  }

  /** The status page's snapshot of a state: no position, odometer or lock. */
  datatype Metrics = Metrics(
    evBatteryPercentage: Option<real>,
    evBatterySoH: Option<real>,
    evRange: Option<real>,
    evRangeUnit: string,
    charging: Option<bool>,
    pluggedIn: Option<bool>,
    chargePortDoorOpen: Option<bool>,
    chargeLimitAC: Option<real>,
    chargeLimitDC: Option<real>,
    chargingPowerKW: Option<real>,
    estChargeDurationMin: Option<int>,
    estFastChargeDurationMin: Option<int>,
    battery12VPercentage: Option<int>,
    outsideTemperatureC: Option<real>,
    insideTemperatureC: Option<real>,
    tirePressureWarning: Option<bool>,
    lastUpdatedAt: Option<int>)

  class Server {
    var ready: bool
    var consecutiveFailures: nat
    const threshold: nat
    var metrics: Option<Metrics>
    ghost var history: seq<bool>

    ghost predicate Valid()
      reads this
    {
      threshold >= 1 && Health(ready, consecutiveFailures) == After(threshold, history)
    }

    constructor (readyFailureThreshold: int)
      ensures Valid() && history == [] && metrics == None
      ensures threshold == Clamp(readyFailureThreshold)
    {
      ready, consecutiveFailures, metrics := false, 0, None;
      threshold := if readyFailureThreshold < 1 then 1 else readyFailureThreshold;
      history := [];
    }

    ghost method Record(success: bool)
      modifies `history
      ensures history == old(history) + [success]
      ensures After(threshold, history) == Marked(After(threshold, old(history)), threshold, success)
    {
      AfterStep(threshold, history, success);
      history := history + [success];
    }

    method MarkSuccess()
      requires Valid()
      modifies this
      ensures Valid() && history == old(history) + [true] && metrics == old(metrics)
      ensures ready && consecutiveFailures == 0
    {
      ready := true;
      consecutiveFailures := 0;
      Record(true);
    }

    method MarkFailure()
      requires Valid()
      modifies this
      ensures Valid() && history == old(history) + [false] && metrics == old(metrics)
      ensures consecutiveFailures == old(consecutiveFailures) + 1
      ensures ready <==> old(ready) && consecutiveFailures < threshold
    {
      consecutiveFailures := consecutiveFailures + 1;
      if consecutiveFailures >= threshold {
        ready := false;
      }
      Record(false);
    }

    method SetMetrics(m: Metrics)
      requires Valid()
      modifies `metrics
      ensures Valid() && metrics == Some(m)
    {
      metrics := Some(m);
    }

    /** Readiness, read off the history of marks. */
    method Ready() returns (r: bool)
      requires Valid()
      ensures r <==> true in history && forall n: nat | EndsInFailures(history, n) :: n < threshold
    {
      ReadyIff(threshold, history);
      assert EndsInFailures(history, consecutiveFailures);
      r := ready;
    }
  }
}
