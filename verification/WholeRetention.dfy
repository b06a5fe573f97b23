/** From the servers' answers to what Home Assistant finds (internal/scheduler/scheduler.go,
    internal/bluelink/status.go, internal/publisher/publisher.go). */
module WholeRetention {
  import opened Wrappers
  import opened VehicleModel
  import opened Layouts
  import opened Distances
  import opened Cycle
  import opened Publishing
  import opened DaemonRuns
  import opened WholeRuns
  import opened Retention

  /** In every run of the daemon with its client, whatever the servers answer: at the moment a success
      is reported, the retained topics show the very state that the same loop's last fetch returned,
      its distances in the configured unit and standing for the lengths that were read. */
  lemma SuccessMeansShown(d: Setup, layouts: Layouts, start: int, retained: Retained, states: seq<Whole>, steps: seq<Step>)
      returns (st: VehicleState)
    requires Behaviour(d, layouts, start, retained, states, steps) && Configurable(d.unit)
    requires var trace := states[|steps|].daemon.trace; trace != [] && trace[|trace| - 1].event == Mark(true)
    ensures EndsInDelivery(states[|steps|].daemon.trace, st)
    ensures Shown(d.topics, d.unit, states[|steps|].daemon.retained, st)
  {
    var s := states[|steps|].daemon;
    DaemonHalf(d, layouts, start, retained, states, steps);
    ClientHalf(d, layouts, start, retained, states, steps);
    st := SuccessMeansRetained(d, start, retained, Actions(steps), s);
    assert AnswerParsed(s.trace[|s.trace| - 3].event);
  }
}
