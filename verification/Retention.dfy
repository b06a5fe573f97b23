/** What the broker retains over runs of the daemon (internal/scheduler/scheduler.go,
    internal/publisher/publisher.go). */
module Retention {
  import opened Wrappers
  import opened VehicleModel
  import opened Cycle
  import opened Distances
  import opened Publishing
  import opened DaemonRuns

  /** The states whose publish was begun, in order. */
  function Published(trace: seq<Entry>): seq<VehicleState> {
    if trace == [] then []
    else
      var e := trace[|trace| - 1].event;
      Published(trace[..|trace| - 1]) + if e.Publish? then [e.state] else []
  }

  /** Whether the last publish begun was acknowledged to the end. */
  function LastAcknowledged(trace: seq<Entry>): bool {
    if trace == [] then false
    else
      var e := trace[|trace| - 1].event;
      if e.Publish? then e.ok else LastAcknowledged(trace[..|trace| - 1])
  }

  lemma PublishedStep(trace: seq<Entry>, e: Entry)
    ensures Published(trace + [e]) == if e.event.Publish? then Published(trace) + [e.event.state] else Published(trace)
    ensures LastAcknowledged(trace + [e]) == if e.event.Publish? then e.event.ok else LastAcknowledged(trace)
  {
    assert (trace + [e])[..|trace|] == trace;
  }

  ghost predicate Fresh(d: Setup, retained: Retained, states: seq<VehicleState>) {
    && states != []
    && Holds(retained, Message(d.topics.State(), Document(d.unit, states[|states| - 1])))
    && Holds(retained, Message(d.topics.TrackerState(), TRACKER_RESET))
    && (Configurable(d.unit) && UnitsParsed(states[|states| - 1]) ==>
      Shown(d.topics, d.unit, retained, states[|states| - 1]))
  }

  ghost predicate FreshOk(d: Setup, s: State) {
    LastAcknowledged(s.trace) ==> Fresh(d, s.retained, Published(s.trace))
  }

  ghost predicate OriginsOk(d: Setup, start: Retained, s: State) {
    Consistent(d.topics, d.unit, start, s.retained, Published(s.trace))
  }

  lemma RetainedOfStep(d: Setup, s: State, a: Action)
    requires Apply(d, s, a).Some?
    ensures var t := Apply(d, s, a).value;
            if a.Do? then
              && t.trace == s.trace + [Entry(a.kind, a.event)]
              && (!a.event.Publish? ==> t.retained == s.retained)
              && (a.event.Publish? ==>
                var sent := PublishState(d.topics, d.unit, s.retained, a.event.state, a.delivery, 0);
                t.retained == sent.retained && a.event.ok == sent.ok)
            else t.trace == s.trace && t.retained == s.retained
  {
  }

  lemma FreshStep(d: Setup, s: State, a: Action)
    requires FreshOk(d, s) && Apply(d, s, a).Some?
    ensures FreshOk(d, Apply(d, s, a).value)
  {
    RetainedOfStep(d, s, a);
    if a.Do? {
      PublishedStep(s.trace, Entry(a.kind, a.event));
      if a.event.Publish? {
        SuccessRetainsState(d.topics, d.unit, s.retained, a.event.state, a.delivery, 0);
        if Configurable(d.unit) && UnitsParsed(a.event.state) {
          SuccessIsShown(d.topics, d.unit, s.retained, a.event.state, a.delivery, 0);
        }
      }
    }
  }

  lemma OriginsStep(d: Setup, start: Retained, s: State, a: Action)
    requires OriginsOk(d, start, s) && Apply(d, s, a).Some?
    ensures OriginsOk(d, start, Apply(d, s, a).value)
  {
    RetainedOfStep(d, s, a);
    if a.Do? {
      PublishedStep(s.trace, Entry(a.kind, a.event));
      if a.event.Publish? {
        PublishEffect(d.topics, d.unit, s.retained, a.event.state, a.delivery, 0);
        ConsistentStep(d.topics, d.unit, start, s.retained, Apply(d, s, a).value.retained, Published(s.trace), a.event.state);
      }
    }
  }

  /** In every run, whatever the broker retained before it: as long as no publish has been begun
      since one that was acknowledged to the end, the broker retains that one's document. */
  lemma {:induction false} FreshOverRuns(d: Setup, start: int, retained: Retained, actions: seq<Action>, s: State)
    requires Run(d, start, retained, actions, s)
    ensures FreshOk(d, s)
  {
    if actions != [] {
      var n := |actions| - 1;
      var before := Exec(d, Started(start, retained), actions[..n]).value;
      FreshOverRuns(d, start, retained, actions[..n], before);
      FreshStep(d, before, actions[n]);
    }
  }

  /** In every run, whatever the broker retained before it and failed publishes included: the retained
      document is the one from before or that of a state published, and the retained position is
      the one from before or that of a state published that is no newer than the document's. */
  lemma {:induction false} OriginsOverRuns(d: Setup, start: int, retained: Retained, actions: seq<Action>, s: State)
    requires Run(d, start, retained, actions, s)
    ensures OriginsOk(d, retained, s)
  {
    if actions != [] {
      var n := |actions| - 1;
      var before := Exec(d, Started(start, retained), actions[..n]).value;
      OriginsOverRuns(d, start, retained, actions[..n], before);
      OriginsStep(d, retained, before, actions[n]);
    }
  }

  /** The cycle the last entry belongs to. */
  lemma LastCycle(d: Setup, s: State, cycles: seq<CycleRun>, current: seq<Event>)
      returns (before: seq<Entry>, c: CycleRun)
    requires Serial(d, s, cycles, current) && s.trace != []
    ensures s.trace == before + Tagged(c) && c.events != []
    ensures Follow(d.cfg, c.kind, c.events).Some?
  {
    if s.lock.Some? && current != [] {
      before, c := Flatten(cycles), CycleRun(s.lock.value, current);
    } else {
      var n := |cycles| - 1;
      assert s.trace == Flatten(cycles);
      before, c := Flatten(cycles[..n]), cycles[n];
      WholeIffWritten(d.cfg, c.kind, c.events);
    }
  }

  lemma {:induction false} LastPublished(trace: seq<Entry>, publish: Entry, mark: Entry)
    requires publish.event.Publish? && mark.event.Mark?
    ensures LastAcknowledged(trace + [publish] + [mark]) == publish.event.ok
    ensures Published(trace + [publish] + [mark]) == Published(trace) + [publish.event.state]
  {
    PublishedStep(trace, publish);
    PublishedStep(trace + [publish], mark);
  }

  ghost predicate EndsInDelivery(trace: seq<Entry>, st: VehicleState) {
    && |trace| >= 3
    && trace[|trace| - 3].event.Fetch? && trace[|trace| - 3].event.answer == Some(st)
    && trace[|trace| - 2].event == Publish(st, true) && trace[|trace| - 1].event == Mark(true)
    && trace[|trace| - 3].kind == trace[|trace| - 2].kind == trace[|trace| - 1].kind
  }

  lemma CycleEndsInDelivery(d: Setup, before: seq<Entry>, c: CycleRun) returns (st: VehicleState)
    requires Follow(d.cfg, c.kind, c.events).Some? && c.events != []
    requires c.events[|c.events| - 1] == Mark(true)
    ensures EndsInDelivery(before + Tagged(c), st)
  {
    var n := |c.events| - 1;
    SuccessFollowsPublish(d.cfg, c.kind, c.events, n);
    st := c.events[n - 1].state;
  }

  /** Success means retained: at the moment a success is reported, the broker retains, in the
      configured unit, the very state that the same loop's last fetch returned. */
  lemma SuccessMeansRetained(d: Setup, start: int, retained: Retained, actions: seq<Action>, s: State)
      returns (st: VehicleState)
    requires Run(d, start, retained, actions, s)
    requires s.trace != [] && s.trace[|s.trace| - 1].event == Mark(true)
    ensures EndsInDelivery(s.trace, st)
    ensures Holds(s.retained, Message(d.topics.State(), Document(d.unit, st)))
    ensures Configurable(d.unit) && UnitsParsed(st) ==> Shown(d.topics, d.unit, s.retained, st)
  {
    var cycles, current := TraceIsSerial(d, start, retained, actions, s);
    var before, c := LastCycle(d, s, cycles, current);
    assert s.trace[|s.trace| - 1] == Entry(c.kind, c.events[|c.events| - 1]);
    st := CycleEndsInDelivery(d, before, c);
    FreshOverRuns(d, start, retained, actions, s);
    DeliveryIsLastPublished(s.trace, st);
  }

  lemma DeliveryIsLastPublished(trace: seq<Entry>, st: VehicleState)
    requires EndsInDelivery(trace, st)
    ensures LastAcknowledged(trace)
    ensures Published(trace) != [] && Published(trace)[|Published(trace)| - 1] == st
  {
    var m := |trace| - 2;
    LastPublished(trace[..m], trace[m], trace[m + 1]);
    assert trace[..m] + [trace[m]] + [trace[m + 1]] == trace;
  }
}
