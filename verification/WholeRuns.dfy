/** The daemon and its client together (internal/scheduler/scheduler.go, internal/bluelink/status.go,
    internal/bluelink/client.go): the two loops as in DaemonRuns, with every fetch served by the one
    token-managing client they share. */
module WholeRuns {
  import opened Wrappers
  import opened VehicleModel
  import opened Layouts
  import opened Cycle
  import opened DaemonRuns
  import opened FetchRuns
  import opened Distances
  import opened DistanceLabels
  import opened StatusFetch
  import TokenRuns
  import Publishing

  datatype Whole = Whole(daemon: State, client: TokenRuns.State)

  /** `work` is what the client does if the action is a fetch. */
  datatype Step = Step(action: Action, work: Work)

  predicate IsFetch(a: Action) {
    a.Do? && a.event.Fetch?
  }

  /** Only a fetch uses the client, and a fetch is nothing but what the client serves. */
  ghost predicate Moves(d: Setup, layouts: Layouts, s: Whole, step: Step, t: Whole) {
    && Apply(d, s.daemon, step.action) == Some(t.daemon)
    && if IsFetch(step.action) then Serves(layouts, d.cfg.vehicle, s.client, step.work, t.client, step.action.event)
       else t.client == s.client
  }

  function Actions(steps: seq<Step>): seq<Action> {
    seq(|steps|, i requires 0 <= i < |steps| => steps[i].action)
  }

  /** A run of the daemon after Connect: from its start, through `states`, by `steps`. */
  ghost predicate Behaviour(d: Setup, layouts: Layouts, start: int, retained: Publishing.Retained, states: seq<Whole>,
                            steps: seq<Step>) {
    && |states| == |steps| + 1
    && states[0].daemon == Started(start, retained) && TokenRuns.Connected(states[0].client)
    && forall i | 0 <= i < |steps| :: Moves(d, layouts, states[i], steps[i], states[i + 1])
  }

  lemma BehaviourPrefix(d: Setup, layouts: Layouts, start: int, retained: Publishing.Retained, states: seq<Whole>,
                        steps: seq<Step>)
    requires Behaviour(d, layouts, start, retained, states, steps) && steps != []
    ensures Behaviour(d, layouts, start, retained, states[..|steps|], steps[..|steps| - 1])
  {
    var n := |steps| - 1;
    forall i | 0 <= i < n
      ensures Moves(d, layouts, states[..|steps|][i], steps[..n][i], states[..|steps|][i + 1])
    {
      assert Moves(d, layouts, states[i], steps[i], states[i + 1]);
    }
  }

  /** The daemon's half is a run of the two loops, so everything proved of those holds here. */
  lemma {:induction false} DaemonHalf(d: Setup, layouts: Layouts, start: int, retained: Publishing.Retained,
                                      states: seq<Whole>, steps: seq<Step>)
    requires Behaviour(d, layouts, start, retained, states, steps)
    ensures Run(d, start, retained, Actions(steps), states[|steps|].daemon)
    decreases |steps|
  {
    if steps != [] {
      var n := |steps| - 1;
      BehaviourPrefix(d, layouts, start, retained, states, steps);
      DaemonHalf(d, layouts, start, retained, states[..|steps|], steps[..n]);
      assert Actions(steps)[..n] == Actions(steps[..n]);
      assert Moves(d, layouts, states[n], steps[n], states[n + 1]);
    }
  }

  ghost predicate EntryIssued(v: Vehicle, e: Event) {
    e.Fetch? ==> Issued(v, e.force, e.gets)
  }

  ghost predicate GetsAreIssued(v: Vehicle, trace: seq<Entry>) {
    forall i | 0 <= i < |trace| :: EntryIssued(v, trace[i].event)
  }

  /** What the fetches returned has distances in km, in mi or without a unit. */
  ghost predicate AnswersParsed(trace: seq<Entry>) {
    forall i | 0 <= i < |trace| :: AnswerParsed(trace[i].event)
  }

  ghost predicate AnswerParsed(e: Event) {
    e.Fetch? && e.answer.Some? ==> UnitsParsed(e.answer.value)
  }

  /** The client's half keeps the token invariant, and every fetch of the run requested each of its
      paths at most twice and nothing else, and returned what the parsers leave. */
  ghost predicate ClientOk(d: Setup, first: Whole, s: Whole) {
    && TokenRuns.Inv(first.client.tokens, s.client)
    && GetsAreIssued(d.cfg.vehicle, s.daemon.trace) && AnswersParsed(s.daemon.trace)
  }

  lemma ServedAnswerParsed(layouts: Layouts, v: Vehicle, before: TokenRuns.State, w: Work, after: TokenRuns.State, e: Event)
    requires Serves(layouts, v, before, w, after, e)
    ensures AnswerParsed(e)
  {
    if ReadStatus(layouts, v, e.force, w.status, w.park).Ok? {
      FetchedUnits(layouts, v, e.force, w.status, w.park);
    }
  }

  lemma ClientStep(d: Setup, layouts: Layouts, first: Whole, s: Whole, step: Step, t: Whole)
    requires ClientOk(d, first, s) && Moves(d, layouts, s, step, t)
    ensures ClientOk(d, first, t)
  {
    TraceOfStep(d, s.daemon, step.action);
    if IsFetch(step.action) {
      ServedReadsAreIssued(layouts, d.cfg.vehicle, first.client.tokens, s.client, step.work, t.client, step.action.event);
      ServedAnswerParsed(layouts, d.cfg.vehicle, s.client, step.work, t.client, step.action.event);
    }
    if step.action.Do? {
      assert EntryIssued(d.cfg.vehicle, step.action.event) && AnswerParsed(step.action.event);
    }
  }

  lemma TraceOfStep(d: Setup, s: State, a: Action)
    requires Apply(d, s, a).Some?
    ensures Apply(d, s, a).value.trace == s.trace + if a.Do? then [Entry(a.kind, a.event)] else []
  {
  }

  lemma {:induction false} ClientHalf(d: Setup, layouts: Layouts, start: int, retained: Publishing.Retained,
                                      states: seq<Whole>, steps: seq<Step>)
    requires Behaviour(d, layouts, start, retained, states, steps)
    ensures ClientOk(d, states[0], states[|steps|])
    decreases |steps|
  {
    if steps == [] {
      TokenRuns.InitiallyInv(states[0].client);
    } else {
      var n := |steps| - 1;
      BehaviourPrefix(d, layouts, start, retained, states, steps);
      ClientHalf(d, layouts, start, retained, states[..|steps|], steps[..n]);
      assert Moves(d, layouts, states[n], steps[n], states[n + 1]);
      ClientStep(d, layouts, states[0], states[n], steps[n], states[n + 1]);
    }
  }
}
