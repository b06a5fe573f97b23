/** The two loops of the daemon (internal/scheduler/scheduler.go): the poll loop and the force loop
    as processes that contend for one mutex, interleaved in any way, with the clock, the health
    they report (internal/server/server.go) and the retained MQTT state. */
module DaemonRuns {
  import opened Wrappers
  import opened Cycle
  import opened ForceSchedule
  import opened Readiness
  import opened Publishing

  datatype Setup = Setup(cfg: Config, zone: Zone, forceAt: int, threshold: nat, topics: Topics, unit: string)

  /** Where a loop stands: about to wait, waiting for its timer, waiting for the mutex, or holding it
      in the middle of a cycle. */
  datatype Local = Idle | Sleeping | Queued | Running(pc: Pc)

  datatype Entry = Entry(kind: Kind, event: Event)

  datatype State = State(
    now: int,
    lock: Option<Kind>,
    poll: Local,
    force: Local,
    asked: int,
    firings: seq<Firing>,
    trace: seq<Entry>,
    marks: seq<bool>,
    health: Health,
    retained: Retained)

  /** `delivery` is what becomes of the messages of a publish. */
  datatype Action =
    | Tick(to: int)
    | Due
    | Ask
    | Fire
    | Acquire(kind: Kind)
    | Do(kind: Kind, event: Event, delivery: nat -> Delivery)
    | Release(kind: Kind)

  function Loop(s: State, kind: Kind): Local {
    if kind == Poll then s.poll else s.force
  }

  function WithLoop(s: State, kind: Kind, l: Local): State {
    if kind == Poll then s.(poll := l) else s.(force := l)
  }

  /** What an event does outside its cycle. */
  function Report(d: Setup, s: State, e: Event): State {
    match e
    case Mark(success) => s.(marks := s.marks + [success], health := Marked(s.health, d.threshold, success))
    case _ => s
  }

  function Deliver(d: Setup, s: State, e: Event, delivery: nat -> Delivery): Option<State> {
    if !e.Publish? then Some(s)
    else
      var sent := PublishState(d.topics, d.unit, s.retained, e.state, delivery, 0);
      if sent.ok == e.ok then Some(s.(retained := sent.retained)) else None
  }

  function Doing(d: Setup, s: State, kind: Kind, e: Event, delivery: nat -> Delivery): Option<State> {
    if !Loop(s, kind).Running? then None
    else
      match (Next(d.cfg, kind, Loop(s, kind).pc, e), Deliver(d, s, e, delivery))
      case (Some(pc), Some(t)) => Some(WithLoop(Report(d, t, e), kind, Running(pc)).(trace := s.trace + [Entry(kind, e)]))
      case _ => None
  }

  /** The step an action takes, if it is enabled. The force timer never fires early. */
  ghost function Apply(d: Setup, s: State, a: Action): Option<State> {
    match a
    case Tick(to) => if to < s.now then None else Some(s.(now := to))
    case Due => if s.poll.Idle? then Some(s.(poll := Queued)) else None
    case Ask => if s.force.Idle? then Some(s.(force := Sleeping, asked := s.now)) else None
    case Fire =>
      if s.force.Sleeping? && s.asked + UntilNextForce(Some(d.zone), d.forceAt, s.asked) <= s.now
      then Some(s.(force := Queued, firings := s.firings + [Firing(s.asked, s.now)]))
      else None
    case Acquire(kind) =>
      if Loop(s, kind).Queued? && s.lock.None? then Some(WithLoop(s, kind, Running(Begin(d.cfg, kind))).(lock := Some(kind)))
      else None
    case Do(kind, e, delivery) => Doing(d, s, kind, e, delivery)
    case Release(kind) =>
      if Loop(s, kind) == Running(Done) then Some(WithLoop(s, kind, Idle).(lock := None)) else None
  }

  ghost function Exec(d: Setup, s: State, actions: seq<Action>): Option<State> {
    if actions == [] then Some(s)
    else
      match Exec(d, s, actions[..|actions| - 1])
      case None => None
      case Some(t) => Apply(d, t, actions[|actions| - 1])
  }

  function Started(now: int, retained: Retained): State {
    State(now, None, Idle, Idle, now, [], [], [], STARTED, retained)
  }

  ghost predicate Run(d: Setup, start: int, retained: Retained, actions: seq<Action>, s: State) {
    Exec(d, Started(start, retained), actions) == Some(s)
  }

  // ---------------------------------------------------------------------------
  // Serialisability
  // ---------------------------------------------------------------------------

  /** The mutex is held by exactly the loop that is in a cycle. */
  ghost predicate Exclusive(s: State) {
    forall kind :: Loop(s, kind).Running? <==> s.lock == Some(kind)
  }

  lemma ExclusiveKept(d: Setup, s: State, a: Action)
    requires Exclusive(s) && Apply(d, s, a).Some?
    ensures Exclusive(Apply(d, s, a).value)
  {
    var t := Apply(d, s, a).value;
    assert Loop(s, Poll) == s.poll && Loop(s, Force) == s.force;
    assert Loop(t, Poll) == t.poll && Loop(t, Force) == t.force;
  }

  datatype CycleRun = CycleRun(kind: Kind, events: seq<Event>)

  function Tagged(c: CycleRun): seq<Entry> {
    seq(|c.events|, i requires 0 <= i < |c.events| => Entry(c.kind, c.events[i]))
  }

  function Flatten(cycles: seq<CycleRun>): seq<Entry> {
    if cycles == [] then []
    else Flatten(cycles[..|cycles| - 1]) + Tagged(cycles[|cycles| - 1])
  }

  ghost predicate AllWhole(d: Setup, cycles: seq<CycleRun>) {
    forall i | 0 <= i < |cycles| :: Whole(d.cfg, cycles[i].kind, cycles[i].events)
  }

  /** The verdicts of the cycles, in order; a cancelled or skipped cycle gives none. */
  function Verdicts(cycles: seq<CycleRun>): seq<bool> {
    if cycles == [] then []
    else Verdicts(cycles[..|cycles| - 1]) + Verdict(cycles[|cycles| - 1].events)
  }

  /** The trace is `cycles` one after the other, then what the holder of the mutex has done; health
      was told the verdicts of exactly those cycles. */
  ghost predicate Serial(d: Setup, s: State, cycles: seq<CycleRun>, current: seq<Event>) {
    && AllWhole(d, cycles)
    && s.marks == Verdicts(cycles) + Verdict(current)
    && (s.lock.None? ==> current == [] && s.trace == Flatten(cycles))
    && (s.lock.Some? ==>
      && s.trace == Flatten(cycles) + Tagged(CycleRun(s.lock.value, current))
      && Loop(s, s.lock.value).Running?
      && Follow(d.cfg, s.lock.value, current) == Some(Loop(s, s.lock.value).pc))
  }

  lemma TaggedGrows(kind: Kind, es: seq<Event>, e: Event)
    ensures Tagged(CycleRun(kind, es + [e])) == Tagged(CycleRun(kind, es)) + [Entry(kind, e)]
  {
  }

  lemma FlattenGrows(cycles: seq<CycleRun>, c: CycleRun)
    ensures Flatten(cycles + [c]) == Flatten(cycles) + Tagged(c)
    ensures Verdicts(cycles + [c]) == Verdicts(cycles) + Verdict(c.events)
  {
    assert (cycles + [c])[..|cycles|] == cycles;
  }

  /** An event moves its own loop on, within the hold of the mutex, and reports to health only if it
      is a mark. */
  lemma DoOfStep(d: Setup, s: State, a: Action)
    requires a.Do? && Apply(d, s, a).Some?
    ensures Loop(s, a.kind).Running? && Next(d.cfg, a.kind, Loop(s, a.kind).pc, a.event).Some?
    ensures var t := Apply(d, s, a).value;
            && t.trace == s.trace + [Entry(a.kind, a.event)] && t.marks == s.marks + Verdict([a.event])
            && t.lock == s.lock
            && Loop(t, a.kind) == Running(Next(d.cfg, a.kind, Loop(s, a.kind).pc, a.event).value)
  {
  }

  lemma VerdictGrows(d: Setup, kind: Kind, es: seq<Event>, e: Event)
    requires Follow(d.cfg, kind, es).Some? && Next(d.cfg, kind, Follow(d.cfg, kind, es).value, e).Some?
    ensures Verdict(es + [e]) == Verdict(es) + Verdict([e])
  {
    UnfinishedReportsNothing(d.cfg, kind, es);
  }

  lemma SerialEvent(d: Setup, s: State, kind: Kind, e: Event, t: State, cycles: seq<CycleRun>, current: seq<Event>)
    requires Serial(d, s, cycles, current) && s.lock == t.lock == Some(kind)
    requires Next(d.cfg, kind, Loop(s, kind).pc, e).Some?
    requires t.trace == s.trace + [Entry(kind, e)] && t.marks == s.marks + Verdict([e])
    requires Loop(t, kind) == Running(Next(d.cfg, kind, Loop(s, kind).pc, e).value)
    ensures Serial(d, t, cycles, current + [e])
  {
    FollowStep(d.cfg, kind, current, e);
    TaggedGrows(kind, current, e);
    VerdictGrows(d, kind, current, e);
  }

  lemma SerialDo(d: Setup, s: State, a: Action, cycles: seq<CycleRun>, current: seq<Event>)
    requires Exclusive(s) && Serial(d, s, cycles, current)
    requires a.Do? && Apply(d, s, a).Some?
    ensures Serial(d, Apply(d, s, a).value, cycles, current + [a.event])
  {
    DoOfStep(d, s, a);
    assert s.lock == Some(a.kind);
    SerialEvent(d, s, a.kind, a.event, Apply(d, s, a).value, cycles, current);
  }

  lemma SerialRelease(d: Setup, s: State, a: Action, cycles: seq<CycleRun>, current: seq<Event>)
    requires Exclusive(s) && Serial(d, s, cycles, current)
    requires a.Release? && Apply(d, s, a).Some?
    ensures Serial(d, Apply(d, s, a).value, cycles + [CycleRun(a.kind, current)], [])
  {
    assert Loop(s, a.kind).Running?;
    FlattenGrows(cycles, CycleRun(a.kind, current));
  }

  lemma SerialOther(d: Setup, s: State, a: Action, cycles: seq<CycleRun>, current: seq<Event>)
    requires Exclusive(s) && Serial(d, s, cycles, current)
    requires !a.Do? && !a.Release? && Apply(d, s, a).Some?
    ensures Serial(d, Apply(d, s, a).value, cycles, current)
  {
  }

  lemma SerialKept(d: Setup, s: State, a: Action, cycles: seq<CycleRun>, current: seq<Event>)
      returns (cycles': seq<CycleRun>, current': seq<Event>)
    requires Exclusive(s) && Serial(d, s, cycles, current) && Apply(d, s, a).Some?
    ensures Serial(d, Apply(d, s, a).value, cycles', current')
  {
    if a.Do? {
      SerialDo(d, s, a, cycles, current);
      cycles', current' := cycles, current + [a.event];
    } else if a.Release? {
      SerialRelease(d, s, a, cycles, current);
      cycles', current' := cycles + [CycleRun(a.kind, current)], [];
    } else {
      SerialOther(d, s, a, cycles, current);
      cycles', current' := cycles, current;
    }
  }

  lemma {:induction false} RunExclusive(d: Setup, start: int, retained: Retained, actions: seq<Action>, s: State)
    requires Run(d, start, retained, actions, s)
    ensures Exclusive(s)
  {
    if actions != [] {
      var n := |actions| - 1;
      var before := Exec(d, Started(start, retained), actions[..n]).value;
      RunExclusive(d, start, retained, actions[..n], before);
      ExclusiveKept(d, before, actions[n]);
    }
  }

  /** Serialisability: however the two loops interleave, the trace is a concatenation of whole
      cycles, followed by the unfinished one of the loop that holds the mutex, if any. */
  lemma {:induction false} TraceIsSerial(d: Setup, start: int, retained: Retained, actions: seq<Action>, s: State)
      returns (cycles: seq<CycleRun>, current: seq<Event>)
    requires Run(d, start, retained, actions, s)
    ensures Serial(d, s, cycles, current)
    decreases |actions|
  {
    if actions == [] {
      cycles, current := [], [];
    } else {
      var n := |actions| - 1;
      var before := Exec(d, Started(start, retained), actions[..n]).value;
      RunExclusive(d, start, retained, actions[..n], before);
      cycles, current := TraceIsSerial(d, start, retained, actions[..n], before);
      cycles, current := SerialKept(d, before, actions[n], cycles, current);
    }
  }

  // ---------------------------------------------------------------------------
  // Health
  // ---------------------------------------------------------------------------

  ghost predicate HealthFollows(d: Setup, s: State) {
    s.health == After(d.threshold, s.marks)
  }

  lemma HealthKept(d: Setup, s: State, a: Action)
    requires HealthFollows(d, s) && Apply(d, s, a).Some?
    ensures HealthFollows(d, Apply(d, s, a).value)
  {
    if a.Do? && a.event.Mark? {
      AfterStep(d.threshold, s.marks, a.event.success);
    }
  }

  lemma {:induction false} RunHealth(d: Setup, start: int, retained: Retained, actions: seq<Action>, s: State)
    requires Run(d, start, retained, actions, s)
    ensures HealthFollows(d, s)
  {
    if actions != [] {
      var n := |actions| - 1;
      var before := Exec(d, Started(start, retained), actions[..n]).value;
      RunHealth(d, start, retained, actions[..n], before);
      HealthKept(d, before, actions[n]);
    }
  }

  /** Readiness is the history of cycles: whatever the interleaving, the server is ready exactly when
      some cycle succeeded and the cycles that have reported since the last success are fewer than
      the threshold; its counter is their number. Cancelled and skipped cycles do not count. */
  lemma ReadinessIsHistory(d: Setup, start: int, retained: Retained, actions: seq<Action>, s: State)
      returns (cycles: seq<CycleRun>, current: seq<Event>)
    requires Run(d, start, retained, actions, s) && d.threshold >= 1
    ensures Serial(d, s, cycles, current)
    ensures var verdicts := Verdicts(cycles) + Verdict(current);
            && EndsInFailures(verdicts, s.health.failures)
            && (s.health.ready <==> true in verdicts && s.health.failures < d.threshold)
  {
    cycles, current := TraceIsSerial(d, start, retained, actions, s);
    RunHealth(d, start, retained, actions, s);
    ReadyIff(d.threshold, s.marks);
  }

  // ---------------------------------------------------------------------------
  // The plugged-in gate
  // ---------------------------------------------------------------------------

  predicate ForcedFetch(e: Event) {
    e.Fetch? && e.force
  }

  /** Entry `i` forces a read. It belongs to the force loop; with the gate on, that loop found the
      car plugged in at `g`, and in between there is nothing but its failed attempts and waits. */
  ghost predicate GatedSince(d: Setup, trace: seq<Entry>, i: nat, g: nat) {
    && g < i < |trace|
    && trace[g].kind == Force && trace[g].event.Fetch? && !trace[g].event.force
    && trace[g].event.answer.Some? && trace[g].event.answer.value.pluggedIn == Some(true)
    && forall j | g < j < i :: trace[j].kind == Force && (FailedFetch(Force, trace[j].event) || trace[j].event.Slept?)
  }

  ghost predicate GateKept(d: Setup, trace: seq<Entry>, i: nat) {
    i < |trace| && ForcedFetch(trace[i].event) ==>
      trace[i].kind == Force && (d.cfg.onlyWhenPluggedIn ==> exists g :: GatedSince(d, trace, i, g))
  }

  lemma GateKeptExtends(d: Setup, trace: seq<Entry>, more: seq<Entry>, i: nat)
    requires i < |trace| && GateKept(d, trace, i)
    ensures GateKept(d, trace + more, i)
  {
    if ForcedFetch(trace[i].event) && d.cfg.onlyWhenPluggedIn {
      var g :| GatedSince(d, trace, i, g);
      assert GatedSince(d, trace + more, i, g);
    }
  }

  /** In a cycle that stands at the end of the trace. */
  lemma GateKeptInCycle(d: Setup, before: seq<Entry>, c: CycleRun, i: nat)
    requires Follow(d.cfg, c.kind, c.events).Some? && i < |c.events|
    ensures GateKept(d, before + Tagged(c), |before| + i)
  {
    var trace := before + Tagged(c);
    assert trace[|before| + i] == Entry(c.kind, c.events[i]);
    if ForcedFetch(c.events[i]) {
      if c.kind == Poll {
        PollsNeverForce(d.cfg, c.events, i);
      } else if d.cfg.onlyWhenPluggedIn {
        GateSafety(d.cfg, c.events, i);
        forall j | |before| < j < |before| + i
          ensures trace[j] == Entry(Force, c.events[j - |before|])
        {
        }
        assert GatedSince(d, trace, |before| + i, |before|);
      }
    }
  }

  lemma {:induction false} GateKeptInCycles(d: Setup, cycles: seq<CycleRun>, i: nat)
    requires AllWhole(d, cycles) && i < |Flatten(cycles)|
    ensures GateKept(d, Flatten(cycles), i)
  {
    var init, last := cycles[..|cycles| - 1], cycles[|cycles| - 1];
    if i < |Flatten(init)| {
      GateKeptInCycles(d, init, i);
      GateKeptExtends(d, Flatten(init), Tagged(last), i);
    } else {
      GateKeptInCycle(d, Flatten(init), last, i - |Flatten(init)|);
    }
  }

  /** Gate safety over runs: every forced read belongs to the force loop and, with the gate on, was
      let through by that loop's own cached read within the same hold of the mutex. */
  lemma GateSafetyOverRuns(d: Setup, start: int, retained: Retained, actions: seq<Action>, s: State, i: nat)
    requires Run(d, start, retained, actions, s) && i < |s.trace|
    ensures GateKept(d, s.trace, i)
  {
    var cycles, current := TraceIsSerial(d, start, retained, actions, s);
    if i < |Flatten(cycles)| {
      GateKeptInCycles(d, cycles, i);
      if s.lock.Some? {
        GateKeptExtends(d, Flatten(cycles), Tagged(CycleRun(s.lock.value, current)), i);
      }
    } else {
      GateKeptInCycle(d, Flatten(cycles), CycleRun(s.lock.value, current), i - |Flatten(cycles)|);
    }
  }
}
