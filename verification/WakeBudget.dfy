/** How often a run of the daemon can wake the car (internal/scheduler/scheduler.go,
    internal/bluelink/status.go, internal/bluelink/client.go). */
module WakeBudget {
  import opened Wrappers
  import opened VehicleModel
  import opened Cycle
  import opened ForceSchedule
  import opened StatusFetch
  import opened DaemonRuns
  import opened FetchRuns
  import opened WholeRuns
  import opened Layouts

  // ---------------------------------------------------------------------------
  // Firings of the force timer
  // ---------------------------------------------------------------------------

  /** The firings are turns of the loop, all between the start of the run and now. */
  ghost predicate TurnsKept(d: Setup, start: int, s: State) {
    && LoopTurns(d.zone, d.forceAt, s.firings)
    && start <= s.asked <= s.now
    && (forall i | 0 <= i < |s.firings| :: start <= s.firings[i].asked && s.firings[i].fired <= s.now)
    && (s.force.Sleeping? ==> forall i | 0 <= i < |s.firings| :: s.firings[i].fired <= s.asked)
  }

  lemma TurnAdded(d: Setup, fs: seq<Firing>, f: Firing)
    requires LoopTurns(d.zone, d.forceAt, fs) && f.fired >= Target(d.zone, d.forceAt, f)
    requires forall i | 0 <= i < |fs| :: fs[i].fired <= f.asked
    ensures LoopTurns(d.zone, d.forceAt, fs + [f])
  {
  }

  lemma TurnsStep(d: Setup, start: int, s: State, a: Action)
    requires TurnsKept(d, start, s) && Apply(d, s, a).Some?
    ensures TurnsKept(d, start, Apply(d, s, a).value)
  {
    if a.Fire? {
      TurnAdded(d, s.firings, Firing(s.asked, s.now));
    }
  }

  // ---------------------------------------------------------------------------
  // Forced reads
  // ---------------------------------------------------------------------------

  function ForcedReads(trace: seq<Entry>): nat {
    if trace == [] then 0
    else ForcedReads(trace[..|trace| - 1]) + if ForcedFetch(trace[|trace| - 1].event) then 1 else 0
  }

  /** What the force loop's current cycle may have forced so far. */
  function Spent(cfg: Config, l: Local): nat {
    match l
    case Running(Gate) => 0
    case Running(Attempt(k)) => k
    case Running(Failed(k)) => k + 1
    case Running(_) => cfg.maxRetries + 1
    case _ => 0
  }

  /** Whether a firing is still being served. */
  function Pending(l: Local): nat {
    if l.Queued? || l.Running? then 1 else 0
  }

  function Allowed(cfg: Config, firings: int): int {
    (cfg.maxRetries + 1) * firings
  }

  lemma AllowedMore(cfg: Config, firings: int)
    ensures Allowed(cfg, firings + 1) == Allowed(cfg, firings) + cfg.maxRetries + 1
  {
  }

  ghost predicate InBounds(cfg: Config, l: Local) {
    l.Running? && (l.pc.Attempt? || l.pc.Failed?) ==> l.pc.k <= cfg.maxRetries
  }

  ghost predicate BudgetKept(d: Setup, s: State) {
    && InBounds(d.cfg, s.force)
    && Pending(s.force) <= |s.firings|
    && ForcedReads(s.trace) <= Allowed(d.cfg, |s.firings| - Pending(s.force)) + Spent(d.cfg, s.force)
  }

  lemma ForcedReadsStep(trace: seq<Entry>, e: Entry)
    ensures ForcedReads(trace + [e]) == ForcedReads(trace) + if ForcedFetch(e.event) then 1 else 0
  {
    assert (trace + [e])[..|trace|] == trace;
  }

  /** An event of a cycle pays for the read it forces. */
  lemma EventIsPaid(cfg: Config, kind: Kind, pc: Pc, e: Event)
    requires Next(cfg, kind, pc, e).Some? && InBounds(cfg, Running(pc))
    ensures InBounds(cfg, Running(Next(cfg, kind, pc, e).value))
    ensures Spent(cfg, Running(pc)) + (if ForcedFetch(e) then 1 else 0) <= Spent(cfg, Running(Next(cfg, kind, pc, e).value))
  {
  }

  lemma PollForcesNothing(cfg: Config, pc: Pc, e: Event)
    requires Next(cfg, Poll, pc, e).Some?
    ensures !ForcedFetch(e)
  {
  }

  lemma BudgetDo(d: Setup, s: State, a: Action)
    requires BudgetKept(d, s) && a.Do? && Apply(d, s, a).Some?
    ensures BudgetKept(d, Apply(d, s, a).value)
  {
    ForcedReadsStep(s.trace, Entry(a.kind, a.event));
    var pc := Loop(s, a.kind).pc;
    if a.kind == Force {
      EventIsPaid(d.cfg, Force, pc, a.event);
    } else {
      PollForcesNothing(d.cfg, pc, a.event);
    }
  }

  lemma BudgetStep(d: Setup, s: State, a: Action)
    requires BudgetKept(d, s) && Apply(d, s, a).Some?
    ensures BudgetKept(d, Apply(d, s, a).value)
  {
    if a.Do? {
      BudgetDo(d, s, a);
    } else {
      AllowedMore(d.cfg, |s.firings| - 1);
    }
  }

  lemma {:induction false} RunKeepsBudget(d: Setup, start: int, retained: Publishing.Retained,
                                          actions: seq<Action>, s: State)
    requires Run(d, start, retained, actions, s)
    ensures TurnsKept(d, start, s) && BudgetKept(d, s)
  {
    if actions != [] {
      var n := |actions| - 1;
      var before := Exec(d, Started(start, retained), actions[..n]).value;
      RunKeepsBudget(d, start, retained, actions[..n], before);
      TurnsStep(d, start, before, actions[n]);
      BudgetStep(d, before, actions[n]);
    }
  }

  /** No more than MaxRetries + 1 forced reads per firing of the timer. */
  lemma ForcedReadsPerFiring(d: Setup, start: int, retained: Publishing.Retained, actions: seq<Action>, s: State)
    requires Run(d, start, retained, actions, s)
    ensures ForcedReads(s.trace) <= Allowed(d.cfg, |s.firings|)
  {
    RunKeepsBudget(d, start, retained, actions, s);
    AllowedMore(d.cfg, |s.firings| - 1);
  }

  // ---------------------------------------------------------------------------
  // Wake requests
  // ---------------------------------------------------------------------------

  /** Requests that wake the car, whichever read sent them. */
  function WakeGets(v: Vehicle, trace: seq<Entry>): nat {
    if trace == [] then 0
    else
      var e := trace[|trace| - 1].event;
      WakeGets(v, trace[..|trace| - 1]) + if e.Fetch? then WakeRequests(v, e.gets) else 0
  }

  lemma {:induction false} WakesAreForced(v: Vehicle, trace: seq<Entry>)
    requires GetsAreIssued(v, trace)
    ensures WakeGets(v, trace) <= 2 * ForcedReads(trace)
  {
    if trace != [] {
      WakesAreForced(v, trace[..|trace| - 1]);
      var e := trace[|trace| - 1].event;
      if e.Fetch? {
        assert EntryIssued(v, e);
        RequestedPathsWake(v, e.force);
      }
    }
  }

  /** The whole-run wake budget: whatever the servers answer and however the loops interleave, a run
      that lasts `T` makes at most 2 * (MaxRetries + 1) wake requests for every force time that can
      fall in it. */
  lemma WakeBudgetOfRun(d: Setup, layouts: Layouts, band: nat, start: int, retained: Publishing.Retained,
                        states: seq<Whole>, steps: seq<Step>)
    requires Behaviour(d, layouts, start, retained, states, steps)
    requires Admissible(d.zone, band) && band <= d.forceAt <= DAY - band
    ensures var s := states[|steps|].daemon; var T := s.now - start;
            T >= 0 && WakeGets(d.cfg.vehicle, s.trace) <= 2 * Allowed(d.cfg, (T + band) / DAY + 1)
  {
    var s := states[|steps|].daemon;
    DaemonHalf(d, layouts, start, retained, states, steps);
    RunKeepsBudget(d, start, retained, Actions(steps), s);
    ForcedReadsPerFiring(d, start, retained, Actions(steps), s);
    ClientHalf(d, layouts, start, retained, states, steps);
    WakesAreForced(d.cfg.vehicle, s.trace);
    FiringsOfRun(d, band, start, s);
    AllowedMonotone(d.cfg, |s.firings|, (s.now - start + band) / DAY + 1);
  }

  lemma AllowedMonotone(cfg: Config, m: int, n: int)
    requires m <= n
    ensures Allowed(cfg, m) <= Allowed(cfg, n)
  {
  }

  lemma FiringsOfRun(d: Setup, band: nat, start: int, s: State)
    requires TurnsKept(d, start, s)
    requires Admissible(d.zone, band) && band <= d.forceAt <= DAY - band
    ensures |s.firings| <= (s.now - start + band) / DAY + 1
  {
    forall i | 0 <= i < |s.firings|
      ensures start <= Target(d.zone, d.forceAt, s.firings[i]) <= start + (s.now - start)
    {
      NextForceIsLeast(d.zone, band, d.forceAt, s.firings[i].asked);
    }
    FiringsInWindow(d.zone, band, d.forceAt, s.firings, start, s.now - start);
  }
}
