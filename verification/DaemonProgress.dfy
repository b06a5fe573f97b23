/** The two loops do not block each other (internal/scheduler/scheduler.go): a loop that waits for the
    mutex can always get it, and a cycle can always be brought to its end. */
module DaemonProgress {
  import opened Wrappers
  import opened Cycle
  import opened Publishing
  import opened DaemonRuns

  // ---------------------------------------------------------------------------
  // No deadlock
  // ---------------------------------------------------------------------------

  const ALL_ACKED: nat -> Delivery := k => Acked

  /** What a cycle can always do next: fetches fail, publishes succeed. */
  function Onward(kind: Kind, pc: Pc): Action {
    match pc
    case Gate => Do(kind, Fetch(false, [], None), ALL_ACKED)
    case Attempt(_) => Do(kind, Fetch(kind == Force, [], None), ALL_ACKED)
    case Failed(_) => Do(kind, Aborted, ALL_ACKED)
    case Publishing(st) => Do(kind, Publish(st, true), ALL_ACKED)
    case Marking(ok) => Do(kind, Mark(ok), ALL_ACKED)
    case Done => Release(kind)
  }

  lemma AckedIsDelivered(d: Setup, s: State, e: Event)
    requires e.Publish? && e.ok
    ensures Deliver(d, s, e, ALL_ACKED).Some?
  {
    TopicsDistinct(d.topics);
    SendEffect(s.retained, Plan(d.topics, d.unit, e.state), ALL_ACKED, 0);
  }

  lemma OnwardIsEnabled(d: Setup, s: State, kind: Kind)
    requires Loop(s, kind).Running?
    ensures Apply(d, s, Onward(kind, Loop(s, kind).pc)).Some?
  {
    var a := Onward(kind, Loop(s, kind).pc);
    if a.Do? && a.event.Publish? {
      AckedIsDelivered(d, s, a.event);
    }
  }

  /** Deadlock freedom: a loop in a cycle can go on, and a loop that waits for the mutex can take it or
      the loop that holds it can go on. */
  lemma NoDeadlock(d: Setup, s: State, kind: Kind) returns (a: Action)
    requires Exclusive(s) && (Loop(s, kind).Queued? || Loop(s, kind).Running?)
    ensures Apply(d, s, a).Some?
    ensures a == Acquire(kind) || exists holder :: Loop(s, holder).Running? && a == Onward(holder, Loop(s, holder).pc)
  {
    if Loop(s, kind).Running? {
      OnwardIsEnabled(d, s, kind);
      a := Onward(kind, Loop(s, kind).pc);
    } else if s.lock.None? {
      a := Acquire(kind);
    } else {
      var holder := s.lock.value;
      assert Loop(s, holder).Running?;
      OnwardIsEnabled(d, s, holder);
      a := Onward(holder, Loop(s, holder).pc);
    }
  }

  // ---------------------------------------------------------------------------
  // A waiting loop can get its turn
  // ---------------------------------------------------------------------------

  function Togo(pc: Pc): nat {
    match pc
    case Gate => 5
    case Attempt(_) => 4
    case Failed(_) => 3
    case Publishing(_) => 3
    case Marking(_) => 2
    case Done => 1
  }

  function Other(kind: Kind): Kind {
    if kind == Poll then Force else Poll
  }

  lemma OnwardLeads(d: Setup, s: State, kind: Kind)
    requires Loop(s, kind).Running?
    ensures var t := Apply(d, s, Onward(kind, Loop(s, kind).pc));
            && t.Some? && Loop(t.value, Other(kind)) == Loop(s, Other(kind))
            && (if Loop(s, kind).pc.Done? then Loop(t.value, kind).Idle? && t.value.lock.None?
                else Loop(t.value, kind).Running? && Togo(Loop(t.value, kind).pc) < Togo(Loop(s, kind).pc))
  {
    OnwardIsEnabled(d, s, kind);
  }

  ghost predicate Leads(d: Setup, s: State, actions: seq<Action>, t: State) {
    Exec(d, s, actions) == Some(t)
  }

  lemma OneMore(d: Setup, s: State, actions: seq<Action>, t: State, a: Action) returns (longer: seq<Action>, u: State)
    requires Leads(d, s, actions, t) && Apply(d, t, a).Some?
    ensures Leads(d, s, longer, u) && Some(u) == Apply(d, t, a)
  {
    longer, u := actions + [a], Apply(d, t, a).value;
    assert longer[..|actions|] == actions;
  }

  lemma CanRelease(d: Setup, s: State, first: seq<Action>, t: State, holder: Kind)
      returns (actions: seq<Action>, u: State)
    requires Leads(d, s, first, t) && Loop(t, holder).Running?
    ensures Leads(d, s, actions, u) && u.lock.None? && Loop(u, holder).Idle?
    ensures Loop(u, Other(holder)) == Loop(t, Other(holder))
    decreases Togo(Loop(t, holder).pc)
  {
    OnwardLeads(d, t, holder);
    actions, u := OneMore(d, s, first, t, Onward(holder, Loop(t, holder).pc));
    if !Loop(t, holder).pc.Done? {
      actions, u := CanRelease(d, s, actions, u, holder);
    }
  }

  /** From every state of every run, a loop that waits for the mutex can be brought into its cycle, and
      a loop in its cycle to the end of it with the mutex free. */
  lemma CanGetTurn(d: Setup, start: int, retained: Retained, actions: seq<Action>, s: State, kind: Kind)
      returns (all: seq<Action>, t: State)
    requires Run(d, start, retained, actions, s) && (Loop(s, kind).Queued? || Loop(s, kind).Running?)
    ensures Run(d, start, retained, all, t)
    ensures if Loop(s, kind).Queued? then Loop(t, kind) == Running(Begin(d.cfg, kind)) && t.lock == Some(kind)
            else Loop(t, kind).Idle? && t.lock.None?
  {
    RunExclusive(d, start, retained, actions, s);
    all, t := actions, s;
    if Loop(s, kind).Running? {
      all, t := CanRelease(d, Started(start, retained), all, t, kind);
    } else {
      if s.lock.Some? {
        assert s.lock.value == Other(kind);
        all, t := CanRelease(d, Started(start, retained), all, t, Other(kind));
      }
      all, t := OneMore(d, Started(start, retained), all, t, Acquire(kind));
    }
  }
}
