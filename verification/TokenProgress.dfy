/** Calls come to an end (internal/bluelink/client.go, internal/bluelink/auth.go): however the client's
    calls interleave, they cannot block each other for good, no call steps forever, and any of them
    can be brought to its end. */
module TokenProgress {
  import opened Wrappers
  import opened TokenModel
  import opened TokenRuns

  // ---------------------------------------------------------------------------
  // No deadlock
  // ---------------------------------------------------------------------------

  /** What a call inside the locked section can do next, if the servers refuse everything. */
  function Refused(c: nat, l: Local, now: int): Action {
    match l
    case Checking(_) => Check(c, now)
    case Refreshing(_) => RefreshAnswer(c, None, now)
    case Registering(_) => RegisterAnswer(c, None)
    case LoggingIn(_, _) => LoginAnswer(c, None, now)
    case Saving(_) => SaveAnswer(c, false, false)
    case _ => Unlock(c)
  }

  lemma RefusedIsEnabled(s: State, c: nat, now: int)
    requires c < |s.calls| && Holding(s.calls[c])
    ensures Apply(s, Refused(c, s.calls[c], now)).Some?
  {
  }

  predicate Active(l: Local) {
    !l.Idle? && !l.Done?
  }

  /** Deadlock freedom: for a call under way, its own next step is enabled, or that of the call that
      holds the mutex is. */
  lemma NoDeadlock(s: State, c: nat, now: int) returns (a: Action)
    requires Exclusive(s) && c < |s.calls| && Active(s.calls[c]) && Plausible(now)
    ensures Apply(s, a).Some? && PlausibleClock(a)
    ensures a.call == c || (s.calls[c].Waiting? && s.lock == Some(a.call))
  {
    if Holding(s.calls[c]) {
      a := Refused(c, s.calls[c], now);
      RefusedIsEnabled(s, c, now);
    } else if s.calls[c].Getting? {
      a := GetAnswer(c, None);
    } else if s.lock.None? {
      a := Lock(c);
    } else {
      var h := s.lock.value;
      a := Refused(h, s.calls[h], now);
      RefusedIsEnabled(s, h, now);
    }
  }

  // ---------------------------------------------------------------------------
  // No endless run
  // ---------------------------------------------------------------------------

  const MOST_STEPS: nat := 17

  /** A bound on the steps a call has left. */
  function Left(l: Local): nat {
    match l
    case Idle => 17
    case Waiting(retry) => if retry.None? then 16 else 8
    case Checking(retry) => if retry.None? then 15 else 7
    case Refreshing(retry) => if retry.None? then 14 else 6
    case Registering(retry) => if retry.None? then 13 else 5
    case LoggingIn(retry, _) => if retry.None? then 12 else 4
    case Saving(retry) => if retry.None? then 11 else 3
    case Ready(retry) => if retry.None? then 10 else 2
    case Failing => 1
    case Getting(retry, _) => if retry.None? then 9 else 1
    case Done(_) => 0
  }

  lemma StepUsesOne(s: State, a: Action)
    requires Apply(s, a).Some?
    ensures Left(Apply(s, a).value.calls[a.call]) < Left(s.calls[a.call])
  {
  }

  function TotalLeft(calls: seq<Local>): nat {
    if calls == [] then 0 else TotalLeft(calls[..|calls| - 1]) + Left(calls[|calls| - 1])
  }

  lemma {:induction false} TotalLeftDrops(calls: seq<Local>, later: seq<Local>, c: nat)
    requires c < |calls| == |later| && Left(later[c]) < Left(calls[c])
    requires forall d | 0 <= d < |calls| && d != c :: later[d] == calls[d]
    ensures TotalLeft(later) < TotalLeft(calls)
  {
    var n := |calls| - 1;
    if c == n {
      assert later[..n] == calls[..n];
    } else {
      TotalLeftDrops(calls[..n], later[..n], c);
    }
  }

  lemma {:induction false} TotalLeftBounded(calls: seq<Local>)
    ensures TotalLeft(calls) <= MOST_STEPS * |calls|
  {
    if calls != [] {
      TotalLeftBounded(calls[..|calls| - 1]);
    }
  }

  lemma {:induction false} StepsAreCounted(s: State, actions: seq<Action>)
    requires Exec(s, actions).Some?
    ensures |actions| + TotalLeft(Exec(s, actions).value.calls) <= TotalLeft(s.calls)
  {
    if actions != [] {
      var n := |actions| - 1;
      StepsAreCounted(s, actions[..n]);
      var before := Exec(s, actions[..n]).value;
      StepUsesOne(before, actions[n]);
      OthersStay(before, actions[n]);
      TotalLeftDrops(before.calls, Exec(s, actions).value.calls, actions[n].call);
    }
  }

  /** No livelock: whatever the servers answer and however the calls interleave, a run takes at most
      seventeen steps a call. */
  lemma RunsAreBounded(s: State, actions: seq<Action>, t: State)
    requires Run(s, actions, t)
    ensures |actions| <= MOST_STEPS * |s.calls|
  {
    StepsAreCounted(s, actions);
    TotalLeftBounded(s.calls);
  }

  ghost predicate Stuck(s: State) {
    forall a | PlausibleClock(a) :: Apply(s, a).None?
  }

  /** A run cannot be continued if and only if every call has come to its end, and then the mutex is
      free. So every run that goes on as long as it can ends that way. */
  lemma StuckIffAllDone(s: State, actions: seq<Action>, t: State)
    requires Run(s, actions, t)
    ensures Stuck(t) <==> forall c | 0 <= c < |t.calls| :: t.calls[c].Done?
    ensures Stuck(t) ==> t.lock.None?
  {
    RunKeepsInv(s, actions);
    if c :| 0 <= c < |t.calls| && !t.calls[c].Done? {
      if t.calls[c].Idle? {
        assert Apply(t, Start(c)).Some?;
      } else {
        var a := NoDeadlock(t, c, ZERO_TIME);
        assert Apply(t, a).Some?;
      }
    } else {
      assert t.lock.None? || Holding(t.calls[t.lock.value]);
    }
  }

  // ---------------------------------------------------------------------------
  // Every call can be brought to its end
  // ---------------------------------------------------------------------------

  /** The holder lets go of the mutex, and nobody else moves. */
  lemma {:induction false} CanRelease(s: State, first: seq<Action>, t: State, h: nat, now: int)
      returns (actions: seq<Action>, u: State)
    requires Leads(s, first, t) && Exclusive(t) && h < |t.calls| && Holding(t.calls[h]) && Plausible(now)
    ensures Leads(s, actions, u) && Exclusive(u) && u.lock.None? && |u.calls| == |t.calls|
    ensures u.calls[h].Getting? || u.calls[h].Done?
    ensures forall d | 0 <= d < |t.calls| && d != h :: u.calls[d] == t.calls[d]
    decreases Left(t.calls[h])
  {
    var a := Refused(h, t.calls[h], now);
    RefusedIsEnabled(t, h, now);
    StepUsesOne(t, a);
    OthersStay(t, a);
    LockOfStep(t, a);
    ExclusiveKept(t, a);
    actions, u := OneMore(s, first, t, a);
    if Holding(u.calls[h]) {
      actions, u := CanRelease(s, actions, u, h, now);
    } else {
      Released(t, a);
    }
  }

  lemma Released(s: State, a: Action)
    requires Apply(s, a).Some? && a.Unlock?
    ensures var l := Apply(s, a).value.calls[a.call]; l.Getting? || l.Done?
  {
  }

  /** From every state of every run, any call that has begun can be brought to its end with the mutex
      free, even if the servers refuse everything from then on. */
  lemma CanFinish(s: State, actions: seq<Action>, t: State, c: nat, now: int) returns (all: seq<Action>, u: State)
    requires Run(s, actions, t) && c < |t.calls| && !t.calls[c].Idle? && Plausible(now)
    ensures Run(s, all, u) && u.lock.None? && c < |u.calls| && u.calls[c].Done?
  {
    RunKeepsInv(s, actions);
    all, u := actions, t;
    if u.lock.Some? {
      all, u := CanRelease(s, all, u, u.lock.value, now);
    }
    if u.calls[c].Waiting? {
      ExclusiveKept(u, Lock(c));
      LockOfStep(u, Lock(c));
      OthersStay(u, Lock(c));
      all, u := OneMore(s, all, u, Lock(c));
      all, u := CanRelease(s, all, u, c, now);
    }
    assert !Holding(u.calls[c]);
    if u.calls[c].Getting? {
      LockOfStep(u, GetAnswer(c, None));
      all, u := OneMore(s, all, u, GetAnswer(c, None));
    }
  }
}
