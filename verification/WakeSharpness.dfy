/** The wake budget is reached (internal/scheduler/scheduler.go, internal/bluelink/client.go): a run of
    the daemon with its client in which one firing sends every wake request the budget allows. */
module WakeSharpness {
  import opened Wrappers
  import opened VehicleModel
  import opened Layouts
  import opened Backoffs
  import opened Cycle
  import opened ForceSchedule
  import opened StatusFetch
  import opened DaemonRuns
  import opened FetchRuns
  import opened WholeRuns
  import opened WakeBudget
  import TokenModel
  import TokenRuns
  import Publishing

  /** A run so far, with all that is fixed about it. */
  datatype Scene = Scene(
    d: Setup,
    layouts: Layouts,
    start: int,
    retained: Publishing.Retained,
    states: seq<Whole>,
    steps: seq<Step>)
  {
    ghost predicate Valid() {
      Behaviour(d, layouts, start, retained, states, steps)
    }

    function Last(): Whole
      requires |states| > 0
    {
      states[|states| - 1]
    }
  }

  lemma Go(x: Scene, step: Step, t: Whole) returns (y: Scene)
    requires x.Valid() && Moves(x.d, x.layouts, x.Last(), step, t)
    ensures y == x.(states := x.states + [t], steps := x.steps + [step])
    ensures y.Valid() && y.Last() == t
  {
    y := x.(states := x.states + [t], steps := x.steps + [step]);
    forall i | 0 <= i < |y.steps|
      ensures Moves(y.d, y.layouts, y.states[i], y.steps[i], y.states[i + 1])
    {
      if i < |x.steps| {
        assert Moves(x.d, x.layouts, x.states[i], x.steps[i], x.states[i + 1]);
      }
    }
  }

  /** A step of the loops that is not a fetch. */
  lemma GoQuietly(x: Scene, a: Action) returns (y: Scene)
    requires x.Valid() && !IsFetch(a) && Apply(x.d, x.Last().daemon, a).Some?
    ensures y.Valid() && y.d == x.d && y.layouts == x.layouts && y.start == x.start && y.retained == x.retained
    ensures y.states[0] == x.states[0]
    ensures y.Last() == Whole(Apply(x.d, x.Last().daemon, a).value, x.Last().client)
  {
    var t := Whole(Apply(x.d, x.Last().daemon, a).value, x.Last().client);
    y := Go(x, Step(a, Work([], [], Err(""), Err(""))), t);
  }

  ghost predicate SameRun(x: Scene, y: Scene) {
    && y.d == x.d && y.layouts == x.layouts && y.start == x.start && y.retained == x.retained
    && |x.states| > 0 && |y.states| > 0 && y.states[0] == x.states[0]
  }

  /** The client has the calls from `c` on still to begin, and tokens that are good. */
  ghost predicate Fit(client: TokenRuns.State, c: nat, clock: int) {
    && c <= |client.calls| && (forall i | c <= i < |client.calls| :: client.calls[i] == TokenRuns.Idle)
    && client.lock.None? && TokenRuns.Armed(client.tokens, clock)
  }

  /** The force loop is in its cycle at `pc`, at `now`, and has sent `wakes` wake requests. */
  ghost predicate Stands(x: Scene, pc: Pc, now: int, wakes: nat, c: nat, clock: int) {
    && x.Valid()
    && var s := x.Last();
       && s.daemon.force == Running(pc) && s.daemon.now == now
       && WakeGets(x.d.cfg.vehicle, s.daemon.trace) == wakes
       && Fit(s.client, c, clock)
  }

  lemma WakeGetsStep(v: Vehicle, trace: seq<Entry>, e: Entry)
    ensures WakeGets(v, trace + [e]) ==
            WakeGets(v, trace) + if e.event.Fetch? then WakeRequests(v, e.event.gets) else 0
  {
    assert (trace + [e])[..|trace|] == trace;
  }

  /** An attempt whose fetch fails, after two requests of the wake endpoint. */
  lemma AttemptWakesTwice(x: Scene, k: nat, now: int, wakes: nat, c: nat, clock: int, r: TokenModel.TokenResponse)
      returns (y: Scene)
    requires Stands(x, Attempt(k), now, wakes, c, clock) && c < |x.Last().client.calls|
    requires TokenModel.Plausible(clock) && TokenRuns.Renews(r)
    ensures SameRun(x, y) && Stands(y, Failed(k), now, wakes + 2, c + 1, clock)
    ensures |y.Last().client.calls| == |x.Last().client.calls|
  {
    var s := x.Last();
    assert |x.states| - 1 == |x.steps|;
    ClientHalf(x.d, x.layouts, x.start, x.retained, x.states, x.steps);
    var w, after, e := TwoWakesHappen(x.layouts, x.d.cfg.vehicle, x.states[0].client.tokens, s.client, c, clock, r);
    var a := Do(Force, e, k => Publishing.Acked);
    var t := Apply(x.d, s.daemon, a).value;
    WakeGetsStep(x.d.cfg.vehicle, s.daemon.trace, Entry(Force, e));
    y := Go(x, Step(a, w), Whole(t, after));
  }

  /** The wait before the next attempt, in which the clock advances as long as it takes. */
  lemma WaitOut(x: Scene, k: nat, now: int, wakes: nat, c: nat, clock: int) returns (y: Scene)
    requires Stands(x, Failed(k), now, wakes, c, clock) && k < x.d.cfg.maxRetries
    ensures SameRun(x, y) && Stands(y, Attempt(k + 1), now + Wait(Backoff(k)), wakes, c, clock)
    ensures |y.Last().client.calls| == |x.Last().client.calls|
  {
    y := GoQuietly(x, Tick(now + Wait(Backoff(k))));
    WakeGetsStep(y.d.cfg.vehicle, y.Last().daemon.trace, Entry(Force, Slept(Backoff(k))));
    y := GoQuietly(y, Do(Force, Slept(Backoff(k)), k => Publishing.Acked));
  }

  /** All the attempts a refresh allows. */
  lemma AllAttemptsWakeTwice(x: Scene, now: int, clock: int, r: TokenModel.TokenResponse) returns (y: Scene)
    requires Stands(x, Attempt(0), now, 0, 0, clock) && |x.Last().client.calls| > x.d.cfg.maxRetries
    requires TokenModel.Plausible(clock) && TokenRuns.Renews(r)
    ensures SameRun(x, y)
    ensures var m := x.d.cfg.maxRetries; Stands(y, Failed(m), now + TotalWait(m), 2 * (m + 1), m + 1, clock)
  {
    var m := x.d.cfg.maxRetries;
    y := AttemptWakesTwice(x, 0, now, 0, 0, clock, r);
    for k := 0 to m
      invariant SameRun(x, y) && |y.Last().client.calls| == |x.Last().client.calls|
      invariant Stands(y, Failed(k), now + TotalWait(k), 2 * (k + 1), k + 1, clock)
    {
      y := WaitOut(y, k, now + TotalWait(k), 2 * (k + 1), k + 1, clock);
      y := AttemptWakesTwice(y, k + 1, now + TotalWait(k + 1), 2 * (k + 1), k + 1, clock, r);
    }
  }

  /** The force loop asks, sleeps to its time, fires and takes the mutex. */
  lemma ForceBegins(x: Scene, clock: int) returns (y: Scene)
    requires x.Valid() && x.Last().daemon == Started(x.start, x.retained) && Fit(x.Last().client, 0, clock)
    requires !x.d.cfg.onlyWhenPluggedIn && UntilNextForce(Some(x.d.zone), x.d.forceAt, x.start) > 0
    ensures SameRun(x, y) && y.Last().client == x.Last().client
    ensures Stands(y, Attempt(0), x.start + UntilNextForce(Some(x.d.zone), x.d.forceAt, x.start), 0, 0, clock)
  {
    y := GoQuietly(x, Ask);
    y := GoQuietly(y, Tick(x.start + UntilNextForce(Some(x.d.zone), x.d.forceAt, x.start)));
    y := GoQuietly(y, Fire);
    y := GoQuietly(y, Acquire(Force));
  }

  /** The budget is reached: for every vehicle, zone, force time and number of retries there is a run
      in which the first firing, taken on time, sends 2 * (MaxRetries + 1) wake requests by the time
      its retries have been waited out. When that is within a day less the band, it is everything
      the budget allows a run of that length. */
  lemma WakeBudgetIsReached(d: Setup, layouts: Layouts, band: nat, start: int, retained: Publishing.Retained,
                            client: TokenRuns.State, clock: int, r: TokenModel.TokenResponse)
      returns (states: seq<Whole>, steps: seq<Step>)
    requires Admissible(d.zone, band) && band <= d.forceAt <= DAY - band && !d.cfg.onlyWhenPluggedIn
    requires TokenRuns.Connected(client) && |client.calls| > d.cfg.maxRetries
    requires TokenRuns.Armed(client.tokens, clock) && TokenModel.Plausible(clock) && TokenRuns.Renews(r)
    ensures Behaviour(d, layouts, start, retained, states, steps) && states[0].client == client
    ensures var s := states[|steps|].daemon; var T := s.now - start;
            && T == UntilNextForce(Some(d.zone), d.forceAt, start) + TotalWait(d.cfg.maxRetries)
            && WakeGets(d.cfg.vehicle, s.trace) == 2 * Allowed(d.cfg, 1)
            && (T + band < DAY ==> WakeGets(d.cfg.vehicle, s.trace) == 2 * Allowed(d.cfg, (T + band) / DAY + 1))
  {
    NextForceIsLeast(d.zone, band, d.forceAt, start);
    var x := Scene(d, layouts, start, retained, [Whole(Started(start, retained), client)], []);
    var y := ForceBegins(x, clock);
    y := AllAttemptsWakeTwice(y, y.Last().daemon.now, clock, r);
    states, steps := y.states, y.steps;
    TotalWaitIsNotNegative(d.cfg.maxRetries);
  }

  lemma {:induction false} TotalWaitIsNotNegative(k: nat)
    ensures TotalWait(k) >= 0
  {
    if k > 0 {
      TotalWaitIsNotNegative(k - 1);
    }
  }
}
