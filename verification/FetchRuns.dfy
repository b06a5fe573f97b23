/** A status read as calls of the token machine (internal/bluelink/status.go,
    internal/bluelink/client.go): each path it asks for is one doAuthedGet, and the requests that go
    out are the GETs those calls log. */
module FetchRuns {
  import opened Wrappers
  import opened VehicleModel
  import opened Layouts
  import opened StatusFetch
  import TokenModel
  import TokenRuns
  import Cycle

  /** What the client did for one read: its steps, those of other callers included, the call that
      stood for each path, and the bodies that came of them. */
  datatype Work = Work(actions: seq<TokenRuns.Action>, calls: seq<nat>, status: Body, park: Body)

  predicate Distinct<T(==)>(xs: seq<T>) {
    forall i, j | 0 <= i < j < |xs| :: xs[i] != xs[j]
  }

  /** The call went from its start to its end; one that failed has no body. */
  ghost predicate Served(before: TokenRuns.State, after: TokenRuns.State, c: nat, body: Body) {
    && c < |before.calls| && before.calls[c] == TokenRuns.Idle
    && c < |after.calls| && after.calls[c].Done?
    && (body.Ok? ==> after.calls[c].ok)
  }

  /** The GETs of the given calls, in the order they went out, each as the path it asks for. */
  function Gets(log: seq<TokenRuns.Entry>, paths: seq<string>, calls: seq<nat>): seq<string>
    requires |calls| == |paths|
  {
    if log == [] then []
    else
      var e := log[|log| - 1];
      Gets(log[..|log| - 1], paths, calls) + if e.Got? && e.call in calls then [paths[IndexOf(calls, e.call)]] else []
  }

  function IndexOf(calls: seq<nat>, c: nat): (i: nat)
    requires c in calls
    ensures i < |calls| && calls[i] == c
  {
    if calls[0] == c then 0 else 1 + IndexOf(calls[1..], c)
  }

  /** The client serves a read: its event says what went out and what came of it. */
  ghost predicate Serves(layouts: Layouts, v: Vehicle, before: TokenRuns.State, w: Work, after: TokenRuns.State,
                         e: Cycle.Event) {
    && e.Fetch?
    && TokenRuns.Exec(before, w.actions) == Some(after)
    && (forall i | 0 <= i < |w.actions| :: TokenRuns.PlausibleClock(w.actions[i]))
    && var paths := Requested(v, e.force, w.status);
       && |w.calls| == |paths| && Distinct(w.calls)
       && Served(before, after, w.calls[0], w.status)
       && (|paths| > 1 ==> Served(before, after, w.calls[1], w.park))
       && e.gets == Gets(after.log, paths, w.calls)
       && e.answer == (match ReadStatus(layouts, v, e.force, w.status, w.park) case Ok(s) => Some(s) case Err(_) => None)
  }

  /** Each path a read may ask for goes out at most twice, and nothing else does. */
  ghost predicate Issued(v: Vehicle, force: bool, gets: seq<string>) {
    forall path :: multiset(gets)[path] <= 2 * multiset(RequestedPaths(v, force))[path]
  }

  lemma {:induction false} GetsOfPath(log: seq<TokenRuns.Entry>, paths: seq<string>, calls: seq<nat>, m: nat)
    requires |calls| == |paths| && m < |paths| && Distinct(paths) && Distinct(calls)
    ensures multiset(Gets(log, paths, calls))[paths[m]] == TokenRuns.GetCount(log, calls[m])
  {
    if log != [] {
      GetsOfPath(log[..|log| - 1], paths, calls, m);
      var e := log[|log| - 1];
      if e.Got? && e.call in calls {
        var i := IndexOf(calls, e.call);
        assert paths[i] == paths[m] <==> i == m;
        assert calls[i] == calls[m] <==> i == m;
      }
    }
  }

  lemma {:induction false} GetsElsewhere(log: seq<TokenRuns.Entry>, paths: seq<string>, calls: seq<nat>, path: string)
    requires |calls| == |paths| && path !in paths
    ensures multiset(Gets(log, paths, calls))[path] == 0
  {
    if log != [] {
      GetsElsewhere(log[..|log| - 1], paths, calls, path);
    }
  }

  lemma GetsAreFew(log: seq<TokenRuns.Entry>, paths: seq<string>, calls: seq<nat>, path: string)
    requires |calls| == |paths| && Distinct(paths) && Distinct(calls) && TokenRuns.AtMostTwoGets(log)
    ensures multiset(Gets(log, paths, calls))[path] <= if path in paths then 2 else 0
  {
    if path in paths {
      var m :| 0 <= m < |paths| && paths[m] == path;
      GetsOfPath(log, paths, calls, m);
      TokenRuns.TwoGetsCounted(log, calls[m]);
    } else {
      GetsElsewhere(log, paths, calls, path);
    }
  }

  lemma GetsOfRequests(v: Vehicle, force: bool, status: Body, log: seq<TokenRuns.Entry>, calls: seq<nat>)
    requires |calls| == |Requested(v, force, status)| && Distinct(calls) && TokenRuns.AtMostTwoGets(log)
    ensures Issued(v, force, Gets(log, Requested(v, force, status), calls))
  {
    var paths := Requested(v, force, status);
    RequestsOfRead(v, force, status);
    forall path
      ensures multiset(Gets(log, paths, calls))[path] <= 2 * multiset(RequestedPaths(v, force))[path]
    {
      GetsAreFew(log, paths, calls, path);
      if path in paths {
        assert path in RequestedPaths(v, force);
      }
    }
  }

  /** Whatever the servers answer and whoever else uses the client, a read that it serves requests
      each of its paths at most twice and no other, and the client's state keeps its invariant. */
  lemma ServedReadsAreIssued(layouts: Layouts, v: Vehicle, initial: TokenModel.Tokens, before: TokenRuns.State,
                             w: Work, after: TokenRuns.State, e: Cycle.Event)
    requires TokenRuns.Inv(initial, before) && Serves(layouts, v, before, w, after, e)
    ensures TokenRuns.Inv(initial, after)
    ensures Issued(v, e.force, e.gets)
  {
    TokenRuns.ExecKeepsInv(initial, before, w.actions);
    GetsOfRequests(v, e.force, w.status, after.log, w.calls);
  }

  /** The factor of two is reached: from every state the client can be in with the mutex free and good
      tokens, any call that has not begun can serve a forced read with two requests of the wake
      endpoint. The client is left as it was found, but for that call. */
  lemma TwoWakesHappen(layouts: Layouts, v: Vehicle, initial: TokenModel.Tokens, s: TokenRuns.State, c: nat, now: int,
                       r: TokenModel.TokenResponse) returns (w: Work, after: TokenRuns.State, e: Cycle.Event)
    requires TokenRuns.Inv(initial, s) && c < |s.calls| && s.calls[c] == TokenRuns.Idle && s.lock.None?
    requires TokenRuns.Armed(s.tokens, now) && TokenModel.Plausible(now) && TokenRuns.Renews(r)
    ensures Serves(layouts, v, s, w, after, e)
    ensures e.force && e.answer.None? && WakeRequests(v, e.gets) == 2
    ensures TokenRuns.SameButFor(s.calls, after.calls, c) && after.lock.None? && TokenRuns.Armed(after.tokens, now)
  {
    var actions;
    actions, after := TokenRuns.TwoGetsHappen(s, c, now, r, 500);
    TokenRuns.IdleHasNoGets(initial, s, c);
    var failed: Body := Err("HTTP 500");
    w := Work(actions, [c], failed, failed);
    var paths := Requested(v, true, failed);
    assert paths == [StatusPath(v, true)];
    e := Cycle.Fetch(true, Gets(after.log, paths, [c]), None);
    StatusEndpoints(v);
    WakeEndpointsDiffer(v);
    GetsOfPath(after.log, paths, [c], 0);
    GetsElsewhere(after.log, paths, [c], "vehicles/" + v.id + (if v.IsCCS2() then "/status" else "/ccs2/carstatus"));
  }
}
