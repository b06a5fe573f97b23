/** One cycle of the scheduler (internal/scheduler/scheduler.go): a cached poll or a forced refresh
    with its gate, its retries, its publish and its health mark, as the events it can produce
    whatever the fetcher, the publisher and cancellation do. */
module Cycle {
  import opened Wrappers
  import opened VehicleModel
  import opened Powers
  import opened Backoffs
  import opened Durations

  datatype Kind = Poll | Force

  datatype Config = Config(vehicle: Vehicle, maxRetries: nat, onlyWhenPluggedIn: bool)

  /** New's clamp. */
  function NewConfig(vehicle: Vehicle, maxRetries: int, onlyWhenPluggedIn: bool): Config {
    Config(vehicle, if maxRetries < 0 then 0 else maxRetries, onlyWhenPluggedIn)
  }

  /** `gets` are the requests a fetch issued, `answer` the state it returned, if it did. `Aborted`
      is the return of a fetch that found the context cancelled. */
  datatype Event =
    | Fetch(force: bool, gets: seq<string>, answer: Option<VehicleState>)
    | Slept(nanoseconds: int)
    | Aborted
    | Publish(state: VehicleState, ok: bool)
    | Mark(success: bool)

  datatype Pc =
    | Gate
    | Attempt(k: nat)
    | Failed(k: nat)
    | Publishing(state: VehicleState)
    | Marking(success: bool)
    | Done

  // ---------------------------------------------------------------------------
  // Steps
  // ---------------------------------------------------------------------------

  predicate Gated(cfg: Config, kind: Kind) {
    kind == Force && cfg.onlyWhenPluggedIn
  }

  function Begin(cfg: Config, kind: Kind): Pc {
    if Gated(cfg, kind) then Gate else Attempt(0)
  }

  predicate Plugged(answer: Option<VehicleState>) {
    answer.Some? && answer.value.pluggedIn == Some(true)
  }

  /** Where an event leads, if the cycle can produce it there. After a failed attempt the context
      may be found cancelled: at once, while waiting for the next attempt, or by the caller. */
  function Next(cfg: Config, kind: Kind, pc: Pc, e: Event): Option<Pc> {
    match (pc, e)
    case (Gate, Fetch(false, _, answer)) => Some(if Plugged(answer) then Attempt(0) else Done)
    case (Attempt(k), Fetch(force, _, answer)) =>
      if force != (kind == Force) then None
      else Some(if answer.Some? then Publishing(answer.value) else Failed(k))
    case (Failed(k), Aborted) => Some(Done)
    case (Failed(k), Slept(d)) => if k < cfg.maxRetries && d == Backoff(k) then Some(Attempt(k + 1)) else None
    case (Failed(k), Mark(success)) => if k == cfg.maxRetries && !success then Some(Done) else None
    case (Publishing(st), Publish(sent, ok)) => if sent == st then Some(Marking(ok)) else None
    case (Marking(ok), Mark(success)) => if success == ok then Some(Done) else None
    case _ => None
  }

  function Follow(cfg: Config, kind: Kind, es: seq<Event>): Option<Pc> {
    if es == [] then Some(Begin(cfg, kind))
    else
      match Follow(cfg, kind, es[..|es| - 1])
      case None => None
      case Some(pc) => Next(cfg, kind, pc, es[|es| - 1])
  }

  ghost predicate Whole(cfg: Config, kind: Kind, es: seq<Event>) {
    Follow(cfg, kind, es) == Some(Done)
  }

  lemma FollowStep(cfg: Config, kind: Kind, es: seq<Event>, e: Event)
    requires Follow(cfg, kind, es).Some?
    ensures Follow(cfg, kind, es + [e]) == Next(cfg, kind, Follow(cfg, kind, es).value, e)
  {
    assert (es + [e])[..|es|] == es;
  }

  // ---------------------------------------------------------------------------
  // The same cycles, written out
  // ---------------------------------------------------------------------------

  predicate FailedFetch(kind: Kind, e: Event) {
    e.Fetch? && e.force == (kind == Force) && e.answer.None?
  }

  /** Attempt `i` failed and was waited out, after the `from` events of the gate. */
  predicate FailedAndWaited(kind: Kind, es: seq<Event>, from: nat, i: nat) {
    && from + 2 * i + 1 < |es|
    && FailedFetch(kind, es[from + 2 * i])
    && es[from + 2 * i + 1] == Slept(Backoff(i))
  }

  function GateEvents(cfg: Config, kind: Kind): nat {
    if Gated(cfg, kind) then 1 else 0
  }

  /** The gate let the cycle through, `k` attempts failed and were waited out; where that ends. */
  ghost predicate Retried(cfg: Config, kind: Kind, es: seq<Event>, k: nat) {
    && GateEvents(cfg, kind) + 2 * k <= |es|
    && (Gated(cfg, kind) ==> es[0].Fetch? && !es[0].force && Plugged(es[0].answer))
    && forall i | 0 <= i < k :: FailedAndWaited(kind, es, GateEvents(cfg, kind), i)
  }

  function Prefix(cfg: Config, kind: Kind, k: nat): nat {
    GateEvents(cfg, kind) + 2 * k
  }

  ghost predicate GateRefused(cfg: Config, kind: Kind, es: seq<Event>) {
    Gated(cfg, kind) && |es| == 1 && es[0].Fetch? && !es[0].force && !Plugged(es[0].answer)
  }

  /** `k` retries, then an attempt that fails, then `last`. */
  ghost predicate GaveUp(cfg: Config, kind: Kind, es: seq<Event>, k: nat, last: Event) {
    && k <= cfg.maxRetries && Retried(cfg, kind, es, k)
    && |es| == Prefix(cfg, kind, k) + 2
    && FailedFetch(kind, es[|es| - 2]) && es[|es| - 1] == last
  }

  /** `k` retries, then an attempt that returns a state, its publish, and a mark that says how the
      publish went. */
  ghost predicate Delivered(cfg: Config, kind: Kind, es: seq<Event>, k: nat) {
    && k <= cfg.maxRetries && Retried(cfg, kind, es, k)
    && |es| == Prefix(cfg, kind, k) + 3
    && es[|es| - 3].Fetch? && es[|es| - 3].force == (kind == Force) && es[|es| - 3].answer.Some?
    && es[|es| - 2].Publish? && es[|es| - 2].state == es[|es| - 3].answer.value
    && es[|es| - 1] == Mark(es[|es| - 2].ok)
  }

  /** A whole cycle: skipped at the gate, cancelled after a failed attempt, out of attempts, or
      published. */
  ghost predicate Written(cfg: Config, kind: Kind, es: seq<Event>) {
    || GateRefused(cfg, kind, es)
    || (exists k :: GaveUp(cfg, kind, es, k, Aborted))
    || GaveUp(cfg, kind, es, cfg.maxRetries, Mark(false))
    || (exists k :: Delivered(cfg, kind, es, k))
  }

  /** What has happened when a cycle stands at `pc`. */
  ghost predicate Stands(cfg: Config, kind: Kind, es: seq<Event>, pc: Pc) {
    match pc
    case Gate => Gated(cfg, kind) && es == []
    case Attempt(k) => k <= cfg.maxRetries && Retried(cfg, kind, es, k) && |es| == Prefix(cfg, kind, k)
    case Failed(k) =>
      && k <= cfg.maxRetries && Retried(cfg, kind, es, k) && |es| == Prefix(cfg, kind, k) + 1
      && FailedFetch(kind, es[|es| - 1])
    case Publishing(st) => exists k :: Fetched(cfg, kind, es, k, st)
    case Marking(ok) => exists k :: Sent(cfg, kind, es, k, ok)
    case Done => Written(cfg, kind, es)
  }

  ghost predicate Fetched(cfg: Config, kind: Kind, es: seq<Event>, k: nat, st: VehicleState) {
    && k <= cfg.maxRetries && Retried(cfg, kind, es, k) && |es| == Prefix(cfg, kind, k) + 1
    && es[|es| - 1].Fetch? && es[|es| - 1].force == (kind == Force) && es[|es| - 1].answer == Some(st)
  }

  ghost predicate Sent(cfg: Config, kind: Kind, es: seq<Event>, k: nat, ok: bool) {
    && k <= cfg.maxRetries && Retried(cfg, kind, es, k) && |es| == Prefix(cfg, kind, k) + 2
    && es[|es| - 2].Fetch? && es[|es| - 2].force == (kind == Force) && es[|es| - 2].answer.Some?
    && es[|es| - 1] == Publish(es[|es| - 2].answer.value, ok)
  }

  lemma RetriedExtends(cfg: Config, kind: Kind, es: seq<Event>, e: Event, k: nat)
    requires Retried(cfg, kind, es, k)
    ensures Retried(cfg, kind, es + [e], k)
  {
    forall i | 0 <= i < k
      ensures FailedAndWaited(kind, es + [e], GateEvents(cfg, kind), i)
    {
      assert FailedAndWaited(kind, es, GateEvents(cfg, kind), i);
    }
  }

  lemma RetriedShrinks(cfg: Config, kind: Kind, es: seq<Event>, k: nat, n: nat)
    requires Retried(cfg, kind, es, k) && Prefix(cfg, kind, k) <= n <= |es|
    ensures Retried(cfg, kind, es[..n], k)
  {
    forall i | 0 <= i < k
      ensures FailedAndWaited(kind, es[..n], GateEvents(cfg, kind), i)
    {
      assert FailedAndWaited(kind, es, GateEvents(cfg, kind), i);
    }
  }

  /** Nothing but the first `k` waited-out attempts is added by one more wait. */
  lemma RetriedGrows(cfg: Config, kind: Kind, es: seq<Event>, k: nat)
    requires Retried(cfg, kind, es, k) && |es| == Prefix(cfg, kind, k + 1)
    requires FailedFetch(kind, es[|es| - 2]) && es[|es| - 1] == Slept(Backoff(k))
    ensures Retried(cfg, kind, es, k + 1)
  {
  }

  lemma StandsNext(cfg: Config, kind: Kind, es: seq<Event>, pc: Pc, e: Event)
    requires Stands(cfg, kind, es, pc) && Next(cfg, kind, pc, e).Some?
    ensures Stands(cfg, kind, es + [e], Next(cfg, kind, pc, e).value)
  {
    var longer := es + [e];
    match pc
    case Gate =>
      assert longer[0] == e;
    case Attempt(k) =>
      RetriedExtends(cfg, kind, es, e, k);
      if e.answer.Some? {
        assert Fetched(cfg, kind, longer, k, e.answer.value);
      }
    case Failed(k) =>
      RetriedExtends(cfg, kind, es, e, k);
      if e.Slept? {
        RetriedGrows(cfg, kind, longer, k);
      } else {
        assert GaveUp(cfg, kind, longer, k, e);
      }
    case Publishing(st) =>
      var k :| Fetched(cfg, kind, es, k, st);
      RetriedExtends(cfg, kind, es, e, k);
      assert Sent(cfg, kind, longer, k, e.ok);
    case Marking(ok) =>
      var k :| Sent(cfg, kind, es, k, ok);
      RetriedExtends(cfg, kind, es, e, k);
      assert Delivered(cfg, kind, longer, k);
  }

  lemma {:induction false} FollowStands(cfg: Config, kind: Kind, es: seq<Event>)
    requires Follow(cfg, kind, es).Some?
    ensures Stands(cfg, kind, es, Follow(cfg, kind, es).value)
  {
    if es != [] {
      var init := es[..|es| - 1];
      FollowStands(cfg, kind, init);
      StandsNext(cfg, kind, init, Follow(cfg, kind, init).value, es[|es| - 1]);
      assert init + [es[|es| - 1]] == es;
    }
  }

  /** The last of the retries, taken off. */
  lemma LastRetry(cfg: Config, kind: Kind, es: seq<Event>, k: nat) returns (shorter: seq<Event>, fetch: Event)
    requires k > 0 && Retried(cfg, kind, es, k) && |es| == Prefix(cfg, kind, k)
    ensures es == shorter + [fetch] + [Slept(Backoff(k - 1))]
    ensures FailedFetch(kind, fetch)
    ensures Retried(cfg, kind, shorter, k - 1) && |shorter| == Prefix(cfg, kind, k - 1)
  {
    var n := |es| - 2;
    assert FailedAndWaited(kind, es, GateEvents(cfg, kind), k - 1);
    shorter, fetch := es[..n], es[n];
    RetriedShrinks(cfg, kind, es, k - 1, n);
  }

  lemma FollowTwo(cfg: Config, kind: Kind, es: seq<Event>, pc: Pc, a: Event, b: Event)
    requires Follow(cfg, kind, es) == Some(pc)
    requires Next(cfg, kind, pc, a).Some?
    ensures Follow(cfg, kind, es + [a] + [b]) == Next(cfg, kind, Next(cfg, kind, pc, a).value, b)
  {
    FollowStep(cfg, kind, es, a);
    FollowStep(cfg, kind, es + [a], b);
  }

  lemma NothingRetried(cfg: Config, kind: Kind, es: seq<Event>)
    requires Retried(cfg, kind, es, 0) && |es| == Prefix(cfg, kind, 0)
    ensures Follow(cfg, kind, es) == Some(Attempt(0))
  {
    if Gated(cfg, kind) {
      assert es == [] + [es[0]];
      FollowStep(cfg, kind, [], es[0]);
    }
  }

  lemma {:induction false} RetriedFollows(cfg: Config, kind: Kind, es: seq<Event>, k: nat)
    requires k <= cfg.maxRetries && Retried(cfg, kind, es, k) && |es| == Prefix(cfg, kind, k)
    ensures Follow(cfg, kind, es) == Some(Attempt(k))
    decreases k
  {
    if k == 0 {
      NothingRetried(cfg, kind, es);
    } else {
      var shorter, fetch := LastRetry(cfg, kind, es, k);
      RetriedFollows(cfg, kind, shorter, k - 1);
      FollowTwo(cfg, kind, shorter, Attempt(k - 1), fetch, Slept(Backoff(k - 1)));
    }
  }

  lemma RetriedThenFetch(cfg: Config, kind: Kind, es: seq<Event>, k: nat)
    requires k <= cfg.maxRetries && Retried(cfg, kind, es, k) && |es| > Prefix(cfg, kind, k)
    requires es[Prefix(cfg, kind, k)].Fetch? && es[Prefix(cfg, kind, k)].force == (kind == Force)
    ensures var n := Prefix(cfg, kind, k);
            Follow(cfg, kind, es[..n + 1]) == Some(if es[n].answer.Some? then Publishing(es[n].answer.value) else Failed(k))
  {
    var n := Prefix(cfg, kind, k);
    RetriedShrinks(cfg, kind, es, k, n);
    RetriedFollows(cfg, kind, es[..n], k);
    FollowStep(cfg, kind, es[..n], es[n]);
    assert es[..n] + [es[n]] == es[..n + 1];
  }

  lemma GaveUpFollows(cfg: Config, kind: Kind, es: seq<Event>, k: nat, last: Event)
    requires GaveUp(cfg, kind, es, k, last)
    requires last == Aborted || (last == Mark(false) && k == cfg.maxRetries)
    ensures Whole(cfg, kind, es)
  {
    RetriedThenFetch(cfg, kind, es, k);
    var n := |es| - 1;
    FollowStep(cfg, kind, es[..n], es[n]);
    assert es[..n] + [es[n]] == es;
  }

  lemma DeliveredFollows(cfg: Config, kind: Kind, es: seq<Event>, k: nat)
    requires Delivered(cfg, kind, es, k)
    ensures Whole(cfg, kind, es)
  {
    RetriedThenFetch(cfg, kind, es, k);
    var n := |es| - 2;
    FollowTwo(cfg, kind, es[..n], Publishing(es[n - 1].answer.value), es[n], es[n + 1]);
    assert es[..n] + [es[n]] + [es[n + 1]] == es;
  }

  /** The cycles the code can run are exactly the ones written out. */
  lemma WholeIffWritten(cfg: Config, kind: Kind, es: seq<Event>)
    ensures Whole(cfg, kind, es) <==> Written(cfg, kind, es)
  {
    if Whole(cfg, kind, es) {
      FollowStands(cfg, kind, es);
    }
    if GateRefused(cfg, kind, es) {
      assert es == [] + [es[0]];
      FollowStep(cfg, kind, [], es[0]);
    }
    if k :| GaveUp(cfg, kind, es, k, Aborted) {
      GaveUpFollows(cfg, kind, es, k, Aborted);
    }
    if GaveUp(cfg, kind, es, cfg.maxRetries, Mark(false)) {
      GaveUpFollows(cfg, kind, es, cfg.maxRetries, Mark(false));
    }
    if k :| Delivered(cfg, kind, es, k) {
      DeliveredFollows(cfg, kind, es, k);
    }
  }

  // ---------------------------------------------------------------------------
  // What every cycle keeps, finished or not
  // ---------------------------------------------------------------------------

  lemma {:induction false} FollowPrefix(cfg: Config, kind: Kind, es: seq<Event>, n: nat)
    requires Follow(cfg, kind, es).Some? && n <= |es|
    ensures Follow(cfg, kind, es[..n]).Some?
  {
    if n < |es| {
      FollowPrefix(cfg, kind, es[..|es| - 1], n);
      assert es[..|es| - 1][..n] == es[..n];
    } else {
      assert es[..n] == es;
    }
  }

  lemma FollowAt(cfg: Config, kind: Kind, es: seq<Event>, i: nat)
    requires Follow(cfg, kind, es).Some? && i < |es|
    ensures Follow(cfg, kind, es[..i]).Some?
    ensures Next(cfg, kind, Follow(cfg, kind, es[..i]).value, es[i]) == Follow(cfg, kind, es[..i + 1])
    ensures Follow(cfg, kind, es[..i + 1]).Some?
  {
    FollowPrefix(cfg, kind, es, i);
    FollowPrefix(cfg, kind, es, i + 1);
    FollowStep(cfg, kind, es[..i], es[i]);
    assert es[..i] + [es[i]] == es[..i + 1];
  }

  /** A cycle has at most its gate, two events for every retry, and a last attempt with its publish
      and its mark. */
  lemma CycleIsBounded(cfg: Config, kind: Kind, es: seq<Event>)
    requires Follow(cfg, kind, es).Some?
    ensures |es| <= GateEvents(cfg, kind) + 2 * cfg.maxRetries + 3
  {
    FollowStands(cfg, kind, es);
    match Follow(cfg, kind, es).value
    case Publishing(st) => var k :| Fetched(cfg, kind, es, k, st);
    case Marking(ok) => var k :| Sent(cfg, kind, es, k, ok);
    case _ =>
  }

  /** A cycle's health mark is its last event, so there is at most one. */
  lemma {:induction false} MarkIsLast(cfg: Config, kind: Kind, es: seq<Event>, i: nat)
    requires Follow(cfg, kind, es).Some? && i < |es| && es[i].Mark?
    ensures i == |es| - 1 && Whole(cfg, kind, es)
  {
    FollowAt(cfg, kind, es, i);
    if i + 1 < |es| {
      FollowAt(cfg, kind, es, i + 1);
    }
    assert es[..|es|] == es;
  }

  /** Success is marked only after a publish that succeeded, of the state that was just fetched by
      the read this kind of cycle makes. */
  lemma SuccessFollowsPublish(cfg: Config, kind: Kind, es: seq<Event>, i: nat)
    requires Follow(cfg, kind, es).Some? && i < |es| && es[i] == Mark(true)
    ensures i >= 2 && es[i - 1].Publish? && es[i - 1].ok
    ensures es[i - 2].Fetch? && es[i - 2].force == (kind == Force) && es[i - 2].answer == Some(es[i - 1].state)
  {
    MarkIsLast(cfg, kind, es, i);
    WholeIffWritten(cfg, kind, es);
  }

  /** Whatever is published is what the fetch right before it returned. */
  lemma {:induction false} PublishesWhatWasFetched(cfg: Config, kind: Kind, es: seq<Event>, i: nat)
    requires Follow(cfg, kind, es).Some? && i < |es| && es[i].Publish?
    ensures i >= 1 && es[i - 1].Fetch? && es[i - 1].answer == Some(es[i].state)
  {
    FollowAt(cfg, kind, es, i);
    FollowStands(cfg, kind, es[..i]);
    var st := es[i].state;
    var k :| Fetched(cfg, kind, es[..i], k, st);
    assert es[..i][i - 1] == es[i - 1];
  }

  /** A whole cycle marks no health exactly when it was cancelled or skipped at the gate. */
  lemma UnmarkedIff(cfg: Config, kind: Kind, es: seq<Event>)
    requires Whole(cfg, kind, es)
    ensures es != []
    ensures (forall i | 0 <= i < |es| :: !es[i].Mark?) <==> es[|es| - 1].Aborted? || GateRefused(cfg, kind, es)
  {
    WholeIffWritten(cfg, kind, es);
    var last := |es| - 1;
    forall i | 0 <= i < |es| && es[i].Mark?
      ensures i == last
    {
      MarkIsLast(cfg, kind, es, i);
    }
  }

  /** With the gate on, a forced fetch comes only after a cached read that found the car plugged in,
      in the same cycle, with nothing but failed forced fetches and waits in between. */
  lemma GateSafety(cfg: Config, es: seq<Event>, i: nat)
    requires Follow(cfg, Force, es).Some? && cfg.onlyWhenPluggedIn
    requires i < |es| && es[i].Fetch? && es[i].force
    ensures i >= 1 && es[0].Fetch? && !es[0].force
    ensures es[0].answer.Some? && es[0].answer.value.pluggedIn == Some(true)
    ensures forall j | 0 < j < i :: FailedFetch(Force, es[j]) || es[j].Slept?
  {
    FollowAt(cfg, Force, es, i);
    var before := es[..i];
    FollowStands(cfg, Force, before);
    var k := Follow(cfg, Force, before).value.k;
    forall j | 0 < j < i
      ensures FailedFetch(Force, es[j]) || es[j].Slept?
    {
      assert FailedAndWaited(Force, before, 1, (j - 1) / 2);
    }
  }

  /** A poll never asks for a forced read. */
  lemma {:induction false} PollsNeverForce(cfg: Config, es: seq<Event>, i: nat)
    requires Follow(cfg, Poll, es).Some?
    requires i < |es| && es[i].Fetch?
    ensures !es[i].force
  {
    FollowAt(cfg, Poll, es, i);
  }

  function ForcedFetches(es: seq<Event>): nat {
    if es == [] then 0
    else ForcedFetches(es[..|es| - 1]) + if es[|es| - 1].Fetch? && es[|es| - 1].force then 1 else 0
  }

  /** A refresh forces at most MaxRetries + 1 reads, a poll none. */
  lemma {:induction false} ForcedFetchesBounded(cfg: Config, kind: Kind, es: seq<Event>)
    requires Follow(cfg, kind, es).Some?
    ensures match Follow(cfg, kind, es).value {
              case Gate => ForcedFetches(es) == 0
              case Attempt(k) => k <= cfg.maxRetries && ForcedFetches(es) <= k
              case Failed(k) => k <= cfg.maxRetries && ForcedFetches(es) <= k + 1
              case _ => ForcedFetches(es) <= cfg.maxRetries + 1
            }
    ensures ForcedFetches(es) <= if kind == Force then cfg.maxRetries + 1 else 0
  {
    if es != [] {
      ForcedFetchesBounded(cfg, kind, es[..|es| - 1]);
    }
  }

  /** The time spent waiting between attempts. */
  function Waited(es: seq<Event>): int {
    if es == [] then 0
    else Waited(es[..|es| - 1]) + if es[|es| - 1].Slept? then Wait(es[|es| - 1].nanoseconds) else 0
  }

  lemma WaitedStep(es: seq<Event>, e: Event)
    ensures Waited(es + [e]) == Waited(es) + if e.Slept? then Wait(e.nanoseconds) else 0
  {
    assert (es + [e])[..|es|] == es;
  }

  lemma WaitedTwo(es: seq<Event>, fetch: Event, slept: Event)
    requires fetch.Fetch? && slept.Slept?
    ensures Waited(es + [fetch] + [slept]) == Waited(es) + Wait(slept.nanoseconds)
  {
    WaitedStep(es, fetch);
    WaitedStep(es + [fetch], slept);
  }

  lemma {:induction false} RetriedWaited(cfg: Config, kind: Kind, es: seq<Event>, k: nat)
    requires Retried(cfg, kind, es, k) && |es| == Prefix(cfg, kind, k)
    ensures Waited(es) == TotalWait(k)
    decreases k
  {
    if k == 0 {
      if |es| == 1 {
        assert es == [] + [es[0]];
        WaitedStep([], es[0]);
      }
    } else {
      var shorter, fetch := LastRetry(cfg, kind, es, k);
      RetriedWaited(cfg, kind, shorter, k - 1);
      WaitedTwo(shorter, fetch, Slept(Backoff(k - 1)));
    }
  }

  /** When attempt `k` is due, exactly 2^k - 1 seconds have been waited, if and only if k <= 34. */
  lemma WaitedBeforeAttemptIff(cfg: Config, kind: Kind, es: seq<Event>, k: nat)
    requires Follow(cfg, kind, es) == Some(Attempt(k))
    ensures k <= cfg.maxRetries
    ensures Waited(es) == (Pow2(k) - 1) * SECOND <==> k <= 34
  {
    FollowStands(cfg, kind, es);
    RetriedWaited(cfg, kind, es, k);
    TotalWaitExactIff(k);
  }

  // ---------------------------------------------------------------------------
  // Health marks
  // ---------------------------------------------------------------------------

  /** What a cycle reports. */
  function Verdict(es: seq<Event>): seq<bool> {
    if es != [] && es[|es| - 1].Mark? then [es[|es| - 1].success] else []
  }

  /** A cycle that can go on has reported nothing yet. */
  lemma {:induction false} UnfinishedReportsNothing(cfg: Config, kind: Kind, es: seq<Event>)
    requires Follow(cfg, kind, es).Some? && !Whole(cfg, kind, es)
    ensures Verdict(es) == []
  {
    if es != [] && es[|es| - 1].Mark? {
      MarkIsLast(cfg, kind, es, |es| - 1);
    }
  }
}
