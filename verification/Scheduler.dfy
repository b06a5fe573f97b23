/** The scheduler's cycles as they are written (internal/scheduler/scheduler.go): loops and effects
    on the publisher and the health reporter, shown to produce exactly the cycles of the step
    system, whatever the fetcher answers and whenever the context is cancelled. */
module Scheduler {
  import opened Wrappers
  import opened VehicleModel
  import opened Backoffs
  import opened Durations
  import opened Cycle
  import opened Readiness
  import opened Publishing
  import opened Publisher

  /** What the scheduler cannot determine: the answer of its n-th fetch with the requests it took,
      the moment of cancellation, and which way a select goes once both channels are ready. */
  datatype World = World(
    gets: nat -> seq<string>,
    answer: nat -> Option<VehicleState>,
    cancelledFrom: Option<nat>,
    timerWins: nat -> bool)

  /** A fetch is an answer the fetcher gave. */
  ghost predicate FromWorld(world: World, e: Event) {
    e.Fetch? ==> exists n :: e.gets == world.gets(n) && e.answer == world.answer(n)
  }

  ghost predicate Genuine(world: World, es: seq<Event>) {
    forall i | 0 <= i < |es| :: FromWorld(world, es[i])
  }

  /** Genuine events that bring a cycle to `pc`. */
  ghost predicate Brings(world: World, cfg: Config, kind: Kind, es: seq<Event>, pc: Pc) {
    Genuine(world, es) && Follow(cfg, kind, es) == Some(pc)
  }

  // The events one piece of a cycle adds.

  lemma Add(world: World, cfg: Config, kind: Kind, es: seq<Event>, pc: Pc, e: Event, next: Pc)
      returns (longer: seq<Event>)
    requires Brings(world, cfg, kind, es, pc) && FromWorld(world, e)
    requires Next(cfg, kind, pc, e) == Some(next)
    ensures longer == es + [e] && Brings(world, cfg, kind, longer, next)
  {
    FollowStep(cfg, kind, es, e);
    longer := es + [e];
  }

  lemma AskedAtGate(world: World, cfg: Config, e: Event) returns (es: seq<Event>)
    requires cfg.onlyWhenPluggedIn && FromWorld(world, e) && e.Fetch? && !e.force
    ensures es == [e] && Brings(world, cfg, Force, es, if Plugged(e.answer) then Attempt(0) else Done)
  {
    es := Add(world, cfg, Force, [], Gate, e, if Plugged(e.answer) then Attempt(0) else Done);
  }

  lemma GivenUp(world: World, cfg: Config, kind: Kind, es: seq<Event>, k: nat, last: Event) returns (whole: seq<Event>)
    requires Brings(world, cfg, kind, es, Failed(k))
    requires last == Aborted || (last == Mark(false) && k == cfg.maxRetries)
    ensures whole == es + [last] && Brings(world, cfg, kind, whole, Done)
    ensures Verdict(whole) == if last.Mark? then [false] else []
    ensures |whole| >= 2 && !whole[|whole| - 2].Publish?
  {
    whole := Add(world, cfg, kind, es, Failed(k), last, Done);
    FollowStands(cfg, kind, es);
  }

  lemma Published(world: World, cfg: Config, kind: Kind, es: seq<Event>, st: VehicleState, ok: bool)
      returns (whole: seq<Event>)
    requires Brings(world, cfg, kind, es, Publishing(st))
    ensures whole == es + [Publish(st, ok)] + [Mark(ok)] && Brings(world, cfg, kind, whole, Done)
    ensures Verdict(whole) == [ok]
    ensures |whole| >= 2 && whole[|whole| - 2] == Publish(st, ok)
  {
    whole := Add(world, cfg, kind, es, Publishing(st), Publish(st, ok), Marking(ok));
    whole := Add(world, cfg, kind, whole, Marking(ok), Mark(ok), Done);
  }

  class Scheduler {
    const cfg: Config
    const publisher: RecordingService
    const health: Server
    const world: World
    var now: nat

    /** The events of all finished cycles. */
    ghost var trace: seq<Event>

    ghost predicate Valid()
      reads this, health, publisher.pub.broker
    {
      publisher.status == health && health.Valid() && publisher.pub.broker.Valid()
    }

    predicate Cancelled()
      reads this
    {
      world.cancelledFrom.Some? && world.cancelledFrom.value <= now
    }

    constructor (vehicle: Vehicle, maxRetries: int, onlyWhenPluggedIn: bool, publisher: RecordingService, world: World)
      requires publisher.status.Valid() && publisher.pub.broker.Valid()
      ensures Valid() && trace == [] && this.publisher == publisher && this.world == world
      ensures cfg == NewConfig(vehicle, maxRetries, onlyWhenPluggedIn)
      ensures cfg.vehicle == vehicle && cfg.onlyWhenPluggedIn == onlyWhenPluggedIn
      ensures cfg.maxRetries == if maxRetries < 0 then 0 else maxRetries
    {
      cfg := Config(vehicle, if maxRetries < 0 then 0 else maxRetries, onlyWhenPluggedIn);
      this.publisher, this.health, this.world := publisher, publisher.status, world;
      now, trace := 0, [];
    }

    /** CachedStatus or ForceStatus. */
    method Status(force: bool) returns (answer: Option<VehicleState>, ghost e: Event)
      modifies `now
      ensures now > old(now)
      ensures FromWorld(world, e) && e == Fetch(force, world.gets(old(now)), answer)
    {
      answer := world.answer(now);
      e := Fetch(force, world.gets(now), answer);
      now := now + 1;
    }

    /** The select between cancellation and the timer; it can pick cancellation only once that has
        happened, and must if the timer does not fire. */
    method SleepOrCancel(nanoseconds: int) returns (slept: bool, ghost e: Event)
      modifies `now
      ensures now > old(now)
      ensures !slept ==> Cancelled()
      ensures e == Slept(nanoseconds)
    {
      e := Slept(nanoseconds);
      now := now + 1;
      slept := world.timerWins(now) || !(world.cancelledFrom.Some? && world.cancelledFrom.value <= now);
    }

    /** fetchWithRetry: a state only if the last attempt of the cycle returned it; otherwise attempt
        `last` failed and no more are allowed, or the context is cancelled. */
    method FetchWithRetry(ghost kind: Kind, force: bool, ghost before: seq<Event>)
        returns (st: Option<VehicleState>, ghost last: nat, ghost es: seq<Event>)
      requires force <==> kind == Force
      requires Brings(world, cfg, kind, before, Attempt(0))
      modifies `now
      ensures before <= es
      ensures Brings(world, cfg, kind, es, if st.Some? then Publishing(st.value) else Failed(last))
      ensures st.None? ==> last == cfg.maxRetries || Cancelled()
    {
      es, last := before, 0;
      var backoff := SECOND;
      var attempt := 0;
      while attempt <= cfg.maxRetries
        invariant 0 <= attempt <= cfg.maxRetries + 1
        invariant last == if attempt == 0 then 0 else attempt - 1
        invariant backoff == Backoff(last)
        invariant before <= es
        invariant Brings(world, cfg, kind, es, if attempt == 0 then Attempt(0) else Failed(last))
      {
        if attempt > 0 {
          var slept;
          ghost var wait;
          slept, wait := SleepOrCancel(backoff);
          if !slept {
            return None, last, es;
          }
          es := Add(world, cfg, kind, es, Failed(last), wait, Attempt(attempt));
          backoff := Wrap64(backoff * 2);
        }
        ghost var e;
        st, e := Status(force);
        es := Add(world, cfg, kind, es, Attempt(attempt), e, if st.Some? then Publishing(st.value) else Failed(attempt));
        last := attempt;
        if st.Some? || Cancelled() {
          return;
        }
        attempt := attempt + 1;
      }
      st := None;
    }

    /** The tail of poll and forceRefresh: what to do with fetchWithRetry's result. */
    method Finish(ghost kind: Kind, st: Option<VehicleState>, ghost last: nat, ghost before: seq<Event>)
        returns (ghost es: seq<Event>)
      requires Valid()
      requires Brings(world, cfg, kind, before, if st.Some? then Publishing(st.value) else Failed(last))
      requires st.None? ==> last == cfg.maxRetries || Cancelled()
      modifies health, publisher.pub.broker
      ensures Valid() && before <= es && Brings(world, cfg, kind, es, Done)
      ensures st.None? ==> Verdict(es) == if Cancelled() then [] else [false]
      ensures health.history == old(health.history) + Verdict(es)
      ensures BrokerFollows(es, old(publisher.pub.broker.records), old(publisher.pub.broker.sent))
    {
      if st.None? {
        if Cancelled() {
          es := GivenUp(world, cfg, kind, before, last, Aborted);
          return;
        }
        health.MarkFailure();
        es := GivenUp(world, cfg, kind, before, last, Mark(false));
        return;
      }
      var ok := publisher.PublishState(st.value);
      es := Published(world, cfg, kind, before, st.value, ok);
      if ok {
        health.MarkSuccess();
      } else {
        health.MarkFailure();
      }
    }

    /** A cycle sends nothing, or publishes the one state it fetched. */
    ghost predicate BrokerFollows(es: seq<Event>, records: Retained, sent: nat)
      reads this, publisher.pub.broker
    {
      var pub := publisher.pub;
      if |es| >= 2 && es[|es| - 2].Publish? then
        Sent(pub.broker.records, pub.broker.sent, es[|es| - 2].ok) ==
        Publishing.PublishState(pub.topics, pub.distanceUnit, records, es[|es| - 2].state, pub.broker.delivery, sent)
      else pub.broker.records == records && pub.broker.sent == sent
    }

    /** One cached cycle. */
    method PollNow() returns (ghost es: seq<Event>)
      requires Valid()
      modifies this, health, publisher.pub.broker
      ensures Valid() && trace == old(trace) + es
      ensures Genuine(world, es) && Whole(cfg, Poll, es)
      ensures health.history == old(health.history) + Verdict(es)
      ensures BrokerFollows(es, old(publisher.pub.broker.records), old(publisher.pub.broker.sent))
    {
      var st;
      ghost var last;
      st, last, es := FetchWithRetry(Poll, false, []);
      es := Finish(Poll, st, last, es);
      trace := trace + es;
    }

    /** The plugged-in gate. */
    method PassGate() returns (pass: bool, ghost es: seq<Event>)
      modifies `now
      ensures Brings(world, cfg, Force, es, if pass then Attempt(0) else Done)
      ensures !pass ==> Verdict(es) == [] && |es| == 1
      ensures cfg.onlyWhenPluggedIn ==> |es| == 1 && es[0].Fetch? && !es[0].force
      ensures cfg.onlyWhenPluggedIn ==> (pass <==> es[0].answer.Some? && es[0].answer.value.pluggedIn == Some(true))
      ensures !cfg.onlyWhenPluggedIn ==> pass && es == []
    {
      es := [];
      pass := true;
      if cfg.onlyWhenPluggedIn {
        var cached;
        ghost var e;
        cached, e := Status(false);
        es := AskedAtGate(world, cfg, e);
        pass := cached.Some? && cached.value.pluggedIn.Some? && cached.value.pluggedIn.value;
      }
    }

    /** One car-waking cycle. */
    method ForceNow() returns (ghost es: seq<Event>)
      requires Valid()
      modifies this, health, publisher.pub.broker
      ensures Valid() && trace == old(trace) + es
      ensures Genuine(world, es) && Whole(cfg, Force, es)
      ensures health.history == old(health.history) + Verdict(es)
      ensures BrokerFollows(es, old(publisher.pub.broker.records), old(publisher.pub.broker.sent))
    {
      var pass;
      pass, es := PassGate();
      if pass {
        var st;
        ghost var last;
        st, last, es := FetchWithRetry(Force, true, es);
        es := Finish(Force, st, last, es);
      }
      trace := trace + es;
    }
  }
}
