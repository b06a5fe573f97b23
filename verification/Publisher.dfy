/** The publishing classes (internal/publisher/publisher.go, internal/publisher/recording.go,
    internal/cmd/serve.go): a broker that keeps the last payload of each topic and may lose a
    message, the service that sends a state to it, and the wrapper that records metrics. */
module Publisher {
  import opened Wrappers
  import opened VehicleModel
  import opened Distances
  import opened Readiness
  import opened Publishing

  /** RecordingPublisher is the broker that acknowledges everything. */
  class Broker {
    var records: Retained
    var order: seq<string>
    var sent: nat
    const delivery: nat -> Delivery

    /** Every topic once, in `order`. */
    ghost predicate Valid()
      reads this
    {
      && (forall topic :: topic in order <==> topic in records)
      && (forall i, j | 0 <= i < j < |order| :: order[i] != order[j])
    }

    constructor (delivery: nat -> Delivery)
      ensures Valid() && records == map[] && sent == 0 && this.delivery == delivery
    {
      records, order, sent := map[], [], 0;
      this.delivery := delivery;
    }

    method Publish(topic: string, payload: Payload) returns (ok: bool)
      requires Valid()
      modifies this
      ensures Valid() && sent == old(sent) + 1
      ensures records == Store(old(records), Message(topic, payload), delivery(old(sent)))
      ensures order == old(order) + if topic in records && topic !in old(records) then [topic] else []
      ensures ok <==> delivery(old(sent)).Acked?
    {
      var d := delivery(sent);
      sent := sent + 1;
      if !d.Lost? {
        if topic !in records {
          order := order + [topic];
        }
        records := records[topic := payload];
      }
      ok := d.Acked?;
    }

    method Get(topic: string) returns (r: Option<Payload>)
      ensures r == if topic in records then Some(records[topic]) else None
    {
      r := if topic in records then Some(records[topic]) else None;
    }
  }

  /** A publish that starts with a message is that message, then the rest if it was acknowledged. */
  lemma SendFirst(retained: Retained, m: Message, rest: seq<Message>, delivery: nat -> Delivery, at: nat)
    ensures Send(retained, [m] + rest, delivery, at) ==
            if delivery(at).Acked? then Send(Store(retained, m, Acked), rest, delivery, at + 1)
            else Sent(Store(retained, m, delivery(at)), at + 1, false)
  {
    assert ([m] + rest)[1..] == rest;
  }

  function TrackerPlan(t: Topics, st: VehicleState): seq<Message> {
    (if HasPosition(st) then [Message(t.TrackerAttributes(), PositionOf(st))] else []) + [Message(t.TrackerState(), TRACKER_RESET)]
  }

  class Service {
    const broker: Broker
    const topics: Topics
    const distanceUnit: string

    constructor (broker: Broker, topics: Topics, distanceUnit: string)
      ensures this.broker == broker && this.topics == topics && this.distanceUnit == distanceUnit
    {
      this.broker, this.topics, this.distanceUnit := broker, topics, distanceUnit;
    }

    method PublishState(state: VehicleState) returns (ok: bool)
      requires broker.Valid()
      modifies broker
      ensures broker.Valid()
      ensures Sent(broker.records, broker.sent, ok) ==
              Publishing.PublishState(topics, distanceUnit, old(broker.records), state, broker.delivery, old(broker.sent))
      ensures ok && Configurable(distanceUnit) && UnitsParsed(state) ==> Shown(topics, distanceUnit, broker.records, state)
    {
      ghost var delivery, before, at := broker.delivery, broker.records, broker.sent;
      if Configurable(distanceUnit) && UnitsParsed(state) {
        SuccessIsShown(topics, distanceUnit, before, state, delivery, at);
      }
      var st := InDistanceUnit(state, distanceUnit);
      ghost var first := Message(topics.State(), StateDocument(st));
      SendFirst(broker.records, first, TrackerPlan(topics, state), broker.delivery, broker.sent);
      assert [first] + TrackerPlan(topics, state) == Plan(topics, distanceUnit, state);
      ok := broker.Publish(topics.State(), StateDocument(st));
      if !ok {
        return;
      }
      ok := PublishTracker(st);
    }

    method PublishTracker(st: VehicleState) returns (ok: bool)
      requires broker.Valid()
      modifies broker
      ensures broker.Valid()
      ensures Sent(broker.records, broker.sent, ok) ==
              Send(old(broker.records), TrackerPlan(topics, st), broker.delivery, old(broker.sent))
    {
      ghost var reset := [Message(topics.TrackerState(), TRACKER_RESET)];
      if st.latitude.Some? && st.longitude.Some? {
        SendFirst(broker.records, Message(topics.TrackerAttributes(), PositionOf(st)), reset, broker.delivery, broker.sent);
        ok := broker.Publish(topics.TrackerAttributes(), Position(st.latitude.value, st.longitude.value));
        if !ok {
          return;
        }
      }
      SendFirst(broker.records, reset[0], [], broker.delivery, broker.sent);
      assert reset == [reset[0]] + [] && TrackerPlan(topics, st)[|TrackerPlan(topics, st)| - 1..] == reset;
      ok := broker.Publish(topics.TrackerState(), TRACKER_RESET);
    }
  }

  function MetricsFromState(st: VehicleState): Metrics {
    Metrics(st.evBatteryPercentage, st.evBatterySoH, st.evRange, st.evRangeUnit, st.charging, st.pluggedIn,
            st.chargePortDoorOpen, st.chargeLimitAC, st.chargeLimitDC, st.chargingPowerKW, st.estChargeDurationMin,
            st.estFastChargeDurationMin, st.battery12VPercentage, st.outsideTemperatureC, st.insideTemperatureC,
            st.tirePressureWarning, st.lastUpdatedAt)
  }

  /** The status page shows the state's own readings, each under its name, in the units they were read
      in; it has no place for position, odometer or lock. */
  predicate OnStatusPage(m: Metrics, st: VehicleState) {
    && m.evBatteryPercentage == st.evBatteryPercentage && m.evBatterySoH == st.evBatterySoH
    && m.evRange == st.evRange && m.evRangeUnit == st.evRangeUnit
    && m.charging == st.charging && m.pluggedIn == st.pluggedIn && m.chargePortDoorOpen == st.chargePortDoorOpen
    && m.chargeLimitAC == st.chargeLimitAC && m.chargeLimitDC == st.chargeLimitDC
    && m.chargingPowerKW == st.chargingPowerKW && m.estChargeDurationMin == st.estChargeDurationMin
    && m.estFastChargeDurationMin == st.estFastChargeDurationMin
    && m.battery12VPercentage == st.battery12VPercentage
    && m.outsideTemperatureC == st.outsideTemperatureC && m.insideTemperatureC == st.insideTemperatureC
    && m.tirePressureWarning == st.tirePressureWarning && m.lastUpdatedAt == st.lastUpdatedAt
  }

  class RecordingService {
    const pub: Service
    const status: Server

    constructor (pub: Service, status: Server)
      ensures this.pub == pub && this.status == status
    {
      this.pub, this.status := pub, status;
    }

    /** Metrics are replaced exactly when every message of the publish was acknowledged; health is
        never touched here. */
    method PublishState(state: VehicleState) returns (ok: bool)
      requires pub.broker.Valid() && status.Valid()
      modifies pub.broker, status`metrics
      ensures pub.broker.Valid() && status.Valid()
      ensures Sent(pub.broker.records, pub.broker.sent, ok) ==
              Publishing.PublishState(pub.topics, pub.distanceUnit, old(pub.broker.records), state,
                                      pub.broker.delivery, old(pub.broker.sent))
      ensures ok && Configurable(pub.distanceUnit) && UnitsParsed(state) ==>
                Shown(pub.topics, pub.distanceUnit, pub.broker.records, state)
      ensures if ok then status.metrics.Some? && OnStatusPage(status.metrics.value, state)
              else status.metrics == old(status.metrics)
    {
      ok := pub.PublishState(state);
      if !ok {
        return;
      }
      status.SetMetrics(MetricsFromState(state));
    }
  }
}
