/** The retained MQTT state (internal/publisher/publisher.go, internal/publisher/recording.go,
    internal/cmd/serve.go): one publish is several messages, any of which the transport may lose.
    A payload is the value that is marshalled. */
module Publishing {
  import opened Wrappers
  import opened VehicleModel
  import opened Distances

  datatype Payload =
    | StateDocument(state: VehicleState)
    | Position(latitude: real, longitude: real)
    | Text(text: string)

  datatype Message = Message(topic: string, payload: Payload)

  datatype Topics = Topics(prefix: string, vin: string) {
    function Base(): string {
      prefix + "/" + vin
    }
    function State(): string {
      Base() + "/state"
    }
    function TrackerAttributes(): string {
      Base() + "/tracker/attributes"
    }
    function TrackerState(): string {
      Base() + "/tracker/state"
    }
    function Availability(): string {
      Base() + "/availability"
    }
  }

  lemma TopicsDistinct(t: Topics)
    ensures t.State() != t.TrackerAttributes() && t.State() != t.TrackerState() &&
            t.TrackerAttributes() != t.TrackerState()
    ensures t.Availability() !in [t.State(), t.TrackerAttributes(), t.TrackerState()]
  {
    var n := |t.Base()|;
    assert |t.State()| == n + 6 && |t.TrackerAttributes()| == n + 19;
    assert |t.TrackerState()| == n + 14 && |t.Availability()| == n + 13;
  }

  // ---------------------------------------------------------------------------
  // Sending a plan of messages
  // ---------------------------------------------------------------------------

  /** What becomes of one message: acknowledged, lost, or stored with the acknowledgement lost. */
  datatype Delivery = Acked | Lost | Unacked

  type Retained = map<string, Payload>

  function Store(retained: Retained, m: Message, d: Delivery): Retained {
    if d.Lost? then retained else retained[m.topic := m.payload]
  }

  datatype Sent = Sent(retained: Retained, next: nat, ok: bool)

  /** Sends the messages in order and stops at the first one that is not acknowledged. `at` counts
      the messages sent before. */
  function Send(retained: Retained, plan: seq<Message>, delivery: nat -> Delivery, at: nat): Sent
    decreases |plan|
  {
    if plan == [] then Sent(retained, at, true)
    else if delivery(at).Acked? then Send(Store(retained, plan[0], Acked), plan[1..], delivery, at + 1)
    else Sent(Store(retained, plan[0], delivery(at)), at + 1, false)
  }

  predicate OnTopic(plan: seq<Message>, topic: string) {
    exists i :: 0 <= i < |plan| && plan[i].topic == topic
  }

  predicate DistinctTopics(plan: seq<Message>) {
    forall i, j | 0 <= i < j < |plan| :: plan[i].topic != plan[j].topic
  }

  predicate Holds(retained: Retained, m: Message) {
    m.topic in retained && retained[m.topic] == m.payload
  }

  predicate SameAt(a: Retained, b: Retained, topic: string) {
    if topic in a then topic in b && a[topic] == b[topic] else topic !in b
  }

  lemma {:induction false} SendElsewhere(retained: Retained, plan: seq<Message>, delivery: nat -> Delivery, at: nat,
                                         topic: string)
    requires !OnTopic(plan, topic)
    ensures SameAt(retained, Send(retained, plan, delivery, at).retained, topic)
    decreases |plan|
  {
    if plan != [] {
      assert plan[0].topic != topic;
      if delivery(at).Acked? {
        forall i | 0 <= i < |plan[1..]|
          ensures plan[1..][i].topic != topic
        {
          assert plan[1..][i] == plan[i + 1];
        }
        SendElsewhere(Store(retained, plan[0], Acked), plan[1..], delivery, at + 1, topic);
      }
    }
  }

  /** A plan of distinct topics leaves each topic as it was or with its message, and a message is
      stored only if every earlier one was; it succeeds exactly when all were acknowledged. */
  lemma {:induction false} SendEffect(retained: Retained, plan: seq<Message>, delivery: nat -> Delivery, at: nat)
    requires DistinctTopics(plan)
    ensures var s := Send(retained, plan, delivery, at);
            && (s.ok <==> forall k | at <= k < at + |plan| :: delivery(k).Acked?)
            && (s.ok ==> forall i | 0 <= i < |plan| :: Holds(s.retained, plan[i]))
            && (forall i | 0 <= i < |plan| :: Holds(s.retained, plan[i]) || SameAt(retained, s.retained, plan[i].topic))
            && (forall i, j | 0 <= i < j < |plan| && !SameAt(retained, s.retained, plan[j].topic) :: Holds(s.retained, plan[i]))
    decreases |plan|
  {
    if plan != [] {
      var rest := plan[1..];
      assert DistinctTopics(rest);
      assert !OnTopic(rest, plan[0].topic);
      if delivery(at).Acked? {
        var stored := Store(retained, plan[0], Acked);
        SendEffect(stored, rest, delivery, at + 1);
        SendElsewhere(stored, rest, delivery, at + 1, plan[0].topic);
        var s := Send(retained, plan, delivery, at);
        assert Holds(s.retained, plan[0]);
        forall i | 1 <= i < |plan|
          ensures Holds(s.retained, plan[i]) || SameAt(retained, s.retained, plan[i].topic)
          ensures s.ok ==> Holds(s.retained, plan[i])
          ensures SameAt(stored, s.retained, plan[i].topic) == SameAt(retained, s.retained, plan[i].topic)
        {
          assert rest[i - 1] == plan[i];
        }
      }
    }
  }

  // ---------------------------------------------------------------------------
  // Publishing a state
  // ---------------------------------------------------------------------------

  const TRACKER_RESET: Payload := Text("None")

  predicate HasPosition(st: VehicleState) {
    st.latitude.Some? && st.longitude.Some?
  }

  function PositionOf(st: VehicleState): Payload
    requires HasPosition(st)
  {
    Position(st.latitude.value, st.longitude.value)
  }

  function Document(unit: string, st: VehicleState): Payload {
    StateDocument(InDistanceUnit(st, unit))
  }

  /** The messages of one publish, in order. */
  function Plan(t: Topics, unit: string, st: VehicleState): seq<Message> {
    [Message(t.State(), Document(unit, st))]
    + (if HasPosition(st) then [Message(t.TrackerAttributes(), PositionOf(st))] else [])
    + [Message(t.TrackerState(), TRACKER_RESET)]
  }

  function PublishState(t: Topics, unit: string, retained: Retained, st: VehicleState, delivery: nat -> Delivery,
                        at: nat): Sent {
    Send(retained, Plan(t, unit, st), delivery, at)
  }

  /** After a successful publish the broker retains the whole state, converted, and its position;
      an unknown position leaves the retained one alone. Nothing else changes. */
  lemma SuccessRetainsState(t: Topics, unit: string, retained: Retained, st: VehicleState, delivery: nat -> Delivery,
                            at: nat)
    ensures var s := PublishState(t, unit, retained, st, delivery, at);
            && (s.ok ==> Holds(s.retained, Message(t.State(), Document(unit, st))))
            && (s.ok ==> Holds(s.retained, Message(t.TrackerState(), TRACKER_RESET)))
            && (s.ok && HasPosition(st) ==> Holds(s.retained, Message(t.TrackerAttributes(), PositionOf(st))))
            && (!HasPosition(st) ==> SameAt(retained, s.retained, t.TrackerAttributes()))
            && (forall topic | topic !in [t.State(), t.TrackerAttributes(), t.TrackerState()] ::
                  SameAt(retained, s.retained, topic))
  {
    TopicsDistinct(t);
    var plan := Plan(t, unit, st);
    SendEffect(retained, plan, delivery, at);
    assert plan[0].topic == t.State() && plan[|plan| - 1] == Message(t.TrackerState(), TRACKER_RESET);
    forall topic | !OnTopic(plan, topic)
      ensures SameAt(retained, PublishState(t, unit, retained, st, delivery, at).retained, topic)
    {
      SendElsewhere(retained, plan, delivery, at, topic);
    }
  }

  /** What Home Assistant finds on the vehicle's topics says what the state says. */
  ghost predicate Shown(t: Topics, unit: string, retained: Retained, st: VehicleState)
    requires Configurable(unit)
  {
    var base := t.prefix + "/" + t.vin;
    && base + "/state" in retained && retained[base + "/state"].StateDocument?
    && SaysTheSame(retained[base + "/state"].state, st, unit)
    && base + "/tracker/state" in retained && retained[base + "/tracker/state"] == Text("None")
    && (st.latitude.Some? && st.longitude.Some? ==>
      && base + "/tracker/attributes" in retained && retained[base + "/tracker/attributes"].Position?
      && retained[base + "/tracker/attributes"].latitude == st.latitude.value
      && retained[base + "/tracker/attributes"].longitude == st.longitude.value)
  }

  /** A successful publish shows the state: its distances in the configured unit and standing for the
      lengths that were read, everything else as it is. */
  lemma SuccessIsShown(t: Topics, unit: string, retained: Retained, st: VehicleState, delivery: nat -> Delivery, at: nat)
    requires Configurable(unit) && UnitsParsed(st)
    ensures var s := PublishState(t, unit, retained, st, delivery, at);
            s.ok ==> Shown(t, unit, s.retained, st)
  {
    SuccessRetainsState(t, unit, retained, st, delivery, at);
    ConvertedStateSaysTheSame(st, unit);
    var base := t.prefix + "/" + t.vin;
    assert t.State() == base + "/state" && t.TrackerState() == base + "/tracker/state";
    assert t.TrackerAttributes() == base + "/tracker/attributes";
  }

  /** Whether it succeeds or not, a publish leaves the document and the position as they were, or
      replaces the document, or replaces both. */
  lemma PublishEffect(t: Topics, unit: string, retained: Retained, st: VehicleState, delivery: nat -> Delivery, at: nat)
    ensures var after := PublishState(t, unit, retained, st, delivery, at).retained;
            var doc, pos := t.State(), t.TrackerAttributes();
            || (SameAt(retained, after, doc) && SameAt(retained, after, pos))
            || (Holds(after, Message(doc, Document(unit, st))) && SameAt(retained, after, pos))
            || (&& HasPosition(st) && Holds(after, Message(doc, Document(unit, st)))
                && Holds(after, Message(pos, PositionOf(st))))
  {
    TopicsDistinct(t);
    SuccessRetainsState(t, unit, retained, st, delivery, at);
    var plan := Plan(t, unit, st);
    SendEffect(retained, plan, delivery, at);
    assert plan[0] == Message(t.State(), Document(unit, st));
    if HasPosition(st) {
      assert plan[1] == Message(t.TrackerAttributes(), PositionOf(st));
    }
  }

  // ---------------------------------------------------------------------------
  // Runs of publishes
  // ---------------------------------------------------------------------------

  /** The broker after publishing each of the states in turn. */
  function PublishAll(t: Topics, unit: string, retained: Retained, states: seq<VehicleState>,
                      delivery: nat -> Delivery): Sent {
    if states == [] then Sent(retained, 0, true)
    else
      var before := PublishAll(t, unit, retained, states[..|states| - 1], delivery);
      PublishState(t, unit, before.retained, states[|states| - 1], delivery, before.next)
  }

  predicate DocumentFrom(t: Topics, unit: string, retained: Retained, states: seq<VehicleState>, i: nat) {
    i < |states| && Holds(retained, Message(t.State(), Document(unit, states[i])))
  }

  predicate PositionFrom(t: Topics, retained: Retained, states: seq<VehicleState>, j: nat) {
    j < |states| && HasPosition(states[j]) && Holds(retained, Message(t.TrackerAttributes(), PositionOf(states[j])))
  }

  /** Where the retained document and position come from: from before the states were published, or
      from the states, the position from none newer than the document. */
  ghost predicate Consistent(t: Topics, unit: string, start: Retained, retained: Retained, states: seq<VehicleState>) {
    && (|| SameAt(start, retained, t.State())
        || exists i :: DocumentFrom(t, unit, retained, states, i))
    && (|| SameAt(start, retained, t.TrackerAttributes())
        || exists i, j :: j <= i && DocumentFrom(t, unit, retained, states, i) && PositionFrom(t, retained, states, j))
  }

  lemma ConsistentStep(t: Topics, unit: string, start: Retained, before: Retained, after: Retained,
                       states: seq<VehicleState>, st: VehicleState)
    requires Consistent(t, unit, start, before, states)
    requires var doc, pos := t.State(), t.TrackerAttributes();
             || (SameAt(before, after, doc) && SameAt(before, after, pos))
             || (Holds(after, Message(doc, Document(unit, st))) && SameAt(before, after, pos))
             || (&& HasPosition(st) && Holds(after, Message(doc, Document(unit, st)))
                 && Holds(after, Message(pos, PositionOf(st))))
    ensures Consistent(t, unit, start, after, states + [st])
  {
    var all, n := states + [st], |states|;
    if i :| SameAt(before, after, t.State()) && DocumentFrom(t, unit, before, states, i) {
      assert DocumentFrom(t, unit, after, all, i);
    }
    if Holds(after, Message(t.State(), Document(unit, st))) {
      assert DocumentFrom(t, unit, after, all, n);
    }
    if i, j :| && SameAt(before, after, t.TrackerAttributes()) && j <= i
               && DocumentFrom(t, unit, before, states, i) && PositionFrom(t, before, states, j) {
      assert PositionFrom(t, after, all, j);
      assert DocumentFrom(t, unit, after, all, i) || DocumentFrom(t, unit, after, all, n);
    }
    if HasPosition(st) && Holds(after, Message(t.TrackerAttributes(), PositionOf(st))) {
      assert PositionFrom(t, after, all, n);
    }
  }

  /** Whatever fails along the way and whatever the broker retained before, the retained document is
      the one from before or that of a state published, and the retained position is the one from
      before or that of a state published that is no newer than the document's. */
  lemma {:induction false} PositionNeverNewer(t: Topics, unit: string, start: Retained,
                                              states: seq<VehicleState>, delivery: nat -> Delivery)
    ensures Consistent(t, unit, start, PublishAll(t, unit, start, states, delivery).retained, states)
  {
    if states != [] {
      var init, st := states[..|states| - 1], states[|states| - 1];
      PositionNeverNewer(t, unit, start, init, delivery);
      var before := PublishAll(t, unit, start, init, delivery);
      PublishEffect(t, unit, before.retained, st, delivery, before.next);
      ConsistentStep(t, unit, start, before.retained, PublishAll(t, unit, start, states, delivery).retained, init, st);
      assert init + [st] == states;
    }
  }

  /** The last state with a known position. */
  ghost predicate LastPosition(states: seq<VehicleState>, j: nat) {
    j < |states| && HasPosition(states[j]) && forall k | j < k < |states| :: !HasPosition(states[k])
  }

  /** Once the position of the last state that had one has been stored, whether or not the rest of
      its publish was acknowledged, the tracker keeps it through any number of later publishes
      without one, failed or not. */
  lemma {:induction false} TrackerKeepsLastKnown(t: Topics, unit: string, start: Retained,
                                                 states: seq<VehicleState>, delivery: nat -> Delivery, j: nat)
    requires LastPosition(states, j)
    requires PositionFrom(t, PublishAll(t, unit, start, states[..j + 1], delivery).retained, states, j)
    ensures PositionFrom(t, PublishAll(t, unit, start, states, delivery).retained, states, j)
    decreases |states|
  {
    if j == |states| - 1 {
      assert states[..j + 1] == states;
    } else {
      var init, st := states[..|states| - 1], states[|states| - 1];
      var before := PublishAll(t, unit, start, init, delivery);
      assert init[..j + 1] == states[..j + 1];
      TrackerKeepsLastKnown(t, unit, start, init, delivery, j);
      SuccessRetainsState(t, unit, before.retained, st, delivery, before.next);
    }
  }

  /** In particular when that publish succeeded. */
  lemma SuccessStoresPosition(t: Topics, unit: string, start: Retained, states: seq<VehicleState>,
                              delivery: nat -> Delivery, j: nat)
    requires LastPosition(states, j)
    requires PublishAll(t, unit, start, states[..j + 1], delivery).ok
    ensures PositionFrom(t, PublishAll(t, unit, start, states, delivery).retained, states, j)
  {
    var upTo := states[..j + 1];
    var before := PublishAll(t, unit, start, upTo[..j], delivery);
    SuccessRetainsState(t, unit, before.retained, upTo[j], delivery, before.next);
    TrackerKeepsLastKnown(t, unit, start, states, delivery, j);
  }
}
