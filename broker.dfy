/**
 * The event broker of Cloud_patterns/PubSub/AzureServiceBusEventBroker.cs
 * with the Azure Service Bus SDK taken out.
 *
 * The Service Bus namespace is represented by the set of topics and
 * subscriptions that exist in it; a failing admin call is named by an input
 * set of entities whose calls throw; a send is replaced by appending the
 * message to an outbox, and whether the send throws is an input.
 */
module Broker {
  import opened Wrappers
  import opened Events
  import Text

  // ---------------------------------------------------------------------------
  // Topic and subscription naming
  // ---------------------------------------------------------------------------

  const PriceTopic: string := "stock-price-updates"
  const VolumeTopic: string := "stock-volume-updates"

  /** GetTopicName<TEvent>: the topic an event type is published to and consumed from. */
  function GetTopicName(kind: EventKind): string {
    match kind
    case StockPriceUpdatedKind => PriceTopic
    case StockVolumeUpdatedKind => VolumeTopic
    case OtherKind(typeName) => Text.ToLower(typeName)
  }

  /**
   * Two event types share a topic only when neither is one of the two stock
   * events (and their names differ only in case): C# type names never contain
   * the hyphen that both fixed topic names have.
   */
  lemma {:induction false} TopicsSeparateStockEvents(k1: EventKind, k2: EventKind)
    requires k1.OtherKind? ==> '-' !in k1.typeName
    requires k2.OtherKind? ==> '-' !in k2.typeName
    requires k1 != k2
    requires GetTopicName(k1) == GetTopicName(k2)
    ensures k1.OtherKind? && k2.OtherKind?
    ensures Text.EqualsIgnoreCase(k1.typeName, k2.typeName)
  {
    assert PriceTopic[5] == '-' && VolumeTopic[5] == '-';
  }

  const SubscriptionSuffix: string := "-subscription"

  /** The subscription a client consumes a topic through: `{clientName}-subscription`. */
  function SubscriptionName(clientName: string): (r: string)
    ensures |r| == |clientName| + |SubscriptionSuffix|
  {
    clientName + SubscriptionSuffix
  }

  /** The client a subscription name was derived from, if it has the suffix. */
  function ClientNameOf(subscriptionName: string): (r: Option<string>)
    ensures r.Some? ==> SubscriptionName(r.value) == subscriptionName
  {
    var n := |subscriptionName| - |SubscriptionSuffix|;
    if n >= 0 && subscriptionName[n..] == SubscriptionSuffix then
      Some(subscriptionName[..n])
    else
      None
  }

  /** Deriving a subscription name loses nothing: the client name is recovered from it. */
  lemma SubscriptionNameRoundTrip(clientName: string)
    ensures ClientNameOf(SubscriptionName(clientName)) == Some(clientName)
  {
    var s := SubscriptionName(clientName);
    assert s[|clientName|..] == SubscriptionSuffix;
    assert s[..|clientName|] == clientName;
  }

  // ---------------------------------------------------------------------------
  // Infrastructure provisioning (EnsureInfrastructureExists)
  // ---------------------------------------------------------------------------

  /** An entity of the Service Bus namespace. */
  datatype Entity = Topic(name: string) | Subscription(topic: string, name: string)

  const TopicNames: seq<string> := [PriceTopic, VolumeTopic]

  /** The fixed subscription table, topic by topic, in its enumeration order. */
  const SubscriptionTable: seq<(string, seq<string>)> := [
    (PriceTopic, ["dashboard-subscription", "mobile-subscription", "analytics-subscription", "read-model-subscription"]),
    (VolumeTopic, ["all-clients-subscription", "read-model-subscription"])
  ]

  /** The topic steps of a provisioning run: one per name, in order. */
  function TopicSteps(names: seq<string>): seq<Entity>
    decreases |names|
  {
    if names == [] then [] else [Topic(names[0])] + TopicSteps(names[1..])
  }

  /** The subscription steps for one topic: one per name, in order. */
  function SubscriptionRow(topic: string, names: seq<string>): seq<Entity>
    decreases |names|
  {
    if names == [] then [] else [Subscription(topic, names[0])] + SubscriptionRow(topic, names[1..])
  }

  /** The subscription steps of a table, row after row. */
  function SubscriptionSteps(table: seq<(string, seq<string>)>): seq<Entity>
    decreases |table|
  {
    if table == [] then [] else SubscriptionRow(table[0].0, table[0].1) + SubscriptionSteps(table[1..])
  }

  /** Every step of a provisioning run over the given names and table: all topics first. */
  function StepsOf(topicNames: seq<string>, table: seq<(string, seq<string>)>): seq<Entity> {
    TopicSteps(topicNames) + SubscriptionSteps(table)
  }

  /** Every step of EnsureInfrastructureExists, in the order the source takes them. */
  const ProvisioningSteps: seq<Entity> := [
    Topic(PriceTopic), Topic(VolumeTopic),
    Subscription(PriceTopic, "dashboard-subscription"),
    Subscription(PriceTopic, "mobile-subscription"),
    Subscription(PriceTopic, "analytics-subscription"),
    Subscription(PriceTopic, "read-model-subscription"),
    Subscription(VolumeTopic, "all-clients-subscription"),
    Subscription(VolumeTopic, "read-model-subscription")
  ]

  lemma PriceRowSteps()
    ensures SubscriptionRow(PriceTopic, SubscriptionTable[0].1) == ProvisioningSteps[2..6]
  {
    var r := SubscriptionTable[0].1;
    assert r[1..][1..][1..][1..] == [];
    assert SubscriptionRow(PriceTopic, r[1..][1..][1..]) == ProvisioningSteps[5..6];
    assert SubscriptionRow(PriceTopic, r[1..][1..]) == ProvisioningSteps[4..6];
    assert SubscriptionRow(PriceTopic, r[1..]) == ProvisioningSteps[3..6];
  }

  lemma VolumeRowSteps()
    ensures SubscriptionRow(VolumeTopic, SubscriptionTable[1].1) == ProvisioningSteps[6..8]
  {
    var r := SubscriptionTable[1].1;
    assert r[1..][1..] == [];
    assert SubscriptionRow(VolumeTopic, r[1..]) == ProvisioningSteps[7..8];
  }

  /** The loops over the topic names and the subscription table visit exactly ProvisioningSteps. */
  lemma TableSteps()
    ensures StepsOf(TopicNames, SubscriptionTable) == ProvisioningSteps
  {
    var n := TopicNames;
    assert n[1..][1..] == [];
    assert TopicSteps(n[1..]) == [Topic(VolumeTopic)];
    assert TopicSteps(n) == ProvisioningSteps[..2];
    var t := SubscriptionTable;
    assert t[1..][1..] == [];
    PriceRowSteps();
    VolumeRowSteps();
    assert SubscriptionSteps(t[1..]) == ProvisioningSteps[6..8];
    assert SubscriptionSteps(t) == ProvisioningSteps[2..];
  }

  /** The entities a successful provisioning run guarantees. */
  function RequiredEntities(): set<Entity> {
    set e | e in ProvisioningSteps
  }

  /** The namespace after some steps, and the entities those steps created, in order. */
  datatype Provisioned = Provisioned(entities: set<Entity>, created: seq<Entity>)

  /** One provisioning step: an entity that does not exist yet is created, one that exists is left alone. */
  function CreateIfMissing(p: Provisioned, e: Entity): Provisioned {
    if e in p.entities then p else Provisioned(p.entities + {e}, p.created + [e])
  }

  /**
   * EnsureInfrastructureExists as a function: each step is taken in turn;
   * the first step whose admin call throws ends the run with that exception,
   * and what earlier steps created stays.
   */
  function RunUntilFailure(p: Provisioned, steps: seq<Entity>, failing: set<Entity>): (Provisioned, Outcome<Exception>)
    decreases |steps|
  {
    if steps == [] then (p, Pass)
    else if steps[0] in failing then (p, Fail(ServiceBusException))
    else RunUntilFailure(CreateIfMissing(p, steps[0]), steps[1..], failing)
  }

  lemma RunUntilFailureCons(p: Provisioned, e: Entity, rest: seq<Entity>, failing: set<Entity>)
    ensures RunUntilFailure(p, [e] + rest, failing) ==
            if e in failing then (p, Fail(ServiceBusException))
            else RunUntilFailure(CreateIfMissing(p, e), rest, failing)
  {
    assert ([e] + rest)[1..] == rest;
  }

  lemma NextTopicStep(names: seq<string>, i: nat, tail: seq<Entity>)
    requires i < |names|
    ensures TopicSteps(names[i..]) + tail == [Topic(names[i])] + (TopicSteps(names[i + 1..]) + tail)
  {
    assert names[i..][1..] == names[i + 1..];
  }

  lemma NextSubscriptionStep(topic: string, names: seq<string>, j: nat, tail: seq<Entity>)
    requires j < |names|
    ensures SubscriptionRow(topic, names[j..]) + tail == [Subscription(topic, names[j])] + (SubscriptionRow(topic, names[j + 1..]) + tail)
  {
    assert names[j..][1..] == names[j + 1..];
  }

  lemma NextRowSteps(table: seq<(string, seq<string>)>, t: nat)
    requires t < |table|
    ensures SubscriptionSteps(table[t..]) == SubscriptionRow(table[t].0, table[t].1[0..]) + SubscriptionSteps(table[t + 1..])
  {
    assert table[t..][1..] == table[t + 1..];
    assert table[t].1[0..] == table[t].1;
  }

  /** Runs the steps in order, none of them failing. */
  function RunSteps(p: Provisioned, steps: seq<Entity>): Provisioned
    decreases |steps|
  {
    if steps == [] then p else RunSteps(CreateIfMissing(p, steps[0]), steps[1..])
  }

  /**
   * After running steps, exactly the steps' entities have been added, and
   * what was newly created is exactly what was missing; nothing is removed.
   */
  lemma {:induction false} RunStepsEffect(p: Provisioned, steps: seq<Entity>)
    ensures RunSteps(p, steps).entities == p.entities + (set e | e in steps)
    ensures forall e :: e in RunSteps(p, steps).created <==> e in p.created || (e in steps && e !in p.entities)
    decreases |steps|
  {
    if steps != [] {
      RunStepsEffect(CreateIfMissing(p, steps[0]), steps[1..]);
      assert steps == [steps[0]] + steps[1..];
      assert (set e | e in steps) == {steps[0]} + (set e | e in steps[1..]);
    }
  }

  /** Steps whose entities all exist already change nothing. */
  lemma {:induction false} RunStepsPresent(p: Provisioned, steps: seq<Entity>)
    requires forall i :: 0 <= i < |steps| ==> steps[i] in p.entities
    ensures RunSteps(p, steps) == p
    decreases |steps|
  {
    if steps != [] {
      RunStepsPresent(p, steps[1..]);
    }
  }

  /** Index of the first step whose admin call throws, or the number of steps if none does. */
  function FirstFailure(steps: seq<Entity>, failing: set<Entity>): (k: nat)
    ensures k <= |steps|
    ensures forall i :: 0 <= i < k ==> steps[i] !in failing
    ensures k < |steps| ==> steps[k] in failing
    decreases |steps|
  {
    if steps == [] then 0
    else if steps[0] in failing then 0
    else 1 + FirstFailure(steps[1..], failing)
  }

  /**
   * The run agrees with its reference description: exactly the steps before
   * the first failing one take effect, and the run fails iff some step fails.
   */
  lemma {:induction false} RunUntilFailureReference(p: Provisioned, steps: seq<Entity>, failing: set<Entity>)
    ensures var k := FirstFailure(steps, failing);
            RunUntilFailure(p, steps, failing) ==
            (RunSteps(p, steps[..k]), if k == |steps| then Pass else Fail(ServiceBusException))
    decreases |steps|
  {
    if steps != [] && steps[0] !in failing {
      var k := FirstFailure(steps, failing);
      RunUntilFailureReference(CreateIfMissing(p, steps[0]), steps[1..], failing);
      assert steps[..k][1..] == steps[1..][..k - 1];
    }
  }

  /** The provisioning run of EnsureInfrastructureExists over a namespace holding `existing`. */
  function Provision(existing: set<Entity>, failing: set<Entity>): (Provisioned, Outcome<Exception>) {
    RunUntilFailure(Provisioned(existing, []), ProvisioningSteps, failing)
  }

  /** A run in which no admin call fails succeeds and leaves every required entity in place. */
  lemma ProvisionSucceeds(existing: set<Entity>, failing: set<Entity>)
    requires failing !! RequiredEntities()
    ensures Provision(existing, failing).1 == Pass
    ensures Provision(existing, failing).0.entities == existing + RequiredEntities()
    ensures forall e :: e in Provision(existing, failing).0.created <==> e in RequiredEntities() && e !in existing
  {
    var steps := ProvisioningSteps;
    RunUntilFailureReference(Provisioned(existing, []), steps, failing);
    var k := FirstFailure(steps, failing);
    assert k == |steps|;
    assert steps[..k] == steps;
    RunStepsEffect(Provisioned(existing, []), steps);
  }

  /**
   * Provisioning is idempotent: a second run after a successful one creates
   * nothing and leaves the same topics and subscriptions.
   */
  lemma ProvisionIdempotent(existing: set<Entity>)
    ensures var first := Provision(existing, {});
            Provision(first.0.entities, {}) == (Provisioned(first.0.entities, []), Pass)
  {
    var first := Provision(existing, {});
    ProvisionSucceeds(existing, {});
    var steps := ProvisioningSteps;
    var p := Provisioned(first.0.entities, []);
    RunUntilFailureReference(p, steps, {});
    assert steps[..|steps|] == steps;
    RunStepsPresent(p, steps);
  }

  /**
   * A failed run stops at one required entity; it keeps everything that
   * existed, adds only required entities, and when the failure is at a
   * subscription both topics already exist.
   */
  lemma ProvisionFailure(existing: set<Entity>, failing: set<Entity>)
    requires Provision(existing, failing).1.Fail?
    ensures var after := Provision(existing, failing).0.entities;
            existing <= after <= existing + RequiredEntities() &&
            exists e :: e in failing && e in RequiredEntities() && e !in Provision(existing, failing).0.created
    ensures var steps := ProvisioningSteps;
            steps[FirstFailure(steps, failing)].Subscription? ==>
              Topic(PriceTopic) in Provision(existing, failing).0.entities &&
              Topic(VolumeTopic) in Provision(existing, failing).0.entities
  {
    var steps := ProvisioningSteps;
    var p := Provisioned(existing, []);
    RunUntilFailureReference(p, steps, failing);
    var k := FirstFailure(steps, failing);
    RunStepsEffect(p, steps[..k]);
    assert steps[k] in failing && steps[k] in RequiredEntities();
    assert steps[k] !in steps[..k];
    if steps[k].Subscription? {
      assert k >= 2;
      assert steps[..k][0] == Topic(PriceTopic) && steps[..k][1] == Topic(VolumeTopic);
    }
  }

  // ---------------------------------------------------------------------------
  // The message envelope (PublishAsync)
  // ---------------------------------------------------------------------------

  /** A value of ServiceBusMessage.ApplicationProperties. */
  datatype PropertyValue = StringValue(s: string) | DecimalValue(d: real) | LongValue(l: long)

  /**
   * A ServiceBusMessage. The JSON body is opaque here: it is represented by the
   * event it was serialised from.
   */
  datatype Envelope = Envelope(
    messageId: string,
    subject: string,
    contentType: string,
    properties: map<string, PropertyValue>,
    body: Event)

  /** A message handed to Service Bus, on the topic it was sent to. */
  datatype Message = Message(topic: string, envelope: Envelope)

  const JsonContentType: string := "application/json"

  /**
   * Builds the message for an event. The price-change property divides by the
   * previous price, and decimal division by zero throws.
   */
  function CreateMessage(e: Event): Result<Envelope, Exception> {
    match e
    case PriceUpdated(p) =>
      if p.previousPrice == 0.0 then Err(DivideByZeroException)
      else
        Ok(Envelope(e.Id(), e.Source(), JsonContentType,
                    map["Symbol" := StringValue(p.symbol),
                        "PriceChange" := DecimalValue((p.newPrice - p.previousPrice) / p.previousPrice)],
                    e))
    case VolumeUpdated(v) =>
      Ok(Envelope(e.Id(), e.Source(), JsonContentType,
                  map["Symbol" := StringValue(v.symbol), "Volume" := LongValue(v.volume)],
                  e))
  }

  /**
   * The envelope identifies the event, carries it and its symbol, and fails
   * only for a price event whose previous price is zero.
   */
  lemma CreateMessageFields(e: Event)
    ensures CreateMessage(e).Err? <==> e.PriceUpdated? && e.price.previousPrice == 0.0
    ensures CreateMessage(e).Ok? ==>
              var env := CreateMessage(e).value;
              env.messageId == e.Id() && env.subject == e.Source() &&
              env.contentType == "application/json" && env.body == e &&
              "Symbol" in env.properties && env.properties["Symbol"] == StringValue(e.Symbol())
    ensures CreateMessage(e).Ok? && e.VolumeUpdated? ==>
              CreateMessage(e).value.properties.Keys == {"Symbol", "Volume"} &&
              CreateMessage(e).value.properties["Volume"] == LongValue(e.volume.volume)
  {
  }

  /**
   * The PriceChange property is a ratio, not a percentage: applying it to the
   * previous price gives back the new price.
   */
  lemma PriceChangeIsRatio(p: StockPriceUpdatedEvent)
    requires p.previousPrice != 0.0
    ensures var env := CreateMessage(PriceUpdated(p));
            env.Ok? && env.value.properties.Keys == {"Symbol", "PriceChange"} &&
            env.value.properties["PriceChange"].DecimalValue? &&
            p.previousPrice * (1.0 + env.value.properties["PriceChange"].d) == p.newPrice
  {
    var ratio := (p.newPrice - p.previousPrice) / p.previousPrice;
    assert p.previousPrice * ratio == p.newPrice - p.previousPrice;
  }

  /** Outcome of PublishAsync: building the message may throw, then the send may throw. */
  function PublishOutcome(e: Event, sendFails: bool): Outcome<Exception> {
    match CreateMessage(e)
    case Err(x) => Fail(x)
    case Ok(_) => if sendFails then Fail(ServiceBusException) else Pass
  }

  // ---------------------------------------------------------------------------
  // Delivery accounting
  // ---------------------------------------------------------------------------

  /**
   * One message received by a processor: the body deserialised to an event or
   * to null, and what the handler did when called on it.
   */
  datatype Delivery = Delivery(deserialized: Option<Event>, handler: Outcome<Exception>)

  /** The processor callback counts a delivery only if the handler ran and returned normally. */
  predicate Counted(d: Delivery) {
    d.deserialized.Some? && d.handler.Pass?
  }

  /** TotalEventsDelivered contributed by a sequence of deliveries. */
  function DeliveredCount(ds: seq<Delivery>): nat
    decreases |ds|
  {
    if ds == [] then 0
    else DeliveredCount(ds[..|ds| - 1]) + (if Counted(ds[|ds| - 1]) then 1 else 0)
  }

  /** Deliveries that were dropped: a null body or a handler exception. */
  function DroppedCount(ds: seq<Delivery>): nat
    decreases |ds|
  {
    if ds == [] then 0
    else DroppedCount(ds[..|ds| - 1]) + (if Counted(ds[|ds| - 1]) then 0 else 1)
  }

  /**
   * Every message received on a subscription is either counted as delivered
   * or dropped; the count equals the messages received exactly when none was
   * dropped.
   */
  lemma {:induction false} DeliveriesAccountedFor(ds: seq<Delivery>)
    ensures DeliveredCount(ds) + DroppedCount(ds) == |ds|
    ensures DeliveredCount(ds) == |ds| <==> forall i :: 0 <= i < |ds| ==> Counted(ds[i])
    decreases |ds|
  {
    if ds != [] {
      var init := ds[..|ds| - 1];
      DeliveriesAccountedFor(init);
      assert forall i :: 0 <= i < |init| ==> init[i] == ds[i];
    }
  }

  // ---------------------------------------------------------------------------
  // The broker object
  // ---------------------------------------------------------------------------

  /** The handler delegate passed to SubscribeAsync, named by its owner and the event type it takes. */
  datatype Callback = Callback(owner: string, kind: EventKind)

  /** A ServiceBusProcessor started by SubscribeAsync. */
  datatype Processor = Processor(topic: string, subscription: string, callback: Callback)

  class EventBroker {
    /** Topics and subscriptions that exist in the Service Bus namespace. */
    var entities: set<Entity>
    /** The `_senders` cache: one sender per event type, each bound to a topic. */
    var senders: map<EventKind, string>
    /** The `_processors` list. */
    var processors: seq<Processor>
    /** Messages handed to Service Bus, in send order. */
    var outbox: seq<Message>
    var totalEventsPublished: nat
    var totalEventsDelivered: nat

    /** Each cached sender is bound to its type's topic, and every counted publish sent one message. */
    ghost predicate Valid()
      reads this
    {
      && (forall k :: k in senders ==> senders[k] == GetTopicName(k))
      && totalEventsPublished == |outbox|
    }

    /** A broker over a namespace that already holds `existing`. */
    constructor(existing: set<Entity>)
      ensures Valid()
      ensures entities == existing && senders == map[] && processors == [] && outbox == []
      ensures totalEventsPublished == 0 && totalEventsDelivered == 0
    {
      entities := existing;
      senders := map[];
      processors := [];
      outbox := [];
      totalEventsPublished := 0;
      totalEventsDelivered := 0;
    }

    /**
     * EnsureInfrastructureExists: every topic, then every subscription of the
     * table, is created if it does not exist; the first admin call that throws
     * ends the run with that exception. `failing` names the entities whose
     * admin calls throw.
     */
    method EnsureInfrastructureExists(failing: set<Entity>) returns (r: Outcome<Exception>, created: seq<Entity>)
      modifies this`entities
      ensures (Provisioned(entities, created), r) == Provision(old(entities), failing)
    {
      TableSteps();
      r, created := EnsureEntities(TopicNames, SubscriptionTable, failing);
    }

    /** The loops of EnsureInfrastructureExists over its topic names and subscription table. */
    method EnsureEntities(topicNames: seq<string>, table: seq<(string, seq<string>)>, failing: set<Entity>)
      returns (r: Outcome<Exception>, created: seq<Entity>)
      modifies this`entities
      ensures (Provisioned(entities, created), r) ==
              RunUntilFailure(Provisioned(old(entities), []), StepsOf(topicNames, table), failing)
    {
      ghost var goal := RunUntilFailure(Provisioned(entities, []), StepsOf(topicNames, table), failing);
      created := [];
      var i := 0;
      assert topicNames[i..] == topicNames;
      while i < |topicNames|
        invariant 0 <= i <= |topicNames|
        invariant RunUntilFailure(Provisioned(entities, created), TopicSteps(topicNames[i..]) + SubscriptionSteps(table), failing) == goal
      {
        ghost var rest := TopicSteps(topicNames[i + 1..]) + SubscriptionSteps(table);
        NextTopicStep(topicNames, i, SubscriptionSteps(table));
        RunUntilFailureCons(Provisioned(entities, created), Topic(topicNames[i]), rest, failing);
        var ok;
        ok, created := EnsureEntity(Topic(topicNames[i]), failing, created);
        if !ok {
          return Fail(ServiceBusException), created;
        }
        i := i + 1;
      }
      assert topicNames[i..] == [];
      var t := 0;
      assert table[t..] == table;
      assert TopicSteps(topicNames[i..]) + SubscriptionSteps(table) == SubscriptionSteps(table[t..]);
      while t < |table|
        invariant 0 <= t <= |table|
        invariant RunUntilFailure(Provisioned(entities, created), SubscriptionSteps(table[t..]), failing) == goal
      {
        var topicName := table[t].0;
        var names := table[t].1;
        NextRowSteps(table, t);
        ghost var later := SubscriptionSteps(table[t + 1..]);
        var j := 0;
        assert names[j..] == names;
        while j < |names|
          invariant 0 <= j <= |names|
          invariant RunUntilFailure(Provisioned(entities, created), SubscriptionRow(topicName, names[j..]) + later, failing) == goal
        {
          ghost var rest := SubscriptionRow(topicName, names[j + 1..]) + later;
          NextSubscriptionStep(topicName, names, j, later);
          RunUntilFailureCons(Provisioned(entities, created), Subscription(topicName, names[j]), rest, failing);
          var ok;
          ok, created := EnsureEntity(Subscription(topicName, names[j]), failing, created);
          if !ok {
            return Fail(ServiceBusException), created;
          }
          j := j + 1;
        }
        assert names[j..] == [];
        assert SubscriptionRow(topicName, names[j..]) + later == later;
        t := t + 1;
      }
      return Pass, created;
    }

    /**
     * One `try` block of EnsureInfrastructureExists: the existence check and,
     * if the entity is missing, its creation; `ok` is false when an admin call
     * throws, and then nothing changes.
     */
    method EnsureEntity(e: Entity, failing: set<Entity>, created: seq<Entity>) returns (ok: bool, created': seq<Entity>)
      modifies this`entities
      ensures ok == (e !in failing)
      ensures ok ==> Provisioned(entities, created') == CreateIfMissing(Provisioned(old(entities), created), e)
      ensures !ok ==> entities == old(entities) && created' == created
    {
      created' := created;
      if e in failing {
        return false, created';
      }
      if e !in entities {
        entities := entities + {e};
        created' := created' + [e];
      }
      return true, created';
    }

    /**
     * SubscribeAsync<TEvent>: starts a processor on the event type's topic,
     * through the subscription derived from the client name. Nothing checks
     * for an earlier processor on the same subscription.
     */
    method SubscribeAsync(kind: EventKind, clientName: string, callback: Callback)
      modifies this`processors
      ensures processors == old(processors) + [Processor(GetTopicName(kind), SubscriptionName(clientName), callback)]
    {
      var processor := Processor(GetTopicName(kind), SubscriptionName(clientName), callback);
      processors := processors + [processor];
    }

    /**
     * PublishAsync<TEvent>: caches a sender for the event type, builds the
     * message and sends it; the counter moves only after a successful send,
     * and any exception is rethrown.
     */
    method PublishAsync(e: Event, sendFails: bool) returns (r: Outcome<Exception>)
      requires Valid()
      modifies this`senders, this`outbox, this`totalEventsPublished
      ensures Valid()
      ensures r == PublishOutcome(e, sendFails)
      ensures senders == old(senders)[e.Kind() := GetTopicName(e.Kind())]
      ensures r.Pass? ==> outbox == old(outbox) + [Message(GetTopicName(e.Kind()), CreateMessage(e).value)]
      ensures r.Fail? ==> outbox == old(outbox)
      ensures totalEventsPublished == old(totalEventsPublished) + (if r.Pass? then 1 else 0)
    {
      var topicName := GetTopicName(e.Kind());
      if e.Kind() !in senders {
        senders := senders[e.Kind() := topicName];
      }
      var message := CreateMessage(e);
      if message.Err? {
        return Fail(message.error);
      }
      if sendFails {
        return Fail(ServiceBusException);
      }
      outbox := outbox + [Message(topicName, message.value)];
      totalEventsPublished := totalEventsPublished + 1;
      return Pass;
    }

    /**
     * The processor's message callback for one received message: the
     * handler runs on a non-null event, and the delivery counter moves only
     * if it returns normally; its exception is swallowed.
     */
    method ProcessMessage(d: Delivery)
      modifies this`totalEventsDelivered
      ensures totalEventsDelivered == old(totalEventsDelivered) + (if Counted(d) then 1 else 0)
    {
      if d.deserialized.Some? {
        if d.handler.Pass? {
          totalEventsDelivered := totalEventsDelivered + 1;
        }
      }
    }
  }
}
