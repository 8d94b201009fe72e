/**
 * Cloud_patterns/Subscribers/SubscriberBase.cs: the registration every
 * subscriber performs while it is constructed.
 *
 * Each callback the source registers is a lambda that calls the subscriber's
 * virtual handler for one event type; it is represented by a Broker.Callback
 * naming the subscriber (by its client id) and that event type. The fresh
 * GUID is an input.
 */
module Subscribers {
  import opened Events
  import opened Broker

  /** The client id of a subscriber: its name, a hyphen and the first 8 characters of a fresh GUID. */
  function ClientId(name: string, guid: Guid): (r: string)
    ensures |r| == |name| + 9
    ensures r[..|name|] == name && r[|name|] == '-' && r[|name| + 1..] == guid[..8]
  {
    name + "-" + guid[..8]
  }

  /**
   * Two subscribers whose GUIDs differ in their first 8 characters consume
   * through different subscriptions, even under the same name.
   */
  lemma DistinctGuidsDistinctSubscriptions(name: string, g1: Guid, g2: Guid)
    requires g1[..8] != g2[..8]
    ensures SubscriptionName(ClientId(name, g1)) != SubscriptionName(ClientId(name, g2))
  {
    var s1 := SubscriptionName(ClientId(name, g1));
    var s2 := SubscriptionName(ClientId(name, g2));
    assert s1[|name| + 1..|name| + 9] == g1[..8];
    assert s2[|name| + 1..|name| + 9] == g2[..8];
  }

  /**
   * The subscription a SubscriberBase consumes through is never one that
   * EnsureInfrastructureExists provisions: the fixed table names only
   * subscriptions of the client names "dashboard", "mobile", "analytics",
   * "read-model" and "all-clients", none of which has a hyphen followed by
   * 8 more characters at the end.
   */
  lemma RegisteredSubscriptionIsNotProvisioned(name: string, guid: Guid, topic: string)
    ensures Subscription(topic, SubscriptionName(ClientId(name, guid))) !in RequiredEntities()
  {
    var s := SubscriptionName(ClientId(name, guid));
    assert |s| == |name| + 22 && s[|name|] == '-';
    if Subscription(topic, s) in RequiredEntities() {
      assert false;
    }
  }

  /** The two processors a registration starts, in order: prices first, then volumes. */
  function RegistrationProcessors(clientId: string): (ps: seq<Processor>)
    ensures |ps| == 2
    ensures ps[0].topic == PriceTopic && ps[0].callback.kind == StockPriceUpdatedKind
    ensures ps[1].topic == VolumeTopic && ps[1].callback.kind == StockVolumeUpdatedKind
    ensures forall i :: 0 <= i < 2 ==> ps[i].subscription == SubscriptionName(clientId) && ps[i].callback.owner == clientId
  {
    [Processor(GetTopicName(StockPriceUpdatedKind), SubscriptionName(clientId), Callback(clientId, StockPriceUpdatedKind)),
     Processor(GetTopicName(StockVolumeUpdatedKind), SubscriptionName(clientId), Callback(clientId, StockVolumeUpdatedKind))]
  }

  /**
   * RegisterSubscriptions: derives the client id, then subscribes the price
   * handler and the volume handler under it, in that order.
   */
  method RegisterSubscriptions(broker: EventBroker, name: string, guid: Guid) returns (clientId: string)
    modifies broker`processors
    ensures clientId == ClientId(name, guid)
    ensures broker.processors == old(broker.processors) + RegistrationProcessors(clientId)
  {
    clientId := name + "-" + guid[..8];
    broker.SubscribeAsync(StockPriceUpdatedKind, clientId, Callback(clientId, StockPriceUpdatedKind));
    broker.SubscribeAsync(StockVolumeUpdatedKind, clientId, Callback(clientId, StockVolumeUpdatedKind));
  }

  /**
   * SubscriberBase with its default handlers, which do nothing. The three
   * subscribers that derive from it override them; their handlers are
   * modelled on their own: Analytics.AnalyticsEngine, and the functions of
   * the Mobile and Dashboard modules, which can throw on a zero previous price.
   */
  class SubscriberBase {
    const name: string
    const clientId: string

    /** The constructor completes the registration before it returns. */
    constructor(name: string, broker: EventBroker, guid: Guid)
      modifies broker`processors
      ensures this.name == name && clientId == ClientId(name, guid)
      ensures broker.processors == old(broker.processors) + RegistrationProcessors(clientId)
    {
      this.name := name;
      var id := RegisterSubscriptions(broker, name, guid);
      clientId := id;
    }

    /** The default OnStockPriceUpdated: no effect. */
    method OnStockPriceUpdated(e: StockPriceUpdatedEvent) {
    }

    /** The default OnStockVolumeUpdated: no effect. */
    method OnStockVolumeUpdated(e: StockVolumeUpdatedEvent) {
    }
  }
}
