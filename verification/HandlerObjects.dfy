/** The handlers as objects: the two TCP medium handlers, and the bookkeeping wrapped around either. */
module HandlerObjects {
  import opened Wrappers
  import opened ServiceIds
  import opened Protocol
  import opened Objects
  import HandlerSpec

  /** Where a listener accepts; every listener ever started has an address of its own. */
  type Address = nat

  class WifiLanBwuHandler {
    const world: World
    var listeners: map<ServiceId, Address>

    constructor (world: World)
      ensures this.world == world && listeners == map[]
    {
      this.world := world;
      listeners := map[];
    }

    /** What the specification calls the medium handler, with no bookkeeping around it. */
    function Inner(): HandlerSpec.Handler
      reads this
    {
      HandlerSpec.Handler(map[], listeners.Keys)
    }

    method HandleInitializeUpgradedMediumForEndpoint(service: ServiceId) returns (address: Option<Address>)
      modifies this, world
      ensures var r := HandlerSpec.BringUp(world.env.outcome, |old(world.log)|, WifiLan, old(Inner()), service);
        Inner() == r.handler && world.log == old(world.log) + r.log && address.Some? == r.ok
      ensures address.Some? ==> service in listeners && address.value == listeners[service]
      ensures forall s :: s in old(listeners) ==> s in listeners && listeners[s] == old(listeners)[s]
      ensures world.paused == old(world.paused) && world.nextChannel == old(world.nextChannel)
    {
      if service !in listeners {
        var started := world.env.outcome(|world.log|);
        var here := |world.log|;
        world.Emit(ListenerStart(WifiLan, service, started));
        if !started {
          return None;
        }
        listeners := listeners[service := here];
      }
      return Some(listeners[service]);
    }

    method HandleRevertInitiatorStateForService(service: ServiceId)
      modifies this, world
      ensures listeners == old(listeners) - {service}
      ensures world.log == old(world.log) + HandlerSpec.TearDownLog(WifiLan, old(listeners).Keys, service)
      ensures world.paused == old(world.paused) && world.nextChannel == old(world.nextChannel)
    {
      world.Emit(Reverted(WifiLan, service));
      if service in listeners {
        listeners := listeners - {service};
        world.Emit(ListenerStop(WifiLan, service));
      }
    }

    /** Every listener left is stopped, whatever the order in which the map lists them. */
    method Drop()
      requires world.env.Valid()
      modifies this, world
      ensures listeners == map[]
      ensures var order := world.env.order(old(listeners).Keys);
        world.log == old(world.log) + HandlerSpec.TearDownAll(WifiLan, old(Inner()), order).log
    {
      var services := world.env.order(listeners.Keys);
      ghost var before, h := world.log, Inner();
      ghost var all := HandlerSpec.TearDownAll(WifiLan, h, services);
      HandlerSpec.TearDownAllListeners(WifiLan, h, services);
      var i := 0;
      while i < |services|
        invariant i <= |services|
        invariant HandlerSpec.TearDownAll(WifiLan, Inner(), services[i..]).handler == all.handler
        invariant world.log + HandlerSpec.TearDownAll(WifiLan, Inner(), services[i..]).log == before + all.log
      {
        HandlerSpec.TearDownFrom(WifiLan, Inner(), services, i, world.log);
        HandleRevertInitiatorStateForService(services[i]);
        i := i + 1;
      }
      assert services[i..] == [];
    }
  }

  class WifiHotspotBwuHandler {
    const world: World
    var listeners: map<ServiceId, Address>

    constructor (world: World)
      ensures this.world == world && listeners == map[]
    {
      this.world := world;
      listeners := map[];
    }

    function Inner(): HandlerSpec.Handler
      reads this
    {
      HandlerSpec.Handler(map[], listeners.Keys)
    }

    /** A listener that does not start takes the SoftAP just started down with it. */
    method HandleInitializeUpgradedMediumForEndpoint(service: ServiceId) returns (address: Option<Address>)
      modifies this, world
      ensures var r := HandlerSpec.BringUp(world.env.outcome, |old(world.log)|, WifiHotspot, old(Inner()), service);
        Inner() == r.handler && world.log == old(world.log) + r.log && address.Some? == r.ok
      ensures address.Some? ==> service in listeners && address.value == listeners[service]
      ensures forall s :: s in old(listeners) ==> s in listeners && listeners[s] == old(listeners)[s]
      ensures world.paused == old(world.paused) && world.nextChannel == old(world.nextChannel)
    {
      if service !in listeners {
        var started := world.env.outcome(|world.log|);
        world.Emit(SoftApStart(service, started));
        if !started {
          return None;
        }
        var here := |world.log|;
        var listening := world.env.outcome(here);
        world.Emit(ListenerStart(WifiHotspot, service, listening));
        if !listening {
          world.Emit(SoftApStop(service));
          return None;
        }
        listeners := listeners[service := here];
      }
      return Some(listeners[service]);
    }

    method HandleRevertInitiatorStateForService(service: ServiceId)
      modifies this, world
      ensures listeners == old(listeners) - {service}
      ensures world.log == old(world.log) + HandlerSpec.TearDownLog(WifiHotspot, old(listeners).Keys, service)
      ensures world.paused == old(world.paused) && world.nextChannel == old(world.nextChannel)
    {
      world.Emit(Reverted(WifiHotspot, service));
      if service in listeners {
        listeners := listeners - {service};
        world.Emit(ListenerStop(WifiHotspot, service));
        world.Emit(SoftApStop(service));
      }
    }

    method Drop()
      requires world.env.Valid()
      modifies this, world
      ensures listeners == map[]
      ensures var order := world.env.order(old(listeners).Keys);
        world.log == old(world.log) + HandlerSpec.TearDownAll(WifiHotspot, old(Inner()), order).log
    {
      var services := world.env.order(listeners.Keys);
      ghost var before, h := world.log, Inner();
      ghost var all := HandlerSpec.TearDownAll(WifiHotspot, h, services);
      HandlerSpec.TearDownAllListeners(WifiHotspot, h, services);
      var i := 0;
      while i < |services|
        invariant i <= |services|
        invariant HandlerSpec.TearDownAll(WifiHotspot, Inner(), services[i..]).handler == all.handler
        invariant world.log + HandlerSpec.TearDownAll(WifiHotspot, Inner(), services[i..]).log == before + all.log
      {
        HandlerSpec.TearDownFrom(WifiHotspot, Inner(), services, i, world.log);
        HandleRevertInitiatorStateForService(services[i]);
        i := i + 1;
      }
      assert services[i..] == [];
    }
  }

  /** The handler inside a `BaseBwuHandler`. */
  datatype MediumBwuHandler = Lan(lan: WifiLanBwuHandler) | Hotspot(hotspot: WifiHotspotBwuHandler)

  class BaseBwuHandler {
    const world: World
    const inner: MediumBwuHandler
    var upgradeServiceIdToActiveEndpointIds: map<ServiceId, set<EndpointId>>

    constructor (world: World, inner: MediumBwuHandler)
      ensures this.world == world && this.inner == inner && upgradeServiceIdToActiveEndpointIds == map[]
    {
      this.world, this.inner := world, inner;
      upgradeServiceIdToActiveEndpointIds := map[];
    }

    /** The object behind `inner`, which this handler owns. */
    function Repr(): set<object> {
      {match inner case Lan(h) => h as object case Hotspot(h) => h as object}
    }

    predicate Valid() {
      match inner
      case Lan(h) => h.world == world
      case Hotspot(h) => h.world == world
    }

    function GetUpgradeMedium(): Medium {
      if inner.Lan? then WifiLan else WifiHotspot
    }

    function H(): HandlerSpec.Handler
      reads this, Repr()
    {
      HandlerSpec.Handler(upgradeServiceIdToActiveEndpointIds,
                          match inner case Lan(h) => h.listeners.Keys case Hotspot(h) => h.listeners.Keys)
    }

    method BringUp(service: ServiceId) returns (address: Option<Address>)
      requires Valid()
      modifies Repr(), world
      ensures var r := HandlerSpec.BringUp(world.env.outcome, |old(world.log)|, GetUpgradeMedium(), old(H()), service);
        H() == r.handler && world.log == old(world.log) + r.log && address.Some? == r.ok
    {
      match inner {
        case Lan(h) => address := h.HandleInitializeUpgradedMediumForEndpoint(service);
        case Hotspot(h) => address := h.HandleInitializeUpgradedMediumForEndpoint(service);
      }
    }

    method TearDown(service: ServiceId)
      requires Valid()
      modifies Repr(), world
      ensures var r := HandlerSpec.TearDown(GetUpgradeMedium(), old(H()), service);
        H() == r.handler && world.log == old(world.log) + r.log
    {
      match inner {
        case Lan(h) => h.HandleRevertInitiatorStateForService(service);
        case Hotspot(h) => h.HandleRevertInitiatorStateForService(service);
      }
    }

    method InitializeUpgradedMediumForEndpoint(service: ServiceId, e: EndpointId) returns (address: Option<Address>)
      requires Valid()
      modifies this, Repr(), world
      ensures var r := HandlerSpec.Init(world.env.outcome, |old(world.log)|, GetUpgradeMedium(), old(H()), service, e);
        H() == r.handler && world.log == old(world.log) + r.log && address.Some? == r.ok
    {
      var id := Wrap(service);
      world.Emit(Initialize(GetUpgradeMedium(), id, e));
      address := BringUp(id);
      if address.Some? {
        var active := upgradeServiceIdToActiveEndpointIds;
        upgradeServiceIdToActiveEndpointIds := active[id := (if id in active then active[id] else {}) + {e}];
      }
    }

    method RevertInitiatorState()
      requires Valid()
      modifies this, Repr(), world
      ensures var order := world.env.order(old(upgradeServiceIdToActiveEndpointIds).Keys);
        var r := HandlerSpec.RevertAll(GetUpgradeMedium(), old(H()), order);
        H() == r.handler && world.log == old(world.log) + r.log
      ensures world.env.Valid() ==> H() == HandlerSpec.Cleared(old(H()))
    {
      var services := world.env.order(upgradeServiceIdToActiveEndpointIds.Keys);
      TearDownEach(services);
      upgradeServiceIdToActiveEndpointIds := map[];
      if world.env.Valid() {
        HandlerSpec.RevertAllClears(GetUpgradeMedium(), old(H()), services);
      }
    }

    method TearDownEach(services: seq<ServiceId>)
      requires Valid()
      modifies Repr(), world
      ensures var r := HandlerSpec.TearDownAll(GetUpgradeMedium(), old(H()), services);
        H() == r.handler && world.log == old(world.log) + r.log
    {
      var m := GetUpgradeMedium();
      ghost var before, all := world.log, HandlerSpec.TearDownAll(m, H(), services);
      var i := 0;
      while i < |services|
        invariant i <= |services|
        invariant HandlerSpec.TearDownAll(m, H(), services[i..]).handler == all.handler
        invariant world.log + HandlerSpec.TearDownAll(m, H(), services[i..]).log == before + all.log
      {
        HandlerSpec.TearDownFrom(m, H(), services, i, world.log);
        TearDown(services[i]);
        i := i + 1;
      }
      assert services[i..] == [];
    }

    method RevertInitiatorStateForEndpoint(service: ServiceId, e: EndpointId)
      requires Valid()
      modifies this, Repr(), world
      ensures var r := HandlerSpec.RevertEndpoint(GetUpgradeMedium(), old(H()), service, e);
        H() == r.handler && world.log == old(world.log) + r.log
    {
      if !IsInitiator(service) {
        return;
      }
      var active := upgradeServiceIdToActiveEndpointIds;
      if service !in active || active[service] == {} {
        return;
      }
      upgradeServiceIdToActiveEndpointIds := active[service := active[service] - {e}];
      if active[service] - {e} == {} {
        upgradeServiceIdToActiveEndpointIds := active - {service};
        TearDown(service);
      }
    }

    method RevertResponderState(service: ServiceId)
      requires Valid()
      modifies Repr(), world
      ensures var r := HandlerSpec.TearDown(GetUpgradeMedium(), old(H()), service);
        H() == r.handler && world.log == old(world.log) + r.log
    {
      TearDown(service);
    }
  }
}
