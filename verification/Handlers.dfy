/** What the medium handlers compute: per-service bookkeeping over a listener (and SoftAP) per service. */
module HandlerSpec {
  import opened Protocol
  import opened ServiceIds

  /** A `BaseBwuHandler` and the medium handler inside it. */
  datatype Handler = Handler(active: map<ServiceId, set<EndpointId>>, listeners: set<ServiceId>)

  const NEW: Handler := Handler(map[], {})

  datatype Result = Result(handler: Handler, log: Log, ok: bool)

  // -- the medium handlers --------------------------------------------------

  /** Does the repository have a concrete handler for `m`, one that keeps listeners? */
  predicate Concrete(m: Medium) {
    m == WifiLan || m == WifiHotspot
  }

  /** Stand up the medium for a service, or reuse what already stands. `now` is the log's length. */
  function BringUp(outcome: Outcomes, now: nat, m: Medium, h: Handler, service: ServiceId): Result {
    if Concrete(m) && service in h.listeners then
      Result(h, [], true)
    else if m == WifiHotspot then
      if !outcome(now) then
        Result(h, [SoftApStart(service, false)], false)
      else if !outcome(now + 1) then
        Result(h, [SoftApStart(service, true), ListenerStart(m, service, false), SoftApStop(service)], false)
      else
        Result(h.(listeners := h.listeners + {service}),
               [SoftApStart(service, true), ListenerStart(m, service, true)], true)
    else if !outcome(now) then
      Result(h, [ListenerStart(m, service, false)], false)
    else
      Result(h.(listeners := h.listeners + {service}), [ListenerStart(m, service, true)], true)
  }

  function TearDownLog(m: Medium, listeners: set<ServiceId>, service: ServiceId): Log {
    [Reverted(m, service)]
    + if service !in listeners then []
      else if m == WifiHotspot then [ListenerStop(m, service), SoftApStop(service)]
      else [ListenerStop(m, service)]
  }

  /** `handle_revert_initiator_state_for_service`. */
  function TearDown(m: Medium, h: Handler, service: ServiceId): Result {
    Result(h.(listeners := h.listeners - {service}), TearDownLog(m, h.listeners, service), true)
  }

  function TearDownAll(m: Medium, h: Handler, services: seq<ServiceId>): Result
    decreases services
  {
    if services == [] then Result(h, [], true)
    else
      var first := TearDown(m, h, services[0]);
      var rest := TearDownAll(m, first.handler, services[1..]);
      Result(rest.handler, first.log + rest.log, true)
  }

  // -- the bookkeeping around them ------------------------------------------

  function Acquire(active: map<ServiceId, set<EndpointId>>, service: ServiceId, e: EndpointId)
    : map<ServiceId, set<EndpointId>>
  {
    active[service := (if service in active then active[service] else {}) + {e}]
  }

  /** `initialize_upgraded_medium_for_endpoint`. */
  function Init(outcome: Outcomes, now: nat, m: Medium, h: Handler, service: ServiceId, e: EndpointId): Result {
    var up := BringUp(outcome, now + 1, m, h, Wrap(service));
    Result(if up.ok then up.handler.(active := Acquire(h.active, Wrap(service), e)) else up.handler,
           [Initialize(m, Wrap(service), e)] + up.log,
           up.ok)
  }

  /** `revert_initiator_state_for_endpoint`: only the last endpoint of a service brings it down. */
  function RevertEndpoint(m: Medium, h: Handler, service: ServiceId, e: EndpointId): Result {
    if !IsInitiator(service) || service !in h.active || h.active[service] == {} then
      Result(h, [], true)
    else if h.active[service] - {e} != {} then
      Result(h.(active := h.active[service := h.active[service] - {e}]), [], true)
    else
      TearDown(m, h.(active := h.active - {service}), service)
  }

  /** `revert_initiator_state`. */
  function RevertAll(m: Medium, h: Handler, order: seq<ServiceId>): Result {
    var down := TearDownAll(m, h, order);
    Result(down.handler.(active := map[]), down.log, true)
  }

  lemma {:induction false} TearDownAllListeners(m: Medium, h: Handler, services: seq<ServiceId>)
    ensures TearDownAll(m, h, services).handler == h.(listeners := h.listeners - set x | x in services)
    decreases |services|
  {
    if services != [] {
      TearDownAllListeners(m, TearDown(m, h, services[0]).handler, services[1..]);
    }
  }

  /** Tearing down from the i-th service on: that one first, then the rest. */
  lemma TearDownFrom(m: Medium, h: Handler, services: seq<ServiceId>, i: nat, before: Log)
    requires i < |services|
    ensures var first := TearDown(m, h, services[i]);
      var all, rest := TearDownAll(m, h, services[i..]), TearDownAll(m, first.handler, services[i + 1..]);
      all.handler == rest.handler && before + all.log == before + first.log + rest.log
  {
    assert services[i..][0] == services[i] && services[i..][1..] == services[i + 1..];
    Associate(before, TearDown(m, h, services[i]).log,
              TearDownAll(m, TearDown(m, h, services[i]).handler, services[i + 1..]).log);
  }

  lemma Associate(a: Log, b: Log, c: Log)
    ensures a + b + c == a + (b + c)
  {
  }

  /** Whatever the order, a full revert leaves nothing tracked and none of the tracked services standing. */
  lemma RevertAllClears(m: Medium, h: Handler, order: seq<ServiceId>)
    requires Enumerates(order, h.active.Keys)
    ensures RevertAll(m, h, order).handler == Cleared(h)
  {
    TearDownAllListeners(m, h, order);
    assert (set x | x in order) == h.active.Keys;
  }

  /** The handler with nothing tracked; a listener no endpoint held stays. */
  function Cleared(h: Handler): Handler {
    Handler(map[], h.listeners - h.active.Keys)
  }

  /** Endpoint `e` holds `service` up. */
  predicate Holds(h: Handler, service: ServiceId, e: EndpointId) {
    service in h.active && e in h.active[service]
  }
}
