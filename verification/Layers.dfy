/** The bookkeeping in front of the medium handlers is a reference count, and the two layers agree. */
module Layers {
  import opened ServiceIds
  import opened Protocol
  import opened HandlerSpec

  function Count(log: Log, event: Event): nat {
    if log == [] then 0
    else Count(log[..|log| - 1], event) + if log[|log| - 1] == event then 1 else 0
  }

  lemma {:induction false} CountConcat(a: Log, b: Log, event: Event)
    ensures Count(a + b, event) == Count(a, event) + Count(b, event)
  {
    if b == [] {
      assert a + b == a;
    } else {
      CountConcat(a, b[..|b| - 1], event);
      assert (a + b)[..|a + b| - 1] == a + b[..|b| - 1];
    }
  }

  lemma {:induction false} CountNone(log: Log, event: Event)
    requires event !in log
    ensures Count(log, event) == 0
  {
    if log != [] {
      CountNone(log[..|log| - 1], event);
    }
  }

  lemma CountOne(before: Log, event: Event, last: Event)
    ensures Count(before + [last], event) == Count(before, event) + if last == event then 1 else 0
  {
    assert (before + [last])[..|before|] == before;
  }

  // -- sequences of calls on one handler ------------------------------------

  datatype Call =
    | CallInit(service: ServiceId, e: EndpointId)
    | CallRevertEndpoint(service: ServiceId, e: EndpointId)
    | CallRevertAll(order: seq<ServiceId>)
    | CallRevertResponder(service: ServiceId)

  function Step(outcome: Outcomes, now: nat, m: Medium, h: Handler, call: Call): Result {
    match call
    case CallInit(service, e) => Init(outcome, now, m, h, service, e)
    case CallRevertEndpoint(service, e) => RevertEndpoint(m, h, service, e)
    case CallRevertAll(order) => RevertAll(m, h, order)
    case CallRevertResponder(service) => TearDown(m, h, service)
  }

  /** The calls the manager can make: revert-all walks the keys, responders use ids without the postfix. */
  ghost predicate Proper(h: Handler, call: Call) {
    && (call.CallRevertAll? ==> Enumerates(call.order, h.active.Keys))
    && (call.CallRevertResponder? ==> !IsInitiator(call.service))
  }

  function Replay(outcome: Outcomes, m: Medium, calls: seq<Call>): Result {
    if calls == [] then Result(NEW, [], true)
    else
      var before := Replay(outcome, m, calls[..|calls| - 1]);
      var last := Step(outcome, |before.log|, m, before.handler, calls[|calls| - 1]);
      Result(last.handler, before.log + last.log, last.ok)
  }

  ghost predicate AllProper(outcome: Outcomes, m: Medium, calls: seq<Call>) {
    calls == [] || (
      && AllProper(outcome, m, calls[..|calls| - 1])
      && Proper(Replay(outcome, m, calls[..|calls| - 1]).handler, calls[|calls| - 1]))
  }

  /** How often `service` went from no endpoint to some endpoint. */
  function Pickups(outcome: Outcomes, m: Medium, calls: seq<Call>, service: ServiceId): nat {
    if calls == [] then 0
    else
      var before, after := Replay(outcome, m, calls[..|calls| - 1]).handler, Replay(outcome, m, calls).handler;
      Pickups(outcome, m, calls[..|calls| - 1], service)
      + if service !in before.active && service in after.active then 1 else 0
  }

  // -- the reference count --------------------------------------------------

  /** No stored set is empty and every key is empty or carries the postfix. */
  predicate WellKept(h: Handler) {
    forall service :: service in h.active ==> h.active[service] != {} && (service == "" || IsInitiator(service))
  }

  lemma {:induction false} TearDownAllLog(m: Medium, h: Handler, services: seq<ServiceId>, service: ServiceId)
    requires forall i, j :: 0 <= i < j < |services| ==> services[i] != services[j]
    ensures Count(TearDownAll(m, h, services).log, Reverted(m, service)) == (if service in services then 1 else 0)
    ensures TearDownAll(m, h, services).handler.active == h.active
    ensures TearDownAll(m, h, services).handler.listeners == h.listeners - (set x | x in services)
    decreases |services|
  {
    if services != [] {
      var first := TearDown(m, h, services[0]);
      TearDownAllLog(m, first.handler, services[1..], service);
      CountConcat(first.log, TearDownAll(m, first.handler, services[1..]).log, Reverted(m, service));
      TearDownCount(m, h.listeners, services[0], service);
    }
  }

  lemma TearDownCount(m: Medium, listeners: set<ServiceId>, service: ServiceId, other: ServiceId)
    ensures Count(TearDownLog(m, listeners, service), Reverted(m, other)) == if other == service then 1 else 0
  {
    var log := TearDownLog(m, listeners, service);
    assert log == [log[0]] + log[1..];
    CountConcat([log[0]], log[1..], Reverted(m, other));
    CountNone(log[1..], Reverted(m, other));
    assert [log[0]][..0] == [];
  }

  /** One call: the medium is told exactly when a tracked service stops being tracked. */
  lemma StepCounts(outcome: Outcomes, now: nat, m: Medium, h: Handler, call: Call, service: ServiceId)
    requires WellKept(h) && Proper(h, call) && IsInitiator(service)
    ensures Counted(m, h, Step(outcome, now, m, h, call), service)
  {
    match call
    case CallInit(s, e) => InitCounts(m, h, s, e, outcome, now, service);
    case CallRevertEndpoint(s, e) => RevertCounts(m, h, s, e, service);
    case CallRevertAll(order) => TearDownAllLog(m, h, order, service);
    case CallRevertResponder(s) => TearDownCount(m, h.listeners, s, service);
  }

  predicate Counted(m: Medium, h: Handler, r: Result, service: ServiceId) {
    && WellKept(r.handler)
    && Count(r.log, Reverted(m, service)) == if service in h.active && service !in r.handler.active then 1 else 0
  }

  lemma InitCounts(m: Medium, h: Handler, s: ServiceId, e: EndpointId, outcome: Outcomes, now: nat, service: ServiceId)
    requires WellKept(h)
    ensures Counted(m, h, Init(outcome, now, m, h, s, e), service)
  {
    CountNone(Init(outcome, now, m, h, s, e).log, Reverted(m, service));
  }

  lemma RevertCounts(m: Medium, h: Handler, s: ServiceId, e: EndpointId, service: ServiceId)
    requires WellKept(h)
    ensures Counted(m, h, RevertEndpoint(m, h, s, e), service)
  {
    if RevertEndpoint(m, h, s, e).log != [] {
      TearDownCount(m, h.listeners, s, service);
    }
  }

  /**
   * Over any sequence of calls: reverts reported to the medium and the one still owed, if the service
   * is still tracked, add up to the times the service was picked up.
   */
  lemma {:induction false} ReferenceCount(outcome: Outcomes, m: Medium, calls: seq<Call>, service: ServiceId)
    requires AllProper(outcome, m, calls) && IsInitiator(service)
    ensures WellKept(Replay(outcome, m, calls).handler)
    ensures Pickups(outcome, m, calls, service)
         == Count(Replay(outcome, m, calls).log, Reverted(m, service))
            + if service in Replay(outcome, m, calls).handler.active then 1 else 0
  {
    if calls != [] {
      var before := Replay(outcome, m, calls[..|calls| - 1]);
      ReferenceCount(outcome, m, calls[..|calls| - 1], service);
      StepCounts(outcome, |before.log|, m, before.handler, calls[|calls| - 1], service);
      var last := Step(outcome, |before.log|, m, before.handler, calls[|calls| - 1]);
      CountConcat(before.log, last.log, Reverted(m, service));
    }
  }

  // -- the two layers -------------------------------------------------------

  /** The services with a listener are those with an endpoint holding them. */
  predicate InStep(h: Handler) {
    h.listeners == h.active.Keys
  }

  /** No empty service id is involved. */
  predicate Named(call: Call) {
    && (call.CallInit? ==> call.service != "")
    && (call.CallRevertEndpoint? ==> call.service != "")
    && (call.CallRevertResponder? ==> call.service != "")
  }

  /** Every key carries the postfix. */
  predicate Marked(h: Handler) {
    forall service :: service in h.active ==> h.active[service] != {} && IsInitiator(service)
  }

  /** A responder's revert concerns no initiator's listener; only under the empty id can it break step. */
  lemma ResponderRevert(m: Medium, h: Handler, service: ServiceId)
    requires WellKept(h) && InStep(h) && !IsInitiator(service)
    ensures InStep(TearDown(m, h, service).handler) <==> !(service == "" && "" in h.active)
    ensures service != "" ==> TearDown(m, h, service).handler == h && TearDown(m, h, service).log == [Reverted(m, service)]
  {
  }

  lemma InitInStep(outcome: Outcomes, now: nat, m: Medium, h: Handler, service: ServiceId, e: EndpointId)
    requires Concrete(m) && Marked(h) && InStep(h) && service != ""
    ensures var r := Init(outcome, now, m, h, service, e); Marked(r.handler) && InStep(r.handler)
  {
    var up := BringUp(outcome, now + 1, m, h, Wrap(service));
    if up.ok {
      assert up.handler.listeners == h.listeners + {Wrap(service)};
      assert Acquire(h.active, Wrap(service), e).Keys == h.active.Keys + {Wrap(service)};
    } else {
      assert up.handler == h;
    }
  }

  lemma RevertInStep(m: Medium, h: Handler, service: ServiceId, e: EndpointId)
    requires Marked(h) && InStep(h)
    ensures var r := RevertEndpoint(m, h, service, e); Marked(r.handler) && InStep(r.handler)
  {
    if service in h.active && h.active[service] - {e} != {} {
      assert h.active[service := h.active[service] - {e}].Keys == h.active.Keys;
    } else {
      assert (h.active - {service}).Keys == h.active.Keys - {service};
    }
  }

  lemma RevertAllInStep(m: Medium, h: Handler, order: seq<ServiceId>)
    requires InStep(h) && Enumerates(order, h.active.Keys)
    ensures var r := RevertAll(m, h, order); Marked(r.handler) && InStep(r.handler)
  {
    TearDownAllLog(m, h, order, "");
  }

  lemma StepInStep(outcome: Outcomes, now: nat, m: Medium, h: Handler, call: Call)
    requires Concrete(m) && Marked(h) && InStep(h) && Proper(h, call) && Named(call)
    ensures var r := Step(outcome, now, m, h, call); Marked(r.handler) && InStep(r.handler)
  {
    match call
    case CallInit(s, e) => InitInStep(outcome, now, m, h, s, e);
    case CallRevertEndpoint(s, e) => RevertInStep(m, h, s, e);
    case CallRevertAll(order) => RevertAllInStep(m, h, order);
    case CallRevertResponder(s) => ResponderRevert(m, h, s);
  }

  /** SoftAPs that started for `service`, less those that stopped again. */
  function Running(log: Log, service: ServiceId): int {
    Count(log, SoftApStart(service, true)) - Count(log, SoftApStop(service))
  }

  lemma RunningConcat(a: Log, b: Log, service: ServiceId)
    ensures Running(a + b, service) == Running(a, service) + Running(b, service)
  {
    CountConcat(a, b, SoftApStart(service, true));
    CountConcat(a, b, SoftApStop(service));
  }

  function Live(h: Handler, service: ServiceId): int {
    if service in h.listeners then 1 else 0
  }

  /** What one event does to the SoftAPs running for `service`. */
  function Change(event: Event, service: ServiceId): int {
    if event == SoftApStart(service, true) then 1 else if event == SoftApStop(service) then -1 else 0
  }

  lemma RunningSnoc(log: Log, event: Event, service: ServiceId)
    ensures Running(log + [event], service) == Running(log, service) + Change(event, service)
  {
    CountOne(log, SoftApStart(service, true), event);
    CountOne(log, SoftApStop(service), event);
  }

  lemma RunningOne(a: Event, service: ServiceId)
    ensures Running([a], service) == Change(a, service)
  {
    RunningSnoc([], a, service);
    assert [] + [a] == [a];
  }

  lemma RunningTwo(a: Event, b: Event, service: ServiceId)
    ensures Running([a, b], service) == Change(a, service) + Change(b, service)
  {
    RunningOne(a, service);
    RunningSnoc([a], b, service);
    assert [a] + [b] == [a, b];
  }

  lemma RunningThree(a: Event, b: Event, c: Event, service: ServiceId)
    ensures Running([a, b, c], service) == Change(a, service) + Change(b, service) + Change(c, service)
  {
    RunningTwo(a, b, service);
    RunningSnoc([a, b], c, service);
    assert [a, b] + [c] == [a, b, c];
  }

  lemma BringUpBalanced(outcome: Outcomes, now: nat, h: Handler, service: ServiceId, other: ServiceId)
    ensures var r := BringUp(outcome, now, WifiHotspot, h, service);
      Running(r.log, other) == Live(r.handler, other) - Live(h, other)
  {
    if service !in h.listeners {
      var listening := ListenerStart(WifiHotspot, service, outcome(now + 1));
      if !outcome(now) {
        RunningOne(SoftApStart(service, false), other);
      } else if !outcome(now + 1) {
        RunningThree(SoftApStart(service, true), listening, SoftApStop(service), other);
      } else {
        RunningTwo(SoftApStart(service, true), listening, other);
      }
    }
  }

  lemma TearDownBalanced(h: Handler, service: ServiceId, other: ServiceId)
    ensures var r := TearDown(WifiHotspot, h, service); Running(r.log, other) == Live(r.handler, other) - Live(h, other)
  {
    if service in h.listeners {
      RunningThree(Reverted(WifiHotspot, service), ListenerStop(WifiHotspot, service), SoftApStop(service), other);
      assert TearDownLog(WifiHotspot, h.listeners, service)
          == [Reverted(WifiHotspot, service), ListenerStop(WifiHotspot, service), SoftApStop(service)];
    } else {
      RunningOne(Reverted(WifiHotspot, service), other);
      assert TearDownLog(WifiHotspot, h.listeners, service) == [Reverted(WifiHotspot, service)];
    }
  }

  lemma {:induction false} TearDownAllBalanced(h: Handler, services: seq<ServiceId>, other: ServiceId)
    ensures var r := TearDownAll(WifiHotspot, h, services);
      Running(r.log, other) == Live(r.handler, other) - Live(h, other)
    decreases |services|
  {
    if services != [] {
      var first := TearDown(WifiHotspot, h, services[0]);
      TearDownBalanced(h, services[0], other);
      TearDownAllBalanced(first.handler, services[1..], other);
      RunningConcat(first.log, TearDownAll(WifiHotspot, first.handler, services[1..]).log, other);
    }
  }

  lemma StepBalanced(outcome: Outcomes, now: nat, h: Handler, call: Call, other: ServiceId)
    ensures var r := Step(outcome, now, WifiHotspot, h, call);
      Running(r.log, other) == Live(r.handler, other) - Live(h, other)
  {
    match call
    case CallInit(s, e) =>
      var up := BringUp(outcome, now + 1, WifiHotspot, h, Wrap(s));
      BringUpBalanced(outcome, now + 1, h, Wrap(s), other);
      RunningConcat([Initialize(WifiHotspot, Wrap(s), e)], up.log, other);
      CountNone([Initialize(WifiHotspot, Wrap(s), e)], SoftApStart(other, true));
      CountNone([Initialize(WifiHotspot, Wrap(s), e)], SoftApStop(other));
    case CallRevertEndpoint(s, e) =>
      if Step(outcome, now, WifiHotspot, h, call).log != [] {
        TearDownBalanced(h.(active := h.active - {s}), s, other);
      }
    case CallRevertAll(order) => TearDownAllBalanced(h, order, other);
    case CallRevertResponder(s) => TearDownBalanced(h, s, other);
  }

  /**
   * After any sequence of calls with proper service ids, a service has a listener, and on WIFI_HOTSPOT
   * one SoftAP running, if some endpoint holds it; otherwise it has neither.
   */
  lemma {:induction false} LayersAgree(outcome: Outcomes, m: Medium, calls: seq<Call>, service: ServiceId)
    requires Concrete(m) && AllProper(outcome, m, calls) && forall i :: 0 <= i < |calls| ==> Named(calls[i])
    ensures var r := Replay(outcome, m, calls);
      && Marked(r.handler) && InStep(r.handler)
      && (m == WifiHotspot ==> Running(r.log, service) == if service in r.handler.active then 1 else 0)
  {
    if calls != [] {
      var before, call := Replay(outcome, m, calls[..|calls| - 1]), calls[|calls| - 1];
      LayersAgree(outcome, m, calls[..|calls| - 1], service);
      StepInStep(outcome, |before.log|, m, before.handler, call);
      if m == WifiHotspot {
        StepBalanced(outcome, |before.log|, before.handler, call, service);
        RunningConcat(before.log, Step(outcome, |before.log|, m, before.handler, call).log, service);
      }
    }
  }

  /** Dropping the hotspot handler tears down every listener left, so every SoftAP that started has stopped. */
  lemma DropStopsAll(outcome: Outcomes, calls: seq<Call>, order: seq<ServiceId>, service: ServiceId)
    requires Enumerates(order, Replay(outcome, WifiHotspot, calls).handler.listeners)
    ensures var r := Replay(outcome, WifiHotspot, calls);
      Running(r.log + TearDownAll(WifiHotspot, r.handler, order).log, service) == 0
  {
    var r := Replay(outcome, WifiHotspot, calls);
    var down := TearDownAll(WifiHotspot, r.handler, order);
    AlwaysBalanced(outcome, calls, service);
    TearDownAllLog(WifiHotspot, r.handler, order, service);
    TearDownAllBalanced(r.handler, order, service);
    RunningConcat(r.log, down.log, service);
    assert service !in down.handler.listeners;
  }

  lemma {:induction false} AlwaysBalanced(outcome: Outcomes, calls: seq<Call>, service: ServiceId)
    ensures var r := Replay(outcome, WifiHotspot, calls); Running(r.log, service) == Live(r.handler, service)
  {
    if calls != [] {
      var before := Replay(outcome, WifiHotspot, calls[..|calls| - 1]);
      AlwaysBalanced(outcome, calls[..|calls| - 1], service);
      StepBalanced(outcome, |before.log|, before.handler, calls[|calls| - 1], service);
      RunningConcat(before.log, Step(outcome, |before.log|, WifiHotspot, before.handler, calls[|calls| - 1]).log, service);
    }
  }
}
