/**
 * What the log itself vouches for. Whatever happens, each thing the manager does is justified by what was done before
 * it: a frame goes out on the right channel at the right moment with the right contents, a channel is closed for the
 * reason given, a listener is started and stopped when it should be.
 */
module Chronicle {
  import opened Wrappers
  import opened ServiceIds
  import opened Protocol
  import opened BwuSpec
  import HandlerSpec

  // -- what the log tells ---------------------------------------------------

  /** The registered channels, the parked ones, and the services for which a medium has a listener. */
  datatype Facts = Facts(
    registry: map<EndpointId, Channel>, parked: map<EndpointId, Channel>, standing: set<(Medium, ServiceId)>)

  function FactsAt(log: Log): Facts {
    if log == [] then Facts(map[], map[], {}) else Noted(FactsAt(log[..|log| - 1]), log[|log| - 1])
  }

  function Noted(f: Facts, event: Event): Facts {
    match event
    case Registered(e, c) => f.(registry := f.registry[e := c])
    case Unregistered(e) => f.(registry := f.registry - {e})
    case Wrote(e, c, LastWrite, true) => f.(parked := f.parked[e := c])
    case Wrote(e, c, SafeToClose, false) => f.(parked := f.parked - {e})
    case EncryptionOff(e, c) => f.(parked := f.parked - {e})
    case Closed(e, c, Unfinished) => f.(parked := f.parked - {e})
    case Closed(e, c, Shutdown) => f.(parked := f.parked - {e})
    case ShutDown => f.(parked := map[])
    case ListenerStart(m, service, true) => f.(standing := f.standing + {(m, service)})
    case ListenerStop(m, service) => f.(standing := f.standing - {(m, service)})
    case _ => f
  }

  /** The event `back` events ago: 1 for the last one. */
  predicate Back(log: Log, back: nat, event: Event) {
    0 < back <= |log| && log[|log| - back] == event
  }

  predicate Uses(f: Facts, e: EndpointId, c: Channel) {
    e in f.registry && f.registry[e] == c
  }

  predicate HasParked(f: Facts, e: EndpointId, c: Channel) {
    e in f.parked && f.parked[e] == c
  }

  predicate OnLan(f: Facts) {
    exists e :: e in f.registry && f.registry[e].medium == WifiLan
  }

  /** The medium was asked for and is up: just now, or because its listener stood. */
  predicate BroughtUp(log: Log, m: Medium, service: ServiceId, e: EndpointId) {
    var asked, listening := Initialize(m, service, e), ListenerStart(m, service, true);
    || Back(log, 1, asked)
    || (Back(log, 1, listening) && Back(log, 2, asked))
    || (Back(log, 1, listening) && Back(log, 2, SoftApStart(service, true)) && Back(log, 3, asked))
  }

  /** The introduction went out on `c` to `e`, and was acknowledged if that was waited for. */
  predicate Greeted(log: Log, back: nat, e: EndpointId, c: Channel) {
    var greeting := Wrote(e, c, Introduction, true);
    Back(log, back, greeting) || (Back(log, back, AckRead(c, true)) && Back(log, back + 1, greeting))
  }

  /** `c` is new: joined after an offer of `e`, or accepted from a socket. */
  predicate Agreed(log: Log, back: nat, e: EndpointId, c: Channel) {
    (Back(log, back, Joined(e)) && Greeted(log, back + 1, e, c)) || Back(log, back, AckWritten(c, true))
  }

  // -- what justifies an event ----------------------------------------------

  /** A frame may go out to `e` on `c` now. */
  predicate MayWrite(before: Log, e: EndpointId, c: Channel, frame: Frame) {
    var f := FactsAt(before);
    match frame
    case Offer(m) =>
      // on the channel in use, for the medium that is now up under the service of that channel
      Uses(f, e, c) && c.medium != m && !(OnLan(f) && m == WifiHotspot) && BroughtUp(before, m, Wrap(c.serviceId), e)
    case Introduction =>
      // first thing on a channel just dialled for the service of the channel in use
      Back(before, 1, Create(c.medium, c.serviceId, e, true)) && e in f.registry
        && f.registry[e].serviceId == c.serviceId
    case LastWrite =>
      // on the channel that the new one, paused first, has just replaced
      |before| >= 3 && before[|before| - 1].Registered? && before[|before| - 1].endpoint == e
      && (var n := before[|before| - 1].channel;
          Back(before, 2, Paused(n)) && Agreed(before, 3, e, n) && Uses(FactsAt(before[..|before| - 2]), e, c))
    case SafeToClose => HasParked(f, e, c)
    case Disconnection => Back(before, 1, EncryptionOff(e, c))
    case UpgradeFailed(_) => Uses(f, e, c)
    case IntroductionAck => false
  }

  predicate MayClose(before: Log, e: EndpointId, c: Channel, reason: Reason) {
    var f := FactsAt(before);
    match reason
    case Upgraded => Back(before, 1, DrainRead(e, c))
    case Unfinished => HasParked(f, e, c) || (Uses(f, e, c) && Back(before, 1, Resumed(c)))
    case Shutdown => HasParked(f, e, c)
    case IoError =>
      Back(before, 1, Wrote(e, c, SafeToClose, false))
      || (before != [] && before[|before| - 1].Wrote? && before[|before| - 1].frame.UpgradeFailed?
          && before[|before| - 1] == Wrote(e, c, before[|before| - 1].frame, false))
  }

  predicate MayListen(before: Log, m: Medium, service: ServiceId) {
    && before != []
    && (HandlerSpec.Concrete(m) ==> (m, service) !in FactsAt(before).standing)
    && if m == WifiHotspot then
         Back(before, 1, SoftApStart(service, true))
       else
         before[|before| - 1].Initialize? && before[|before| - 1].medium == m && before[|before| - 1].service == service
  }

  /** The event follows from what came before. */
  ghost predicate Justified(before: Log, event: Event) {
    var f := FactsAt(before);
    match event
    case Wrote(e, c, frame, _) => MayWrite(before, e, c, frame)
    case Closed(e, c, reason) => MayClose(before, e, c, reason)
    case EncryptionOff(e, c) => HasParked(f, e, c)
    case DrainRead(e, c) => Back(before, 1, Wrote(e, c, Disconnection, true))
      || Back(before, 1, Wrote(e, c, Disconnection, false))
    case Released(e, c) =>
      // parked until the channel displaced next took its place
      && before != [] && before[|before| - 1].Wrote? && before[|before| - 1].frame == LastWrite
      && before[|before| - 1].ok && before[|before| - 1].endpoint == e
      && HasParked(FactsAt(before[..|before| - 1]), e, c)
    case AckWritten(c, _) => Back(before, 1, IntroductionRead(c, true))
    case AckRead(c, _) => before != [] && before[|before| - 1].Wrote?
      && before[|before| - 1] == Wrote(before[|before| - 1].endpoint, c, Introduction, true)
    case Discarded(c) =>
      || Back(before, 1, IntroductionRead(c, false)) || Back(before, 1, AckWritten(c, false))
        || Back(before, 1, AckRead(c, false))
      || (before != [] && before[|before| - 1].Wrote?
        && before[|before| - 1] == Wrote(before[|before| - 1].endpoint, c, Introduction, false))
    case Joined(e) => before != [] && exists c :: Greeted(before, 1, e, c)
    case Paused(c) => exists e :: Agreed(before, 1, e, c)
    case Resumed(c) => exists e :: Uses(f, e, c)
    case BandwidthChanged(e, m) =>
      // the medium of the channel in use, which was resumed when the displaced one had been closed
      && |before| >= 2 && e in f.registry && m == f.registry[e].medium && Back(before, 1, Resumed(f.registry[e]))
      && before[|before| - 2].Closed? && before[|before| - 2].endpoint == e && before[|before| - 2].reason == Upgraded
    case Initialize(m, service, e) =>
      && e in f.registry && service == Wrap(f.registry[e].serviceId) && m != UnknownMedium && f.registry[e].medium != m
      && !(OnLan(f) && m == WifiHotspot)
    case Create(m, service, e, _) =>
      e in f.registry && service == f.registry[e].serviceId && m != UnknownMedium && !(OnLan(f) && m == WifiHotspot)
    case ListenerStart(m, service, _) => MayListen(before, m, service)
    case ListenerStop(m, service) => (m, service) in f.standing && Back(before, 1, Reverted(m, service))
    case SoftApStart(service, _) =>
      && before != [] && before[|before| - 1].Initialize? && (WifiHotspot, service) !in f.standing
      && before[|before| - 1].medium == WifiHotspot && before[|before| - 1].service == service
    case SoftApStop(service) =>
      Back(before, 1, ListenerStart(WifiHotspot, service, false)) || Back(before, 1, ListenerStop(WifiHotspot, service))
    case RetryScheduled(e, _) => !(e in f.registry && f.registry[e].medium == WifiLan)
    case _ => true
  }

  ghost predicate Chronicled(log: Log) {
    log == [] || (Chronicled(log[..|log| - 1]) && Justified(log[..|log| - 1], log[|log| - 1]))
  }

  lemma Snoc(log: Log, event: Event)
    ensures FactsAt(log + [event]) == Noted(FactsAt(log), event)
    ensures Chronicled(log + [event]) <==> Chronicled(log) && Justified(log, event)
  {
    assert (log + [event])[..|log|] == log;
  }

  lemma {:induction false} JustifiedAt(log: Log, i: nat)
    requires Chronicled(log) && i < |log|
    ensures Justified(log[..i], log[i])
    decreases |log|
  {
    if i < |log| - 1 {
      JustifiedAt(log[..|log| - 1], i);
      assert log[..|log| - 1][..i] == log[..i];
    }
  }

  // -- the manager keeps the chronicle --------------------------------------

  /** The manager's collections are what the log says. */
  ghost predicate Agrees(s: State, f: Facts) {
    && f.registry == s.registry && f.parked == s.up.parked
    && (forall m, v :: (m, v) in f.standing <==> m in s.handlers && v in s.handlers[m].listeners)
  }

  ghost predicate Told(s: State) {
    Chronicled(s.io.log) && Agrees(s, FactsAt(s.io.log))
  }

  /** One more event. */
  lemma One(s: State, t: State, event: Event)
    requires Told(s) && t.io.log == s.io.log + [event] && Justified(s.io.log, event)
    requires Agrees(t, Noted(FactsAt(s.io.log), event))
    ensures Told(t)
  {
    Snoc(s.io.log, event);
  }

  /** Events that tell nothing new and need no justification, or have it. */
  lemma Idle(s: State, t: State)
    requires Told(s) && t.io.log == s.io.log && t.registry == s.registry && t.up.parked == s.up.parked
      && t.handlers == s.handlers
    ensures Told(t)
  {
  }

  predicate Telling(event: Event) {
    || event.Registered? || event.Unregistered? || event.EncryptionOff? || event.Closed? || event.ShutDown?
    || event.ListenerStart? || event.ListenerStop?
    || (event.Wrote? && (event.frame == LastWrite || event.frame == SafeToClose))
  }

  /** One more event that changes nothing the log tells. */
  lemma Aside(s: State, event: Event)
    requires Told(s) && Justified(s.io.log, event) && !Telling(event)
    ensures Told(Emit(s, event)) && FactsAt(Emit(s, event).io.log) == FactsAt(s.io.log)
  {
    Snoc(s.io.log, event);
  }

  // the handlers

  /** Asked for, the medium comes up or it does not. */
  lemma BringUpTold(s: State, outcome: Outcomes, m: Medium, service: ServiceId, e: EndpointId, up: HandlerSpec.Result,
      t: State)
    requires Told(s) && m in s.handlers && Back(s.io.log, 1, Initialize(m, service, e))
    requires up == HandlerSpec.BringUp(outcome, |s.io.log|, m, s.handlers[m], service)
    requires t == s.(handlers := t.handlers, io := s.io.(log := s.io.log + up.log))
    requires m in t.handlers && t.handlers == s.handlers[m := t.handlers[m]]
      && t.handlers[m].listeners == up.handler.listeners
    ensures Told(t) && (up.ok ==> BroughtUp(t.io.log, m, service, e))
  {
    if HandlerSpec.Concrete(m) && service in s.handlers[m].listeners {
      assert t.io.log == s.io.log;
    } else if m == WifiHotspot {
      HotspotTold(s, outcome, service, e, up, t);
    } else {
      PlainTold(s, m, service, e, outcome(|s.io.log|), t);
    }
  }

  lemma PlainTold(s: State, m: Medium, service: ServiceId, e: EndpointId, ok: bool, t: State)
    requires Told(s) && m in s.handlers && m != WifiHotspot && Back(s.io.log, 1, Initialize(m, service, e))
    requires HandlerSpec.Concrete(m) ==> service !in s.handlers[m].listeners
    requires m in t.handlers && t.handlers == s.handlers[m := t.handlers[m]]
    requires t.handlers[m].listeners == s.handlers[m].listeners + if ok then {service} else {}
    requires t == s.(handlers := t.handlers, io := s.io.(log := s.io.log + [ListenerStart(m, service, ok)]))
    ensures Told(t) && (ok ==> BroughtUp(t.io.log, m, service, e))
  {
    One(s, t, ListenerStart(m, service, ok));
  }

  lemma HotspotTold(s: State, outcome: Outcomes, service: ServiceId, e: EndpointId, up: HandlerSpec.Result, t: State)
    requires Told(s) && WifiHotspot in s.handlers && Back(s.io.log, 1, Initialize(WifiHotspot, service, e))
    requires service !in s.handlers[WifiHotspot].listeners
    requires up == HandlerSpec.BringUp(outcome, |s.io.log|, WifiHotspot, s.handlers[WifiHotspot], service)
    requires t == s.(handlers := t.handlers, io := s.io.(log := s.io.log + up.log)) && WifiHotspot in t.handlers
    requires t.handlers == s.handlers[WifiHotspot := t.handlers[WifiHotspot]]
    requires t.handlers[WifiHotspot].listeners == up.handler.listeners
    ensures Told(t) && (up.ok ==> BroughtUp(t.io.log, WifiHotspot, service, e))
  {
    var ap := SoftApStart(service, outcome(|s.io.log|));
    var s1 := Emit(s, ap);
    Aside(s, ap);
    if !ap.ok {
      assert t.io.log == s1.io.log;
    } else {
      ListenTold(s1, service, e, outcome(|s1.io.log|), t);
    }
  }

  /** The SoftAP is up; the listener follows, or the SoftAP stops. */
  lemma ListenTold(s: State, service: ServiceId, e: EndpointId, ok: bool, t: State)
    requires Told(s) && WifiHotspot in s.handlers && service !in s.handlers[WifiHotspot].listeners
    requires Back(s.io.log, 1, SoftApStart(service, true)) && Back(s.io.log, 2, Initialize(WifiHotspot, service, e))
    requires WifiHotspot in t.handlers && t.handlers == s.handlers[WifiHotspot := t.handlers[WifiHotspot]]
    requires t == s.(handlers := t.handlers, io := t.io)
    requires t.handlers[WifiHotspot].listeners == s.handlers[WifiHotspot].listeners + if ok then {service} else {}
    requires t.io.log == s.io.log + [ListenerStart(WifiHotspot, service, ok)] + if ok then [] else [SoftApStop(service)]
    ensures Told(t) && (ok ==> BroughtUp(t.io.log, WifiHotspot, service, e))
  {
    var listening := ListenerStart(WifiHotspot, service, ok);
    var s1 := t.(io := t.io.(log := s.io.log + [listening]));
    One(s, s1, listening);
    if ok {
      assert t.io.log == s1.io.log;
    } else {
      Aside(s1, SoftApStop(service));
      assert t == Emit(s1, SoftApStop(service));
    }
  }

  lemma TearDownTold(s: State, m: Medium, service: ServiceId, t: State)
    requires Told(s) && m in s.handlers && m in t.handlers
    requires t == s.(handlers := t.handlers, io := s.io.(log := s.io.log + HandlerSpec.TearDownLog(m,
      s.handlers[m].listeners, service)))
    requires t.handlers == s.handlers[m := t.handlers[m]]
      && t.handlers[m].listeners == s.handlers[m].listeners - {service}
    ensures Told(t)
  {
    var s1 := Emit(s, Reverted(m, service));
    Aside(s, Reverted(m, service));
    if service !in s.handlers[m].listeners {
      assert t.io.log == s1.io.log;
    } else {
      StopTold(s1, m, service, t);
    }
  }

  lemma StopTold(s: State, m: Medium, service: ServiceId, t: State)
    requires Told(s) && m in s.handlers && service in s.handlers[m].listeners && Back(s.io.log, 1, Reverted(m, service))
    requires m in t.handlers && t.handlers == s.handlers[m := t.handlers[m]]
    requires t.handlers[m].listeners == s.handlers[m].listeners - {service}
    requires var stops := if m == WifiHotspot then [ListenerStop(m, service), SoftApStop(service)]
      else [ListenerStop(m, service)];
      t == s.(handlers := t.handlers, io := s.io.(log := s.io.log + stops))
    ensures Told(t)
  {
    var s1 := t.(io := t.io.(log := s.io.log + [ListenerStop(m, service)]));
    One(s, s1, ListenerStop(m, service));
    if m == WifiHotspot {
      Aside(s1, SoftApStop(service));
      assert t == Emit(s1, SoftApStop(service));
    }
  }

  lemma {:induction false} TearDownAllTold(s: State, m: Medium, services: seq<ServiceId>, t: State)
    requires Told(s) && m in s.handlers && t == WithHandler(s, m, HandlerSpec.TearDownAll(m, s.handlers[m], services))
    ensures Told(t)
    decreases |services|
  {
    if services == [] {
      assert t.handlers == s.handlers && t.io.log == s.io.log;
    } else {
      var s1 := WithHandler(s, m, HandlerSpec.TearDown(m, s.handlers[m], services[0]));
      TearDownTold(s, m, services[0], s1);
      TearDownFirst(s, m, services, s1, t);
      TearDownAllTold(s1, m, services[1..], t);
    }
  }

  lemma TearDownFirst(s: State, m: Medium, services: seq<ServiceId>, s1: State, t: State)
    requires m in s.handlers && services != [] && s1
      == WithHandler(s, m, HandlerSpec.TearDown(m, s.handlers[m], services[0]))
    requires t == WithHandler(s, m, HandlerSpec.TearDownAll(m, s.handlers[m], services))
    ensures t == WithHandler(s1, m, HandlerSpec.TearDownAll(m, s1.handlers[m], services[1..]))
  {
    var first := HandlerSpec.TearDown(m, s.handlers[m], services[0]);
    var rest := HandlerSpec.TearDownAll(m, first.handler, services[1..]);
    HandlerSpec.Associate(s.io.log, first.log, rest.log);
    assert t.handlers == s1.handlers[m := rest.handler];
  }

  lemma RevertAllTold(s: State, m: Medium, order: seq<ServiceId>, t: State)
    requires Told(s) && m in s.handlers && t == WithHandler(s, m, HandlerSpec.RevertAll(m, s.handlers[m], order))
    ensures Told(t)
  {
    var all := HandlerSpec.TearDownAll(m, s.handlers[m], order);
    var s1 := WithHandler(s, m, all);
    TearDownAllTold(s, m, order, s1);
    assert t.handlers[m].listeners == s1.handlers[m].listeners && t.handlers == s1.handlers[m := t.handlers[m]];
    SameListeners(s1, t, m);
  }

  lemma SameListeners(s: State, t: State, m: Medium)
    requires Told(s) && m in s.handlers && m in t.handlers && t == s.(handlers := t.handlers)
    requires t.handlers == s.handlers[m := t.handlers[m]] && t.handlers[m].listeners == s.handlers[m].listeners
    ensures Told(t)
  {
  }

  lemma RevertEndpointTold(s: State, m: Medium, service: ServiceId, e: EndpointId, t: State)
    requires Told(s) && m in s.handlers && t == WithHandler(s, m,
      HandlerSpec.RevertEndpoint(m, s.handlers[m], service, e))
    ensures Told(t)
  {
    var h := s.handlers[m];
    if IsInitiator(service) && service in h.active && h.active[service] != {} && h.active[service] - {e} == {} {
      TearDownTold(s, m, service, t);
    } else {
      assert t.io.log == s.io.log;
      SameListeners(s, t, m);
    }
  }

  lemma RevertTold(env: Env, s: State, service: ServiceId, e: EndpointId, t: State)
    requires Told(s) && t == Revert(env, s, service, e)
    ensures Told(t)
  {
    var m := MediumFor(env, s, e);
    if !env.config.multipleMediums {
      var s1 := s.(mediums := s.mediums.(medium := UnknownMedium));
      Idle(s, s1);
      if HasHandler(s1, m) {
        RevertAllTold(s1, m, env.order(s1.handlers[m].active.Keys), t);
      }
    } else {
      var s1 := s.(mediums := s.mediums.(mediumOf := s.mediums.mediumOf - {e}));
      Idle(s, s1);
      if HasHandler(s1, m) && IsInitiator(service) {
        RevertEndpointTold(s1, m, service, e, t);
      } else if HasHandler(s1, m) && (m == WifiHotspot || m == WifiDirect) {
        TearDownTold(s1, m, service, t);
      }
    }
  }

  lemma {:induction false} RevertHandlersTold(env: Env, s: State, ms: seq<Medium>)
    requires Told(s)
    ensures Told(RevertHandlers(env, s, ms))
    decreases |ms|
  {
    if ms != [] {
      if ms[0] in s.handlers {
        var order := env.order(s.handlers[ms[0]].active.Keys);
        var s1 := WithHandler(s, ms[0], HandlerSpec.RevertAll(ms[0], s.handlers[ms[0]], order));
        RevertAllTold(s, ms[0], order, s1);
        RevertHandlersTold(env, s1, ms[1..]);
      } else {
        RevertHandlersTold(env, s, ms[1..]);
      }
    }
  }

  // the failover

  lemma OfferTold(env: Env, s: State, e: EndpointId, m: Medium, t: State)
    requires Told(s) && Viable(s, e, m) && t == MakeOffer(env, s, e, m).0
    ensures Told(t)
  {
    var c := s.registry[e];
    var asked := Initialize(m, Wrap(c.serviceId), e);
    var s1 := Emit(s, asked);
    Aside(s, asked);
    var up := HandlerSpec.BringUp(env.outcome, |s1.io.log|, m, s1.handlers[m], Wrap(c.serviceId));
    var init := HandlerSpec.Init(env.outcome, |s.io.log|, m, s.handlers[m], c.serviceId, e);
    var s2 := WithHandler(s, m, init);
    HandlerSpec.Associate(s.io.log, [asked], up.log);
    assert s2.io.log == s1.io.log + up.log;
    BringUpTold(s1, env.outcome, m, Wrap(c.serviceId), e, up, s2);
    if up.ok {
      OfferedTold(s2, e, m, Next(env, s2.io.log));
    }
  }

  lemma OfferedTold(s: State, e: EndpointId, m: Medium, ok: bool)
    requires Told(s) && e in s.registry && s.registry[e].medium != m && !Barred(s, m)
    requires BroughtUp(s.io.log, m, Wrap(s.registry[e].serviceId), e)
    ensures Told(Emit(s, Wrote(e, s.registry[e], Offer(m), ok)))
  {
    Aside(s, Wrote(e, s.registry[e], Offer(m), ok));
  }

  lemma UndoneTold(env: Env, s: State, e: EndpointId)
    requires Told(s)
    ensures Told(Undone(env, s, e))
  {
    var s1 := Stopped(s, e);
    Idle(s, s1);
    var service := if e in s1.registry then s1.registry[e].serviceId else UNKNOWN_SERVICE_ID;
    RevertTold(env, s1, Wrap(service), e, Revert(env, s1, Wrap(service), e));
  }

  lemma NextBestTold(env: Env, s: State, e: EndpointId, untried: seq<Medium>)
    requires Told(s)
    ensures Told(NextBestOnce(env, s, e, untried).state)
  {
    var t := NextBestOnce(env, s, e, untried).state;
    if t.io.log != s.io.log {
      var d := NextDelay(env, s, e);
      Aside(s, RetryScheduled(e, d));
      Idle(Emit(s, RetryScheduled(e, d)), t);
    } else {
      Idle(s, t);
    }
  }

  lemma FailureTold(env: Env, s: State, e: EndpointId, last: Medium)
    requires Told(s)
    ensures Told(FailureOnce(env, s, e, last).state)
  {
    Idle(s, Stopped(s, e));
    UndoneTold(env, s, e);
    NextBestTold(env, Undone(env, s, e), e, After(ClientOf(s, e).mediums, last));
  }

  lemma AttemptTold(env: Env, s: State, e: EndpointId, m: Medium)
    requires Told(s) && Viable(s, e, m)
    ensures Told(Attempt(env, s, e, m).state)
  {
    var (s1, ok) := MakeOffer(env, s, e, m);
    OfferTold(env, s, e, m, s1);
    if ok {
      Idle(s1, Started(s1, e));
    } else {
      FailureTold(env, s1, e, OnWire(m));
    }
  }

  lemma InitiateTold(env: Env, s: State, e: EndpointId, m: Medium)
    requires Told(s)
    ensures Told(InitiateOnce(env, s, e, m).state)
  {
    ReadyTold(env, s, e, m);
    if Viable(s, e, m) {
      ViableReadied(env, s, e, m);
      AttemptTold(env, Readied(env, s, e, m), e, m);
    }
  }

  lemma ReadyTold(env: Env, s: State, e: EndpointId, m: Medium)
    requires Told(s)
    ensures Told(Readied(env, s, e, m)) && Told(Declined(env, s, e, m))
  {
    Idle(s, Readied(env, s, e, m));
    Idle(s, Declined(env, s, e, m));
  }

  lemma ViableReadied(env: Env, s: State, e: EndpointId, m: Medium)
    requires Viable(s, e, m)
    ensures Viable(Readied(env, s, e, m), e, m)
  {
    assert WifiLanConnected(Readied(env, s, e, m)) == WifiLanConnected(s);
  }

  // the responder

  lemma RefusalTold(env: Env, s: State, e: EndpointId, info: PathInfo)
    requires Told(s)
    ensures Told(FailedProtocol(env, s, e, info))
  {
    if e in s.registry {
      var c := s.registry[e];
      var wrote := Wrote(e, c, UpgradeFailed(info), Next(env, s.io.log));
      var s1 := Emit(s, wrote);
      Aside(s, wrote);
      if wrote.ok {
        RevertTold(env, s1, c.serviceId, e, Revert(env, s1, c.serviceId, e));
        Idle(if MediumFor(env, s1, e) != UnknownMedium then Revert(env, s1, c.serviceId, e)
          else s1, FailedProtocol(env, s, e, info));
      } else {
        One(s1, FailedProtocol(env, s, e, info), Closed(e, c, IoError));
      }
    }
  }

  lemma DuplicateTold(s: State, e: EndpointId)
    requires Told(s)
    ensures Told(DuplicateOffer(s, e))
  {
    var s1 := s.(up := s.up.(parked := s.up.parked - {e}));
    if e in s.up.parked {
      s1 := Emit(s1, Closed(e, s.up.parked[e], Unfinished));
      One(s, s1, Closed(e, s.up.parked[e], Unfinished));
    } else {
      assert s1.up.parked == s.up.parked;
    }
    DroppedTold(s1, e, DuplicateOffer(s, e));
  }

  /** With nothing parked for `e` any more, its channel in use is resumed and closed. */
  lemma DroppedTold(s: State, e: EndpointId, t: State)
    requires Told(s) && e !in s.up.parked && t == s.(io := t.io)
    requires t.io.log == if e in s.registry then s.io.log + [Resumed(s.registry[e])] + [Closed(e, s.registry[e],
      Unfinished)] else s.io.log
    ensures Told(t)
  {
    if e in s.registry {
      var c := s.registry[e];
      assert Uses(FactsAt(s.io.log), e, c);
      Aside(s, Resumed(c));
      One(Emit(s, Resumed(c)), t, Closed(e, c, Unfinished));
    }
  }

  lemma DialTold(env: Env, s: State, e: EndpointId, info: PathInfo)
    requires Told(s) && !Barred(s, info.medium)
    ensures var (t, c) := Dial(env, s, e, info); Told(t) && (c.Some? ==> Greeted(t.io.log, 1, e, c.value))
  {
    if HasHandler(s, info.medium) && e in s.registry {
      var create := Create(info.medium, s.registry[e].serviceId, e, Next(env, s.io.log));
      var s1 := Emit(s, create);
      Aside(s, create);
      var t := Dial(env, s, e, info).0;
      if create.ok {
        var c := Channel(s.io.nextChannel, info.medium, s.registry[e].serviceId);
        var s2 := s1.(io := s1.io.(log := Introduce(env, s1.io.log, e, c, info.introductionAck).0));
        IntroduceTold(env, s1, e, c, info.introductionAck, s2);
        Idle(s2, t);
      } else {
        Idle(s1, t);
      }
    }
  }

  lemma IntroduceTold(env: Env, s: State, e: EndpointId, c: Channel, ack: bool, t: State)
    requires Told(s) && Back(s.io.log, 1, Create(c.medium, c.serviceId, e, true))
    requires e in s.registry && s.registry[e].serviceId == c.serviceId
    requires t == s.(io := s.io.(log := Introduce(env, s.io.log, e, c, ack).0))
    ensures Told(t) && (Introduce(env, s.io.log, e, c, ack).1 ==> Greeted(t.io.log, 1, e, c))
  {
    var wrote := Wrote(e, c, Introduction, Next(env, s.io.log));
    var s1 := Emit(s, wrote);
    Aside(s, wrote);
    if !wrote.ok {
      Aside(s1, Discarded(c));
    } else if ack {
      var read := AckRead(c, Next(env, s1.io.log));
      Aside(s1, read);
      if !read.ok {
        Aside(Emit(s1, read), Discarded(c));
      }
    }
  }

  lemma AcceptTold(env: Env, s: State, e: EndpointId, info: PathInfo)
    requires Told(s) && !Barred(s, info.medium)
    ensures Told(Accept(env, s, e, info))
  {
    RefusalTold(env, s, e, info);
    DialTold(env, s, e, info);
    var (s1, made) := Dial(env, s, e, info);
    if made.None? {
      RefusalTold(env, s1, e, info);
    } else {
      JoinTold(env, s1, e, made.value);
    }
  }

  lemma JoinTold(env: Env, s: State, e: EndpointId, c: Channel)
    requires Told(s) && Greeted(s.io.log, 1, e, c)
    ensures Told(RunProtocol(env, Emit(Started(s, e), Joined(e)), e, c))
  {
    var s1 := Emit(Started(s, e), Joined(e));
    Idle(s, Started(s, e));
    Aside(Started(s, e), Joined(e));
    assert Agreed(s1.io.log, 1, e, c);
    ProtocolTold(env, s1, e, c);
  }

  lemma PathAvailableTold(env: Env, s: State, e: EndpointId, info: PathInfo)
    requires Told(s)
    ensures Told(OnPathAvailable(env, s, e, info))
  {
    RefusalTold(env, s, e, info);
    DuplicateTold(s, e);
    var s1 := Adopted(env, s, e, info.medium);
    Idle(s, s1);
    if !Barred(s, info.medium) {
      assert WifiLanConnected(s1) == WifiLanConnected(s);
      AcceptTold(env, s1, e, info);
    }
  }

  // the swap and what follows

  lemma ProtocolTold(env: Env, s: State, e: EndpointId, c: Channel)
    requires Told(s) && Agreed(s.io.log, 1, e, c)
    ensures Told(RunProtocol(env, s, e, c))
  {
    var s1 := s.(io := s.io.(paused := s.io.paused + {c}));
    Idle(s, s1);
    Aside(s1, Paused(c));
    if e in s.registry {
      ReplacedTold(env, s, e, c, s.registry[e], Emit(s1, Paused(c)), RunProtocol(env, s, e, c));
    }
  }

  lemma ReplacedTold(env: Env, s: State, e: EndpointId, c: Channel, prior: Channel, s1: State, t: State)
    requires Told(s) && Agreed(s.io.log, 1, e, c) && e in s.registry && s.registry[e] == prior
      && t == RunProtocol(env, s, e, c)
    requires Told(s1) && s1 == s.(io := s.io.(paused := s.io.paused + {c}, log := s.io.log + [Paused(c)]))
    ensures Told(t)
  {
    var s2 := Emit(s1.(registry := s1.registry[e := c]), Registered(e, c));
    RegisteredTold(s1, e, c, s2);
    var ok := Next(env, s2.io.log);
    SwappedTold(s, s2, e, c, prior, ok);
    if ok {
      ParkTold(env, Emit(s2, Wrote(e, prior, LastWrite, true)), e, prior, s.up.parked, t);
    }
  }

  lemma RegisteredTold(s: State, e: EndpointId, c: Channel, t: State)
    requires Told(s) && t == Emit(s.(registry := s.registry[e := c]), Registered(e, c))
    ensures Told(t)
  {
    One(s, t, Registered(e, c));
  }

  /** LAST_WRITE goes out on the channel just replaced. */
  lemma SwappedTold(s: State, t: State, e: EndpointId, c: Channel, prior: Channel, ok: bool)
    requires Told(s) && Told(t) && t.io.log == s.io.log + [Paused(c)] + [Registered(e, c)] && t.up.parked == s.up.parked
    requires e in s.registry && s.registry[e] == prior && Agreed(s.io.log, 1, e, c)
    ensures var after := t.io.log + [Wrote(e, prior, LastWrite, ok)];
      && Chronicled(after) && FactsAt(after[..|after| - 1]) == FactsAt(t.io.log)
      && FactsAt(after) == Noted(FactsAt(t.io.log), Wrote(e, prior, LastWrite, ok))
    ensures !ok ==> Told(Emit(t, Wrote(e, prior, LastWrite, ok)))
  {
    var after := t.io.log + [Wrote(e, prior, LastWrite, ok)];
    assert t.io.log[..|t.io.log| - 2] == s.io.log && after[..|after| - 1] == t.io.log;
    MayWriteLast(t.io.log, s.io.log, e, c, prior);
    Snoc(t.io.log, Wrote(e, prior, LastWrite, ok));
  }

  lemma MayWriteLast(log: Log, before: Log, e: EndpointId, c: Channel, prior: Channel)
    requires log == before + [Paused(c)] + [Registered(e, c)] && log[..|log| - 2] == before
    requires Agreed(before, 1, e, c) && Uses(FactsAt(before), e, prior)
    ensures MayWrite(log, e, prior, LastWrite)
  {
    assert |before| > 0;
    assert log[|log| - 1] == Registered(e, c) && log[|log| - 2] == Paused(c);
    assert log[|log| - 3] == before[|before| - 1];
    AgreedEarlier(log, before, e, c);
  }

  lemma AgreedEarlier(log: Log, before: Log, e: EndpointId, c: Channel)
    requires log == before + [Paused(c)] + [Registered(e, c)] && Agreed(before, 1, e, c)
    ensures Agreed(log, 3, e, c)
  {
  }

  /** Before the state catches up with the log, `s` is as the log says but for what is parked. */
  lemma ParkTold(env: Env, s: State, e: EndpointId, prior: Channel, parked: map<EndpointId, Channel>, t: State)
    requires s.up.parked == parked && t == Park(env, s, e, prior)
    requires s.io.log != [] && s.io.log[|s.io.log| - 1] == Wrote(e, prior, LastWrite, true)
    requires FactsAt(s.io.log[..|s.io.log| - 1]).parked == parked
    requires Chronicled(s.io.log) && Agrees(s.(up := s.up.(parked := parked[e := prior])), FactsAt(s.io.log))
    ensures Told(t)
  {
    var s1 := s.(up := s.up.(parked := s.up.parked[e := prior], latched := s.up.latched - {e}));
    assert Told(s1);
    if e in s.up.parked {
      Aside(s1, Released(e, s.up.parked[e]));
      s1 := Emit(s1, Released(e, s.up.parked[e]));
    }
    LastWriteTold(env, s1, e);
  }

  lemma LastWriteTold(env: Env, s: State, e: EndpointId)
    requires Told(s)
    ensures Told(OnLastWrite(env, s, e))
  {
    var t := OnLastWrite(env, s, e);
    if e in s.up.parked {
      var wrote := Wrote(e, s.up.parked[e], SafeToClose, Next(env, s.io.log));
      if wrote.ok {
        One(s, t, wrote);
      } else {
        var s1 := Emit(s.(up := t.up), wrote);
        One(s, s1, wrote);
        One(s1, t, Closed(e, s.up.parked[e], IoError));
      }
    } else {
      Idle(s, t);
    }
  }

  lemma SafeToCloseTold(env: Env, s: State, e: EndpointId)
    requires Told(s)
    ensures Told(OnSafeToClose(env, s, e))
  {
    if e in s.up.parked {
      var prev := s.up.parked[e];
      var s1 := Emit(s.(up := s.up.(parked := s.up.parked - {e})), EncryptionOff(e, prev));
      One(s, s1, EncryptionOff(e, prev));
      var bye := Wrote(e, prev, Disconnection, Next(env, s1.io.log));
      var s2 := Emit(s1, bye);
      Aside(s1, bye);
      var s3 := Emit(s2, DrainRead(e, prev));
      Aside(s2, DrainRead(e, prev));
      var s4 := Emit(s3, Closed(e, prev, Upgraded));
      One(s3, s4, Closed(e, prev, Upgraded));
      ResumeTold(s4, e, prev, OnSafeToClose(env, s, e));
    }
  }

  lemma ResumeTold(s: State, e: EndpointId, prev: Channel, t: State)
    requires Told(s) && Back(s.io.log, 1, Closed(e, prev, Upgraded))
    requires t.registry == s.registry && t.handlers == s.handlers && t.up.parked == s.up.parked
    requires t.io.log == if e in s.registry then s.io.log + [Resumed(s.registry[e])] + [BandwidthChanged(e,
      s.registry[e].medium)] else s.io.log
    ensures Told(t)
  {
    if e in s.registry {
      var c := s.registry[e];
      assert Uses(FactsAt(s.io.log), e, c);
      Aside(s, Resumed(c));
      var s1 := Emit(s, Resumed(c));
      Aside(s1, BandwidthChanged(e, c.medium));
      Idle(Emit(s1, BandwidthChanged(e, c.medium)), t);
    } else {
      Idle(s, t);
    }
  }

  lemma IncomingTold(env: Env, s: State, c: Channel, introduced: Option<EndpointId>)
    requires Told(s)
    ensures Told(OnIncoming(env, s, c, introduced))
  {
    var (s1, known) := Introduced(env, s, c, introduced);
    IntroducedTold(env, s, c, introduced, s1);
    if known.Some? && Target(s1, known.value).Some? {
      var e := Target(s1, known.value).value;
      Idle(s1, CancelAlarm(s1, e));
      assert Agreed(s1.io.log, 1, e, c);
      ProtocolTold(env, CancelAlarm(s1, e), e, c);
    }
  }

  lemma IntroducedTold(env: Env, s: State, c: Channel, introduced: Option<EndpointId>, t: State)
    requires Told(s) && t == Introduced(env, s, c, introduced).0
    ensures Told(t) && (Introduced(env, s, c, introduced).1.Some? ==> Back(t.io.log, 1, AckWritten(c, true)))
  {
    var read := IntroductionRead(c, introduced.Some?);
    var s1 := Emit(s, read);
    Aside(s, read);
    if introduced.None? {
      Aside(s1, Discarded(c));
      Idle(Emit(s1, Discarded(c)), t);
    } else {
      var acked := AckWritten(c, Next(env, s1.io.log));
      var s2 := Emit(s1, acked);
      Aside(s1, acked);
      if acked.ok {
        Idle(s2, t);
      } else {
        Aside(s2, Discarded(c));
        Idle(Emit(s2, Discarded(c)), t);
      }
    }
  }

  // the rest

  lemma ForgetTold(env: Env, s: State, e: EndpointId)
    requires Told(s)
    ensures Told(Forget(env, s, e))
  {
    var m := MediumFor(env, s, e);
    if HasHandler(s, m) {
      Aside(s, HandlerDisconnect(m, e));
      ForgottenTold(Emit(s, HandlerDisconnect(m, e)), e, Forget(env, s, e));
    } else {
      ForgottenTold(s, e, Forget(env, s, e));
    }
  }

  lemma ForgottenTold(s: State, e: EndpointId, t: State)
    requires Told(s) && t.registry == s.registry && t.handlers == s.handlers && t.up.parked == s.up.parked - {e}
    requires var closed := if e in s.up.parked then s.io.log + [Closed(e, s.up.parked[e], Shutdown)] else s.io.log;
      t.io.log == closed + [Forgotten(e)]
    ensures Told(t)
  {
    var s1 := s.(up := s.up.(parked := s.up.parked - {e}));
    if e in s.up.parked {
      s1 := Emit(s1, Closed(e, s.up.parked[e], Shutdown));
      One(s, s1, Closed(e, s.up.parked[e], Shutdown));
    } else {
      assert s1.up.parked == s.up.parked;
    }
    Aside(s1, Forgotten(e));
    Idle(Emit(s1, Forgotten(e)), t);
  }

  lemma DisconnectTold(env: Env, s: State, service: ServiceId, e: EndpointId)
    requires Told(s)
    ensures Told(OnDisconnect(env, s, service, e))
  {
    ForgetTold(env, s, e);
    RevertTold(env, Forget(env, s, e), service, e, Revert(env, Forget(env, s, e), service, e));
  }

  lemma ShutDownTold(env: Env, s: State)
    requires Told(s)
    ensures Told(DoShutDown(env, s))
  {
    var s0 := s.(retry := Retries(map[], map[]));
    Idle(s, s0);
    var s1 := RevertHandlers(env, s0, env.handlerOrder(s.handlers.Keys));
    RevertHandlersTold(env, s0, env.handlerOrder(s.handlers.Keys));
    One(s1, DoShutDown(env, s), ShutDown);
  }

  lemma FrameTold(env: Env, s: State, e: EndpointId, f: Received)
    requires Told(s)
    ensures Told(OnFrame(env, s, e, f).state)
  {
    match f
    case PathAvailable(Some(info)) => RefusalTold(env, s, e, info); PathAvailableTold(env, s, e, info);
    case UpgradeFailure(Some(info)) => FailureTold(env, s, e, info.medium);
    case LastWriteToPriorChannel => LastWriteTold(env, s, e);
    case SafeToClosePriorChannel => SafeToCloseTold(env, s, e);
    case _ =>
  }

  lemma AlarmTold(env: Env, s: State, e: EndpointId)
    requires Told(s)
    ensures Told(FireAlarm(env, s, e).state)
  {
    Idle(s, CancelAlarm(s, e));
    NextBestTold(env, CancelAlarm(s, e), e, ClientOf(s, e).mediums);
  }

  lemma BeginTold(env: Env, s: State, op: Op)
    requires Told(s)
    ensures Told(Begin(env, s, op).state)
  {
    match op
    case Initiate(e, m) => InitiateTold(env, s, e, m);
    case IncomingFrame(e, f) => FrameTold(env, s, e, f);
    case IncomingConnection(c, introduced) => IncomingTold(env, s, c, introduced);
    case EndpointDisconnect(service, e) => DisconnectTold(env, s, service, e);
    case AlarmFires(e) => AlarmTold(env, s, e);
    case Stop => ShutDownTold(env, s);
    case _ => MinorTold(env, s, op, Begin(env, s, op).state);
  }

  lemma MinorTold(env: Env, s: State, op: Op, t: State)
    requires Told(s) && t == Begin(env, s, op).state
    requires op.ResetUpgrade? || op.RegisterChannel? || op.UnregisterChannel? || op.ConnectionInitiated?
          || op.ConnectionAccepted? || op.ClientDisconnected? || op.SetUpgradeMediums?
    ensures Told(t)
  {
    match op
    case RegisterChannel(e, c) => One(s, t, Registered(e, c));
    case UnregisterChannel(e) => One(s, t, Unregistered(e));
    case _ => Idle(s, t);
  }

  // -- whole runs -----------------------------------------------------------

  lemma RunTold(env: Env, mediums: set<Medium>, calls: seq<Call>)
    requires Execution(env, Fresh(mediums), calls)
    ensures Told(End(Fresh(mediums), calls))
  {
    var any := (s: State, op: Op) => true;
    forall s, op | Told(s) && any(s, op)
      ensures Told(Begin(env, s, op).state)
    {
      BeginTold(env, s, op);
    }
    forall s, e, m | Told(s)
      ensures Told(InitiateOnce(env, s, e, m).state)
    {
      InitiateTold(env, s, e, m);
    }
    ExecutionKeeps(env, Fresh(mediums), calls, Told, any);
  }

  /**
   * In every run, whatever is called, fails, or comes in: everything the manager did, it had cause to do by what had
   * been done before, and its registered and parked channels and its listeners are those the log tells of.
   */
  lemma EveryEventJustified(env: Env, mediums: set<Medium>, calls: seq<Call>, i: nat)
    requires Execution(env, Fresh(mediums), calls) && i < |End(Fresh(mediums), calls).io.log|
    ensures var s := End(Fresh(mediums), calls);
      Justified(s.io.log[..i], s.io.log[i]) && Agrees(s, FactsAt(s.io.log))
  {
    RunTold(env, mediums, calls);
    JustifiedAt(End(Fresh(mediums), calls).io.log, i);
  }

  /** The channel the log tells to be registered for `e` is the last one it names. */
  lemma {:induction false} LastRegistered(log: Log, e: EndpointId) returns (j: nat)
    requires e in FactsAt(log).registry
    ensures j < |log| && log[j] == Registered(e, FactsAt(log).registry[e])
    ensures forall k :: j < k < |log| ==> !(log[k].Registered? && log[k].endpoint == e) && log[k] != Unregistered(e)
    decreases |log|
  {
    var before, last := log[..|log| - 1], log[|log| - 1];
    if last.Registered? && last.endpoint == e {
      j := |log| - 1;
    } else {
      j := LastRegistered(before, e);
    }
  }

  /**
   * Every success names the medium of the channel registered last for the endpoint, and follows at once on the
   * resumption of that channel, which follows on the close of the displaced one.
   */
  lemma SuccessNamesTheNewMedium(env: Env, mediums: set<Medium>, calls: seq<Call>, i: nat) returns (j: nat)
    requires Execution(env, Fresh(mediums), calls)
    requires var log := End(Fresh(mediums), calls).io.log; i < |log| && log[i].BandwidthChanged?
    ensures var log := End(Fresh(mediums), calls).io.log;
      && j < i && log[j].Registered? && log[j].endpoint == log[i].endpoint && log[i].medium == log[j].channel.medium
      && (forall k :: j < k < i ==>
            !(log[k].Registered? && log[k].endpoint == log[i].endpoint) && log[k] != Unregistered(log[i].endpoint))
      && i >= 2 && log[i - 1] == Resumed(log[j].channel)
      && log[i - 2].Closed? && log[i - 2].endpoint == log[i].endpoint && log[i - 2].reason == Upgraded
  {
    EveryEventJustified(env, mediums, calls, i);
    j := NamesTheNewMedium(End(Fresh(mediums), calls).io.log, i);
  }

  lemma NamesTheNewMedium(log: Log, i: nat) returns (j: nat)
    requires i < |log| && log[i].BandwidthChanged? && Justified(log[..i], log[i])
    ensures j < i && log[j].Registered? && log[j].endpoint == log[i].endpoint && log[i].medium == log[j].channel.medium
    ensures forall k :: j < k < i ==>
      !(log[k].Registered? && log[k].endpoint == log[i].endpoint) && log[k] != Unregistered(log[i].endpoint)
    ensures i >= 2 && log[i - 1] == Resumed(log[j].channel)
    ensures log[i - 2].Closed? && log[i - 2].endpoint == log[i].endpoint && log[i - 2].reason == Upgraded
  {
    var before := log[..i];
    assert before[i - 1] == log[i - 1] && before[i - 2] == log[i - 2];
    j := LastRegistered(before, log[i].endpoint);
    assert log[j] == before[j] && forall k :: j < k < i ==> before[k] == log[k];
  }
}
