/**
 * What each call brings about, as whoever sees the manager before and after it and its log in between can tell: what
 * it answers, gives up, keeps and forgets, and when it does nothing at all.
 */
module Effects {
  import opened Wrappers
  import opened ServiceIds
  import opened Protocol
  import opened BwuSpec
  import opened HandlerSpec
  import Frames

  // -- what can be seen -----------------------------------------------------

  predicate Connected(s: State, e: EndpointId) {
    e in s.clients && s.clients[e].connected
  }

  /** It was the endpoint that opened the connection. */
  predicate Called(s: State, e: EndpointId) {
    e in s.clients && s.clients[e].incoming
  }

  predicate LanInUse(s: State) {
    exists f :: f in s.registry && s.registry[f].medium == WifiLan
  }

  /** Upgrades of `e` run over `m`. */
  predicate Recorded(env: Env, s: State, e: EndpointId, m: Medium) {
    && m != UnknownMedium
    && if env.config.multipleMediums then e in s.mediums.mediumOf && s.mediums.mediumOf[e] == m
      else s.mediums.medium == m
  }

  /** There is a handler for `m`. */
  predicate Handled(s: State, m: Medium) {
    m != UnknownMedium && m in s.handlers
  }

  /** What was logged from `s` to `t`. */
  function Since(s: State, t: State): Log
    requires |s.io.log| <= |t.io.log|
  {
    t.io.log[|s.io.log|..]
  }

  /** `t` comes after `s`. */
  predicate Later(s: State, t: State) {
    |s.io.log| <= |t.io.log| && t.io.log[..|s.io.log|] == s.io.log
  }

  lemma Added(s: State, t: State, log: Log)
    requires t.io.log == s.io.log + log
    ensures Later(s, t) && Since(s, t) == log
  {
  }

  // -- one handler ----------------------------------------------------------

  /** `e` gave up `service`: nobody else did, and if nobody holds it any more its listener is down. */
  ghost predicate LetGo(h: Handler, h': Handler, service: ServiceId, e: EndpointId) {
    && (forall v, f :: Holds(h', v, f) <==> Holds(h, v, f) && !(v == service && f == e))
    && h'.listeners == if LastHolder(h, service, e) then h.listeners - {service} else h.listeners
  }

  ghost predicate LastHolder(h: Handler, service: ServiceId, e: EndpointId) {
    Holds(h, service, e) && forall f :: Holds(h, service, f) ==> f == e
  }

  /** An initiator's revert lets go of that service for that endpoint, and tells the medium if it was the last. */
  lemma RevertLetsGo(m: Medium, h: Handler, service: ServiceId, e: EndpointId)
    requires IsInitiator(service)
    ensures var r := RevertEndpoint(m, h, service, e);
      LetGo(h, r.handler, service, e) && (LastHolder(h, service, e) <==> Reverted(m, service) in r.log)
  {
    if service in h.active {
      OnlyHolder(h, service, e);
    }
    if LastHolder(h, service, e) {
      assert RevertEndpoint(m, h, service, e).log[0] == Reverted(m, service);
    }
  }

  lemma OnlyHolder(h: Handler, service: ServiceId, e: EndpointId)
    requires service in h.active
    ensures LastHolder(h, service, e) <==> h.active[service] != {} && h.active[service] - {e} == {}
  {
    if LastHolder(h, service, e) {
      forall f | f in h.active[service]
        ensures f == e
      {
        assert Holds(h, service, f);
      }
    }
    if h.active[service] != {} && h.active[service] - {e} == {} {
      var f :| f in h.active[service];
      assert f !in h.active[service] - {e};
      assert forall g :: Holds(h, service, g) ==> g !in h.active[service] - {e};
    }
  }

  /**
   * Asked to initialize, a handler has `e` hold the wrapped service exactly if the medium came up, and it comes up if
   * its listener stands already or all there is to start starts.
   */
  lemma InitHolds(outcome: Outcomes, now: nat, m: Medium, h: Handler, service: ServiceId, e: EndpointId)
    ensures var r := Init(outcome, now, m, h, service, e);
      && (forall v, f :: Holds(r.handler, v, f) <==> Holds(h, v, f) || (r.ok && v == Wrap(service) && f == e))
      && r.handler.listeners == (if r.ok then h.listeners + {Wrap(service)} else h.listeners)
      && (r.ok <==> || ((m == WifiLan || m == WifiHotspot) && Wrap(service) in h.listeners)
                    || (outcome(now + 1) && (m == WifiHotspot ==> outcome(now + 2))))
      && r.log[0] == Initialize(m, Wrap(service), e)
  {
  }

  // -- giving up the medium -------------------------------------------------

  /** Only the handler of `m`, if any, may differ. */
  predicate OthersKept(s: State, t: State, m: Medium) {
    t.handlers.Keys == s.handlers.Keys && forall n :: n in s.handlers && n != m ==> t.handlers[n] == s.handlers[n]
  }

  /**
   * From `s` to `t` the medium of `e` was given up. With a medium per endpoint its record goes; an initiator's service
   * is let go of, and for a responder's the handlers of WIFI_HOTSPOT and WIFI_DIRECT are told. With one medium for all
   * nothing is held on it any more.
   */
  ghost predicate GivenUp(env: Env, s: State, t: State, service: ServiceId, e: EndpointId) {
    && Later(s, t)
    && t == s.(handlers := t.handlers, mediums := t.mediums, io := s.io.(log := t.io.log))
    && t.mediums == (if env.config.multipleMediums then s.mediums.(mediumOf := s.mediums.mediumOf - {e})
                     else s.mediums.(medium := UnknownMedium))
    && (forall m :: Recorded(env, s, e, m) && Handled(s, m) ==> GivenUpOn(env, s, t, m, service, e))
    && ((forall m :: Recorded(env, s, e, m) ==> !Handled(s, m)) ==> t.handlers == s.handlers && t.io.log == s.io.log)
  }

  ghost predicate GivenUpOn(env: Env, s: State, t: State, m: Medium, service: ServiceId, e: EndpointId)
    requires m in s.handlers && |s.io.log| <= |t.io.log|
  {
    && OthersKept(s, t, m) && m in t.handlers
    && if !env.config.multipleMediums then
         t.handlers[m].active == map[]
       else if IsInitiator(service) then
         && LetGo(s.handlers[m], t.handlers[m], service, e)
         && (LastHolder(s.handlers[m], service, e) <==> Reverted(m, service) in Since(s, t))
       else if m == WifiHotspot || m == WifiDirect then
         && t.handlers[m] == s.handlers[m].(listeners := s.handlers[m].listeners - {service})
         && Since(s, t) != [] && Since(s, t)[0] == Reverted(m, service)
       else t.handlers == s.handlers && t.io.log == s.io.log
  }

  lemma RevertGivesUp(env: Env, s: State, service: ServiceId, e: EndpointId, t: State)
    requires t == Revert(env, s, service, e)
    ensures GivenUp(env, s, t, service, e)
  {
    var m := MediumFor(env, s, e);
    OnlyRecord(env, s, e, m);
    Frames.RevertFrame(env, s, service, e);
    if HasHandler(s, m) {
      assert Recorded(env, s, e, m) && Handled(s, m);
      RevertGivesUpOn(env, s, m, service, e, t);
    }
  }

  lemma OnlyRecord(env: Env, s: State, e: EndpointId, m: Medium)
    requires m == MediumFor(env, s, e)
    ensures forall n :: Recorded(env, s, e, n) <==> n == m && m != UnknownMedium
  {
  }

  lemma RevertGivesUpOn(env: Env, s: State, m: Medium, service: ServiceId, e: EndpointId, t: State)
    requires t == Revert(env, s, service, e) && m == MediumFor(env, s, e) && HasHandler(s, m)
    ensures Later(s, t) && GivenUpOn(env, s, t, m, service, e)
  {
    var h := s.handlers[m];
    if !env.config.multipleMediums {
      Added(s, t, RevertAll(m, h, env.order(h.active.Keys)).log);
    } else if IsInitiator(service) {
      RevertLetsGo(m, h, service, e);
      Added(s, t, RevertEndpoint(m, h, service, e).log);
    } else if m == WifiHotspot || m == WifiDirect {
      Added(s, t, TearDown(m, h, service).log);
    }
  }

  // -- endpoints that leave -------------------------------------------------

  /**
   * A disconnect forgets the endpoint: it is in none of the collections any more, its parked channel is closed as shut
   * down, the handler of its medium is told, and its medium is given up, under the service id the caller names;
   * only with one medium for all and several channels in use that stays.
   */
  lemma DisconnectForgets(env: Env, s: State, service: ServiceId, e: EndpointId, call: Call, t: State)
      returns (gone: State)
    requires call.op == EndpointDisconnect(service, e) && Leads(env, s, call, t)
    ensures t.up == Upgrades(s.up.inProgress - {e}, s.up.parked - {e}, s.up.latched - {e})
    ensures t.retry == Retries(s.retry.alarms - {e}, s.retry.delays - {e}) && t.registry == s.registry
      && t.clients == s.clients
    ensures gone == s.(up := t.up, retry := t.retry, io := s.io.(log := gone.io.log)) && Later(s, gone)
    ensures e in s.up.parked ==> Closed(e, s.up.parked[e], Shutdown) in Since(s, gone)
    ensures forall m :: Recorded(env, s, e, m) && Handled(s, m) ==> HandlerDisconnect(m, e) in Since(s, gone)
    ensures Forgotten(e) in Since(s, gone)
    ensures if env.config.multipleMediums || |s.registry| <= 1 then GivenUp(env, gone, t, service, e) else t == gone
  {
    gone := Forget(env, s, e);
    ForgetTells(env, s, e, gone);
    RevertGivesUp(env, gone, service, e, Revert(env, gone, service, e));
    RevertKeeps(env, gone, service, e);
  }

  lemma RevertKeeps(env: Env, s: State, service: ServiceId, e: EndpointId)
    ensures var t := Revert(env, s, service, e);
      t.up == s.up && t.retry == s.retry && t.registry == s.registry && t.clients == s.clients
  {
    Frames.RevertFrame(env, s, service, e);
  }

  lemma ForgetTells(env: Env, s: State, e: EndpointId, gone: State)
    requires gone == Forget(env, s, e)
    ensures gone == s.(up := gone.up, retry := gone.retry, io := s.io.(log := gone.io.log)) && Later(s, gone)
    ensures e in s.up.parked ==> Closed(e, s.up.parked[e], Shutdown) in Since(s, gone)
    ensures forall m :: Recorded(env, s, e, m) && Handled(s, m) ==> HandlerDisconnect(m, e) in Since(s, gone)
    ensures Forgotten(e) in Since(s, gone)
  {
    var m := MediumFor(env, s, e);
    OnlyRecord(env, s, e, m);
    var told := if HasHandler(s, m) then [HandlerDisconnect(m, e)] else [];
    var closed := if e in s.up.parked then [Closed(e, s.up.parked[e], Shutdown)] else [];
    assert gone.io.log == s.io.log + (told + closed + [Forgotten(e)]);
    Added(s, gone, told + closed + [Forgotten(e)]);
    ForgetSays(told, closed, e);
  }

  lemma ForgetSays(told: Log, closed: Log, e: EndpointId)
    ensures forall event :: event in told || event in closed || event == Forgotten(e) ==>
      event in told + closed + [Forgotten(e)]
  {
  }

  /** With a medium per endpoint: who has left has no medium on record, and what it held as an initiator is let go of. */
  lemma DisconnectGivesUp(env: Env, s: State, service: ServiceId, e: EndpointId, m: Medium, call: Call, t: State)
    requires env.config.multipleMediums && call.op == EndpointDisconnect(service, e) && Leads(env, s, call, t)
    requires Recorded(env, s, e, m)
    ensures e !in t.mediums.mediumOf
    ensures Handled(s, m) && IsInitiator(service) ==>
      && m in t.handlers && !Holds(t.handlers[m], service, e)
      && (LastHolder(s.handlers[m], service, e) ==> service !in t.handlers[m].listeners)
    ensures Handled(s, m) && !IsInitiator(service) && (m == WifiHotspot || m == WifiDirect) ==>
      Later(s, t) && Reverted(m, service) in Since(s, t)
  {
    var gone := DisconnectForgets(env, s, service, e, call, t);
    assert Recorded(env, gone, e, m);
    if Handled(s, m) {
      assert Handled(gone, m);
      StillLater(s, gone, t);
    }
  }

  lemma StillLater(s: State, t: State, u: State)
    requires Later(s, t) && Later(t, u)
    ensures Later(s, u) && forall event :: event in Since(t, u) ==> event in Since(s, u)
  {
    assert u.io.log[..|s.io.log|] == u.io.log[..|t.io.log|][..|s.io.log|];
    forall event | event in Since(t, u)
      ensures event in Since(s, u)
    {
      var i :| 0 <= i < |Since(t, u)| && Since(t, u)[i] == event;
      assert Since(s, u)[|t.io.log| - |s.io.log| + i] == event;
    }
  }

  /** A shutdown has the handlers stop: no channel is closed or resumed, and registry, client and records stay. */
  lemma ShutDownStops(env: Env, s: State, call: Call, t: State)
    requires call.op.Stop? && Leads(env, s, call, t)
    ensures t == s.(handlers := t.handlers, up := Upgrades({}, map[], {}), retry := Retries(map[], map[]),
      mediums := t.mediums,
                    io := s.io.(log := t.io.log))
    ensures t.mediums == s.mediums && Later(s, t) && Since(s, t) != []
    ensures var last := |Since(s, t)| - 1;
      Since(s, t)[last] == ShutDown && forall i :: 0 <= i < last ==> Frames.ByHandler(Since(s, t)[i])
  {
    var s0, ms := s.(retry := Retries(map[], map[])), env.handlerOrder(s.handlers.Keys);
    var s1 := RevertHandlers(env, s0, ms);
    Frames.RevertHandlersFrame(env, s0, ms);
    Frames.RevertHandlersMediums(env, s0, ms);
    assert t.io.log == s1.io.log + [ShutDown];
  }

  // -- retries --------------------------------------------------------------

  /**
   * A retry that comes due does nothing if it is not pending, and nothing but that it is not pending any more if the
   * endpoint is not connected.
   */
  lemma RetryNeedsConnection(env: Env, s: State, e: EndpointId, call: Call, t: State)
    requires call.op == AlarmFires(e) && Leads(env, s, call, t) && (e !in s.retry.alarms || !Connected(s, e))
    ensures |call.rounds| == 1
    ensures t == if e in s.retry.alarms then s.(retry := s.retry.(alarms := s.retry.alarms - {e})) else s
  {
  }

  // -- initiations ----------------------------------------------------------

  /** Nothing stands in the way of attempting `m` for `e`. */
  predicate MayAttempt(s: State, e: EndpointId, m: Medium) {
    && !(LanInUse(s) && m == WifiHotspot) && Handled(s, m)
    && e !in s.up.inProgress && e in s.registry && s.registry[e].medium != m
  }

  /**
   * An initiation asks the handler of its medium, under the service of the channel in use, exactly if nothing stands
   * in the way. Otherwise it is over, and all it may have changed is the medium on record, unless a WIFI_LAN
   * connection is protected, and the pending retry, which it supersedes if it got that far.
   */
  lemma InitiationAttempts(env: Env, s: State, e: EndpointId, m: Medium, call: Call, t: State)
    requires call.op == Initiate(e, m) && Leads(env, s, call, t)
    ensures MayAttempt(s, e, m) ==>
      var first := call.rounds[0].state;
      Later(s, first) && Since(s, first) != [] && Since(s, first)[0] == Initialize(m, Wrap(s.registry[e].serviceId), e)
    ensures !MayAttempt(s, e, m) ==> |call.rounds| == 1 && t == s.(mediums := t.mediums, retry := t.retry)
    ensures LanInUse(s) && m == WifiHotspot ==> t == s
    ensures !MayAttempt(s, e, m) && !(LanInUse(s) && m == WifiHotspot) ==>
      && t.mediums == (if env.config.multipleMediums then s.mediums.(mediumOf := s.mediums.mediumOf[e := m])
                       else s.mediums.(medium := m))
      && t.retry == if Handled(s, m) && e !in s.up.inProgress then s.retry.(alarms := s.retry.alarms - {e}) else s.retry
  {
    if MayAttempt(s, e, m) {
      AttemptAsks(env, s, e, m, Readied(env, s, e, m), call.rounds[0].state);
    }
  }

  /**
   * An attempt puts its medium on record, supersedes the pending retry and has the handler bring the medium up, in `u`.
   * If the offer of that medium then goes out on the channel in use, the upgrade is in progress and the endpoint holds
   * the medium; otherwise it goes on as for a reported failure of the medium, as named on the wire.
   */
  lemma AttemptOffers(env: Env, s: State, e: EndpointId, m: Medium, call: Call, t: State) returns (u: State)
    requires call.op == Initiate(e, m) && Leads(env, s, call, t) && MayAttempt(s, e, m)
    ensures m in u.handlers && Later(s, u) && OthersKept(s, u, m) && Recorded(env, u, e, m)
    ensures u == s.(handlers := u.handlers, mediums := u.mediums, retry := s.retry.(alarms := s.retry.alarms - {e}),
      io := s.io.(log := u.io.log))
    ensures AttemptEnds(env, s, u, e, m, call.rounds[0])
  {
    var s1 := Readied(env, s, e, m);
    u := MakeOffer(env, s1, e, m).0;
    AttemptRecords(env, s, e, m, s1, u);
    OfferIsLast(env, s1, e, m, u);
    OfferHolds(env, s1, e, m, u);
    OfferDecides(env, s1, s, e, m, u, call.rounds[0]);
  }

  /** The last thing logged from `s` to `t`. */
  predicate LastLogged(s: State, t: State, event: Event) {
    Later(s, t) && Since(s, t) != [] && Since(s, t)[|Since(s, t)| - 1] == event
  }

  ghost predicate AttemptEnds(env: Env, s: State, u: State, e: EndpointId, m: Medium, first: Outcome)
    requires e in s.registry && m in u.handlers
  {
    if LastLogged(s, u, Wrote(e, s.registry[e], Offer(m), true)) then
      && first == Done(u.(up := u.up.(inProgress := u.up.inProgress + {e})))
      && Holds(u.handlers[m], Wrap(s.registry[e].serviceId), e)
    else first == FailureOnce(env, u, e, OnWire(m))
  }

  lemma OfferDecides(env: Env, s1: State, s: State, e: EndpointId, m: Medium, u: State, first: Outcome)
    requires HasHandler(s1, m) && e in s1.registry && first == Attempt(env, s1, e, m) && u == MakeOffer(env, s1, e, m).0
    requires s1.io == s.io && s1.registry == s.registry && m in u.handlers
    requires MakeOffer(env, s1, e, m).1 <==> LastLogged(s1, u, Wrote(e, s1.registry[e], Offer(m), true))
    requires MakeOffer(env, s1, e, m).1 ==> Holds(u.handlers[m], Wrap(s1.registry[e].serviceId), e)
    ensures AttemptEnds(env, s, u, e, m, first)
  {
  }

  lemma AttemptRecords(env: Env, s: State, e: EndpointId, m: Medium, s1: State, u: State)
    requires MayAttempt(s, e, m) && s1 == Readied(env, s, e, m) && u == MakeOffer(env, s1, e, m).0
    ensures s1.io == s.io && s1.registry == s.registry && s1.handlers == s.handlers && Recorded(env, u, e, m)
    ensures u == s.(handlers := u.handlers, mediums := u.mediums, retry := s.retry.(alarms := s.retry.alarms - {e}),
      io := s.io.(log := u.io.log))
  {
    Frames.OfferFrame(env, s1, e, m);
  }

  lemma OfferHolds(env: Env, s: State, e: EndpointId, m: Medium, t: State)
    requires HasHandler(s, m) && e in s.registry && t == MakeOffer(env, s, e, m).0
    ensures m in t.handlers && (MakeOffer(env, s, e, m).1 ==> Holds(t.handlers[m], Wrap(s.registry[e].serviceId), e))
  {
    InitHolds(env.outcome, |s.io.log|, m, s.handlers[m], s.registry[e].serviceId, e);
  }

  lemma OfferIsLast(env: Env, s: State, e: EndpointId, m: Medium, t: State)
    requires HasHandler(s, m) && e in s.registry && t == MakeOffer(env, s, e, m).0
    ensures Later(s, t) && OthersKept(s, t, m)
    ensures MakeOffer(env, s, e, m).1 <==> LastLogged(s, t, Wrote(e, s.registry[e], Offer(m), true))
  {
    var up := Init(env.outcome, |s.io.log|, m, s.handlers[m], s.registry[e].serviceId, e);
    InitSilent(env.outcome, |s.io.log|, m, s.handlers[m], s.registry[e].serviceId, e);
    OfferSays(env, s, e, m, up, t);
  }

  lemma OfferSays(env: Env, s: State, e: EndpointId, m: Medium, up: Result, t: State)
    requires HasHandler(s, m) && e in s.registry && t == MakeOffer(env, s, e, m).0 && up.log != []
      && !up.log[|up.log| - 1].Wrote?
    requires up == Init(env.outcome, |s.io.log|, m, s.handlers[m], s.registry[e].serviceId, e)
    ensures Later(s, t) && OthersKept(s, t, m)
    ensures MakeOffer(env, s, e, m).1 <==> LastLogged(s, t, Wrote(e, s.registry[e], Offer(m), true))
  {
    var wrote := if up.ok then [Wrote(e, s.registry[e], Offer(m), Next(env, s.io.log + up.log))] else [];
    assert t.io.log == s.io.log + (up.log + wrote);
    Added(s, t, up.log + wrote);
  }

  lemma InitSilent(outcome: Outcomes, now: nat, m: Medium, h: Handler, service: ServiceId, e: EndpointId)
    ensures var r := Init(outcome, now, m, h, service, e); r.log != [] && !r.log[|r.log| - 1].Wrote?
  {
  }

  lemma AttemptAsks(env: Env, s: State, e: EndpointId, m: Medium, s1: State, t: State)
    requires MayAttempt(s, e, m) && s1 == Readied(env, s, e, m) && t == Attempt(env, s1, e, m).state
    ensures Later(s, t) && Since(s, t) != [] && Since(s, t)[0] == Initialize(m, Wrap(s.registry[e].serviceId), e)
  {
    var (s2, ok) := MakeOffer(env, s1, e, m);
    OfferBegins(env, s1, e, m, s2);
    EndsLater(env, s2, e, m, t, ok);
    StillFirst(s, s2, t, Initialize(m, Wrap(s.registry[e].serviceId), e));
  }

  lemma OfferBegins(env: Env, s: State, e: EndpointId, m: Medium, t: State)
    requires HasHandler(s, m) && e in s.registry && t == MakeOffer(env, s, e, m).0
    ensures Later(s, t) && |t.io.log| > |s.io.log| && t.io.log[|s.io.log|]
      == Initialize(m, Wrap(s.registry[e].serviceId), e)
  {
    Frames.OfferFrame(env, s, e, m);
    var asked := Init(env.outcome, |s.io.log|, m, s.handlers[m], s.registry[e].serviceId, e);
    assert t.io.log[|s.io.log|] == asked.log[0];
  }

  lemma EndsLater(env: Env, s: State, e: EndpointId, m: Medium, t: State, ok: bool)
    requires t == if ok then Started(s, e) else FailureOnce(env, s, e, OnWire(m)).state
    ensures Later(s, t)
  {
    Frames.FailureFrame(env, s, e, OnWire(m));
  }

  lemma StillFirst(s: State, t: State, u: State, first: Event)
    requires Later(s, t) && |t.io.log| > |s.io.log| && t.io.log[|s.io.log|] == first && Later(t, u)
    ensures Later(s, u) && Since(s, u) != [] && Since(s, u)[0] == first
  {
    assert u.io.log[..|s.io.log|] == u.io.log[..|t.io.log|][..|s.io.log|];
    assert u.io.log[|s.io.log|] == u.io.log[..|t.io.log|][|s.io.log|];
  }

  // -- reported failures ----------------------------------------------------

  /** While several channels share the one medium, a reported failure only ends the upgrade. */
  lemma FailureOfSharedMedium(env: Env, s: State, e: EndpointId, info: PathInfo, call: Call, t: State)
    requires call.op == IncomingFrame(e, UpgradeFailure(Some(info))) && Leads(env, s, call, t)
    requires !env.config.multipleMediums && |s.registry| > 1 && Connected(s, e)
    ensures |call.rounds| == 1 && t == s.(up := s.up.(inProgress := s.up.inProgress - {e}))
  {
  }

  /**
   * Otherwise it ends the upgrade and gives the medium up, as an initiator's: under the wrapped service id of the
   * channel in use, or of the unknown service without one. What follows leaves the handlers alone in that round.
   */
  lemma FailureGivesUp(env: Env, s: State, e: EndpointId, info: PathInfo, call: Call, t: State) returns (u: State)
    requires call.op == IncomingFrame(e, UpgradeFailure(Some(info))) && Leads(env, s, call, t)
    requires (env.config.multipleMediums || |s.registry| <= 1) && Connected(s, e)
    ensures var ended := s.(up := s.up.(inProgress := s.up.inProgress - {e}));
      var service := Wrap(if e in s.registry then s.registry[e].serviceId else UNKNOWN_SERVICE_ID);
      if exists m :: Recorded(env, s, e, m) then GivenUp(env, ended, u, service, e) else u == ended
    ensures call.rounds[0].state.handlers == u.handlers && call.rounds[0].state.up == u.up
    ensures call.rounds[0].state.registry == s.registry
  {
    u := Undone(env, s, e);
    UndoneGivesUp(env, s, e, u);
    NextBestKeeps(env, u, e, After(ClientOf(s, e).mediums, info.medium), call.rounds[0]);
    UndoneKeepsRegistry(env, s, e);
  }

  lemma NextBestKeeps(env: Env, s: State, e: EndpointId, untried: seq<Medium>, o: Outcome)
    requires o == NextBestOnce(env, s, e, untried)
    ensures o.state.handlers == s.handlers && o.state.up == s.up && o.state.registry == s.registry
  {
  }

  lemma UndoneKeepsRegistry(env: Env, s: State, e: EndpointId)
    ensures Undone(env, s, e).registry == s.registry
  {
    Frames.UndoneFrame(env, s, e);
  }

  lemma UndoneGivesUp(env: Env, s: State, e: EndpointId, u: State)
    requires u == Undone(env, s, e)
    ensures var ended := s.(up := s.up.(inProgress := s.up.inProgress - {e}));
      var service := Wrap(if e in s.registry then s.registry[e].serviceId else UNKNOWN_SERVICE_ID);
      if exists m :: Recorded(env, s, e, m) then GivenUp(env, ended, u, service, e) else u == ended
  {
    var m := MediumFor(env, s, e);
    OnlyRecord(env, s, e, m);
    assert (exists n :: Recorded(env, s, e, n)) <==> Recorded(env, s, e, m);
    var ended := Stopped(s, e);
    var service := Wrap(if e in s.registry then s.registry[e].serviceId else UNKNOWN_SERVICE_ID);
    RevertGivesUp(env, ended, service, e, Revert(env, ended, service, e));
  }

  /** The medium a failover goes on with is on record, whatever then becomes of it. */
  lemma NextIsRecorded(env: Env, s: State, call: Call, t: State, i: nat)
    requires Leads(env, s, call, t) && i < |call.rounds| && call.rounds[i].Again?
    ensures Recorded(env, call.rounds[i].state, Subject(call.op), call.rounds[i].medium)
  {
    if i == 0 {
      BeginRecords(env, s, call.op, call.rounds[0]);
    } else {
      assert Link(env, Subject(call.op), call.rounds[i - 1], call.rounds[i - 1 + 1]);
      InitiationRecords(env, call.rounds[i - 1].state, Subject(call.op), call.rounds[i - 1].medium, call.rounds[i]);
    }
  }

  lemma BeginRecords(env: Env, s: State, op: Op, o: Outcome)
    requires o == Begin(env, s, op)
    ensures o.Again? ==> Recorded(env, o.state, Subject(op), o.medium)
  {
    match op
    case Initiate(e, m) => InitiationRecords(env, s, e, m, o);
    case _ =>
  }

  lemma InitiationRecords(env: Env, s: State, e: EndpointId, m: Medium, o: Outcome)
    requires o == InitiateOnce(env, s, e, m)
    ensures o.Again? ==> Recorded(env, o.state, e, o.medium)
  {
  }

  // -- offers ---------------------------------------------------------------

  /**
   * The offer was refused in state `s`: without a channel nothing happens. Otherwise the peer is told, in so many
   * words; if that fails the channel is closed, and nothing else; if it works the medium on record is given up under the
   * service of the channel, and no upgrade is in progress.
   */
  ghost predicate Refused(env: Env, s: State, t: State, e: EndpointId, info: PathInfo) {
    if e !in s.registry then t == s
    else
      var c := s.registry[e];
      var wrote := Wrote(e, c, UpgradeFailed(info), env.outcome(|s.io.log|));
      var told := s.(io := s.io.(log := s.io.log + [wrote]));
      if !wrote.ok then t == told.(io := told.io.(log := told.io.log + [Closed(e, c, IoError)]))
      else
        var u := t.(up := s.up);
        && t.up == s.up.(inProgress := s.up.inProgress - {e})
        && if exists m :: Recorded(env, s, e, m) then GivenUp(env, told, u, c.serviceId, e) else u == told
  }

  lemma RefusalIsRefused(env: Env, s: State, e: EndpointId, info: PathInfo, t: State)
    requires t == FailedProtocol(env, s, e, info)
    ensures Refused(env, s, t, e, info)
  {
    if e in s.registry && Next(env, s.io.log) {
      var c, m := s.registry[e], MediumFor(env, s, e);
      var told := Emit(s, Wrote(e, c, UpgradeFailed(info), true));
      OnlyRecord(env, s, e, m);
      assert (exists n :: Recorded(env, s, e, n)) <==> Recorded(env, s, e, m);
      Frames.RevertFrame(env, told, c.serviceId, e);
      RevertGivesUp(env, told, c.serviceId, e, Revert(env, told, c.serviceId, e));
    }
  }

  /** Both channels of `e` were closed as unfinished, the one in use after it was resumed. */
  predicate Abandoned(s: State, t: State, e: EndpointId) {
    var closed := if e in s.up.parked then [Closed(e, s.up.parked[e], Unfinished)] else [];
    var dropped := if e in s.registry then [Resumed(s.registry[e]), Closed(e, s.registry[e], Unfinished)] else [];
    t == s.(up := s.up.(parked := s.up.parked - {e}),
            io := s.io.(paused := s.io.paused - (if e in s.registry then {s.registry[e]} else {}),
              log := s.io.log + closed + dropped))
  }

  /** The medium offered can be dialled, and dial, introduction and the promised acknowledgement all work. */
  predicate Reachable(env: Env, s: State, e: EndpointId, info: PathInfo) {
    var now := |s.io.log|;
    Handled(s, info.medium) && e in s.registry && env.outcome(now) && env.outcome(now + 1)
    && (info.introductionAck ==> env.outcome(now + 2))
  }

  /** The new channel a dial makes: over the medium offered, for the service of the one in use. */
  function Made(s: State, e: EndpointId, info: PathInfo): Channel
    requires e in s.registry
  {
    Channel(s.io.nextChannel, info.medium, s.registry[e].serviceId)
  }

  /** The medium offered is on record, a new channel over it dialled, introduced and, if promised, acknowledged. */
  predicate Joining(env: Env, s: State, s1: State, e: EndpointId, info: PathInfo)
    requires e in s.registry
  {
    var c := Made(s, e, info);
    var acked := if info.introductionAck then [AckRead(c, true)] else [];
    && Later(s, s1) && Recorded(env, s1, e, info.medium)
      && (Recorded(env, s, e, info.medium) ==> s1.mediums == s.mediums)
    && s1 == s.(mediums := s1.mediums, up := s.up.(inProgress := s.up.inProgress + {e}),
                io := s.io.(nextChannel := c.id + 1, log := s1.io.log))
    && Since(s, s1) == [Create(info.medium, c.serviceId, e, true),
      Wrote(e, c, Introduction, true)] + acked + [Joined(e)]
  }

  /** The responder joins, and moves to the new channel. */
  ghost predicate TakenUp(env: Env, s: State, t: State, e: EndpointId, info: PathInfo)
    requires e in s.registry
  {
    exists s1 :: Joining(env, s, s1, e, info) && MovedTo(env, s1, t, e, Made(s, e, info))
  }

  /** On the way to a refusal the medium offered is put on record unless there is one, and dialled if it can be. */
  ghost predicate Adopting(env: Env, s: State, s1: State, e: EndpointId, info: PathInfo) {
    && Later(s, s1)
    && s1 == s.(mediums := s1.mediums, io := s.io.(nextChannel := s1.io.nextChannel, log := s1.io.log))
    && s1.mediums == (if exists m :: Recorded(env, s, e, m) then s.mediums
                      else if env.config.multipleMediums
                        then s.mediums.(mediumOf := s.mediums.mediumOf[e := info.medium])
                      else s.mediums.(medium := info.medium))
    && (if Handled(s, info.medium) && e in s.registry
        then Since(s, s1) != [] && Since(s, s1)[0] == Create(info.medium, s.registry[e].serviceId, e,
          env.outcome(|s.io.log|))
        else s1.io == s.io)
    && (forall i :: 0 <= i < |Since(s, s1)| ==> !(Since(s, s1)[i].Wrote? && Since(s, s1)[i].frame.UpgradeFailed?))
  }

  ghost predicate RefusedAfterTrying(env: Env, s: State, t: State, e: EndpointId, info: PathInfo) {
    exists s1 :: Adopting(env, s, s1, e, info) && Refused(env, s1, t, e, info)
  }

  ghost predicate FirstOfferAnswered(env: Env, s: State, t: State, e: EndpointId, info: PathInfo) {
    if exists n :: Recorded(env, s, e, n) && n != info.medium then Refused(env, s, t, e, info)
    else if !Reachable(env, s, e, info) then RefusedAfterTrying(env, s, t, e, info)
    else TakenUp(env, s, t, e, info)
  }

  /** What becomes of an offer. */
  ghost predicate OfferAnswered(env: Env, s: State, t: State, e: EndpointId, info: PathInfo) {
    if !Connected(s, e) || (LanInUse(s) && info.medium == WifiHotspot) then Refused(env, s, t, e, info)
    else if Called(s, e) then t == s
    else if e in s.up.inProgress then Abandoned(s, t, e)
    else FirstOfferAnswered(env, s, t, e, info)
  }

  /**
   * An offer is refused if the endpoint is not connected, if a WIFI_LAN connection is to be protected from a hotspot,
   * if another medium is on record, or if the medium cannot be reached; it is ignored by the side that was called; the
   * second one in a row closes everything; and otherwise it is taken up.
   */
  lemma OffersAreAnswered(env: Env, s: State, e: EndpointId, info: PathInfo, call: Call, t: State)
    requires call.op == IncomingFrame(e, PathAvailable(Some(info))) && Leads(env, s, call, t)
    ensures |call.rounds| == 1 && OfferAnswered(env, s, t, e, info)
  {
    assert Barred(s, info.medium) <==> LanInUse(s) && info.medium == WifiHotspot;
    if !Connected(s, e) || Barred(s, info.medium) {
      RefusalIsRefused(env, s, e, info, t);
    } else if !Called(s, e) {
      if e in s.up.inProgress {
        DuplicateAbandons(s, e, t);
      } else {
        FirstOffer(env, s, e, info, t);
      }
    }
  }

  lemma FirstOffer(env: Env, s: State, e: EndpointId, info: PathInfo, t: State)
    requires t == Accept(env, Adopted(env, s, e, info.medium), e, info)
    ensures FirstOfferAnswered(env, s, t, e, info)
  {
    ConflictMeans(env, s, e, info.medium);
    AdoptedAnswers(env, s, e, info, MediumFor(env, s, e), Adopted(env, s, e, info.medium), t);
    if MediumFor(env, s, e) != UnknownMedium && MediumFor(env, s, e) != info.medium {
      RefusalIsRefused(env, s, e, info, t);
    }
  }

  lemma ConflictMeans(env: Env, s: State, e: EndpointId, m: Medium)
    ensures (exists n :: Recorded(env, s, e, n) && n != m) <==>
      MediumFor(env, s, e) != UnknownMedium && MediumFor(env, s, e) != m
  {
    OnlyRecord(env, s, e, MediumFor(env, s, e));
    assert MediumFor(env, s, e) != UnknownMedium ==> Recorded(env, s, e, MediumFor(env, s, e));
  }

  lemma DuplicateAbandons(s: State, e: EndpointId, t: State)
    requires t == DuplicateOffer(s, e)
    ensures Abandoned(s, t, e)
  {
    var closed := if e in s.up.parked then [Closed(e, s.up.parked[e], Unfinished)] else [];
    if e in s.registry {
      var c := s.registry[e];
      assert s.io.log + closed + [Resumed(c)] + [Closed(e, c, Unfinished)]
        == s.io.log + closed + [Resumed(c), Closed(e, c, Unfinished)];
    }
    assert s.io.log + closed + [] == s.io.log + closed && s.io.log + [] == s.io.log;
    assert t.io.paused == s.io.paused - (if e in s.registry then {s.registry[e]} else {});
  }

  lemma AdoptedAnswers(env: Env, s: State, e: EndpointId, info: PathInfo, m: Medium, s0: State, t: State)
    requires m == MediumFor(env, s, e) && s0 == Adopted(env, s, e, info.medium) && t == Accept(env, s0, e, info)
    ensures if m != UnknownMedium && m != info.medium then t == FailedProtocol(env, s, e, info)
            else if !Reachable(env, s, e, info) then RefusedAfterTrying(env, s, t, e, info)
            else TakenUp(env, s, t, e, info)
  {
    if m == UnknownMedium || m == info.medium {
      var (s1, made) := Dial(env, s0, e, info);
      assert MediumFor(env, s0, e) == info.medium;
      if made.None? {
        RefusalIsRefused(env, s1, e, info, t);
        DialAdopts(env, s, e, info, s0, s1);
      } else {
        DialReaches(env, s, e, info, s0, s1, made.value);
        JoinTakesUp(env, s, s0, s1, e, info, made.value, t);
      }
    }
  }

  lemma DialAdopts(env: Env, s: State, e: EndpointId, info: PathInfo, s0: State, s1: State)
    requires s0 == Adopted(env, s, e, info.medium) && s1 == Dial(env, s0, e, info).0 && Dial(env, s0, e, info).1.None?
    ensures Adopting(env, s, s1, e, info) && !Reachable(env, s, e, info)
  {
    AdoptedMediums(env, s, e, info.medium);
    DialTries(env, s0, e, info, s1);
  }

  lemma AdoptedMediums(env: Env, s: State, e: EndpointId, m: Medium)
    ensures var s0 := Adopted(env, s, e, m);
      && s0 == s.(mediums := s0.mediums)
      && s0.mediums == (if exists n :: Recorded(env, s, e, n) then s.mediums
                        else if env.config.multipleMediums then s.mediums.(mediumOf := s.mediums.mediumOf[e := m])
                        else s.mediums.(medium := m))
  {
    OnlyRecord(env, s, e, MediumFor(env, s, e));
    assert (exists n :: Recorded(env, s, e, n)) <==> Recorded(env, s, e, MediumFor(env, s, e));
  }

  lemma DialTries(env: Env, s: State, e: EndpointId, info: PathInfo, t: State)
    requires t == Dial(env, s, e, info).0 && Dial(env, s, e, info).1.None?
    ensures Later(s, t) && t == s.(io := s.io.(nextChannel := t.io.nextChannel, log := t.io.log))
      && !Reachable(env, s, e, info)
    ensures if Handled(s, info.medium) && e in s.registry
            then Since(s, t) != [] && Since(s, t)[0]
              == Create(info.medium, s.registry[e].serviceId, e, env.outcome(|s.io.log|))
            else t.io == s.io
    ensures forall i :: 0 <= i < |Since(s, t)| ==> !(Since(s, t)[i].Wrote? && Since(s, t)[i].frame.UpgradeFailed?)
  {
    Frames.DialFrame(env, s, e, info);
  }

  lemma DialReaches(env: Env, s: State, e: EndpointId, info: PathInfo, s0: State, s1: State, c: Channel)
    requires s0 == Adopted(env, s, e, info.medium) && Dial(env, s0, e, info) == (s1, Some(c))
    ensures Reachable(env, s, e, info) && c == Made(s, e, info) && s0 == s.(mediums := s0.mediums)
    ensures s1 == s0.(io := s0.io.(nextChannel := c.id + 1, log := s1.io.log))
    ensures s1.io.log == s.io.log + ([Create(info.medium, c.serviceId, e, true), Wrote(e, c, Introduction, true)]
                                     + if info.introductionAck then [AckRead(c, true)] else [])
  {
  }

  lemma JoinTakesUp(env: Env, s: State, s0: State, s1: State, e: EndpointId, info: PathInfo, c: Channel, t: State)
    requires Reachable(env, s, e, info) && c == Made(s, e, info) && s0 == Adopted(env, s, e, info.medium)
    requires s1 == s0.(io := s0.io.(nextChannel := c.id + 1, log := s1.io.log)) && s0 == s.(mediums := s0.mediums)
    requires s1.io.log == s.io.log + ([Create(info.medium, c.serviceId, e, true), Wrote(e, c, Introduction, true)]
                                      + if info.introductionAck then [AckRead(c, true)] else [])
    requires MediumFor(env, s0, e) == info.medium && t == RunProtocol(env, Emit(Started(s1, e), Joined(e)), e, c)
    ensures TakenUp(env, s, t, e, info)
  {
    var s2 := Emit(Started(s1, e), Joined(e));
    var acked := if info.introductionAck then [AckRead(c, true)] else [];
    var said := [Create(info.medium, c.serviceId, e, true), Wrote(e, c, Introduction, true)] + acked;
    assert s2.io.log == s.io.log + (said + [Joined(e)]);
    Added(s, s2, said + [Joined(e)]);
    assert Joining(env, s, s2, e, info);
    ProtocolMoves(env, s2, e, c, t);
  }

  // -- the socket -----------------------------------------------------------

  /** A socket is for the endpoint its introduction names, if that is upgrading, or else for the only one that is. */
  ghost predicate IsFor(s: State, introduced: EndpointId, e: EndpointId) {
    e in s.up.inProgress && (e == introduced || (introduced !in s.up.inProgress && s.up.inProgress == {e}))
  }

  /**
   * From `s` to `t` the endpoint moved to channel `c`, which was paused first. LAST_WRITE went out on the channel it
   * left; if that worked it is parked, and an early LAST_WRITE of the peer has been answered there.
   */
  ghost predicate MovedTo(env: Env, s: State, t: State, e: EndpointId, c: Channel) {
    && Later(s, t) && Since(s, t) != [] && Since(s, t)[0] == Paused(c)
    && t.io.paused == s.io.paused + {c} && t.io.nextChannel == s.io.nextChannel
    && t == s.(registry := t.registry, up := s.up.(parked := t.up.parked, latched := t.up.latched), io := t.io)
    && if e !in s.registry then t.registry == s.registry && t.up == s.up && Since(s, t) == [Paused(c)]
       else
         var left, last := s.registry[e], env.outcome(|s.io.log| + 2);
         && t.registry == s.registry[e := c] && |Since(s, t)| >= 3
         && Since(s, t)[1] == Registered(e, c) && Since(s, t)[2] == Wrote(e, left, LastWrite, last)
         && if !last then t.up == s.up && |Since(s, t)| == 3 else HasLeft(env, s, t, e, left)
  }

  /** `left` is parked, unless an early LAST_WRITE could not be answered on it. */
  ghost predicate HasLeft(env: Env, s: State, t: State, e: EndpointId, left: Channel)
    requires Later(s, t)
  {
    var answer := |s.io.log| + if e in s.up.parked then 4 else 3;
    var answered := e in s.up.latched ==> env.outcome(answer);
    && t.up.latched == s.up.latched - {e}
    && t.up.parked == (if answered then s.up.parked[e := left] else s.up.parked - {e})
    && (e in s.up.parked ==> Released(e, s.up.parked[e]) in Since(s, t))
    && (e in s.up.latched ==> Wrote(e, left, SafeToClose, env.outcome(answer)) in Since(s, t))
    && (!answered ==> Closed(e, left, IoError) in Since(s, t))
  }

  lemma ProtocolMoves(env: Env, s: State, e: EndpointId, c: Channel, t: State)
    requires t == RunProtocol(env, s, e, c)
    ensures MovedTo(env, s, t, e, c)
  {
    if e !in s.registry {
      Added(s, t, [Paused(c)]);
    } else {
      var swapped := [Paused(c), Registered(e, c), Wrote(e, s.registry[e], LastWrite, env.outcome(|s.io.log| + 2))];
      var s1 := s.(registry := s.registry[e := c], io := s.io.(paused := s.io.paused + {c}, log := s.io.log + swapped));
      ProtocolSwaps(env, s, e, c, s1, t);
      if env.outcome(|s.io.log| + 2) {
        ParkMoves(env, s, s1, e, c, s.registry[e], swapped, t);
      } else {
        Added(s, t, swapped);
      }
    }
  }

  lemma ParkMoves(env: Env, s: State, s1: State, e: EndpointId, c: Channel, left: Channel, swapped: Log, t: State)
    requires e in s.registry && s.registry[e] == left && env.outcome(|s.io.log| + 2)
    requires swapped == [Paused(c), Registered(e, c), Wrote(e, left, LastWrite, true)]
    requires s1 == s.(registry := s.registry[e := c],
      io := s.io.(paused := s.io.paused + {c}, log := s.io.log + swapped))
    requires t == Park(env, s1, e, left)
    ensures MovedTo(env, s, t, e, c)
  {
    ParkLeaves(env, s, s1, e, left, swapped, t);
    FirstThree(Since(s, t), swapped);
  }

  lemma FirstThree(log: Log, first: Log)
    requires |first| == 3 && |log| >= 3 && log[..3] == first
    ensures log[0] == first[0] && log[1] == first[1] && log[2] == first[2]
  {
    assert log[0] == log[..3][0] && log[1] == log[..3][1] && log[2] == log[..3][2];
  }

  lemma ProtocolSwaps(env: Env, s: State, e: EndpointId, c: Channel, s1: State, t: State)
    requires t == RunProtocol(env, s, e, c) && e in s.registry
    requires var swapped := [Paused(c), Registered(e, c),
      Wrote(e, s.registry[e], LastWrite, env.outcome(|s.io.log| + 2))];
      s1 == s.(registry := s.registry[e := c], io := s.io.(paused := s.io.paused + {c}, log := s.io.log + swapped))
    ensures t == if env.outcome(|s.io.log| + 2) then Park(env, s1, e, s.registry[e]) else s1
  {
    var log := s.io.log + [Paused(c)] + [Registered(e, c)];
    assert |log| == |s.io.log| + 2;
    assert log + [Wrote(e, s.registry[e], LastWrite, Next(env, log))] == s1.io.log;
  }

  lemma ParkLeaves(env: Env, s: State, s1: State, e: EndpointId, left: Channel, swapped: Log, t: State)
    requires s1.io.log == s.io.log + swapped && |swapped| == 3 && s1.up == s.up && t == Park(env, s1, e, left)
    ensures Later(s, t) && |Since(s, t)| >= 3 && Since(s, t)[..3] == swapped && HasLeft(env, s, t, e, left)
    ensures t == s1.(up := s.up.(parked := t.up.parked, latched := t.up.latched), io := s1.io.(log := t.io.log))
  {
    var released := if e in s.up.parked then [Released(e, s.up.parked[e])] else [];
    var answered := Answered(env, s, e, left, |s.io.log| + 3 + |released|);
    ParkSays(env, s, s1, e, left, swapped, released, t);
    Added(s, t, swapped + released + answered);
    AllSaid(swapped, released, answered);
    ParkKeeps(env, s1, e, left, t);
  }

  lemma ParkKeeps(env: Env, s: State, e: EndpointId, left: Channel, t: State)
    requires t == Park(env, s, e, left)
    ensures t == s.(up := s.up.(parked := t.up.parked, latched := s.up.latched - {e}), io := s.io.(log := t.io.log))
    ensures var answer := |s.io.log| + if e in s.up.parked then 1 else 0;
      t.up.parked == if e in s.up.latched && !env.outcome(answer) then s.up.parked - {e} else s.up.parked[e := left]
  {
    assert s.up.parked[e := left] - {e} == s.up.parked - {e};
    assert s.up.latched - {e} - {e} == s.up.latched - {e};
  }

  /** How an early LAST_WRITE is answered on `left`, by what is logged `now`. */
  function Answered(env: Env, s: State, e: EndpointId, left: Channel, now: nat): Log {
    if e !in s.up.latched then []
    else if env.outcome(now) then [Wrote(e, left, SafeToClose, true)]
    else [Wrote(e, left, SafeToClose, false), Closed(e, left, IoError)]
  }

  lemma ParkSays(env: Env, s: State, s1: State, e: EndpointId, left: Channel, swapped: Log, released: Log, t: State)
    requires s1.io.log == s.io.log + swapped && |swapped| == 3 && s1.up == s.up && t == Park(env, s1, e, left)
    requires released == if e in s.up.parked then [Released(e, s.up.parked[e])] else []
    ensures t.io.log == s.io.log + (swapped + released + Answered(env, s, e, left, |s.io.log| + 3 + |released|))
  {
    var log := s1.io.log + released;
    assert |log| == |s.io.log| + 3 + |released|;
    assert t.io.log == log + Answered(env, s, e, left, |log|);
  }

  lemma AllSaid(a: Log, b: Log, c: Log)
    ensures forall event :: event in b || event in c ==> event in a + b + c
    ensures (a + b + c)[..|a|] == a
  {
  }

  /**
   * A socket whose introduction cannot be read or acknowledged is closed, and one that is for nobody left alone, with
   * nothing else changed; otherwise the pending retry of the endpoint it is for is dropped and it moves there.
   */
  lemma SocketsAreTaken(env: Env, s: State, c: Channel, introduced: Option<EndpointId>, call: Call, t: State)
      returns (s1: State)
    requires call.op == IncomingConnection(c, introduced) && Leads(env, s, call, t)
    ensures s1 == s.(io := s.io.(nextChannel := s1.io.nextChannel, log := s1.io.log)) && Later(s, s1)
    ensures s1.io.nextChannel == if c.id < s.io.nextChannel then s.io.nextChannel else c.id + 1
    ensures introduced.None? ==> t == s1 && Since(s, s1) == [IntroductionRead(c, false), Discarded(c)]
    ensures introduced.Some? ==>
      var ok := env.outcome(|s.io.log| + 1);
      var read := [IntroductionRead(c, true), AckWritten(c, ok)];
      && Since(s, s1) == (if ok then read else read + [Discarded(c)])
      && (!ok ==> t == s1)
      && (ok && (forall e :: !IsFor(s, introduced.value, e)) ==> t == s1)
      && (forall e :: ok && IsFor(s, introduced.value, e) ==>
            MovedTo(env, s1.(retry := s1.retry.(alarms := s1.retry.alarms - {e})), t, e, c))
  {
    s1 := Introduced(env, s, c, introduced).0;
    IntroductionIsRead(env, s, c, introduced, s1);
    if introduced.Some? && env.outcome(|s.io.log| + 1) {
      TargetIsFor(s1, introduced.value);
      forall e | IsFor(s, introduced.value, e)
        ensures MovedTo(env, s1.(retry := s1.retry.(alarms := s1.retry.alarms - {e})), t, e, c)
      {
        assert IsFor(s1, introduced.value, e);
        ProtocolMoves(env, CancelAlarm(s1, e), e, c, t);
      }
      forall e
        ensures IsFor(s1, introduced.value, e) <==> IsFor(s, introduced.value, e)
      {
      }
    }
  }

  lemma IntroductionIsRead(env: Env, s: State, c: Channel, introduced: Option<EndpointId>, s1: State)
    requires s1 == Introduced(env, s, c, introduced).0
    ensures s1 == s.(io := s.io.(nextChannel := s1.io.nextChannel, log := s1.io.log)) && Later(s, s1)
    ensures s1.io.nextChannel == if c.id < s.io.nextChannel then s.io.nextChannel else c.id + 1
    ensures introduced.None? ==> Since(s, s1) == [IntroductionRead(c, false), Discarded(c)]
    ensures introduced.Some? ==>
      var ok := env.outcome(|s.io.log| + 1);
      var read := [IntroductionRead(c, true), AckWritten(c, ok)];
      Since(s, s1) == (if ok then read else read + [Discarded(c)]) && Introduced(env, s, c, introduced).1 == if ok
        then introduced else None
  {
    if introduced.None? {
      assert s1.io.log == s.io.log + [IntroductionRead(c, false), Discarded(c)];
      Added(s, s1, [IntroductionRead(c, false), Discarded(c)]);
    } else {
      var ok := env.outcome(|s.io.log| + 1);
      var read := [IntroductionRead(c, true), AckWritten(c, ok)];
      assert |s.io.log + [IntroductionRead(c, true)]| == |s.io.log| + 1;
      assert s1.io.log == s.io.log + if ok then read else read + [Discarded(c)];
      Added(s, s1, if ok then read else read + [Discarded(c)]);
    }
  }

  lemma TargetIsFor(s: State, introduced: EndpointId)
    ensures forall e :: Target(s, introduced) == Some(e) <==> IsFor(s, introduced, e)
  {
    if introduced !in s.up.inProgress && |s.up.inProgress| == 1 {
      assert s.up.inProgress == {Sole(s.up.inProgress)};
    }
    forall e | s.up.inProgress == {e}
      ensures |s.up.inProgress| == 1
    {
    }
  }

  // -- the closing messages -------------------------------------------------

  /** Frames that are not for a connected endpoint that is upgrading, or say nothing to the manager, change nothing. */
  lemma IdleFrames(env: Env, s: State, e: EndpointId, f: Received, call: Call, t: State)
    requires call.op == IncomingFrame(e, f) && Leads(env, s, call, t)
    requires match f
             case PathAvailable(info) => info.None?
             case UpgradeFailure(info) => info.None? || !Connected(s, e)
             case LastWriteToPriorChannel => !Connected(s, e) || e !in s.up.inProgress
             case SafeToClosePriorChannel => !Connected(s, e) || e !in s.up.inProgress || e !in s.up.parked
             case Ignored => true
    ensures |call.rounds| == 1 && t == s
  {
  }

  /** LAST_WRITE is remembered while nothing is parked, and else answered there; if that fails the channel is closed. */
  lemma LastWriteIsAnswered(env: Env, s: State, e: EndpointId, call: Call, t: State)
    requires call.op == IncomingFrame(e, LastWriteToPriorChannel) && Leads(env, s, call, t)
    requires Connected(s, e) && e in s.up.inProgress
    ensures e !in s.up.parked ==> t == s.(up := s.up.(latched := s.up.latched + {e}))
    ensures e in s.up.parked ==>
      var c, ok := s.up.parked[e], env.outcome(|s.io.log|);
      var answer := [Wrote(e, c, SafeToClose, ok)] + if ok then [] else [Closed(e, c, IoError)];
      t == s.(up := s.up.(parked := if ok then s.up.parked else s.up.parked - {e}),
        io := s.io.(log := s.io.log + answer))
  {
    if e in s.up.parked {
      var c, ok := s.up.parked[e], env.outcome(|s.io.log|);
      var wrote := Wrote(e, c, SafeToClose, ok);
      assert s.io.log + [wrote] + [Closed(e, c, IoError)] == s.io.log + ([wrote] + [Closed(e, c, IoError)]);
      assert s.io.log + ([wrote] + []) == s.io.log + [wrote];
    }
  }

  /**
   * SAFE_TO_CLOSE ends the handover: goodbye in the clear on the parked channel, the drain read, its close, and then,
   * on the channel in use, its resumption and the report of its medium. Without a channel in use the upgrade stays in
   * progress.
   */
  lemma SafeToCloseEnds(env: Env, s: State, e: EndpointId, call: Call, t: State)
    requires call.op == IncomingFrame(e, SafeToClosePriorChannel) && Leads(env, s, call, t)
    requires Connected(s, e) && e in s.up.inProgress && e in s.up.parked
    ensures Later(s, t) && t == s.(up := s.up.(inProgress := t.up.inProgress, parked := s.up.parked - {e}),
                                   io := s.io.(paused := t.io.paused, log := t.io.log))
    ensures var prev := s.up.parked[e];
      var goodbye := [EncryptionOff(e, prev), Wrote(e, prev, Disconnection, env.outcome(|s.io.log| + 1)),
        DrainRead(e, prev), Closed(e, prev, Upgraded)];
      if e in s.registry then
        && Since(s, t) == goodbye + [Resumed(s.registry[e]), BandwidthChanged(e, s.registry[e].medium)]
        && t.io.paused == s.io.paused - {s.registry[e]} && t.up.inProgress == s.up.inProgress - {e}
      else Since(s, t) == goodbye && t.io.paused == s.io.paused && t.up.inProgress == s.up.inProgress
  {
    var prev := s.up.parked[e];
    assert |s.io.log + [EncryptionOff(e, prev)]| == |s.io.log| + 1;
    var goodbye := [EncryptionOff(e, prev), Wrote(e, prev, Disconnection, env.outcome(|s.io.log| + 1)),
      DrainRead(e, prev), Closed(e, prev, Upgraded)];
    var more := if e in s.registry then [Resumed(s.registry[e]), BandwidthChanged(e, s.registry[e].medium)] else [];
    assert t.io.log == s.io.log + (goodbye + more);
    Added(s, t, goodbye + more);
  }

  // -- the client, the registry, the marks ----------------------------------

  /** Commands for the registry, and the reset, change the one thing they name; so do those for the client. */
  lemma PlainCommands(env: Env, s: State, call: Call, t: State)
    requires Leads(env, s, call, t)
    ensures call.op.ResetUpgrade? ==> t == s.(up := s.up.(inProgress := s.up.inProgress - {call.op.e}))
    ensures call.op.RegisterChannel? ==>
      && t == s.(registry := s.registry[call.op.e := call.op.c], io := t.io)
      && t.io == s.io.(nextChannel := t.io.nextChannel, log := s.io.log + [Registered(call.op.e, call.op.c)])
      && s.io.nextChannel <= t.io.nextChannel && call.op.c.id < t.io.nextChannel
    ensures call.op.UnregisterChannel? ==>
      t == s.(registry := s.registry - {call.op.e}, io := s.io.(log := s.io.log + [Unregistered(call.op.e)]))
  {
  }

  lemma ClientCommands(env: Env, s: State, call: Call, t: State)
    requires Leads(env, s, call, t)
    requires call.op.ConnectionInitiated? || call.op.ConnectionAccepted? || call.op.ClientDisconnected?
      || call.op.SetUpgradeMediums?
    ensures t == s.(clients := t.clients) && t.clients - {call.op.e} == s.clients - {call.op.e}
    ensures call.op.ClientDisconnected? <==> call.op.e !in t.clients
    ensures call.op.ConnectionInitiated? ==>
      (Called(t, call.op.e) <==> call.op.incoming) && (Connected(t, call.op.e) <==> Connected(s, call.op.e))
        && SameList(s, t, call.op.e)
    ensures call.op.ConnectionAccepted? ==>
      Connected(t, call.op.e) && (Called(t, call.op.e) <==> Called(s, call.op.e)) && SameList(s, t, call.op.e)
    ensures call.op.SetUpgradeMediums? ==>
      && t.clients[call.op.e].mediums == call.op.mediums
      && (Connected(t, call.op.e) <==> Connected(s, call.op.e)) && (Called(t, call.op.e) <==> Called(s, call.op.e))
  {
  }

  /** The mediums to try are the same. */
  predicate SameList(s: State, t: State, e: EndpointId) {
    e in t.clients && t.clients[e].mediums == if e in s.clients then s.clients[e].mediums else []
  }
}
