/** What a failover and a revert leave alone, and what they may log. */
module Frames {
  import opened Wrappers
  import opened ServiceIds
  import opened Protocol
  import opened BwuSpec
  import HandlerSpec

  /** Events of the medium handlers. */
  predicate ByHandler(event: Event) {
    || event.Reverted? || event.ListenerStart? || event.ListenerStop? || event.SoftApStart? || event.SoftApStop?
  }

  /** Events of attempting a medium. */
  predicate ByAttempt(event: Event, m: Medium) {
    ByHandler(event) || (event.Initialize? && event.medium == m) || (event.Wrote? && event.frame.Offer?)
  }

  /** Events of undoing a failed attempt and scheduling a retry. */
  predicate ByUndoing(event: Event, e: EndpointId) {
    ByHandler(event) || (event.RetryScheduled? && event.endpoint == e)
  }

  /** Events of a failover for `e`. */
  predicate ByFailover(event: Event, e: EndpointId) {
    ByUndoing(event, e) || event.Initialize? || (event.Wrote? && event.frame.Offer?)
  }

  /** Events of telling `e` that the upgrade failed. */
  predicate ByRefusal(event: Event, s: State, e: EndpointId, info: PathInfo) {
    || ByHandler(event)
    || (event.Wrote? && event.endpoint == e && event.frame == UpgradeFailed(info))
    || (e in s.registry && event == Closed(e, s.registry[e], IoError))
  }

  ghost predicate Extends(s: State, t: State, logged: Event -> bool) {
    && |s.io.log| <= |t.io.log| && t.io.log[..|s.io.log|] == s.io.log
    && forall i :: |s.io.log| <= i < |t.io.log| ==> logged(t.io.log[i])
  }

  /** Only handlers and the recorded medium may differ, and only handlers have logged. */
  ghost predicate OnlyHandlers(s: State, t: State) {
    && t == s.(handlers := t.handlers, mediums := t.mediums, io := s.io.(log := t.io.log))
    && t.handlers.Keys == s.handlers.Keys
    && Extends(s, t, ByHandler)
  }

  /** Besides that, a failover for `e` may change its retry and whether it is in progress. */
  ghost predicate OnlyFailover(s: State, t: State, e: EndpointId) {
    && t == s.(handlers := t.handlers, mediums := t.mediums, retry := t.retry,
               up := s.up.(inProgress := t.up.inProgress), io := s.io.(log := t.io.log))
    && t.handlers.Keys == s.handlers.Keys
    && t.up.inProgress - {e} == s.up.inProgress - {e}
    && Extends(s, t, event => ByFailover(event, e))
  }

  lemma {:induction false} TearDownAllQuiet(m: Medium, h: HandlerSpec.Handler, services: seq<ServiceId>)
    ensures forall i :: 0 <= i < |HandlerSpec.TearDownAll(m, h, services).log| ==>
      ByHandler(HandlerSpec.TearDownAll(m, h, services).log[i])
    decreases |services|
  {
    if services != [] {
      TearDownAllQuiet(m, HandlerSpec.TearDown(m, h, services[0]).handler, services[1..]);
    }
  }

  lemma WithHandlerFrame(s: State, m: Medium, r: HandlerSpec.Result)
    requires m in s.handlers && forall i :: 0 <= i < |r.log| ==> ByHandler(r.log[i])
    ensures OnlyHandlers(s, WithHandler(s, m, r))
  {
  }

  lemma RevertFrame(env: Env, s: State, service: ServiceId, e: EndpointId)
    ensures OnlyHandlers(s, Revert(env, s, service, e))
  {
    var m := MediumFor(env, s, e);
    if HasHandler(s, m) {
      if !env.config.multipleMediums {
        var s1 := s.(mediums := s.mediums.(medium := UnknownMedium));
        TearDownAllQuiet(m, s.handlers[m], env.order(s.handlers[m].active.Keys));
        WithHandlerFrame(s1, m, HandlerSpec.RevertAll(m, s.handlers[m], env.order(s.handlers[m].active.Keys)));
      } else {
        var s1 := s.(mediums := s.mediums.(mediumOf := s.mediums.mediumOf - {e}));
        WithHandlerFrame(s1, m, HandlerSpec.RevertEndpoint(m, s.handlers[m], service, e));
        WithHandlerFrame(s1, m, HandlerSpec.TearDown(m, s.handlers[m], service));
      }
    }
  }

  lemma NextBestFrame(env: Env, s: State, e: EndpointId, untried: seq<Medium>)
    ensures OnlyFailover(s, NextBestOnce(env, s, e, untried).state, e)
    ensures Extends(s, NextBestOnce(env, s, e, untried).state, event => ByUndoing(event, e))
  {
  }

  lemma NextBestHandlers(env: Env, s: State, e: EndpointId, untried: seq<Medium>)
    ensures NextBestOnce(env, s, e, untried).state.handlers == s.handlers
  {
  }

  lemma FailureFrame(env: Env, s: State, e: EndpointId, last: Medium)
    ensures OnlyFailover(s, FailureOnce(env, s, e, last).state, e)
    ensures Extends(s, FailureOnce(env, s, e, last).state, event => ByUndoing(event, e))
  {
    if env.config.multipleMediums || |s.registry| <= 1 {
      var s1, untried := Undone(env, s, e), After(ClientOf(s, e).mediums, last);
      UndoneFrame(env, s, e);
      NextBestFrame(env, s1, e, untried);
      FailoverTwice(s, s1, NextBestOnce(env, s1, e, untried).state, e);
    }
  }

  lemma UndoneFrame(env: Env, s: State, e: EndpointId)
    ensures var t := Undone(env, s, e);
      && t == s.(handlers := t.handlers, mediums := t.mediums,
                 up := s.up.(inProgress := s.up.inProgress - {e}), io := s.io.(log := t.io.log))
      && t.handlers.Keys == s.handlers.Keys
      && Extends(s, t, ByHandler) && OnlyFailover(s, t, e)
  {
    var s1 := Stopped(s, e);
    var service := if e in s1.registry then s1.registry[e].serviceId else UNKNOWN_SERVICE_ID;
    RevertFrame(env, s1, Wrap(service), e);
  }

  lemma InitQuiet(outcome: Outcomes, now: nat, m: Medium, h: HandlerSpec.Handler, service: ServiceId, e: EndpointId)
    ensures var r := HandlerSpec.Init(outcome, now, m, h, service, e);
      forall i :: 0 <= i < |r.log| ==> ByAttempt(r.log[i], m)
  {
  }

  lemma OfferFrame(env: Env, s: State, e: EndpointId, m: Medium)
    requires HasHandler(s, m) && e in s.registry
    ensures var t := MakeOffer(env, s, e, m).0;
      && t == s.(handlers := t.handlers, io := s.io.(log := t.io.log)) && t.handlers.Keys == s.handlers.Keys
      && Extends(s, t, event => ByAttempt(event, m))
    ensures OnlyFailover(s, MakeOffer(env, s, e, m).0, e)
  {
    var up := HandlerSpec.Init(env.outcome, |s.io.log|, m, s.handlers[m], s.registry[e].serviceId, e);
    InitQuiet(env.outcome, |s.io.log|, m, s.handlers[m], s.registry[e].serviceId, e);
    assert Extends(s, WithHandler(s, m, up), event => ByAttempt(event, m));
  }

  lemma AttemptFrame(env: Env, s: State, e: EndpointId, m: Medium)
    requires HasHandler(s, m) && e in s.registry
    ensures OnlyFailover(s, Attempt(env, s, e, m).state, e)
  {
    OfferFrame(env, s, e, m);
    var (s1, ok) := MakeOffer(env, s, e, m);
    if ok {
      assert OnlyFailover(s1, Started(s1, e), e);
      FailoverTwice(s, s1, Started(s1, e), e);
    } else {
      FailureFrame(env, s1, e, OnWire(m));
      FailoverTwice(s, s1, FailureOnce(env, s1, e, OnWire(m)).state, e);
    }
  }

  lemma FailoverTwice(s: State, t: State, u: State, e: EndpointId)
    requires OnlyFailover(s, t, e) && OnlyFailover(t, u, e)
    ensures OnlyFailover(s, u, e)
    ensures Extends(s, t, event => ByUndoing(event, e)) && Extends(t, u, event => ByUndoing(event, e)) ==>
              Extends(s, u, event => ByUndoing(event, e))
  {
    assert u.io.log[..|s.io.log|] == u.io.log[..|t.io.log|][..|s.io.log|];
    forall i | |s.io.log| <= i < |u.io.log|
      ensures ByFailover(u.io.log[i], e)
      ensures i < |t.io.log| ==> u.io.log[i] == t.io.log[i]
    {
      assert i < |t.io.log| ==> u.io.log[..|t.io.log|][i] == t.io.log[i];
    }
  }

  /** What comes before an attempt, or instead of one, concerns the recorded medium and the alarm only. */
  lemma PreliminariesFrame(env: Env, s: State, e: EndpointId, m: Medium)
    ensures var t := Readied(env, s, e, m);
      t == s.(mediums := t.mediums, retry := Retries(s.retry.alarms - {e}, s.retry.delays))
    ensures var t := Declined(env, s, e, m);
      t == s.(mediums := t.mediums, retry := t.retry)
      && (t.retry == s.retry || t.retry == Retries(s.retry.alarms - {e}, s.retry.delays))
  {
  }

  lemma InitiateFrame(env: Env, s: State, e: EndpointId, m: Medium)
    ensures OnlyFailover(s, InitiateOnce(env, s, e, m).state, e)
  {
    var s1 := Readied(env, s, e, m);
    PreliminariesFrame(env, s, e, m);
    if Viable(s, e, m) {
      AttemptFrame(env, s1, e, m);
      ReadiedThen(s, s1, Attempt(env, s1, e, m).state, e);
    }
  }

  lemma ReadiedThen(s: State, t: State, u: State, e: EndpointId)
    requires t == s.(mediums := t.mediums, retry := t.retry) && OnlyFailover(t, u, e)
    ensures OnlyFailover(s, u, e)
  {
  }

  lemma FailedProtocolFrame(env: Env, s: State, e: EndpointId, info: PathInfo)
    ensures var t := FailedProtocol(env, s, e, info);
      && t == s.(handlers := t.handlers, mediums := t.mediums,
                 up := s.up.(inProgress := t.up.inProgress), io := s.io.(log := t.io.log))
      && t.handlers.Keys == s.handlers.Keys
      && t.up.inProgress <= s.up.inProgress && s.up.inProgress <= t.up.inProgress + {e}
      && Extends(s, t, event => ByRefusal(event, s, e, info))
  {
    if e in s.registry {
      var s1 := Emit(s, Wrote(e, s.registry[e], UpgradeFailed(info), Next(env, s.io.log)));
      RevertFrame(env, s1, s.registry[e].serviceId, e);
    }
  }

  /** Dialling leaves everything but the channels' shared state alone, and its channel is new. */
  lemma DialFrame(env: Env, s: State, e: EndpointId, info: PathInfo)
    ensures var (t, c) := Dial(env, s, e, info);
      && t == s.(io := t.io) && t.io.paused == s.io.paused && s.io.nextChannel <= t.io.nextChannel
      && (c.Some? ==> s.io.nextChannel <= c.value.id < t.io.nextChannel && e in s.registry
                      && c.value.serviceId == s.registry[e].serviceId)
      && Extends(s, t, event => ByDial(event, info.medium))
  {
  }

  predicate ByDial(event: Event, m: Medium) {
    || (event.Create? && event.medium == m) || event.AckRead? || event.Discarded?
    || (event.Wrote? && event.frame == Introduction)
  }

  predicate ByIntroduction(event: Event) {
    event.IntroductionRead? || event.AckWritten? || event.Discarded?
  }

  lemma IntroducedFrame(env: Env, s: State, c: Channel, introduced: Option<EndpointId>)
    ensures var (t, id) := Introduced(env, s, c, introduced);
      && t == s.(io := t.io) && t.io.paused == s.io.paused
      && s.io.nextChannel <= t.io.nextChannel && c.id < t.io.nextChannel
      && Extends(s, t, ByIntroduction)
  {
  }

  /** Events on the channels of one endpoint while it hands over from one to the other. */
  predicate ByHandshake(event: Event) {
    || (event.Wrote? && (event.frame == LastWrite || event.frame == SafeToClose || event.frame == Disconnection))
    || event.EncryptionOff? || event.DrainRead? || event.Closed? || event.Released?
    || event.Resumed? || event.BandwidthChanged?
  }

  lemma LastWriteFrame(env: Env, s: State, e: EndpointId)
    ensures var t := OnLastWrite(env, s, e);
      && t == s.(up := t.up, io := s.io.(log := t.io.log)) && t.up.inProgress == s.up.inProgress
      && Extends(s, t, ByHandshake)
  {
  }

  lemma ParkFrame(env: Env, s: State, e: EndpointId, prior: Channel)
    ensures var t := Park(env, s, e, prior);
      && t == s.(up := t.up, io := s.io.(log := t.io.log)) && t.up.inProgress == s.up.inProgress
      && Extends(s, t, ByHandshake)
  {
    var log := if e in s.up.parked then s.io.log + [Released(e, s.up.parked[e])] else s.io.log;
    var s1 := s.(up := s.up.(parked := s.up.parked[e := prior], latched := s.up.latched - {e}), io := s.io.(log := log));
    LastWriteFrame(env, s1, e);
  }

  lemma RunProtocolFrame(env: Env, s: State, e: EndpointId, c: Channel)
    ensures var t := RunProtocol(env, s, e, c);
      && t == s.(registry := t.registry, up := t.up, io := s.io.(paused := t.io.paused, log := t.io.log))
      && t.up.inProgress == s.up.inProgress
      && (t.registry == s.registry || t.registry == s.registry[e := c])
      && Extends(s, t, event => ByHandshake(event) || event.Paused? || event.Registered?)
  {
    if e in s.registry {
      var swapped := s.io.log + [Paused(c)] + [Registered(e, c)];
      var s1 := s.(registry := s.registry[e := c],
                   io := s.io.(paused := s.io.paused + {c},
                               log := swapped + [Wrote(e, s.registry[e], LastWrite, Next(env, swapped))]));
      ParkFrame(env, s1, e, s.registry[e]);
    }
  }

  lemma SafeToCloseFrame(env: Env, s: State, e: EndpointId)
    ensures var t := OnSafeToClose(env, s, e);
      && t == s.(up := t.up, io := s.io.(paused := t.io.paused, log := t.io.log))
      && t.up.inProgress <= s.up.inProgress
      && Extends(s, t, ByHandshake)
  {
  }

  lemma DuplicateFrame(s: State, e: EndpointId)
    ensures var t := DuplicateOffer(s, e);
      && t == s.(up := t.up, io := s.io.(paused := t.io.paused, log := t.io.log))
      && t.up.inProgress == s.up.inProgress
      && Extends(s, t, ByGivingUp)
    ensures Extends(s, DuplicateOffer(s, e), ByHandshake)
  {
    var log := if e in s.up.parked then s.io.log + [Closed(e, s.up.parked[e], Unfinished)] else s.io.log;
    var s1 := s.(up := s.up.(parked := s.up.parked - {e}), io := s.io.(log := log));
    assert Extends(s, s1, ByGivingUp);
  }

  /** Events of giving up on both channels of an endpoint. */
  predicate ByGivingUp(event: Event) {
    (event.Closed? && event.reason == Unfinished) || event.Resumed?
  }

  lemma AdoptedFrame(env: Env, s: State, e: EndpointId, m: Medium)
    ensures var t := Adopted(env, s, e, m); t == s.(mediums := t.mediums)
  {
  }

  predicate ByForgetting(event: Event, e: EndpointId) {
    event.HandlerDisconnect? || event.Closed? || event == Forgotten(e)
  }

  lemma ForgetFrame(env: Env, s: State, e: EndpointId)
    ensures var t := Forget(env, s, e);
      && t == s.(up := t.up, retry := t.retry, io := s.io.(log := t.io.log))
      && t.up.inProgress <= s.up.inProgress
      && Extends(s, t, event => ByForgetting(event, e))
  {
  }

  /** Operations on the registry, the client and the in-progress marks. */
  predicate Minor(op: Op) {
    || op.ResetUpgrade? || op.RegisterChannel? || op.UnregisterChannel? || op.ConnectionInitiated?
    || op.ConnectionAccepted? || op.ClientDisconnected? || op.SetUpgradeMediums?
  }

  lemma MinorFrame(env: Env, s: State, op: Op)
    requires Minor(op)
    ensures var t := Begin(env, s, op).state;
      && t == s.(registry := t.registry, clients := t.clients, up := s.up.(inProgress := t.up.inProgress),
                 io := s.io.(nextChannel := t.io.nextChannel, log := t.io.log))
      && t.up.inProgress <= s.up.inProgress
      && (forall e :: e in t.registry ==> (e in s.registry && t.registry[e] == s.registry[e])
                                          || (op.RegisterChannel? && t.registry[e] == op.c))
      && Extends(s, t, (event: Event) => event.Registered? || event.Unregistered?)
  {
  }

  lemma {:induction false} RevertHandlersFrame(env: Env, s: State, ms: seq<Medium>)
    ensures OnlyHandlers(s, RevertHandlers(env, s, ms))
    decreases |ms|
  {
    if ms != [] {
      var s1 := s;
      if ms[0] in s.handlers {
        var order := env.order(s.handlers[ms[0]].active.Keys);
        TearDownAllQuiet(ms[0], s.handlers[ms[0]], order);
        WithHandlerFrame(s, ms[0], HandlerSpec.RevertAll(ms[0], s.handlers[ms[0]], order));
        s1 := WithHandler(s, ms[0], HandlerSpec.RevertAll(ms[0], s.handlers[ms[0]], order));
      }
      RevertHandlersFrame(env, s1, ms[1..]);
    }
  }

  lemma {:induction false} RevertHandlersClears(env: Env, s: State, ms: seq<Medium>)
    requires env.Valid()
    ensures var t := RevertHandlers(env, s, ms);
      && t.handlers.Keys == s.handlers.Keys
      && forall m :: m in s.handlers ==> t.handlers[m] == if m in ms then HandlerSpec.Cleared(s.handlers[m]) else s.handlers[m]
    decreases |ms|
  {
    if ms != [] {
      var s1 := s;
      if ms[0] in s.handlers {
        var h := s.handlers[ms[0]];
        var r := HandlerSpec.RevertAll(ms[0], h, env.order(h.active.Keys));
        HandlerSpec.RevertAllClears(ms[0], h, env.order(h.active.Keys));
        s1 := WithHandler(s, ms[0], r);
        ClearedTwice(h);
      }
      RevertHandlersClears(env, s1, ms[1..]);
    }
  }

  lemma ClearedTwice(h: HandlerSpec.Handler)
    ensures HandlerSpec.Cleared(HandlerSpec.Cleared(h)) == HandlerSpec.Cleared(h)
  {
  }

  /** After a shutdown no handler tracks a service and every collection is empty; the recorded mediums stay. */
  lemma ShutDownClears(env: Env, s: State)
    requires env.Valid()
    ensures var t := DoShutDown(env, s);
      && t.handlers.Keys == s.handlers.Keys
      && (forall m :: m in s.handlers ==> t.handlers[m] == HandlerSpec.Cleared(s.handlers[m]))
      && t.up == Upgrades({}, map[], {}) && t.retry == Retries(map[], map[]) && t.mediums == s.mediums
      && t.registry == s.registry && t.clients == s.clients
  {
    var s1 := s.(retry := Retries(map[], map[]));
    var order := env.handlerOrder(s.handlers.Keys);
    RevertHandlersClears(env, s1, order);
    RevertHandlersFrame(env, s1, order);
    RevertHandlersMediums(env, s1, order);
  }

  lemma {:induction false} RevertHandlersMediums(env: Env, s: State, ms: seq<Medium>)
    ensures RevertHandlers(env, s, ms).mediums == s.mediums
    decreases |ms|
  {
    if ms != [] {
      var s1 := if ms[0] in s.handlers
                then WithHandler(s, ms[0], HandlerSpec.RevertAll(ms[0], s.handlers[ms[0]],
                                                                 env.order(s.handlers[ms[0]].active.Keys)))
                else s;
      RevertHandlersMediums(env, s1, ms[1..]);
    }
  }
}
