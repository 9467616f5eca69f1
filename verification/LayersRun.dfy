/** The two handler layers agree at every point of every execution of the manager. */
module LayersRun {
  import opened Wrappers
  import opened ServiceIds
  import opened Protocol
  import opened BwuSpec
  import opened Frames
  import opened Layers
  import HandlerSpec

  predicate NoSoftAp(event: Event) {
    !event.SoftApStart? && !event.SoftApStop?
  }

  /** Registered channels have a service id. */
  ghost predicate AllNamed(s: State) {
    forall e :: e in s.registry ==> s.registry[e].serviceId != ""
  }

  /** Under every handler that keeps listeners, a service has one if and only if an endpoint holds it. */
  ghost predicate Agree(s: State) {
    forall m :: m in s.handlers && HandlerSpec.Concrete(m) ==> Marked(s.handlers[m]) && InStep(s.handlers[m])
  }

  /** The SoftAPs started for `service` less those stopped: one if the hotspot has a listener for it, else none. */
  ghost predicate Balanced(s: State, service: ServiceId) {
    Running(s.io.log, service) == if WifiHotspot in s.handlers then Live(s.handlers[WifiHotspot], service) else 0
  }

  ghost predicate LayerInv(s: State, service: ServiceId) {
    AllNamed(s) && Agree(s) && Balanced(s, service)
  }

  /** New channels come with a service id. */
  predicate Admissible(s: State, op: Op) {
    match op
    case RegisterChannel(_, c) => c.serviceId != ""
    case IncomingConnection(c, _) => c.serviceId != ""
    case _ => true
  }

  // -- one call on one handler ----------------------------------------------

  lemma {:induction false} TearDownAllSoftAps(m: Medium, h: HandlerSpec.Handler, services: seq<ServiceId>)
    requires m != WifiHotspot
    ensures forall i :: 0 <= i < |HandlerSpec.TearDownAll(m, h, services).log| ==>
      NoSoftAp(HandlerSpec.TearDownAll(m, h, services).log[i])
    decreases |services|
  {
    if services != [] {
      var first := HandlerSpec.TearDown(m, h, services[0]);
      TearDownSoftAps(m, h, services[0]);
      TearDownAllSoftAps(m, first.handler, services[1..]);
    }
  }

  lemma InitSoftAps(outcome: Outcomes, now: nat, m: Medium, h: HandlerSpec.Handler, id: ServiceId, e: EndpointId)
    requires m != WifiHotspot
    ensures var r := HandlerSpec.Init(outcome, now, m, h, id, e); forall i :: 0 <= i < |r.log| ==> NoSoftAp(r.log[i])
  {
    var up := HandlerSpec.BringUp(outcome, now + 1, m, h, Wrap(id));
    assert forall i :: 0 <= i < |up.log| ==> NoSoftAp(up.log[i]);
  }

  lemma StepSoftAps(outcome: Outcomes, now: nat, m: Medium, h: HandlerSpec.Handler, call: Layers.Call)
    requires m != WifiHotspot
    ensures var r := Step(outcome, now, m, h, call); forall i :: 0 <= i < |r.log| ==> NoSoftAp(r.log[i])
  {
    match call
    case CallInit(id, e) => InitSoftAps(outcome, now, m, h, id, e);
    case CallRevertEndpoint(id, e) => TearDownSoftAps(m, h.(active := h.active - {id}), id);
    case CallRevertAll(order) => TearDownAllSoftAps(m, h, order);
    case CallRevertResponder(id) => TearDownSoftAps(m, h, id);
  }

  lemma TearDownSoftAps(m: Medium, h: HandlerSpec.Handler, id: ServiceId)
    requires m != WifiHotspot
    ensures var r := HandlerSpec.TearDown(m, h, id); forall i :: 0 <= i < |r.log| ==> NoSoftAp(r.log[i])
  {
  }

  lemma NoneRunning(log: Log, service: ServiceId)
    requires forall i :: 0 <= i < |log| ==> NoSoftAp(log[i])
    ensures Running(log, service) == 0
  {
    CountNone(log, SoftApStart(service, true));
    CountNone(log, SoftApStop(service));
  }

  lemma CallInStep(env: Env, s: State, m: Medium, call: Layers.Call, r: HandlerSpec.Result)
    requires Agree(s) && m in s.handlers
    requires Proper(s.handlers[m], call) && (call.CallInit? ==> call.service != "")
    requires r == Step(env.outcome, |s.io.log|, m, s.handlers[m], call)
    ensures HandlerSpec.Concrete(m) ==> Marked(r.handler) && InStep(r.handler)
  {
    var h := s.handlers[m];
    if HandlerSpec.Concrete(m) {
      match call
      case CallRevertResponder(id) => ResponderRevert(m, h, id);
      case CallRevertEndpoint(id, e) => RevertInStep(m, h, id, e);
      case CallRevertAll(order) => RevertAllInStep(m, h, order);
      case CallInit(id, e) => InitInStep(env.outcome, |s.io.log|, m, h, id, e);
    }
  }

  /** Whatever the manager asks of a handler, the layers stay in step. */
  lemma HandlerKeeps(env: Env, s: State, m: Medium, call: Layers.Call, r: HandlerSpec.Result, service: ServiceId)
    requires LayerInv(s, service) && m in s.handlers
    requires Proper(s.handlers[m], call) && (call.CallInit? ==> call.service != "")
    requires r == Step(env.outcome, |s.io.log|, m, s.handlers[m], call)
    ensures LayerInv(WithHandler(s, m, r), service)
  {
    CallInStep(env, s, m, call, r);
    CallBalanced(env, s, m, call, r, service);
    ResultKeeps(s, m, r, WithHandler(s, m, r), service);
  }

  lemma ResultKeeps(s: State, m: Medium, r: HandlerSpec.Result, t: State, service: ServiceId)
    requires LayerInv(s, service) && m in s.handlers && t == WithHandler(s, m, r)
    requires HandlerSpec.Concrete(m) ==> Marked(r.handler) && InStep(r.handler)
    requires Running(r.log, service) == if m == WifiHotspot then Live(r.handler, service) - Live(s.handlers[m], service) else 0
    ensures LayerInv(t, service)
  {
    RunningConcat(s.io.log, r.log, service);
  }

  /** The SoftAPs a call starts and stops make up for the change in listeners. */
  lemma CallBalanced(env: Env, s: State, m: Medium, call: Layers.Call, r: HandlerSpec.Result, service: ServiceId)
    requires m in s.handlers && r == Step(env.outcome, |s.io.log|, m, s.handlers[m], call)
    ensures Running(r.log, service) == if m == WifiHotspot then Live(r.handler, service) - Live(s.handlers[m], service) else 0
  {
    if m == WifiHotspot {
      StepBalanced(env.outcome, |s.io.log|, s.handlers[m], call, service);
    } else {
      StepSoftAps(env.outcome, |s.io.log|, m, s.handlers[m], call);
      NoneRunning(r.log, service);
    }
  }

  /** Steps that touch no handler and no SoftAP. */
  lemma QuietStep(s: State, t: State, service: ServiceId)
    requires LayerInv(s, service) && t.handlers == s.handlers && AllNamed(t)
    requires Extends(s, t, NoSoftAp)
    ensures LayerInv(t, service)
  {
    var more := t.io.log[|s.io.log|..];
    assert t.io.log == s.io.log + more;
    RunningConcat(s.io.log, more, service);
    NoneRunning(more, service);
  }

  /** Steps that log nothing. */
  lemma SameKeeps(s: State, t: State, service: ServiceId)
    requires LayerInv(s, service) && t.handlers == s.handlers && t.registry == s.registry && t.io.log == s.io.log
    ensures LayerInv(t, service)
  {
  }

  // -- the operations -------------------------------------------------------

  lemma RevertKeeps(env: Env, s: State, id: ServiceId, e: EndpointId, service: ServiceId)
    requires env.Valid() && LayerInv(s, service)
    ensures LayerInv(Revert(env, s, id, e), service)
  {
    var m := MediumFor(env, s, e);
    var s1 := s.(mediums := if env.config.multipleMediums then s.mediums.(mediumOf := s.mediums.mediumOf - {e})
                            else s.mediums.(medium := UnknownMedium));
    if HasHandler(s, m) {
      var h := s.handlers[m];
      var call := if !env.config.multipleMediums then CallRevertAll(env.order(h.active.Keys))
                  else if IsInitiator(id) then CallRevertEndpoint(id, e)
                  else CallRevertResponder(id);
      var r := Step(env.outcome, |s1.io.log|, m, h, call);
      HandlerKeeps(env, s1, m, call, r, service);
    }
  }

  lemma OfferKeeps(env: Env, s: State, e: EndpointId, m: Medium, service: ServiceId)
    requires HasHandler(s, m) && e in s.registry && LayerInv(s, service)
    ensures LayerInv(MakeOffer(env, s, e, m).0, service)
  {
    var c, h := s.registry[e], s.handlers[m];
    var call := CallInit(c.serviceId, e);
    var up := Step(env.outcome, |s.io.log|, m, h, call);
    HandlerKeeps(env, s, m, call, up, service);
    var s1 := WithHandler(s, m, up);
    QuietStep(s1, Emit(s1, Wrote(e, c, Offer(m), Next(env, s1.io.log))), service);
  }

  lemma FailureKeeps(env: Env, s: State, e: EndpointId, last: Medium, service: ServiceId)
    requires env.Valid() && LayerInv(s, service)
    ensures LayerInv(FailureOnce(env, s, e, last).state, service)
  {
    SameKeeps(s, Stopped(s, e), service);
    UndoneKeeps(env, s, e, service);
    NextBestKeeps(env, Undone(env, s, e), e, After(ClientOf(s, e).mediums, last), service);
  }

  lemma UndoneKeeps(env: Env, s: State, e: EndpointId, service: ServiceId)
    requires env.Valid() && LayerInv(s, service)
    ensures LayerInv(Undone(env, s, e), service)
  {
    var s1 := Stopped(s, e);
    SameKeeps(s, s1, service);
    var id := if e in s1.registry then s1.registry[e].serviceId else UNKNOWN_SERVICE_ID;
    RevertKeeps(env, s1, Wrap(id), e, service);
  }

  lemma NextBestKeeps(env: Env, s: State, e: EndpointId, untried: seq<Medium>, service: ServiceId)
    requires LayerInv(s, service)
    ensures LayerInv(NextBestOnce(env, s, e, untried).state, service)
  {
    var o := NextBestOnce(env, s, e, untried);
    if o.Again? {
      SameKeeps(s, o.state, service);
    } else if o.state != s {
      ScheduleKeeps(env, s, e, o.state, service);
    }
  }

  lemma ScheduleKeeps(env: Env, s: State, e: EndpointId, t: State, service: ServiceId)
    requires LayerInv(s, service) && t == ScheduleRetry(env, s, e)
    ensures LayerInv(t, service)
  {
    QuietStep(s, t, service);
  }

  lemma InitiateKeeps(env: Env, s: State, e: EndpointId, m: Medium, service: ServiceId)
    requires env.Valid() && LayerInv(s, service)
    ensures LayerInv(InitiateOnce(env, s, e, m).state, service)
  {
    PreliminariesFrame(env, s, e, m);
    if Viable(s, e, m) {
      AttemptKeeps(env, Readied(env, s, e, m), e, m, service);
    }
  }

  lemma AttemptKeeps(env: Env, s: State, e: EndpointId, m: Medium, service: ServiceId)
    requires env.Valid() && HasHandler(s, m) && e in s.registry && LayerInv(s, service)
    ensures LayerInv(Attempt(env, s, e, m).state, service)
  {
    var (s1, ok) := MakeOffer(env, s, e, m);
    OfferKeeps(env, s, e, m, service);
    if ok {
      SameKeeps(s1, Started(s1, e), service);
    } else {
      FailureKeeps(env, s1, e, OnWire(m), service);
    }
  }

  lemma RefusalKeeps(env: Env, s: State, e: EndpointId, info: PathInfo, service: ServiceId)
    requires env.Valid() && LayerInv(s, service)
    ensures LayerInv(FailedProtocol(env, s, e, info), service)
  {
    if e in s.registry {
      var c, ok := s.registry[e], Next(env, s.io.log);
      var log := s.io.log + [Wrote(e, c, UpgradeFailed(info), ok)];
      if ok {
        var s1 := s.(io := s.io.(log := log));
        QuietStep(s, s1, service);
        UndoKeeps(env, s1, c.serviceId, e, service);
      } else {
        QuietStep(s, s.(io := s.io.(log := log + [Closed(e, c, IoError)])), service);
      }
    }
  }

  lemma UndoKeeps(env: Env, s: State, id: ServiceId, e: EndpointId, service: ServiceId)
    requires env.Valid() && LayerInv(s, service)
    ensures LayerInv(Stopped(if MediumFor(env, s, e) != UnknownMedium then Revert(env, s, id, e) else s, e), service)
  {
    RevertKeeps(env, s, id, e, service);
    var s1 := if MediumFor(env, s, e) != UnknownMedium then Revert(env, s, id, e) else s;
    SameKeeps(s1, Stopped(s1, e), service);
  }

  lemma RunProtocolKeeps(env: Env, s: State, e: EndpointId, c: Channel, service: ServiceId)
    requires LayerInv(s, service) && c.serviceId != ""
    ensures LayerInv(RunProtocol(env, s, e, c), service)
  {
    RunProtocolFrame(env, s, e, c);
    SwapKeeps(s, RunProtocol(env, s, e, c), e, c, service);
  }

  lemma SwapKeeps(s: State, t: State, e: EndpointId, c: Channel, service: ServiceId)
    requires LayerInv(s, service) && c.serviceId != "" && t.handlers == s.handlers
    requires t.registry == s.registry || t.registry == s.registry[e := c]
    requires Extends(s, t, event => ByHandshake(event) || event.Paused? || event.Registered?)
    ensures LayerInv(t, service)
  {
    QuietStep(s, t, service);
  }

  lemma AcceptKeeps(env: Env, s: State, e: EndpointId, info: PathInfo, service: ServiceId)
    requires env.Valid() && LayerInv(s, service)
    ensures LayerInv(Accept(env, s, e, info), service)
  {
    RefusalKeeps(env, s, e, info, service);
    DialFrame(env, s, e, info);
    var (s1, made) := Dial(env, s, e, info);
    QuietStep(s, s1, service);
    RefusalKeeps(env, s1, e, info, service);
    if made.Some? {
      var s2 := Emit(Started(s1, e), Joined(e));
      QuietStep(s1, s2, service);
      RunProtocolKeeps(env, s2, e, made.value, service);
    }
  }

  lemma PathAvailableKeeps(env: Env, s: State, e: EndpointId, info: PathInfo, service: ServiceId)
    requires env.Valid() && LayerInv(s, service)
    ensures LayerInv(OnPathAvailable(env, s, e, info), service)
  {
    if Barred(s, info.medium) {
      RefusalKeeps(env, s, e, info, service);
    } else if !ClientOf(s, e).incoming {
      if e in s.up.inProgress {
        DuplicateKeeps(s, e, service);
      } else {
        AdoptedKeeps(env, s, e, info.medium, service);
        AcceptKeeps(env, Adopted(env, s, e, info.medium), e, info, service);
      }
    }
  }

  lemma DuplicateKeeps(s: State, e: EndpointId, service: ServiceId)
    requires LayerInv(s, service)
    ensures LayerInv(DuplicateOffer(s, e), service)
  {
    DuplicateFrame(s, e);
    QuietStep(s, DuplicateOffer(s, e), service);
  }

  lemma AdoptedKeeps(env: Env, s: State, e: EndpointId, m: Medium, service: ServiceId)
    requires LayerInv(s, service)
    ensures LayerInv(Adopted(env, s, e, m), service)
  {
    AdoptedFrame(env, s, e, m);
    SameKeeps(s, Adopted(env, s, e, m), service);
  }

  lemma FrameKeeps(env: Env, s: State, e: EndpointId, f: Received, service: ServiceId)
    requires env.Valid() && LayerInv(s, service)
    ensures LayerInv(OnFrame(env, s, e, f).state, service)
  {
    match f
    case PathAvailable(Some(info)) =>
      RefusalKeeps(env, s, e, info, service);
      PathAvailableKeeps(env, s, e, info, service);
    case UpgradeFailure(Some(info)) => FailureKeeps(env, s, e, info.medium, service);
    case LastWriteToPriorChannel =>
      LastWriteFrame(env, s, e);
      QuietStep(s, OnLastWrite(env, s, e), service);
    case SafeToClosePriorChannel =>
      SafeToCloseFrame(env, s, e);
      QuietStep(s, OnSafeToClose(env, s, e), service);
    case _ =>
  }

  lemma IncomingKeeps(env: Env, s: State, c: Channel, introduced: Option<EndpointId>, service: ServiceId)
    requires LayerInv(s, service) && c.serviceId != ""
    ensures LayerInv(OnIncoming(env, s, c, introduced), service)
  {
    var (s1, id) := Introduced(env, s, c, introduced);
    IntroducedFrame(env, s, c, introduced);
    QuietStep(s, s1, service);
    if id.Some? && Target(s1, id.value).Some? {
      var e := Target(s1, id.value).value;
      SameKeeps(s1, CancelAlarm(s1, e), service);
      RunProtocolKeeps(env, CancelAlarm(s1, e), e, c, service);
    }
  }

  lemma DisconnectKeeps(env: Env, s: State, id: ServiceId, e: EndpointId, service: ServiceId)
    requires env.Valid() && LayerInv(s, service)
    ensures LayerInv(OnDisconnect(env, s, id, e), service)
  {
    var s1 := Forget(env, s, e);
    ForgetFrame(env, s, e);
    QuietStep(s, s1, service);
    RevertKeeps(env, s1, id, e, service);
  }

  lemma {:induction false} RevertHandlersKeep(env: Env, s: State, ms: seq<Medium>, service: ServiceId)
    requires env.Valid() && LayerInv(s, service)
    ensures LayerInv(RevertHandlers(env, s, ms), service)
    decreases |ms|
  {
    if ms != [] {
      var s1 := s;
      if ms[0] in s.handlers {
        var call := CallRevertAll(env.order(s.handlers[ms[0]].active.Keys));
        var r := Step(env.outcome, |s.io.log|, ms[0], s.handlers[ms[0]], call);
        HandlerKeeps(env, s, ms[0], call, r, service);
        s1 := WithHandler(s, ms[0], r);
      }
      RevertHandlersKeep(env, s1, ms[1..], service);
    }
  }

  lemma ShutDownKeeps(env: Env, s: State, service: ServiceId)
    requires env.Valid() && LayerInv(s, service)
    ensures LayerInv(DoShutDown(env, s), service)
  {
    var s0, ms := s.(retry := Retries(map[], map[])), env.handlerOrder(s.handlers.Keys);
    SameKeeps(s, s0, service);
    RevertHandlersKeep(env, s0, ms, service);
    var s1 := RevertHandlers(env, s0, ms);
    QuietStep(s1, DoShutDown(env, s), service);
  }

  lemma AlarmKeeps(env: Env, s: State, e: EndpointId, service: ServiceId)
    requires LayerInv(s, service)
    ensures LayerInv(FireAlarm(env, s, e).state, service)
  {
    var s1 := CancelAlarm(s, e);
    SameKeeps(s, s1, service);
    NextBestKeeps(env, s1, e, ClientOf(s, e).mediums, service);
  }

  lemma BeginKeeps(env: Env, s: State, op: Op, service: ServiceId)
    requires env.Valid() && LayerInv(s, service) && Admissible(s, op)
    ensures LayerInv(Begin(env, s, op).state, service)
  {
    match op
    case Initiate(e, m) => InitiateKeeps(env, s, e, m, service);
    case IncomingFrame(e, f) => FrameKeeps(env, s, e, f, service);
    case IncomingConnection(c, introduced) => IncomingKeeps(env, s, c, introduced, service);
    case EndpointDisconnect(id, e) => DisconnectKeeps(env, s, id, e, service);
    case AlarmFires(e) => AlarmKeeps(env, s, e, service);
    case Stop => ShutDownKeeps(env, s, service);
    case _ => MinorKeeps(env, s, op, service);
  }

  lemma MinorKeeps(env: Env, s: State, op: Op, service: ServiceId)
    requires LayerInv(s, service) && Admissible(s, op) && Minor(op)
    ensures LayerInv(Begin(env, s, op).state, service)
  {
    MinorFrame(env, s, op);
    QuietStep(s, Begin(env, s, op).state, service);
  }

  /**
   * In every execution over channels with service ids, with or without a medium per endpoint: under the
   * WIFI_LAN and WIFI_HOTSPOT handlers a service has a listener if and only if some endpoint holds it, and
   * the hotspot has one SoftAP running for each such service and none for any other.
   */
  lemma LayersAlwaysAgree(env: Env, mediums: set<Medium>, calls: seq<BwuSpec.Call>, service: ServiceId)
    requires env.Valid()
    requires Execution(env, Fresh(mediums), calls) && Throughout(Fresh(mediums), calls, Admissible)
    ensures var s := End(Fresh(mediums), calls);
      && (forall m :: m in s.handlers && HandlerSpec.Concrete(m) ==>
            Marked(s.handlers[m]) && s.handlers[m].listeners == s.handlers[m].active.Keys)
      && (WifiHotspot in s.handlers ==>
            Running(s.io.log, service) == if service in s.handlers[WifiHotspot].active then 1 else 0)
  {
    var inv := (s: State) => LayerInv(s, service);
    forall s, op | inv(s) && Admissible(s, op)
      ensures inv(Begin(env, s, op).state)
    {
      BeginKeeps(env, s, op, service);
    }
    forall s, e, m | inv(s)
      ensures inv(InitiateOnce(env, s, e, m).state)
    {
      InitiateKeeps(env, s, e, m, service);
    }
    ExecutionKeeps(env, Fresh(mediums), calls, inv, Admissible);
    var s := End(Fresh(mediums), calls);
    assert WifiHotspot in s.handlers ==> InStep(s.handlers[WifiHotspot]);
  }
}
