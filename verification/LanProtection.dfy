/** WIFI_LAN connections are protected: no hotspot is asked for while any endpoint is on WIFI_LAN. */
module LanProtection {
  import opened Wrappers
  import opened ServiceIds
  import opened Protocol
  import opened BwuSpec
  import opened Frames

  /** The hotspot handler is asked for a SoftAP or to join one. */
  predicate AsksHotspot(event: Event) {
    (event.Initialize? || event.Create?) && event.medium == WifiHotspot
  }

  /** The registry as the log tells it. */
  function RegistryAt(log: Log): map<EndpointId, Channel> {
    if log == [] then map[] else Updated(RegistryAt(log[..|log| - 1]), log[|log| - 1])
  }

  function Updated(registry: map<EndpointId, Channel>, event: Event): map<EndpointId, Channel> {
    match event
    case Registered(e, c) => registry[e := c]
    case Unregistered(e) => registry - {e}
    case _ => registry
  }

  predicate OnLan(registry: map<EndpointId, Channel>) {
    exists e :: e in registry && registry[e].medium == WifiLan
  }

  predicate Protected(log: Log) {
    log == [] || (
      && Protected(log[..|log| - 1])
      && (AsksHotspot(log[|log| - 1]) ==> !OnLan(RegistryAt(log[..|log| - 1]))))
  }

  ghost predicate LanInv(s: State) {
    s.registry == RegistryAt(s.io.log) && Protected(s.io.log)
  }

  lemma Snoc(log: Log, event: Event)
    ensures RegistryAt(log + [event]) == Updated(RegistryAt(log), event)
    ensures Protected(log + [event]) <==> Protected(log) && (AsksHotspot(event) ==> !OnLan(RegistryAt(log)))
  {
    assert (log + [event])[..|log|] == log;
  }

  predicate Registering(event: Event) {
    event.Registered? || event.Unregistered?
  }

  predicate Neutral(event: Event) {
    !Registering(event) && !AsksHotspot(event)
  }

  lemma {:induction false} LogKept(log: Log, longer: Log)
    requires |log| <= |longer| && longer[..|log|] == log && Protected(log)
    requires forall i :: |log| <= i < |longer| ==> !Registering(longer[i])
    requires OnLan(RegistryAt(log)) ==> forall i :: |log| <= i < |longer| ==> !AsksHotspot(longer[i])
    ensures RegistryAt(longer) == RegistryAt(log) && Protected(longer)
    decreases |longer|
  {
    if |longer| > |log| {
      assert longer[..|longer| - 1][..|log|] == log;
      LogKept(log, longer[..|longer| - 1]);
    } else {
      assert longer == log;
    }
  }

  lemma NeutralStep(s: State, t: State)
    requires LanInv(s) && t.registry == s.registry && Extends(s, t, Neutral)
    ensures LanInv(t)
  {
    LogKept(s.io.log, t.io.log);
  }

  /** Unless it is barred, an attempt may ask for a hotspot. */
  lemma OfferProtected(env: Env, s: State, e: EndpointId, m: Medium)
    requires LanInv(s) && HasHandler(s, m) && e in s.registry && !Barred(s, m)
    ensures LanInv(MakeOffer(env, s, e, m).0)
  {
    OfferFrame(env, s, e, m);
    LogKept(s.io.log, MakeOffer(env, s, e, m).0.io.log);
  }

  lemma FailureProtected(env: Env, s: State, e: EndpointId, last: Medium)
    requires LanInv(s)
    ensures LanInv(FailureOnce(env, s, e, last).state)
  {
    var t := FailureOnce(env, s, e, last).state;
    FailureFrame(env, s, e, last);
    UndoingProtected(s, t, e);
  }

  lemma UndoingProtected(s: State, t: State, e: EndpointId)
    requires LanInv(s) && t.registry == s.registry && Extends(s, t, event => ByUndoing(event, e))
    ensures LanInv(t)
  {
    NeutralStep(s, t);
  }

  lemma AttemptProtected(env: Env, s: State, e: EndpointId, m: Medium)
    requires LanInv(s) && HasHandler(s, m) && e in s.registry && !Barred(s, m)
    ensures LanInv(Attempt(env, s, e, m).state)
  {
    var (s1, ok) := MakeOffer(env, s, e, m);
    OfferProtected(env, s, e, m);
    if !ok {
      FailureProtected(env, s1, e, OnWire(m));
    }
  }

  lemma InitiateProtected(env: Env, s: State, e: EndpointId, m: Medium)
    requires LanInv(s)
    ensures LanInv(InitiateOnce(env, s, e, m).state)
  {
    PreliminariesFrame(env, s, e, m);
    if Viable(s, e, m) {
      AttemptProtected(env, Readied(env, s, e, m), e, m);
    }
  }

  lemma RefusalProtected(env: Env, s: State, e: EndpointId, info: PathInfo)
    requires LanInv(s)
    ensures LanInv(FailedProtocol(env, s, e, info))
  {
    FailedProtocolFrame(env, s, e, info);
    NeutralStep(s, FailedProtocol(env, s, e, info));
  }

  lemma RunProtocolProtected(env: Env, s: State, e: EndpointId, c: Channel)
    requires LanInv(s)
    ensures LanInv(RunProtocol(env, s, e, c))
  {
    if e in s.registry {
      var swapped := s.io.log + [Paused(c)] + [Registered(e, c)];
      var prior, ok := s.registry[e], Next(env, swapped);
      var s1 := s.(registry := s.registry[e := c],
                   io := s.io.(paused := s.io.paused + {c}, log := swapped + [Wrote(e, prior, LastWrite, ok)]));
      SwapLog(s.io.log, e, prior, c, ok);
      ParkProtected(env, s1, e, prior);
    } else {
      Snoc(s.io.log, Paused(c));
    }
  }

  lemma SwapLog(log: Log, e: EndpointId, prior: Channel, c: Channel, ok: bool)
    requires Protected(log)
    ensures var t := log + [Paused(c)] + [Registered(e, c)] + [Wrote(e, prior, LastWrite, ok)];
      Protected(t) && RegistryAt(t) == RegistryAt(log)[e := c]
  {
    Snoc(log, Paused(c));
    Snoc(log + [Paused(c)], Registered(e, c));
    Snoc(log + [Paused(c)] + [Registered(e, c)], Wrote(e, prior, LastWrite, ok));
  }

  lemma ParkProtected(env: Env, s: State, e: EndpointId, prior: Channel)
    requires LanInv(s)
    ensures LanInv(Park(env, s, e, prior))
  {
    ParkFrame(env, s, e, prior);
    NeutralStep(s, Park(env, s, e, prior));
  }

  lemma AcceptProtected(env: Env, s: State, e: EndpointId, info: PathInfo)
    requires LanInv(s) && !Barred(s, info.medium)
    ensures LanInv(Accept(env, s, e, info))
  {
    if info.medium != MediumFor(env, s, e) {
      RefusalProtected(env, s, e, info);
    } else {
      var (s1, made) := Dial(env, s, e, info);
      DialProtected(env, s, e, info, s1);
      if made.None? {
        RefusalProtected(env, s1, e, info);
      } else {
        Snoc(s1.io.log, Joined(e));
        RunProtocolProtected(env, Emit(Started(s1, e), Joined(e)), e, made.value);
      }
    }
  }

  lemma DialProtected(env: Env, s: State, e: EndpointId, info: PathInfo, t: State)
    requires LanInv(s) && !Barred(s, info.medium) && t == Dial(env, s, e, info).0
    ensures LanInv(t)
  {
    DialFrame(env, s, e, info);
    LogKept(s.io.log, t.io.log);
  }

  lemma PathAvailableProtected(env: Env, s: State, e: EndpointId, info: PathInfo)
    requires LanInv(s)
    ensures LanInv(OnPathAvailable(env, s, e, info))
  {
    if Barred(s, info.medium) {
      RefusalProtected(env, s, e, info);
    } else if !ClientOf(s, e).incoming {
      if e in s.up.inProgress {
        DuplicateFrame(s, e);
        NeutralStep(s, DuplicateOffer(s, e));
      } else {
        AdoptedFrame(env, s, e, info.medium);
        AcceptProtected(env, Adopted(env, s, e, info.medium), e, info);
      }
    }
  }

  lemma FrameProtected(env: Env, s: State, e: EndpointId, f: Received)
    requires LanInv(s)
    ensures LanInv(OnFrame(env, s, e, f).state)
  {
    match f
    case PathAvailable(Some(info)) => RefusalProtected(env, s, e, info); PathAvailableProtected(env, s, e, info);
    case UpgradeFailure(Some(info)) =>
      FailureProtected(env, s, e, info.medium);
    case LastWriteToPriorChannel =>
      LastWriteFrame(env, s, e);
      NeutralStep(s, OnLastWrite(env, s, e));
    case SafeToClosePriorChannel =>
      SafeToCloseFrame(env, s, e);
      NeutralStep(s, OnSafeToClose(env, s, e));
    case _ =>
  }

  lemma IncomingProtected(env: Env, s: State, c: Channel, introduced: Option<EndpointId>)
    requires LanInv(s)
    ensures LanInv(OnIncoming(env, s, c, introduced))
  {
    var (s1, id) := Introduced(env, s, c, introduced);
    IntroducedFrame(env, s, c, introduced);
    NeutralStep(s, s1);
    if id.Some? && Target(s1, id.value).Some? {
      var e := Target(s1, id.value).value;
      RunProtocolProtected(env, CancelAlarm(s1, e), e, c);
    }
  }

  lemma DisconnectProtected(env: Env, s: State, service: ServiceId, e: EndpointId)
    requires LanInv(s)
    ensures LanInv(OnDisconnect(env, s, service, e))
  {
    ForgetProtected(env, s, e);
    RevertProtected(env, Forget(env, s, e), service, e);
  }

  lemma ForgetProtected(env: Env, s: State, e: EndpointId)
    requires LanInv(s)
    ensures LanInv(Forget(env, s, e))
  {
    ForgetFrame(env, s, e);
    NeutralStep(s, Forget(env, s, e));
  }

  lemma RevertProtected(env: Env, s: State, service: ServiceId, e: EndpointId)
    requires LanInv(s)
    ensures LanInv(Revert(env, s, service, e))
  {
    RevertFrame(env, s, service, e);
    NeutralStep(s, Revert(env, s, service, e));
  }

  lemma ShutDownProtected(env: Env, s: State)
    requires LanInv(s)
    ensures LanInv(DoShutDown(env, s))
  {
    var s0, ms := s.(retry := Retries(map[], map[])), env.handlerOrder(s.handlers.Keys);
    RevertHandlersFrame(env, s0, ms);
    NeutralStep(s0, RevertHandlers(env, s0, ms));
    NeutralStep(RevertHandlers(env, s0, ms), DoShutDown(env, s));
  }

  lemma AlarmProtected(env: Env, s: State, e: EndpointId)
    requires LanInv(s)
    ensures LanInv(FireAlarm(env, s, e).state)
  {
    var s1 := CancelAlarm(s, e);
    if e in s.retry.alarms && ClientOf(s, e).connected {
      NextBestFrame(env, s1, e, ClientOf(s, e).mediums);
      UndoingProtected(s1, FireAlarm(env, s, e).state, e);
    }
  }

  lemma RegistryProtected(s: State, e: EndpointId, c: Channel)
    requires LanInv(s)
    ensures LanInv(Register(s, e, c))
  {
    Snoc(s.io.log, Registered(e, c));
  }

  lemma BeginProtected(env: Env, s: State, op: Op)
    requires LanInv(s)
    ensures LanInv(Begin(env, s, op).state)
  {
    match op
    case Initiate(e, m) => InitiateProtected(env, s, e, m);
    case IncomingFrame(e, f) => FrameProtected(env, s, e, f);
    case IncomingConnection(c, introduced) => IncomingProtected(env, s, c, introduced);
    case EndpointDisconnect(service, e) => DisconnectProtected(env, s, service, e);
    case AlarmFires(e) =>
      AlarmProtected(env, s, e);
    case Stop => ShutDownProtected(env, s);
    case RegisterChannel(e, c) => RegistryProtected(s, e, c);
    case UnregisterChannel(e) => Snoc(s.io.log, Unregistered(e));
    case _ =>
      var t := Begin(env, s, op).state;
      assert t.registry == s.registry && t.io.log == s.io.log;
  }

  lemma {:induction false} ProtectedAt(log: Log, i: nat)
    requires Protected(log) && i < |log| && AsksHotspot(log[i])
    ensures !OnLan(RegistryAt(log[..i]))
    decreases |log|
  {
    if i < |log| - 1 {
      ProtectedAt(log[..|log| - 1], i);
      assert log[..|log| - 1][..i] == log[..i];
    }
  }

  /**
   * In every execution, whoever calls what and whatever fails: at no point of the log is the hotspot handler
   * asked for anything while some endpoint's registered channel is WIFI_LAN.
   */
  lemma LanIsProtected(env: Env, mediums: set<Medium>, calls: seq<Call>, i: nat)
    requires Execution(env, Fresh(mediums), calls)
    requires var log := End(Fresh(mediums), calls).io.log; i < |log| && AsksHotspot(log[i])
    ensures !OnLan(RegistryAt(End(Fresh(mediums), calls).io.log[..i]))
    ensures RegistryAt(End(Fresh(mediums), calls).io.log) == End(Fresh(mediums), calls).registry
  {
    var any := (s: State, op: Op) => true;
    forall s, op | LanInv(s) && any(s, op)
      ensures LanInv(Begin(env, s, op).state)
    {
      BeginProtected(env, s, op);
    }
    forall s, e, m | LanInv(s)
      ensures LanInv(InitiateOnce(env, s, e, m).state)
    {
      InitiateProtected(env, s, e, m);
    }
    ExecutionKeeps(env, Fresh(mediums), calls, LanInv, any);
    ProtectedAt(End(Fresh(mediums), calls).io.log, i);
  }
}
