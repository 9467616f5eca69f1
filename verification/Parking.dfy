/** Displaced channels: they stay apart from the channel in use until the handshake is over. */
module Parking {
  import opened Wrappers
  import opened ServiceIds
  import opened Protocol
  import opened BwuSpec
  import opened Frames

  // -- the invariant --------------------------------------------------------

  /** An endpoint's parked channel is not the one it uses, and the one it uses is paused. */
  ghost predicate Apart(s: State) {
    forall e :: e in s.up.parked && e in s.registry ==>
      s.up.parked[e] != s.registry[e] && s.registry[e] in s.io.paused
  }

  /** No endpoint both has a parked channel and remembers an early LAST_WRITE. */
  ghost predicate Exclusive(s: State) {
    forall e :: e in s.up.parked ==> e !in s.up.latched
  }

  /** Channels in use or parked belong to one endpoint each, and all of them are known. */
  ghost predicate Owned(s: State) {
    && (forall e, f :: e in s.registry && f in s.registry && e != f ==> s.registry[e] != s.registry[f])
    && (forall e, f :: e in s.registry && f in s.up.parked && e != f ==> s.registry[e] != s.up.parked[f])
    && (forall e, f :: e in s.up.parked && f in s.up.parked && e != f ==> s.up.parked[e] != s.up.parked[f])
    && (forall e :: e in s.registry ==> s.registry[e].id < s.io.nextChannel)
    && (forall e :: e in s.up.parked ==> s.up.parked[e].id < s.io.nextChannel)
  }

  ghost predicate ParkInv(s: State) {
    Apart(s) && Exclusive(s) && Owned(s)
  }

  /** Channels that come in are new, and no channel is registered for an endpoint in mid-upgrade. */
  predicate Orderly(s: State, op: Op) {
    match op
    case RegisterChannel(e, c) => s.io.nextChannel <= c.id && e !in s.up.parked
    case IncomingConnection(c, _) => s.io.nextChannel <= c.id
    case _ => true
  }

  // -- the steps that park and unpark ---------------------------------------

  lemma OnLastWriteKeeps(env: Env, s: State, e: EndpointId)
    requires ParkInv(s)
    ensures ParkInv(OnLastWrite(env, s, e))
  {
  }

  lemma ParkKeeps(env: Env, s: State, e: EndpointId, prior: Channel)
    requires Owned(s) && prior.id < s.io.nextChannel
    requires Exclusive(s) && e in s.registry && s.registry[e] != prior && s.registry[e] in s.io.paused
    requires Apart(s)
    requires forall f :: f in s.registry ==> s.registry[f] != prior
    requires forall f :: f in s.up.parked && f != e ==> s.up.parked[f] != prior
    ensures ParkInv(Park(env, s, e, prior))
  {
    var s1 := s.(up := s.up.(parked := s.up.parked[e := prior], latched := s.up.latched - {e}));
    assert ParkInv(s1);
    var log := if e in s.up.parked then s.io.log + [Released(e, s.up.parked[e])] else s.io.log;
    OnLastWriteKeeps(env, s1.(io := s1.io.(log := log)), e);
  }

  lemma RunProtocolKeeps(env: Env, s: State, e: EndpointId, c: Channel)
    requires ParkInv(s) && c.id < s.io.nextChannel
    requires forall f :: f in s.registry ==> s.registry[f] != c
    requires forall f :: f in s.up.parked ==> s.up.parked[f] != c
    ensures ParkInv(RunProtocol(env, s, e, c))
  {
    if e in s.registry {
      var swapped := s.io.log + [Paused(c)] + [Registered(e, c)];
      var s1 := s.(registry := s.registry[e := c],
                   io := s.io.(paused := s.io.paused + {c},
                               log := swapped + [Wrote(e, s.registry[e], LastWrite, Next(env, swapped))]));
      assert ParkInv(s1);
      ParkKeeps(env, s1, e, s.registry[e]);
    }
  }

  lemma SafeToCloseKeeps(env: Env, s: State, e: EndpointId)
    requires ParkInv(s)
    ensures ParkInv(OnSafeToClose(env, s, e))
  {
  }

  lemma DuplicateKeeps(s: State, e: EndpointId)
    requires ParkInv(s)
    ensures ParkInv(DuplicateOffer(s, e))
  {
  }

  lemma AcceptKeeps(env: Env, s: State, e: EndpointId, info: PathInfo)
    requires ParkInv(s)
    ensures ParkInv(Accept(env, s, e, info))
  {
    RefusalKeeps(env, s, e, info);
    DialFrame(env, s, e, info);
    var (s1, c) := Dial(env, s, e, info);
    RefusalKeeps(env, s1, e, info);
    if c.Some? {
      RunProtocolKeeps(env, Emit(Started(s1, e), Joined(e)), e, c.value);
    }
  }

  lemma PathAvailableKeeps(env: Env, s: State, e: EndpointId, info: PathInfo)
    requires ParkInv(s)
    ensures ParkInv(OnPathAvailable(env, s, e, info))
  {
    if Barred(s, info.medium) {
      RefusalKeeps(env, s, e, info);
    } else if !ClientOf(s, e).incoming {
      if e in s.up.inProgress {
        DuplicateKeeps(s, e);
      } else {
        AdoptedFrame(env, s, e, info.medium);
        AcceptKeeps(env, Adopted(env, s, e, info.medium), e, info);
      }
    }
  }

  lemma RefusalKeeps(env: Env, s: State, e: EndpointId, info: PathInfo)
    requires ParkInv(s)
    ensures ParkInv(FailedProtocol(env, s, e, info))
  {
    FailedProtocolFrame(env, s, e, info);
  }

  lemma FrameKeeps(env: Env, s: State, e: EndpointId, f: Received)
    requires ParkInv(s)
    ensures ParkInv(OnFrame(env, s, e, f).state)
  {
    match f
    case PathAvailable(Some(info)) => RefusalKeeps(env, s, e, info); PathAvailableKeeps(env, s, e, info);
    case UpgradeFailure(Some(info)) => FailureFrame(env, s, e, info.medium);
    case LastWriteToPriorChannel => OnLastWriteKeeps(env, s, e);
    case SafeToClosePriorChannel => SafeToCloseKeeps(env, s, e);
    case _ =>
  }

  lemma IncomingKeeps(env: Env, s: State, c: Channel, introduced: Option<EndpointId>)
    requires ParkInv(s) && s.io.nextChannel <= c.id
    ensures ParkInv(OnIncoming(env, s, c, introduced))
  {
    var (s1, id) := Introduced(env, s, c, introduced);
    assert ParkInv(s1);
    if id.Some? && Target(s1, id.value).Some? {
      var e := Target(s1, id.value).value;
      RunProtocolKeeps(env, CancelAlarm(s1, e), e, c);
    }
  }

  lemma InitiateKeeps(env: Env, s: State, e: EndpointId, m: Medium)
    requires ParkInv(s)
    ensures ParkInv(InitiateOnce(env, s, e, m).state)
  {
    InitiateFrame(env, s, e, m);
  }

  lemma DisconnectKeeps(env: Env, s: State, service: ServiceId, e: EndpointId)
    requires ParkInv(s)
    ensures ParkInv(OnDisconnect(env, s, service, e))
  {
    RevertFrame(env, Forget(env, s, e), service, e);
  }

  lemma BeginKeeps(env: Env, s: State, op: Op)
    requires ParkInv(s) && Orderly(s, op)
    ensures ParkInv(Begin(env, s, op).state)
  {
    match op
    case Initiate(e, m) => InitiateKeeps(env, s, e, m);
    case IncomingFrame(e, f) => FrameKeeps(env, s, e, f);
    case IncomingConnection(c, introduced) => IncomingKeeps(env, s, c, introduced);
    case EndpointDisconnect(service, e) => DisconnectKeeps(env, s, service, e);
    case AlarmFires(e) => AlarmKeeps(env, s, e);
    case Stop => ShutDownKeeps(env, s);
    case RegisterChannel(e, c) =>
    case _ => MinorFrame(env, s, op);
  }

  lemma AlarmKeeps(env: Env, s: State, e: EndpointId)
    requires ParkInv(s)
    ensures ParkInv(FireAlarm(env, s, e).state)
  {
    NextBestFrame(env, CancelAlarm(s, e), e, ClientOf(s, e).mediums);
  }

  lemma ShutDownKeeps(env: Env, s: State)
    requires ParkInv(s)
    ensures ParkInv(DoShutDown(env, s))
  {
    RevertHandlersFrame(env, s.(retry := Retries(map[], map[])), env.handlerOrder(s.handlers.Keys));
  }

  /**
   * At every point of every orderly execution: a parked channel and the channel in use are different, the
   * latter is paused, and an endpoint with a parked channel has no early LAST_WRITE outstanding.
   */
  lemma ParkedApart(env: Env, mediums: set<Medium>, calls: seq<Call>)
    requires Execution(env, Fresh(mediums), calls) && Throughout(Fresh(mediums), calls, Orderly)
    ensures ParkInv(End(Fresh(mediums), calls))
  {
    forall s, op | ParkInv(s) && Orderly(s, op)
      ensures ParkInv(Begin(env, s, op).state)
    {
      BeginKeeps(env, s, op);
    }
    forall s, e, m | ParkInv(s)
      ensures ParkInv(InitiateOnce(env, s, e, m).state)
    {
      InitiateKeeps(env, s, e, m);
    }
    ExecutionKeeps(env, Fresh(mediums), calls, ParkInv, Orderly);
  }
}
