/** Endpoint isolation: work for one endpoint leaves the others alone, except where all share one medium. */
module Isolation {
  import opened Wrappers
  import opened ServiceIds
  import opened Protocol
  import opened BwuSpec
  import opened HandlerSpec
  import opened Frames
  import Parking

  predicate Agree<K, V(==)>(m: map<K, V>, n: map<K, V>, k: K) {
    (k in m <==> k in n) && (k in m ==> m[k] == n[k])
  }

  /** Everything the manager and the registry keep about one endpoint is the same. */
  predicate SameEntries(s: State, t: State, e: EndpointId) {
    && Agree(s.mediums.mediumOf, t.mediums.mediumOf, e)
    && (e in s.up.inProgress <==> e in t.up.inProgress)
    && Agree(s.up.parked, t.up.parked, e)
    && (e in s.up.latched <==> e in t.up.latched)
    && Agree(s.retry.alarms, t.retry.alarms, e)
    && Agree(s.retry.delays, t.retry.delays, e)
    && Agree(s.registry, t.registry, e)
    && (e in s.registry ==> (s.registry[e] in s.io.paused <==> s.registry[e] in t.io.paused))
    && (e in s.up.parked ==> (s.up.parked[e] in s.io.paused <==> s.up.parked[e] in t.io.paused))
  }

  /** `e` keeps the same mediums up for the same services. */
  ghost predicate SameHoldings(s: State, t: State, e: EndpointId) {
    && s.handlers.Keys == t.handlers.Keys
    && forall m, service :: m in s.handlers ==> (Holds(s.handlers[m], service, e) <==> Holds(t.handlers[m], service, e))
  }

  ghost predicate HoldsNothing(s: State, e: EndpointId) {
    forall m, service :: m in s.handlers ==> !Holds(s.handlers[m], service, e)
  }

  /** Mediums are given up one endpoint at a time, or `e` has none to lose. */
  ghost predicate Shielded(env: Env, s: State, e: EndpointId) {
    env.config.multipleMediums || HoldsNothing(s, e)
  }

  ghost predicate Unaffected(s: State, t: State, e: EndpointId) {
    SameEntries(s, t, e) && SameHoldings(s, t, e)
  }

  /** No endpoint uses a channel of another, and every channel in use is known. */
  ghost predicate Unshared(s: State) {
    && (forall e, f :: e in s.registry && f in s.registry && e != f ==> s.registry[e] != s.registry[f])
    && (forall e, f :: e in s.registry && f in s.up.parked && e != f ==> s.registry[e] != s.up.parked[f])
    && (forall e :: e in s.registry ==> s.registry[e].id < s.io.nextChannel)
    && (forall e :: e in s.up.parked ==> s.up.parked[e].id < s.io.nextChannel)
  }

  // -- handlers -------------------------------------------------------------

  lemma HandlerStep(s: State, m: Medium, r: Result, other: EndpointId)
    requires m in s.handlers
    requires forall service :: Holds(s.handlers[m], service, other) <==> Holds(r.handler, service, other)
    ensures Unaffected(s, WithHandler(s, m, r), other)
  {
  }

  lemma RevertIsolated(env: Env, s: State, service: ServiceId, e: EndpointId, other: EndpointId)
    requires Shielded(env, s, other) && e != other
    ensures Unaffected(s, Revert(env, s, service, e), other)
  {
    var m := MediumFor(env, s, e);
    if !env.config.multipleMediums {
      SharedRevertEntries(env, s, service, e, other);
      return;
    }
    var s1 := s.(mediums := s.mediums.(mediumOf := s.mediums.mediumOf - {e}));
    assert Unaffected(s, s1, other);
    if HasHandler(s1, m) {
      if IsInitiator(service) {
        HandlerStep(s1, m, RevertEndpoint(m, s1.handlers[m], service, e), other);
      } else if m == WifiHotspot || m == WifiDirect {
        HandlerStep(s1, m, TearDown(m, s1.handlers[m], service), other);
      }
    }
  }

  /** With one medium for all, a revert takes that medium from everybody. */
  lemma SharedRevertEntries(env: Env, s: State, service: ServiceId, e: EndpointId, other: EndpointId)
    requires !env.config.multipleMediums
    ensures SameEntries(s, Revert(env, s, service, e), other)
    ensures SameHoldings(s, Revert(env, s, service, e), other) <==> HoldsNothingOn(s, s.mediums.medium, other)
  {
    var m, t := s.mediums.medium, Revert(env, s, service, e);
    if HasHandler(s, m) {
      assert t.handlers[m].active == map[];
      if SameHoldings(s, t, other) {
        forall v
          ensures !Holds(s.handlers[m], v, other)
        {
          assert Holds(s.handlers[m], v, other) <==> Holds(t.handlers[m], v, other);
        }
      }
    }
  }

  ghost predicate HoldsNothingOn(s: State, m: Medium, e: EndpointId) {
    HasHandler(s, m) ==> forall service :: !Holds(s.handlers[m], service, e)
  }

  /**
   * With one medium for all, refusing an offer of `e` leaves the holdings of another endpoint alone exactly if there
   * is no channel, the peer cannot be told, or the other endpoint holds nothing on the medium on record.
   */
  lemma RefusalTakesSharedMedium(env: Env, s: State, e: EndpointId, info: PathInfo, other: EndpointId)
    requires !env.config.multipleMediums && e != other
    ensures SameEntries(s, FailedProtocol(env, s, e, info), other)
    ensures SameHoldings(s, FailedProtocol(env, s, e, info), other)
       <==> e !in s.registry || !Next(env, s.io.log) || HoldsNothingOn(s, s.mediums.medium, other)
  {
    if e in s.registry && Next(env, s.io.log) {
      var s1 := Emit(s, Wrote(e, s.registry[e], UpgradeFailed(info), Next(env, s.io.log)));
      SharedRevertEntries(env, s1, s.registry[e].serviceId, e, other);
    }
  }

  /** The same for a reported failure and for a disconnect, which revert nothing while several channels are in use. */
  lemma FailureTakesSharedMedium(env: Env, s: State, e: EndpointId, last: Medium, other: EndpointId)
    requires !env.config.multipleMediums && e != other
    ensures SameHoldings(s, FailureOnce(env, s, e, last).state, other)
       <==> |s.registry| > 1 || HoldsNothingOn(s, s.mediums.medium, other)
  {
    if |s.registry| <= 1 {
      var u, untried := Undone(env, s, e), After(ClientOf(s, e).mediums, last);
      UndoneTakesSharedMedium(env, s, e, u, other);
      NextBestHandlers(env, u, e, untried);
      SameHandlers(u, NextBestOnce(env, u, e, untried).state, s, other);
    }
  }

  lemma UndoneTakesSharedMedium(env: Env, s: State, e: EndpointId, t: State, other: EndpointId)
    requires !env.config.multipleMediums && t == Undone(env, s, e)
    ensures SameHoldings(s, t, other) <==> HoldsNothingOn(s, s.mediums.medium, other)
  {
    var s1 := Stopped(s, e);
    var service := if e in s1.registry then s1.registry[e].serviceId else UNKNOWN_SERVICE_ID;
    SharedRevertEntries(env, s1, Wrap(service), e, other);
  }

  lemma DisconnectTakesSharedMedium(env: Env, s: State, service: ServiceId, e: EndpointId, other: EndpointId)
    requires !env.config.multipleMediums && e != other
    ensures SameHoldings(s, OnDisconnect(env, s, service, e), other)
       <==> |s.registry| > 1 || HoldsNothingOn(s, s.mediums.medium, other)
  {
    if |s.registry| <= 1 {
      SharedRevertEntries(env, Forget(env, s, e), service, e, other);
    }
  }

  lemma SameHandlers(t: State, u: State, s: State, e: EndpointId)
    requires t.handlers == u.handlers
    ensures SameHoldings(s, t, e) <==> SameHoldings(s, u, e)
  {
  }

  // -- the failover ---------------------------------------------------------

  lemma FailureIsolated(env: Env, s: State, e: EndpointId, last: Medium, other: EndpointId)
    requires Shielded(env, s, other) && e != other
    ensures Unaffected(s, FailureOnce(env, s, e, last).state, other)
  {
    UndoneIsolated(env, s, e, other);
    NextBestIsolated(env, Undone(env, s, e), e, After(ClientOf(s, e).mediums, last), other);
  }

  lemma UndoneIsolated(env: Env, s: State, e: EndpointId, other: EndpointId)
    requires Shielded(env, s, other) && e != other
    ensures Unaffected(s, Undone(env, s, e), other)
  {
    var s1 := Stopped(s, e);
    var service := if e in s1.registry then s1.registry[e].serviceId else UNKNOWN_SERVICE_ID;
    RevertIsolated(env, s1, Wrap(service), e, other);
  }

  lemma NextBestIsolated(env: Env, s: State, e: EndpointId, untried: seq<Medium>, other: EndpointId)
    requires Shielded(env, s, other) && e != other
    ensures Unaffected(s, NextBestOnce(env, s, e, untried).state, other)
  {
  }

  lemma AttemptIsolated(env: Env, s: State, e: EndpointId, m: Medium, other: EndpointId)
    requires Shielded(env, s, other) && e != other && HasHandler(s, m) && e in s.registry
    ensures Unaffected(s, Attempt(env, s, e, m).state, other)
  {
    var up := HandlerSpec.Init(env.outcome, |s.io.log|, m, s.handlers[m], s.registry[e].serviceId, e);
    HandlerStep(s, m, up, other);
    FailureIsolated(env, MakeOffer(env, s, e, m).0, e, OnWire(m), other);
  }

  lemma InitiateIsolated(env: Env, s: State, e: EndpointId, m: Medium, other: EndpointId)
    requires Shielded(env, s, other) && e != other
    ensures Unaffected(s, InitiateOnce(env, s, e, m).state, other)
  {
    var s1 := Readied(env, s, e, m);
    PreliminariesIsolated(env, s, e, m, s1, Declined(env, s, e, m), other);
    if Viable(s, e, m) {
      AttemptIsolated(env, s1, e, m, other);
      UnaffectedTwice(s, s1, Attempt(env, s1, e, m).state, other);
    }
  }

  lemma PreliminariesIsolated(env: Env, s: State, e: EndpointId, m: Medium, t: State, u: State, other: EndpointId)
    requires e != other && t == Readied(env, s, e, m) && u == Declined(env, s, e, m)
    ensures Unaffected(s, t, other) && Unaffected(s, u, other)
  {
    SetMediumIsolated(env, s, e, m, SetMedium(env, s, e, m), other);
    CancelIsolated(SetMedium(env, s, e, m), e, t, other);
    UnaffectedTwice(s, SetMedium(env, s, e, m), t, other);
  }

  lemma SetMediumIsolated(env: Env, s: State, e: EndpointId, m: Medium, t: State, other: EndpointId)
    requires e != other && t == SetMedium(env, s, e, m)
    ensures Unaffected(s, t, other)
  {
  }

  lemma CancelIsolated(s: State, e: EndpointId, t: State, other: EndpointId)
    requires e != other && t == CancelAlarm(s, e)
    ensures Unaffected(s, t, other)
  {
  }

  lemma UnaffectedTwice(s: State, t: State, u: State, e: EndpointId)
    requires Unaffected(s, t, e) && Unaffected(t, u, e)
    ensures Unaffected(s, u, e)
  {
  }

  // -- the responder and the protocol ---------------------------------------

  lemma FailedProtocolIsolated(env: Env, s: State, e: EndpointId, info: PathInfo, other: EndpointId)
    requires Shielded(env, s, other) && e != other
    ensures Unaffected(s, FailedProtocol(env, s, e, info), other)
  {
    if e in s.registry {
      var s1 := Emit(s, Wrote(e, s.registry[e], UpgradeFailed(info), Next(env, s.io.log)));
      RevertIsolated(env, s1, s.registry[e].serviceId, e, other);
    }
  }

  lemma RunProtocolIsolated(env: Env, s: State, e: EndpointId, c: Channel, other: EndpointId)
    requires e != other
    requires other in s.registry ==> s.registry[other] != c
    requires other in s.up.parked ==> s.up.parked[other] != c
    ensures Unaffected(s, RunProtocol(env, s, e, c), other)
  {
  }

  lemma PathAvailableIsolated(env: Env, s: State, e: EndpointId, info: PathInfo, other: EndpointId)
    requires Shielded(env, s, other) && e != other && Unshared(s)
    ensures Unaffected(s, OnPathAvailable(env, s, e, info), other)
  {
    if Barred(s, info.medium) {
      FailedProtocolIsolated(env, s, e, info, other);
    } else if !ClientOf(s, e).incoming && e !in s.up.inProgress {
      AdoptedFrame(env, s, e, info.medium);
      AcceptIsolated(env, Adopted(env, s, e, info.medium), e, info, other);
    }
  }

  lemma AcceptIsolated(env: Env, s: State, e: EndpointId, info: PathInfo, other: EndpointId)
    requires Shielded(env, s, other) && e != other && Unshared(s)
    ensures Unaffected(s, Accept(env, s, e, info), other)
  {
    FailedProtocolIsolated(env, s, e, info, other);
    DialFrame(env, s, e, info);
    var (s1, c) := Dial(env, s, e, info);
    FailedProtocolIsolated(env, s1, e, info, other);
    if c.Some? {
      RunProtocolIsolated(env, Emit(Started(s1, e), Joined(e)), e, c.value, other);
    }
  }

  lemma SafeToCloseIsolated(env: Env, s: State, e: EndpointId, other: EndpointId)
    requires e != other && Unshared(s)
    ensures Unaffected(s, OnSafeToClose(env, s, e), other)
  {
  }

  lemma LastWriteIsolated(env: Env, s: State, e: EndpointId, other: EndpointId)
    requires e != other
    ensures Unaffected(s, OnLastWrite(env, s, e), other)
  {
  }

  lemma DisconnectIsolated(env: Env, s: State, service: ServiceId, e: EndpointId, other: EndpointId)
    requires Shielded(env, s, other) && e != other
    ensures Unaffected(s, OnDisconnect(env, s, service, e), other)
  {
    RevertIsolated(env, Forget(env, s, e), service, e, other);
  }

  // -- every operation ------------------------------------------------------

  /** The endpoints an operation is about. A socket is for the endpoint it names or the only one upgrading. */
  function Concerned(s: State, op: Op): set<EndpointId>
    requires !op.Stop?
  {
    if !op.IncomingConnection? then {op.e}
    else if op.introduced.None? then {}
    else if op.introduced.value in s.up.inProgress then {op.introduced.value}
    else if |s.up.inProgress| == 1 then s.up.inProgress
    else {}
  }

  lemma IncomingIsolated(env: Env, s: State, c: Channel, introduced: Option<EndpointId>, other: EndpointId)
    requires Unshared(s) && s.io.nextChannel <= c.id
    requires other !in Concerned(s, IncomingConnection(c, introduced))
    ensures Unaffected(s, OnIncoming(env, s, c, introduced), other)
  {
    var (s1, id) := Introduced(env, s, c, introduced);
    if id.Some? && Target(s1, id.value).Some? {
      var e := Target(s1, id.value).value;
      RunProtocolIsolated(env, CancelAlarm(s1, e), e, c, other);
    }
  }

  lemma FrameIsolated(env: Env, s: State, e: EndpointId, f: Received, other: EndpointId)
    requires Shielded(env, s, other) && Unshared(s) && e != other
    ensures Unaffected(s, OnFrame(env, s, e, f).state, other)
  {
    match f
    case PathAvailable(Some(info)) =>
      FailedProtocolIsolated(env, s, e, info, other);
      PathAvailableIsolated(env, s, e, info, other);
    case UpgradeFailure(Some(info)) => FailureIsolated(env, s, e, info.medium, other);
    case LastWriteToPriorChannel => LastWriteIsolated(env, s, e, other);
    case SafeToClosePriorChannel => SafeToCloseIsolated(env, s, e, other);
    case _ =>
  }

  lemma AlarmIsolated(env: Env, s: State, e: EndpointId, other: EndpointId)
    requires Shielded(env, s, other) && e != other
    ensures Unaffected(s, FireAlarm(env, s, e).state, other)
  {
    NextBestIsolated(env, CancelAlarm(s, e), e, ClientOf(s, e).mediums, other);
  }

  lemma BeginIsolated(env: Env, s: State, op: Op, o: Outcome, other: EndpointId)
    requires Shielded(env, s, other) && Unshared(s) && !op.Stop?
    requires op.IncomingConnection? ==> s.io.nextChannel <= op.c.id
    requires other !in Concerned(s, op) && o == Begin(env, s, op)
    ensures Unaffected(s, o.state, other)
    ensures o.Again? ==> Subject(op) != other
  {
    match op
    case Initiate(e, m) => InitiateIsolated(env, s, e, m, other);
    case IncomingFrame(e, f) => FrameIsolated(env, s, e, f, other);
    case IncomingConnection(c, introduced) => IncomingIsolated(env, s, c, introduced, other);
    case EndpointDisconnect(service, e) => DisconnectIsolated(env, s, service, e, other);
    case AlarmFires(e) => AlarmIsolated(env, s, e, other);
    case _ =>
  }

  lemma {:induction false} RoundsIsolated(env: Env, s: State, e: EndpointId, os: seq<Outcome>, other: EndpointId)
    requires Shielded(env, s, other) && e != other
    requires Rounds(env, e, os) && Unaffected(s, os[0].state, other)
    ensures Unaffected(s, os[|os| - 1].state, other)
    decreases |os|
  {
    if |os| > 1 {
      InitiateIsolated(env, os[0].state, e, os[0].medium, other);
      RoundsTail(env, e, os);
      RoundsIsolated(env, s, e, os[1..], other);
    }
  }

  /** A whole call, through every re-initiation of its failover, leaves the other endpoints as they were. */
  lemma CallIsolated(env: Env, s: State, call: Call, other: EndpointId)
    requires Shielded(env, s, other) && Unshared(s) && !call.op.Stop?
    requires call.op.IncomingConnection? ==> s.io.nextChannel <= call.op.c.id
    requires other !in Concerned(s, call.op)
    requires Rounds(env, Subject(call.op), call.rounds) && call.rounds[0] == Begin(env, s, call.op)
    ensures Unaffected(s, call.rounds[|call.rounds| - 1].state, other)
  {
    BeginIsolated(env, s, call.op, call.rounds[0], other);
    if |call.rounds| > 1 {
      RoundsIsolated(env, s, Subject(call.op), call.rounds, other);
    }
  }

  lemma OwnedIsUnshared(s: State)
    requires Parking.ParkInv(s)
    ensures Unshared(s)
  {
  }

  /**
   * In every orderly run, no call but a shutdown affects an endpoint it does not concern, if there is a medium per
   * endpoint or that endpoint holds none.
   */
  lemma RunIsolated(env: Env, mediums: set<Medium>, calls: seq<Call>, i: nat, other: EndpointId)
    requires Execution(env, Fresh(mediums), calls) && Throughout(Fresh(mediums), calls, Parking.Orderly) && i < |calls|
    requires var s := End(Fresh(mediums), calls[..i]);
      Shielded(env, s, other) && !calls[i].op.Stop? && other !in Concerned(s, calls[i].op)
    ensures Unaffected(End(Fresh(mediums), calls[..i]), End(Fresh(mediums), calls[..i + 1]), other)
  {
    var s := End(Fresh(mediums), calls[..i]);
    CallAt(env, Fresh(mediums), calls, Parking.Orderly, i);
    Parking.ParkedApart(env, mediums, calls[..i]);
    OwnedIsUnshared(s);
    CallIsolated(env, s, calls[i], other);
  }
}
