/** Which calls are held up by a paused channel, over whole runs: none but those that write on a channel in mid-upgrade. */
module HeldUp {
  import opened Wrappers
  import opened ServiceIds
  import opened Protocol
  import opened BwuSpec
  import opened Waiting
  import Failover
  import Frames
  import Parking

  // -- one call -------------------------------------------------------------

  /** Every paused channel and every channel in use is known. */
  ghost predicate Known(s: State) {
    && (forall c :: c in s.io.paused ==> c.id < s.io.nextChannel)
    && (forall e :: e in s.registry ==> s.registry[e].id < s.io.nextChannel)
  }

  /** A dial writes on a new channel only. */
  lemma DialIsFree(env: Env, s: State, e: EndpointId, info: PathInfo, t: State)
    requires Known(s) && t == Dial(env, s, e, info).0
    ensures Follows(s, t) && Freely(s, t) && t == s.(io := t.io) && t.io.paused == s.io.paused
    ensures s.io.nextChannel <= t.io.nextChannel
    ensures var made := Dial(env, s, e, info).1; made.Some? ==> s.io.nextChannel <= made.value.id < t.io.nextChannel
  {
    Frames.DialFrame(env, s, e, info);
    if !HasHandler(s, info.medium) || e !in s.registry {
      Quietly(s, t);
    } else {
      var create := Create(info.medium, s.registry[e].serviceId, e, Next(env, s.io.log));
      var s1 := s.(io := s.io.(log := s.io.log + [create]));
      One(s, s1, create);
      if create.ok {
        var c := Channel(s.io.nextChannel, info.medium, s.registry[e].serviceId);
        var s2 := s1.(io := s1.io.(log := Introduce(env, s1.io.log, e, c, info.introductionAck).0));
        IntroduceIsFree(env, s1, e, c, info.introductionAck, s2);
        Then(s, s1, s2);
      }
    }
  }

  lemma IntroduceIsFree(env: Env, s: State, e: EndpointId, c: Channel, ack: bool, t: State)
    requires c !in s.io.paused && t == s.(io := s.io.(log := Introduce(env, s.io.log, e, c, ack).0))
    ensures Follows(s, t) && Freely(s, t)
  {
    var wrote := Wrote(e, c, Introduction, Next(env, s.io.log));
    var s1 := Emit(s, wrote);
    One(s, s1, wrote);
    if !wrote.ok {
      One(s1, t, Discarded(c));
      Then(s, s1, t);
    } else if ack {
      var read := AckRead(c, Next(env, s1.io.log));
      if read.ok {
        One(s1, t, read);
      } else {
        Two(s1, t, read, Discarded(c));
      }
      Then(s, s1, t);
    }
  }

  lemma IntroducedIsFree(env: Env, s: State, c: Channel, introduced: Option<EndpointId>, t: State)
    requires c !in s.io.paused && t == Introduced(env, s, c, introduced).0
    ensures Follows(s, t) && Freely(s, t) && t == s.(io := t.io) && t.io.paused == s.io.paused
    ensures s.io.nextChannel <= t.io.nextChannel && c.id < t.io.nextChannel
  {
    Frames.IntroducedFrame(env, s, c, introduced);
    var read := IntroductionRead(c, introduced.Some?);
    if introduced.None? {
      Two(s, t, read, Discarded(c));
    } else {
      var acked := AckWritten(c, Next(env, s.io.log + [read]));
      var s1 := s.(io := s.io.(log := s.io.log + [read] + [acked]));
      Two(s, s1, read, acked);
      if !acked.ok {
        One(s1, t, Discarded(c));
        Then(s, s1, t);
      }
    }
  }

  /** Meeting an offer is held up exactly if the channel in use is paused: by LAST_WRITE, or by the failure notice. */
  lemma AcceptWaits(env: Env, s: State, e: EndpointId, info: PathInfo, t: State)
    requires Known(s) && t == Accept(env, s, e, info)
    ensures Follows(s, t) && (Freely(s, t) <==> !OnHold(s, e))
  {
    if info.medium != MediumFor(env, s, e) {
      RefusalWaits(env, s, e, info, t);
    } else {
      var (s1, made) := Dial(env, s, e, info);
      DialIsFree(env, s, e, info, s1);
      if made.None? {
        RefusalWaits(env, s1, e, info, t);
      } else {
        JoinedWaits(env, s1, e, made.value, t);
      }
      Then(s, s1, t);
    }
  }

  lemma JoinedWaits(env: Env, s: State, e: EndpointId, c: Channel, t: State)
    requires t == RunProtocol(env, Emit(Started(s, e), Joined(e)), e, c) && (e in s.registry ==> s.registry[e] != c)
    ensures Follows(s, t) && (Freely(s, t) <==> !OnHold(s, e))
  {
    var s1 := Emit(Started(s, e), Joined(e));
    One(s, s1, Joined(e));
    SwapWaits(env, s1, e, c, t);
    Then(s, s1, t);
  }

  lemma DuplicateIsFree(s: State, e: EndpointId, t: State)
    requires t == DuplicateOffer(s, e)
    ensures Follows(s, t) && Freely(s, t)
  {
    var log := if e in s.up.parked then s.io.log + [Closed(e, s.up.parked[e], Unfinished)] else s.io.log;
    var s1 := s.(io := s.io.(log := log));
    if e in s.up.parked {
      One(s, s1, Closed(e, s.up.parked[e], Unfinished));
    } else {
      Quietly(s, s1);
    }
    if e in s.registry {
      Two(s1, t, Resumed(s.registry[e]), Closed(e, s.registry[e], Unfinished));
      Then(s, s1, t);
    } else {
      assert t.io == s1.io;
    }
  }

  /** The offer is answered by a write on the channel in use. */
  predicate Answers(s: State, e: EndpointId, info: PathInfo) {
    || !ClientOf(s, e).connected
    || Barred(s, info.medium)
    || (!ClientOf(s, e).incoming && e !in s.up.inProgress)
  }

  lemma OfferWaits(env: Env, s: State, e: EndpointId, info: PathInfo, t: State)
    requires Known(s) && ClientOf(s, e).connected && t == OnPathAvailable(env, s, e, info)
    ensures Follows(s, t) && (Freely(s, t) <==> !(OnHold(s, e) && Answers(s, e, info)))
  {
    if Barred(s, info.medium) {
      RefusalWaits(env, s, e, info, t);
    } else if ClientOf(s, e).incoming {
      Quietly(s, t);
    } else if e in s.up.inProgress {
      DuplicateIsFree(s, e, t);
    } else {
      Frames.AdoptedFrame(env, s, e, info.medium);
      AcceptWaits(env, Adopted(env, s, e, info.medium), e, info, t);
    }
  }

  predicate Heard(s: State, e: EndpointId) {
    ClientOf(s, e).connected && e in s.up.inProgress
  }

  predicate ParkedOnHold(s: State, e: EndpointId) {
    e in s.up.parked && s.up.parked[e] in s.io.paused
  }

  /** The endpoint a socket is for, if it is introduced and acknowledged. */
  ghost function SwapTarget(env: Env, s: State, c: Channel, introduced: Option<EndpointId>): Option<EndpointId> {
    match Introduced(env, s, c, introduced).1
    case None => None
    case Some(id) => Target(s, id)
  }

  /** The call has to wait for somebody to resume or close a channel. */
  ghost predicate HeldUp(env: Env, s: State, call: Call) {
    match call.op
    case Initiate(e, m) => OnHold(s, e) && (ComesUp(env, s, e, m) || Reaches(env, e, call.rounds))
    case AlarmFires(e) => OnHold(s, e) && Reaches(env, e, call.rounds)
    case IncomingFrame(e, PathAvailable(Some(info))) => OnHold(s, e) && Answers(s, e, info)
    case IncomingFrame(e, UpgradeFailure(Some(_))) => OnHold(s, e) && ClientOf(s, e).connected && Reaches(env, e, call.rounds)
    case IncomingFrame(e, LastWriteToPriorChannel) => ParkedOnHold(s, e) && Heard(s, e)
    case IncomingFrame(e, SafeToClosePriorChannel) => ParkedOnHold(s, e) && Heard(s, e)
    case IncomingConnection(c, introduced) =>
      SwapTarget(env, s, c, introduced).Some? && OnHold(s, SwapTarget(env, s, c, introduced).value)
    case _ => false
  }

  lemma PathAvailableWaits(env: Env, s: State, call: Call, e: EndpointId, info: PathInfo, t: State)
    requires Known(s) && call.op == IncomingFrame(e, PathAvailable(Some(info))) && Leads(env, s, call, t)
    ensures Follows(s, t) && (Freely(s, t) <==> !HeldUp(env, s, call))
  {
    if ClientOf(s, e).connected {
      OfferWaits(env, s, e, info, t);
    } else {
      RefusalWaits(env, s, e, info, t);
    }
  }

  lemma ReportWaits(env: Env, s: State, call: Call, e: EndpointId, info: PathInfo, t: State)
    requires call.op == IncomingFrame(e, UpgradeFailure(Some(info))) && Leads(env, s, call, t)
    ensures Follows(s, t) && (Freely(s, t) <==> !HeldUp(env, s, call))
  {
    if ClientOf(s, e).connected {
      FailureWaits(env, s, e, info.medium, call.rounds);
    } else {
      Quietly(s, t);
    }
  }

  lemma FrameWaits(env: Env, s: State, call: Call, e: EndpointId, f: Received, t: State)
    requires Known(s) && call.op == IncomingFrame(e, f) && Leads(env, s, call, t)
    ensures Follows(s, t) && (Freely(s, t) <==> !HeldUp(env, s, call))
  {
    match f
    case PathAvailable(Some(info)) => PathAvailableWaits(env, s, call, e, info, t);
    case UpgradeFailure(Some(info)) => ReportWaits(env, s, call, e, info, t);
    case LastWriteToPriorChannel => ControlWaits(env, s, call, e, f, t);
    case SafeToClosePriorChannel => ControlWaits(env, s, call, e, f, t);
    case _ => Quietly(s, t);
  }

  lemma ControlWaits(env: Env, s: State, call: Call, e: EndpointId, f: Received, t: State)
    requires f.LastWriteToPriorChannel? || f.SafeToClosePriorChannel?
    requires call.op == IncomingFrame(e, f) && Leads(env, s, call, t)
    ensures Follows(s, t) && (Freely(s, t) <==> !(ParkedOnHold(s, e) && Heard(s, e)))
  {
    if !Heard(s, e) {
      Quietly(s, t);
    } else if f.LastWriteToPriorChannel? {
      LastWriteWaits(env, s, e, t);
    } else {
      SafeToCloseWaits(env, s, e, t);
    }
  }

  lemma IncomingWaits(env: Env, s: State, c: Channel, introduced: Option<EndpointId>, t: State)
    requires Known(s) && s.io.nextChannel <= c.id && t == OnIncoming(env, s, c, introduced)
    ensures Follows(s, t)
    ensures var e := SwapTarget(env, s, c, introduced); Freely(s, t) <==> !(e.Some? && OnHold(s, e.value))
  {
    var (s1, id) := Introduced(env, s, c, introduced);
    IntroducedIsFree(env, s, c, introduced, s1);
    if id.Some? && Target(s1, id.value).Some? {
      var e := Target(s1, id.value).value;
      assert Target(s, id.value) == Some(e);
      SwapWaits(env, CancelAlarm(s1, e), e, c, t);
      Then(s, s1, t);
    } else {
      assert id.Some? ==> Target(s, id.value).None?;
    }
  }

  lemma DisconnectIsFree(env: Env, s: State, service: ServiceId, e: EndpointId, t: State)
    requires t == OnDisconnect(env, s, service, e)
    ensures Follows(s, t) && Freely(s, t)
  {
    var s1 := Forget(env, s, e);
    Frames.ForgetFrame(env, s, e);
    Quietly(s, s1);
    RevertIsFree(env, s1, service, e, Revert(env, s1, service, e));
    Then(s, s1, Revert(env, s1, service, e));
  }

  lemma ShutDownIsFree(env: Env, s: State, t: State)
    requires t == DoShutDown(env, s)
    ensures Follows(s, t) && Freely(s, t)
  {
    var s0, ms := s.(retry := Retries(map[], map[])), env.handlerOrder(s.handlers.Keys);
    Frames.RevertHandlersFrame(env, s0, ms);
    Quietly(s0, RevertHandlers(env, s0, ms));
    One(RevertHandlers(env, s0, ms), t, ShutDown);
    Then(s0, RevertHandlers(env, s0, ms), t);
  }

  lemma MinorIsFree(env: Env, s: State, op: Op, t: State)
    requires Frames.Minor(op) && t == Begin(env, s, op).state
    ensures Follows(s, t) && Freely(s, t)
  {
    Frames.MinorFrame(env, s, op);
    Quietly(s, t);
  }

  /** Each call that may come in an orderly run waits exactly if it is one of those. */
  lemma CallWaits(env: Env, s: State, call: Call, t: State)
    requires Known(s) && Parking.Orderly(s, call.op) && Leads(env, s, call, t)
    ensures Follows(s, t) && (Freely(s, t) <==> !HeldUp(env, s, call))
  {
    match call.op
    case Initiate(e, m) => InitiationWaits(env, s, e, m, call.rounds);
    case AlarmFires(e) => AlarmWaits(env, s, e, call.rounds);
    case IncomingFrame(e, f) => FrameWaits(env, s, call, e, f, t);
    case IncomingConnection(c, introduced) => IncomingWaits(env, s, c, introduced, t);
    case EndpointDisconnect(service, e) => DisconnectIsFree(env, s, service, e, t);
    case Stop => ShutDownIsFree(env, s, t);
    case _ => MinorIsFree(env, s, call.op, t);
  }

  // -- whole runs -----------------------------------------------------------

  /** What is paused after a step was so before or is new. */
  ghost predicate PausesNew(s: State, t: State) {
    && s.io.nextChannel <= t.io.nextChannel
    && forall c :: c in t.io.paused ==> c in s.io.paused || s.io.nextChannel <= c.id < t.io.nextChannel
  }

  /** The operation swaps the channel of `e`, if anything. */
  ghost predicate MayDisplace(env: Env, s: State, op: Op, e: EndpointId) {
    match op
    case IncomingFrame(f, PathAvailable(Some(info))) => f == e && Answers(s, e, info)
    case IncomingConnection(c, introduced) => SwapTarget(env, s, c, introduced) == Some(e)
    case _ => false
  }

  /** What is parked after a step was so before, or was in use and was displaced by it. */
  ghost predicate ParksDisplaced(env: Env, s: State, op: Op, t: State) {
    forall e :: e in t.up.parked ==>
      || (e in s.up.parked && s.up.parked[e] == t.up.parked[e])
      || (e in s.registry && s.registry[e] == t.up.parked[e] && MayDisplace(env, s, op, e))
  }

  /** A swap of `e` from `s`, as far as pauses and parking go. */
  ghost predicate Swapped(s: State, t: State, e: EndpointId, c: Channel) {
    && t.io.paused == s.io.paused + {c} && t.io.nextChannel == s.io.nextChannel
    && forall f :: f in t.up.parked ==>
         || (f in s.up.parked && s.up.parked[f] == t.up.parked[f])
         || (f == e && e in s.registry && s.registry[e] == t.up.parked[e])
  }

  lemma SwapParks(env: Env, s: State, e: EndpointId, c: Channel, t: State)
    requires t == RunProtocol(env, s, e, c)
    ensures Swapped(s, t, e, c)
  {
    SwapWaits(env, s, e, c, t);
    Frames.RunProtocolFrame(env, s, e, c);
  }

  lemma AcceptParks(env: Env, s: State, e: EndpointId, info: PathInfo, t: State)
    requires Known(s) && t == Accept(env, s, e, info)
    ensures PausesNew(s, t)
    ensures forall f :: f in t.up.parked ==>
      || (f in s.up.parked && s.up.parked[f] == t.up.parked[f])
      || (f == e && e in s.registry && s.registry[e] == t.up.parked[e])
  {
    var (s1, made) := Dial(env, s, e, info);
    Frames.FailedProtocolFrame(env, s, e, info);
    DialIsFree(env, s, e, info, s1);
    Frames.FailedProtocolFrame(env, s1, e, info);
    if made.Some? {
      SwapParks(env, Emit(Started(s1, e), Joined(e)), e, made.value, RunProtocol(env, Emit(Started(s1, e), Joined(e)), e, made.value));
    }
  }

  lemma OfferParks(env: Env, s: State, e: EndpointId, info: PathInfo, op: Op, t: State)
    requires Known(s) && op == IncomingFrame(e, PathAvailable(Some(info))) && t == OnFrame(env, s, e, op.f).state
    ensures PausesNew(s, t) && ParksDisplaced(env, s, op, t)
  {
    Frames.FailedProtocolFrame(env, s, e, info);
    if Answers(s, e, info) && ClientOf(s, e).connected && !Barred(s, info.medium) {
      Frames.AdoptedFrame(env, s, e, info.medium);
      AcceptParks(env, Adopted(env, s, e, info.medium), e, info, t);
    }
  }

  lemma FrameParks(env: Env, s: State, e: EndpointId, f: Received, t: State)
    requires Known(s) && t == OnFrame(env, s, e, f).state
    ensures PausesNew(s, t) && ParksDisplaced(env, s, IncomingFrame(e, f), t)
  {
    match f
    case PathAvailable(Some(info)) => OfferParks(env, s, e, info, IncomingFrame(e, f), t);
    case UpgradeFailure(Some(info)) => Frames.FailureFrame(env, s, e, info.medium);
    case LastWriteToPriorChannel => Frames.LastWriteFrame(env, s, e);
    case SafeToClosePriorChannel => SafeToCloseWaits(env, s, e, OnSafeToClose(env, s, e));
    case _ =>
  }

  lemma IncomingParks(env: Env, s: State, c: Channel, introduced: Option<EndpointId>, t: State)
    requires Known(s) && s.io.nextChannel <= c.id && t == OnIncoming(env, s, c, introduced)
    ensures PausesNew(s, t) && ParksDisplaced(env, s, IncomingConnection(c, introduced), t)
  {
    var (s1, id) := Introduced(env, s, c, introduced);
    IntroducedIsFree(env, s, c, introduced, s1);
    if id.Some? && Target(s1, id.value).Some? {
      var e := Target(s1, id.value).value;
      assert SwapTarget(env, s, c, introduced) == Some(e);
      SwapParks(env, CancelAlarm(s1, e), e, c, t);
    }
  }

  lemma BeginParks(env: Env, s: State, op: Op, t: State)
    requires Known(s) && Parking.Orderly(s, op) && t == Begin(env, s, op).state
    ensures PausesNew(s, t) && ParksDisplaced(env, s, op, t)
  {
    match op
    case Initiate(e, m) => Frames.InitiateFrame(env, s, e, m);
    case AlarmFires(e) => Frames.NextBestFrame(env, CancelAlarm(s, e), e, ClientOf(s, e).mediums);
    case IncomingFrame(e, f) => FrameParks(env, s, e, f, t);
    case IncomingConnection(c, introduced) => IncomingParks(env, s, c, introduced, t);
    case EndpointDisconnect(service, e) => Frames.RevertFrame(env, Forget(env, s, e), service, e);
    case Stop => Frames.RevertHandlersFrame(env, s.(retry := Retries(map[], map[])), env.handlerOrder(s.handlers.Keys));
    case _ => Frames.MinorFrame(env, s, op);
  }

  lemma {:induction false} RoundsPark(env: Env, e: EndpointId, os: seq<Outcome>)
    requires Rounds(env, e, os)
    ensures var s, t := os[0].state, os[|os| - 1].state;
      t.up.parked == s.up.parked && t.io.paused == s.io.paused && t.io.nextChannel == s.io.nextChannel
    decreases |os|
  {
    if |os| > 1 {
      RoundsTail(env, e, os);
      Frames.InitiateFrame(env, os[0].state, e, os[0].medium);
      RoundsPark(env, e, os[1..]);
    }
  }

  /** No parked channel is paused. */
  ghost predicate ParkedRuns(s: State) {
    forall e :: e in s.up.parked ==> s.up.parked[e] !in s.io.paused
  }

  ghost predicate Sound(s: State) {
    Parking.ParkInv(s) && Known(s)
  }

  lemma CallParks(env: Env, s: State, call: Call, t: State)
    requires Sound(s) && Parking.Orderly(s, call.op) && Leads(env, s, call, t)
    ensures PausesNew(s, t) && ParksDisplaced(env, s, call.op, t)
    ensures ParkedRuns(s) && !HeldUp(env, s, call) ==> ParkedRuns(t)
  {
    BeginParks(env, s, call.op, call.rounds[0].state);
    RoundsPark(env, Subject(call.op), call.rounds);
    if ParkedRuns(s) && !HeldUp(env, s, call) {
      DisplacedRuns(env, s, call, t);
    }
  }

  lemma DisplacedRuns(env: Env, s: State, call: Call, t: State)
    requires Sound(s) && PausesNew(s, t) && ParksDisplaced(env, s, call.op, t) && ParkedRuns(s) && !HeldUp(env, s, call)
    ensures ParkedRuns(t)
  {
    forall e | e in t.up.parked
      ensures t.up.parked[e] !in t.io.paused
    {
      if !(e in s.up.parked && s.up.parked[e] == t.up.parked[e]) {
        assert MayDisplace(env, s, call.op, e) && !OnHold(s, e);
      }
    }
  }

  lemma RunSound(env: Env, mediums: set<Medium>, calls: seq<Call>, n: nat)
    requires Execution(env, Fresh(mediums), calls) && Throughout(Fresh(mediums), calls, Parking.Orderly) && n <= |calls|
    ensures Sound(End(Fresh(mediums), calls[..n]))
    decreases n
  {
    PrefixOrderly(env, mediums, calls, n);
    Parking.ParkedApart(env, mediums, calls[..n]);
    if n == 0 {
      assert calls[..0] == [];
    } else {
      RunSound(env, mediums, calls, n - 1);
      CallAt(env, Fresh(mediums), calls, Parking.Orderly, n - 1);
      CallParks(env, End(Fresh(mediums), calls[..n - 1]), calls[n - 1], End(Fresh(mediums), calls[..n - 1 + 1]));
    }
  }

  lemma PrefixOrderly(env: Env, mediums: set<Medium>, calls: seq<Call>, n: nat)
    requires Execution(env, Fresh(mediums), calls) && Throughout(Fresh(mediums), calls, Parking.Orderly) && n <= |calls|
    ensures Execution(env, Fresh(mediums), calls[..n]) && Throughout(Fresh(mediums), calls[..n], Parking.Orderly)
  {
    if n < |calls| {
      CallAt(env, Fresh(mediums), calls, Parking.Orderly, n);
    } else {
      assert calls[..n] == calls;
    }
  }

  /** None of the first n calls was held up. */
  ghost predicate Unhindered(env: Env, start: State, calls: seq<Call>, n: nat) {
    forall i {:trigger calls[i]} :: 0 <= i < n <= |calls| ==> !HeldUp(env, End(start, calls[..i]), calls[i])
  }

  /** Each step waits if `held` says so, and keeps parked channels from being paused unless it waits. */
  ghost predicate StepByStep(states: seq<State>, held: seq<bool>) {
    && |states| == |held| + 1 && ParkedRuns(states[0])
    && forall i :: 0 <= i < |held| ==>
         && Follows(states[i], states[i + 1]) && (Freely(states[i], states[i + 1]) <==> !held[i])
         && (ParkedRuns(states[i]) && !held[i] ==> ParkedRuns(states[i + 1]))
  }

  lemma {:induction false} WaitsAlong(states: seq<State>, held: seq<bool>, n: nat)
    requires StepByStep(states, held) && n <= |held|
    ensures Follows(states[0], states[n])
    ensures Freely(states[0], states[n]) <==> forall i :: 0 <= i < n ==> !held[i]
    ensures (forall i :: 0 <= i < n ==> !held[i]) ==> ParkedRuns(states[n])
    decreases n
  {
    if n == 0 {
      Quietly(states[0], states[0]);
    } else {
      WaitsAlong(states, held, n - 1);
      assert Follows(states[n - 1], states[n - 1 + 1]);
      Then(states[0], states[n - 1], states[n]);
    }
  }

  /**
   * In every orderly run: up to some call no write in the log had to wait exactly if none of the calls was held up,
   * and then no parked channel is paused.
   */
  lemma RunWaits(env: Env, mediums: set<Medium>, calls: seq<Call>, n: nat)
    requires Execution(env, Fresh(mediums), calls) && Throughout(Fresh(mediums), calls, Parking.Orderly) && n <= |calls|
    ensures var s, t := Fresh(mediums), End(Fresh(mediums), calls[..n]);
      && Follows(s, t) && (Freely(s, t) <==> Unhindered(env, s, calls, n))
      && (Unhindered(env, s, calls, n) ==> ParkedRuns(t))
  {
    var states, held := RunSteps(env, mediums, calls);
    WaitsAlong(states, held, n);
    assert forall i {:trigger calls[i]} {:trigger held[i]} :: 0 <= i < |calls| ==>
      held[i] == HeldUp(env, End(Fresh(mediums), calls[..i]), calls[i]);
  }

  lemma RunSteps(env: Env, mediums: set<Medium>, calls: seq<Call>) returns (states: seq<State>, held: seq<bool>)
    requires Execution(env, Fresh(mediums), calls) && Throughout(Fresh(mediums), calls, Parking.Orderly)
    ensures |held| == |calls| && StepByStep(states, held)
    ensures forall i :: 0 <= i <= |calls| ==> states[i] == End(Fresh(mediums), calls[..i])
    ensures forall i :: 0 <= i < |calls| ==> held[i] == HeldUp(env, End(Fresh(mediums), calls[..i]), calls[i])
  {
    states := StatesOf(env, Fresh(mediums), calls);
    held := seq(|calls|, i requires 0 <= i < |calls| => HeldUp(env, states[i], calls[i]));
    forall i | 0 <= i < |calls|
      ensures Follows(states[i], states[i + 1]) && (Freely(states[i], states[i + 1]) <==> !held[i])
      ensures ParkedRuns(states[i]) && !held[i] ==> ParkedRuns(states[i + 1])
    {
      RunSound(env, mediums, calls, i);
      LastCallWaits(env, mediums, calls, i);
    }
  }

  lemma LastCallWaits(env: Env, mediums: set<Medium>, calls: seq<Call>, i: nat)
    requires Execution(env, Fresh(mediums), calls) && Throughout(Fresh(mediums), calls, Parking.Orderly) && i < |calls|
    requires Sound(End(Fresh(mediums), calls[..i]))
    ensures var s, t := End(Fresh(mediums), calls[..i]), End(Fresh(mediums), calls[..i + 1]);
      && Follows(s, t) && (Freely(s, t) <==> !HeldUp(env, s, calls[i]))
      && (ParkedRuns(s) && !HeldUp(env, s, calls[i]) ==> ParkedRuns(t))
  {
    var s, t := End(Fresh(mediums), calls[..i]), End(Fresh(mediums), calls[..i + 1]);
    CallAt(env, Fresh(mediums), calls, Parking.Orderly, i);
    CallWaits(env, s, calls[i], t);
    CallParks(env, s, calls[i], t);
  }

  /**
   * So in an orderly run in which nothing was held up before, only a write on the channel in use can be: the offer of
   * a failover, a failure notice or a LAST_WRITE, for an endpoint whose channel is paused. SAFE_TO_CLOSE and
   * DISCONNECTION never are.
   */
  lemma OnlyInFlight(env: Env, mediums: set<Medium>, calls: seq<Call>, i: nat)
    requires Execution(env, Fresh(mediums), calls) && Throughout(Fresh(mediums), calls, Parking.Orderly) && i < |calls|
    requires Unhindered(env, Fresh(mediums), calls, i)
    ensures var s := End(Fresh(mediums), calls[..i]);
      HeldUp(env, s, calls[i]) ==>
        && (exists e :: OnHold(s, e))
        && !(calls[i].op.IncomingFrame? && (calls[i].op.f.LastWriteToPriorChannel? || calls[i].op.f.SafeToClosePriorChannel?))
  {
    RunWaits(env, mediums, calls, i);
    OnlyInUse(env, End(Fresh(mediums), calls[..i]), calls[i]);
  }

  lemma OnlyInUse(env: Env, s: State, call: Call)
    requires ParkedRuns(s)
    ensures HeldUp(env, s, call) ==>
      && (exists e :: OnHold(s, e))
      && !(call.op.IncomingFrame? && (call.op.f.LastWriteToPriorChannel? || call.op.f.SafeToClosePriorChannel?))
  {
  }

  // -- a failover that is held up -------------------------------------------

  /** One more call, over in one round. */
  lemma OneMore(env: Env, start: State, calls: seq<Call>, s: State, op: Op, t: State) returns (longer: seq<Call>)
    requires Execution(env, start, calls) && Throughout(start, calls, Parking.Orderly) && s == End(start, calls)
    requires Parking.Orderly(s, op) && Begin(env, s, op) == Done(t)
    ensures Execution(env, start, longer) && Throughout(start, longer, Parking.Orderly) && End(start, longer) == t
  {
    var call := Call(op, [Done(t)]);
    longer := calls + [call];
    assert longer[..|longer| - 1] == calls;
    assert Rounds(env, Subject(op), call.rounds);
    forall i | 0 <= i < |longer|
      ensures Parking.Orderly(End(start, longer[..i]), longer[i].op)
    {
      if i < |calls| {
        assert longer[..i] == calls[..i];
        assert Parking.Orderly(End(start, calls[..i]), calls[i].op);
      }
    }
  }

  /** The endpoint's channel and the one it moves to. */
  const OLD: Channel := Channel(0, Bluetooth, "s")
  const NEW: Channel := Channel(1, WebRtc, "s")

  const LISTED: Client := Client(true, false, [WebRtc, WifiAware])

  /** Registered, connected, and with two mediums to go through. */
  predicate Prepared(s: State, e: EndpointId) {
    && s.handlers.Keys == {WebRtc, WifiAware} && s.mediums == Mediums(UnknownMedium, map[])
    && s.registry == map[e := OLD] && s.clients == map[e := LISTED]
    && s.up == Upgrades({}, map[], {}) && s.io == Io({}, 1, [Registered(e, OLD)])
  }

  lemma Prepare(env: Env, e: EndpointId) returns (calls: seq<Call>, s: State)
    ensures var start := Fresh({WebRtc, WifiAware});
      Execution(env, start, calls) && Throughout(start, calls, Parking.Orderly) && s == End(start, calls) && Prepared(s, e)
  {
    var s0 := Fresh({WebRtc, WifiAware});
    var s1 := Register(s0, e, OLD);
    var s2 := s1.(clients := map[e := Client(true, false, [])]);
    s := s1.(clients := map[e := LISTED]);
    calls := OneMore(env, s0, [], s0, RegisterChannel(e, OLD), s1);
    Connected(env, s1, e, s2, s);
    calls := OneMore(env, s0, calls, s1, ConnectionAccepted(e), s2);
    calls := OneMore(env, s0, calls, s2, SetUpgradeMediums(e, [WebRtc, WifiAware]), s);
  }

  lemma Connected(env: Env, s: State, e: EndpointId, t: State, u: State)
    requires s.clients == map[] && t == s.(clients := map[e := Client(true, false, [])]) && u == s.(clients := map[e := LISTED])
    ensures Begin(env, s, ConnectionAccepted(e)) == Done(t)
    ensures Begin(env, t, SetUpgradeMediums(e, [WebRtc, WifiAware])) == Done(u)
  {
    assert t.clients[e := LISTED] == map[e := LISTED];
  }

  /** The offer is out. */
  predicate Offering(s: State, e: EndpointId) {
    && s.handlers.Keys == {WebRtc, WifiAware} && s.registry == map[e := OLD] && s.clients == map[e := LISTED]
    && s.up == Upgrades({e}, map[], {}) && s.io.paused == {} && s.io.nextChannel == 1
  }

  lemma OfferOut(env: Env, s: State, e: EndpointId, t: State)
    requires (forall n :: env.outcome(n)) && Prepared(s, e) && t == InitiateOnce(env, s, e, WebRtc).state
    ensures InitiateOnce(env, s, e, WebRtc) == Done(t) && Offering(t, e)
  {
    assert !WifiLanConnected(s);
    assert Viable(s, e, WebRtc);
  }

  /** The socket it brought was swapped to. */
  predicate InFlight(s: State, e: EndpointId) {
    && s.handlers.Keys == {WebRtc, WifiAware} && s.registry == map[e := NEW] && s.clients == map[e := LISTED]
    && s.io.paused == {NEW}
  }

  lemma SocketIn(env: Env, s: State, e: EndpointId, t: State)
    requires (forall n :: env.outcome(n)) && Offering(s, e) && t == OnIncoming(env, s, NEW, Some(e))
    ensures InFlight(t, e)
  {
    assert Target(Introduced(env, s, NEW, Some(e)).0, e) == Some(e);
  }

  lemma InFlightRun(env: Env, e: EndpointId) returns (calls: seq<Call>, s: State)
    requires forall n :: env.outcome(n)
    ensures var start := Fresh({WebRtc, WifiAware});
      Execution(env, start, calls) && Throughout(start, calls, Parking.Orderly) && s == End(start, calls) && InFlight(s, e)
  {
    var start := Fresh({WebRtc, WifiAware});
    var prior;
    calls, prior := Prepare(env, e);
    var offering := InitiateOnce(env, prior, e, WebRtc).state;
    OfferOut(env, prior, e, offering);
    calls := OneMore(env, start, calls, prior, Initiate(e, WebRtc), offering);
    s := OnIncoming(env, offering, NEW, Some(e));
    SocketIn(env, offering, e, s);
    calls := OneMore(env, start, calls, offering, IncomingConnection(NEW, Some(e)), s);
  }

  /** The failover of a failed WEB_RTC writes its next offer on the paused channel. */
  lemma NextOffer(env: Env, s: State, e: EndpointId, o: Outcome)
    requires (forall n :: env.outcome(n)) && InFlight(s, e) && o == FailureOnce(env, s, e, WebRtc)
    ensures o.Again? && o.medium == WifiAware && ComesUp(env, o.state, e, WifiAware)
    ensures InitiateOnce(env, o.state, e, WifiAware).Done?
  {
    Failover.FailureIsNextBest(env, s, e, WebRtc);
    assert After([WebRtc, WifiAware], WebRtc) == [WifiAware];
    assert Available(Undone(env, s, e), [WifiAware]) == [WifiAware];
    assert !WifiLanConnected(s) && o.state.registry == s.registry;
  }

  lemma FailureInFlight(env: Env, s: State, e: EndpointId) returns (call: Call, t: State)
    requires (forall n :: env.outcome(n)) && InFlight(s, e)
    ensures call.op == IncomingFrame(e, UpgradeFailure(Some(PathInfo(WebRtc, false)))) && Leads(env, s, call, t)
    ensures HeldUp(env, s, call) && !Freely(s, t)
  {
    var first := FailureOnce(env, s, e, WebRtc);
    NextOffer(env, s, e, first);
    var second := InitiateOnce(env, first.state, e, WifiAware);
    call := Call(IncomingFrame(e, UpgradeFailure(Some(PathInfo(WebRtc, false)))), [first, second]);
    t := second.state;
    ReachedInFlight(env, s, call, e, PathInfo(WebRtc, false), first, second);
  }

  lemma ReachedInFlight(env: Env, s: State, call: Call, e: EndpointId, info: PathInfo, first: Outcome, second: Outcome)
    requires call == Call(IncomingFrame(e, UpgradeFailure(Some(info))), [first, second])
    requires OnHold(s, e) && ClientOf(s, e).connected && first == FailureOnce(env, s, e, info.medium)
    requires Link(env, e, first, second) && second.Done? && ComesUp(env, first.state, e, first.medium)
    ensures Leads(env, s, call, second.state) && HeldUp(env, s, call) && !Freely(s, second.state)
  {
    TwoRounds(env, e, first, second, call.rounds);
    ReportWaits(env, s, call, e, info, second.state);
  }

  lemma TwoRounds(env: Env, e: EndpointId, first: Outcome, second: Outcome, os: seq<Outcome>)
    requires os == [first, second] && Link(env, e, first, second) && second.Done?
    requires ComesUp(env, first.state, e, first.medium)
    ensures Rounds(env, e, os) && Reaches(env, e, os)
  {
    assert os[0].Again? && ComesUp(env, os[0].state, e, os[0].medium);
  }

  /**
   * With everything working: while the swapped-in channel of an endpoint is still paused, a reported failure of its
   * medium makes the failover write its next offer there, and wait. The list has no repeats, so no medium comes back.
   */
  lemma FailoverHeldUp(env: Env, e: EndpointId) returns (calls: seq<Call>, call: Call, t: State)
    requires forall n :: env.outcome(n)
    ensures var start := Fresh({WebRtc, WifiAware}); var s := End(start, calls);
      && Execution(env, start, calls) && Throughout(start, calls, Parking.Orderly)
      && call.op == IncomingFrame(e, UpgradeFailure(Some(PathInfo(WebRtc, false)))) && Leads(env, s, call, t)
      && Failover.NoReturn(s, e) && OnHold(s, e) && HeldUp(env, s, call) && !Freely(s, t)
  {
    var s;
    calls, s := InFlightRun(env, e);
    Failover.DistinctIsSound(s, [WebRtc, WifiAware]);
    Failover.SoundNeverComesBack(s, e);
    call, t := FailureInFlight(env, s, e);
  }
}
