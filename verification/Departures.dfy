/** By which operation a parked channel leaves, in which way, and that nothing else makes it leave. */
module Departures {
  import opened Wrappers
  import opened ServiceIds
  import opened Protocol
  import opened BwuSpec
  import opened Frames
  import opened Parking
  import opened Conservation

  // -- which operation does what --------------------------------------------

  /** LAST_WRITE and SAFE_TO_CLOSE are listened to. */
  predicate Heard(s: State, e: EndpointId) {
    ClientOf(s, e).connected && e in s.up.inProgress
  }

  predicate SecondOffer(s: State, e: EndpointId, info: PathInfo) {
    Heard(s, e) && !Barred(s, info.medium) && !ClientOf(s, e).incoming
  }

  /** Between `s` and `t` the channel then in use took the place of the one then parked. */
  predicate Reparked(s: State, t: State, e: EndpointId) {
    e in s.registry && e in t.up.parked && t.up.parked[e] == s.registry[e]
  }

  /** The way in which `op` makes the channel parked for `e` leave, if it does. */
  ghost function Departure(env: Env, s: State, op: Op, e: EndpointId): Option<Exit> {
    match op
    case IncomingFrame(f, SafeToClosePriorChannel) =>
      if f == e && Heard(s, e) then Some(ByClose(Upgraded)) else None
    case IncomingFrame(f, LastWriteToPriorChannel) =>
      if f == e && Heard(s, e) && !Next(env, s.io.log) then Some(ByClose(IoError)) else None
    case IncomingFrame(f, PathAvailable(Some(info))) =>
      if f == e && SecondOffer(s, e, info) then Some(ByClose(Unfinished))
      else if f == e && Reparked(s, Begin(env, s, op).state, e) then Some(LetGo)
      else None
    case IncomingConnection(_, _) => if Reparked(s, Begin(env, s, op).state, e) then Some(LetGo) else None
    case EndpointDisconnect(_, f) => if f == e then Some(ByClose(Shutdown)) else None
    case Stop => Some(LetGo)
    case _ => None
  }

  /** `c` is parked for `e`, and everything is in order. */
  ghost predicate ParkedFor(s: State, e: EndpointId, c: Channel) {
    ParkInv(s) && Accounted(s, c) && e in s.up.parked && s.up.parked[e] == c
  }

  /** What became of the channel `c` parked for `e`. */
  ghost predicate Left(t: State, e: EndpointId, c: Channel, way: Option<Exit>) {
    match way
    case None => StatusOf(t.io.log, c) == IsParked && e in t.up.parked && t.up.parked[e] == c
    case Some(exit) => StatusOf(t.io.log, c) == Gone(exit) && !(e in t.up.parked && t.up.parked[e] == c)
  }

  lemma ParkedIsParked(s: State, e: EndpointId, c: Channel)
    requires ParkedFor(s, e, c)
    ensures StatusOf(s.io.log, c) == IsParked && c.id < s.io.nextChannel
    ensures forall f :: f in s.registry ==> s.registry[f] != c
    ensures forall f :: f in s.up.parked && f != e ==> s.up.parked[f] != c
  {
    assert Parked(s, c);
  }

  /** What changes neither what is parked or in use nor the status of `c` leaves it parked. */
  lemma StillParkedFor(s: State, t: State, e: EndpointId, c: Channel)
    requires ParkedFor(s, e, c) && StatusOf(t.io.log, c) == StatusOf(s.io.log, c)
    requires t.registry == s.registry && t.up.parked == s.up.parked && t.up.latched == s.up.latched
    requires t.io.paused == s.io.paused && s.io.nextChannel <= t.io.nextChannel
    ensures ParkedFor(t, e, c)
  {
    ParkedIsParked(s, e, c);
    assert Parked(t, c);
  }

  // -- operation by operation -----------------------------------------------

  lemma KeepLeaves(s: State, t: State, e: EndpointId, c: Channel)
    requires ParkedFor(s, e, c) && t.up.parked == s.up.parked && StatusOf(t.io.log, c) == StatusOf(s.io.log, c)
    ensures Left(t, e, c, None)
  {
    ParkedIsParked(s, e, c);
  }

  lemma RefusalLeaves(env: Env, s: State, f: EndpointId, info: PathInfo, e: EndpointId, c: Channel)
    requires ParkedFor(s, e, c)
    ensures Left(FailedProtocol(env, s, f, info), e, c, None)
  {
    RefusalAccounted(env, s, f, info, c);
    FailedProtocolFrame(env, s, f, info);
    KeepLeaves(s, FailedProtocol(env, s, f, info), e, c);
  }

  lemma LastWriteLeaves(env: Env, s: State, f: EndpointId, e: EndpointId, c: Channel)
    requires ParkedFor(s, e, c)
    ensures Left(OnLastWrite(env, s, f), e, c, if f == e && !Next(env, s.io.log) then Some(ByClose(IoError)) else None)
  {
    ParkedIsParked(s, e, c);
    LastWriteStatus(env, s, f, c);
  }

  lemma SafeToCloseLeaves(env: Env, s: State, f: EndpointId, e: EndpointId, c: Channel)
    requires ParkedFor(s, e, c)
    ensures Left(OnSafeToClose(env, s, f), e, c, if f == e then Some(ByClose(Upgraded)) else None)
  {
    ParkedIsParked(s, e, c);
    if f in s.up.parked {
      SafeToCloseStatus(env, s, f, c);
    }
  }

  lemma DuplicateLeaves(s: State, f: EndpointId, e: EndpointId, c: Channel)
    requires ParkedFor(s, e, c)
    ensures Left(DuplicateOffer(s, f), e, c, if f == e then Some(ByClose(Unfinished)) else None)
  {
    ParkedIsParked(s, e, c);
    DuplicateStatus(s, f, c);
  }

  lemma DisconnectLeaves(env: Env, s: State, service: ServiceId, f: EndpointId, e: EndpointId, c: Channel)
    requires ParkedFor(s, e, c)
    ensures Left(OnDisconnect(env, s, service, f), e, c, if f == e then Some(ByClose(Shutdown)) else None)
  {
    var s1 := Forget(env, s, f);
    ParkedIsParked(s, e, c);
    ForgetStatus(env, s, f, c);
    ForgetAccounted(env, s, f, c);
    RevertFrame(env, s1, service, f);
    FrameAccounted(s1, Revert(env, s1, service, f), f, c);
  }

  lemma ShutDownLeaves(env: Env, s: State, e: EndpointId, c: Channel)
    requires ParkedFor(s, e, c)
    ensures Left(DoShutDown(env, s), e, c, Some(LetGo))
  {
    ParkedIsParked(s, e, c);
    ShutDownAccounted(env, s, c);
  }

  /** A swap lets go of the channel parked before exactly if its LAST_WRITE went out. */
  lemma SwapLeaves(env: Env, s: State, f: EndpointId, c': Channel, t: State, e: EndpointId, c: Channel)
    requires ParkedFor(s, e, c) && c' != c && t == RunProtocol(env, s, f, c')
    ensures Left(t, e, c, if f == e && Reparked(s, t, e) then Some(LetGo) else None)
  {
    ParkedIsParked(s, e, c);
    var prior := if f in s.registry then s.registry[f] else c';
    var swapped := s.io.log + [Paused(c')] + [Registered(f, c')];
    SwapStatus(s.io.log, f, prior, c', Next(env, swapped), c);
    if f in s.registry && Next(env, swapped) {
      var s1 := s.(registry := s.registry[f := c'],
                   io := s.io.(paused := s.io.paused + {c'}, log := swapped + [Wrote(f, prior, LastWrite, true)]));
      ParkLeaves(env, s1, f, prior, e, c);
    }
  }

  /** `prior` parked for `f` in place of whatever was, and nothing else. */
  function Displaced(s: State, f: EndpointId, prior: Channel): State {
    var log := if f in s.up.parked then s.io.log + [Released(f, s.up.parked[f])] else s.io.log;
    s.(up := s.up.(parked := s.up.parked[f := prior], latched := s.up.latched - {f}), io := s.io.(log := log))
  }

  lemma DisplacedStatus(s: State, f: EndpointId, prior: Channel, c: Channel)
    ensures StatusOf(Displaced(s, f, prior).io.log, c)
         == if f in s.up.parked then Advance(StatusOf(s.io.log, c), Released(f, s.up.parked[f]), c) else StatusOf(s.io.log, c)
  {
    if f in s.up.parked {
      Snoc(s.io.log, Released(f, s.up.parked[f]), c);
    }
  }

  lemma ParkLeaves(env: Env, s: State, f: EndpointId, prior: Channel, e: EndpointId, c: Channel)
    requires Exclusive(s) && e in s.up.parked && s.up.parked[e] == c && StatusOf(s.io.log, c) == IsParked && prior != c
    requires forall f :: f in s.up.parked && f != e ==> s.up.parked[f] != c
    ensures Left(Park(env, s, f, prior), e, c, if f == e then Some(LetGo) else None)
    ensures f == e ==> Park(env, s, f, prior).up.parked == s.up.parked[e := prior]
  {
    var s1 := Displaced(s, f, prior);
    DisplacedStatus(s, f, prior, c);
    LastWriteStatus(env, s1, f, c);
  }

  lemma DialedStatus(env: Env, s: State, f: EndpointId, info: PathInfo, t: State, c: Channel)
    requires t == Dial(env, s, f, info).0 && Accounted(s, c)
    ensures StatusOf(t.io.log, c) == StatusOf(s.io.log, c) && t == s.(io := t.io) && t.io.paused == s.io.paused
    ensures s.io.nextChannel <= t.io.nextChannel
    ensures var made := Dial(env, s, f, info).1; made.Some? ==> s.io.nextChannel <= made.value.id
  {
    DialFrame(env, s, f, info);
    DialAccounted(env, s, f, info, c);
  }

  lemma JoinedLeaves(env: Env, s: State, f: EndpointId, made: Channel, t: State, e: EndpointId, c: Channel)
    requires ParkedFor(s, e, c) && made != c && t == RunProtocol(env, Emit(Started(s, f), Joined(f)), f, made)
    ensures Left(t, e, c, if f == e && Reparked(s, t, e) then Some(LetGo) else None)
  {
    Snoc(s.io.log, Joined(f), c);
    StillParkedFor(s, Emit(Started(s, f), Joined(f)), e, c);
    SwapLeaves(env, Emit(Started(s, f), Joined(f)), f, made, t, e, c);
  }

  lemma AcceptLeaves(env: Env, s: State, f: EndpointId, info: PathInfo, t: State, e: EndpointId, c: Channel)
    requires ParkedFor(s, e, c) && t == Accept(env, s, f, info)
    ensures Left(t, e, c, if f == e && Reparked(s, t, e) then Some(LetGo) else None)
  {
    ParkedIsParked(s, e, c);
    if info.medium != MediumFor(env, s, f) {
      RefusalLeaves(env, s, f, info, e, c);
    } else {
      var (s1, made) := Dial(env, s, f, info);
      DialedStatus(env, s, f, info, s1, c);
      StillParkedFor(s, s1, e, c);
      if made.None? {
        RefusalLeaves(env, s1, f, info, e, c);
      } else {
        JoinedLeaves(env, s1, f, made.value, t, e, c);
      }
    }
  }

  lemma OfferLeaves(env: Env, s: State, f: EndpointId, info: PathInfo, t: State, e: EndpointId, c: Channel)
    requires ParkedFor(s, e, c) && t == OnPathAvailable(env, s, f, info) && ClientOf(s, f).connected
    ensures Left(t, e, c, if f == e && SecondOffer(s, e, info) then Some(ByClose(Unfinished))
                          else if f == e && Reparked(s, t, e) then Some(LetGo) else None)
  {
    ParkedIsParked(s, e, c);
    if Barred(s, info.medium) {
      RefusalLeaves(env, s, f, info, e, c);
    } else if ClientOf(s, f).incoming {
    } else if f in s.up.inProgress {
      DuplicateLeaves(s, f, e, c);
    } else {
      var s1 := Adopted(env, s, f, info.medium);
      AdoptedFrame(env, s, f, info.medium);
      StillParkedFor(s, s1, e, c);
      AcceptLeaves(env, s1, f, info, t, e, c);
    }
  }

  lemma FrameLeaves(env: Env, s: State, f: EndpointId, frame: Received, t: State, e: EndpointId, c: Channel)
    requires ParkedFor(s, e, c) && t == OnFrame(env, s, f, frame).state
    ensures Left(t, e, c, Departure(env, s, IncomingFrame(f, frame), e))
  {
    ParkedIsParked(s, e, c);
    match frame
    case PathAvailable(Some(info)) =>
      if ClientOf(s, f).connected {
        OfferLeaves(env, s, f, info, t, e, c);
      } else {
        RefusalLeaves(env, s, f, info, e, c);
      }
    case UpgradeFailure(Some(info)) =>
      FailureFrame(env, s, f, info.medium);
      FrameAccounted(s, FailureOnce(env, s, f, info.medium).state, f, c);
    case LastWriteToPriorChannel => LastWriteLeaves(env, s, f, e, c);
    case SafeToClosePriorChannel => SafeToCloseLeaves(env, s, f, e, c);
    case _ =>
  }

  lemma IncomingLeaves(env: Env, s: State, c': Channel, introduced: Option<EndpointId>, t: State, e: EndpointId, c: Channel)
    requires ParkedFor(s, e, c) && s.io.nextChannel <= c'.id && t == OnIncoming(env, s, c', introduced)
    ensures Left(t, e, c, if Reparked(s, t, e) then Some(LetGo) else None)
  {
    ParkedIsParked(s, e, c);
    var (s1, id) := Introduced(env, s, c', introduced);
    IntroducedStatus(env, s, c', introduced, s1, c);
    StillParkedFor(s, s1, e, c);
    if id.Some? && Target(s1, id.value).Some? {
      var f := Target(s1, id.value).value;
      StillParkedFor(s1, CancelAlarm(s1, f), e, c);
      SwapLeaves(env, CancelAlarm(s1, f), f, c', t, e, c);
    }
  }

  lemma IntroducedStatus(env: Env, s: State, c': Channel, introduced: Option<EndpointId>, t: State, c: Channel)
    requires t == Introduced(env, s, c', introduced).0
    ensures StatusOf(t.io.log, c) == StatusOf(s.io.log, c)
    ensures t == s.(io := t.io) && t.io.paused == s.io.paused && s.io.nextChannel <= t.io.nextChannel
  {
    IntroducedFrame(env, s, c', introduced);
    StatusKept(s.io.log, t.io.log, c);
  }

  /** For every operation that may follow in an orderly run: the channel parked for `e` leaves as it says, or stays. */
  lemma BeginLeaves(env: Env, s: State, op: Op, t: State, e: EndpointId, c: Channel)
    requires ParkedFor(s, e, c) && Orderly(s, op) && t == Begin(env, s, op).state
    ensures Left(t, e, c, Departure(env, s, op, e))
  {
    ParkedIsParked(s, e, c);
    match op
    case Initiate(f, m) =>
      InitiateFrame(env, s, f, m);
      InitiateAccounted(env, s, f, m, c);
    case IncomingFrame(f, frame) => FrameLeaves(env, s, f, frame, t, e, c);
    case IncomingConnection(c', introduced) => IncomingLeaves(env, s, c', introduced, t, e, c);
    case EndpointDisconnect(service, f) => DisconnectLeaves(env, s, service, f, e, c);
    case AlarmFires(f) => AlarmLeaves(env, s, f, t, e, c);
    case Stop => ShutDownLeaves(env, s, e, c);
    case RegisterChannel(f, c') => Snoc(s.io.log, Registered(f, c'), c);
    case UnregisterChannel(f) => Snoc(s.io.log, Unregistered(f), c);
    case _ =>
  }

  lemma AlarmLeaves(env: Env, s: State, f: EndpointId, t: State, e: EndpointId, c: Channel)
    requires ParkedFor(s, e, c) && t == FireAlarm(env, s, f).state
    ensures Left(t, e, c, None)
  {
    ParkedIsParked(s, e, c);
    var s1 := CancelAlarm(s, f);
    StillParkedFor(s, s1, e, c);
    if f in s.retry.alarms && ClientOf(s, f).connected {
      NextBestFrame(env, s1, f, ClientOf(s, f).mediums);
      FrameAccounted(s1, t, f, c);
    }
  }

  // -- operations on channels that are not parked ---------------------------

  /** Operations that may swap the channel of `e`. */
  predicate MaySwap(op: Op, e: EndpointId) {
    op.IncomingConnection? || (op.IncomingFrame? && op.e == e && op.f.PathAvailable?)
  }

  /**
   * The registered channel `c` of `e` was displaced and parked; if an early LAST_WRITE was on record and could
   * not be answered, it was closed at once.
   */
  ghost predicate Enters(s: State, t: State, e: EndpointId, c: Channel) {
    && e in s.registry && s.registry[e] == c && StatusOf(s.io.log, c) == NeverParked
    && (|| (StatusOf(t.io.log, c) == IsParked && e in t.up.parked && t.up.parked[e] == c)
        || (StatusOf(t.io.log, c) == Gone(ByClose(IoError)) && e in s.up.latched))
  }

  /** Nothing became of `c`. */
  ghost predicate SameStatus(s: State, t: State, c: Channel) {
    StatusOf(t.io.log, c) == StatusOf(s.io.log, c)
  }

  ghost predicate Outside(s: State, c: Channel) {
    Conserved(s, c) && !Parked(s, c)
  }

  lemma NotParked(s: State, e: EndpointId, c: Channel)
    requires Outside(s, c)
    ensures StatusOf(s.io.log, c) != IsParked && !(e in s.up.parked && s.up.parked[e] == c)
    ensures e in s.registry && s.registry[e] == c ==> StatusOf(s.io.log, c) == NeverParked
  {
    assert e in s.registry && s.registry[e] == c ==> InUse(s, c);
  }

  lemma SwapEnters(env: Env, s: State, f: EndpointId, c': Channel, t: State, c: Channel)
    requires Outside(s, c) && t == RunProtocol(env, s, f, c')
    ensures SameStatus(s, t, c) || Enters(s, t, f, c)
  {
    NotParked(s, f, c);
    var prior := if f in s.registry then s.registry[f] else c';
    var swapped := s.io.log + [Paused(c')] + [Registered(f, c')];
    SwapStatus(s.io.log, f, prior, c', Next(env, swapped), c);
    if f in s.registry && Next(env, swapped) {
      var s1 := s.(registry := s.registry[f := c'],
                   io := s.io.(paused := s.io.paused + {c'}, log := swapped + [Wrote(f, prior, LastWrite, true)]));
      if prior == c {
        ParkOwn(env, s1, f, c);
      } else {
        ParkOthers(env, s1, f, prior, c);
      }
    }
  }

  /** Parking `prior` concerns no other channel than it and the one parked before. */
  lemma ParkOthers(env: Env, s: State, f: EndpointId, prior: Channel, c: Channel)
    requires c != prior && !(f in s.up.parked && s.up.parked[f] == c)
    ensures SameStatus(s, Park(env, s, f, prior), c)
  {
    DisplacedStatus(s, f, prior, c);
    LastWriteStatus(env, Displaced(s, f, prior), f, c);
  }

  lemma ParkOwn(env: Env, s: State, f: EndpointId, c: Channel)
    requires StatusOf(s.io.log, c) == IsParked && !(f in s.up.parked && s.up.parked[f] == c)
    ensures var t := Park(env, s, f, c);
      || (StatusOf(t.io.log, c) == IsParked && f in t.up.parked && t.up.parked[f] == c)
      || (StatusOf(t.io.log, c) == Gone(ByClose(IoError)) && f in s.up.latched)
  {
    DisplacedStatus(s, f, c, c);
    LastWriteStatus(env, Displaced(s, f, c), f, c);
  }

  lemma StillOutside(s: State, t: State, c: Channel)
    requires Outside(s, c) && SameStatus(s, t, c)
    requires t.registry == s.registry && t.up.parked == s.up.parked && t.up.latched == s.up.latched
    requires t.io.paused == s.io.paused && s.io.nextChannel <= t.io.nextChannel
    ensures Outside(t, c)
  {
    SameUse(s, t, c);
    KeptParked(s, t, "", c);
  }

  lemma AcceptEnters(env: Env, s: State, f: EndpointId, info: PathInfo, t: State, c: Channel)
    requires Outside(s, c) && t == Accept(env, s, f, info)
    ensures SameStatus(s, t, c) || Enters(s, t, f, c)
  {
    if info.medium != MediumFor(env, s, f) {
      RefusalAccounted(env, s, f, info, c);
    } else {
      var (s1, made) := Dial(env, s, f, info);
      DialedStatus(env, s, f, info, s1, c);
      StillOutside(s, s1, c);
      if made.None? {
        RefusalAccounted(env, s1, f, info, c);
      } else {
        JoinedEnters(env, s1, f, made.value, t, c);
      }
    }
  }

  lemma JoinedEnters(env: Env, s: State, f: EndpointId, made: Channel, t: State, c: Channel)
    requires Outside(s, c) && t == RunProtocol(env, Emit(Started(s, f), Joined(f)), f, made)
    ensures SameStatus(s, t, c) || Enters(s, t, f, c)
  {
    Snoc(s.io.log, Joined(f), c);
    StillOutside(s, Emit(Started(s, f), Joined(f)), c);
    SwapEnters(env, Emit(Started(s, f), Joined(f)), f, made, t, c);
  }

  lemma OfferEnters(env: Env, s: State, f: EndpointId, info: PathInfo, t: State, c: Channel)
    requires Outside(s, c) && t == OnPathAvailable(env, s, f, info)
    ensures SameStatus(s, t, c) || Enters(s, t, f, c)
  {
    NotParked(s, f, c);
    if Barred(s, info.medium) {
      RefusalAccounted(env, s, f, info, c);
    } else if ClientOf(s, f).incoming {
    } else if f in s.up.inProgress {
      DuplicateStatus(s, f, c);
    } else {
      var s1 := Adopted(env, s, f, info.medium);
      AdoptedFrame(env, s, f, info.medium);
      StillOutside(s, s1, c);
      AcceptEnters(env, s1, f, info, t, c);
    }
  }

  lemma FrameEnters(env: Env, s: State, f: EndpointId, frame: Received, t: State, c: Channel)
    requires Outside(s, c) && t == OnFrame(env, s, f, frame).state
    ensures SameStatus(s, t, c) || (frame.PathAvailable? && Enters(s, t, f, c))
  {
    NotParked(s, f, c);
    match frame
    case PathAvailable(Some(info)) =>
      if ClientOf(s, f).connected {
        OfferEnters(env, s, f, info, t, c);
      } else {
        RefusalAccounted(env, s, f, info, c);
      }
    case UpgradeFailure(Some(info)) =>
      FailureFrame(env, s, f, info.medium);
      FrameAccounted(s, FailureOnce(env, s, f, info.medium).state, f, c);
    case LastWriteToPriorChannel => LastWriteStatus(env, s, f, c);
    case SafeToClosePriorChannel =>
      if f in s.up.parked {
        SafeToCloseStatus(env, s, f, c);
      }
    case _ =>
  }

  lemma IncomingEnters(env: Env, s: State, c': Channel, introduced: Option<EndpointId>, t: State, c: Channel)
    requires Outside(s, c) && t == OnIncoming(env, s, c', introduced)
    ensures SameStatus(s, t, c) || exists e :: Enters(s, t, e, c)
  {
    var (s1, id) := Introduced(env, s, c', introduced);
    IntroducedStatus(env, s, c', introduced, s1, c);
    StillOutside(s, s1, c);
    if id.Some? && Target(s1, id.value).Some? {
      var f := Target(s1, id.value).value;
      StillOutside(s1, CancelAlarm(s1, f), c);
      SwapEnters(env, CancelAlarm(s1, f), f, c', t, c);
      assert SameStatus(s, t, c) || Enters(s, t, f, c);
    }
  }

  lemma DisconnectSame(env: Env, s: State, service: ServiceId, f: EndpointId, c: Channel)
    requires Outside(s, c)
    ensures SameStatus(s, OnDisconnect(env, s, service, f), c)
  {
    var s1 := Forget(env, s, f);
    NotParked(s, f, c);
    ForgetStatus(env, s, f, c);
    ForgetAccounted(env, s, f, c);
    RevertFrame(env, s1, service, f);
    FrameAccounted(s1, Revert(env, s1, service, f), f, c);
  }

  lemma ShutDownSame(env: Env, s: State, c: Channel)
    requires Outside(s, c)
    ensures SameStatus(s, DoShutDown(env, s), c)
  {
    NotParked(s, "", c);
    ShutDownAccounted(env, s, c);
  }

  lemma AlarmSame(env: Env, s: State, f: EndpointId, c: Channel)
    requires Outside(s, c)
    ensures SameStatus(s, FireAlarm(env, s, f).state, c)
  {
    var s1 := CancelAlarm(s, f);
    StillOutside(s, s1, c);
    if f in s.retry.alarms && ClientOf(s, f).connected {
      NextBestFrame(env, s1, f, ClientOf(s, f).mediums);
      FrameAccounted(s1, FireAlarm(env, s, f).state, f, c);
    }
  }

  /** The status of a channel that is not parked changes only when a swap displaces it. */
  lemma BeginEnters(env: Env, s: State, op: Op, t: State, c: Channel)
    requires Outside(s, c) && t == Begin(env, s, op).state
    ensures SameStatus(s, t, c) || exists e :: MaySwap(op, e) && Enters(s, t, e, c)
  {
    match op
    case Initiate(f, m) => InitiateAccounted(env, s, f, m, c);
    case IncomingFrame(f, frame) => FrameEnters(env, s, f, frame, t, c);
    case IncomingConnection(c', introduced) =>
      IncomingEnters(env, s, c', introduced, t, c);
      assert forall e :: Enters(s, t, e, c) ==> MaySwap(op, e);
    case EndpointDisconnect(service, f) => DisconnectSame(env, s, service, f, c);
    case AlarmFires(f) => AlarmSame(env, s, f, c);
    case Stop => ShutDownSame(env, s, c);
    case RegisterChannel(f, c') => Snoc(s.io.log, Registered(f, c'), c);
    case UnregisterChannel(f) => Snoc(s.io.log, Unregistered(f), c);
    case _ =>
  }

  // -- whole calls and whole runs -------------------------------------------

  lemma {:induction false} RoundsSame(env: Env, e: EndpointId, os: seq<Outcome>, c: Channel)
    requires Rounds(env, e, os) && Conserved(os[0].state, c)
    ensures SameStatus(os[0].state, os[|os| - 1].state, c) && os[|os| - 1].state.up.parked == os[0].state.up.parked
    decreases |os|
  {
    if |os| > 1 {
      RoundsTail(env, e, os);
      RoundSame(env, os[0].state, e, os[0].medium, c, os[1..][0].state);
      RoundsSame(env, e, os[1..], c);
    }
  }

  lemma RoundSame(env: Env, s: State, e: EndpointId, m: Medium, c: Channel, t: State)
    requires Conserved(s, c) && t == InitiateOnce(env, s, e, m).state
    ensures Conserved(t, c) && SameStatus(s, t, c) && t.up.parked == s.up.parked
  {
    InitiateConserved(env, s, e, m, c);
    InitiateAccounted(env, s, e, m, c);
    InitiateFrame(env, s, e, m);
  }

  /** A whole call, re-initiations included. */
  lemma CallLeaves(env: Env, s: State, call: Call, t: State, e: EndpointId, c: Channel)
    requires ParkedFor(s, e, c) && Orderly(s, call.op) && Leads(env, s, call, t)
    ensures Left(t, e, c, Departure(env, s, call.op, e))
  {
    BeginLeaves(env, s, call.op, call.rounds[0].state, e, c);
    BeginConserved(env, s, call.op, c);
    RoundsSame(env, Subject(call.op), call.rounds, c);
  }

  lemma CallEnters(env: Env, s: State, call: Call, t: State, c: Channel)
    requires Outside(s, c) && Orderly(s, call.op) && Leads(env, s, call, t)
    ensures SameStatus(s, t, c) || exists e :: MaySwap(call.op, e) && Enters(s, t, e, c)
  {
    BeginEnters(env, s, call.op, call.rounds[0].state, c);
    BeginConserved(env, s, call.op, c);
    RoundsSame(env, Subject(call.op), call.rounds, c);
    if !SameStatus(s, call.rounds[0].state, c) {
      var e :| MaySwap(call.op, e) && Enters(s, call.rounds[0].state, e, c);
      assert Enters(s, t, e, c);
    }
  }

  /**
   * In every orderly run, at every call that finds `c` parked for `e`: afterwards `c` is gone in the way that
   * belongs to the operation, or still parked for `e`.
   */
  lemma ParkedChannelsLeaveProperly(env: Env, mediums: set<Medium>, calls: seq<Call>, i: nat, e: EndpointId, c: Channel)
    requires Execution(env, Fresh(mediums), calls) && Throughout(Fresh(mediums), calls, Orderly) && i < |calls|
    requires var s := End(Fresh(mediums), calls[..i]); e in s.up.parked && s.up.parked[e] == c
    ensures var s, t := End(Fresh(mediums), calls[..i]), End(Fresh(mediums), calls[..i + 1]);
      Left(t, e, c, Departure(env, s, calls[i].op, e))
  {
    CallAt(env, Fresh(mediums), calls, Orderly, i);
    RunConserved(env, mediums, calls[..i], c);
    CallLeaves(env, End(Fresh(mediums), calls[..i]), calls[i], End(Fresh(mediums), calls[..i + 1]), e, c);
  }

  /** The call that made `c` go, in the way it went. */
  ghost predicate Causes(env: Env, s: State, op: Op, t: State, e: EndpointId, c: Channel, exit: Exit) {
    && StatusOf(t.io.log, c) == Gone(exit)
    && (|| (e in s.up.parked && s.up.parked[e] == c && Departure(env, s, op, e) == Some(exit))
        || (MaySwap(op, e) && Enters(s, t, e, c)))
  }

  /** Where a list of statuses that does not begin with an exit first shows the exit it ends with. */
  lemma {:induction false} LastChange(statuses: seq<Status>, n: nat) returns (i: nat)
    requires n < |statuses| && !statuses[0].Gone? && statuses[n].Gone?
    ensures i < n && statuses[i + 1] == statuses[n] && statuses[i] != statuses[i + 1]
    decreases n
  {
    i := n - 1;
    if statuses[n - 1] == statuses[n] {
      i := LastChange(statuses, n - 1);
    }
  }

  /**
   * In every orderly run each channel that was parked and is gone went in some call, by the operation to which
   * that way belongs while it was parked, or at once when the call that parked it could not answer an early LAST_WRITE.
   */
  lemma EveryExitHasItsCause(env: Env, mediums: set<Medium>, calls: seq<Call>, c: Channel) returns (i: nat, e: EndpointId)
    requires Execution(env, Fresh(mediums), calls) && Throughout(Fresh(mediums), calls, Orderly)
    requires StatusOf(End(Fresh(mediums), calls).io.log, c).Gone?
    ensures i < |calls|
    ensures Causes(env, End(Fresh(mediums), calls[..i]), calls[i].op, End(Fresh(mediums), calls[..i + 1]), e, c,
                   StatusOf(End(Fresh(mediums), calls).io.log, c).exit)
  {
    var statuses := seq(|calls| + 1, k requires 0 <= k <= |calls| => StatusOf(End(Fresh(mediums), calls[..k]).io.log, c));
    assert calls[..|calls|] == calls && calls[..0] == [];
    i := LastChange(statuses, |calls|);
    e := CauseAt(env, mediums, calls, i, c);
  }

  lemma CauseAt(env: Env, mediums: set<Medium>, calls: seq<Call>, i: nat, c: Channel) returns (e: EndpointId)
    requires Execution(env, Fresh(mediums), calls) && Throughout(Fresh(mediums), calls, Orderly) && i < |calls|
    requires var s, t := End(Fresh(mediums), calls[..i]), End(Fresh(mediums), calls[..i + 1]);
      StatusOf(t.io.log, c).Gone? && !SameStatus(s, t, c)
    ensures var s, t := End(Fresh(mediums), calls[..i]), End(Fresh(mediums), calls[..i + 1]);
      Causes(env, s, calls[i].op, t, e, c, StatusOf(t.io.log, c).exit)
  {
    CallAt(env, Fresh(mediums), calls, Orderly, i);
    RunConserved(env, mediums, calls[..i], c);
    e := CallCauses(env, End(Fresh(mediums), calls[..i]), calls[i], End(Fresh(mediums), calls[..i + 1]), c);
  }

  lemma CallCauses(env: Env, s: State, call: Call, t: State, c: Channel) returns (e: EndpointId)
    requires Conserved(s, c) && Orderly(s, call.op) && Leads(env, s, call, t) && StatusOf(t.io.log, c).Gone?
    ensures SameStatus(s, t, c) || Causes(env, s, call.op, t, e, c, StatusOf(t.io.log, c).exit)
  {
    if Parked(s, c) {
      e := WhoseParked(s, c);
      CallLeaves(env, s, call, t, e, c);
    } else {
      CallEnters(env, s, call, t, c);
      if SameStatus(s, t, c) {
        e := "";
      } else {
        e :| MaySwap(call.op, e) && Enters(s, t, e, c);
      }
    }
  }

  lemma WhoseParked(s: State, c: Channel) returns (e: EndpointId)
    requires Parked(s, c)
    ensures e in s.up.parked && s.up.parked[e] == c
  {
    e :| e in s.up.parked && s.up.parked[e] == c;
  }
}
