/** Every channel that is ever parked is still parked, or left in exactly one of the possible ways. */
module Conservation {
  import opened Wrappers
  import opened ServiceIds
  import opened Protocol
  import opened BwuSpec
  import opened Frames
  import opened Parking

  datatype Exit = ByClose(reason: Reason) | LetGo

  /** What the log says about one channel. */
  datatype Status = NeverParked | IsParked | Gone(exit: Exit) | Mistreated

  /** A channel is parked by a successful LAST_WRITE; any further parking, close or release is a mistake. */
  function Advance(st: Status, event: Event, c: Channel): Status {
    if event.Wrote? && event.channel == c && event.frame == LastWrite && event.ok then
      if st.NeverParked? then IsParked else Mistreated
    else if event.Closed? && event.channel == c then
      if st.NeverParked? then st else if st.IsParked? then Gone(ByClose(event.reason)) else Mistreated
    else if event.Released? && event.channel == c then
      if st.IsParked? then Gone(LetGo) else Mistreated
    else if event.ShutDown? && st.IsParked? then Gone(LetGo)
    else st
  }

  function StatusOf(log: Log, c: Channel): Status {
    if log == [] then NeverParked else Advance(StatusOf(log[..|log| - 1], c), log[|log| - 1], c)
  }

  lemma Snoc(log: Log, event: Event, c: Channel)
    ensures StatusOf(log + [event], c) == Advance(StatusOf(log, c), event, c)
  {
    assert (log + [event])[..|log|] == log;
  }

  lemma GoodbyeStatus(log: Log, e: EndpointId, prev: Channel, ok: bool, c: Channel)
    ensures StatusOf(log + [EncryptionOff(e, prev)] + [Wrote(e, prev, Disconnection, ok)] + [DrainRead(e, prev)], c) == StatusOf(log, c)
  {
    var l1 := log + [EncryptionOff(e, prev)];
    var l2 := l1 + [Wrote(e, prev, Disconnection, ok)];
    Snoc(log, EncryptionOff(e, prev), c);
    Snoc(l1, Wrote(e, prev, Disconnection, ok), c);
    Snoc(l2, DrainRead(e, prev), c);
  }

  lemma ResumedStatus(log: Log, e: EndpointId, used: Channel, c: Channel)
    ensures StatusOf(log + [Resumed(used)] + [BandwidthChanged(e, used.medium)], c) == StatusOf(log, c)
  {
    Snoc(log, Resumed(used), c);
    Snoc(log + [Resumed(used)], BandwidthChanged(e, used.medium), c);
  }

  /** Of the end of a handshake, only the close matters. */
  lemma ClosingStatus(log: Log, e: EndpointId, prev: Channel, ok: bool, used: Channel, c: Channel)
    ensures var closed := log + [EncryptionOff(e, prev)] + [Wrote(e, prev, Disconnection, ok)] + [DrainRead(e, prev)]
                              + [Closed(e, prev, Upgraded)];
      && StatusOf(closed, c) == Advance(StatusOf(log, c), Closed(e, prev, Upgraded), c)
      && StatusOf(closed + [Resumed(used)] + [BandwidthChanged(e, used.medium)], c) == StatusOf(closed, c)
  {
    var drained := log + [EncryptionOff(e, prev)] + [Wrote(e, prev, Disconnection, ok)] + [DrainRead(e, prev)];
    GoodbyeStatus(log, e, prev, ok, c);
    Snoc(drained, Closed(e, prev, Upgraded), c);
    ResumedStatus(drained + [Closed(e, prev, Upgraded)], e, used, c);
  }

  /** Of a swap, only a successful LAST_WRITE matters. */
  lemma SwapStatus(log: Log, e: EndpointId, prior: Channel, c': Channel, ok: bool, c: Channel)
    ensures StatusOf(log + [Paused(c')] + [Registered(e, c')] + [Wrote(e, prior, LastWrite, ok)], c)
         == Advance(StatusOf(log, c), Wrote(e, prior, LastWrite, ok), c)
    ensures StatusOf(log + [Paused(c')], c) == StatusOf(log, c)
  {
    var l1 := log + [Paused(c')];
    var l2 := l1 + [Registered(e, c')];
    Snoc(log, Paused(c'), c); Snoc(l1, Registered(e, c'), c); Snoc(l2, Wrote(e, prior, LastWrite, ok), c);
  }

  /** Events that cannot change the status of `c`, given that it was never parked or is not closed here. */
  lemma {:induction false} StatusKept(log: Log, longer: Log, c: Channel)
    requires |log| <= |longer| && longer[..|log|] == log
    requires forall i :: |log| <= i < |longer| ==> Advance(StatusOf(log, c), longer[i], c) == StatusOf(log, c)
    ensures StatusOf(longer, c) == StatusOf(log, c)
    decreases |longer|
  {
    if |longer| > |log| {
      assert longer[..|longer| - 1][..|log|] == log;
      StatusKept(log, longer[..|longer| - 1], c);
    } else {
      assert longer == log;
    }
  }

  ghost predicate InUse(s: State, c: Channel) {
    exists e :: e in s.registry && s.registry[e] == c
  }

  ghost predicate Parked(s: State, c: Channel) {
    exists e :: e in s.up.parked && s.up.parked[e] == c
  }

  ghost predicate Accounted(s: State, c: Channel) {
    var st := StatusOf(s.io.log, c);
    && st != Mistreated
    && (st == IsParked <==> Parked(s, c))
    && (InUse(s, c) ==> st == NeverParked)
    && (s.io.nextChannel <= c.id ==> st == NeverParked)
  }

  // -- steps ----------------------------------------------------------------

  lemma FrameAccounted(s: State, t: State, e: EndpointId, c: Channel)
    requires Accounted(s, c) && (OnlyFailover(s, t, e) || OnlyHandlers(s, t))
    ensures Accounted(t, c) && StatusOf(t.io.log, c) == StatusOf(s.io.log, c)
  {
    StatusKept(s.io.log, t.io.log, c);
    assert t.up.parked == s.up.parked;
  }

  lemma RefusalAccounted(env: Env, s: State, e: EndpointId, info: PathInfo, c: Channel)
    requires Accounted(s, c)
    ensures Accounted(FailedProtocol(env, s, e, info), c)
    ensures StatusOf(FailedProtocol(env, s, e, info).io.log, c) == StatusOf(s.io.log, c)
  {
    var t := FailedProtocol(env, s, e, info);
    FailedProtocolFrame(env, s, e, info);
    forall i | |s.io.log| <= i < |t.io.log|
      ensures Advance(StatusOf(s.io.log, c), t.io.log[i], c) == StatusOf(s.io.log, c)
    {
      assert ByRefusal(t.io.log[i], s, e, info);
      if e in s.registry && t.io.log[i] == Closed(e, s.registry[e], IoError) && s.registry[e] == c {
        assert InUse(s, c);
      }
    }
    StatusKept(s.io.log, t.io.log, c);
    assert t.up.parked == s.up.parked;
  }

  lemma LastWriteStatus(env: Env, s: State, e: EndpointId, c: Channel)
    ensures StatusOf(OnLastWrite(env, s, e).io.log, c)
         == if e in s.up.parked && !Next(env, s.io.log) then Advance(StatusOf(s.io.log, c), Closed(e, s.up.parked[e], IoError), c)
            else StatusOf(s.io.log, c)
  {
    if e in s.up.parked {
      var wrote := Wrote(e, s.up.parked[e], SafeToClose, Next(env, s.io.log));
      Snoc(s.io.log, wrote, c);
      Snoc(s.io.log + [wrote], Closed(e, s.up.parked[e], IoError), c);
    }
  }

  lemma LastWriteAccounted(env: Env, s: State, e: EndpointId, c: Channel)
    requires ParkInv(s) && Accounted(s, c)
    ensures Accounted(OnLastWrite(env, s, e), c)
  {
    if e in s.up.parked {
      LastWriteStatus(env, s, e, c);
      if s.up.parked[e] == c {
        assert Parked(s, c);
      }
      KeptParked(s, OnLastWrite(env, s, e), e, c);
      SameUse(s, OnLastWrite(env, s, e), c);
    }
  }

  lemma SameUse(s: State, t: State, c: Channel)
    requires s.registry == t.registry
    ensures InUse(s, c) <==> InUse(t, c)
  {
  }

  /** Only `e`'s parked channel changed: whether `c` is parked for another endpoint did not. */
  lemma KeptParked(s: State, t: State, e: EndpointId, c: Channel)
    requires forall f :: f != e ==>
      (f in s.up.parked <==> f in t.up.parked) && (f in s.up.parked ==> s.up.parked[f] == t.up.parked[f])
    ensures !(e in s.up.parked && s.up.parked[e] == c) && !(e in t.up.parked && t.up.parked[e] == c) ==>
              (Parked(s, c) <==> Parked(t, c))
    ensures e in t.up.parked && t.up.parked[e] == c ==> Parked(t, c)
  {
    if Parked(s, c) {
      var f :| f in s.up.parked && s.up.parked[f] == c;
      assert f != e ==> t.up.parked[f] == c;
    }
  }

  lemma ParkAccounted(env: Env, s: State, e: EndpointId, prior: Channel, c: Channel)
    requires Owned(s) && Exclusive(s) && Apart(s)
    requires prior.id < s.io.nextChannel && e in s.registry && s.registry[e] in s.io.paused
    requires forall f :: f in s.registry ==> s.registry[f] != prior
    requires forall f :: f in s.up.parked && f != e ==> s.up.parked[f] != prior
    requires c != prior ==> Accounted(s, c)
    requires c == prior ==> StatusOf(s.io.log, c) == IsParked && !Parked(s, c)
    ensures Accounted(Park(env, s, e, prior), c)
  {
    var log := if e in s.up.parked then s.io.log + [Released(e, s.up.parked[e])] else s.io.log;
    var s1 := s.(up := s.up.(parked := s.up.parked[e := prior], latched := s.up.latched - {e}), io := s.io.(log := log));
    DisplacedAccounted(s, e, prior, c, s1);
    DisplacedKeeps(s, e, prior, s1);
    LastWriteAccounted(env, s1, e, c);
  }

  lemma DisplacedKeeps(s: State, e: EndpointId, prior: Channel, t: State)
    requires Owned(s) && Exclusive(s) && Apart(s)
    requires prior.id < s.io.nextChannel && e in s.registry && s.registry[e] in s.io.paused
    requires forall f :: f in s.registry ==> s.registry[f] != prior
    requires forall f :: f in s.up.parked && f != e ==> s.up.parked[f] != prior
    requires t == s.(up := s.up.(parked := s.up.parked[e := prior], latched := s.up.latched - {e}), io := s.io.(log := t.io.log))
    ensures ParkInv(t)
  {
  }

  /** `prior` takes the place of the channel parked before it, if any. */
  lemma DisplacedAccounted(s: State, e: EndpointId, prior: Channel, c: Channel, t: State)
    requires Owned(s) && prior.id < s.io.nextChannel
    requires forall f :: f in s.registry ==> s.registry[f] != prior
    requires c != prior ==> Accounted(s, c)
    requires c == prior ==> StatusOf(s.io.log, c) == IsParked && !Parked(s, c)
    requires t == s.(up := t.up, io := s.io.(log := t.io.log)) && t.up.parked == s.up.parked[e := prior]
    requires t.io.log == if e in s.up.parked then s.io.log + [Released(e, s.up.parked[e])] else s.io.log
    ensures Accounted(t, c)
  {
    if e in s.up.parked {
      Snoc(s.io.log, Released(e, s.up.parked[e]), c);
      if s.up.parked[e] == c {
        assert Parked(s, c);
        assert !Parked(t, c);
      }
    }
    KeptParked(s, t, e, c);
    SameUse(s, t, c);
  }

  lemma RunProtocolAccounted(env: Env, s: State, e: EndpointId, c': Channel, c: Channel)
    requires ParkInv(s) && Accounted(s, c) && c'.id < s.io.nextChannel
    requires forall f :: f in s.registry ==> s.registry[f] != c'
    requires forall f :: f in s.up.parked ==> s.up.parked[f] != c'
    requires c == c' ==> StatusOf(s.io.log, c) == NeverParked
    ensures Accounted(RunProtocol(env, s, e, c'), c)
  {
    var prior := if e in s.registry then s.registry[e] else c';
    var swapped := s.io.log + [Paused(c')] + [Registered(e, c')];
    var ok := Next(env, swapped);
    SwapStatus(s.io.log, e, prior, c', ok, c);
    if e in s.registry {
      var s1 := s.(registry := s.registry[e := c'],
                   io := s.io.(paused := s.io.paused + {c'}, log := swapped + [Wrote(e, prior, LastWrite, ok)]));
      SwapUse(s, s1, e, c', c);
      if ok {
        assert ParkInv(s1);
        ParkAccounted(env, s1, e, prior, c);
      }
    } else {
      var t := RunProtocol(env, s, e, c');
      SameUse(s, t, c);
      KeptParked(s, t, e, c);
    }
  }

  /** After the swap the displaced channel is neither in use nor parked, and nothing else came into use. */
  lemma SwapUse(s: State, t: State, e: EndpointId, c': Channel, c: Channel)
    requires Owned(s) && Apart(s) && e in s.registry && s.registry[e] != c'
    requires t.registry == s.registry[e := c'] && t.up.parked == s.up.parked
    ensures Parked(s, c) <==> Parked(t, c)
    ensures InUse(t, c) && c != c' ==> InUse(s, c)
    ensures c == s.registry[e] ==> InUse(s, c) && !InUse(t, c) && !Parked(t, c)
  {
    assert InUse(s, s.registry[e]);
  }

  /** `e`'s parked channel, if any, left in the way the log says, and nothing else did. */
  lemma UnparkAccounted(s: State, t: State, e: EndpointId, exit: Exit, c: Channel)
    requires ParkInv(s) && Accounted(s, c)
    requires t.registry == s.registry && t.up.parked == s.up.parked - {e} && t.io.nextChannel == s.io.nextChannel
    requires StatusOf(t.io.log, c)
          == if e in s.up.parked && s.up.parked[e] == c then Gone(exit) else StatusOf(s.io.log, c)
    ensures Accounted(t, c)
  {
    KeptParked(s, t, e, c);
    SameUse(s, t, c);
    if e in s.up.parked && s.up.parked[e] == c {
      assert Parked(s, c);
    }
  }

  lemma SafeToCloseAccounted(env: Env, s: State, e: EndpointId, c: Channel)
    requires ParkInv(s) && Accounted(s, c)
    ensures Accounted(OnSafeToClose(env, s, e), c)
  {
    if e in s.up.parked {
      SafeToCloseStatus(env, s, e, c);
      UnparkAccounted(s, OnSafeToClose(env, s, e), e, ByClose(Upgraded), c);
    }
  }

  lemma SafeToCloseStatus(env: Env, s: State, e: EndpointId, c: Channel)
    requires Accounted(s, c) && e in s.up.parked
    ensures StatusOf(OnSafeToClose(env, s, e).io.log, c)
         == if s.up.parked[e] == c then Gone(ByClose(Upgraded)) else StatusOf(s.io.log, c)
  {
    var prev := s.up.parked[e];
    ClosingStatus(s.io.log, e, prev, Next(env, s.io.log + [EncryptionOff(e, prev)]),
                  if e in s.registry then s.registry[e] else prev, c);
    if prev == c {
      assert Parked(s, c);
    }
  }

  lemma DuplicateStatus(s: State, e: EndpointId, c: Channel)
    ensures var st := StatusOf(s.io.log, c);
      var st1 := if e in s.up.parked then Advance(st, Closed(e, s.up.parked[e], Unfinished), c) else st;
      StatusOf(DuplicateOffer(s, e).io.log, c)
      == if e in s.registry then Advance(st1, Closed(e, s.registry[e], Unfinished), c) else st1
  {
    var log := s.io.log;
    if e in s.up.parked {
      Snoc(log, Closed(e, s.up.parked[e], Unfinished), c);
      log := log + [Closed(e, s.up.parked[e], Unfinished)];
    }
    if e in s.registry {
      Snoc(log, Resumed(s.registry[e]), c);
      Snoc(log + [Resumed(s.registry[e])], Closed(e, s.registry[e], Unfinished), c);
    }
  }

  lemma DuplicateAccounted(s: State, e: EndpointId, c: Channel)
    requires ParkInv(s) && Accounted(s, c)
    ensures Accounted(DuplicateOffer(s, e), c)
  {
    var t := DuplicateOffer(s, e);
    DuplicateStatus(s, e, c);
    if e in s.up.parked && s.up.parked[e] == c {
      assert Parked(s, c);
    }
    if e in s.registry && s.registry[e] == c {
      assert InUse(s, c);
    }
    KeptParked(s, t, e, c);
    SameUse(s, t, c);
  }

  lemma ForgetStatus(env: Env, s: State, e: EndpointId, c: Channel)
    ensures StatusOf(Forget(env, s, e).io.log, c)
         == if e in s.up.parked then Advance(StatusOf(s.io.log, c), Closed(e, s.up.parked[e], Shutdown), c)
            else StatusOf(s.io.log, c)
  {
    var m := MediumFor(env, s, e);
    if HasHandler(s, m) {
      Snoc(s.io.log, HandlerDisconnect(m, e), c);
      ForgottenStatus(s.io.log + [HandlerDisconnect(m, e)], s, e, c);
    } else {
      ForgottenStatus(s.io.log, s, e, c);
    }
  }

  lemma ForgottenStatus(log: Log, s: State, e: EndpointId, c: Channel)
    ensures e in s.up.parked ==>
      StatusOf(log + [Closed(e, s.up.parked[e], Shutdown)] + [Forgotten(e)], c)
      == Advance(StatusOf(log, c), Closed(e, s.up.parked[e], Shutdown), c)
    ensures StatusOf(log + [Forgotten(e)], c) == StatusOf(log, c)
  {
    if e in s.up.parked {
      Snoc(log, Closed(e, s.up.parked[e], Shutdown), c);
      Snoc(log + [Closed(e, s.up.parked[e], Shutdown)], Forgotten(e), c);
    }
    Snoc(log, Forgotten(e), c);
  }

  lemma ForgetAccounted(env: Env, s: State, e: EndpointId, c: Channel)
    requires ParkInv(s) && Accounted(s, c)
    ensures Accounted(Forget(env, s, e), c)
  {
    ForgetStatus(env, s, e, c);
    if e in s.up.parked && s.up.parked[e] == c {
      assert Parked(s, c);
    }
    UnparkAccounted(s, Forget(env, s, e), e, ByClose(Shutdown), c);
  }

  lemma DialAccounted(env: Env, s: State, e: EndpointId, info: PathInfo, c: Channel)
    requires Accounted(s, c)
    ensures var (t, made) := Dial(env, s, e, info);
      Accounted(t, c) && StatusOf(t.io.log, c) == StatusOf(s.io.log, c)
      && (made == Some(c) ==> StatusOf(t.io.log, c) == NeverParked)
  {
    var t := Dial(env, s, e, info).0;
    DialFrame(env, s, e, info);
    StatusKept(s.io.log, t.io.log, c);
    KeptParked(s, t, e, c);
    SameUse(s, t, c);
  }

  lemma AcceptAccounted(env: Env, s: State, e: EndpointId, info: PathInfo, c: Channel)
    requires ParkInv(s) && Accounted(s, c)
    ensures Accounted(Accept(env, s, e, info), c)
  {
    RefusalAccounted(env, s, e, info, c);
    DialAccounted(env, s, e, info, c);
    var (s1, made) := Dial(env, s, e, info);
    RefusalAccounted(env, s1, e, info, c);
    if made.Some? {
      var s2 := Emit(Started(s1, e), Joined(e));
      Snoc(s1.io.log, Joined(e), c);
      KeptParked(s1, s2, e, c);
      SameUse(s1, s2, c);
      RunProtocolAccounted(env, s2, e, made.value, c);
    }
  }

  lemma PathAvailableAccounted(env: Env, s: State, e: EndpointId, info: PathInfo, c: Channel)
    requires ParkInv(s) && Accounted(s, c)
    ensures Accounted(OnPathAvailable(env, s, e, info), c)
  {
    if Barred(s, info.medium) {
      RefusalAccounted(env, s, e, info, c);
    } else if !ClientOf(s, e).incoming {
      if e in s.up.inProgress {
        DuplicateAccounted(s, e, c);
      } else {
        var s1 := Adopted(env, s, e, info.medium);
        AdoptedFrame(env, s, e, info.medium);
        KeptParked(s, s1, e, c);
        SameUse(s, s1, c);
        AcceptAccounted(env, s1, e, info, c);
      }
    }
  }

  lemma OnFrameAccounted(env: Env, s: State, e: EndpointId, f: Received, c: Channel)
    requires ParkInv(s) && Accounted(s, c)
    ensures Accounted(OnFrame(env, s, e, f).state, c)
  {
    match f
    case PathAvailable(Some(info)) =>
      RefusalAccounted(env, s, e, info, c);
      PathAvailableAccounted(env, s, e, info, c);
    case UpgradeFailure(Some(info)) =>
      FailureFrame(env, s, e, info.medium);
      FrameAccounted(s, FailureOnce(env, s, e, info.medium).state, e, c);
    case LastWriteToPriorChannel => LastWriteAccounted(env, s, e, c);
    case SafeToClosePriorChannel => SafeToCloseAccounted(env, s, e, c);
    case _ =>
  }

  lemma IncomingAccounted(env: Env, s: State, c': Channel, introduced: Option<EndpointId>, c: Channel)
    requires ParkInv(s) && Accounted(s, c) && s.io.nextChannel <= c'.id
    ensures Accounted(OnIncoming(env, s, c', introduced), c)
  {
    var (s1, id) := Introduced(env, s, c', introduced);
    IntroducedFrame(env, s, c', introduced);
    StatusKept(s.io.log, s1.io.log, c);
    KeptParked(s, s1, "", c);
    SameUse(s, s1, c);
    if id.Some? && Target(s1, id.value).Some? {
      var e := Target(s1, id.value).value;
      KeptParked(s1, CancelAlarm(s1, e), e, c);
      SameUse(s1, CancelAlarm(s1, e), c);
      RunProtocolAccounted(env, CancelAlarm(s1, e), e, c', c);
    }
  }

  lemma ShutDownAccounted(env: Env, s: State, c: Channel)
    requires Accounted(s, c)
    ensures Accounted(DoShutDown(env, s), c)
    ensures StatusOf(DoShutDown(env, s).io.log, c) == Advance(StatusOf(s.io.log, c), ShutDown, c)
  {
    var s0 := s.(retry := Retries(map[], map[]));
    var ms := env.handlerOrder(s.handlers.Keys);
    var s1 := RevertHandlers(env, s0, ms);
    KeptParked(s, s0, "", c);
    SameUse(s, s0, c);
    RevertHandlersFrame(env, s0, ms);
    FrameAccounted(s0, s1, "", c);
    StoppedAccounted(s1, DoShutDown(env, s), c);
  }

  lemma StoppedAccounted(s: State, t: State, c: Channel)
    requires Accounted(s, c)
    requires t.registry == s.registry && t.up == Upgrades({}, map[], {}) && t.io == s.io.(log := s.io.log + [ShutDown])
    ensures Accounted(t, c) && StatusOf(t.io.log, c) == Advance(StatusOf(s.io.log, c), ShutDown, c)
  {
    Snoc(s.io.log, ShutDown, c);
    SameUse(s, t, c);
    assert !Parked(t, c);
  }

  lemma AlarmAccounted(env: Env, s: State, e: EndpointId, c: Channel)
    requires Accounted(s, c)
    ensures Accounted(FireAlarm(env, s, e).state, c)
  {
    var s1 := CancelAlarm(s, e);
    KeptParked(s, s1, e, c);
    SameUse(s, s1, c);
    NextBestFrame(env, s1, e, ClientOf(s, e).mediums);
    FrameAccounted(s1, NextBestOnce(env, s1, e, ClientOf(s, e).mediums).state, e, c);
  }

  lemma RegisterAccounted(s: State, e: EndpointId, c': Channel, c: Channel)
    requires Accounted(s, c) && s.io.nextChannel <= c'.id
    ensures Accounted(Register(s, e, c'), c)
  {
    var t := Register(s, e, c');
    Snoc(s.io.log, Registered(e, c'), c);
    assert Parked(t, c) <==> Parked(s, c);
    assert c != c' && InUse(t, c) ==> InUse(s, c);
  }

  lemma UnregisterAccounted(s: State, e: EndpointId, c: Channel)
    requires Accounted(s, c)
    ensures Accounted(Unregister(s, e), c)
  {
    var t := Unregister(s, e);
    Snoc(s.io.log, Unregistered(e), c);
    assert Parked(t, c) <==> Parked(s, c);
    assert InUse(t, c) ==> InUse(s, c);
  }

  lemma InitiateAccounted(env: Env, s: State, e: EndpointId, m: Medium, c: Channel)
    requires Accounted(s, c)
    ensures Accounted(InitiateOnce(env, s, e, m).state, c)
    ensures StatusOf(InitiateOnce(env, s, e, m).state.io.log, c) == StatusOf(s.io.log, c)
  {
    InitiateFrame(env, s, e, m);
    FrameAccounted(s, InitiateOnce(env, s, e, m).state, e, c);
  }

  lemma BeginAccounted(env: Env, s: State, op: Op, c: Channel)
    requires ParkInv(s) && Accounted(s, c) && Orderly(s, op)
    ensures Accounted(Begin(env, s, op).state, c)
  {
    match op
    case Initiate(e, m) => InitiateAccounted(env, s, e, m, c);
    case IncomingFrame(e, f) => OnFrameAccounted(env, s, e, f, c);
    case IncomingConnection(c', introduced) => IncomingAccounted(env, s, c', introduced, c);
    case EndpointDisconnect(service, e) =>
      ForgetAccounted(env, s, e, c);
      RevertFrame(env, Forget(env, s, e), service, e);
      FrameAccounted(Forget(env, s, e), Revert(env, Forget(env, s, e), service, e), e, c);
    case AlarmFires(e) => AlarmAccounted(env, s, e, c);
    case Stop => ShutDownAccounted(env, s, c);
    case RegisterChannel(e, c') => RegisterAccounted(s, e, c', c);
    case UnregisterChannel(e) => UnregisterAccounted(s, e, c);
    case _ =>
  }

  ghost predicate Conserved(s: State, c: Channel) {
    ParkInv(s) && Accounted(s, c)
  }

  lemma BeginConserved(env: Env, s: State, op: Op, c: Channel)
    requires Conserved(s, c) && Orderly(s, op)
    ensures Conserved(Begin(env, s, op).state, c)
  {
    BeginKeeps(env, s, op);
    BeginAccounted(env, s, op, c);
  }

  lemma InitiateConserved(env: Env, s: State, e: EndpointId, m: Medium, c: Channel)
    requires Conserved(s, c)
    ensures Conserved(InitiateOnce(env, s, e, m).state, c)
  {
    InitiateKeeps(env, s, e, m);
    InitiateAccounted(env, s, e, m, c);
  }

  lemma RunConserved(env: Env, mediums: set<Medium>, calls: seq<Call>, c: Channel)
    requires Execution(env, Fresh(mediums), calls) && Throughout(Fresh(mediums), calls, Orderly)
    ensures Conserved(End(Fresh(mediums), calls), c)
  {
    var inv := (s: State) => Conserved(s, c);
    forall s, op | inv(s) && Orderly(s, op)
      ensures inv(Begin(env, s, op).state)
    {
      BeginConserved(env, s, op, c);
    }
    forall s, e, m | inv(s)
      ensures inv(InitiateOnce(env, s, e, m).state)
    {
      InitiateConserved(env, s, e, m, c);
    }
    ExecutionKeeps(env, Fresh(mediums), calls, inv, Orderly);
  }

  /**
   * Over every orderly execution no channel is mistreated (parked twice, or closed or let go of a second time
   * after it was parked), and the channels parked at the end are exactly those the log shows as parked and not gone.
   */
  lemma ParkedChannelsConserved(env: Env, mediums: set<Medium>, calls: seq<Call>, c: Channel)
    requires Execution(env, Fresh(mediums), calls) && Throughout(Fresh(mediums), calls, Orderly)
    ensures var s := End(Fresh(mediums), calls);
      StatusOf(s.io.log, c) != Mistreated && (StatusOf(s.io.log, c) == IsParked <==> Parked(s, c))
  {
    RunConserved(env, mediums, calls, c);
  }
}
