/**
 * Every step of the two-party round is taken by one operation of the manager, whether it works out or fails: a
 * manager's operation takes the step of the round together with the blocking read it leads to, if any.
 */
module HandshakeDispatch {
  import opened Wrappers
  import opened ServiceIds
  import opened Protocol
  import opened BwuSpec
  import opened Frames
  import opened HandshakeRefinement
  import HandlerSpec
  import H = Handshake

  /**
   * From `s` to `t` the manager did for `e` what leads from `me` to `me'` in the round: the same state, the same
   * messages on the new channel, and, as long as the old channel is `open`, on that one.
   */
  ghost predicate Follows(s: State, t: State, e: EndpointId, o: Channel, n: Channel, me: H.Side, me': H.Side, open: bool) {
    && CoreOf(s, e, o, n) == me.core && CoreOf(t, e, o, n) == me'.core && InRound(t, e, o, n)
    && SaysOn(s, t, n, me.newOut, me'.newOut)
    && (open ==> SaysOn(s, t, o, me.oldOut, me'.oldOut))
  }

  /** What was logged as written on `c` is what was appended to `out`. */
  ghost predicate SaysOn(s: State, t: State, c: Channel, out: seq<H.Message>, out': seq<H.Message>) {
    out <= out' && Out(t.io.log, c) == Out(s.io.log, c) + out'[|out|..]
  }

  predicate Open(me: H.Side, peer: H.Side) {
    me.core.closed.None? && peer.core.closed.None?
  }

  /** The blocking read in which a step left the manager's thread. */
  function Waiting(me: H.Side): Option<H.Action> {
    match me.at
    case AwaitAck => Some(H.ReadAck)
    case AwaitIntroduction => Some(H.ReadIntroduction)
    case Draining => Some(H.Drain)
    case Idle => None
  }

  /** The step and the blocking read after it. */
  function Through(role: H.Role, me: H.Side, peer: H.Side, ack: bool, luck: H.Luck): H.Side
    requires Waiting(me).Some? ==> H.Enabled(role, me, peer, Waiting(me).value, luck)
  {
    if Waiting(me).Some? then H.Do(role, me, peer, ack, Waiting(me).value, luck) else me
  }

  // -- silence --------------------------------------------------------------

  lemma SilentStep(s: State, t: State, e: EndpointId, o: Channel, n: Channel)
    requires Extends(s, t, event => Silent(event, e, o)) && Extends(s, t, event => Silent(event, e, n))
    ensures Out(t.io.log, o) == Out(s.io.log, o) && Out(t.io.log, n) == Out(s.io.log, n)
    ensures Reports(t.io.log, e) == Reports(s.io.log, e) && EndOf(t.io.log, o) == EndOf(s.io.log, o)
  {
    SilentLog(s.io.log, t.io.log, e, o);
    SilentLog(s.io.log, t.io.log, e, n);
  }

  lemma Unsaid(s: State, t: State, c: Channel, out: seq<H.Message>)
    requires Out(t.io.log, c) == Out(s.io.log, c)
    ensures SaysOn(s, t, c, out, out)
  {
    assert out[|out|..] == [];
  }

  lemma Said(s: State, t: State, c: Channel, out: seq<H.Message>, ms: seq<H.Message>)
    requires Out(t.io.log, c) == Out(s.io.log, c) + ms
    ensures SaysOn(s, t, c, out, out + ms)
  {
    assert (out + ms)[|out|..] == ms;
  }

  lemma UndoingIsSilent(s: State, t: State, e: EndpointId, o: Channel, n: Channel)
    requires Extends(s, t, event => ByUndoing(event, e))
    ensures Out(t.io.log, o) == Out(s.io.log, o) && Out(t.io.log, n) == Out(s.io.log, n)
    ensures Reports(t.io.log, e) == Reports(s.io.log, e) && EndOf(t.io.log, o) == EndOf(s.io.log, o)
  {
    SilentStep(s, t, e, o, n);
  }

  // -- the offer ------------------------------------------------------------

  /** What making an offer logs: what the handler does, and the offer if it gets that far. */
  lemma OfferParts(env: Env, s: State, e: EndpointId, m: Medium, c: Channel) returns (up: Log, offer: Log)
    requires HasHandler(s, m) && e in s.registry
    ensures var (t, ok) := MakeOffer(env, s, e, m);
      && t.io.log == s.io.log + up + offer
      && (offer == [] ==> !ok) && (offer != [] ==> offer == [Wrote(e, s.registry[e], Offer(m), ok)])
    ensures forall i :: 0 <= i < |up| ==> Silent(up[i], e, c)
  {
    var r := HandlerSpec.Init(env.outcome, |s.io.log|, m, s.handlers[m], s.registry[e].serviceId, e);
    InitSilent(env.outcome, |s.io.log|, m, s.handlers[m], c, s.registry[e].serviceId, e);
    up, offer := r.log, if r.ok then [Wrote(e, s.registry[e], Offer(m), Next(env, s.io.log + r.log))] else [];
    assert s.io.log + up + [] == s.io.log + up;
  }

  /** The offer is said on the registered channel if it is written; nothing else is said anywhere. */
  lemma OfferSaid(env: Env, s: State, e: EndpointId, m: Medium, t: State, c: Channel)
    requires HasHandler(s, m) && e in s.registry && t == MakeOffer(env, s, e, m).0
    ensures Out(t.io.log, c) == Out(s.io.log, c) + if MakeOffer(env, s, e, m).1 && s.registry[e] == c then [H.Offer] else []
    ensures Reports(t.io.log, e) == Reports(s.io.log, e) && EndOf(t.io.log, c) == EndOf(s.io.log, c)
  {
    var up, offer := OfferParts(env, s, e, m, c);
    SilentLog(s.io.log, s.io.log + up, e, c);
    if offer == [] {
      assert s.io.log + up + offer == s.io.log + up;
    } else {
      Snoc(s.io.log + up, offer[0], e, c);
    }
  }

  /** After a failed offer `e` is not in progress, and nothing was said about it. */
  lemma FailureUnsaid(env: Env, s: State, e: EndpointId, last: Medium, t: State, o: Channel, n: Channel)
    requires t == FailureOnce(env, s, e, last).state && e !in s.up.inProgress
    ensures t.up == s.up && t.registry == s.registry && t.io.paused == s.io.paused
    ensures Out(t.io.log, o) == Out(s.io.log, o) && Out(t.io.log, n) == Out(s.io.log, n)
    ensures Reports(t.io.log, e) == Reports(s.io.log, e) && EndOf(t.io.log, o) == EndOf(s.io.log, o)
  {
    FailureFrame(env, s, e, last);
    UndoingIsSilent(s, t, e, o, n);
    NotStarted(env, s, e, last);
  }

  lemma NotStarted(env: Env, s: State, e: EndpointId, last: Medium)
    requires e !in s.up.inProgress
    ensures FailureOnce(env, s, e, last).state.up == s.up
  {
    assert Stopped(s, e) == s;
    UndoneFrame(env, s, e);
  }

  /** Making the offer, whether it works out or not; what the failover then tries next is another round. */
  lemma OfferFollows(env: Env, s: State, e: EndpointId, m: Medium, o: Channel, n: Channel,
                     me: H.Side, peer: H.Side, ack: bool, luck: H.Luck)
    requires InRound(s, e, o, n) && s.registry[e] == o && Viable(s, e, m) && CoreOf(s, e, o, n) == me.core
    requires H.Enabled(H.Initiator, me, peer, H.MakeOffer, luck)
    requires luck.write <==> MakeOffer(env, Readied(env, s, e, m), e, m).1
    ensures var t := InitiateOnce(env, s, e, m).state;
      Follows(s, t, e, o, n, me, H.Do(H.Initiator, me, peer, ack, H.MakeOffer, luck), true)
    ensures luck.write ==> InitiateOnce(env, s, e, m).Done?
  {
    var s1 := Readied(env, s, e, m);
    var t := MakeOffer(env, s1, e, m).0;
    PreliminariesFrame(env, s, e, m);
    OfferFrame(env, s1, e, m);
    OfferSaid(env, s1, e, m, t, o);
    OfferSaid(env, s1, e, m, t, n);
    if luck.write {
      Unsaid(s, Started(t, e), n, me.newOut);
      Said(s, Started(t, e), o, me.oldOut, [H.Offer]);
    } else {
      var u := FailureOnce(env, t, e, OnWire(m)).state;
      FailureUnsaid(env, t, e, OnWire(m), u, o, n);
      Unsaid(s, u, n, me.newOut);
      Unsaid(s, u, o, me.oldOut);
    }
  }

  // -- the answer to it -----------------------------------------------------

  /** The channel a dial of `info` makes. */
  function Dialled(s: State, info: PathInfo, o: Channel): Channel {
    Channel(s.io.nextChannel, info.medium, o.serviceId)
  }

  /** Where the three operations of a dial find their outcomes. */
  function Created(s: State, e: EndpointId, info: PathInfo, o: Channel, ok: bool): Log {
    s.io.log + [Create(info.medium, o.serviceId, e, ok)]
  }

  function Wanted(s: State, e: EndpointId, info: PathInfo, o: Channel, ok: bool): Log {
    Created(s, e, info, o, true) + [Wrote(e, Dialled(s, info, o), Introduction, ok)]
  }

  /** The medium is dialled, and the dial works. */
  predicate Dials(env: Env, s: State, info: PathInfo) {
    HasHandler(s, info.medium) && Next(env, s.io.log)
  }

  predicate Introduces(env: Env, s: State, e: EndpointId, info: PathInfo, o: Channel) {
    Next(env, Created(s, e, info, o, true))
  }

  predicate Acknowledged(env: Env, s: State, e: EndpointId, info: PathInfo, o: Channel) {
    Next(env, Wanted(s, e, info, o, true))
  }

  /** A dial says the introduction on the new channel if it gets that far, and nothing else. */
  lemma DialSaid(env: Env, s: State, e: EndpointId, info: PathInfo, t: State, o: Channel, n: Channel)
    requires e in s.registry && s.registry[e] == o && n == Dialled(s, info, o) && o != n
    requires t == Dial(env, s, e, info).0
    ensures t == s.(io := t.io) && t.io.paused == s.io.paused && Out(t.io.log, o) == Out(s.io.log, o)
    ensures Reports(t.io.log, e) == Reports(s.io.log, e) && EndOf(t.io.log, o) == EndOf(s.io.log, o)
    ensures Out(t.io.log, n)
         == Out(s.io.log, n) + if Dials(env, s, info) && Introduces(env, s, e, info, o) then [H.Introduction] else []
    ensures Dial(env, s, e, info).1 == if Dials(env, s, info) && Introduces(env, s, e, info, o)
              && (info.introductionAck ==> Acknowledged(env, s, e, info, o)) then Some(n) else None
  {
    if HasHandler(s, info.medium) {
      CreateSaid(s, e, info, o, n, Next(env, s.io.log));
      if Next(env, s.io.log) {
        IntroduceSaid(env, Created(s, e, info, o, true), e, o, n, info.introductionAck);
      }
    }
  }

  lemma CreateSaid(s: State, e: EndpointId, info: PathInfo, o: Channel, n: Channel, ok: bool)
    ensures var log := Created(s, e, info, o, ok);
      && Out(log, o) == Out(s.io.log, o) && Out(log, n) == Out(s.io.log, n)
      && Reports(log, e) == Reports(s.io.log, e) && EndOf(log, o) == EndOf(s.io.log, o)
  {
    Snoc(s.io.log, Create(info.medium, o.serviceId, e, ok), e, o);
    Snoc(s.io.log, Create(info.medium, o.serviceId, e, ok), e, n);
  }

  lemma IntroduceSaid(env: Env, log: Log, e: EndpointId, o: Channel, n: Channel, ack: bool)
    requires o != n
    ensures var t := Introduce(env, log, e, n, ack).0;
      && Out(t, o) == Out(log, o) && Reports(t, e) == Reports(log, e) && EndOf(t, o) == EndOf(log, o)
      && Out(t, n) == Out(log, n) + if Next(env, log) then [H.Introduction] else []
  {
    var wrote := Wrote(e, n, Introduction, Next(env, log));
    Snoc(log, wrote, e, o); Snoc(log, wrote, e, n);
    if !wrote.ok {
      OneSilent(log + [wrote], Discarded(n), e, o, n);
    } else if ack {
      WaitSilent(log + [wrote], Next(env, log + [wrote]), e, o, n);
    }
  }

  lemma OneSilent(log: Log, event: Event, e: EndpointId, o: Channel, n: Channel)
    requires Silent(event, e, o) && Silent(event, e, n)
    ensures var t := log + [event];
      Out(t, o) == Out(log, o) && Out(t, n) == Out(log, n) && Reports(t, e) == Reports(log, e) && EndOf(t, o) == EndOf(log, o)
  {
    Snoc(log, event, e, o);
    Snoc(log, event, e, n);
  }

  lemma WaitSilent(log: Log, ok: bool, e: EndpointId, o: Channel, n: Channel)
    ensures var t := if ok then log + [AckRead(n, ok)] else log + [AckRead(n, ok)] + [Discarded(n)];
      Out(t, o) == Out(log, o) && Out(t, n) == Out(log, n) && Reports(t, e) == Reports(log, e) && EndOf(t, o) == EndOf(log, o)
  {
    OneSilent(log, AckRead(n, ok), e, o, n);
    OneSilent(log + [AckRead(n, ok)], Discarded(n), e, o, n);
  }

  /** The old channel was closed if the peer could not be told; else nothing changed. Nothing is said on either. */
  ghost predicate OnlyNotice(s: State, t: State, e: EndpointId, o: Channel, n: Channel, told: bool) {
    && Out(t.io.log, o) == Out(s.io.log, o) && Out(t.io.log, n) == Out(s.io.log, n) && InRound(t, e, o, n)
    && CoreOf(t, e, o, n) == if told then CoreOf(s, e, o, n) else CoreOf(s, e, o, n).(closed := Some(H.Broken))
  }

  lemma NoticeSaid(env: Env, s: State, e: EndpointId, info: PathInfo, t: State, o: Channel, n: Channel)
    requires InRound(s, e, o, n) && s.registry[e] == o && e !in s.up.inProgress && t == FailedProtocol(env, s, e, info)
    ensures OnlyNotice(s, t, e, o, n, Next(env, s.io.log))
  {
    var s1 := Emit(s, Wrote(e, o, UpgradeFailed(info), Next(env, s.io.log)));
    NoticeLog(s.io.log, e, info, o, n, Next(env, s.io.log));
    if Next(env, s.io.log) {
      ToldUnsaid(env, s1, e, t, o, n);
    } else {
      assert t == Emit(s1, Closed(e, o, IoError));
    }
  }

  lemma NoticeLog(log: Log, e: EndpointId, info: PathInfo, o: Channel, n: Channel, ok: bool)
    ensures var told := log + [Wrote(e, o, UpgradeFailed(info), ok)];
      && Out(told, o) == Out(log, o) && Out(told, n) == Out(log, n)
      && Reports(told, e) == Reports(log, e) && EndOf(told, o) == EndOf(log, o)
    ensures var closed := log + [Wrote(e, o, UpgradeFailed(info), ok)] + [Closed(e, o, IoError)];
      && Out(closed, o) == Out(log, o) && Out(closed, n) == Out(log, n)
      && Reports(closed, e) == Reports(log, e) && EndOf(closed, o) == Some(H.Broken)
  {
    var wrote := Wrote(e, o, UpgradeFailed(info), ok);
    Snoc(log, wrote, e, o); Snoc(log, wrote, e, n);
    Snoc(log + [wrote], Closed(e, o, IoError), e, o); Snoc(log + [wrote], Closed(e, o, IoError), e, n);
  }

  /** Once the peer was told, the medium is given up, which nobody hears. */
  lemma ToldUnsaid(env: Env, s: State, e: EndpointId, t: State, o: Channel, n: Channel)
    requires e in s.registry && s.registry[e] == o && e !in s.up.inProgress
    requires t == Stopped(if MediumFor(env, s, e) != UnknownMedium then Revert(env, s, o.serviceId, e) else s, e)
    ensures Out(t.io.log, o) == Out(s.io.log, o) && Out(t.io.log, n) == Out(s.io.log, n)
    ensures CoreOf(t, e, o, n) == CoreOf(s, e, o, n) && InRound(s, e, o, n) == InRound(t, e, o, n)
  {
    RevertFrame(env, s, o.serviceId, e);
    SilentStep(s, t, e, o, n);
  }

  /** What the round says of meeting an offer, with the wait for the acknowledgement if that was promised. */
  ghost predicate MetAs(env: Env, s: State, e: EndpointId, info: PathInfo, o: Channel,
                        met: H.Side, peer: H.Side, luck: H.Luck, later: H.Luck) {
    && (luck.dial <==> Dials(env, s, info)) && (luck.dial ==> (luck.introduce <==> Introduces(env, s, e, info, o)))
    && (met.at.AwaitAck? ==>
          && H.Enabled(H.Responder, met, peer, H.ReadAck, later)
          && (Acknowledged(env, s, e, info, o) <==> later.receive && peer.newOut[met.newRead] == H.IntroductionAck))
  }

  /** The outcomes of the two writes of a swap from `s`. */
  predicate SwapLuck(env: Env, s: State, e: EndpointId, o: Channel, n: Channel, luck: H.Luck) {
    var log := Swapped(s, e, n);
    luck.last == Next(env, log) && luck.safe == Next(env, log + [Wrote(e, o, LastWrite, luck.last)])
  }

  /** A swap of the manager is the round's, also in what it says. */
  lemma SwapFollows(env: Env, s: State, e: EndpointId, o: Channel, n: Channel, t: State, me: H.Side, peer: H.Side, luck: H.Luck)
    requires InRound(s, e, o, n) && s.registry[e] == o && e !in s.up.parked && t == RunProtocol(env, s, e, n)
    requires CoreOf(s, e, o, n) == me.core && Open(me, peer) && SwapLuck(env, s, e, o, n, luck)
    ensures CoreOf(t, e, o, n) == H.RunProtocol(me, peer, luck).core && InRound(t, e, o, n)
    ensures SaysOn(s, t, o, me.oldOut, H.RunProtocol(me, peer, luck).oldOut)
    ensures Out(t.io.log, n) == Out(s.io.log, n)
  {
    SwapRefines(env, s, e, o, n);
    var (c, ms) := H.Swap(me.core, luck.last, luck.safe);
    Said(s, t, o, me.oldOut, ms);
    SwapUnsaid(env, s, e, o, n);
  }

  lemma SwapUnsaid(env: Env, s: State, e: EndpointId, o: Channel, n: Channel)
    requires InRound(s, e, o, n) && s.registry[e] == o && e !in s.up.parked
    ensures Out(RunProtocol(env, s, e, n).io.log, n) == Out(s.io.log, n)
  {
    var log := Swapped(s, e, n);
    var wrote := Wrote(e, o, LastWrite, Next(env, log));
    Snoc(s.io.log, Paused(n), e, n); Snoc(s.io.log + [Paused(n)], Registered(e, n), e, n); Snoc(log, wrote, e, n);
    if wrote.ok {
      ParkUnsaid(env, s.(registry := s.registry[e := n],
                         io := s.io.(paused := s.io.paused + {n}, log := log + [wrote])), e, o, n);
    }
  }

  lemma ParkUnsaid(env: Env, s: State, e: EndpointId, o: Channel, n: Channel)
    requires o != n && e !in s.up.parked
    ensures Out(Park(env, s, e, o).io.log, n) == Out(s.io.log, n)
  {
    LastWriteUnsaid(env, s.(up := s.up.(parked := s.up.parked[e := o], latched := s.up.latched - {e})), e, n);
  }

  lemma LastWriteUnsaid(env: Env, s: State, e: EndpointId, n: Channel)
    requires e in s.up.parked ==> s.up.parked[e] != n
    ensures Out(OnLastWrite(env, s, e).io.log, n) == Out(s.io.log, n)
  {
    if e in s.up.parked {
      var wrote := Wrote(e, s.up.parked[e], SafeToClose, Next(env, s.io.log));
      Snoc(s.io.log, wrote, e, n);
      Snoc(s.io.log + [wrote], Closed(e, s.up.parked[e], IoError), e, n);
    }
  }

  lemma SafeToCloseUnsaid(env: Env, s: State, e: EndpointId, n: Channel)
    requires e in s.up.parked && s.up.parked[e] != n && e in s.registry
    ensures Out(OnSafeToClose(env, s, e).io.log, n) == Out(s.io.log, n)
  {
    var prev, c, log := s.up.parked[e], s.registry[e], s.io.log;
    var off := log + [EncryptionOff(e, prev)];
    var bye := off + [Wrote(e, prev, Disconnection, Next(env, off))];
    var drained := bye + [DrainRead(e, prev)];
    var closed := drained + [Closed(e, prev, Upgraded)];
    Snoc(log, EncryptionOff(e, prev), e, n);
    Snoc(off, Wrote(e, prev, Disconnection, Next(env, off)), e, n);
    Snoc(bye, DrainRead(e, prev), e, n);
    Snoc(drained, Closed(e, prev, Upgraded), e, n);
    Snoc(closed, Resumed(c), e, n);
    Snoc(closed + [Resumed(c)], BandwidthChanged(e, c.medium), e, n);
  }

  /** After the dial that met an offer: swap, or tell the peer that it failed. */
  lemma JoinedFollows(env: Env, s: State, e: EndpointId, o: Channel, n: Channel, t: State, me: H.Side, peer: H.Side, luck: H.Luck)
    requires InRound(s, e, o, n) && s.registry[e] == o && e !in s.up.parked && Open(me, peer)
    requires CoreOf(s, e, o, n) == me.core && t == RunProtocol(env, Emit(Started(s, e), Joined(e)), e, n)
    requires SwapLuck(env, Emit(Started(s, e), Joined(e)), e, o, n, luck)
    ensures var me' := H.RunProtocol(me.(core := me.core.(inProgress := true)), peer, luck);
      && CoreOf(t, e, o, n) == me'.core && SaysOn(s, t, o, me.oldOut, me'.oldOut)
      && Out(t.io.log, n) == Out(s.io.log, n) && InRound(t, e, o, n)
  {
    var s1 := Emit(Started(s, e), Joined(e));
    JoinLog(env, s, e, o, n);
    SwapFollows(env, s1, e, o, n, t, me.(core := me.core.(inProgress := true)), peer, luck);
  }

  /** The round's answer to an offer: the message taken and the offer met. */
  function Answered(me: H.Side, peer: H.Side, ack: bool, luck: H.Luck): H.Side {
    H.MeetOffer(me.(oldRead := me.oldRead + 1), peer, ack, luck)
  }

  /** Everything up to the swap worked. */
  predicate Reached(met: H.Side, peer: H.Side, luck: H.Luck, later: H.Luck)
    requires met.at.AwaitAck? && later.receive ==> H.NewReadable(met, peer)
  {
    && luck.dial && luck.introduce
    && (met.at.AwaitAck? ==> later.receive && peer.newOut[met.newRead] == H.IntroductionAck)
  }

  /** How the round's answer ends, in terms of the side that began it. */
  lemma AnswerEnds(me: H.Side, peer: H.Side, ack: bool, luck: H.Luck, met: H.Side, peer': H.Side, later: H.Luck, end: H.Side)
    requires me.at.Idle? && Open(me, peer) && Open(me, peer') && met == Answered(me, peer, ack, luck)
    requires met.at.AwaitAck? ==> H.Enabled(H.Responder, met, peer', H.ReadAck, later)
    requires end == Through(H.Responder, met, peer', ack, later)
    ensures end.newOut == me.newOut + if luck.dial && luck.introduce then [H.Introduction] else []
    ensures !Reached(met, peer', luck, later) ==> end.core == me.core && end.oldOut == me.oldOut
    ensures Reached(met, peer', luck, later) ==>
      var swapped := H.RunProtocol(me.(core := me.core.(inProgress := true)), peer, if ack then later else luck);
      end.core == swapped.core && end.oldOut == swapped.oldOut
  {
  }

  /**
   * Dialling and what follows, for the responder that may take up the offer: where the round fails so does the
   * manager, which then tells the peer; where it swaps so does the manager.
   */
  lemma AcceptFollows(env: Env, s: State, e: EndpointId, info: PathInfo, o: Channel, n: Channel, s1: State, t: State,
                      me: H.Side, peer: H.Side, luck: H.Luck, met: H.Side, peer': H.Side, later: H.Luck, end: H.Side)
    requires InRound(s, e, o, n) && s.registry[e] == o && e !in s.up.parked && e !in s.up.inProgress
    requires n == Dialled(s, info, o) && info.medium == MediumFor(env, s, e)
    requires CoreOf(s, e, o, n) == me.core && Open(me, peer) && Open(me, peer') && me.at.Idle?
    requires met == Answered(me, peer, info.introductionAck, luck) && MetAs(env, s, e, info, o, met, peer', luck, later)
    requires end == Through(H.Responder, met, peer', info.introductionAck, later)
    requires s1 == Dial(env, s, e, info).0 && t == Accept(env, s, e, info)
    requires SwapLuck(env, Emit(Started(s1, e), Joined(e)), e, o, n, if info.introductionAck then later else luck)
    ensures if Reached(met, peer', luck, later) then Follows(s, t, e, o, n, me, end, true)
            else Follows(s, s1, e, o, n, me, end, true) && OnlyNotice(s1, t, e, o, n, Next(env, s1.io.log))
  {
    DialSaid(env, s, e, info, s1, o, n);
    AnswerEnds(me, peer, info.introductionAck, luck, met, peer', later, end);
    var said := if luck.dial && luck.introduce then [H.Introduction] else [];
    if Reached(met, peer', luck, later) {
      JoinedFollows(env, s1, e, o, n, t, me, peer, if info.introductionAck then later else luck);
      Said(s, t, n, me.newOut, said);
    } else {
      NoticeSaid(env, s1, e, info, t, o, n);
      Unsaid(s, s1, o, me.oldOut);
      Said(s, s1, n, me.newOut, said);
    }
  }

  // -- the dispatch ---------------------------------------------------------

  /** The responder may take up the offer of `info`. */
  predicate TakesUp(env: Env, s: State, e: EndpointId, info: PathInfo) {
    && ClientOf(s, e).connected && !ClientOf(s, e).incoming && !Barred(s, info.medium) && e !in s.up.inProgress
    && (MediumFor(env, s, e) == UnknownMedium || MediumFor(env, s, e) == info.medium)
  }

  /** An offer frame is the round's offer taken off the old channel, met, and waited for. */
  lemma MeetFollows(env: Env, s: State, e: EndpointId, info: PathInfo, o: Channel, n: Channel, s0: State, s1: State, t: State,
                    me: H.Side, peer: H.Side, luck: H.Luck, met: H.Side, peer': H.Side, later: H.Luck, end: H.Side)
    requires InRound(s, e, o, n) && s.registry[e] == o && e !in s.up.parked && TakesUp(env, s, e, info)
    requires n == Dialled(s, info, o) && s0 == Adopted(env, s, e, info.medium)
    requires CoreOf(s, e, o, n) == me.core && Open(me, peer) && Open(me, peer') && me.at.Idle? && !me.begun
    requires H.Enabled(H.Responder, me, peer, H.TakeOld, luck) && peer.oldOut[me.oldRead].Offer?
    requires met == H.Do(H.Responder, me, peer, info.introductionAck, H.TakeOld, luck)
    requires MetAs(env, s0, e, info, o, met, peer', luck, later)
    requires end == Through(H.Responder, met, peer', info.introductionAck, later)
    requires s1 == Dial(env, s0, e, info).0 && t == OnFrame(env, s, e, PathAvailable(Some(info))).state
    requires SwapLuck(env, Emit(Started(s1, e), Joined(e)), e, o, n, if info.introductionAck then later else luck)
    ensures if Reached(met, peer', luck, later) then Follows(s, t, e, o, n, me, end, true)
            else Follows(s, s1, e, o, n, me, end, true) && OnlyNotice(s1, t, e, o, n, Next(env, s1.io.log))
  {
    TakenUp(env, s, e, info, s0, t);
    AnswersOffer(me, peer, info.introductionAck, luck, met);
    AcceptFollows(env, s0, e, info, o, n, s1, t, me, peer, luck, met, peer', later, end);
    FollowsFrom(s, s0, s1, e, o, n, me, end);
    FollowsFrom(s, s0, t, e, o, n, me, end);
  }

  lemma TakenUp(env: Env, s: State, e: EndpointId, info: PathInfo, s0: State, t: State)
    requires TakesUp(env, s, e, info) && s0 == Adopted(env, s, e, info.medium)
    requires t == OnFrame(env, s, e, PathAvailable(Some(info))).state
    ensures t == Accept(env, s0, e, info) && MediumFor(env, s0, e) == info.medium && s0 == s.(mediums := s0.mediums)
  {
    AdoptedFrame(env, s, e, info.medium);
  }

  lemma AnswersOffer(me: H.Side, peer: H.Side, ack: bool, luck: H.Luck, met: H.Side)
    requires H.Enabled(H.Responder, me, peer, H.TakeOld, luck) && peer.oldOut[me.oldRead].Offer? && !me.begun
    requires met == H.Do(H.Responder, me, peer, ack, H.TakeOld, luck)
    ensures met == Answered(me, peer, ack, luck)
  {
  }

  lemma FollowsFrom(s: State, s0: State, t: State, e: EndpointId, o: Channel, n: Channel, me: H.Side, me': H.Side)
    requires s0 == s.(mediums := s0.mediums)
    ensures Follows(s0, t, e, o, n, me, me', true) ==> Follows(s, t, e, o, n, me, me', true)
  {
  }

  /**
   * A LAST_WRITE or SAFE_TO_CLOSE frame is that message taken off the old channel and, after SAFE_TO_CLOSE, the
   * drain read, whatever that finds.
   */
  lemma ControlFollows(env: Env, s: State, e: EndpointId, o: Channel, n: Channel, f: Received, t: State, role: H.Role,
                       ack: bool, me: H.Side, peer: H.Side, luck: H.Luck, took: H.Side, peer': H.Side, later: H.Luck)
    requires InRound(s, e, o, n) && ClientOf(s, e).connected && (e in s.up.parked ==> s.registry[e] == n)
    requires CoreOf(s, e, o, n) == me.core && me.at.Idle? && H.Enabled(role, me, peer, H.TakeOld, luck)
    requires var m := peer.oldOut[me.oldRead];
      || (m.LastWrite? && f.LastWriteToPriorChannel? && (luck.safe <==> Works(env, s, e, o, f)))
      || (m.SafeToClose? && f.SafeToClosePriorChannel? && (luck.write <==> Works(env, s, e, o, f)))
    requires took == H.Do(role, me, peer, ack, H.TakeOld, luck)
    requires took.at.Draining? ==> H.Enabled(role, took, peer', H.Drain, later)
    requires t == OnFrame(env, s, e, f).state
    ensures Follows(s, t, e, o, n, me, Through(role, took, peer', ack, later), Open(me, peer))
  {
    var works := if f.LastWriteToPriorChannel? then luck.safe else luck.write;
    ControlEnds(role, ack, me, peer, luck, took, peer', later, Through(role, took, peer', ack, later));
    ControlRefines(env, s, e, o, n, f, t, works);
    ControlUnsaid(env, s, e, o, n, f, t);
    Unsaid(s, t, n, me.newOut);
    Said(s, t, o, me.oldOut, Answer(me.core, f.LastWriteToPriorChannel?, works).1);
  }

  /** What LAST_WRITE (`last`) or SAFE_TO_CLOSE makes of a side, drain read included, and what that side says. */
  function Answer(c: H.Core, last: bool, works: bool): (H.Core, seq<H.Message>) {
    if !c.inProgress then (c, [])
    else if last then H.SeeLastWrite(c, works)
    else if !c.parked then (c, [])
    else (H.EndClose(H.BeginClose(c, works).0), H.BeginClose(c, works).1)
  }

  lemma ControlEnds(role: H.Role, ack: bool, me: H.Side, peer: H.Side, luck: H.Luck,
                    took: H.Side, peer': H.Side, later: H.Luck, end: H.Side)
    requires me.at.Idle? && H.Enabled(role, me, peer, H.TakeOld, luck)
    requires peer.oldOut[me.oldRead].LastWrite? || peer.oldOut[me.oldRead].SafeToClose?
    requires took == H.Do(role, me, peer, ack, H.TakeOld, luck)
    requires took.at.Draining? ==> H.Enabled(role, took, peer', H.Drain, later)
    requires end == Through(role, took, peer', ack, later)
    ensures var last := peer.oldOut[me.oldRead].LastWrite?;
      var (c, ms) := Answer(me.core, last, if last then luck.safe else luck.write);
      end.core == c && end.newOut == me.newOut && (Open(me, peer) ==> end.oldOut == me.oldOut + ms)
  {
    if peer.oldOut[me.oldRead].LastWrite? {
      LastWriteEnds(role, ack, me, peer, luck, took);
    } else {
      SafeToCloseEnds(role, ack, me, peer, luck, took);
    }
  }

  lemma LastWriteEnds(role: H.Role, ack: bool, me: H.Side, peer: H.Side, luck: H.Luck, took: H.Side)
    requires me.at.Idle? && H.Enabled(role, me, peer, H.TakeOld, luck) && peer.oldOut[me.oldRead].LastWrite?
    requires took == H.Do(role, me, peer, ack, H.TakeOld, luck)
    ensures var (c, ms) := Answer(me.core, true, luck.safe);
      took.core == c && took.newOut == me.newOut && (Open(me, peer) ==> took.oldOut == me.oldOut + ms) && took.at.Idle?
  {
    assert me.oldOut + [] == me.oldOut;
  }

  lemma SafeToCloseEnds(role: H.Role, ack: bool, me: H.Side, peer: H.Side, luck: H.Luck, took: H.Side)
    requires me.at.Idle? && H.Enabled(role, me, peer, H.TakeOld, luck) && peer.oldOut[me.oldRead].SafeToClose?
    requires took == H.Do(role, me, peer, ack, H.TakeOld, luck)
    ensures var (c, ms) := Answer(me.core, false, luck.write);
      && (if took.at.Draining? then H.EndClose(took.core) else took.core) == c && (took.at.Idle? || took.at.Draining?)
      && took.newOut == me.newOut && (Open(me, peer) ==> took.oldOut == me.oldOut + ms)
  {
    assert me.oldOut + [] == me.oldOut;
  }

  lemma ControlRefines(env: Env, s: State, e: EndpointId, o: Channel, n: Channel, f: Received, t: State, works: bool)
    requires InRound(s, e, o, n) && ClientOf(s, e).connected && (e in s.up.parked ==> s.registry[e] == n)
    requires f.LastWriteToPriorChannel? || f.SafeToClosePriorChannel?
    requires (works <==> Works(env, s, e, o, f)) && t == OnFrame(env, s, e, f).state
    ensures var (c, ms) := Answer(CoreOf(s, e, o, n), f.LastWriteToPriorChannel?, works);
      CoreOf(t, e, o, n) == c && Out(t.io.log, o) == Out(s.io.log, o) + ms && InRound(t, e, o, n)
  {
    FramesRefine(env, s, e, o, n, f);
    assert Out(s.io.log, o) + [] == Out(s.io.log, o);
  }

  lemma ControlUnsaid(env: Env, s: State, e: EndpointId, o: Channel, n: Channel, f: Received, t: State)
    requires InRound(s, e, o, n) && ClientOf(s, e).connected && (e in s.up.parked ==> s.registry[e] == n)
    requires f.LastWriteToPriorChannel? || f.SafeToClosePriorChannel?
    requires t == OnFrame(env, s, e, f).state
    ensures Out(t.io.log, n) == Out(s.io.log, n)
  {
    LastWriteUnsaid(env, s, e, n);
    if e in s.up.parked {
      SafeToCloseUnsaid(env, s, e, n);
    }
  }

  /** What the manager read on the socket: the introduction of `e`, or nothing it can use. */
  function ReadOn(e: EndpointId, me: H.Side, peer: H.Side, luck: H.Luck): Option<EndpointId>
    requires luck.receive ==> H.NewReadable(me, peer)
  {
    if luck.receive && peer.newOut[me.newRead] == H.Introduction then Some(e) else None
  }

  /** A socket is the round's socket accepted and its introduction waited for, readable or not, acknowledged or not. */
  lemma SocketFollows(env: Env, s: State, e: EndpointId, o: Channel, n: Channel, t: State, ack: bool,
                      me: H.Side, peer: H.Side, luck: H.Luck, waiting: H.Side, peer': H.Side, later: H.Luck)
    requires InRound(s, e, o, n) && s.registry[e] == o && e !in s.up.parked && (e in s.up.inProgress || |s.up.inProgress| != 1)
    requires CoreOf(s, e, o, n) == me.core && Open(me, peer')
    requires H.Enabled(H.Initiator, me, peer, H.AcceptSocket, luck)
    requires waiting == H.Do(H.Initiator, me, peer, ack, H.AcceptSocket, luck)
    requires H.Enabled(H.Initiator, waiting, peer', H.ReadIntroduction, later)
    requires later.introduce <==> Next(env, s.io.log + [IntroductionRead(n, true)])
    requires SwapLuck(env, CancelAlarm(Introduced(env, s, n, Some(e)).0, e), e, o, n, later)
    requires t == OnIncoming(env, s, n, ReadOn(e, waiting, peer', later))
    ensures Follows(s, t, e, o, n, me, Through(H.Initiator, waiting, peer', ack, later), true)
  {
    var read := ReadOn(e, waiting, peer', later);
    SocketEnds(me, peer, ack, luck, waiting, peer', later, Through(H.Initiator, waiting, peer', ack, later));
    if read.Some? && later.introduce {
      var s0 := Introduced(env, s, n, Some(e)).0;
      GreetedState(env, s, e, o, n, s0);
      AckedFollows(env, s, s0, e, o, n, t, me, peer', later);
    } else {
      SocketUnsaid(env, s, e, o, n, read, t);
      Unsaid(s, t, o, me.oldOut);
      Unsaid(s, t, n, me.newOut);
    }
  }

  /** How the wait for the introduction ends for the initiator. */
  lemma SocketEnds(me: H.Side, peer: H.Side, ack: bool, luck: H.Luck, waiting: H.Side, peer': H.Side, later: H.Luck, end: H.Side)
    requires H.Enabled(H.Initiator, me, peer, H.AcceptSocket, luck) && Open(me, peer')
    requires waiting == H.Do(H.Initiator, me, peer, ack, H.AcceptSocket, luck)
    requires H.Enabled(H.Initiator, waiting, peer', H.ReadIntroduction, later)
    requires end == Through(H.Initiator, waiting, peer', ack, later)
    ensures var greeted := later.receive && peer'.newOut[waiting.newRead] == H.Introduction && later.introduce;
      var swapped := H.RunProtocol(me, peer', later);
      && end.newOut == (if greeted then me.newOut + [H.IntroductionAck] else me.newOut)
      && end.core == (if greeted && me.core.inProgress then swapped.core else me.core)
      && end.oldOut == (if greeted && me.core.inProgress then swapped.oldOut else me.oldOut)
  {
  }

  lemma GreetedState(env: Env, s: State, e: EndpointId, o: Channel, n: Channel, t: State)
    requires o != n && Next(env, s.io.log + [IntroductionRead(n, true)]) && t == Introduced(env, s, n, Some(e)).0
    ensures Introduced(env, s, n, Some(e)).1 == Some(e) && t == s.(io := t.io) && t.io.paused == s.io.paused
    ensures Out(t.io.log, n) == Out(s.io.log, n) + [H.IntroductionAck] && Out(t.io.log, o) == Out(s.io.log, o)
    ensures CoreOf(t, e, o, n) == CoreOf(s, e, o, n)
  {
    IntroducedLog(env, s, e, o, n, e);
  }

  lemma SocketUnsaid(env: Env, s: State, e: EndpointId, o: Channel, n: Channel, read: Option<EndpointId>, t: State)
    requires read.Some? ==> !Next(env, s.io.log + [IntroductionRead(n, true)])
    requires t == OnIncoming(env, s, n, read) && InRound(s, e, o, n)
    ensures InRound(t, e, o, n) && Out(t.io.log, o) == Out(s.io.log, o) && Out(t.io.log, n) == Out(s.io.log, n)
    ensures CoreOf(t, e, o, n) == CoreOf(s, e, o, n)
  {
    IntroducedFrame(env, s, n, read);
    UnreadLog(s.io.log, e, o, n);
  }

  lemma UnreadLog(log: Log, e: EndpointId, o: Channel, n: Channel)
    ensures forall t :: t == log + [IntroductionRead(n, false)] + [Discarded(n)]
                        || t == log + [IntroductionRead(n, true)] + [AckWritten(n, false)] + [Discarded(n)] ==>
      Out(t, o) == Out(log, o) && Out(t, n) == Out(log, n) && Reports(t, e) == Reports(log, e) && EndOf(t, o) == EndOf(log, o)
  {
    forall c
      ensures Out(log + [IntroductionRead(n, false)] + [Discarded(n)], c) == Out(log, c)
      ensures Out(log + [IntroductionRead(n, true)] + [AckWritten(n, false)] + [Discarded(n)], c) == Out(log, c)
      ensures Reports(log + [IntroductionRead(n, false)] + [Discarded(n)], e) == Reports(log, e)
      ensures Reports(log + [IntroductionRead(n, true)] + [AckWritten(n, false)] + [Discarded(n)], e) == Reports(log, e)
      ensures EndOf(log + [IntroductionRead(n, false)] + [Discarded(n)], c) == EndOf(log, c)
      ensures EndOf(log + [IntroductionRead(n, true)] + [AckWritten(n, false)] + [Discarded(n)], c) == EndOf(log, c)
    {
      var unread, read := log + [IntroductionRead(n, false)], log + [IntroductionRead(n, true)];
      Snoc(log, IntroductionRead(n, false), e, c);
      Snoc(log, IntroductionRead(n, true), e, c);
      Snoc(unread, Discarded(n), e, c);
      Snoc(read, AckWritten(n, false), e, c);
      Snoc(read + [AckWritten(n, false)], Discarded(n), e, c);
    }
  }

  /** The introduction was acknowledged: swap if the upgrade is still wanted. */
  lemma AckedFollows(env: Env, s: State, s0: State, e: EndpointId, o: Channel, n: Channel, t: State,
                     me: H.Side, peer: H.Side, luck: H.Luck)
    requires InRound(s, e, o, n) && s.registry[e] == o && e !in s.up.parked && (e in s.up.inProgress || |s.up.inProgress| != 1)
    requires CoreOf(s, e, o, n) == me.core && Open(me, peer) && s0 == s.(io := s0.io) && s0.io.paused == s.io.paused
    requires Out(s0.io.log, n) == Out(s.io.log, n) + [H.IntroductionAck] && Out(s0.io.log, o) == Out(s.io.log, o)
    requires CoreOf(s0, e, o, n) == CoreOf(s, e, o, n)
    requires SwapLuck(env, CancelAlarm(s0, e), e, o, n, luck)
    requires t == if Target(s0, e).Some? then RunProtocol(env, CancelAlarm(s0, e), e, n) else s0
    ensures CoreOf(t, e, o, n) == (if me.core.inProgress then H.RunProtocol(me, peer, luck).core else me.core)
    ensures SaysOn(s, t, o, me.oldOut, if me.core.inProgress then H.RunProtocol(me, peer, luck).oldOut else me.oldOut)
    ensures SaysOn(s, t, n, me.newOut, me.newOut + [H.IntroductionAck]) && InRound(t, e, o, n)
  {
    if e in s.up.inProgress {
      SwapFollows(env, CancelAlarm(s0, e), e, o, n, t, me, peer, luck);
    } else {
      Unsaid(s, t, o, me.oldOut);
    }
    Said(s, t, n, me.newOut, [H.IntroductionAck]);
  }
}
