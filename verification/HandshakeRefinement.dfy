/**
 * The manager's operations take exactly the steps of the two-party round: seen through one endpoint, the channel
 * it leaves and the one it moves to, they compute the functions that `Handshake` is made of.
 */
module HandshakeRefinement {
  import opened Wrappers
  import opened ServiceIds
  import opened Protocol
  import opened BwuSpec
  import opened Frames
  import HandlerSpec
  import H = Handshake

  // -- what the log says about a channel ------------------------------------

  /** A message that the channel `c` took from us. */
  function MessageOf(event: Event, c: Channel): seq<H.Message> {
    match event
    case Wrote(_, d, f, ok) =>
      if d != c || !ok then []
      else (match f
            case Offer(_) => [H.Offer]
            case Introduction => [H.Introduction]
            case LastWrite => [H.LastWrite]
            case SafeToClose => [H.SafeToClose]
            case Disconnection => [H.Disconnection]
            case _ => [])
    case AckWritten(d, ok) => if d == c && ok then [H.IntroductionAck] else []
    case _ => []
  }

  /** What the channel `c` took from us, in order. */
  function Out(log: Log, c: Channel): seq<H.Message> {
    if log == [] then [] else Out(log[..|log| - 1], c) + MessageOf(log[|log| - 1], c)
  }

  function Reports(log: Log, e: EndpointId): nat {
    if log == [] then 0
    else Reports(log[..|log| - 1], e) + if log[|log| - 1].BandwidthChanged? && log[|log| - 1].endpoint == e then 1 else 0
  }

  /** How `c` was closed, if it was. */
  function EndOf(log: Log, c: Channel): Option<H.Ending> {
    if log == [] then None else EndNow(EndOf(log[..|log| - 1], c), log[|log| - 1], c)
  }

  function EndNow(ending: Option<H.Ending>, event: Event, c: Channel): Option<H.Ending> {
    if !event.Closed? || event.channel != c then ending
    else if event.reason.Upgraded? then Some(H.Upgraded) else Some(H.Broken)
  }

  lemma Snoc(log: Log, event: Event, e: EndpointId, c: Channel)
    ensures Out(log + [event], c) == Out(log, c) + MessageOf(event, c)
    ensures Reports(log + [event], e) == Reports(log, e) + if event.BandwidthChanged? && event.endpoint == e then 1 else 0
    ensures EndOf(log + [event], c) == EndNow(EndOf(log, c), event, c)
  {
    assert (log + [event])[..|log|] == log;
  }

  /** The round of endpoint `e` from channel `o` to channel `n`, as the manager's state shows it. */
  function CoreOf(s: State, e: EndpointId, o: Channel, n: Channel): H.Core {
    H.Core(e in s.up.inProgress, e in s.up.parked && s.up.parked[e] == o, e in s.up.latched,
           e in s.registry && s.registry[e] == n, n in s.io.paused, Reports(s.io.log, e), EndOf(s.io.log, o))
  }

  /** In the round only `o` is ever parked. */
  predicate InRound(s: State, e: EndpointId, o: Channel, n: Channel) {
    && o != n && e in s.registry && (s.registry[e] == o || s.registry[e] == n)
    && (e in s.up.parked ==> s.up.parked[e] == o)
  }

  // -- the steps ------------------------------------------------------------

  lemma LastWriteRefines(env: Env, s: State, e: EndpointId, o: Channel, n: Channel)
    requires InRound(s, e, o, n)
    ensures var t, (c, ms) := OnLastWrite(env, s, e), H.SeeLastWrite(CoreOf(s, e, o, n), Next(env, s.io.log));
      && CoreOf(t, e, o, n) == c && Out(t.io.log, o) == Out(s.io.log, o) + ms && InRound(t, e, o, n)
  {
    if e in s.up.parked {
      var ok, log := Next(env, s.io.log), s.io.log;
      Snoc(log, Wrote(e, o, SafeToClose, ok), e, o);
      Snoc(log + [Wrote(e, o, SafeToClose, ok)], Closed(e, o, IoError), e, o);
    }
  }

  lemma ParkRefines(env: Env, s: State, e: EndpointId, o: Channel, n: Channel)
    requires InRound(s, e, o, n) && s.registry[e] == n && e !in s.up.parked
    ensures var c := CoreOf(s, e, o, n);
      var t := Park(env, s, e, o);
      var parked := c.(parked := true, latched := false);
      && InRound(t, e, o, n)
      && (CoreOf(t, e, o, n), Out(t.io.log, o)) ==
           if !c.latched then (parked, Out(s.io.log, o))
           else var (c', ms) := H.SeeLastWrite(parked, Next(env, s.io.log)); (c', Out(s.io.log, o) + ms)
  {
    var s1 := s.(up := s.up.(parked := s.up.parked[e := o], latched := s.up.latched - {e}));
    LastWriteRefines(env, s1, e, o, n);
  }

  /** Where the write of LAST_WRITE, and of a SAFE_TO_CLOSE right after it, find their outcomes. */
  function Swapped(s: State, e: EndpointId, n: Channel): Log {
    s.io.log + [Paused(n)] + [Registered(e, n)]
  }

  lemma SwapLog(log: Log, e: EndpointId, o: Channel, n: Channel, ok: bool)
    ensures var t := log + [Paused(n)] + [Registered(e, n)] + [Wrote(e, o, LastWrite, ok)];
      && Out(t, o) == Out(log, o) + (if ok then [H.LastWrite] else [])
      && Reports(t, e) == Reports(log, e) && EndOf(t, o) == EndOf(log, o)
  {
    SwappedLog(log, e, o, n);
    Snoc(log + [Paused(n)] + [Registered(e, n)], Wrote(e, o, LastWrite, ok), e, o);
  }

  lemma SwappedLog(log: Log, e: EndpointId, o: Channel, n: Channel)
    ensures var t := log + [Paused(n)] + [Registered(e, n)];
      Out(t, o) == Out(log, o) && Reports(t, e) == Reports(log, e) && EndOf(t, o) == EndOf(log, o)
  {
    Snoc(log, Paused(n), e, o);
    Snoc(log + [Paused(n)], Registered(e, n), e, o);
  }

  /** From `s` to `t` the channels were swapped as the round says, with the outcomes those two writes have. */
  predicate IsSwap(env: Env, s: State, t: State, e: EndpointId, o: Channel, n: Channel) {
    var log := Swapped(s, e, n);
    var last := Next(env, log);
    var (c, ms) := H.Swap(CoreOf(s, e, o, n), last, Next(env, log + [Wrote(e, o, LastWrite, last)]));
    CoreOf(t, e, o, n) == c && Out(t.io.log, o) == Out(s.io.log, o) + ms && InRound(t, e, o, n)
  }

  /** The converged protocol is the swap. */
  lemma SwapRefines(env: Env, s: State, e: EndpointId, o: Channel, n: Channel)
    requires InRound(s, e, o, n) && s.registry[e] == o && e !in s.up.parked
    ensures IsSwap(env, s, RunProtocol(env, s, e, n), e, o, n)
  {
    var log := Swapped(s, e, n);
    var ok := Next(env, log);
    SwapLog(s.io.log, e, o, n, ok);
    var s1 := s.(registry := s.registry[e := n],
                 io := s.io.(paused := s.io.paused + {n}, log := log + [Wrote(e, o, LastWrite, ok)]));
    assert CoreOf(s1, e, o, n) == CoreOf(s, e, o, n).(onNew := true, newPaused := true);
    if ok {
      ParkRefines(env, s1, e, o, n);
      BothSaid(Out(s.io.log, o));
    }
  }

  lemma BothSaid(out: seq<H.Message>)
    ensures out + [H.LastWrite] + [H.SafeToClose] == out + ([H.LastWrite] + [H.SafeToClose])
    ensures out + [H.LastWrite] + [] == out + ([H.LastWrite] + [])
  {
  }

  /** The goodbye is all that the end of the round puts on the old channel. */
  lemma GoodbyeLog(log: Log, e: EndpointId, o: Channel, ok: bool)
    ensures var t := log + [EncryptionOff(e, o)] + [Wrote(e, o, Disconnection, ok)] + [DrainRead(e, o)];
      && Out(t, o) == Out(log, o) + (if ok then [H.Disconnection] else [])
      && Reports(t, e) == Reports(log, e)
  {
    var l1 := log + [EncryptionOff(e, o)];
    var l2 := l1 + [Wrote(e, o, Disconnection, ok)];
    Snoc(log, EncryptionOff(e, o), e, o);
    Snoc(l1, Wrote(e, o, Disconnection, ok), e, o);
    Snoc(l2, DrainRead(e, o), e, o);
  }

  lemma ClosingLog(log: Log, e: EndpointId, o: Channel, n: Channel)
    ensures var t := log + [Closed(e, o, Upgraded)] + [Resumed(n)] + [BandwidthChanged(e, n.medium)];
      && Out(t, o) == Out(log, o) && Reports(t, e) == Reports(log, e) + 1 && EndOf(t, o) == Some(H.Upgraded)
  {
    var l1 := log + [Closed(e, o, Upgraded)];
    Snoc(log, Closed(e, o, Upgraded), e, o);
    Snoc(l1, Resumed(n), e, o);
    Snoc(l1 + [Resumed(n)], BandwidthChanged(e, n.medium), e, o);
  }

  lemma SafeToCloseRefines(env: Env, s: State, e: EndpointId, o: Channel, n: Channel)
    requires InRound(s, e, o, n) && s.registry[e] == n && e in s.up.parked
    ensures var goodbye := Next(env, s.io.log + [EncryptionOff(e, o)]);
      var t, (c, ms) := OnSafeToClose(env, s, e), H.BeginClose(CoreOf(s, e, o, n), goodbye);
      && CoreOf(t, e, o, n) == H.EndClose(c) && Out(t.io.log, o) == Out(s.io.log, o) + ms && InRound(t, e, o, n)
  {
    var ok, log := Next(env, s.io.log + [EncryptionOff(e, o)]), s.io.log;
    GoodbyeLog(log, e, o, ok);
    ClosingLog(log + [EncryptionOff(e, o)] + [Wrote(e, o, Disconnection, ok)] + [DrainRead(e, o)], e, o, n);
  }

  /** Whether the manager's next write on the parked channel `o` works. */
  predicate Works(env: Env, s: State, e: EndpointId, o: Channel, f: Received) {
    Next(env, if f.SafeToClosePriorChannel? then s.io.log + [EncryptionOff(e, o)] else s.io.log)
  }

  /**
   * LAST_WRITE and SAFE_TO_CLOSE frames from the peer of a connected endpoint do to the manager what the round
   * says, the drain read included.
   */
  lemma FramesRefine(env: Env, s: State, e: EndpointId, o: Channel, n: Channel, f: Received)
    requires InRound(s, e, o, n) && ClientOf(s, e).connected && (e in s.up.parked ==> s.registry[e] == n)
    requires f.LastWriteToPriorChannel? || f.SafeToClosePriorChannel?
    ensures var c, works := CoreOf(s, e, o, n), Works(env, s, e, o, f);
      var t := OnFrame(env, s, e, f).state;
      && OnFrame(env, s, e, f).Done? && InRound(t, e, o, n)
      && (CoreOf(t, e, o, n), Out(t.io.log, o)) ==
           if f.LastWriteToPriorChannel? then
             if !c.inProgress then (c, Out(s.io.log, o))
             else var (c', ms) := H.SeeLastWrite(c, works); (c', Out(s.io.log, o) + ms)
           else
             if !c.inProgress || !c.parked then (c, Out(s.io.log, o))
             else var (c', ms) := H.BeginClose(c, works); (H.EndClose(c'), Out(s.io.log, o) + ms)
  {
    LastWriteRefines(env, s, e, o, n);
    if e in s.up.parked {
      SafeToCloseRefines(env, s, e, o, n);
    }
  }

  // -- what starting a round logs -------------------------------------------

  /** Events that put nothing on `c`, report nothing for `e` and do not close `c`. */
  predicate Silent(event: Event, e: EndpointId, c: Channel) {
    && MessageOf(event, c) == []
    && !(event.BandwidthChanged? && event.endpoint == e)
    && !(event.Closed? && event.channel == c)
  }

  lemma {:induction false} SilentLog(log: Log, longer: Log, e: EndpointId, c: Channel)
    requires |log| <= |longer| && longer[..|log|] == log
    requires forall i :: |log| <= i < |longer| ==> Silent(longer[i], e, c)
    ensures Out(longer, c) == Out(log, c) && Reports(longer, e) == Reports(log, e) && EndOf(longer, c) == EndOf(log, c)
    decreases |longer|
  {
    if |longer| > |log| {
      assert longer[..|longer| - 1][..|log|] == log;
      SilentLog(log, longer[..|longer| - 1], e, c);
    } else {
      assert longer == log;
    }
  }

  lemma InitSilent(outcome: Outcomes, now: nat, m: Medium, h: HandlerSpec.Handler, c: Channel, service: ServiceId, e: EndpointId)
    ensures var r := HandlerSpec.Init(outcome, now, m, h, service, e);
      forall i :: 0 <= i < |r.log| ==> Silent(r.log[i], e, c)
  {
  }

  lemma JoinLog(env: Env, s: State, e: EndpointId, o: Channel, n: Channel)
    ensures var t := Emit(Started(s, e), Joined(e));
      && CoreOf(t, e, o, n) == CoreOf(s, e, o, n).(inProgress := true)
      && Out(t.io.log, n) == Out(s.io.log, n) && Out(t.io.log, o) == Out(s.io.log, o)
  {
    Snoc(s.io.log, Joined(e), e, o);
    Snoc(s.io.log, Joined(e), e, n);
  }

  lemma IntroducedLog(env: Env, s: State, e: EndpointId, o: Channel, n: Channel, introduced: EndpointId)
    requires o != n && Introduced(env, s, n, Some(introduced)).1.Some?
    ensures var t := Introduced(env, s, n, Some(introduced)).0;
      && Introduced(env, s, n, Some(introduced)).1 == Some(introduced)
      && Out(t.io.log, n) == Out(s.io.log, n) + [H.IntroductionAck] && Out(t.io.log, o) == Out(s.io.log, o)
      && Reports(t.io.log, e) == Reports(s.io.log, e) && EndOf(t.io.log, o) == EndOf(s.io.log, o)
      && t == s.(io := t.io) && t.io.paused == s.io.paused
  {
    var t, log := Introduced(env, s, n, Some(introduced)).0, s.io.log;
    IntroducedFrame(env, s, n, Some(introduced));
    assert t.io.log == log + [IntroductionRead(n, true)] + [AckWritten(n, true)];
    GreetedLog(log, e, o, n);
  }

  lemma GreetedLog(log: Log, e: EndpointId, o: Channel, n: Channel)
    requires o != n
    ensures var t := log + [IntroductionRead(n, true)] + [AckWritten(n, true)];
      && Out(t, n) == Out(log, n) + [H.IntroductionAck] && Out(t, o) == Out(log, o)
      && Reports(t, e) == Reports(log, e) && EndOf(t, o) == EndOf(log, o)
  {
    Snoc(log, IntroductionRead(n, true), e, o);
    Snoc(log, IntroductionRead(n, true), e, n);
    Snoc(log + [IntroductionRead(n, true)], AckWritten(n, true), e, o);
    Snoc(log + [IntroductionRead(n, true)], AckWritten(n, true), e, n);
  }
}
