/** The failure notice: it names the very offer it answers, so that the peer goes on behind the medium it offered. */
module Refusals {
  import opened Wrappers
  import opened ServiceIds
  import opened Protocol
  import opened BwuSpec
  import opened Frames
  import Failover
  import FailoverSearch

  // -- what the notice says -------------------------------------------------

  /** If the event is a failure notice, `op` is the offer it answers. */
  predicate Answers(op: Op, event: Event) {
    event.Wrote? && event.frame.UpgradeFailed? ==>
      op == IncomingFrame(event.endpoint, PathAvailable(Some(event.frame.info)))
  }

  predicate NoNotice(event: Event) {
    !(event.Wrote? && event.frame.UpgradeFailed?)
  }

  ghost predicate AllAnswer(s: State, t: State, op: Op) {
    Extends(s, t, event => Answers(op, event))
  }

  lemma Quietly(s: State, t: State, op: Op)
    requires Extends(s, t, NoNotice)
    ensures AllAnswer(s, t, op)
  {
  }

  lemma Then(s: State, t: State, u: State, op: Op)
    requires AllAnswer(s, t, op) && AllAnswer(t, u, op)
    ensures AllAnswer(s, u, op)
  {
    assert u.io.log[..|s.io.log|] == u.io.log[..|t.io.log|][..|s.io.log|];
    forall i | |s.io.log| <= i < |u.io.log|
      ensures Answers(op, u.io.log[i])
    {
      assert i < |t.io.log| ==> u.io.log[..|t.io.log|][i] == t.io.log[i];
    }
  }

  lemma RefusalAnswers(env: Env, s: State, e: EndpointId, info: PathInfo)
    ensures AllAnswer(s, FailedProtocol(env, s, e, info), IncomingFrame(e, PathAvailable(Some(info))))
  {
    FailedProtocolFrame(env, s, e, info);
  }

  lemma OfferAnswers(env: Env, s: State, e: EndpointId, info: PathInfo)
    ensures AllAnswer(s, OnPathAvailable(env, s, e, info), IncomingFrame(e, PathAvailable(Some(info))))
  {
    var op := IncomingFrame(e, PathAvailable(Some(info)));
    RefusalAnswers(env, s, e, info);
    DuplicateFrame(s, e);
    var s1 := Adopted(env, s, e, info.medium);
    AdoptedFrame(env, s, e, info.medium);
    AcceptAnswers(env, s1, e, info, op);
  }

  lemma AcceptAnswers(env: Env, s: State, e: EndpointId, info: PathInfo, op: Op)
    requires op == IncomingFrame(e, PathAvailable(Some(info)))
    ensures AllAnswer(s, Accept(env, s, e, info), op)
  {
    RefusalAnswers(env, s, e, info);
    DialFrame(env, s, e, info);
    var (s1, made) := Dial(env, s, e, info);
    Quietly(s, s1, op);
    if made.None? {
      RefusalAnswers(env, s1, e, info);
      Then(s, s1, FailedProtocol(env, s1, e, info), op);
    } else {
      var s2 := Emit(Started(s1, e), Joined(e));
      SwapSilent(env, s1, s2, e, made.value, op);
      Then(s, s1, RunProtocol(env, s2, e, made.value), op);
    }
  }

  lemma SwapSilent(env: Env, s: State, s1: State, e: EndpointId, c: Channel, op: Op)
    requires s1 == Emit(Started(s, e), Joined(e))
    ensures AllAnswer(s, RunProtocol(env, s1, e, c), op)
  {
    RunProtocolFrame(env, s1, e, c);
    Quietly(s, s1, op);
    Quietly(s1, RunProtocol(env, s1, e, c), op);
    Then(s, s1, RunProtocol(env, s1, e, c), op);
  }

  lemma IncomingSilent(env: Env, s: State, c: Channel, introduced: Option<EndpointId>, op: Op)
    ensures AllAnswer(s, OnIncoming(env, s, c, introduced), op)
  {
    var (s1, known) := Introduced(env, s, c, introduced);
    IntroducedFrame(env, s, c, introduced);
    Quietly(s, s1, op);
    if known.Some? && Target(s1, known.value).Some? {
      var e := Target(s1, known.value).value;
      RunProtocolFrame(env, CancelAlarm(s1, e), e, c);
      Then(s, s1, RunProtocol(env, CancelAlarm(s1, e), e, c), op);
    }
  }

  lemma DisconnectSilent(env: Env, s: State, service: ServiceId, e: EndpointId, op: Op)
    ensures AllAnswer(s, OnDisconnect(env, s, service, e), op)
  {
    var s1 := Forget(env, s, e);
    ForgetFrame(env, s, e);
    RevertFrame(env, s1, service, e);
    Quietly(s, s1, op);
    Then(s, s1, Revert(env, s1, service, e), op);
  }

  lemma FailoverSilent(s: State, t: State, e: EndpointId, op: Op)
    requires OnlyFailover(s, t, e)
    ensures AllAnswer(s, t, op)
  {
  }

  lemma AgainSilent(env: Env, s: State, e: EndpointId, m: Medium, t: State, op: Op)
    requires t == InitiateOnce(env, s, e, m).state
    ensures AllAnswer(s, t, op)
  {
    InitiateFrame(env, s, e, m);
    FailoverSilent(s, t, e, op);
  }

  lemma AlarmSilent(env: Env, s: State, e: EndpointId, op: Op)
    ensures AllAnswer(s, FireAlarm(env, s, e).state, op)
  {
    var s1 := CancelAlarm(s, e);
    NextBestFrame(env, s1, e, ClientOf(s, e).mediums);
    FailoverSilent(s1, NextBestOnce(env, s1, e, ClientOf(s, e).mediums).state, e, op);
  }

  lemma ShutDownSilent(env: Env, s: State, op: Op)
    ensures AllAnswer(s, DoShutDown(env, s), op)
  {
    var s0, ms := s.(retry := Retries(map[], map[])), env.handlerOrder(s.handlers.Keys);
    RevertHandlersFrame(env, s0, ms);
    Quietly(s, RevertHandlers(env, s0, ms), op);
    Then(s, RevertHandlers(env, s0, ms), DoShutDown(env, s), op);
  }

  lemma FrameAnswers(env: Env, s: State, e: EndpointId, f: Received)
    ensures AllAnswer(s, OnFrame(env, s, e, f).state, IncomingFrame(e, f))
  {
    match f
    case PathAvailable(Some(info)) => RefusalAnswers(env, s, e, info); OfferAnswers(env, s, e, info);
    case UpgradeFailure(Some(info)) =>
      FailureFrame(env, s, e, info.medium);
      FailoverSilent(s, FailureOnce(env, s, e, info.medium).state, e, IncomingFrame(e, f));
    case _ => ControlSilent(env, s, e, IncomingFrame(e, f));
  }

  lemma ControlSilent(env: Env, s: State, e: EndpointId, op: Op)
    ensures AllAnswer(s, s, op) && AllAnswer(s, OnLastWrite(env, s, e), op)
      && AllAnswer(s, OnSafeToClose(env, s, e), op)
  {
    LastWriteFrame(env, s, e);
    SafeToCloseFrame(env, s, e);
    Quietly(s, OnLastWrite(env, s, e), op);
    Quietly(s, OnSafeToClose(env, s, e), op);
  }

  lemma BeginAnswers(env: Env, s: State, op: Op)
    ensures AllAnswer(s, Begin(env, s, op).state, op)
  {
    match op
    case Initiate(e, m) => AgainSilent(env, s, e, m, Begin(env, s, op).state, op);
    case IncomingFrame(e, f) => FrameAnswers(env, s, e, f);
    case IncomingConnection(c, introduced) => IncomingSilent(env, s, c, introduced, op);
    case EndpointDisconnect(service, e) => DisconnectSilent(env, s, service, e, op);
    case AlarmFires(e) => AlarmSilent(env, s, e, op);
    case Stop => ShutDownSilent(env, s, op);
    case _ =>
      MinorFrame(env, s, op);
      Quietly(s, Begin(env, s, op).state, op);
  }

  lemma {:induction false} RoundsAnswer(env: Env, s: State, op: Op, os: seq<Outcome>)
    requires Rounds(env, Subject(op), os) && AllAnswer(s, os[0].state, op)
    ensures AllAnswer(s, os[|os| - 1].state, op)
    decreases |os|
  {
    if |os| > 1 {
      RoundsTail(env, Subject(op), os);
      AgainSilent(env, os[0].state, Subject(op), os[0].medium, os[1..][0].state, op);
      Then(s, os[0].state, os[1..][0].state, op);
      RoundsAnswer(env, s, op, os[1..]);
    }
  }

  /**
   * Whatever call the manager handles: a failure notice it writes answers an offer this very call is about, to the
   * endpoint that made it, and says of the medium and all else what the offer said. No other call writes one.
   */
  lemma NoticeNamesTheOffer(env: Env, s: State, call: Call, t: State, k: nat)
    requires Leads(env, s, call, t) && |s.io.log| <= k < |t.io.log|
    requires t.io.log[k].Wrote? && t.io.log[k].frame.UpgradeFailed?
    ensures call.op == IncomingFrame(t.io.log[k].endpoint, PathAvailable(Some(t.io.log[k].frame.info)))
  {
    BeginAnswers(env, s, call.op);
    RoundsAnswer(env, s, call.op, call.rounds);
    assert Answers(call.op, t.io.log[k]);
  }

  // -- what the notice brings about -----------------------------------------

  /**
   * Two managers: `theirs` is handed the offer of `m`, as it comes off the wire, and writes a failure notice, which
   * the manager that made the offer is handed in turn. It goes on exactly as if the offer of `m` had failed at
   * home: along the mediums behind the one it offered.
   */
  lemma RefusedOfferGoesOn(
      env: Env, mine: State, e: EndpointId, m: Medium, env': Env, theirs: State, call: Call, theirs': State,
      k: nat, ack: bool, info: PathInfo, os: seq<Outcome>) returns (log: Log, w: FailoverSearch.Walk)
    requires Leads(env', theirs, call, theirs') && |theirs.io.log| <= k < |theirs'.io.log|
    requires call.op.IncomingFrame? && call.op.f == PathAvailable(Some(PathInfo(OnWire(m), ack)))
    requires theirs'.io.log[k].Wrote? && theirs'.io.log[k].frame == UpgradeFailed(info)
    requires ClientOf(mine, e).connected && Failover.CanSwitch(env, mine) && Failover.NoReturn(mine, e)
    requires Rounds(env, e, os) && os[0] == OnFrame(env, mine, e, UpgradeFailure(Some(info)))
    ensures os[0] == FailureOnce(env, mine, e, OnWire(m))
    ensures var u, t := Undone(env, mine, e), os[|os| - 1].state;
      var way := FailoverSearch.Way(mine, e, After(ClientOf(mine, e).mediums, OnWire(m)), {});
      && FailoverSearch.Walked(u, t, e, log, w) && FailoverSearch.Settled(env, t, e, log, w.verdict)
      && w == FailoverSearch.Search(way, FailoverSearch.ChannelOf(mine, e), WifiLanConnected(mine),
        FailoverSearch.Works(log, e))
  {
    NoticeNamesTheOffer(env', theirs, call, theirs', k);
    log, w := FailoverSearch.FailureIsSearch(env, mine, e, OnWire(m), os);
  }
}
