/** The retry bookkeeping: delays follow the backoff formula, and a pending retry excludes an upgrade. */
module Backoff {
  import opened Wrappers
  import opened ServiceIds
  import opened Protocol
  import opened BwuSpec
  import opened Frames

  function Power2(k: nat): nat {
    if k == 0 then 1 else 2 * Power2(k - 1)
  }

  /** The delay of the retry that follows `k` earlier ones. */
  function Delay(config: Config, k: nat): nat {
    if k == 0 then config.retryDelay
    else Min(if config.exponential then config.retryDelay * Power2(k) else config.retryDelay * (k + 1), config.maxDelay)
  }

  /** Retries scheduled for `e` since it was last disconnected or the manager shut down. */
  function Scheduled(log: Log, e: EndpointId): nat {
    if log == [] then 0 else Tick(Scheduled(log[..|log| - 1], e), log[|log| - 1], e)
  }

  function Tick(n: nat, event: Event, e: EndpointId): nat {
    if event.RetryScheduled? && event.endpoint == e then n + 1
    else if (event.Forgotten? && event.endpoint == e) || event.ShutDown? then 0
    else n
  }

  predicate IrrelevantTo(event: Event, e: EndpointId) {
    && !(event.RetryScheduled? && event.endpoint == e)
    && !(event.Forgotten? && event.endpoint == e)
    && !event.ShutDown?
  }

  lemma Snoc(log: Log, event: Event, e: EndpointId)
    ensures Scheduled(log + [event], e) == Tick(Scheduled(log, e), event, e)
  {
    assert (log + [event])[..|log|] == log;
  }

  lemma {:induction false} ScheduledKept(log: Log, longer: Log, e: EndpointId)
    requires |log| <= |longer| && longer[..|log|] == log
    requires forall i :: |log| <= i < |longer| ==> IrrelevantTo(longer[i], e)
    ensures Scheduled(longer, e) == Scheduled(log, e)
    decreases |longer|
  {
    if |longer| > |log| {
      assert longer[..|longer| - 1][..|log|] == log;
      ScheduledKept(log, longer[..|longer| - 1], e);
    } else {
      assert longer == log;
    }
  }

  /** `e` has accepted an offer from its peer. */
  ghost predicate HasJoined(log: Log, e: EndpointId) {
    Joined(e) in log
  }

  ghost predicate RetryInv(env: Env, s: State, e: EndpointId) {
    && (e in s.retry.delays <==> Scheduled(s.io.log, e) > 0)
    && (e in s.retry.delays ==> s.retry.delays[e] == Delay(env.config, Scheduled(s.io.log, e) - 1))
    && (e in s.retry.alarms ==> e in s.retry.delays && s.retry.alarms[e] == s.retry.delays[e])
    && (e in s.retry.alarms && e in s.up.inProgress ==> HasJoined(s.io.log, e))
  }

  // -- steps ----------------------------------------------------------------

  /** Doubling (or adding once more) and capping turns one term of the formula into the next. */
  lemma NextDelayIsNextTerm(env: Env, s: State, e: EndpointId)
    requires RetryInv(env, s, e)
    ensures NextDelay(env, s, e) == Delay(env.config, Scheduled(s.io.log, e))
  {
    var k := Scheduled(s.io.log, e);
    if k > 0 && !env.config.exponential {
      assert env.config.retryDelay * (k + 1) == env.config.retryDelay * k + env.config.retryDelay;
    } else if k > 0 {
      assert env.config.retryDelay * Power2(k) == 2 * (env.config.retryDelay * Power2(k - 1));
    }
  }

  /** Steps that leave the recorded delay alone and do not start an upgrade beside a pending retry. */
  lemma QuietRetry(env: Env, s: State, t: State, e: EndpointId)
    requires RetryInv(env, s, e) && Extends(s, t, event => IrrelevantTo(event, e))
    requires (e in s.retry.delays <==> e in t.retry.delays)
    requires e in s.retry.delays ==> s.retry.delays[e] == t.retry.delays[e]
    requires e in t.retry.alarms ==> e in s.retry.alarms && s.retry.alarms[e] == t.retry.alarms[e]
    requires e in t.up.inProgress && e in t.retry.alarms ==> e in s.up.inProgress || HasJoined(t.io.log, e)
    ensures RetryInv(env, t, e)
  {
    ScheduledKept(s.io.log, t.io.log, e);
    if HasJoined(s.io.log, e) {
      assert Joined(e) in t.io.log[..|s.io.log|];
    }
  }

  lemma ScheduleRetryKeeps(env: Env, s: State, f: EndpointId, e: EndpointId)
    requires RetryInv(env, s, e) && (f == e && e in s.up.inProgress ==> HasJoined(s.io.log, e))
    ensures RetryInv(env, ScheduleRetry(env, s, f), e)
  {
    NextDelayIsNextTerm(env, s, e);
    Snoc(s.io.log, RetryScheduled(f, NextDelay(env, s, f)), e);
  }

  lemma NextBestKeeps(env: Env, s: State, f: EndpointId, untried: seq<Medium>, e: EndpointId)
    requires RetryInv(env, s, e) && (f == e && e in s.up.inProgress ==> HasJoined(s.io.log, e))
    ensures RetryInv(env, NextBestOnce(env, s, f, untried).state, e)
  {
    ScheduleRetryKeeps(env, s, f, e);
  }

  lemma FailureKeeps(env: Env, s: State, f: EndpointId, last: Medium, e: EndpointId)
    requires RetryInv(env, s, e)
    ensures RetryInv(env, FailureOnce(env, s, f, last).state, e)
  {
    if env.config.multipleMediums || |s.registry| <= 1 {
      var s1 := Undone(env, s, f);
      UndoneFrame(env, s, f);
      QuietRetry(env, s, s1, e);
      NextBestKeeps(env, s1, f, After(ClientOf(s, f).mediums, last), e);
    } else {
      QuietRetry(env, s, Stopped(s, f), e);
    }
  }

  lemma AttemptKeeps(env: Env, s: State, f: EndpointId, m: Medium, e: EndpointId)
    requires HasHandler(s, m) && f in s.registry && f !in s.retry.alarms
    requires RetryInv(env, s, e)
    ensures RetryInv(env, Attempt(env, s, f, m).state, e)
  {
    var (s1, ok) := MakeOffer(env, s, f, m);
    OfferKeepsRetry(env, s, f, m, e);
    if ok {
      StartKeeps(env, s1, f, e);
    } else {
      FailureKeeps(env, s1, f, OnWire(m), e);
    }
  }

  lemma StartKeeps(env: Env, s: State, f: EndpointId, e: EndpointId)
    requires RetryInv(env, s, e) && f !in s.retry.alarms
    ensures RetryInv(env, Started(s, f), e)
  {
    QuietRetry(env, s, Started(s, f), e);
  }

  lemma OfferKeepsRetry(env: Env, s: State, f: EndpointId, m: Medium, e: EndpointId)
    requires HasHandler(s, m) && f in s.registry && RetryInv(env, s, e)
    ensures var t := MakeOffer(env, s, f, m).0; RetryInv(env, t, e) && t.retry == s.retry
  {
    OfferFrame(env, s, f, m);
    QuietRetry(env, s, MakeOffer(env, s, f, m).0, e);
  }

  lemma InitiateKeeps(env: Env, s: State, f: EndpointId, m: Medium, e: EndpointId)
    requires RetryInv(env, s, e)
    ensures RetryInv(env, InitiateOnce(env, s, f, m).state, e)
  {
    PreliminariesFrame(env, s, f, m);
    if Viable(s, f, m) {
      QuietRetry(env, s, Readied(env, s, f, m), e);
      AttemptKeeps(env, Readied(env, s, f, m), f, m, e);
    } else {
      QuietRetry(env, s, Declined(env, s, f, m), e);
    }
  }

  lemma RefusalKeeps(env: Env, s: State, f: EndpointId, info: PathInfo, e: EndpointId)
    requires RetryInv(env, s, e)
    ensures RetryInv(env, FailedProtocol(env, s, f, info), e)
  {
    FailedProtocolFrame(env, s, f, info);
    QuietRetry(env, s, FailedProtocol(env, s, f, info), e);
  }

  lemma RunProtocolKeeps(env: Env, s: State, f: EndpointId, c: Channel, e: EndpointId)
    requires RetryInv(env, s, e)
    ensures RetryInv(env, RunProtocol(env, s, f, c), e)
  {
    RunProtocolFrame(env, s, f, c);
    QuietRetry(env, s, RunProtocol(env, s, f, c), e);
  }

  lemma AcceptKeeps(env: Env, s: State, f: EndpointId, info: PathInfo, e: EndpointId)
    requires RetryInv(env, s, e)
    ensures RetryInv(env, Accept(env, s, f, info), e)
  {
    RefusalKeeps(env, s, f, info, e);
    DialFrame(env, s, f, info);
    var (s1, made) := Dial(env, s, f, info);
    QuietRetry(env, s, s1, e);
    RefusalKeeps(env, s1, f, info, e);
    if made.Some? {
      var s2 := Emit(Started(s1, f), Joined(f));
      assert s2.io.log[|s1.io.log|] == Joined(f);
      QuietRetry(env, s1, s2, e);
      RunProtocolKeeps(env, s2, f, made.value, e);
    }
  }

  lemma PathAvailableKeeps(env: Env, s: State, f: EndpointId, info: PathInfo, e: EndpointId)
    requires RetryInv(env, s, e)
    ensures RetryInv(env, OnPathAvailable(env, s, f, info), e)
  {
    if Barred(s, info.medium) {
      RefusalKeeps(env, s, f, info, e);
    } else if !ClientOf(s, f).incoming {
      if f in s.up.inProgress {
        DuplicateKeeps(env, s, f, e);
      } else {
        AdoptedFrame(env, s, f, info.medium);
        AcceptKeeps(env, Adopted(env, s, f, info.medium), f, info, e);
      }
    }
  }

  lemma DuplicateKeeps(env: Env, s: State, f: EndpointId, e: EndpointId)
    requires RetryInv(env, s, e)
    ensures RetryInv(env, DuplicateOffer(s, f), e)
  {
    DuplicateFrame(s, f);
    QuietRetry(env, s, DuplicateOffer(s, f), e);
  }

  lemma HandshakeKeeps(env: Env, s: State, f: EndpointId, e: EndpointId)
    requires RetryInv(env, s, e)
    ensures RetryInv(env, OnLastWrite(env, s, f), e)
    ensures RetryInv(env, OnSafeToClose(env, s, f), e)
  {
    LastWriteFrame(env, s, f);
    QuietRetry(env, s, OnLastWrite(env, s, f), e);
    SafeToCloseFrame(env, s, f);
    QuietRetry(env, s, OnSafeToClose(env, s, f), e);
  }

  lemma FrameKeeps(env: Env, s: State, f: EndpointId, frame: Received, e: EndpointId)
    requires RetryInv(env, s, e)
    ensures RetryInv(env, OnFrame(env, s, f, frame).state, e)
  {
    match frame
    case PathAvailable(Some(info)) => RefusalKeeps(env, s, f, info, e); PathAvailableKeeps(env, s, f, info, e);
    case UpgradeFailure(Some(info)) => FailureKeeps(env, s, f, info.medium, e);
    case LastWriteToPriorChannel => HandshakeKeeps(env, s, f, e);
    case SafeToClosePriorChannel => HandshakeKeeps(env, s, f, e);
    case _ =>
  }

  lemma IncomingKeeps(env: Env, s: State, c: Channel, introduced: Option<EndpointId>, e: EndpointId)
    requires RetryInv(env, s, e)
    ensures RetryInv(env, OnIncoming(env, s, c, introduced), e)
  {
    var (s1, id) := Introduced(env, s, c, introduced);
    IntroducedFrame(env, s, c, introduced);
    QuietRetry(env, s, s1, e);
    if id.Some? && Target(s1, id.value).Some? {
      var f := Target(s1, id.value).value;
      QuietRetry(env, s1, CancelAlarm(s1, f), e);
      RunProtocolKeeps(env, CancelAlarm(s1, f), f, c, e);
    }
  }

  lemma ForgetKeeps(env: Env, s: State, f: EndpointId, e: EndpointId)
    requires RetryInv(env, s, e)
    ensures RetryInv(env, Forget(env, s, f), e)
  {
    var t := Forget(env, s, f);
    if f == e {
      var log := t.io.log[..|t.io.log| - 1];
      assert t.io.log == log + [Forgotten(e)];
      Snoc(log, Forgotten(e), e);
    } else {
      QuietRetry(env, s, t, e);
    }
  }

  lemma ShutDownKeeps(env: Env, s: State, e: EndpointId)
    ensures RetryInv(env, DoShutDown(env, s), e)
  {
    var s0, ms := s.(retry := Retries(map[], map[])), env.handlerOrder(s.handlers.Keys);
    RevertHandlersFrame(env, s0, ms);
    Snoc(RevertHandlers(env, s0, ms).io.log, ShutDown, e);
  }

  lemma AlarmKeeps(env: Env, s: State, f: EndpointId, e: EndpointId)
    requires RetryInv(env, s, e)
    ensures RetryInv(env, FireAlarm(env, s, f).state, e)
  {
    QuietRetry(env, s, CancelAlarm(s, f), e);
    if f in s.retry.alarms {
      NextBestKeeps(env, CancelAlarm(s, f), f, ClientOf(s, f).mediums, e);
    }
  }

  lemma BeginKeeps(env: Env, s: State, op: Op, e: EndpointId)
    requires RetryInv(env, s, e)
    ensures RetryInv(env, Begin(env, s, op).state, e)
  {
    match op
    case Initiate(f, m) => InitiateKeeps(env, s, f, m, e);
    case IncomingFrame(f, frame) => FrameKeeps(env, s, f, frame, e);
    case IncomingConnection(c, introduced) => IncomingKeeps(env, s, c, introduced, e);
    case EndpointDisconnect(service, f) =>
      var s1 := Forget(env, s, f);
      ForgetKeeps(env, s, f, e);
      RevertFrame(env, s1, service, f);
      QuietRetry(env, s1, Revert(env, s1, service, f), e);
    case AlarmFires(f) => AlarmKeeps(env, s, f, e);
    case Stop => ShutDownKeeps(env, s, e);
    case _ => MinorKeeps(env, s, op, e);
  }

  lemma MinorKeeps(env: Env, s: State, op: Op, e: EndpointId)
    requires RetryInv(env, s, e) && Minor(op)
    ensures RetryInv(env, Begin(env, s, op).state, e)
  {
    MinorFrame(env, s, op);
    QuietRetry(env, s, Begin(env, s, op).state, e);
  }

  /**
   * In every execution, for every endpoint, whatever happens in between: a pending retry has its delay on
   * record, the recorded delay is the term of the backoff formula for the number of retries scheduled since
   * the last disconnect, and unless the endpoint once accepted an offer, a retry is not pending while an
   * upgrade is in progress.
   */
  lemma RetriesFollowFormula(env: Env, mediums: set<Medium>, calls: seq<Call>, e: EndpointId)
    requires Execution(env, Fresh(mediums), calls)
    ensures RetryInv(env, End(Fresh(mediums), calls), e)
  {
    var inv := (s: State) => RetryInv(env, s, e);
    var any := (s: State, op: Op) => true;
    forall s, op | inv(s) && any(s, op)
      ensures inv(Begin(env, s, op).state)
    {
      BeginKeeps(env, s, op, e);
    }
    forall s, f, m | inv(s)
      ensures inv(InitiateOnce(env, s, f, m).state)
    {
      InitiateKeeps(env, s, f, m, e);
    }
    ExecutionKeeps(env, Fresh(mediums), calls, inv, any);
  }

  /** With a maximum at least as long as the first delay, delays never get shorter. */
  lemma {:induction false} DelayGrows(config: Config, k: nat)
    requires config.retryDelay <= config.maxDelay
    ensures Delay(config, k) <= Delay(config, k + 1) <= config.maxDelay
  {
    if config.exponential {
      PowerPositive(k);
      assert config.retryDelay * Power2(k + 1) == 2 * (config.retryDelay * Power2(k));
      assert config.retryDelay * Power2(k) >= 0;
      if k == 0 {
        assert config.retryDelay * Power2(1) == 2 * config.retryDelay;
      }
    } else {
      assert config.retryDelay * (k + 2) == config.retryDelay * (k + 1) + config.retryDelay;
    }
  }

  lemma {:induction false} PowerPositive(k: nat)
    ensures Power2(k) > 0
  {
    if k > 0 {
      PowerPositive(k - 1);
    }
  }

  /**
   * With the delays left open, retries come after 3, 6, 12, 24, 48, 96 and 192 seconds and then every 300, or, without
   * exponential backoff, after 5 seconds and then every 10.
   */
  lemma DefaultDelays(multiple: bool, k: nat)
    ensures var config := Resolve(Config(multiple, true, 0, 0));
      Delay(config, k) == if k < 7 then 3000 * Power2(k) else 300000
    ensures var config := Resolve(Config(multiple, false, 0, 0));
      Delay(config, k) == if k == 0 then 5000 else 10000
  {
    if k < 7 {
      Power2Grows(k, 6);
    } else {
      Power2Grows(7, k);
    }
    assert Power2(6) == 2 * 2 * 2 * 2 * 2 * 2;
  }

  lemma {:induction false} Power2Grows(j: nat, k: nat)
    requires j <= k
    ensures Power2(j) <= Power2(k)
    decreases k
  {
    if j < k {
      Power2Grows(j, k - 1);
    }
  }
}
