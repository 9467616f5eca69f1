/** The actor's timers: what is armed is what is pending, and the timer loop neither spins nor sleeps too long. */
module Timers {
  import opened Wrappers
  import opened ServiceIds
  import opened Protocol
  import opened BwuSpec
  import opened Frames

  type Deadlines = map<EndpointId, nat>

  /** Arm what is newly pending, disarm what is not pending any more, keep the other deadlines. */
  function Reconciled(armed: Deadlines, alarms: map<EndpointId, nat>, now: nat): Deadlines {
    map e | e in alarms :: if e in armed then armed[e] else now + alarms[e]
  }

  function Due(armed: Deadlines, now: nat): set<EndpointId> {
    set e | e in armed && armed[e] <= now
  }

  // -- what one operation does to the retry of one endpoint -----------------

  /** A recorded delay is positive and within the maximum, and a pending retry has its delay on record. */
  predicate Sane(env: Env, s: State, e: EndpointId) {
    && (e in s.retry.delays ==> 0 < s.retry.delays[e])
    && (e in s.retry.delays && env.config.retryDelay <= env.config.maxDelay ==> s.retry.delays[e] <= env.config.maxDelay)
    && (e in s.retry.alarms ==> e in s.retry.delays && s.retry.alarms[e] == s.retry.delays[e])
  }

  /** Whether a retry of `e` is pending, and with which delay, is the same. */
  predicate SameAlarm(s: State, t: State, e: EndpointId) {
    (e in s.retry.alarms <==> e in t.retry.alarms) && (e in s.retry.alarms ==> s.retry.alarms[e] == t.retry.alarms[e])
  }

  /** A failover for `f`: a recorded delay stays on record and does not shrink, other alarms stay as they are. */
  predicate Failing(env: Env, s: State, t: State, f: EndpointId, e: EndpointId) {
    && Sane(env, t, e)
    && (e in s.retry.delays && env.config.retryDelay <= env.config.maxDelay ==>
          e in t.retry.delays && s.retry.delays[e] <= t.retry.delays[e])
    && (e != f ==> SameAlarm(s, t, e))
  }

  lemma ScheduleFails(env: Env, s: State, f: EndpointId, e: EndpointId)
    requires Resolved(env.config) && Sane(env, s, e)
    ensures Failing(env, s, ScheduleRetry(env, s, f), f, e)
  {
  }

  lemma NextBestFails(env: Env, s: State, f: EndpointId, untried: seq<Medium>, e: EndpointId)
    requires Resolved(env.config) && Sane(env, s, e)
    ensures Failing(env, s, NextBestOnce(env, s, f, untried).state, f, e)
  {
    ScheduleFails(env, s, f, e);
  }

  lemma FailureFails(env: Env, s: State, f: EndpointId, last: Medium, e: EndpointId)
    requires Resolved(env.config) && Sane(env, s, e)
    ensures Failing(env, s, FailureOnce(env, s, f, last).state, f, e)
  {
    UndoneFrame(env, s, f);
    NextBestFails(env, Undone(env, s, f), f, After(ClientOf(s, f).mediums, last), e);
  }

  lemma AttemptFails(env: Env, s: State, f: EndpointId, m: Medium, e: EndpointId)
    requires Resolved(env.config) && Sane(env, s, e) && HasHandler(s, m) && f in s.registry
    ensures Failing(env, s, Attempt(env, s, f, m).state, f, e)
  {
    OfferFrame(env, s, f, m);
    var (s1, ok) := MakeOffer(env, s, f, m);
    if !ok {
      FailureFails(env, s1, f, OnWire(m), e);
    }
  }

  lemma InitiateFails(env: Env, s: State, f: EndpointId, m: Medium, e: EndpointId)
    requires Resolved(env.config) && Sane(env, s, e)
    ensures Failing(env, s, InitiateOnce(env, s, f, m).state, f, e)
  {
    PreliminariesFrame(env, s, f, m);
    if Viable(s, f, m) {
      AttemptFails(env, Readied(env, s, f, m), f, m, e);
    }
  }

  lemma {:induction false} RoundsFail(env: Env, s: State, f: EndpointId, os: seq<Outcome>, e: EndpointId)
    requires Resolved(env.config) && Rounds(env, f, os) && Failing(env, s, os[0].state, f, e)
    ensures Failing(env, s, os[|os| - 1].state, f, e)
    decreases |os|
  {
    if |os| > 1 {
      RoundsTail(env, f, os);
      InitiateFails(env, os[0].state, f, os[0].medium, e);
      RoundsFail(env, s, f, os[1..], e);
    }
  }

  /** A retry that comes due concerns the alarm of its own endpoint only, even with one medium for all. */
  lemma AlarmFails(env: Env, s: State, f: EndpointId, call: Call, e: EndpointId)
    requires Resolved(env.config) && Sane(env, s, e)
    requires call.op == AlarmFires(f) && Rounds(env, f, call.rounds) && call.rounds[0] == FireAlarm(env, s, f)
    ensures Failing(env, s, call.rounds[|call.rounds| - 1].state, f, e)
  {
    NextBestFails(env, CancelAlarm(s, f), f, ClientOf(s, f).mediums, e);
    RoundsFail(env, s, f, call.rounds, e);
  }

  /** A retry of `e` pending before and after has no shorter delay after. */
  predicate NoShorter(env: Env, s: State, t: State, e: EndpointId) {
    e in s.retry.alarms && e in t.retry.alarms && env.config.retryDelay <= env.config.maxDelay ==>
      s.retry.alarms[e] <= t.retry.alarms[e]
  }

  /** Operations that at most cancel the retry of `e` or forget about it. */
  predicate Dropping(s: State, t: State, e: EndpointId) {
    && (e in t.retry.delays ==> e in s.retry.delays && s.retry.delays[e] == t.retry.delays[e])
    && (e in t.retry.alarms ==> e in s.retry.alarms && s.retry.alarms[e] == t.retry.alarms[e])
    && (e in t.retry.alarms && e in s.retry.delays ==> e in t.retry.delays)
  }

  lemma ResponderDrops(env: Env, s: State, f: EndpointId, info: PathInfo)
    ensures FailedProtocol(env, s, f, info).retry == s.retry
    ensures OnPathAvailable(env, s, f, info).retry == s.retry
  {
    FailedProtocolFrame(env, s, f, info);
    DuplicateFrame(s, f);
    AdoptedFrame(env, s, f, info.medium);
    AcceptDrops(env, Adopted(env, s, f, info.medium), f, info);
  }

  lemma AcceptDrops(env: Env, s: State, f: EndpointId, info: PathInfo)
    ensures Accept(env, s, f, info).retry == s.retry
  {
    FailedProtocolFrame(env, s, f, info);
    DialFrame(env, s, f, info);
    var (s1, made) := Dial(env, s, f, info);
    FailedProtocolFrame(env, s1, f, info);
    if made.Some? {
      RunProtocolFrame(env, Emit(Started(s1, f), Joined(f)), f, made.value);
    }
  }

  lemma IncomingDrops(env: Env, s: State, c: Channel, introduced: Option<EndpointId>, e: EndpointId)
    ensures Dropping(s, OnIncoming(env, s, c, introduced), e)
  {
    var (s1, id) := Introduced(env, s, c, introduced);
    IntroducedFrame(env, s, c, introduced);
    if id.Some? && Target(s1, id.value).Some? {
      var f := Target(s1, id.value).value;
      RunProtocolFrame(env, CancelAlarm(s1, f), f, c);
    }
  }

  lemma OtherDrops(env: Env, s: State, op: Op, e: EndpointId)
    requires !op.Initiate? && !op.AlarmFires? && !op.IncomingFrame?
    ensures Dropping(s, Begin(env, s, op).state, e)
  {
    match op
    case IncomingConnection(c, introduced) => IncomingDrops(env, s, c, introduced, e);
    case EndpointDisconnect(service, f) => RevertFrame(env, Forget(env, s, f), service, f);
    case Stop => RevertHandlersFrame(env, s.(retry := Retries(map[], map[])), env.handlerOrder(s.handlers.Keys));
    case _ =>
  }

  lemma FrameRetries(env: Env, s: State, f: EndpointId, frame: Received, os: seq<Outcome>, e: EndpointId)
    requires Resolved(env.config) && Sane(env, s, e)
    requires Rounds(env, f, os) && os[0] == OnFrame(env, s, f, frame)
    ensures var t := os[|os| - 1].state; Sane(env, t, e) && NoShorter(env, s, t, e)
  {
    match frame
    case PathAvailable(Some(info)) => ResponderDrops(env, s, f, info);
    case UpgradeFailure(Some(info)) =>
      FailureFails(env, s, f, info.medium, e);
      RoundsFail(env, s, f, os, e);
    case LastWriteToPriorChannel => LastWriteFrame(env, s, f);
    case SafeToClosePriorChannel => SafeToCloseFrame(env, s, f);
    case _ =>
  }

  lemma InitiateRetries(env: Env, s: State, f: EndpointId, m: Medium, os: seq<Outcome>, e: EndpointId)
    requires Resolved(env.config) && Sane(env, s, e)
    requires Rounds(env, f, os) && os[0] == InitiateOnce(env, s, f, m)
    ensures var t := os[|os| - 1].state; Sane(env, t, e) && NoShorter(env, s, t, e)
  {
    InitiateFails(env, s, f, m, e);
    RoundsFail(env, s, f, os, e);
  }

  lemma OtherRetries(env: Env, s: State, op: Op, os: seq<Outcome>, e: EndpointId)
    requires !op.Initiate? && !op.AlarmFires? && !op.IncomingFrame?
    requires Sane(env, s, e) && Rounds(env, "", os) && os[0] == Begin(env, s, op)
    ensures var t := os[|os| - 1].state; Sane(env, t, e) && NoShorter(env, s, t, e)
  {
    OtherDrops(env, s, op, e);
    assert os[0].Done?;
  }

  /** One whole call, with every re-initiation in it. */
  lemma CallRetries(env: Env, s: State, call: Call, e: EndpointId)
    requires Resolved(env.config) && Sane(env, s, e)
    requires Rounds(env, Subject(call.op), call.rounds) && call.rounds[0] == Begin(env, s, call.op)
    ensures var t := call.rounds[|call.rounds| - 1].state; Sane(env, t, e) && NoShorter(env, s, t, e)
  {
    match call.op
    case Initiate(f, m) => InitiateRetries(env, s, f, m, call.rounds, e);
    case AlarmFires(f) => AlarmFails(env, s, f, call, e);
    case IncomingFrame(f, frame) => FrameRetries(env, s, f, frame, call.rounds, e);
    case _ => OtherRetries(env, s, call.op, call.rounds, e);
  }

  // -- the actor ------------------------------------------------------------

  /**
   * The actor between two turns of its loop. `since` says when each pending delay was first seen by a
   * reconciliation; it is only there to state the deadlines' upper bound.
   */
  datatype Actor = Actor(manager: State, armed: Deadlines, since: map<EndpointId, nat>, clock: nat)

  datatype Turn =
    | Command(call: Call, now: nat)
    | Timer(due: seq<EndpointId>, calls: seq<Call>, now: nat, later: nat)

  function Noted(a: Actor, t: State, fired: set<EndpointId>, now: nat): map<EndpointId, nat> {
    map e | e in t.retry.alarms ::
      if e in a.manager.retry.alarms && e in a.since && e !in fired && a.manager.retry.alarms[e] == t.retry.alarms[e]
      then a.since[e] else now
  }

  /** The calls fire the alarms of `due`, in that order. */
  predicate Fires(due: seq<EndpointId>, calls: seq<Call>) {
    |calls| == |due| && forall i :: 0 <= i < |due| ==> calls[i].op == AlarmFires(due[i])
  }

  /** One turn of the loop; time never runs backwards, and a hash map hands out the due endpoints in any order. */
  ghost predicate Takes(env: Env, a: Actor, turn: Turn, b: Actor) {
    match turn
    case Command(call, now) =>
      && !call.op.Stop? && a.clock <= now
      && Execution(env, a.manager, [call])
      && b.manager == End(a.manager, [call])
      && b == Actor(b.manager, Reconciled(a.armed, b.manager.retry.alarms, now), Noted(a, b.manager, {}, now), now)
    case Timer(due, calls, now, later) =>
      && a.clock <= now <= later
      && Enumerates(due, Due(a.armed, now)) && Fires(due, calls)
      && Execution(env, a.manager, calls)
      && b.manager == End(a.manager, calls)
      && b == Actor(b.manager, Reconciled(a.armed - Due(a.armed, now), b.manager.retry.alarms, later),
                    Noted(a, b.manager, Due(a.armed, now), later), later)
  }

  predicate Timely(env: Env, a: Actor, e: EndpointId) {
    && (e in a.armed <==> e in a.manager.retry.alarms)
    && (e in a.since <==> e in a.manager.retry.alarms)
    && Sane(env, a.manager, e)
    && (e in a.since ==> a.since[e] <= a.clock)
    && (e in a.armed && env.config.retryDelay <= env.config.maxDelay ==>
          a.armed[e] <= a.since[e] + a.manager.retry.alarms[e])
  }

  ghost predicate ActorInv(env: Env, a: Actor) {
    forall e {:trigger Timely(env, a, e)} :: Timely(env, a, e)
  }

  /** From state to state, the endpoints of `due` fail in turn. */
  ghost predicate FailInTurn(env: Env, states: seq<State>, due: seq<EndpointId>, e: EndpointId) {
    && |states| == |due| + 1
    && forall i :: 0 <= i < |due| && Sane(env, states[i], e) ==> Failing(env, states[i], states[i + 1], due[i], e)
  }

  /** While a batch of due retries is fired, the retries not yet fired stay as they are. */
  lemma {:induction false} BatchRetries(env: Env, states: seq<State>, due: seq<EndpointId>, n: nat, e: EndpointId)
    requires FailInTurn(env, states, due, e) && Sane(env, states[0], e) && n <= |due|
    ensures Sane(env, states[n], e)
    ensures e !in due[..n] ==> SameAlarm(states[0], states[n], e)
    decreases n
  {
    if n > 0 {
      BatchRetries(env, states, due, n - 1, e);
      assert due[..n] == due[..n - 1] + [due[n - 1]];
      assert Failing(env, states[n - 1], states[n - 1 + 1], due[n - 1], e);
    }
  }

  lemma BatchStates(env: Env, start: State, due: seq<EndpointId>, calls: seq<Call>, e: EndpointId) returns (states: seq<State>)
    requires Resolved(env.config) && Fires(due, calls) && Execution(env, start, calls)
    ensures FailInTurn(env, states, due, e) && states[0] == start && states[|due|] == End(start, calls)
    ensures forall i :: 0 <= i <= |due| ==> states[i] == End(start, calls[..i])
  {
    states := StatesOf(env, start, calls);
    forall i | 0 <= i < |due| && Sane(env, states[i], e)
      ensures Failing(env, states[i], states[i + 1], due[i], e)
    {
      AlarmCallFails(env, states[i], due[i], calls[i], states[i + 1], e);
    }
  }

  lemma AlarmCallFails(env: Env, s: State, f: EndpointId, call: Call, t: State, e: EndpointId)
    requires Resolved(env.config) && Sane(env, s, e) && call.op == AlarmFires(f) && Leads(env, s, call, t)
    ensures Failing(env, s, t, f, e)
  {
    AlarmFails(env, s, f, call, e);
  }

  lemma WholeBatchRetries(env: Env, start: State, due: seq<EndpointId>, calls: seq<Call>, e: EndpointId)
    requires Resolved(env.config) && Sane(env, start, e)
    requires Fires(due, calls) && Execution(env, start, calls)
    ensures Sane(env, End(start, calls), e)
    ensures e !in due ==> SameAlarm(start, End(start, calls), e)
  {
    var states := BatchStates(env, start, due, calls, e);
    BatchRetries(env, states, due, |due|, e);
    assert due[..|due|] == due;
  }

  /** Every retry fired in a batch is still pending when its turn comes. */
  lemma BatchFindsAlarms(env: Env, a: Actor, turn: Turn, b: Actor, i: nat)
    requires Resolved(env.config) && ActorInv(env, a) && Takes(env, a, turn, b)
    requires turn.Timer? && i < |turn.due|
    ensures turn.due[i] in End(a.manager, turn.calls[..i]).retry.alarms
  {
    var due := turn.due;
    assert due[i] !in due[..i];
    assert due[i] in Due(a.armed, turn.now);
    assert Timely(env, a, due[i]);
    var states := BatchStates(env, a.manager, due, turn.calls, due[i]);
    BatchRetries(env, states, due, i, due[i]);
  }

  /** After a batch no deadline is at or before the time the batch was taken for: the loop cannot spin. */
  lemma NoSpin(env: Env, a: Actor, turn: Turn, b: Actor, e: EndpointId)
    requires Resolved(env.config) && ActorInv(env, a) && Takes(env, a, turn, b)
    requires turn.Timer? && e in b.armed
    ensures turn.now < b.armed[e]
  {
    assert Timely(env, a, e);
    WholeBatchRetries(env, a.manager, turn.due, turn.calls, e);
  }

  lemma CommandKeeps(env: Env, a: Actor, call: Call, now: nat, b: Actor, e: EndpointId)
    requires Resolved(env.config) && Timely(env, a, e) && Takes(env, a, Command(call, now), b)
    ensures Timely(env, b, e)
  {
    ExecutionParts(env, a.manager, [call]);
    assert [call][..0] == [];
    CallRetries(env, a.manager, call, e);
  }

  lemma TimerKeeps(env: Env, a: Actor, turn: Turn, b: Actor, e: EndpointId)
    requires Resolved(env.config) && Timely(env, a, e) && Takes(env, a, turn, b) && turn.Timer?
    ensures Timely(env, b, e)
  {
    WholeBatchRetries(env, a.manager, turn.due, turn.calls, e);
    assert e in turn.due <==> e in Due(a.armed, turn.now);
  }

  lemma TurnKeeps(env: Env, a: Actor, turn: Turn, b: Actor, e: EndpointId)
    requires Resolved(env.config) && Timely(env, a, e) && Takes(env, a, turn, b)
    ensures Timely(env, b, e)
  {
    match turn
    case Command(call, now) => CommandKeeps(env, a, call, now, b, e);
    case Timer(_, _, _, _) => TimerKeeps(env, a, turn, b, e);
  }

  /** A run of the actor: what it is before the first turn and after each. */
  ghost predicate Run(env: Env, mediums: set<Medium>, actors: seq<Actor>, turns: seq<Turn>) {
    && |actors| == |turns| + 1
    && actors[0] == Actor(Fresh(mediums), map[], map[], 0)
    && forall i :: 0 <= i < |turns| ==> Takes(env, actors[i], turns[i], actors[i + 1])
  }

  /**
   * At every loop head of every run the armed endpoints are those with a pending retry, and, if the first
   * delay does not exceed the maximum, no timer is armed for later than the pending delay calls for.
   */
  lemma {:induction false} TimersAgree(env: Env, mediums: set<Medium>, actors: seq<Actor>, turns: seq<Turn>, i: nat)
    requires Resolved(env.config) && Run(env, mediums, actors, turns) && i < |actors|
    ensures ActorInv(env, actors[i])
    decreases i
  {
    if i > 0 {
      TimersAgree(env, mediums, actors, turns, i - 1);
      assert Takes(env, actors[i - 1], turns[i - 1], actors[i - 1 + 1]);
      forall e
        ensures Timely(env, actors[i], e)
      {
        assert Timely(env, actors[i - 1], e);
        TurnKeeps(env, actors[i - 1], turns[i - 1], actors[i], e);
      }
    }
  }

  // -- the bound on deadlines -----------------------------------------------

  /** No timer is armed for later than when the pending delay was first reconciled, plus that delay. */
  predicate InTime(a: Actor) {
    forall e :: e in a.armed ==> e in a.since && e in a.manager.retry.alarms && a.armed[e] <= a.since[e] + a.manager.retry.alarms[e]
  }

  ghost predicate AlwaysInTime(env: Env) {
    forall mediums: set<Medium>, actors: seq<Actor>, turns: seq<Turn>, i: nat :: Run(env, mediums, actors, turns) && i < |actors| ==> InTime(actors[i])
  }

  /**
   * Deadlines keep to that bound in all runs exactly if the first delay does not exceed the maximum: the first delay
   * is not capped, so that the second can be shorter, and the timer armed for the first stays.
   */
  lemma InTimeIffFirstDelayCapped(env: Env)
    requires Resolved(env.config)
    ensures AlwaysInTime(env) <==> env.config.retryDelay <= env.config.maxDelay
  {
    if env.config.retryDelay <= env.config.maxDelay {
      forall mediums: set<Medium>, actors: seq<Actor>, turns: seq<Turn>, i: nat | Run(env, mediums, actors, turns) && i < |actors|
        ensures InTime(actors[i])
      {
        TimersAgree(env, mediums, actors, turns, i);
        assert forall e :: e in actors[i].armed ==> Timely(env, actors[i], e);
      }
    } else {
      var actors, turns := LateRun(env);
      assert Run(env, {}, actors, turns) && !InTime(actors[3]);
    }
  }

  /** A connected endpoint without mediums, whose peer reports two failures in a row. */
  lemma LateRun(env: Env) returns (actors: seq<Actor>, turns: seq<Turn>)
    requires Resolved(env.config) && env.config.retryDelay > env.config.maxDelay
    ensures Run(env, {}, actors, turns) && |actors| == 4 && !InTime(actors[3])
  {
    var e := "";
    var s0 := Fresh({});
    var s1 := s0.(clients := s0.clients[e := Client(true, false, [])]);
    var s2 := ScheduleRetry(env, s1, e);
    var s3 := ScheduleRetry(env, s2, e);
    var a0, a1 := Actor(s0, map[], map[], 0), Actor(s1, map[], map[], 0);
    var c1 := Call(ConnectionAccepted(e), [Done(s1)]);
    OneTurn(env, a0, c1, a1);
    var a2 := Actor(s2, map[e := env.config.retryDelay], map[e := 0], 0);
    var c2 := FailureTurn(env, a1, e, a2);
    var a3 := Actor(s3, map[e := env.config.retryDelay], map[e := 0], 0);
    var c3 := FailureTurn(env, a2, e, a3);
    actors, turns := [a0, a1, a2, a3], [Command(c1, 0), Command(c2, 0), Command(c3, 0)];
    assert s3.retry.alarms[e] == env.config.maxDelay;
  }

  lemma FailureTurn(env: Env, a: Actor, e: EndpointId, b: Actor) returns (call: Call)
    requires Plain(a.manager, e) && b.manager == ScheduleRetry(env, a.manager, e)
    requires a.clock == 0
    requires b == Actor(b.manager, Reconciled(a.armed, b.manager.retry.alarms, 0), Noted(a, b.manager, {}, 0), 0)
    ensures Takes(env, a, Command(call, 0), b) && Plain(b.manager, e)
  {
    call := Call(IncomingFrame(e, UpgradeFailure(Some(PathInfo(WifiLan, false)))), [Done(b.manager)]);
    FailedAlone(env, a.manager, e);
    OneTurn(env, a, call, b);
  }

  /** Nothing on record, nothing registered, nothing to try. */
  predicate Plain(s: State, e: EndpointId) {
    && s.mediums == Mediums(UnknownMedium, map[]) && s.registry == map[] && s.up.inProgress == {}
    && e in s.clients && s.clients[e] == Client(true, false, [])
  }

  lemma FailedAlone(env: Env, s: State, e: EndpointId)
    requires Plain(s, e)
    ensures OnFrame(env, s, e, UpgradeFailure(Some(PathInfo(WifiLan, false)))) == Done(ScheduleRetry(env, s, e))
  {
    assert Stopped(s, e) == s;
  }

  lemma OneTurn(env: Env, a: Actor, call: Call, b: Actor)
    requires !call.op.Stop? && call.rounds == [Done(b.manager)] && Begin(env, a.manager, call.op) == Done(b.manager)
    requires a.clock == 0
    requires b == Actor(b.manager, Reconciled(a.armed, b.manager.retry.alarms, 0), Noted(a, b.manager, {}, 0), 0)
    ensures Takes(env, a, Command(call, 0), b)
  {
    var calls := [call];
    var before := calls[..|calls| - 1];
    assert before == [];
    assert End(a.manager, before) == a.manager;
    assert Rounds(env, Subject(call.op), call.rounds);
    assert Execution(env, a.manager, before);
    assert Execution(env, a.manager, calls);
  }
}
