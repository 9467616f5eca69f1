/**
 * What each operation of the upgrade manager does to the state of the manager, the handlers, the
 * channel registry, the client and the log. The methods of class `BwuManager` compute these functions.
 *
 * The failover recursion (initiate, failure, next best medium, initiate, ...) is in tail position
 * throughout, so one round of it is a function returning an `Outcome`: finished, or again with the
 * next medium. A call that returns is a finite sequence of rounds, `Rounds`.
 */
module BwuSpec {
  import opened Wrappers
  import opened ServiceIds
  import opened Protocol
  import HandlerSpec

  datatype Client = Client(connected: bool, incoming: bool, mediums: seq<Medium>)

  const UNSEEN: Client := Client(false, false, [])

  /** The mediums upgrades run over: one for all, or one per endpoint. */
  datatype Mediums = Mediums(medium: Medium, mediumOf: map<EndpointId, Medium>)

  /** Where each endpoint's upgrade stands. */
  datatype Upgrades = Upgrades(inProgress: set<EndpointId>, parked: map<EndpointId, Channel>, latched: set<EndpointId>)

  datatype Retries = Retries(alarms: map<EndpointId, nat>, delays: map<EndpointId, nat>)

  /** What all channels share: which are paused, how many there ever were, and the log. */
  datatype Io = Io(paused: set<Channel>, nextChannel: nat, log: Log)

  /** The manager's handlers and maps, the registry, the client and the channels. */
  datatype State = State(
    handlers: map<Medium, HandlerSpec.Handler>,
    mediums: Mediums,
    up: Upgrades,
    retry: Retries,
    registry: map<EndpointId, Channel>,
    clients: map<EndpointId, Client>,
    io: Io)

  datatype Outcome = Done(state: State) | Again(state: State, medium: Medium)

  // -- small helpers --------------------------------------------------------

  function Emit(s: State, event: Event): State {
    s.(io := s.io.(log := s.io.log + [event]))
  }

  function ClientOf(s: State, e: EndpointId): Client {
    if e in s.clients then s.clients[e] else UNSEEN
  }

  function ChannelMedium(s: State, e: EndpointId): Medium {
    if e in s.registry then s.registry[e].medium else UnknownMedium
  }

  predicate WifiLanConnected(s: State) {
    exists e :: e in s.registry && s.registry[e].medium == WifiLan
  }

  function MediumFor(env: Env, s: State, e: EndpointId): Medium {
    if !env.config.multipleMediums then s.mediums.medium
    else if e in s.mediums.mediumOf then s.mediums.mediumOf[e]
    else UnknownMedium
  }

  function SetMedium(env: Env, s: State, e: EndpointId, m: Medium): State {
    if env.config.multipleMediums then s.(mediums := s.mediums.(mediumOf := s.mediums.mediumOf[e := m]))
    else s.(mediums := s.mediums.(medium := m))
  }

  predicate HasHandler(s: State, m: Medium) {
    m != UnknownMedium && m in s.handlers
  }

  function CancelAlarm(s: State, e: EndpointId): State {
    s.(retry := s.retry.(alarms := s.retry.alarms - {e}))
  }

  /** The outcome of the operation logged right after `log`. */
  predicate Next(env: Env, log: Log) {
    env.outcome(|log|)
  }

  function Started(s: State, e: EndpointId): State {
    s.(up := s.up.(inProgress := s.up.inProgress + {e}))
  }

  function Stopped(s: State, e: EndpointId): State {
    s.(up := s.up.(inProgress := s.up.inProgress - {e}))
  }

  function WithHandler(s: State, m: Medium, r: HandlerSpec.Result): State {
    s.(handlers := s.handlers[m := r.handler], io := s.io.(log := s.io.log + r.log))
  }

  // -- initiator ------------------------------------------------------------

  predicate Barred(s: State, m: Medium) {
    WifiLanConnected(s) && m == WifiHotspot
  }

  /** Nothing stands in the way of attempting `m`. */
  predicate Viable(s: State, e: EndpointId, m: Medium) {
    && !Barred(s, m)
    && HasHandler(s, m) && e !in s.up.inProgress
    && e in s.registry && s.registry[e].medium != m
  }

  function InitiateOnce(env: Env, s: State, e: EndpointId, m: Medium): Outcome {
    if Viable(s, e, m) then Attempt(env, Readied(env, s, e, m), e, m)
    else Done(Declined(env, s, e, m))
  }

  /** The state in which an attempt is made. */
  function Readied(env: Env, s: State, e: EndpointId, m: Medium): State {
    CancelAlarm(SetMedium(env, s, e, m), e)
  }

  /** What an initiation that attempts nothing still changes. */
  function Declined(env: Env, s: State, e: EndpointId, m: Medium): State {
    if Barred(s, m) then s
    else if !HasHandler(s, m) || e in s.up.inProgress then SetMedium(env, s, e, m)
    else Readied(env, s, e, m)
  }

  /** Once the medium is recorded and not barred, only the other guards matter. */
  lemma Recorded(env: Env, s: State, e: EndpointId, m: Medium, t: State)
    requires t == SetMedium(env, s, e, m) && !Barred(s, m)
    ensures HasHandler(t, m) == HasHandler(s, m) && t.up == s.up && t.registry == s.registry
    ensures Readied(env, s, e, m) == CancelAlarm(t, e)
    ensures Declined(env, s, e, m) == if !HasHandler(t, m) || e in t.up.inProgress then t else CancelAlarm(t, e)
  {
  }

  /** The attempt proper: bring the medium up and write the offer on the registered channel. */
  function Attempt(env: Env, s: State, e: EndpointId, m: Medium): Outcome
    requires HasHandler(s, m) && e in s.registry
  {
    var (s1, ok) := MakeOffer(env, s, e, m);
    if ok then Done(Started(s1, e)) else FailureOnce(env, s1, e, OnWire(m))
  }

  function MakeOffer(env: Env, s: State, e: EndpointId, m: Medium): (State, bool)
    requires HasHandler(s, m) && e in s.registry
  {
    var c := s.registry[e];
    var up := HandlerSpec.Init(env.outcome, |s.io.log|, m, s.handlers[m], c.serviceId, e);
    var s1 := WithHandler(s, m, up);
    if up.ok then (Emit(s1, Wrote(e, c, Offer(m), Next(env, s1.io.log))), Next(env, s1.io.log)) else (s1, false)
  }

  // -- failure and failover -------------------------------------------------

  /** What follows the first `m` in `ms`; nothing if there is none. */
  function After(ms: seq<Medium>, m: Medium): seq<Medium> {
    if ms == [] then []
    else if ms[0] == m then ms[1..]
    else After(ms[1..], m)
  }

  function FailureOnce(env: Env, s: State, e: EndpointId, last: Medium): Outcome {
    if !env.config.multipleMediums && |s.registry| > 1 then Done(Stopped(s, e))
    else NextBestOnce(env, Undone(env, s, e), e, After(ClientOf(s, e).mediums, last))
  }

  /** A failed upgrade is over, and the medium it was to run over is given up. */
  function Undone(env: Env, s: State, e: EndpointId): State {
    var s1 := Stopped(s, e);
    var service := if e in s1.registry then s1.registry[e].serviceId else UNKNOWN_SERVICE_ID;
    if MediumFor(env, s1, e) != UnknownMedium then Revert(env, s1, Wrap(service), e) else s1
  }

  lemma StoppedFirst(env: Env, s: State, e: EndpointId)
    ensures Undone(env, Stopped(s, e), e) == Undone(env, s, e)
  {
    assert Stopped(Stopped(s, e), e) == Stopped(s, e);
  }

  function NextBestOnce(env: Env, s: State, e: EndpointId, untried: seq<Medium>): Outcome {
    var next := ChooseBest(env, s, e, untried);
    var current := ChannelMedium(s, e);
    if current != WifiLan && (next == current || next == UnknownMedium || untried == []) then
      Done(ScheduleRetry(env, s, e))
    else if !HasHandler(s, next) then Done(s)
    else Again(SetMedium(env, s, e, next), next)
  }

  function Available(s: State, ms: seq<Medium>): seq<Medium> {
    if ms == [] then []
    else (if HasHandler(s, ms[0]) then [ms[0]] else []) + Available(s, ms[1..])
  }

  function ChooseBest(env: Env, s: State, e: EndpointId, ms: seq<Medium>): Medium {
    var available := Available(s, ms);
    var current := MediumFor(env, s, e);
    if current == UnknownMedium then
      if available != [] then available[0] else UnknownMedium
    else if current in available then current
    else UnknownMedium
  }

  function NextDelay(env: Env, s: State, e: EndpointId): nat {
    if e !in s.retry.delays then env.config.retryDelay
    else Min(if env.config.exponential then s.retry.delays[e] * 2 else s.retry.delays[e] + env.config.retryDelay,
             env.config.maxDelay)
  }

  function Min(a: nat, b: nat): nat {
    if a <= b then a else b
  }

  function ScheduleRetry(env: Env, s: State, e: EndpointId): State {
    var d := NextDelay(env, s, e);
    s.(retry := Retries(s.retry.alarms[e := d], s.retry.delays[e := d]),
       io := s.io.(log := s.io.log + [RetryScheduled(e, d)]))
  }

  /** `second` is the round that `first` calls for. */
  ghost predicate Link(env: Env, e: EndpointId, first: Outcome, second: Outcome) {
    first.Again? && second == InitiateOnce(env, first.state, e, first.medium)
  }

  /** The rounds of one call, laid out one after the other up to the final one. */
  ghost predicate Rounds(env: Env, e: EndpointId, os: seq<Outcome>) {
    && os != []
    && os[|os| - 1].Done?
    && (os[0].Done? <==> |os| == 1)
    && forall i :: 0 <= i < |os| - 1 ==> Link(env, e, os[i], os[i + 1])
  }

  lemma RoundsTail(env: Env, e: EndpointId, os: seq<Outcome>)
    requires Rounds(env, e, os) && |os| > 1
    ensures Rounds(env, e, os[1..]) && Link(env, e, os[0], os[1..][0])
    ensures os[1..][|os| - 2] == os[|os| - 1]
  {
    assert Link(env, e, os[0], os[1]) && (|os| > 2 ==> Link(env, e, os[1], os[2]));
    forall i | 0 <= i < |os[1..]| - 1
      ensures Link(env, e, os[1..][i], os[1..][i + 1])
    {
      assert Link(env, e, os[i + 1], os[i + 2]);
    }
  }

  // -- responder ------------------------------------------------------------

  function FailedProtocol(env: Env, s: State, e: EndpointId, info: PathInfo): State {
    if e !in s.registry then s
    else
      var c := s.registry[e];
      var log := s.io.log + [Wrote(e, c, UpgradeFailed(info), Next(env, s.io.log))];
      if !Next(env, s.io.log) then s.(io := s.io.(log := log + [Closed(e, c, IoError)]))
      else
        var s1 := s.(io := s.io.(log := log));
        var s2 := if MediumFor(env, s1, e) != UnknownMedium then Revert(env, s1, c.serviceId, e) else s1;
        Stopped(s2, e)
  }

  function OnPathAvailable(env: Env, s: State, e: EndpointId, info: PathInfo): State {
    if Barred(s, info.medium) then FailedProtocol(env, s, e, info)
    else if ClientOf(s, e).incoming then s
    else if e in s.up.inProgress then DuplicateOffer(s, e)
    else Accept(env, Adopted(env, s, e, info.medium), e, info)
  }

  /** The responder adopts the medium offered unless it has one already. */
  function Adopted(env: Env, s: State, e: EndpointId, m: Medium): State {
    if MediumFor(env, s, e) == UnknownMedium then SetMedium(env, s, e, m) else s
  }

  function Accept(env: Env, s: State, e: EndpointId, info: PathInfo): State {
    if info.medium != MediumFor(env, s, e) then FailedProtocol(env, s, e, info)
    else
      match Dial(env, s, e, info)
      case (s1, None) => FailedProtocol(env, s1, e, info)
      case (s1, Some(c)) => RunProtocol(env, Emit(Started(s1, e), Joined(e)), e, c)
  }

  /** A second offer while one is in flight: close everything. */
  function DuplicateOffer(s: State, e: EndpointId): State {
    var log := if e in s.up.parked then s.io.log + [Closed(e, s.up.parked[e], Unfinished)] else s.io.log;
    var up := s.up.(parked := s.up.parked - {e});
    if e !in s.registry then s.(up := up, io := s.io.(log := log))
    else
      var c := s.registry[e];
      s.(up := up, io := s.io.(paused := s.io.paused - {c}, log := log + [Resumed(c)] + [Closed(e, c, Unfinished)]))
  }

  /** Dial the offered medium and introduce ourselves there; on success, the new channel. */
  function Dial(env: Env, s: State, e: EndpointId, info: PathInfo): (State, Option<Channel>) {
    if !HasHandler(s, info.medium) || e !in s.registry then (s, None)
    else
      var service := s.registry[e].serviceId;
      var log := s.io.log + [Create(info.medium, service, e, Next(env, s.io.log))];
      if !Next(env, s.io.log) then (s.(io := s.io.(log := log)), None)
      else
        var c := Channel(s.io.nextChannel, info.medium, service);
        var (log', ok) := Introduce(env, log, e, c, info.introductionAck);
        (s.(io := s.io.(nextChannel := c.id + 1, log := log')), if ok then Some(c) else None)
  }

  function Introduce(env: Env, log: Log, e: EndpointId, c: Channel, awaitAck: bool): (Log, bool) {
    var written := log + [Wrote(e, c, Introduction, Next(env, log))];
    if !Next(env, log) then (written + [Discarded(c)], false)
    else if !awaitAck then (written, true)
    else
      var read := written + [AckRead(c, Next(env, written))];
      if Next(env, written) then (read, true) else (read + [Discarded(c)], false)
  }

  // -- the converged protocol -----------------------------------------------

  ghost function Sole(s: set<EndpointId>): (e: EndpointId)
    requires |s| == 1
    ensures s == {e}
  {
    var e :| e in s;
    assert |s - {e}| == 0;
    e
  }

  /** Read the introduction on the new socket `c` and acknowledge it; who it is from, if both work. */
  function Introduced(env: Env, s: State, c: Channel, introduced: Option<EndpointId>): (State, Option<EndpointId>) {
    var next := if c.id < s.io.nextChannel then s.io.nextChannel else c.id + 1;
    var log := s.io.log + [IntroductionRead(c, introduced.Some?)];
    if introduced.None? then (s.(io := s.io.(nextChannel := next, log := log + [Discarded(c)])), None)
    else
      var ok := Next(env, log);
      var acked := log + [AckWritten(c, ok)];
      (s.(io := s.io.(nextChannel := next, log := if ok then acked else acked + [Discarded(c)])),
       if ok then introduced else None)
  }

  /** An upgraded socket `c` arrived; `introduced` is what its introduction names, if readable. */
  ghost function OnIncoming(env: Env, s: State, c: Channel, introduced: Option<EndpointId>): State {
    match Introduced(env, s, c, introduced)
    case (s1, None) => s1
    case (s1, Some(id)) =>
      match Target(s1, id)
      case None => s1
      case Some(e) => RunProtocol(env, CancelAlarm(s1, e), e, c)
  }

  /** The endpoint an introduction is for: the one it names, or else the only one upgrading. */
  ghost function Target(s: State, introduced: EndpointId): Option<EndpointId> {
    if introduced in s.up.inProgress then Some(introduced)
    else if |s.up.inProgress| == 1 then Some(Sole(s.up.inProgress))
    else None
  }

  function RunProtocol(env: Env, s: State, e: EndpointId, c: Channel): State {
    var paused := s.io.paused + {c};
    var log := s.io.log + [Paused(c)];
    if e !in s.registry then s.(io := s.io.(paused := paused, log := log))
    else
      var prior := s.registry[e];
      var swapped := log + [Registered(e, c)];
      var ok := Next(env, swapped);
      var s1 := s.(registry := s.registry[e := c],
                   io := s.io.(paused := paused, log := swapped + [Wrote(e, prior, LastWrite, ok)]));
      if ok then Park(env, s1, e, prior) else s1
  }

  /** Park the displaced channel (letting go of one parked before), then catch up with an early LAST_WRITE. */
  function Park(env: Env, s: State, e: EndpointId, prior: Channel): State {
    var log := if e in s.up.parked then s.io.log + [Released(e, s.up.parked[e])] else s.io.log;
    var s1 := s.(up := s.up.(parked := s.up.parked[e := prior], latched := s.up.latched - {e}), io := s.io.(log := log));
    if e in s.up.latched then OnLastWrite(env, s1, e) else s1
  }

  function OnLastWrite(env: Env, s: State, e: EndpointId): State {
    if e !in s.up.parked then s.(up := s.up.(latched := s.up.latched + {e}))
    else
      var ok := Next(env, s.io.log);
      var log := s.io.log + [Wrote(e, s.up.parked[e], SafeToClose, ok)];
      if ok then s.(io := s.io.(log := log))
      else s.(up := s.up.(parked := s.up.parked - {e}), io := s.io.(log := log + [Closed(e, s.up.parked[e], IoError)]))
  }

  function OnSafeToClose(env: Env, s: State, e: EndpointId): State {
    if e !in s.up.parked then s
    else
      var prev := s.up.parked[e];
      var off := s.io.log + [EncryptionOff(e, prev)];
      var log := off + [Wrote(e, prev, Disconnection, Next(env, off))] + [DrainRead(e, prev)] + [Closed(e, prev, Upgraded)];
      if e !in s.registry then s.(up := s.up.(parked := s.up.parked - {e}), io := s.io.(log := log))
      else
        var c := s.registry[e];
        s.(up := s.up.(parked := s.up.parked - {e}, inProgress := s.up.inProgress - {e}),
           io := s.io.(paused := s.io.paused - {c}, log := log + [Resumed(c)] + [BandwidthChanged(e, c.medium)]))
  }

  // -- dispatch, alarms, disconnect, shutdown -------------------------------

  function OnFrame(env: Env, s: State, e: EndpointId, f: Received): Outcome {
    if !ClientOf(s, e).connected then
      if f.PathAvailable? && f.info.Some? then Done(FailedProtocol(env, s, e, f.info.value)) else Done(s)
    else match f
      case PathAvailable(Some(info)) => Done(OnPathAvailable(env, s, e, info))
      case UpgradeFailure(Some(info)) => FailureOnce(env, s, e, info.medium)
      case LastWriteToPriorChannel => Done(if e in s.up.inProgress then OnLastWrite(env, s, e) else s)
      case SafeToClosePriorChannel => Done(if e in s.up.inProgress then OnSafeToClose(env, s, e) else s)
      case _ => Done(s)
  }

  function FireAlarm(env: Env, s: State, e: EndpointId): Outcome {
    if e !in s.retry.alarms then Done(s)
    else
      var s1 := CancelAlarm(s, e);
      if !ClientOf(s1, e).connected then Done(s1)
      else NextBestOnce(env, s1, e, ClientOf(s1, e).mediums)
  }

  function Revert(env: Env, s: State, service: ServiceId, e: EndpointId): State {
    var m := MediumFor(env, s, e);
    if !env.config.multipleMediums then
      var s1 := s.(mediums := s.mediums.(medium := UnknownMedium));
      if HasHandler(s1, m)
      then WithHandler(s1, m, HandlerSpec.RevertAll(m, s1.handlers[m], env.order(s1.handlers[m].active.Keys)))
      else s1
    else
      var s1 := s.(mediums := s.mediums.(mediumOf := s.mediums.mediumOf - {e}));
      if !HasHandler(s1, m) then s1
      else if IsInitiator(service) then
        WithHandler(s1, m, HandlerSpec.RevertEndpoint(m, s1.handlers[m], service, e))
      else if m == WifiHotspot || m == WifiDirect then
        WithHandler(s1, m, HandlerSpec.TearDown(m, s1.handlers[m], service))
      else s1
  }

  function OnDisconnect(env: Env, s: State, service: ServiceId, e: EndpointId): State {
    var s1 := Forget(env, s, e);
    if env.config.multipleMediums || |s1.registry| <= 1 then Revert(env, s1, service, e) else s1
  }

  function Forget(env: Env, s: State, e: EndpointId): State {
    var m := MediumFor(env, s, e);
    var log := if HasHandler(s, m) then s.io.log + [HandlerDisconnect(m, e)] else s.io.log;
    var closed := if e in s.up.parked then log + [Closed(e, s.up.parked[e], Shutdown)] else log;
    s.(up := Upgrades(s.up.inProgress - {e}, s.up.parked - {e}, s.up.latched - {e}),
       retry := Retries(s.retry.alarms - {e}, s.retry.delays - {e}),
       io := s.io.(log := closed + [Forgotten(e)]))
  }

  function RevertHandlers(env: Env, s: State, ms: seq<Medium>): State
    decreases ms
  {
    if ms == [] then s
    else
      var s1 := if ms[0] in s.handlers
                then WithHandler(s, ms[0], HandlerSpec.RevertAll(ms[0], s.handlers[ms[0]],
                                                                 env.order(s.handlers[ms[0]].active.Keys)))
                else s;
      RevertHandlers(env, s1, ms[1..])
  }

  /** Parked channels are let go without being closed. */
  function DoShutDown(env: Env, s: State): State {
    var s1 := RevertHandlers(env, s.(retry := Retries(map[], map[])), env.handlerOrder(s.handlers.Keys));
    s1.(up := Upgrades({}, map[], {}), io := s1.io.(log := s1.io.log + [ShutDown]))
  }

  // -- whole runs -----------------------------------------------------------

  datatype Op =
    | Initiate(e: EndpointId, m: Medium)
    | ResetUpgrade(e: EndpointId)
    | IncomingFrame(e: EndpointId, f: Received)
    | IncomingConnection(c: Channel, introduced: Option<EndpointId>)
    | EndpointDisconnect(service: ServiceId, e: EndpointId)
    | AlarmFires(e: EndpointId)
    | Stop
    | RegisterChannel(e: EndpointId, c: Channel)
    | UnregisterChannel(e: EndpointId)
    | ConnectionInitiated(e: EndpointId, incoming: bool)
    | ConnectionAccepted(e: EndpointId)
    | ClientDisconnected(e: EndpointId)
    | SetUpgradeMediums(e: EndpointId, mediums: seq<Medium>)

  /** The first round of an operation; only three kinds can need more. */
  ghost function Begin(env: Env, s: State, op: Op): Outcome {
    match op
    case Initiate(e, m) => InitiateOnce(env, s, e, m)
    case ResetUpgrade(e) => Done(Stopped(s, e))
    case IncomingFrame(e, f) => OnFrame(env, s, e, f)
    case IncomingConnection(c, introduced) => Done(OnIncoming(env, s, c, introduced))
    case EndpointDisconnect(service, e) => Done(OnDisconnect(env, s, service, e))
    case AlarmFires(e) => FireAlarm(env, s, e)
    case Stop => Done(DoShutDown(env, s))
    case RegisterChannel(e, c) => Done(Register(s, e, c))
    case UnregisterChannel(e) => Done(Unregister(s, e))
    case ConnectionInitiated(e, incoming) => Done(s.(clients := s.clients[e := ClientOf(s, e).(incoming := incoming)]))
    case ConnectionAccepted(e) => Done(s.(clients := s.clients[e := ClientOf(s, e).(connected := true)]))
    case ClientDisconnected(e) => Done(s.(clients := s.clients - {e}))
    case SetUpgradeMediums(e, ms) => Done(s.(clients := s.clients[e := ClientOf(s, e).(mediums := ms)]))
  }

  function Register(s: State, e: EndpointId, c: Channel): State {
    s.(registry := s.registry[e := c],
       io := s.io.(nextChannel := if c.id < s.io.nextChannel then s.io.nextChannel else c.id + 1,
                   log := s.io.log + [Registered(e, c)]))
  }

  function Unregister(s: State, e: EndpointId): State {
    Emit(s.(registry := s.registry - {e}), Unregistered(e))
  }

  /** The endpoint whose failover an operation may run. */
  function Subject(op: Op): EndpointId {
    match op
    case Initiate(e, _) => e
    case IncomingFrame(e, _) => e
    case AlarmFires(e) => e
    case _ => ""
  }

  /** A freshly built manager with handlers for `mediums`. */
  function Fresh(mediums: set<Medium>): State {
    State(map m | m in mediums :: HandlerSpec.NEW, Mediums(UnknownMedium, map[]), Upgrades({}, map[], {}),
          Retries(map[], map[]), map[], map[], Io({}, 0, []))
  }

  /** One operation together with the rounds it took. */
  datatype Call = Call(op: Op, rounds: seq<Outcome>)

  function End(start: State, calls: seq<Call>): State {
    if calls == [] || calls[|calls| - 1].rounds == [] then start
    else
      var rounds := calls[|calls| - 1].rounds;
      rounds[|rounds| - 1].state
  }

  /** `calls` were made one after the other from `start`, and every one of them returned. */
  ghost predicate Execution(env: Env, start: State, calls: seq<Call>) {
    calls == [] || (
      var before, last := calls[..|calls| - 1], calls[|calls| - 1];
      && Execution(env, start, before)
      && Rounds(env, Subject(last.op), last.rounds)
      && last.rounds[0] == Begin(env, End(start, before), last.op))
  }

  /** Every operation of the execution is one that `allowed` admits in the state it meets. */
  ghost predicate Throughout(start: State, calls: seq<Call>, allowed: (State, Op) -> bool) {
    forall i :: 0 <= i < |calls| ==> allowed(End(start, calls[..i]), calls[i].op)
  }

  /** What holds after the first round and survives every re-initiation holds after the call. */
  lemma {:induction false} RoundsKeep(env: Env, e: EndpointId, os: seq<Outcome>, inv: State -> bool)
    requires Rounds(env, e, os)
    requires inv(os[0].state)
    requires forall s, m :: inv(s) ==> inv(InitiateOnce(env, s, e, m).state)
    ensures inv(os[|os| - 1].state)
    decreases |os|
  {
    if |os| > 1 {
      RoundsTail(env, e, os);
      RoundsKeep(env, e, os[1..], inv);
    }
  }

  /** Induction over executions. */
  lemma {:induction false} ExecutionKeeps(
      env: Env, start: State, calls: seq<Call>, inv: State -> bool, allowed: (State, Op) -> bool)
    requires Execution(env, start, calls) && Throughout(start, calls, allowed)
    requires inv(start)
    requires forall s, op :: inv(s) && allowed(s, op) ==> inv(Begin(env, s, op).state)
    requires forall s, e, m :: inv(s) ==> inv(InitiateOnce(env, s, e, m).state)
    ensures inv(End(start, calls))
  {
    if calls != [] {
      var before, last := calls[..|calls| - 1], calls[|calls| - 1];
      forall i | 0 <= i < |before|
        ensures allowed(End(start, before[..i]), before[i].op)
      {
        assert before[..i] == calls[..i];
      }
      ExecutionKeeps(env, start, before, inv, allowed);
      assert allowed(End(start, calls[..|before|]), calls[|before|].op);
      RoundsKeep(env, Subject(last.op), last.rounds, inv);
    }
  }

  // -- the states a run goes through ----------------------------------------

  lemma ExecutionParts(env: Env, start: State, calls: seq<Call>)
    requires Execution(env, start, calls) && calls != []
    ensures var before, last := calls[..|calls| - 1], calls[|calls| - 1];
      && Execution(env, start, before)
      && Rounds(env, Subject(last.op), last.rounds) && last.rounds[0] == Begin(env, End(start, before), last.op)
      && End(start, calls) == last.rounds[|last.rounds| - 1].state
  {
  }

  lemma {:induction false} PrefixExecutes(env: Env, start: State, calls: seq<Call>, i: nat)
    requires Execution(env, start, calls) && i <= |calls|
    ensures Execution(env, start, calls[..i])
    decreases |calls|
  {
    if i < |calls| {
      ExecutionParts(env, start, calls);
      PrefixExecutes(env, start, calls[..|calls| - 1], i);
      assert calls[..|calls| - 1][..i] == calls[..i];
    } else {
      assert calls[..i] == calls;
    }
  }

  /** `call`, made in `s`, ends in `t`. */
  ghost predicate Leads(env: Env, s: State, call: Call, t: State) {
    && Rounds(env, Subject(call.op), call.rounds)
    && call.rounds[0] == Begin(env, s, call.op)
    && t == call.rounds[|call.rounds| - 1].state
  }

  /** The states that the calls of an execution go through. */
  lemma StatesOf(env: Env, start: State, calls: seq<Call>) returns (states: seq<State>)
    requires Execution(env, start, calls)
    ensures |states| == |calls| + 1 && states[0] == start && states[|calls|] == End(start, calls)
    ensures forall i :: 0 <= i <= |calls| ==> states[i] == End(start, calls[..i])
    ensures forall i :: 0 <= i < |calls| ==> Leads(env, states[i], calls[i], states[i + 1])
  {
    states := seq(|calls| + 1, i requires 0 <= i <= |calls| => End(start, calls[..i]));
    assert calls[..|calls|] == calls && calls[..0] == [];
    forall i | 0 <= i < |calls|
      ensures Leads(env, states[i], calls[i], states[i + 1])
    {
      NextCall(env, start, calls, i);
    }
  }

  lemma NextCall(env: Env, start: State, calls: seq<Call>, i: nat)
    requires Execution(env, start, calls) && i < |calls|
    ensures Leads(env, End(start, calls[..i]), calls[i], End(start, calls[..i + 1]))
  {
    PrefixExecutes(env, start, calls, i + 1);
    ExecutionParts(env, start, calls[..i + 1]);
    assert calls[..i + 1][..i] == calls[..i];
  }

  /** The i-th call of an execution: it, and those before it, are as the whole execution is. */
  lemma CallAt(env: Env, start: State, calls: seq<Call>, allowed: (State, Op) -> bool, i: nat)
    requires Execution(env, start, calls) && Throughout(start, calls, allowed) && i < |calls|
    ensures Execution(env, start, calls[..i]) && Throughout(start, calls[..i], allowed)
    ensures allowed(End(start, calls[..i]), calls[i].op)
    ensures Leads(env, End(start, calls[..i]), calls[i], End(start, calls[..i + 1]))
  {
    PrefixExecutes(env, start, calls, i);
    NextCall(env, start, calls, i);
    PrefixThroughout(start, calls, allowed, i);
  }

  lemma PrefixThroughout(start: State, calls: seq<Call>, allowed: (State, Op) -> bool, i: nat)
    requires Throughout(start, calls, allowed) && i <= |calls|
    ensures Throughout(start, calls[..i], allowed)
  {
    forall j | 0 <= j < i
      ensures allowed(End(start, calls[..i][..j]), calls[..i][j].op)
    {
      assert calls[..i][..j] == calls[..j];
      assert allowed(End(start, calls[..j]), calls[j].op);
    }
  }
}
