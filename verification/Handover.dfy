/** How often an endpoint's handshake gets how far, and in what order it closes the displaced channel. */
module Handover {
  import opened Wrappers
  import opened ServiceIds
  import opened Protocol
  import opened BwuSpec
  import opened Frames

  /** Three milestones: a channel parked, a parked channel closed as upgraded, success reported. */
  datatype Milestone = Parking | Closing | Reporting

  predicate Reaches(event: Event, e: EndpointId, k: Milestone) {
    match k
    case Parking => event.Wrote? && event.endpoint == e && event.frame == LastWrite && event.ok
    case Closing => event.Closed? && event.endpoint == e && event.reason == Upgraded
    case Reporting => event.BandwidthChanged? && event.endpoint == e
  }

  function Tally(log: Log, e: EndpointId, k: Milestone): nat {
    if log == [] then 0
    else Tally(log[..|log| - 1], e, k) + if Reaches(log[|log| - 1], e, k) then 1 else 0
  }

  /** If an upgraded close comes at `i`, then before it, in order, encryption off, DISCONNECTION, drain read. */
  predicate OrderedAt(log: Log, i: nat)
    requires i < |log|
  {
    log[i].Closed? && log[i].reason == Upgraded ==>
      && i >= 3
      && log[i - 1] == DrainRead(log[i].endpoint, log[i].channel)
      && log[i - 2].Wrote? && log[i - 2].channel == log[i].channel && log[i - 2].frame == Disconnection
      && log[i - 3] == EncryptionOff(log[i].endpoint, log[i].channel)
  }

  ghost predicate ClosesInOrder(log: Log) {
    forall i {:trigger OrderedAt(log, i)} :: 0 <= i < |log| ==> OrderedAt(log, i)
  }

  ghost predicate InOrder(s: State, e: EndpointId) {
    && Tally(s.io.log, e, Reporting) <= Tally(s.io.log, e, Closing)
    && Tally(s.io.log, e, Closing) + (if e in s.up.parked then 1 else 0) <= Tally(s.io.log, e, Parking)
    && ClosesInOrder(s.io.log)
  }

  predicate Unremarkable(event: Event) {
    && !(event.Wrote? && event.frame == LastWrite)
    && !(event.Closed? && event.reason == Upgraded)
    && !event.BandwidthChanged?
  }

  lemma Snoc(log: Log, event: Event, e: EndpointId, k: Milestone)
    ensures Tally(log + [event], e, k) == Tally(log, e, k) + if Reaches(event, e, k) then 1 else 0
  {
    assert (log + [event])[..|log|] == log;
  }

  lemma {:induction false} TallyKept(log: Log, longer: Log, e: EndpointId, k: Milestone)
    requires |log| <= |longer| && longer[..|log|] == log
    requires forall i :: |log| <= i < |longer| ==> Unremarkable(longer[i])
    ensures Tally(longer, e, k) == Tally(log, e, k)
    decreases |longer|
  {
    if |longer| > |log| {
      assert longer[..|longer| - 1][..|log|] == log;
      TallyKept(log, longer[..|longer| - 1], e, k);
    } else {
      assert longer == log;
    }
  }

  /** Appending events other than upgraded closes keeps the order. */
  lemma OrderKept(log: Log, longer: Log)
    requires ClosesInOrder(log) && |log| <= |longer| && longer[..|log|] == log
    requires forall i :: |log| <= i < |longer| ==> !(longer[i].Closed? && longer[i].reason == Upgraded)
    ensures ClosesInOrder(longer)
  {
    forall i | 0 <= i < |longer|
      ensures OrderedAt(longer, i)
    {
      if i < |log| {
        assert OrderedAt(log, i);
        SamePrefix(log, longer, i);
      }
    }
  }

  lemma SamePrefix(log: Log, longer: Log, i: nat)
    requires i < |log| <= |longer| && longer[..|log|] == log
    ensures longer[i] == log[i] && (i >= 3 ==>
      longer[i - 1] == log[i - 1] && longer[i - 2] == log[i - 2] && longer[i - 3] == log[i - 3])
  {
    assert longer[..|log|][i] == longer[i];
    if i >= 3 {
      assert longer[..|log|][i - 1] == longer[i - 1];
      assert longer[..|log|][i - 2] == longer[i - 2];
      assert longer[..|log|][i - 3] == longer[i - 3];
    }
  }

  /** Steps that log nothing remarkable and park nothing. */
  lemma QuietStep(s: State, t: State, e: EndpointId)
    requires InOrder(s, e) && Extends(s, t, Unremarkable)
    requires e in t.up.parked ==> e in s.up.parked
    ensures InOrder(t, e)
  {
    TallyKept(s.io.log, t.io.log, e, Parking);
    TallyKept(s.io.log, t.io.log, e, Closing);
    TallyKept(s.io.log, t.io.log, e, Reporting);
    OrderKept(s.io.log, t.io.log);
  }

  lemma FailoverStep(s: State, t: State, f: EndpointId, e: EndpointId)
    requires InOrder(s, e) && (OnlyFailover(s, t, f) || OnlyHandlers(s, t))
    ensures InOrder(t, e)
  {
    QuietStep(s, t, e);
  }

  lemma RefusalStep(env: Env, s: State, f: EndpointId, info: PathInfo, e: EndpointId)
    requires InOrder(s, e)
    ensures InOrder(FailedProtocol(env, s, f, info), e)
  {
    FailedProtocolFrame(env, s, f, info);
    QuietStep(s, FailedProtocol(env, s, f, info), e);
  }

  lemma LastWriteStep(env: Env, s: State, f: EndpointId, e: EndpointId)
    requires InOrder(s, e)
    ensures InOrder(OnLastWrite(env, s, f), e)
  {
    QuietStep(s, OnLastWrite(env, s, f), e);
  }

  lemma RunProtocolStep(env: Env, s: State, f: EndpointId, c: Channel, e: EndpointId)
    requires InOrder(s, e)
    ensures InOrder(RunProtocol(env, s, f, c), e)
  {
    if f !in s.registry {
      QuietStep(s, RunProtocol(env, s, f, c), e);
    } else {
      var log1 := s.io.log + [Paused(c)];
      var log2 := log1 + [Registered(f, c)];
      var wrote := Wrote(f, s.registry[f], LastWrite, Next(env, log2));
      var s1 := s.(registry := s.registry[f := c], io := s.io.(paused := s.io.paused + {c}, log := log2 + [wrote]));
      forall k
        ensures Tally(s1.io.log, e, k) == Tally(s.io.log, e, k) + if Reaches(wrote, e, k) then 1 else 0
      {
        Snoc(s.io.log, Paused(c), e, k); Snoc(log1, Registered(f, c), e, k); Snoc(log2, wrote, e, k);
      }
      OrderKept(s.io.log, s1.io.log);
      if wrote.ok {
        ParkStep(env, s1, f, s.registry[f], e);
      }
    }
  }

  /** Parking comes right after the LAST_WRITE that pays for it. */
  lemma ParkStep(env: Env, s: State, f: EndpointId, prior: Channel, e: EndpointId)
    requires Tally(s.io.log, e, Reporting) <= Tally(s.io.log, e, Closing) && ClosesInOrder(s.io.log)
    requires Tally(s.io.log, e, Closing) + (if e in s.up.parked then 1 else 0) + (if e == f then 1 else 0)
          <= Tally(s.io.log, e, Parking) + (if e == f && e in s.up.parked then 1 else 0)
    ensures InOrder(Park(env, s, f, prior), e)
  {
    var log := if f in s.up.parked then s.io.log + [Released(f, s.up.parked[f])] else s.io.log;
    var s1 := s.(up := s.up.(parked := s.up.parked[f := prior], latched := s.up.latched - {f}), io := s.io.(log := log));
    TallyKept(s.io.log, log, e, Parking);
    TallyKept(s.io.log, log, e, Closing);
    TallyKept(s.io.log, log, e, Reporting);
    OrderKept(s.io.log, log);
    LastWriteStep(env, s1, f, e);
  }

  /** The log of a handshake's end: encryption off, DISCONNECTION, the drain read, the close. */
  lemma ClosedTallies(log: Log, f: EndpointId, prev: Channel, ok: bool, e: EndpointId)
    requires ClosesInOrder(log)
    ensures var closed := log + [EncryptionOff(f, prev)] + [Wrote(f, prev, Disconnection, ok)] + [DrainRead(f, prev)]
                              + [Closed(f, prev, Upgraded)];
      && ClosesInOrder(closed)
      && forall k :: Tally(closed, e, k) == Tally(log, e, k) + if k == Closing && e == f then 1 else 0
  {
    var drained := log + [EncryptionOff(f, prev)] + [Wrote(f, prev, Disconnection, ok)] + [DrainRead(f, prev)];
    DrainedTallies(log, f, prev, ok, e);
    CloseInOrder(drained, f, prev, ok);
    forall k
      ensures Tally(drained + [Closed(f, prev, Upgraded)], e, k) == Tally(drained, e, k) + if k == Closing && e == f then 1 else 0
    {
      Snoc(drained, Closed(f, prev, Upgraded), e, k);
    }
  }

  lemma DrainedTallies(log: Log, f: EndpointId, prev: Channel, ok: bool, e: EndpointId)
    requires ClosesInOrder(log)
    ensures var drained := log + [EncryptionOff(f, prev)] + [Wrote(f, prev, Disconnection, ok)] + [DrainRead(f, prev)];
      ClosesInOrder(drained) && forall k :: Tally(drained, e, k) == Tally(log, e, k)
  {
    var log1 := log + [EncryptionOff(f, prev)];
    var log2 := log1 + [Wrote(f, prev, Disconnection, ok)];
    OrderKept(log, log2 + [DrainRead(f, prev)]);
    forall k
      ensures Tally(log2 + [DrainRead(f, prev)], e, k) == Tally(log, e, k)
    {
      Snoc(log, EncryptionOff(f, prev), e, k); Snoc(log1, Wrote(f, prev, Disconnection, ok), e, k);
      Snoc(log2, DrainRead(f, prev), e, k);
    }
  }

  /** And success reported on channel `c`. */
  lemma ReportedTallies(log: Log, f: EndpointId, c: Channel, e: EndpointId)
    requires ClosesInOrder(log)
    ensures var reported := log + [Resumed(c)] + [BandwidthChanged(f, c.medium)];
      && ClosesInOrder(reported)
      && forall k :: Tally(reported, e, k) == Tally(log, e, k) + if k == Reporting && e == f then 1 else 0
  {
    OrderKept(log, log + [Resumed(c)] + [BandwidthChanged(f, c.medium)]);
    forall k
      ensures Tally(log + [Resumed(c)] + [BandwidthChanged(f, c.medium)], e, k)
           == Tally(log, e, k) + if k == Reporting && e == f then 1 else 0
    {
      Snoc(log, Resumed(c), e, k);
      Snoc(log + [Resumed(c)], BandwidthChanged(f, c.medium), e, k);
    }
  }

  lemma SafeToCloseStep(env: Env, s: State, f: EndpointId, e: EndpointId)
    requires InOrder(s, e)
    ensures InOrder(OnSafeToClose(env, s, f), e)
  {
    if f in s.up.parked {
      var t, prev := OnSafeToClose(env, s, f), s.up.parked[f];
      var ok := Next(env, s.io.log + [EncryptionOff(f, prev)]);
      var closed := s.io.log + [EncryptionOff(f, prev)] + [Wrote(f, prev, Disconnection, ok)] + [DrainRead(f, prev)]
                    + [Closed(f, prev, Upgraded)];
      ClosedTallies(s.io.log, f, prev, ok, e);
      EndedStep(s, t, f, e, closed);
    }
  }

  lemma EndedStep(s: State, t: State, f: EndpointId, e: EndpointId, closed: Log)
    requires InOrder(s, e) && f in s.up.parked && t.up.parked == s.up.parked - {f} && ClosesInOrder(closed)
    requires forall k :: Tally(closed, e, k) == Tally(s.io.log, e, k) + if k == Closing && e == f then 1 else 0
    requires t.io.log == if f in s.registry then closed + [Resumed(s.registry[f])] + [BandwidthChanged(f, s.registry[f].medium)]
                         else closed
    ensures InOrder(t, e)
  {
    if f in s.registry {
      ReportedTallies(closed, f, s.registry[f], e);
    }
    ClosedStep(s, t, f, e);
  }

  /** One more close, and at most one more report, for the endpoint that no longer has a parked channel. */
  lemma ClosedStep(s: State, t: State, f: EndpointId, e: EndpointId)
    requires InOrder(s, e) && f in s.up.parked && t.up.parked == s.up.parked - {f} && ClosesInOrder(t.io.log)
    requires Tally(t.io.log, e, Parking) == Tally(s.io.log, e, Parking)
    requires Tally(t.io.log, e, Closing) == Tally(s.io.log, e, Closing) + if e == f then 1 else 0
    requires Tally(t.io.log, e, Reporting) <= Tally(s.io.log, e, Reporting) + if e == f then 1 else 0
    ensures InOrder(t, e)
  {
  }

  lemma CloseInOrder(log: Log, e: EndpointId, c: Channel, ok: bool)
    requires ClosesInOrder(log) && |log| >= 3
    requires log[|log| - 3] == EncryptionOff(e, c) && log[|log| - 2] == Wrote(e, c, Disconnection, ok)
    requires log[|log| - 1] == DrainRead(e, c)
    ensures ClosesInOrder(log + [Closed(e, c, Upgraded)])
  {
    var longer := log + [Closed(e, c, Upgraded)];
    forall i | 0 <= i < |longer|
      ensures OrderedAt(longer, i)
    {
      if i < |log| {
        assert OrderedAt(log, i);
        SamePrefix(log, longer, i);
      }
    }
  }

  lemma AcceptStep(env: Env, s: State, f: EndpointId, info: PathInfo, e: EndpointId)
    requires InOrder(s, e)
    ensures InOrder(Accept(env, s, f, info), e)
  {
    RefusalStep(env, s, f, info, e);
    DialFrame(env, s, f, info);
    var (s1, made) := Dial(env, s, f, info);
    QuietStep(s, s1, e);
    RefusalStep(env, s1, f, info, e);
    if made.Some? {
      var s2 := Emit(Started(s1, f), Joined(f));
      QuietStep(s1, s2, e);
      RunProtocolStep(env, s2, f, made.value, e);
    }
  }

  lemma DuplicateStep(s: State, f: EndpointId, e: EndpointId)
    requires InOrder(s, e)
    ensures InOrder(DuplicateOffer(s, f), e)
  {
    DuplicateFrame(s, f);
    QuietStep(s, DuplicateOffer(s, f), e);
  }

  lemma PathAvailableStep(env: Env, s: State, f: EndpointId, info: PathInfo, e: EndpointId)
    requires InOrder(s, e)
    ensures InOrder(OnPathAvailable(env, s, f, info), e)
  {
    if Barred(s, info.medium) {
      RefusalStep(env, s, f, info, e);
    } else if !ClientOf(s, f).incoming {
      if f in s.up.inProgress {
        DuplicateStep(s, f, e);
      } else {
        AdoptedFrame(env, s, f, info.medium);
        AcceptStep(env, Adopted(env, s, f, info.medium), f, info, e);
      }
    }
  }

  lemma FrameStep(env: Env, s: State, f: EndpointId, frame: Received, e: EndpointId)
    requires InOrder(s, e)
    ensures InOrder(OnFrame(env, s, f, frame).state, e)
  {
    match frame
    case PathAvailable(Some(info)) => RefusalStep(env, s, f, info, e); PathAvailableStep(env, s, f, info, e);
    case UpgradeFailure(Some(info)) =>
      FailureFrame(env, s, f, info.medium);
      FailoverStep(s, FailureOnce(env, s, f, info.medium).state, f, e);
    case LastWriteToPriorChannel => LastWriteStep(env, s, f, e);
    case SafeToClosePriorChannel => SafeToCloseStep(env, s, f, e);
    case _ =>
  }

  lemma IncomingStep(env: Env, s: State, c: Channel, introduced: Option<EndpointId>, e: EndpointId)
    requires InOrder(s, e)
    ensures InOrder(OnIncoming(env, s, c, introduced), e)
  {
    var (s1, id) := Introduced(env, s, c, introduced);
    IntroducedFrame(env, s, c, introduced);
    QuietStep(s, s1, e);
    if id.Some? && Target(s1, id.value).Some? {
      var f := Target(s1, id.value).value;
      RunProtocolStep(env, CancelAlarm(s1, f), f, c, e);
    }
  }

  lemma DisconnectStep(env: Env, s: State, service: ServiceId, f: EndpointId, e: EndpointId)
    requires InOrder(s, e)
    ensures InOrder(OnDisconnect(env, s, service, f), e)
  {
    var s1 := Forget(env, s, f);
    QuietStep(s, s1, e);
    RevertFrame(env, s1, service, f);
    FailoverStep(s1, Revert(env, s1, service, f), f, e);
  }

  lemma ShutDownStep(env: Env, s: State, e: EndpointId)
    requires InOrder(s, e)
    ensures InOrder(DoShutDown(env, s), e)
  {
    var s0, ms := s.(retry := Retries(map[], map[])), env.handlerOrder(s.handlers.Keys);
    RevertHandlersFrame(env, s0, ms);
    FailoverStep(s0, RevertHandlers(env, s0, ms), e, e);
    QuietStep(RevertHandlers(env, s0, ms), DoShutDown(env, s), e);
  }

  lemma InitiateStep(env: Env, s: State, f: EndpointId, m: Medium, e: EndpointId)
    requires InOrder(s, e)
    ensures InOrder(InitiateOnce(env, s, f, m).state, e)
  {
    InitiateFrame(env, s, f, m);
    FailoverStep(s, InitiateOnce(env, s, f, m).state, f, e);
  }

  lemma AlarmStep(env: Env, s: State, f: EndpointId, e: EndpointId)
    requires InOrder(s, e)
    ensures InOrder(FireAlarm(env, s, f).state, e)
  {
    var s1 := CancelAlarm(s, f);
    NextBestFrame(env, s1, f, ClientOf(s, f).mediums);
    FailoverStep(s1, NextBestOnce(env, s1, f, ClientOf(s, f).mediums).state, f, e);
  }

  lemma BeginStep(env: Env, s: State, op: Op, e: EndpointId)
    requires InOrder(s, e)
    ensures InOrder(Begin(env, s, op).state, e)
  {
    match op
    case Initiate(f, m) => InitiateStep(env, s, f, m, e);
    case IncomingFrame(f, frame) => FrameStep(env, s, f, frame, e);
    case IncomingConnection(c, introduced) => IncomingStep(env, s, c, introduced, e);
    case EndpointDisconnect(service, f) => DisconnectStep(env, s, service, f, e);
    case AlarmFires(f) => AlarmStep(env, s, f, e);
    case Stop => ShutDownStep(env, s, e);
    case RegisterChannel(f, c) => QuietStep(s, Register(s, f, c), e);
    case UnregisterChannel(f) => QuietStep(s, Unregister(s, f), e);
    case _ =>
  }

  /**
   * In every execution, for every endpoint: success is reported at most as often as a displaced channel was
   * closed as upgraded, that happens at most as often as one was parked (and less often while one still is),
   * and each such close follows encryption off, DISCONNECTION and the drain read.
   */
  lemma HandoversInOrder(env: Env, mediums: set<Medium>, calls: seq<Call>, e: EndpointId)
    requires Execution(env, Fresh(mediums), calls)
    ensures InOrder(End(Fresh(mediums), calls), e)
  {
    var inv := (s: State) => InOrder(s, e);
    var any := (s: State, op: Op) => true;
    forall s, op | inv(s) && any(s, op)
      ensures inv(Begin(env, s, op).state)
    {
      BeginStep(env, s, op, e);
    }
    forall s, f, m | inv(s)
      ensures inv(InitiateOnce(env, s, f, m).state)
    {
      InitiateStep(env, s, f, m, e);
    }
    ExecutionKeeps(env, Fresh(mediums), calls, inv, any);
  }
}
