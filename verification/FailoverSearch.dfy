/** The failover decides what a walk along the mediums its failures lead to would decide, and cleans up after each miss. */
module FailoverSearch {
  import opened Wrappers
  import opened ServiceIds
  import opened Protocol
  import opened BwuSpec
  import opened HandlerSpec
  import opened Failover
  import Frames

  datatype Verdict = Upgrading(medium: Medium) | RetryLater | GivenUp

  datatype Walk = Walk(verdict: Verdict, tried: seq<Medium>)

  /** `candidates` in order; `channel` is the medium in use, `lan` whether any endpoint is on WIFI_LAN. */
  function Search(candidates: seq<Medium>, channel: Option<Medium>, lan: bool, works: Medium -> bool): Walk
    decreases |candidates|
  {
    if candidates == [] || channel == Some(candidates[0]) then
      Walk(if channel == Some(WifiLan) then GivenUp else RetryLater, [])
    else if channel.None? || (lan && candidates[0] == WifiHotspot) then
      Walk(GivenUp, [])
    else if works(candidates[0]) then
      Walk(Upgrading(candidates[0]), [candidates[0]])
    else
      var rest := Search(candidates[1..], channel, lan, works);
      Walk(rest.verdict, [candidates[0]] + rest.tried)
  }

  lemma {:induction false} SearchTriesInOrder(candidates: seq<Medium>, channel: Option<Medium>, lan: bool, works: Medium -> bool)
    ensures var w := Search(candidates, channel, lan, works);
      && w.tried <= candidates
      && (forall i :: 0 <= i < |w.tried| ==> (works(w.tried[i]) <==> w.verdict == Upgrading(w.tried[i]) && i == |w.tried| - 1))
      && (w.verdict.Upgrading? ==> w.tried != [] && w.verdict.medium == w.tried[|w.tried| - 1])
    decreases |candidates|
  {
    if !(candidates == [] || channel == Some(candidates[0]) || channel.None? || (lan && candidates[0] == WifiHotspot)
         || works(candidates[0]))
    {
      SearchTriesInOrder(candidates[1..], channel, lan, works);
    }
  }

  lemma {:induction false} SearchDependsOnCandidates(
      candidates: seq<Medium>, channel: Option<Medium>, lan: bool, works: Medium -> bool, works': Medium -> bool)
    requires forall m :: m in candidates ==> works(m) == works'(m)
    ensures Search(candidates, channel, lan, works) == Search(candidates, channel, lan, works')
    decreases |candidates|
  {
    if candidates != [] {
      SearchDependsOnCandidates(candidates[1..], channel, lan, works, works');
    }
  }

  // -- reading the log ------------------------------------------------------

  /** The mediums `e` had brought up, in order. */
  function Tried(log: Log, e: EndpointId): seq<Medium> {
    if log == [] then []
    else
      var last := log[|log| - 1];
      Tried(log[..|log| - 1], e) + if last.Initialize? && last.endpoint == e then [last.medium] else []
  }

  /** The offer of `m` went out to `e`. */
  ghost predicate Offered(log: Log, e: EndpointId, m: Medium) {
    exists i :: 0 <= i < |log| && log[i].Wrote? && log[i].endpoint == e && log[i].frame == Offer(m) && log[i].ok
  }

  /** The mediums whose offer went out. */
  ghost function Works(log: Log, e: EndpointId): Medium -> bool {
    m => Offered(log, e, m)
  }

  /** Neither an initialization, nor a successful offer, nor a scheduled retry. */
  ghost predicate Quiet(log: Log) {
    forall i :: 0 <= i < |log| ==> !log[i].Initialize? && !log[i].RetryScheduled? && !(log[i].Wrote? && log[i].ok)
  }

  ghost predicate NoRetry(log: Log) {
    forall i :: 0 <= i < |log| ==> !log[i].RetryScheduled?
  }

  lemma TriedSnoc(log: Log, event: Event, e: EndpointId)
    ensures Tried(log + [event], e) == Tried(log, e) + if event.Initialize? && event.endpoint == e then [event.medium] else []
  {
    assert (log + [event])[..|log|] == log;
  }

  lemma {:induction false} TriedConcat(a: Log, b: Log, e: EndpointId)
    ensures Tried(a + b, e) == Tried(a, e) + Tried(b, e)
  {
    if b == [] {
      assert a + b == a;
    } else {
      var before, last := b[..|b| - 1], b[|b| - 1];
      TriedConcat(a, before, e);
      TriedSnoc(a + before, last, e);
      assert a + before + [last] == a + b;
    }
  }

  lemma {:induction false} TriedQuiet(log: Log, e: EndpointId)
    requires forall i :: 0 <= i < |log| ==> !log[i].Initialize?
    ensures Tried(log, e) == []
  {
    if log != [] {
      TriedQuiet(log[..|log| - 1], e);
    }
  }

  lemma OfferedConcat(a: Log, b: Log, e: EndpointId, m: Medium)
    ensures Offered(a + b, e, m) <==> Offered(a, e, m) || Offered(b, e, m)
  {
    if Offered(a, e, m) {
      var i :| 0 <= i < |a| && a[i].Wrote? && a[i].endpoint == e && a[i].frame == Offer(m) && a[i].ok;
      assert (a + b)[i] == a[i];
    }
    if Offered(b, e, m) {
      var i :| 0 <= i < |b| && b[i].Wrote? && b[i].endpoint == e && b[i].frame == Offer(m) && b[i].ok;
      assert (a + b)[|a| + i] == b[i];
    }
  }

  // -- one attempt ----------------------------------------------------------

  /** `t` follows `s` with `log` appended. */
  predicate Appended(s: State, t: State, log: Log) {
    t.io.log == s.io.log + log
  }

  lemma BringUpLog(outcome: Outcomes, now: nat, m: Medium, h: Handler, service: ServiceId)
    ensures forall i :: 0 <= i < |BringUp(outcome, now, m, h, service).log| ==>
      var event := BringUp(outcome, now, m, h, service).log[i];
      event.ListenerStart? || event.SoftApStart? || event.SoftApStop?
  {
  }

  /** A handler asked to initialize logs that first and no offers. */
  lemma InitLog(outcome: Outcomes, now: nat, m: Medium, h: Handler, service: ServiceId, e: EndpointId)
    ensures var r := Init(outcome, now, m, h, service, e);
      && Tried(r.log, e) == [m] && NoRetry(r.log) && (forall i :: 0 <= i < |r.log| ==> !r.log[i].Wrote?)
      && (r.ok ==> Holds(r.handler, Wrap(service), e))
  {
    BringUpLog(outcome, now + 1, m, h, Wrap(service));
    var up := BringUp(outcome, now + 1, m, h, Wrap(service)).log;
    var first := [Initialize(m, Wrap(service), e)];
    TriedConcat(first, up, e);
    TriedQuiet(up, e);
    assert first[..0] == [];
    assert Tried(first, e) == [m];
  }

  /** What making an offer logs: one initialization, then the offer itself if it gets that far. */
  lemma OfferLog(env: Env, s: State, e: EndpointId, m: Medium) returns (log: Log)
    requires HasHandler(s, m) && e in s.registry
    ensures var (t, ok) := MakeOffer(env, s, e, m);
      && Appended(s, t, log) && NoRetry(log) && Tried(log, e) == [m]
      && (forall n :: Offered(log, e, n) <==> ok && n == m)
      && (ok ==> Holds(t.handlers[m], Wrap(s.registry[e].serviceId), e))
      && (forall n :: n in s.handlers && n != m ==> t.handlers[n] == s.handlers[n])
  {
    var up := Init(env.outcome, |s.io.log|, m, s.handlers[m], s.registry[e].serviceId, e);
    InitLog(env.outcome, |s.io.log|, m, s.handlers[m], s.registry[e].serviceId, e);
    if up.ok {
      var w := Wrote(e, s.registry[e], Offer(m), Next(env, s.io.log + up.log));
      log := up.log + [w];
      assert s.io.log + up.log + [w] == s.io.log + log;
      OfferEvent(up.log, w, e, m);
    } else {
      log := up.log;
    }
  }

  lemma OfferEvent(log: Log, w: Event, e: EndpointId, m: Medium)
    requires NoRetry(log) && forall i :: 0 <= i < |log| ==> !log[i].Wrote?
    requires w.Wrote? && w.endpoint == e && w.frame == Offer(m)
    ensures NoRetry(log + [w]) && Tried(log + [w], e) == Tried(log, e)
    ensures forall n :: Offered(log + [w], e, n) <==> w.ok && n == m
  {
    TriedConcat(log, [w], e);
    TriedQuiet([w], e);
    forall n
      ensures Offered(log + [w], e, n) <==> w.ok && n == m
    {
      OfferedConcat(log, [w], e, n);
      OfferedAlone(w, e, n);
    }
  }

  lemma OfferedAlone(w: Event, e: EndpointId, m: Medium)
    ensures Offered([w], e, m) <==> w.Wrote? && w.endpoint == e && w.frame == Offer(m) && w.ok
  {
    assert [w][0] == w;
  }

  lemma RevertEndpointLog(m: Medium, h: Handler, service: ServiceId, e: EndpointId)
    ensures var r := RevertEndpoint(m, h, service, e);
      && Quiet(r.log)
      && (forall v, f :: Holds(r.handler, v, f) ==> Holds(h, v, f))
      && (IsInitiator(service) ==> !Holds(r.handler, service, e))
  {
  }

  /** Reverting logs nothing but tear-downs. */
  lemma RevertLog(env: Env, s: State, service: ServiceId, e: EndpointId) returns (log: Log)
    ensures Appended(s, Revert(env, s, service, e), log) && Quiet(log)
  {
    var m := MediumFor(env, s, e);
    if !HasHandler(s, m) {
      log := [];
    } else if !env.config.multipleMediums {
      var order := env.order(s.handlers[m].active.Keys);
      log := RevertAll(m, s.handlers[m], order).log;
      Frames.TearDownAllQuiet(m, s.handlers[m], order);
    } else if IsInitiator(service) {
      log := RevertEndpoint(m, s.handlers[m], service, e).log;
      RevertEndpointLog(m, s.handlers[m], service, e);
    } else {
      log := if m == WifiHotspot || m == WifiDirect then TearDown(m, s.handlers[m], service).log else [];
    }
  }

  lemma UndoneLog(env: Env, s: State, e: EndpointId) returns (log: Log)
    ensures Appended(s, Undone(env, s, e), log) && Quiet(log)
  {
    var s1 := Stopped(s, e);
    var service := if e in s1.registry then s1.registry[e].serviceId else UNKNOWN_SERVICE_ID;
    if MediumFor(env, s1, e) != UnknownMedium {
      log := RevertLog(env, s1, Wrap(service), e);
    } else {
      log := [];
    }
  }

  lemma UndoneHoldings(env: Env, s: State, e: EndpointId)
    ensures Undone(env, s, e).handlers.Keys == s.handlers.Keys
    ensures forall n, v :: n in s.handlers && Holds(Undone(env, s, e).handlers[n], v, e) ==> Holds(s.handlers[n], v, e)
    ensures e in s.registry && HasHandler(s, MediumFor(env, s, e)) && s.registry[e].serviceId != "" ==>
              !Holds(Undone(env, s, e).handlers[MediumFor(env, s, e)], Wrap(s.registry[e].serviceId), e)
  {
    var m := MediumFor(env, s, e);
    var service := Wrap(if e in s.registry then s.registry[e].serviceId else UNKNOWN_SERVICE_ID);
    if HasHandler(s, m) && !env.config.multipleMediums {
      assert Undone(env, s, e).handlers[m].active == map[];
    } else if HasHandler(s, m) && IsInitiator(service) {
      RevertEndpointLog(m, s.handlers[m], service, e);
    }
  }

  /** A failed attempt: its traces in the log and in the handlers. */
  lemma MissedAttempt(env: Env, s: State, e: EndpointId, m: Medium, t: State) returns (log: Log)
    requires CanSwitch(env, s) && Viable(s, e, m)
    requires !MakeOffer(env, Readied(env, s, e, m), e, m).1
    requires t == Undone(env, MakeOffer(env, Readied(env, s, e, m), e, m).0, e)
    ensures InitiateOnce(env, s, e, m) == NextBestOnce(env, t, e, After(ClientOf(s, e).mediums, OnWire(m)))
    ensures SameStage(s, t) && MediumFor(env, t, e) == UnknownMedium && e !in t.up.inProgress && e !in t.retry.alarms
    ensures Appended(s, t, log) && NoRetry(log) && Tried(log, e) == [m] && (forall n :: !Offered(log, e, n))
    ensures s.registry[e].serviceId != "" ==> !Holds(t.handlers[m], Wrap(s.registry[e].serviceId), e)
    ensures forall n, v :: n in s.handlers && n != m && Holds(t.handlers[n], v, e) ==> Holds(s.handlers[n], v, e)
  {
    MissedStage(env, s, e, m);
    MissedHoldings(env, s, e, m, MakeOffer(env, Readied(env, s, e, m), e, m).0, t);
    log := MissedLog(env, Readied(env, s, e, m), e, m);
    assert Readied(env, s, e, m).io == s.io;
  }

  lemma MissedLog(env: Env, s: State, e: EndpointId, m: Medium) returns (log: Log)
    requires HasHandler(s, m) && e in s.registry && !MakeOffer(env, s, e, m).1
    ensures Appended(s, Undone(env, MakeOffer(env, s, e, m).0, e), log)
    ensures NoRetry(log) && Tried(log, e) == [m] && (forall n :: !Offered(log, e, n))
  {
    var offer := OfferLog(env, s, e, m);
    var undo := UndoneLog(env, MakeOffer(env, s, e, m).0, e);
    log := offer + undo;
    Associate(s.io.log, offer, undo);
    QuietAfter(offer, undo, e);
  }

  lemma QuietAfter(log: Log, quiet: Log, e: EndpointId)
    requires Quiet(quiet) && NoRetry(log)
    ensures NoRetry(log + quiet) && Tried(log + quiet, e) == Tried(log, e)
    ensures forall n :: Offered(log + quiet, e, n) <==> Offered(log, e, n)
  {
    TriedConcat(log, quiet, e);
    TriedQuiet(quiet, e);
    forall n
      ensures Offered(log + quiet, e, n) <==> Offered(log, e, n)
    {
      OfferedConcat(log, quiet, e, n);
    }
  }

  lemma MissedHoldings(env: Env, s: State, e: EndpointId, m: Medium, s1: State, t: State)
    requires CanSwitch(env, s) && Viable(s, e, m)
    requires s1 == MakeOffer(env, Readied(env, s, e, m), e, m).0 && t == Undone(env, s1, e)
    ensures t.handlers.Keys == s.handlers.Keys
    ensures s.registry[e].serviceId != "" ==> !Holds(t.handlers[m], Wrap(s.registry[e].serviceId), e)
    ensures forall n, v :: n in s.handlers && n != m && Holds(t.handlers[n], v, e) ==> Holds(s.handlers[n], v, e)
  {
    OfferStage(env, Readied(env, s, e, m), e, m);
    UndoneHoldings(env, s1, e);
    var offer := OfferLog(env, Readied(env, s, e, m), e, m);
  }

  lemma MissedStage(env: Env, s: State, e: EndpointId, m: Medium)
    requires CanSwitch(env, s) && Viable(s, e, m)
    requires !MakeOffer(env, Readied(env, s, e, m), e, m).1
    ensures var t := Undone(env, MakeOffer(env, Readied(env, s, e, m), e, m).0, e);
      && InitiateOnce(env, s, e, m) == NextBestOnce(env, t, e, After(ClientOf(s, e).mediums, OnWire(m)))
      && SameStage(s, t) && MediumFor(env, t, e) == UnknownMedium && e !in t.up.inProgress && e !in t.retry.alarms
  {
    var s1 := Readied(env, s, e, m);
    var s2 := MakeOffer(env, s1, e, m).0;
    OfferStage(env, s1, e, m);
    FailureIsNextBest(env, s2, e, OnWire(m));
    RevertKeepsAlarms(env, s2, e);
  }

  lemma RevertKeepsAlarms(env: Env, s: State, e: EndpointId)
    ensures Undone(env, s, e).retry == s.retry
  {
  }

  // -- the whole failover ---------------------------------------------------

  /** How the verdict shows in the state `t` and in what was logged on the way there. */
  ghost predicate Settled(env: Env, t: State, e: EndpointId, log: Log, v: Verdict) {
    match v
    case Upgrading(m) =>
      && e in t.up.inProgress && MediumFor(env, t, e) == m && e !in t.retry.alarms
      && m in t.handlers && e in t.registry && Holds(t.handlers[m], Wrap(t.registry[e].serviceId), e)
    case RetryLater =>
      && e !in t.up.inProgress && e in t.retry.alarms
      && log != [] && log[|log| - 1] == RetryScheduled(e, t.retry.alarms[e])
    case GivenUp => e !in t.up.inProgress && NoRetry(log)
  }

  /** Every medium tried in vain has been let go of; mediums outside `candidates` are not picked up. */
  ghost predicate CleanedUp(s: State, t: State, e: EndpointId, w: Walk, candidates: seq<Medium>) {
    && s.handlers.Keys == t.handlers.Keys
    && (e in s.registry && s.registry[e].serviceId != "" ==>
          forall m :: m in w.tried && m in t.handlers && w.verdict != Upgrading(m) ==>
            !Holds(t.handlers[m], Wrap(s.registry[e].serviceId), e))
    && (forall m, v :: m in t.handlers && m !in candidates && Holds(t.handlers[m], v, e) ==> Holds(s.handlers[m], v, e))
  }

  function ChannelOf(s: State, e: EndpointId): Option<Medium> {
    if e in s.registry then Some(s.registry[e].medium) else None
  }

  /** Between `s` and `t`, `log` was logged: the tries of the walk `w`, and its one successful offer, if any. */
  ghost predicate Walked(s: State, t: State, e: EndpointId, log: Log, w: Walk) {
    && Appended(s, t, log)
    && Tried(log, e) == w.tried
    && (forall m :: Offered(log, e, m) <==> w.verdict == Upgrading(m))
  }

  // -- the way failures lead ------------------------------------------------

  /**
   * The mediums attempted one after the other, from the first usable one of `untried` on, as long as each fails: up
   * to one that cannot be attempted, if there is one, or one of `seen`.
   */
  function Way(s: State, e: EndpointId, untried: seq<Medium>, seen: set<Medium>): seq<Medium>
    decreases Others(seen), 0
  {
    var next := Available(s, untried);
    if next == [] then []
    else if next[0] in seen || !Attemptable(s, e, next[0]) then [next[0]]
    else
      assert next[0] in Others(seen) && next[0] !in Others(seen + {next[0]});
      From(s, e, next[0], seen)
  }

  /** The medium to be attempted, and the way if that fails. */
  function From(s: State, e: EndpointId, m: Medium, seen: set<Medium>): seq<Medium>
    decreases Others(seen + {m}), 1
  {
    [m] + Way(s, e, After(ClientOf(s, e).mediums, OnWire(m)), seen + {m})
  }

  /** The way from `untried` on does not come back. */
  predicate GoesAhead(s: State, e: EndpointId, untried: seq<Medium>, seen: set<Medium>) {
    var next := Available(s, untried);
    next != [] && Attemptable(s, e, next[0]) ==> !ComesBack(s, e, next[0], seen)
  }

  lemma {:induction false} SameWays(s: State, t: State, e: EndpointId, untried: seq<Medium>, seen: set<Medium>)
    requires SameStage(s, t)
    ensures Way(s, e, untried, seen) == Way(t, e, untried, seen)
    decreases Others(seen)
  {
    AvailableSame(s, t, untried);
    var next := Available(s, untried);
    if next != [] && next[0] !in seen && Attemptable(s, e, next[0]) {
      assert next[0] in Others(seen) && next[0] !in Others(seen + {next[0]});
      SameWays(s, t, e, After(ClientOf(s, e).mediums, OnWire(next[0])), seen + {next[0]});
    }
  }

  lemma {:induction false} SameReturn(s: State, t: State, e: EndpointId, m: Medium, seen: set<Medium>)
    requires SameStage(s, t)
    ensures ComesBack(s, e, m, seen) == ComesBack(t, e, m, seen)
    decreases Others(seen)
  {
    SameWay(s, t, e, m);
    if m !in seen && LeadsOn(s, e, m) {
      SameWay(s, t, e, Behind(s, e, m)[0]);
      assert m in Others(seen) && m !in Others(seen + {m});
      SameReturn(s, t, e, Behind(s, e, m)[0], seen + {m});
    }
  }

  lemma SameAhead(s: State, t: State, e: EndpointId, untried: seq<Medium>, seen: set<Medium>)
    requires SameStage(s, t)
    ensures GoesAhead(s, e, untried, seen) == GoesAhead(t, e, untried, seen)
  {
    AvailableSame(s, t, untried);
    if Available(s, untried) != [] {
      SameWay(s, t, e, Available(s, untried)[0]);
      SameReturn(s, t, e, Available(s, untried)[0], seen);
    }
  }

  /** A way that does not come back does not meet what was attempted before. */
  lemma {:induction false} WayAvoids(s: State, e: EndpointId, untried: seq<Medium>, seen: set<Medium>, x: Medium)
    requires x in seen && Attemptable(s, e, x) && GoesAhead(s, e, untried, seen)
    ensures x !in Way(s, e, untried, seen)
    decreases Others(seen)
  {
    var next := Available(s, untried);
    if next != [] && next[0] !in seen && Attemptable(s, e, next[0]) {
      assert next[0] in Others(seen) && next[0] !in Others(seen + {next[0]});
      WayAvoids(s, e, After(ClientOf(s, e).mediums, OnWire(next[0])), seen + {next[0]}, x);
    }
  }

  lemma ListedAhead(s: State, e: EndpointId, last: Medium)
    requires NoReturn(s, e)
    ensures GoesAhead(s, e, After(ClientOf(s, e).mediums, last), {})
  {
    if Available(s, After(ClientOf(s, e).mediums, last)) != [] {
      AvailableListed(s, ClientOf(s, e).mediums, last);
    }
  }

  lemma WholeListAhead(s: State, e: EndpointId)
    requires NoReturn(s, e)
    ensures GoesAhead(s, e, ClientOf(s, e).mediums, {})
  {
    if Available(s, ClientOf(s, e).mediums) != [] {
      var p := FirstAvailable(s, ClientOf(s, e).mediums);
    }
  }

  /** If no listed medium comes back, no medium does. */
  lemma NothingComesBack(s: State, e: EndpointId, m: Medium)
    requires NoReturn(s, e) && Attemptable(s, e, m)
    ensures !ComesBack(s, e, m, {})
  {
    var ms := ClientOf(s, e).mediums;
    if m !in ms && LeadsOn(s, e, m) {
      AvailableListed(s, ms, OnWire(m));
      UnlistedNotMet(s, e, Behind(s, e, m)[0], {}, m);
    }
  }

  lemma {:induction false} UnlistedNotMet(s: State, e: EndpointId, n: Medium, seen: set<Medium>, m: Medium)
    requires n in ClientOf(s, e).mediums && m !in ClientOf(s, e).mediums && !ComesBack(s, e, n, seen)
    ensures !ComesBack(s, e, n, seen + {m})
    decreases Others(seen)
  {
    if LeadsOn(s, e, n) {
      AvailableListed(s, ClientOf(s, e).mediums, OnWire(n));
      assert n in Others(seen) && n !in Others(seen + {n});
      UnlistedNotMet(s, e, Behind(s, e, n)[0], seen + {n}, m);
      assert seen + {n} + {m} == seen + {m} + {n};
    }
  }

  // -- round by round -------------------------------------------------------

  /** `candidates` begin with what `ChooseBest` picks, and are none if it picks nothing. */
  predicate Leading(env: Env, s: State, e: EndpointId, untried: seq<Medium>, candidates: seq<Medium>) {
    var best := ChooseBest(env, s, e, untried);
    && (candidates == [] <==> best == UnknownMedium)
    && (candidates != [] ==> candidates[0] == best && HasHandler(s, best) && untried != [])
  }

  /** The walk when the next round does not even start an attempt. */
  lemma BlockedRound(env: Env, s: State, e: EndpointId, untried: seq<Medium>, candidates: seq<Medium>,
                     works: Medium -> bool, t: State)
    requires Leading(env, s, e, untried, candidates) && e !in s.up.inProgress
    requires NextBestOnce(env, s, e, untried).Again?
    requires var o := NextBestOnce(env, s, e, untried);
      !Viable(o.state, e, o.medium) && InitiateOnce(env, o.state, e, o.medium) == Done(t)
    ensures var w := Search(candidates, ChannelOf(s, e), WifiLanConnected(s), works);
      Walked(s, t, e, [], w) && Settled(env, t, e, [], w.verdict) && CleanedUp(s, t, e, w, candidates)
  {
    var o := NextBestOnce(env, s, e, untried);
    assert s.io.log + [] == s.io.log;
    assert HasHandler(s, o.medium) && o.medium == candidates[0];
    Frames.PreliminariesFrame(env, o.state, e, o.medium);
  }

  /** The walk when the next best medium is not to be attempted at all. */
  lemma LastRound(env: Env, s: State, e: EndpointId, untried: seq<Medium>, candidates: seq<Medium>, t: State)
      returns (log: Log, w: Walk)
    requires Leading(env, s, e, untried, candidates) && e !in s.up.inProgress
    requires NextBestOnce(env, s, e, untried) == Done(t)
    ensures Walked(s, t, e, log, w) && Settled(env, t, e, log, w.verdict) && CleanedUp(s, t, e, w, candidates)
    ensures w == Search(candidates, ChannelOf(s, e), WifiLanConnected(s), Works(log, e))
  {
    if t == s {
      log := [];
      assert s.io.log + [] == s.io.log;
    } else {
      log := [RetryScheduled(e, NextDelay(env, s, e))];
      TriedQuiet(log, e);
    }
    w := Search(candidates, ChannelOf(s, e), WifiLanConnected(s), Works(log, e));
  }

  /** An attempt on `m` and the failover it may set off end as the walk over `m` and the way from there does. */
  lemma {:induction false} AttemptIsSearch(env: Env, s: State, e: EndpointId, m: Medium, seen: set<Medium>, os: seq<Outcome>)
      returns (log: Log, w: Walk)
    requires CanSwitch(env, s) && Viable(s, e, m) && !ComesBack(s, e, m, seen)
    requires Rounds(env, e, os) && os[0] == InitiateOnce(env, s, e, m)
    ensures Walked(s, os[|os| - 1].state, e, log, w)
    ensures Settled(env, os[|os| - 1].state, e, log, w.verdict)
    ensures CleanedUp(s, os[|os| - 1].state, e, w, From(s, e, m, seen))
    ensures w == Search(From(s, e, m, seen), ChannelOf(s, e), WifiLanConnected(s), Works(log, e))
    decreases |os|, 1
  {
    var tail := After(ClientOf(s, e).mediums, OnWire(m));
    var rest := Way(s, e, tail, seen + {m});
    if MakeOffer(env, Readied(env, s, e, m), e, m).1 {
      log, w := SuccessfulAttempt(env, s, e, m, os[0], rest);
    } else {
      var u := Undone(env, MakeOffer(env, Readied(env, s, e, m), e, m).0, e);
      var missed := MissedAttempt(env, s, e, m, u);
      SameAhead(s, u, e, tail, seen + {m});
      var log', w' := FailoverIsSearch(env, u, e, tail, seen + {m}, os);
      WayAvoids(s, e, tail, seen + {m}, m);
      SameWays(s, u, e, tail, seen + {m});
      log, w := MissThenRest(env, s, u, os[|os| - 1].state, e, m, rest, missed, log', w');
    }
  }

  /** A miss on `m` and the walk over the rest of the way make up the walk from `m` on. */
  lemma MissThenRest(env: Env, s: State, u: State, t: State, e: EndpointId, m: Medium, rest: seq<Medium>,
                     missed: Log, after: Log, v: Walk) returns (log: Log, w: Walk)
    requires Attemptable(s, e, m) && SameStage(s, u) && m !in rest
    requires Appended(s, u, missed) && NoRetry(missed) && Tried(missed, e) == [m] && (forall n :: !Offered(missed, e, n))
    requires s.registry[e].serviceId != "" ==> !Holds(u.handlers[m], Wrap(s.registry[e].serviceId), e)
    requires forall n, v :: n in s.handlers && n != m && Holds(u.handlers[n], v, e) ==> Holds(s.handlers[n], v, e)
    requires Walked(u, t, e, after, v) && Settled(env, t, e, after, v.verdict) && CleanedUp(u, t, e, v, rest)
    requires v == Search(rest, ChannelOf(s, e), WifiLanConnected(s), Works(after, e))
    ensures Walked(s, t, e, log, w) && Settled(env, t, e, log, w.verdict) && CleanedUp(s, t, e, w, [m] + rest)
    ensures w == Search([m] + rest, ChannelOf(s, e), WifiLanConnected(s), Works(log, e))
  {
    var from := [m] + rest;
    assert from[0] == m && from[1..] == rest;
    log, w := missed + after, Walk(v.verdict, [m] + v.tried);
    MissThenSearch(missed, after, e, from, ChannelOf(s, e), WifiLanConnected(s), v);
    MissThenWalk(s, u, t, e, m, missed, after, v);
    SettledAfterMiss(env, t, e, missed, after, v.verdict);
    CleanedAfterMiss(s, u, t, e, v, from);
  }

  lemma SuccessfulAttempt(env: Env, s: State, e: EndpointId, m: Medium, o: Outcome, rest: seq<Medium>) returns (log: Log, w: Walk)
    requires Viable(s, e, m) && o == InitiateOnce(env, s, e, m) && MakeOffer(env, Readied(env, s, e, m), e, m).1
    ensures o.Done? && Walked(s, o.state, e, log, w) && Settled(env, o.state, e, log, w.verdict)
    ensures CleanedUp(s, o.state, e, w, [m] + rest)
    ensures w == Search([m] + rest, ChannelOf(s, e), WifiLanConnected(s), Works(log, e))
  {
    var s1 := Readied(env, s, e, m);
    Frames.PreliminariesFrame(env, s, e, m);
    OfferStage(env, s1, e, m);
    log := OfferLog(env, s1, e, m);
    w := Walk(Upgrading(m), [m]);
    OfferedWalk(env, s, s1, MakeOffer(env, s1, e, m).0, e, m, log, rest);
  }

  lemma OfferedWalk(env: Env, s: State, s1: State, t: State, e: EndpointId, m: Medium, log: Log, rest: seq<Medium>)
    requires Attemptable(s, e, m) && SameStage(s, t) && s1.io == s.io && s1.handlers == s.handlers
    requires MediumFor(env, t, e) == m && e !in t.retry.alarms
    requires Appended(s1, t, log) && Tried(log, e) == [m] && (forall n :: Offered(log, e, n) <==> n == m)
    requires Holds(t.handlers[m], Wrap(s.registry[e].serviceId), e)
    requires forall n :: n in s.handlers && n != m ==> t.handlers[n] == s.handlers[n]
    ensures var w, u := Walk(Upgrading(m), [m]), Started(t, e);
      && Walked(s, u, e, log, w) && Settled(env, u, e, log, w.verdict) && CleanedUp(s, u, e, w, [m] + rest)
      && w == Search([m] + rest, ChannelOf(s, e), WifiLanConnected(s), Works(log, e))
  {
  }

  /**
   * The failover that starts by asking for the next best of `untried` ends as the walk along the way from there
   * does, where a medium works if in this run its offer went out. It has those mediums brought up that the walk
   * tries, in that order, and lets go of all that did not work.
   */
  lemma {:induction false} FailoverIsSearch(
      env: Env, s: State, e: EndpointId, untried: seq<Medium>, seen: set<Medium>, os: seq<Outcome>) returns (log: Log, w: Walk)
    requires CanSwitch(env, s) && MediumFor(env, s, e) == UnknownMedium && e !in s.up.inProgress
    requires GoesAhead(s, e, untried, seen)
    requires Rounds(env, e, os) && os[0] == NextBestOnce(env, s, e, untried)
    ensures Walked(s, os[|os| - 1].state, e, log, w)
    ensures Settled(env, os[|os| - 1].state, e, log, w.verdict)
    ensures CleanedUp(s, os[|os| - 1].state, e, w, Way(s, e, untried, seen))
    ensures w == Search(Way(s, e, untried, seen), ChannelOf(s, e), WifiLanConnected(s), Works(log, e))
    decreases |os|, 0
  {
    var candidates := Way(s, e, untried, seen);
    UntriedLeads(env, s, e, untried, seen);
    if os[0].Done? {
      log, w := LastRound(env, s, e, untried, candidates, os[0].state);
    } else {
      var s1, x := os[0].state, os[0].medium;
      NextBestStep(env, s, e, untried, os[0]);
      RoundsTail(env, e, os);
      if !Viable(s1, e, x) {
        log := [];
        w := Search(candidates, ChannelOf(s, e), WifiLanConnected(s), Works(log, e));
        BlockedRound(env, s, e, untried, candidates, Works(log, e), os[1..][0].state);
      } else {
        ChosenAhead(s, s1, e, untried, seen, x);
        log, w := AttemptIsSearch(env, s1, e, x, seen, os[1..]);
        SetMediumWalk(env, s, e, x, s1, os[|os| - 1].state, log, w, candidates);
      }
    }
  }

  /** The first usable medium of `untried` is where the way goes. */
  lemma ChosenAhead(s: State, s1: State, e: EndpointId, untried: seq<Medium>, seen: set<Medium>, x: Medium)
    requires SameStage(s, s1) && GoesAhead(s, e, untried, seen)
    requires Available(s, untried) != [] && x == Available(s, untried)[0] && Attemptable(s1, e, x)
    ensures !ComesBack(s1, e, x, seen) && From(s1, e, x, seen) == Way(s, e, untried, seen)
  {
    SameWay(s, s1, e, x);
    SameReturn(s, s1, e, x, seen);
    SameWays(s, s1, e, After(ClientOf(s, e).mediums, OnWire(x)), seen + {x});
  }

  lemma UntriedLeads(env: Env, s: State, e: EndpointId, untried: seq<Medium>, seen: set<Medium>)
    requires MediumFor(env, s, e) == UnknownMedium
    ensures Leading(env, s, e, untried, Way(s, e, untried, seen))
  {
    if Available(s, untried) != [] {
      var p := FirstAvailable(s, untried);
    }
  }

  /** Recording the medium first changes nothing about the walk. */
  lemma SetMediumWalk(env: Env, s: State, e: EndpointId, m: Medium, s1: State, t: State, log: Log, w: Walk,
                      candidates: seq<Medium>)
    requires s1 == SetMedium(env, s, e, m)
    requires Walked(s1, t, e, log, w) && CleanedUp(s1, t, e, w, candidates)
    ensures Walked(s, t, e, log, w) && CleanedUp(s, t, e, w, candidates)
  {
  }

  /** One miss at the head of the walk. */
  lemma SearchAfterMiss(candidates: seq<Medium>, channel: Option<Medium>, lan: bool, works: Medium -> bool, w: Walk)
    requires candidates != [] && channel.Some? && channel != Some(candidates[0]) && !(lan && candidates[0] == WifiHotspot)
    requires var rest := candidates[1..];
      candidates[0] !in rest && w == Search(rest, channel, lan, works)
      && forall m :: works(m) <==> w.verdict == Upgrading(m)
    ensures Search(candidates, channel, lan, works) == Walk(w.verdict, [candidates[0]] + w.tried)
  {
    SearchTriesInOrder(candidates[1..], channel, lan, works);
  }

  lemma CleanedAfterMiss(s: State, u: State, t: State, e: EndpointId, w: Walk, candidates: seq<Medium>)
    requires candidates != [] && SameStage(s, u)
    requires var x := candidates[0];
      && e in s.registry && x in u.handlers && w.verdict != Upgrading(x)
      && (s.registry[e].serviceId != "" ==> !Holds(u.handlers[x], Wrap(s.registry[e].serviceId), e))
      && (forall n, v :: n in s.handlers && n != x && Holds(u.handlers[n], v, e) ==> Holds(s.handlers[n], v, e))
    requires var rest := candidates[1..];
      candidates[0] !in rest && CleanedUp(u, t, e, w, rest)
    ensures CleanedUp(s, t, e, Walk(w.verdict, [candidates[0]] + w.tried), candidates)
  {
  }

  /** A miss, then a walk down the remaining candidates, make up a walk down all of them. */
  lemma MissThenWalk(s: State, u: State, t: State, e: EndpointId, x: Medium, missed: Log, log: Log, w: Walk)
    requires Appended(s, u, missed) && Tried(missed, e) == [x] && forall n :: !Offered(missed, e, n)
    requires Walked(u, t, e, log, w)
    ensures Walked(s, t, e, missed + log, Walk(w.verdict, [x] + w.tried))
  {
    assert s.io.log + missed + log == s.io.log + (missed + log);
    TriedConcat(missed, log, e);
    OfferedAfterMiss(missed, log, e);
  }

  lemma SettledAfterMiss(env: Env, t: State, e: EndpointId, missed: Log, log: Log, v: Verdict)
    requires NoRetry(missed) && Settled(env, t, e, log, v)
    ensures Settled(env, t, e, missed + log, v)
  {
  }

  /** And what counts as working does not change by looking further back in the log. */
  lemma MissThenSearch(missed: Log, log: Log, e: EndpointId, candidates: seq<Medium>, channel: Option<Medium>, lan: bool, w: Walk)
    requires forall n :: !Offered(missed, e, n)
    requires forall m :: Offered(log, e, m) <==> w.verdict == Upgrading(m)
    requires candidates != [] && channel.Some? && channel != Some(candidates[0]) && !(lan && candidates[0] == WifiHotspot)
    requires var rest := candidates[1..];
      candidates[0] !in rest && w == Search(rest, channel, lan, Works(log, e))
    ensures Search(candidates, channel, lan, Works(missed + log, e))
         == Walk(w.verdict, [candidates[0]] + w.tried)
    ensures w.verdict != Upgrading(candidates[0])
  {
    var rest := candidates[1..];
    SearchTriesInOrder(rest, channel, lan, Works(log, e));
    OfferedAfterMiss(missed, log, e);
    SearchDependsOnCandidates(rest, channel, lan, Works(log, e), Works(missed + log, e));
    SearchAfterMiss(candidates, channel, lan, Works(missed + log, e), w);
  }

  lemma OfferedAfterMiss(missed: Log, log: Log, e: EndpointId)
    requires forall n :: !Offered(missed, e, n)
    ensures forall m :: Offered(missed + log, e, m) <==> Offered(log, e, m)
  {
    forall m
      ensures Offered(missed + log, e, m) <==> Offered(log, e, m)
    {
      OfferedConcat(missed, log, e, m);
    }
  }

  // -- the three ways in ----------------------------------------------------

  /** A reported failure of `last`: revert, then walk along the way from what follows `last` in the preference list. */
  lemma FailureIsSearch(env: Env, s: State, e: EndpointId, last: Medium, os: seq<Outcome>) returns (log: Log, w: Walk)
    requires CanSwitch(env, s) && NoReturn(s, e)
    requires Rounds(env, e, os) && os[0] == FailureOnce(env, s, e, last)
    ensures var u, t, way := Undone(env, s, e), os[|os| - 1].state, Way(s, e, After(ClientOf(s, e).mediums, last), {});
      && Walked(u, t, e, log, w) && Settled(env, t, e, log, w.verdict) && CleanedUp(u, t, e, w, way)
      && w == Search(way, ChannelOf(s, e), WifiLanConnected(s), Works(log, e))
  {
    var u, tail := Undone(env, s, e), After(ClientOf(s, e).mediums, last);
    FailureIsNextBest(env, s, e, last);
    ListedAhead(s, e, last);
    SameAhead(s, u, e, tail, {});
    log, w := FailoverIsSearch(env, u, e, tail, {}, os);
    SameWays(s, u, e, tail, {});
    SameSurroundings(s, u, e);
  }

  /** An initiation that nothing stands in the way of. */
  lemma InitiationIsSearch(env: Env, s: State, e: EndpointId, m: Medium, os: seq<Outcome>) returns (log: Log, w: Walk)
    requires CanSwitch(env, s) && NoReturn(s, e) && Viable(s, e, m)
    requires Rounds(env, e, os) && os[0] == InitiateOnce(env, s, e, m)
    ensures var t, way := os[|os| - 1].state, From(s, e, m, {});
      && Walked(s, t, e, log, w) && Settled(env, t, e, log, w.verdict) && CleanedUp(s, t, e, w, way)
      && w == Search(way, ChannelOf(s, e), WifiLanConnected(s), Works(log, e))
  {
    NothingComesBack(s, e, m);
    log, w := AttemptIsSearch(env, s, e, m, {}, os);
  }

  /** What a due retry goes for: the medium on record first, if there is one, and nothing if that is not listed. */
  function Retried(env: Env, s: State, e: EndpointId): seq<Medium> {
    var ms, current := ClientOf(s, e).mediums, MediumFor(env, s, e);
    if current == UnknownMedium then Way(s, e, ms, {})
    else if current in Available(s, ms) then From(s, e, current, {})
    else []
  }

  /** A retry that comes due while the endpoint is connected and no upgrade is in progress. */
  lemma AlarmIsSearch(env: Env, s: State, e: EndpointId, os: seq<Outcome>) returns (log: Log, w: Walk)
    requires CanSwitch(env, s) && e in s.retry.alarms && ClientOf(s, e).connected && e !in s.up.inProgress
    requires NoReturn(s, e) && Rounds(env, e, os) && os[0] == FireAlarm(env, s, e)
    ensures var t, way := os[|os| - 1].state, Retried(env, s, e);
      && Walked(s, t, e, log, w) && Settled(env, t, e, log, w.verdict) && CleanedUp(s, t, e, w, way)
      && w == Search(way, ChannelOf(s, e), WifiLanConnected(s), Works(log, e))
  {
    var s1, ms := CancelAlarm(s, e), ClientOf(s, e).mediums;
    SameRetried(env, s, s1, e);
    WholeListAhead(s, e);
    SameAhead(s, s1, e, ms, {});
    if MediumFor(env, s, e) == UnknownMedium {
      log, w := FailoverIsSearch(env, s1, e, ms, {}, os);
    } else {
      log, w := NextBestIsSearch(env, s, s1, e, os);
    }
    CancelWalk(s, e, s1, os[|os| - 1].state, log, w, Retried(env, s, e));
  }

  lemma SameRetried(env: Env, s: State, t: State, e: EndpointId)
    requires SameStage(s, t) && MediumFor(env, s, e) == MediumFor(env, t, e)
    ensures Retried(env, s, e) == Retried(env, t, e)
  {
    var ms, current := ClientOf(s, e).mediums, MediumFor(env, s, e);
    AvailableSame(s, t, ms);
    SameWays(s, t, e, ms, {});
    SameWays(s, t, e, After(ms, OnWire(current)), {current});
    assert {} + {current} == {current};
  }

  /** With a medium on record, the next best of the whole list is that medium or none. */
  lemma NextBestIsSearch(env: Env, s0: State, s: State, e: EndpointId, os: seq<Outcome>) returns (log: Log, w: Walk)
    requires CanSwitch(env, s) && MediumFor(env, s, e) != UnknownMedium && e !in s.up.inProgress
    requires NoReturn(s0, e) && SameStage(s0, s) && Retried(env, s0, e) == Retried(env, s, e)
    requires Rounds(env, e, os) && os[0] == NextBestOnce(env, s, e, ClientOf(s, e).mediums)
    ensures var t := os[|os| - 1].state;
      Walked(s, t, e, log, w) && Settled(env, t, e, log, w.verdict) && CleanedUp(s, t, e, w, Retried(env, s0, e))
    ensures w == Search(Retried(env, s0, e), ChannelOf(s, e), WifiLanConnected(s), Works(log, e))
  {
    var candidates, ms := Retried(env, s, e), ClientOf(s, e).mediums;
    AvailableIn(s, ms, MediumFor(env, s, e));
    if os[0].Done? {
      log, w := LastRound(env, s, e, ms, candidates, os[0].state);
    } else {
      var s1, x := os[0].state, os[0].medium;
      RoundsTail(env, e, os);
      if !Viable(s1, e, x) {
        log := [];
        w := Search(candidates, ChannelOf(s, e), WifiLanConnected(s), Works(log, e));
        BlockedRound(env, s, e, ms, candidates, Works(log, e), os[1..][0].state);
      } else {
        RecordedAhead(s0, s, s1, e, x);
        log, w := AttemptIsSearch(env, s1, e, x, {}, os[1..]);
        SetMediumWalk(env, s, e, x, s1, os[|os| - 1].state, log, w, candidates);
      }
    }
  }

  lemma RecordedAhead(s0: State, s: State, s1: State, e: EndpointId, x: Medium)
    requires NoReturn(s0, e) && SameStage(s0, s) && SameStage(s, s1) && Attemptable(s1, e, x)
    ensures !ComesBack(s1, e, x, {}) && From(s1, e, x, {}) == From(s, e, x, {})
  {
    SameWay(s0, s1, e, x);
    NothingComesBack(s0, e, x);
    SameReturn(s0, s1, e, x, {});
    SameWays(s, s1, e, After(ClientOf(s, e).mediums, OnWire(x)), {} + {x});
  }

  /** While an upgrade is in progress a due retry attempts nothing. */
  lemma BusyAlarmAttemptsNothing(env: Env, s: State, e: EndpointId, os: seq<Outcome>)
    requires e in s.up.inProgress && Rounds(env, e, os) && os[0] == FireAlarm(env, s, e)
    ensures var t := os[|os| - 1].state;
      && t.handlers == s.handlers && t.up == s.up
      && (t.io == s.io || t.io.log == s.io.log + [RetryScheduled(e, NextDelay(env, s, e))])
  {
    Frames.NextBestHandlers(env, CancelAlarm(s, e), e, ClientOf(s, e).mediums);
    if os[0].Again? {
      RoundsTail(env, e, os);
      Frames.PreliminariesFrame(env, os[0].state, e, os[0].medium);
    }
  }

  lemma CancelWalk(s: State, e: EndpointId, s1: State, t: State, log: Log, w: Walk, candidates: seq<Medium>)
    requires s1 == CancelAlarm(s, e) && Walked(s1, t, e, log, w) && CleanedUp(s1, t, e, w, candidates)
    ensures Walked(s, t, e, log, w) && CleanedUp(s, t, e, w, candidates)
  {
  }

  lemma SameSurroundings(s: State, t: State, e: EndpointId)
    requires s.registry == t.registry
    ensures ChannelOf(s, e) == ChannelOf(t, e) && WifiLanConnected(s) == WifiLanConnected(t)
  {
  }

  /**
   * Whatever becomes of the failover it sets off, an initiation whose medium did not come up or whose offer was not
   * written leaves that medium not held by the endpoint under the service id of its channel, if no listed medium
   * comes back. Under other ids it may hold it still.
   */
  lemma InitiationUndone(env: Env, s: State, e: EndpointId, m: Medium, os: seq<Outcome>)
    requires CanSwitch(env, s) && NoReturn(s, e) && Viable(s, e, m) && s.registry[e].serviceId != ""
    requires !MakeOffer(env, Readied(env, s, e, m), e, m).1
    requires Rounds(env, e, os) && os[0] == InitiateOnce(env, s, e, m)
    ensures m in os[|os| - 1].state.handlers
    ensures !Holds(os[|os| - 1].state.handlers[m], Wrap(s.registry[e].serviceId), e)
  {
    var u := Undone(env, MakeOffer(env, Readied(env, s, e, m), e, m).0, e);
    var tail := After(ClientOf(s, e).mediums, OnWire(m));
    var missed := MissedAttempt(env, s, e, m, u);
    AfterMissAhead(s, u, e, m);
    var log, w := FailoverIsSearch(env, u, e, tail, {m}, os);
  }

  /** Behind a medium whose attempt failed the way goes ahead, and that medium is not on it. */
  lemma AfterMissAhead(s: State, u: State, e: EndpointId, m: Medium)
    requires NoReturn(s, e) && Attemptable(s, e, m) && SameStage(s, u)
    ensures var tail := After(ClientOf(s, e).mediums, OnWire(m));
      GoesAhead(u, e, tail, {m}) && m !in Way(u, e, tail, {m})
  {
    var tail := After(ClientOf(s, e).mediums, OnWire(m));
    NothingComesBack(s, e, m);
    assert {} + {m} == {m};
    SameAhead(s, u, e, tail, {m});
    WayAvoids(s, e, tail, {m}, m);
    SameWays(s, u, e, tail, {m});
  }

  /**
   * Once a failure on the medium on record was handled, the endpoint holds that medium for its channel's service
   * exactly if it held it before and either, with a medium per endpoint, the service id is empty (wrapping does not
   * mark it, and the revert takes it for a responder's), or, with one for all, several channels are in use.
   */
  lemma UndoneExactly(env: Env, s: State, e: EndpointId, m: Medium, last: Medium, t: State)
    requires HasHandler(s, m) && e in s.registry && MediumFor(env, s, e) == m
    requires t == FailureOnce(env, s, e, last).state
    ensures m in t.handlers
    ensures var service := s.registry[e].serviceId;
      Holds(t.handlers[m], Wrap(service), e)
      <==> Holds(s.handlers[m], Wrap(service), e)
           && if env.config.multipleMediums then service == "" else |s.registry| > 1
  {
    if CanSwitch(env, s) {
      UndoneHoldings(env, s, e);
      Frames.NextBestHandlers(env, Undone(env, s, e), e, After(ClientOf(s, e).mediums, last));
      FailureIsNextBest(env, s, e, last);
    }
  }

  // -- sound lists ----------------------------------------------------------

  /** `ms` up to the first `m`, or to its end. */
  function UpTo(ms: seq<Medium>, m: Medium): seq<Medium> {
    if ms == [] then []
    else if ms[0] == m then [m]
    else [ms[0]] + UpTo(ms[1..], m)
  }

  /** After the first usable medium fails, the candidates are those behind it (none, behind BLE_L2CAP). */
  lemma NextCandidates(s: State, ms: seq<Medium>, untried: seq<Medium>)
    requires Sound(s, ms) && UnknownMedium !in ms && IsSuffix(untried, ms) && Available(s, untried) != []
    ensures var all := Available(s, untried);
      && Available(s, After(ms, OnWire(all[0]))) == (if all[0] == BleL2cap then [] else all[1..])
      && all[0] !in Available(s, After(ms, OnWire(all[0])))
  {
    var p := FirstAvailable(s, untried);
    var x, q := untried[p], |ms| - |untried| + p;
    assert ms[q] == x;
    AfterSuffix(ms, OnWire(x));
    if x != BleL2cap {
      AfterBehind(ms, x, q);
      AfterBeyond(ms, x, q);
      assert After(ms, x) == untried[p + 1..];
      forall r | q < r < |ms|
        ensures ms[r] != x
      {
        assert ms[..r][q] == x;
      }
      NotAvailable(s, untried[p + 1..], x);
    }
  }

  lemma {:induction false} NotAvailable(s: State, ms: seq<Medium>, m: Medium)
    requires m !in ms
    ensures m !in Available(s, ms)
  {
    if ms != [] {
      NotAvailable(s, ms[1..], m);
    }
  }

  /**
   * Over a sound list without the unknown medium the walk is one down the usable mediums in list order; only behind
   * BLE_L2CAP, whose failure is reported as one on the unknown medium, nothing is tried.
   */
  lemma {:induction false} SoundWalk(s: State, e: EndpointId, untried: seq<Medium>, seen: set<Medium>, works: Medium -> bool)
    requires var ms := ClientOf(s, e).mediums; Sound(s, ms) && UnknownMedium !in ms && IsSuffix(untried, ms)
    requires forall x :: x in seen ==> x !in Available(s, untried)
    ensures Search(Way(s, e, untried, seen), ChannelOf(s, e), WifiLanConnected(s), works)
         == Search(UpTo(Available(s, untried), BleL2cap), ChannelOf(s, e), WifiLanConnected(s), works)
    decreases Others(seen)
  {
    if Available(s, untried) != [] {
      var x := Available(s, untried)[0];
      if Attemptable(s, e, x) {
        var rest := After(ClientOf(s, e).mediums, OnWire(x));
        SoundStep(s, e, untried, seen, x, rest);
        assert x in Others(seen) && x !in Others(seen + {x});
        SoundWalk(s, e, rest, seen + {x}, works);
        SameStart(x, Way(s, e, rest, seen + {x}), UpTo(Available(s, rest), BleL2cap), ChannelOf(s, e), WifiLanConnected(s), works);
      } else {
        SoundEnd(s, e, untried, seen, x, works);
      }
    }
  }

  lemma SoundStep(s: State, e: EndpointId, untried: seq<Medium>, seen: set<Medium>, x: Medium, rest: seq<Medium>)
    requires var ms := ClientOf(s, e).mediums; Sound(s, ms) && UnknownMedium !in ms && IsSuffix(untried, ms)
    requires forall y :: y in seen ==> y !in Available(s, untried)
    requires Available(s, untried) != [] && x == Available(s, untried)[0] && Attemptable(s, e, x)
    requires rest == After(ClientOf(s, e).mediums, OnWire(x))
    ensures IsSuffix(rest, ClientOf(s, e).mediums) && forall y :: y in seen + {x} ==> y !in Available(s, rest)
    ensures Way(s, e, untried, seen) == [x] + Way(s, e, rest, seen + {x})
    ensures UpTo(Available(s, untried), BleL2cap) == [x] + UpTo(Available(s, rest), BleL2cap)
  {
    NextCandidates(s, ClientOf(s, e).mediums, untried);
    AfterSuffix(ClientOf(s, e).mediums, OnWire(x));
    UpToNext(Available(s, untried), Available(s, rest));
  }

  lemma SoundEnd(s: State, e: EndpointId, untried: seq<Medium>, seen: set<Medium>, x: Medium, works: Medium -> bool)
    requires Available(s, untried) != [] && x == Available(s, untried)[0] && !Attemptable(s, e, x)
    ensures Search(Way(s, e, untried, seen), ChannelOf(s, e), WifiLanConnected(s), works)
         == Search(UpTo(Available(s, untried), BleL2cap), ChannelOf(s, e), WifiLanConnected(s), works)
  {
    var p := FirstAvailable(s, untried);
    var all := Available(s, untried);
    var more := if x == BleL2cap then [] else UpTo(all[1..], BleL2cap);
    assert UpTo(all, BleL2cap) == [x] + more && Way(s, e, untried, seen) == [x] + [];
    StuckAtOnce(x, [], more, ChannelOf(s, e), WifiLanConnected(s), works);
  }

  lemma UpToNext(all: seq<Medium>, rest: seq<Medium>)
    requires all != [] && rest == if all[0] == BleL2cap then [] else all[1..]
    ensures UpTo(all, BleL2cap) == [all[0]] + UpTo(rest, BleL2cap)
  {
  }

  lemma SameStart(x: Medium, a: seq<Medium>, b: seq<Medium>, channel: Option<Medium>, lan: bool, works: Medium -> bool)
    requires Search(a, channel, lan, works) == Search(b, channel, lan, works)
    ensures Search([x] + a, channel, lan, works) == Search([x] + b, channel, lan, works)
  {
    assert ([x] + a)[1..] == a && ([x] + b)[1..] == b;
  }

  lemma StuckAtOnce(x: Medium, a: seq<Medium>, b: seq<Medium>, channel: Option<Medium>, lan: bool, works: Medium -> bool)
    requires channel.None? || channel == Some(x) || (lan && x == WifiHotspot)
    ensures Search([x] + a, channel, lan, works) == Search([x] + b, channel, lan, works)
  {
  }

  // -- each medium at most once ---------------------------------------------

  lemma {:induction false} WayDistinct(s: State, e: EndpointId, untried: seq<Medium>, seen: set<Medium>)
    requires GoesAhead(s, e, untried, seen)
    ensures Distinct(Way(s, e, untried, seen))
    decreases Others(seen)
  {
    var next := Available(s, untried);
    if next != [] && next[0] !in seen && Attemptable(s, e, next[0]) {
      var x, rest := next[0], After(ClientOf(s, e).mediums, OnWire(next[0]));
      assert x in Others(seen) && x !in Others(seen + {x});
      WayDistinct(s, e, rest, seen + {x});
      WayAvoids(s, e, rest, seen + {x}, x);
      DistinctCons(x, Way(s, e, rest, seen + {x}));
    }
  }

  lemma DistinctCons(x: Medium, ms: seq<Medium>)
    requires Distinct(ms) && x !in ms
    ensures Distinct([x] + ms)
  {
  }

  lemma FromDistinct(s: State, e: EndpointId, m: Medium)
    requires NoReturn(s, e) && Attemptable(s, e, m)
    ensures Distinct(From(s, e, m, {}))
  {
    var tail := After(ClientOf(s, e).mediums, OnWire(m));
    AfterMissAhead(s, s, e, m);
    assert {} + {m} == {m};
    WayDistinct(s, e, tail, {m});
    DistinctCons(m, Way(s, e, tail, {m}));
  }

  lemma TriedDistinct(candidates: seq<Medium>, channel: Option<Medium>, lan: bool, works: Medium -> bool)
    requires Distinct(candidates)
    ensures Distinct(Search(candidates, channel, lan, works).tried)
  {
    SearchTriesInOrder(candidates, channel, lan, works);
  }

  /** `ps` are the increasing positions in `ms` of the mediums `tried`. */
  predicate Descends(ms: seq<Medium>, tried: seq<Medium>, ps: seq<nat>) {
    && |ps| == |tried|
    && (forall i :: 0 <= i < |ps| ==> ps[i] < |ms| && ms[ps[i]] == tried[i])
    && (forall i, j :: 0 <= i < j < |ps| ==> ps[i] < ps[j])
  }

  /** Where the way begins in the list, and where it goes on from there. */
  lemma WayTop(s: State, e: EndpointId, untried: seq<Medium>, ms: seq<Medium>, x: Medium) returns (q: nat)
    requires ms == ClientOf(s, e).mediums && Sound(s, ms) && IsSuffix(untried, ms)
    requires Available(s, untried) != [] && x == Available(s, untried)[0]
    ensures |ms| - |untried| <= q < |ms| && ms[q] == x
    ensures x != BleL2cap || Attemptable(s, e, x) ==> IsSuffix(After(ms, OnWire(x)), ms) && q < |ms| - |After(ms, OnWire(x))|
  {
    var p := FirstAvailable(s, untried);
    q := |ms| - |untried| + p;
    AfterBeyond(ms, OnWire(x), q);
    AfterSuffix(ms, OnWire(x));
  }

  /** Over a sound list the way goes down the list. */
  lemma {:induction false} WayDescends(s: State, e: EndpointId, untried: seq<Medium>, seen: set<Medium>, ms: seq<Medium>)
      returns (ps: seq<nat>)
    requires ms == ClientOf(s, e).mediums && Sound(s, ms) && IsSuffix(untried, ms)
    ensures Descends(ms, Way(s, e, untried, seen), ps)
    ensures forall i :: 0 <= i < |ps| ==> |ms| - |untried| <= ps[i]
    decreases Others(seen)
  {
    ps := [];
    if Available(s, untried) != [] {
      var x := Available(s, untried)[0];
      var q := WayTop(s, e, untried, ms, x);
      ps := [q];
      if x !in seen && Attemptable(s, e, x) {
        var rest := After(ms, OnWire(x));
        assert x in Others(seen) && x !in Others(seen + {x});
        var below := WayDescends(s, e, rest, seen + {x}, ms);
        ps := [q] + below;
        DescendsCons(ms, x, q, Way(s, e, rest, seen + {x}), below);
      }
    }
  }

  lemma DescendsCons(ms: seq<Medium>, x: Medium, q: nat, tried: seq<Medium>, ps: seq<nat>)
    requires Descends(ms, tried, ps) && q < |ms| && ms[q] == x && forall i :: 0 <= i < |ps| ==> q < ps[i]
    ensures Descends(ms, [x] + tried, [q] + ps)
  {
  }

  lemma DescendsPrefix(ms: seq<Medium>, tried: seq<Medium>, ps: seq<nat>, fewer: seq<Medium>)
    requires Descends(ms, tried, ps) && fewer <= tried
    ensures Descends(ms, fewer, ps[..|fewer|])
  {
  }

  /**
   * A reported failure brings up each medium at most once, and over a sound list at ever later positions of it.
   */
  lemma FailureTriesEachOnce(env: Env, s: State, e: EndpointId, last: Medium, os: seq<Outcome>) returns (log: Log)
    requires CanSwitch(env, s) && NoReturn(s, e)
    requires Rounds(env, e, os) && os[0] == FailureOnce(env, s, e, last)
    ensures Appended(Undone(env, s, e), os[|os| - 1].state, log) && Distinct(Tried(log, e))
    ensures Sound(s, ClientOf(s, e).mediums) ==> exists ps :: Descends(ClientOf(s, e).mediums, Tried(log, e), ps)
  {
    var w;
    log, w := FailureIsSearch(env, s, e, last, os);
    var ms, way := ClientOf(s, e).mediums, Way(s, e, After(ClientOf(s, e).mediums, last), {});
    ListedAhead(s, e, last);
    WayDistinct(s, e, After(ms, last), {});
    TriedDistinct(way, ChannelOf(s, e), WifiLanConnected(s), Works(log, e));
    SearchTriesInOrder(way, ChannelOf(s, e), WifiLanConnected(s), Works(log, e));
    if Sound(s, ms) {
      AfterSuffix(ms, last);
      var ps := WayDescends(s, e, After(ms, last), {}, ms);
      DescendsPrefix(ms, way, ps, w.tried);
    }
  }

  /** So does an initiation. */
  lemma InitiationTriesEachOnce(env: Env, s: State, e: EndpointId, m: Medium, os: seq<Outcome>) returns (log: Log)
    requires CanSwitch(env, s) && NoReturn(s, e) && Viable(s, e, m)
    requires Rounds(env, e, os) && os[0] == InitiateOnce(env, s, e, m)
    ensures Appended(s, os[|os| - 1].state, log) && Distinct(Tried(log, e))
  {
    var w;
    log, w := InitiationIsSearch(env, s, e, m, os);
    FromDistinct(s, e, m);
    TriedDistinct(From(s, e, m, {}), ChannelOf(s, e), WifiLanConnected(s), Works(log, e));
  }

  lemma RetriedDistinct(env: Env, s: State, e: EndpointId, works: Medium -> bool)
    requires NoReturn(s, e)
    ensures Distinct(Search(Retried(env, s, e), ChannelOf(s, e), WifiLanConnected(s), works).tried)
  {
    var ms, current := ClientOf(s, e).mediums, MediumFor(env, s, e);
    AvailableIn(s, ms, current);
    if current != UnknownMedium && current in Available(s, ms) && !Attemptable(s, e, current) {
      assert Retried(env, s, e)[0] == current;
    } else {
      if current == UnknownMedium {
        WholeListAhead(s, e);
        WayDistinct(s, e, ms, {});
      } else if current in Available(s, ms) {
        FromDistinct(s, e, current);
      }
      TriedDistinct(Retried(env, s, e), ChannelOf(s, e), WifiLanConnected(s), works);
    }
  }

  /** And a due retry. */
  lemma AlarmTriesEachOnce(env: Env, s: State, e: EndpointId, os: seq<Outcome>) returns (log: Log)
    requires CanSwitch(env, s) && NoReturn(s, e) && e in s.retry.alarms && ClientOf(s, e).connected && e !in s.up.inProgress
    requires Rounds(env, e, os) && os[0] == FireAlarm(env, s, e)
    ensures Appended(s, os[|os| - 1].state, log) && Distinct(Tried(log, e))
  {
    var w;
    log, w := AlarmIsSearch(env, s, e, os);
    RetriedDistinct(env, s, e, Works(log, e));
  }
}
