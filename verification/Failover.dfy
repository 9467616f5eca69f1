/** The failover recursion: when it returns, what it decides, and what it leaves behind. */
module Failover {
  import opened ServiceIds
  import opened Protocol
  import opened BwuSpec
  import opened Waiting
  import Frames
  import HandlerSpec

  // -- lists of mediums -----------------------------------------------------

  predicate Distinct(ms: seq<Medium>) {
    forall i, j :: 0 <= i < j < |ms| ==> ms[i] != ms[j]
  }

  /** No usable medium follows, in the list, the name under which its failure is reported. */
  predicate Sound(s: State, ms: seq<Medium>) {
    forall p :: 0 <= p < |ms| && HasHandler(s, ms[p]) ==> OnWire(ms[p]) !in ms[..p]
  }

  predicate IsSuffix(tail: seq<Medium>, ms: seq<Medium>) {
    |tail| <= |ms| && tail == ms[|ms| - |tail|..]
  }

  lemma {:induction false} AfterSuffix(ms: seq<Medium>, m: Medium)
    ensures IsSuffix(After(ms, m), ms)
    ensures m in ms ==> |After(ms, m)| < |ms| && ms[|ms| - |After(ms, m)| - 1] == m
    ensures m !in ms ==> After(ms, m) == []
  {
    if ms != [] && ms[0] != m {
      AfterSuffix(ms[1..], m);
    }
  }

  /** What follows the first copy of `m` starts no later than behind any copy. */
  lemma {:induction false} AfterBehind(ms: seq<Medium>, m: Medium, q: nat)
    requires q < |ms| && ms[q] == m
    ensures |ms| - |After(ms, m)| - 1 <= q
  {
    if ms[0] != m {
      AfterBehind(ms[1..], m, q - 1);
    }
  }

  /** With no copy of `m` before position q, what follows the first copy starts behind q. */
  lemma {:induction false} AfterBeyond(ms: seq<Medium>, m: Medium, q: nat)
    requires q < |ms| && m !in ms[..q]
    ensures |After(ms, m)| + q < |ms|
  {
    AfterSuffix(ms, m);
    if q > 0 {
      assert ms[..q][0] == ms[0] && ms[..q][1..] == ms[1..][..q - 1];
      AfterBeyond(ms[1..], m, q - 1);
    }
  }

  /** The first usable medium sits at some position of the list. */
  lemma {:induction false} FirstAvailable(s: State, ms: seq<Medium>) returns (p: nat)
    requires Available(s, ms) != []
    ensures p < |ms| && ms[p] == Available(s, ms)[0] && HasHandler(s, ms[p])
    ensures forall q :: 0 <= q < p ==> !HasHandler(s, ms[q])
    ensures Available(s, ms) == [ms[p]] + Available(s, ms[p + 1..])
  {
    if HasHandler(s, ms[0]) {
      p := 0;
    } else {
      var q := FirstAvailable(s, ms[1..]);
      p := q + 1;
      assert ms[1..][q + 1..] == ms[p + 1..];
    }
  }

  lemma {:induction false} NoneAvailable(s: State, ms: seq<Medium>, p: nat)
    requires p < |ms| && HasHandler(s, ms[p])
    ensures Available(s, ms) != []
  {
    if p > 0 {
      NoneAvailable(s, ms[1..], p - 1);
    }
  }

  lemma {:induction false} AvailableSame(s: State, t: State, ms: seq<Medium>)
    requires s.handlers.Keys == t.handlers.Keys
    ensures Available(s, ms) == Available(t, ms)
  {
    if ms != [] {
      AvailableSame(s, t, ms[1..]);
    }
  }

  // -- one round ------------------------------------------------------------

  /** What a failover never changes. */
  ghost predicate SameStage(s: State, t: State) {
    s.handlers.Keys == t.handlers.Keys && s.registry == t.registry && s.clients == t.clients
  }

  lemma RevertStage(env: Env, s: State, service: ServiceId, e: EndpointId)
    ensures SameStage(s, Revert(env, s, service, e))
    ensures MediumFor(env, Revert(env, s, service, e), e) == UnknownMedium
    ensures Revert(env, s, service, e).up == s.up && Revert(env, s, service, e).retry == s.retry
  {
  }

  lemma FailureIsNextBest(env: Env, s: State, e: EndpointId, last: Medium)
    requires env.config.multipleMediums || |s.registry| <= 1
    ensures FailureOnce(env, s, e, last) == NextBestOnce(env, Undone(env, s, e), e, After(ClientOf(s, e).mediums, last))
    ensures SameStage(s, Undone(env, s, e))
    ensures MediumFor(env, Undone(env, s, e), e) == UnknownMedium && e !in Undone(env, s, e).up.inProgress
  {
    var s1 := Stopped(s, e);
    var service := if e in s1.registry then s1.registry[e].serviceId else UNKNOWN_SERVICE_ID;
    RevertStage(env, s1, Wrap(service), e);
  }

  /** With no medium on record, the next best is the first usable one. */
  lemma NextBestStep(env: Env, s: State, e: EndpointId, untried: seq<Medium>, o: Outcome)
    requires MediumFor(env, s, e) == UnknownMedium && o == NextBestOnce(env, s, e, untried)
    ensures SameStage(s, o.state)
    ensures o.Again? ==>
      && Available(s, untried) != [] && o.medium == Available(s, untried)[0]
      && o.state == SetMedium(env, s, e, o.medium)
  {
  }

  lemma OfferStage(env: Env, s: State, e: EndpointId, m: Medium)
    requires HasHandler(s, m) && e in s.registry
    ensures var t := MakeOffer(env, s, e, m).0;
      SameStage(s, t) && t.mediums == s.mediums && t.up == s.up && t.retry == s.retry
  {
  }

  lemma InitiateStep(env: Env, s: State, e: EndpointId, m: Medium, o: Outcome)
    requires o == InitiateOnce(env, s, e, m)
    ensures SameStage(s, o.state)
    ensures o.Again? ==> Available(s, After(ClientOf(s, e).mediums, OnWire(m))) != []
    ensures o.Again? ==> o.medium == Available(s, After(ClientOf(s, e).mediums, OnWire(m)))[0]
  {
    Frames.PreliminariesFrame(env, s, e, m);
    if Viable(s, e, m) {
      var s1 := Readied(env, s, e, m);
      AttemptStep(env, s1, e, m, o);
      AvailableSame(s, s1, After(ClientOf(s1, e).mediums, OnWire(m)));
    }
  }

  lemma AttemptStep(env: Env, s: State, e: EndpointId, m: Medium, o: Outcome)
    requires HasHandler(s, m) && e in s.registry && o == Attempt(env, s, e, m)
    ensures SameStage(s, o.state)
    ensures o.Again? ==> Available(s, After(ClientOf(s, e).mediums, OnWire(m))) != []
    ensures o.Again? ==> o.medium == Available(s, After(ClientOf(s, e).mediums, OnWire(m)))[0]
  {
    OfferStage(env, s, e, m);
    var (s1, ok) := MakeOffer(env, s, e, m);
    if !ok {
      MissStep(env, s1, e, OnWire(m), o);
      AvailableSame(s, s1, After(ClientOf(s, e).mediums, OnWire(m)));
    }
  }

  lemma MissStep(env: Env, s: State, e: EndpointId, last: Medium, o: Outcome)
    requires o == FailureOnce(env, s, e, last)
    ensures SameStage(s, o.state)
    ensures o.Again? ==> Available(s, After(ClientOf(s, e).mediums, last)) != []
    ensures o.Again? ==> o.medium == Available(s, After(ClientOf(s, e).mediums, last))[0]
  {
    if env.config.multipleMediums || |s.registry| <= 1 {
      var t, untried := Undone(env, s, e), After(ClientOf(s, e).mediums, last);
      FailureIsNextBest(env, s, e, last);
      NextBestStep(env, t, e, untried, o);
      AvailableSame(s, t, untried);
    }
  }

  // -- where a failure leads -------------------------------------------------

  /** A failure may lead to another medium: always with a medium per endpoint, else only for the last channel. */
  predicate CanSwitch(env: Env, s: State) {
    env.config.multipleMediums || |s.registry| <= 1
  }

  /** Nothing but an upgrade in progress could stand in the way of attempting `m`. */
  predicate Attemptable(s: State, e: EndpointId, m: Medium) {
    !Barred(s, m) && HasHandler(s, m) && e in s.registry && s.registry[e].medium != m
  }

  /** The usable mediums behind the name under which a failure of `m` is reported. */
  function Behind(s: State, e: EndpointId, m: Medium): seq<Medium> {
    Available(s, After(ClientOf(s, e).mediums, OnWire(m)))
  }

  /** A failure of `m` leads to an attempt on another medium, `Behind(s, e, m)[0]`. */
  predicate LeadsOn(s: State, e: EndpointId, m: Medium) {
    Behind(s, e, m) != [] && Attemptable(s, e, Behind(s, e, m)[0])
  }

  /** Going from failure to failure, from `m` on, some medium is met again, or one of `seen` is met. */
  predicate ComesBack(s: State, e: EndpointId, m: Medium, seen: set<Medium>)
    decreases Others(seen)
  {
    m in seen ||
    (LeadsOn(s, e, m) && (
      assert m in Others(seen) && m !in Others(seen + {m});
      ComesBack(s, e, Behind(s, e, m)[0], seen + {m})))
  }

  function Others(seen: set<Medium>): set<Medium> {
    set x: Medium | x !in seen
  }

  /** No medium of the endpoint's preference list comes back to one already attempted. */
  predicate NoReturn(s: State, e: EndpointId) {
    forall m :: m in ClientOf(s, e).mediums && Attemptable(s, e, m) ==> !ComesBack(s, e, m, {})
  }

  lemma SameWay(s: State, t: State, e: EndpointId, m: Medium)
    requires SameStage(s, t)
    ensures Attemptable(s, e, m) == Attemptable(t, e, m) && Behind(s, e, m) == Behind(t, e, m)
  {
    AvailableSame(s, t, After(ClientOf(s, e).mediums, OnWire(m)));
  }

  lemma AvailableListed(s: State, ms: seq<Medium>, last: Medium)
    requires Available(s, After(ms, last)) != []
    ensures Available(s, After(ms, last))[0] in ms
  {
    var p := FirstAvailable(s, After(ms, last));
    AfterSuffix(ms, last);
    assert ms[|ms| - |After(ms, last)| + p] == After(ms, last)[p];
  }

  // -- termination ----------------------------------------------------------

  ghost predicate Returns(env: Env, e: EndpointId, o: Outcome) {
    exists os :: Rounds(env, e, os) && os[0] == o
  }

  /** The same without waiting for anybody to resume or close a channel. */
  ghost predicate Finishes(env: Env, s: State, e: EndpointId, o: Outcome) {
    exists os: seq<Outcome> :: Rounds(env, e, os) && os[0] == o && Freely(s, os[|os| - 1].state)
  }

  lemma Prepend(env: Env, e: EndpointId, o: Outcome, rest: seq<Outcome>) returns (os: seq<Outcome>)
    requires Rounds(env, e, rest) && Link(env, e, o, rest[0])
    ensures Rounds(env, e, os) && os == [o] + rest
  {
    os := [o] + rest;
    forall i | 0 <= i < |os| - 1
      ensures Link(env, e, os[i], os[i + 1])
    {
      assert i > 0 ==> Link(env, e, rest[i - 1], rest[i]);
    }
  }

  /** A round that goes on with a medium from which the failures do not come back is followed by finitely many. */
  lemma {:induction false} WayReturns(env: Env, s: State, e: EndpointId, o: Outcome, seen: set<Medium>)
      returns (os: seq<Outcome>)
    requires SameStage(s, o.state)
    requires o.Again? && Attemptable(s, e, o.medium) ==> !ComesBack(s, e, o.medium, seen)
    ensures Rounds(env, e, os) && os[0] == o
    decreases Others(seen)
  {
    if o.Done? {
      os := [o];
    } else {
      var next := InitiateOnce(env, o.state, e, o.medium);
      WayStep(env, s, e, o, seen, next);
      var rest := [next];
      if next.Again? {
        assert o.medium in Others(seen) && o.medium !in Others(seen + {o.medium});
        rest := WayReturns(env, s, e, next, seen + {o.medium});
      }
      os := Prepend(env, e, o, rest);
    }
  }

  lemma WayStep(env: Env, s: State, e: EndpointId, o: Outcome, seen: set<Medium>, next: Outcome)
    requires o.Again? && SameStage(s, o.state) && next == InitiateOnce(env, o.state, e, o.medium)
    requires Attemptable(s, e, o.medium) ==> !ComesBack(s, e, o.medium, seen)
    ensures SameStage(s, next.state)
    ensures next.Again? ==> o.medium !in seen
    ensures next.Again? && Attemptable(s, e, next.medium) ==> !ComesBack(s, e, next.medium, seen + {o.medium})
  {
    InitiateStep(env, o.state, e, o.medium, next);
    SameWay(s, o.state, e, o.medium);
  }

  /**
   * If no medium of the preference list comes back to one already attempted, every failover takes finitely many
   * rounds, whatever fails: an upgrade started by the caller, a reported failure, and a retry that comes due. If the
   * endpoint's channel is not paused, none of its writes has to wait, so it returns by itself.
   */
  lemma FailoverReturns(env: Env, s: State, e: EndpointId, m: Medium, last: Medium)
    requires NoReturn(s, e)
    ensures Returns(env, e, InitiateOnce(env, s, e, m))
    ensures Returns(env, e, FailureOnce(env, s, e, last))
    ensures Returns(env, e, FireAlarm(env, s, e))
    ensures !OnHold(s, e) ==>
      && Finishes(env, s, e, InitiateOnce(env, s, e, m))
      && Finishes(env, s, e, FailureOnce(env, s, e, last))
      && Finishes(env, s, e, FireAlarm(env, s, e))
  {
    InitiationReturns(env, s, e, m);
    FailureReturns(env, s, e, last);
    AlarmReturns(env, s, e);
    if !OnHold(s, e) {
      FinishesUnlessHeld(env, s, e, m, last);
    }
  }

  lemma FinishesUnlessHeld(env: Env, s: State, e: EndpointId, m: Medium, last: Medium)
    requires !OnHold(s, e)
    requires Returns(env, e, InitiateOnce(env, s, e, m)) && Returns(env, e, FailureOnce(env, s, e, last))
    requires Returns(env, e, FireAlarm(env, s, e))
    ensures Finishes(env, s, e, InitiateOnce(env, s, e, m))
    ensures Finishes(env, s, e, FailureOnce(env, s, e, last))
    ensures Finishes(env, s, e, FireAlarm(env, s, e))
  {
    var os :| Rounds(env, e, os) && os[0] == InitiateOnce(env, s, e, m);
    InitiationWaits(env, s, e, m, os);
    var os' :| Rounds(env, e, os') && os'[0] == FailureOnce(env, s, e, last);
    FailureWaits(env, s, e, last, os');
    var os'' :| Rounds(env, e, os'') && os''[0] == FireAlarm(env, s, e);
    AlarmWaits(env, s, e, os'');
  }

  lemma InitiationReturns(env: Env, s: State, e: EndpointId, m: Medium)
    requires NoReturn(s, e)
    ensures Returns(env, e, InitiateOnce(env, s, e, m))
  {
    var o := InitiateOnce(env, s, e, m);
    InitiateStep(env, s, e, m, o);
    if o.Again? {
      AvailableListed(s, ClientOf(s, e).mediums, OnWire(m));
    }
    var os := WayReturns(env, s, e, o, {});
  }

  lemma FailureReturns(env: Env, s: State, e: EndpointId, last: Medium)
    requires NoReturn(s, e)
    ensures Returns(env, e, FailureOnce(env, s, e, last))
  {
    var o := FailureOnce(env, s, e, last);
    MissStep(env, s, e, last, o);
    if o.Again? {
      AvailableListed(s, ClientOf(s, e).mediums, last);
    }
    var os := WayReturns(env, s, e, o, {});
  }

  /** A due retry may first go back to the medium on record; after that it is an ordinary failover. */
  lemma AlarmReturns(env: Env, s: State, e: EndpointId)
    requires NoReturn(s, e)
    ensures Returns(env, e, FireAlarm(env, s, e))
  {
    var o := FireAlarm(env, s, e);
    if o.Again? {
      BestIsBest(env, CancelAlarm(s, e), e, ClientOf(s, e).mediums);
    }
    var os := WayReturns(env, s, e, o, {});
  }

  lemma {:induction false} AvailableIn(s: State, ms: seq<Medium>, m: Medium)
    ensures m in Available(s, ms) <==> m in ms && HasHandler(s, m)
  {
    if ms != [] {
      AvailableIn(s, ms[1..], m);
    }
  }

  lemma AvailableExactly(s: State, ms: seq<Medium>)
    ensures forall m :: m in Available(s, ms) <==> m in ms && HasHandler(s, m)
  {
    forall m
      ensures m in Available(s, ms) <==> m in ms && HasHandler(s, m)
    {
      AvailableIn(s, ms, m);
    }
  }

  /** Going through the list: what was kept before position i, and what is kept from there on. */
  lemma AvailableFrom(s: State, ms: seq<Medium>, i: nat, kept: seq<Medium>)
    requires i < |ms|
    ensures kept + Available(s, ms[i..]) == (if HasHandler(s, ms[i]) then kept + [ms[i]] else kept) + Available(s, ms[i + 1..])
  {
    assert ms[i..][0] == ms[i] && ms[i..][1..] == ms[i + 1..];
  }

  /**
   * With a medium on record the best of `ms` is that one, if it is listed and usable, and else none; without one,
   * it is the first usable medium listed, and none exactly if no listed medium is usable.
   */
  predicate IsBest(s: State, ms: seq<Medium>, current: Medium, best: Medium) {
    if current != UnknownMedium then
      best == if current in ms && HasHandler(s, current) then current else UnknownMedium
    else if best == UnknownMedium then
      forall m :: m in ms ==> !HasHandler(s, m)
    else
      exists p :: 0 <= p < |ms| && ms[p] == best && HasHandler(s, best) && forall q :: 0 <= q < p ==> !HasHandler(s, ms[q])
  }

  lemma BestIsBest(env: Env, s: State, e: EndpointId, ms: seq<Medium>)
    ensures IsBest(s, ms, MediumFor(env, s, e), ChooseBest(env, s, e, ms))
    ensures ChooseBest(env, s, e, ms) != UnknownMedium ==> ChooseBest(env, s, e, ms) in ms
  {
    var available, current := Available(s, ms), MediumFor(env, s, e);
    AvailableIn(s, ms, current);
    if current == UnknownMedium {
      if available == [] {
        forall m | m in ms
          ensures !HasHandler(s, m)
        {
          AvailableIn(s, ms, m);
        }
      } else {
        var p := FirstAvailable(s, ms);
      }
    }
  }

  // -- the exact condition --------------------------------------------------

  /** An environment in which nothing ever works. */
  ghost predicate Hopeless(env: Env) {
    forall n :: !env.outcome(n)
  }

  /** The failures from `m` on come to an end after exactly k more attempts. */
  predicate EndsIn(s: State, e: EndpointId, m: Medium, k: nat)
    decreases k
  {
    if k == 0 then !LeadsOn(s, e, m)
    else LeadsOn(s, e, m) && EndsIn(s, e, Behind(s, e, m)[0], k - 1)
  }

  lemma {:induction false} EndsOnce(s: State, e: EndpointId, m: Medium, j: nat, k: nat)
    requires EndsIn(s, e, m, j) && EndsIn(s, e, m, k)
    ensures j == k
    decreases j
  {
    if j > 0 && k > 0 {
      EndsOnce(s, e, Behind(s, e, m)[0], j - 1, k - 1);
    }
  }

  /** `x` is further from the end than k attempts. */
  ghost predicate Further(s: State, e: EndpointId, x: Medium, k: int) {
    exists j: nat :: k < j && EndsIn(s, e, x, j)
  }

  /** What ends does not come back to a medium that is further from the end. */
  lemma {:induction false} EndsAhead(s: State, e: EndpointId, m: Medium, k: nat, seen: set<Medium>)
    requires EndsIn(s, e, m, k)
    requires forall x :: x in seen ==> Further(s, e, x, k)
    ensures !ComesBack(s, e, m, seen)
    decreases k
  {
    if m in seen {
      var j: nat :| k < j && EndsIn(s, e, m, j);
      EndsOnce(s, e, m, j, k);
    } else if k > 0 {
      assert Further(s, e, m, k - 1);
      forall x | x in seen
        ensures Further(s, e, x, k - 1)
      {
        var j: nat :| k < j && EndsIn(s, e, x, j);
      }
      EndsAhead(s, e, Behind(s, e, m)[0], k - 1, seen + {m});
    }
  }

  /** Where nothing works, the round after a failure of `m` attempts the medium the failure leads on to, if any. */
  lemma HopelessFailure(env: Env, s: State, e: EndpointId, last: Medium, o: Outcome)
    requires Hopeless(env) && CanSwitch(env, s) && e in s.registry && o == FailureOnce(env, s, e, last)
    requires var next := Available(s, After(ClientOf(s, e).mediums, last)); next != [] && Attemptable(s, e, next[0])
    ensures o.Again? && SameStage(s, o.state) && e !in o.state.up.inProgress
    ensures o.medium == Available(s, After(ClientOf(s, e).mediums, last))[0]
  {
    var t, untried := Undone(env, s, e), After(ClientOf(s, e).mediums, last);
    FailureIsNextBest(env, s, e, last);
    AvailableSame(s, t, untried);
    NextBestStep(env, t, e, untried, o);
  }

  lemma HopelessRound(env: Env, s: State, e: EndpointId, m: Medium, o: Outcome)
    requires Hopeless(env) && CanSwitch(env, s) && e !in s.up.inProgress
    requires Attemptable(s, e, m) && LeadsOn(s, e, m) && o == InitiateOnce(env, s, e, m)
    ensures o.Again? && SameStage(s, o.state) && e !in o.state.up.inProgress
    ensures o.medium == Behind(s, e, m)[0]
  {
    var s1 := Readied(env, s, e, m);
    Frames.PreliminariesFrame(env, s, e, m);
    OfferStage(env, s1, e, m);
    var s2 := MakeOffer(env, s1, e, m).0;
    AvailableSame(s, s2, After(ClientOf(s, e).mediums, OnWire(m)));
    HopelessFailure(env, s2, e, OnWire(m), o);
  }

  lemma HopelessLink(env: Env, s: State, e: EndpointId, o: Outcome, next: Outcome)
    requires Hopeless(env) && CanSwitch(env, s) && SameStage(s, o.state) && e !in o.state.up.inProgress
    requires Link(env, e, o, next) && Attemptable(s, e, o.medium) && LeadsOn(s, e, o.medium)
    ensures next.Again? && SameStage(s, next.state) && e !in next.state.up.inProgress
    ensures next.medium == Behind(s, e, o.medium)[0]
  {
    SameWay(s, o.state, e, o.medium);
    SameWay(s, o.state, e, Behind(s, e, o.medium)[0]);
    HopelessRound(env, o.state, e, o.medium, next);
  }

  /** A round that goes on with an attempt, with everything else as in `s`. */
  ghost predicate GoesOn(s: State, e: EndpointId, o: Outcome) {
    o.Again? && SameStage(s, o.state) && e !in o.state.up.inProgress && Attemptable(s, e, o.medium)
  }

  /** The rounds attempt one medium after the other, as the failures lead on, and come to an end. */
  ghost predicate LedOn(s: State, e: EndpointId, os: seq<Outcome>) {
    && os != [] && os[|os| - 1].Done?
    && forall i :: 0 <= i < |os| - 1 && GoesOn(s, e, os[i]) && LeadsOn(s, e, os[i].medium) ==>
         GoesOn(s, e, os[i + 1]) && os[i + 1].medium == Behind(s, e, os[i].medium)[0]
  }

  lemma RoundsLedOn(env: Env, s: State, e: EndpointId, os: seq<Outcome>)
    requires Hopeless(env) && CanSwitch(env, s) && Rounds(env, e, os)
    ensures LedOn(s, e, os)
  {
    forall i | 0 <= i < |os| - 1 && GoesOn(s, e, os[i]) && LeadsOn(s, e, os[i].medium)
      ensures GoesOn(s, e, os[i + 1]) && os[i + 1].medium == Behind(s, e, os[i].medium)[0]
    {
      HopelessLink(env, s, e, os[i], os[i + 1]);
    }
  }

  /** So the failures come to an end as well. */
  lemma {:induction false} RoundsEnd(s: State, e: EndpointId, os: seq<Outcome>, i: nat) returns (k: nat)
    requires LedOn(s, e, os) && i < |os| && GoesOn(s, e, os[i])
    ensures EndsIn(s, e, os[i].medium, k)
    decreases |os| - i
  {
    k := 0;
    if LeadsOn(s, e, os[i].medium) {
      var j := RoundsEnd(s, e, os, i + 1);
      k := j + 1;
    }
  }

  /** Where nothing works, a failure that leads to a medium that comes back is never done with. */
  lemma ComingBackNeverReturns(env: Env, s: State, e: EndpointId, m: Medium)
    requires Hopeless(env) && CanSwitch(env, s) && Attemptable(s, e, m) && ComesBack(s, e, m, {})
    ensures !Returns(env, e, FailureOnce(env, s, e, OnWire(m)))
  {
    var o := FailureOnce(env, s, e, OnWire(m));
    HopelessFailure(env, s, e, OnWire(m), o);
    forall os | Rounds(env, e, os) && os[0] == o
      ensures false
    {
      ComingBackHasNoRounds(env, s, e, m, o, os);
    }
  }

  lemma ComingBackHasNoRounds(env: Env, s: State, e: EndpointId, m: Medium, o: Outcome, os: seq<Outcome>)
    requires Hopeless(env) && CanSwitch(env, s) && LeadsOn(s, e, m) && o.Again? && o.medium == Behind(s, e, m)[0]
    requires SameStage(s, o.state) && e !in o.state.up.inProgress
    requires Rounds(env, e, os) && os[0] == o
    ensures !ComesBack(s, e, m, {})
  {
    RoundsLedOn(env, s, e, os);
    var k := RoundsEnd(s, e, os, 0);
    assert EndsIn(s, e, m, k + 1);
    EndsAhead(s, e, m, k + 1, {});
  }

  /**
   * When nothing works, failures are handled in finitely many rounds, whichever medium they report, if and only if
   * no medium of the preference list comes back to one already attempted, or no failure leads anywhere at all
   * because several channels share the one medium.
   */
  lemma ReturnsIffNoReturn(env: Env, s: State, e: EndpointId)
    requires Hopeless(env)
    ensures (forall last :: Returns(env, e, FailureOnce(env, s, e, last))) <==> !CanSwitch(env, s) || NoReturn(s, e)
  {
    if !CanSwitch(env, s) {
      forall last
        ensures Returns(env, e, FailureOnce(env, s, e, last))
      {
        var os := WayReturns(env, FailureOnce(env, s, e, last).state, e, FailureOnce(env, s, e, last), {});
      }
    } else if NoReturn(s, e) {
      forall last
        ensures Returns(env, e, FailureOnce(env, s, e, last))
      {
        FailureReturns(env, s, e, last);
      }
    } else {
      var m :| m in ClientOf(s, e).mediums && Attemptable(s, e, m) && ComesBack(s, e, m, {});
      ComingBackNeverReturns(env, s, e, m);
    }
  }

  // -- the exact condition, waiting included ---------------------------------

  /** The listener that an attempt on `m` would need stands already, so that the medium comes up whatever works. */
  predicate Stands(s: State, e: EndpointId, m: Medium) {
    && HandlerSpec.Concrete(m) && m in s.handlers && e in s.registry
    && Wrap(s.registry[e].serviceId) in s.handlers[m].listeners
  }

  /** Some failure leads to an attempt on a medium whose listener stands even after the undoing. */
  ghost predicate MeetsStanding(env: Env, s: State, e: EndpointId) {
    exists last :: LeadsTo(s, e, last) && Stands(Undone(env, s, e), e, Available(s, After(ClientOf(s, e).mediums, last))[0])
  }

  /** A failure reported under `last` leads to an attempt. */
  predicate LeadsTo(s: State, e: EndpointId, last: Medium) {
    var next := Available(s, After(ClientOf(s, e).mediums, last));
    next != [] && Attemptable(s, e, next[0])
  }

  /** `t` has the handlers of `s`, with no listener more. */
  ghost predicate NoMoreListeners(s: State, t: State) {
    t.handlers.Keys == s.handlers.Keys && forall m :: m in s.handlers ==> t.handlers[m].listeners <= s.handlers[m].listeners
  }

  lemma UndoneListeners(env: Env, s: State, e: EndpointId)
    ensures NoMoreListeners(s, Undone(env, s, e))
  {
    var m := MediumFor(env, s, e);
    if HasHandler(s, m) {
      HandlerSpec.TearDownAllListeners(m, s.handlers[m], env.order(s.handlers[m].active.Keys));
    }
  }

  lemma HopelessInit(outcome: Outcomes, now: nat, m: Medium, h: HandlerSpec.Handler, service: ServiceId, e: EndpointId)
    requires forall n :: !outcome(n)
    ensures var r := HandlerSpec.Init(outcome, now, m, h, service, e);
      && (r.ok <==> HandlerSpec.Concrete(m) && Wrap(service) in h.listeners)
      && (!r.ok ==> r.handler == h)
  {
  }

  /** Where nothing works, a medium comes up exactly if it can be attempted and its listener stands. */
  lemma HopelessUp(env: Env, s: State, e: EndpointId, m: Medium)
    requires Hopeless(env) && Viable(s, e, m)
    ensures ComesUp(env, s, e, m) <==> Stands(s, e, m)
    ensures !ComesUp(env, s, e, m) ==> NoMoreListeners(s, MakeOffer(env, Readied(env, s, e, m), e, m).0)
  {
    var s1 := Readied(env, s, e, m);
    Frames.PreliminariesFrame(env, s, e, m);
    HopelessInit(env.outcome, |s.io.log|, m, s.handlers[m], s.registry[e].serviceId, e);
    HopelessOffer(env, s1, e, m, MakeOffer(env, s1, e, m).0);
  }

  lemma HopelessOffer(env: Env, s: State, e: EndpointId, m: Medium, t: State)
    requires HasHandler(s, m) && e in s.registry && t == MakeOffer(env, s, e, m).0
    requires var r := HandlerSpec.Init(env.outcome, |s.io.log|, m, s.handlers[m], s.registry[e].serviceId, e);
      !r.ok ==> r.handler == s.handlers[m]
    ensures !HandlerSpec.Init(env.outcome, |s.io.log|, m, s.handlers[m], s.registry[e].serviceId, e).ok ==> NoMoreListeners(s, t)
  {
  }

  /** A round of a failover that started with the undoing of `u` and has brought nothing up. */
  ghost predicate Fruitless(u: State, e: EndpointId, o: Outcome) {
    && SameStage(u, o.state) && NoMoreListeners(u, o.state)
    && (o.Again? ==> exists last :: LedBy(u, e, last, o.medium))
  }

  ghost predicate LedBy(u: State, e: EndpointId, last: Medium, m: Medium) {
    var next := Available(u, After(ClientOf(u, e).mediums, last)); next != [] && next[0] == m
  }

  lemma FruitlessNext(env: Env, u: State, e: EndpointId, o: Outcome, next: Outcome)
    requires Hopeless(env) && Fruitless(u, e, o) && Link(env, e, o, next) && !ComesUp(env, o.state, e, o.medium)
    ensures Fruitless(u, e, next)
  {
    var s, m := o.state, o.medium;
    InitiateStep(env, s, e, m, next);
    AvailableSame(u, s, After(ClientOf(u, e).mediums, OnWire(m)));
    if next.Again? {
      assert LedBy(u, e, OnWire(m), next.medium);
    }
    FruitlessListeners(env, s, e, m, next);
  }

  lemma FruitlessListeners(env: Env, s: State, e: EndpointId, m: Medium, next: Outcome)
    requires Hopeless(env) && next == InitiateOnce(env, s, e, m) && !ComesUp(env, s, e, m)
    ensures NoMoreListeners(s, next.state)
  {
    Frames.PreliminariesFrame(env, s, e, m);
    if Viable(s, e, m) {
      var t := MakeOffer(env, Readied(env, s, e, m), e, m).0;
      HopelessUp(env, s, e, m);
      FailureListeners(env, t, e, OnWire(m), next.state);
    }
  }

  lemma FailureListeners(env: Env, s: State, e: EndpointId, last: Medium, t: State)
    requires t == FailureOnce(env, s, e, last).state
    ensures NoMoreListeners(s, t)
  {
    UndoneListeners(env, s, e);
    Frames.NextBestHandlers(env, Undone(env, s, e), e, After(ClientOf(s, e).mediums, last));
  }

  /** If no failure leads to a standing medium, none of the rounds brings one up. */
  lemma {:induction false} NothingComesUp(env: Env, u: State, e: EndpointId, os: seq<Outcome>)
    requires Hopeless(env) && Rounds(env, e, os) && Fruitless(u, e, os[0])
    requires forall last :: LeadsTo(u, e, last) ==> !Stands(u, e, Available(u, After(ClientOf(u, e).mediums, last))[0])
    ensures !Reaches(env, e, os)
    decreases |os|
  {
    if |os| > 1 {
      NotUpNow(env, u, e, os[0]);
      RoundsTail(env, e, os);
      FruitlessNext(env, u, e, os[0], os[1..][0]);
      NothingComesUp(env, u, e, os[1..]);
      ReachesTail(env, e, os);
    }
  }

  lemma NotUpNow(env: Env, u: State, e: EndpointId, o: Outcome)
    requires Hopeless(env) && o.Again? && Fruitless(u, e, o)
    requires forall last :: LeadsTo(u, e, last) ==> !Stands(u, e, Available(u, After(ClientOf(u, e).mediums, last))[0])
    ensures !ComesUp(env, o.state, e, o.medium)
  {
    if ComesUp(env, o.state, e, o.medium) {
      var last :| LedBy(u, e, last, o.medium);
      HopelessUp(env, o.state, e, o.medium);
      assert LeadsTo(u, e, last);
      assert Stands(o.state, e, o.medium) && Stands(u, e, o.medium);
    }
  }

  /** A failure that leads to a standing medium writes its offer there. */
  lemma StandingIsReached(env: Env, s: State, e: EndpointId, last: Medium, os: seq<Outcome>)
    requires Hopeless(env) && CanSwitch(env, s) && LeadsTo(s, e, last)
    requires Stands(Undone(env, s, e), e, Available(s, After(ClientOf(s, e).mediums, last))[0])
    requires Rounds(env, e, os) && os[0] == FailureOnce(env, s, e, last)
    ensures Reaches(env, e, os)
  {
    var o, u := os[0], Undone(env, s, e);
    HopelessFailure(env, s, e, last, o);
    FailureIsNextBest(env, s, e, last);
    Frames.NextBestHandlers(env, u, e, After(ClientOf(s, e).mediums, last));
    SameWay(s, o.state, e, o.medium);
    HopelessUp(env, o.state, e, o.medium);
  }

  /** With the channel paused and nothing standing in the way, a failure that takes finitely many rounds finishes. */
  lemma FailureFinishes(env: Env, s: State, e: EndpointId, last: Medium)
    requires Hopeless(env) && Returns(env, e, FailureOnce(env, s, e, last))
    requires !CanSwitch(env, s) || !OnHold(s, e) || !MeetsStanding(env, s, e)
    ensures Finishes(env, s, e, FailureOnce(env, s, e, last))
  {
    var os :| Rounds(env, e, os) && os[0] == FailureOnce(env, s, e, last);
    FailureWaits(env, s, e, last, os);
    if CanSwitch(env, s) && OnHold(s, e) {
      FirstFruitless(env, s, e, last, os[0]);
      StandingSame(env, s, e);
      NothingComesUp(env, Undone(env, s, e), e, os);
    }
  }

  lemma FirstFruitless(env: Env, s: State, e: EndpointId, last: Medium, o: Outcome)
    requires CanSwitch(env, s) && o == FailureOnce(env, s, e, last)
    ensures Fruitless(Undone(env, s, e), e, o)
  {
    var u, untried := Undone(env, s, e), After(ClientOf(s, e).mediums, last);
    FailureIsNextBest(env, s, e, last);
    NextBestStep(env, u, e, untried, o);
    Frames.NextBestHandlers(env, u, e, untried);
    if o.Again? {
      assert LedBy(u, e, last, o.medium);
    }
  }

  lemma StandingSame(env: Env, s: State, e: EndpointId)
    requires CanSwitch(env, s) && !MeetsStanding(env, s, e)
    ensures var u := Undone(env, s, e);
      forall last :: LeadsTo(u, e, last) ==> !Stands(u, e, Available(u, After(ClientOf(u, e).mediums, last))[0])
  {
    var u := Undone(env, s, e);
    forall last | LeadsTo(u, e, last)
      ensures !Stands(u, e, Available(u, After(ClientOf(u, e).mediums, last))[0])
    {
      FailureIsNextBest(env, s, e, last);
      AvailableSame(s, u, After(ClientOf(s, e).mediums, last));
      SameWay(s, u, e, Available(u, After(ClientOf(u, e).mediums, last))[0]);
      assert LeadsTo(s, e, last);
    }
  }

  /**
   * When nothing works, every reported failure is handled by itself, in finitely many rounds and without waiting for
   * anybody, if and only if no failure leads anywhere, or no medium of the list comes back to one already attempted
   * and, if the endpoint's channel is paused, no failure leads to a medium whose listener stands: its offer would wait.
   */
  lemma FinishesIffUnhindered(env: Env, s: State, e: EndpointId)
    requires Hopeless(env)
    ensures (forall last :: Finishes(env, s, e, FailureOnce(env, s, e, last)))
       <==> !CanSwitch(env, s) || (NoReturn(s, e) && !(OnHold(s, e) && MeetsStanding(env, s, e)))
  {
    ReturnsIffNoReturn(env, s, e);
    if forall last :: Finishes(env, s, e, FailureOnce(env, s, e, last)) {
      forall last
        ensures Returns(env, e, FailureOnce(env, s, e, last))
      {
        assert Finishes(env, s, e, FailureOnce(env, s, e, last));
      }
      if CanSwitch(env, s) && OnHold(s, e) && MeetsStanding(env, s, e) {
        var last :| LeadsTo(s, e, last) && Stands(Undone(env, s, e), e, Available(s, After(ClientOf(s, e).mediums, last))[0]);
        StandingNeverFinishes(env, s, e, last);
      }
    }
    if !CanSwitch(env, s) || (NoReturn(s, e) && !(OnHold(s, e) && MeetsStanding(env, s, e))) {
      forall last
        ensures Finishes(env, s, e, FailureOnce(env, s, e, last))
      {
        FailureFinishes(env, s, e, last);
      }
    }
  }

  lemma StandingNeverFinishes(env: Env, s: State, e: EndpointId, last: Medium)
    requires Hopeless(env) && CanSwitch(env, s) && OnHold(s, e) && LeadsTo(s, e, last)
    requires Stands(Undone(env, s, e), e, Available(s, After(ClientOf(s, e).mediums, last))[0])
    ensures !Finishes(env, s, e, FailureOnce(env, s, e, last))
  {
    forall os: seq<Outcome> | Rounds(env, e, os) && os[0] == FailureOnce(env, s, e, last)
      ensures !Freely(s, os[|os| - 1].state)
    {
      StandingIsReached(env, s, e, last, os);
      FailureWaits(env, s, e, last, os);
    }
  }

  /** A failure on BLE_L2CAP is reported as one on the unknown medium, and so leads back to BLE_L2CAP. */
  lemma UnknownMediumRunsForEver(env: Env, s: State, e: EndpointId)
    requires Hopeless(env) && CanSwitch(env, s) && Attemptable(s, e, BleL2cap)
    requires ClientOf(s, e).mediums == [UnknownMedium, BleL2cap]
    ensures !Returns(env, e, FailureOnce(env, s, e, UnknownMedium))
  {
    assert After([UnknownMedium, BleL2cap], UnknownMedium) == [BleL2cap];
    assert Available(s, [BleL2cap]) == [BleL2cap];
    assert ComesBack(s, e, BleL2cap, {BleL2cap});
    assert {} + {BleL2cap} == {BleL2cap};
    ComingBackNeverReturns(env, s, e, BleL2cap);
  }

  /** A list with repeats on which no failure comes back: from BLE_L2CAP nothing follows. */
  lemma RepeatsMayReturn(env: Env, s: State, e: EndpointId, last: Medium)
    requires HasHandler(s, WebRtc) && HasHandler(s, BleL2cap)
    requires ClientOf(s, e).mediums == [WebRtc, BleL2cap, WebRtc]
    ensures !Sound(s, ClientOf(s, e).mediums) && Returns(env, e, FailureOnce(env, s, e, last))
  {
    var ms := [WebRtc, BleL2cap, WebRtc];
    assert ms[2] == WebRtc && OnWire(WebRtc) in ms[..2] by { assert ms[..2][0] == WebRtc; }
    assert After(ms, WebRtc) == [BleL2cap, WebRtc];
    assert Behind(s, e, WebRtc)[0] == BleL2cap;
    assert After(ms, UnknownMedium) == [] by { AfterSuffix(ms, UnknownMedium); }
    assert !LeadsOn(s, e, BleL2cap);
    FailureReturns(env, s, e, last);
  }

  // -- sound lists ----------------------------------------------------------

  /** Only a usable medium from the untried tail is tried next, and then its own tail is shorter. */
  lemma TailShrinks(s: State, e: EndpointId, untried: seq<Medium>)
    requires Sound(s, ClientOf(s, e).mediums) && IsSuffix(untried, ClientOf(s, e).mediums)
    requires Available(s, untried) != []
    ensures |After(ClientOf(s, e).mediums, OnWire(Available(s, untried)[0]))| < |untried|
  {
    var p := FirstAvailable(s, untried);
    TailBehind(s, ClientOf(s, e).mediums, untried, p);
  }

  lemma TailBehind(s: State, ms: seq<Medium>, untried: seq<Medium>, p: nat)
    requires Sound(s, ms) && IsSuffix(untried, ms) && p < |untried| && HasHandler(s, untried[p])
    ensures |After(ms, OnWire(untried[p]))| < |untried|
  {
    var q := |ms| - |untried| + p;
    assert ms[q] == untried[p];
    AfterBeyond(ms, OnWire(ms[q]), q);
  }

  /** From a round that goes on with the first usable medium of `untried`, at most |untried| rounds follow. */
  lemma {:induction false} TailReturns(env: Env, e: EndpointId, o: Outcome, untried: seq<Medium>) returns (os: seq<Outcome>)
    requires Sound(o.state, ClientOf(o.state, e).mediums) && IsSuffix(untried, ClientOf(o.state, e).mediums)
    requires o.Again? ==> Available(o.state, untried) != [] && o.medium == Available(o.state, untried)[0]
    ensures Rounds(env, e, os) && os[0] == o && |os| <= |untried| + 1
    decreases |untried|
  {
    if o.Done? {
      os := [o];
    } else {
      var next := InitiateOnce(env, o.state, e, o.medium);
      InitiateStep(env, o.state, e, o.medium, next);
      TailShrinks(o.state, e, untried);
      var ms := ClientOf(o.state, e).mediums;
      AfterSuffix(ms, OnWire(o.medium));
      AvailableSame(o.state, next.state, After(ms, OnWire(o.medium)));
      var rest := TailReturns(env, e, next, After(ms, OnWire(o.medium)));
      os := Prepend(env, e, o, rest);
    }
  }

  /** Over a sound list each failure leads further down, so none comes back. */
  lemma SoundNeverComesBack(s: State, e: EndpointId)
    requires Sound(s, ClientOf(s, e).mediums)
    ensures NoReturn(s, e)
  {
    forall m | m in ClientOf(s, e).mediums && Attemptable(s, e, m)
      ensures !ComesBack(s, e, m, {})
    {
      LeadsDown(s, e, m, {});
    }
  }

  lemma {:induction false} LeadsDown(s: State, e: EndpointId, m: Medium, seen: set<Medium>)
    requires Sound(s, ClientOf(s, e).mediums)
    requires var ms := ClientOf(s, e).mediums;
      forall x :: x in seen ==> |After(ms, OnWire(m))| < |After(ms, OnWire(x))|
    ensures !ComesBack(s, e, m, seen)
    decreases Others(seen)
  {
    if m !in seen && LeadsOn(s, e, m) {
      var ms := ClientOf(s, e).mediums;
      AfterSuffix(ms, OnWire(m));
      TailShrinks(s, e, After(ms, OnWire(m)));
      assert m in Others(seen) && m !in Others(seen + {m});
      LeadsDown(s, e, Behind(s, e, m)[0], seen + {m});
    }
  }

  /** A list without repeats and without the unknown medium is sound. */
  lemma DistinctIsSound(s: State, ms: seq<Medium>)
    requires Distinct(ms) && UnknownMedium !in ms
    ensures Sound(s, ms)
  {
    forall p | 0 <= p < |ms| && HasHandler(s, ms[p])
      ensures OnWire(ms[p]) !in ms[..p]
    {
    }
  }
}
