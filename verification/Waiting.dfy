/**
 * Which writes of the manager have to wait. A write on a paused channel returns only when somebody else resumes or
 * closes that channel; the log shows what the write did then. So an operation is done in the time of its own steps
 * exactly if every write it logs is on a channel that is not paused at that moment.
 */
module Waiting {
  import opened Wrappers
  import opened ServiceIds
  import opened Protocol
  import opened BwuSpec
  import Frames
  import HandlerSpec

  // -- reading the log ------------------------------------------------------

  predicate Waits(event: Event, paused: set<Channel>) {
    (event.Wrote? || event.AckWritten?) && event.channel in paused
  }

  function Apply(paused: set<Channel>, event: Event): set<Channel> {
    match event
    case Paused(c) => paused + {c}
    case Resumed(c) => paused - {c}
    case _ => paused
  }

  /** The paused channels at the end of `log`, if after its first n events they were `paused`. */
  function PausedAfter(paused: set<Channel>, log: Log, n: nat): set<Channel>
    decreases |log|
  {
    if |log| <= n then paused else Apply(PausedAfter(paused, log[..|log| - 1], n), log[|log| - 1])
  }

  /** From its n-th event on the log has no write that had to wait. */
  predicate Free(paused: set<Channel>, log: Log, n: nat)
    decreases |log|
  {
    |log| <= n || (
      && Free(paused, log[..|log| - 1], n)
      && !Waits(log[|log| - 1], PausedAfter(paused, log[..|log| - 1], n)))
  }

  /** `t` comes after `s`, and what is paused in it is what the log since `s` says. */
  ghost predicate Follows(s: State, t: State) {
    && |s.io.log| <= |t.io.log| && t.io.log[..|s.io.log|] == s.io.log
    && t.io.paused == PausedAfter(s.io.paused, t.io.log, |s.io.log|)
  }

  /** No write between `s` and `t` had to wait. */
  predicate Freely(s: State, t: State) {
    Free(s.io.paused, t.io.log, |s.io.log|)
  }

  lemma {:induction false} Compose(paused: set<Channel>, log: Log, n: nat, k: nat)
    requires n <= k <= |log|
    ensures var between := PausedAfter(paused, log[..k], n);
      && PausedAfter(paused, log, n) == PausedAfter(between, log, k)
      && (Free(paused, log, n) <==> Free(paused, log[..k], n) && Free(between, log, k))
    decreases |log|
  {
    if k == |log| {
      assert log[..k] == log;
    } else {
      Compose(paused, log[..|log| - 1], n, k);
      assert log[..|log| - 1][..k] == log[..k];
    }
  }

  lemma Then(s: State, t: State, u: State)
    requires Follows(s, t) && Follows(t, u)
    ensures Follows(s, u) && (Freely(s, u) <==> Freely(s, t) && Freely(t, u))
  {
    Compose(s.io.paused, u.io.log, |s.io.log|, |t.io.log|);
    assert u.io.log[..|s.io.log|] == u.io.log[..|t.io.log|][..|s.io.log|];
  }

  /** Neither a write nor a change to what is paused. */
  predicate Aside(event: Event) {
    !event.Wrote? && !event.AckWritten? && !event.Paused? && !event.Resumed?
  }

  lemma {:induction false} AsideLog(paused: set<Channel>, log: Log, n: nat)
    requires forall i :: n <= i < |log| ==> Aside(log[i])
    ensures PausedAfter(paused, log, n) == paused && Free(paused, log, n)
    decreases |log|
  {
    if |log| > n {
      AsideLog(paused, log[..|log| - 1], n);
    }
  }

  lemma Quietly(s: State, t: State)
    requires Frames.Extends(s, t, Aside) && t.io.paused == s.io.paused
    ensures Follows(s, t) && Freely(s, t)
  {
    AsideLog(s.io.paused, t.io.log, |s.io.log|);
  }

  lemma One(s: State, t: State, event: Event)
    requires t.io.log == s.io.log + [event] && t.io.paused == Apply(s.io.paused, event)
    ensures Follows(s, t) && (Freely(s, t) <==> !Waits(event, s.io.paused))
  {
    var n := |s.io.log|;
    assert |t.io.log| == n + 1 && t.io.log[..n] == s.io.log && t.io.log[n] == event;
    assert PausedAfter(s.io.paused, s.io.log, n) == s.io.paused && Free(s.io.paused, s.io.log, n);
  }

  /** Two events, the first of which leaves open what the second finds paused. */
  lemma Two(s: State, t: State, first: Event, second: Event)
    requires t.io.log == s.io.log + [first] + [second] && t.io.paused == Apply(Apply(s.io.paused, first), second)
    ensures Follows(s, t)
    ensures Freely(s, t) <==> !Waits(first, s.io.paused) && !Waits(second, Apply(s.io.paused, first))
  {
    var u := s.(io := s.io.(paused := Apply(s.io.paused, first), log := s.io.log + [first]));
    One(s, u, first);
    One(u, t, second);
    Then(s, u, t);
  }

  // -- the failover ---------------------------------------------------------

  /** The endpoint's channel is paused: an upgrade is in flight on it. */
  predicate OnHold(s: State, e: EndpointId) {
    e in s.registry && s.registry[e] in s.io.paused
  }

  /** Attempting `m` brings it up, so that the offer is written. */
  predicate ComesUp(env: Env, s: State, e: EndpointId, m: Medium) {
    && Viable(s, e, m)
    && HandlerSpec.Init(env.outcome, |s.io.log|, m, s.handlers[m], s.registry[e].serviceId, e).ok
  }

  lemma UndoingIsFree(s: State, t: State, e: EndpointId)
    requires Frames.Extends(s, t, event => Frames.ByUndoing(event, e)) && t.io.paused == s.io.paused
    ensures Follows(s, t) && Freely(s, t)
  {
    Quietly(s, t);
  }

  lemma FailureIsFree(env: Env, s: State, e: EndpointId, last: Medium, t: State)
    requires t == FailureOnce(env, s, e, last).state
    ensures Follows(s, t) && Freely(s, t) && t.registry == s.registry && t.io.paused == s.io.paused
  {
    Frames.FailureFrame(env, s, e, last);
    UndoingIsFree(s, t, e);
  }

  lemma NextBestIsFree(env: Env, s: State, e: EndpointId, untried: seq<Medium>, t: State)
    requires t == NextBestOnce(env, s, e, untried).state
    ensures Follows(s, t) && Freely(s, t) && t.registry == s.registry && t.io.paused == s.io.paused
  {
    Frames.NextBestFrame(env, s, e, untried);
    UndoingIsFree(s, t, e);
  }

  lemma AlarmIsFree(env: Env, s: State, e: EndpointId, t: State)
    requires t == FireAlarm(env, s, e).state
    ensures Follows(s, t) && Freely(s, t) && t.registry == s.registry && t.io.paused == s.io.paused
  {
    var s1 := CancelAlarm(s, e);
    if e in s.retry.alarms && ClientOf(s, e).connected {
      NextBestIsFree(env, s1, e, ClientOf(s, e).mediums, t);
    }
  }

  lemma InitIsAside(outcome: Outcomes, now: nat, m: Medium, h: HandlerSpec.Handler, service: ServiceId, e: EndpointId)
    ensures var r := HandlerSpec.Init(outcome, now, m, h, service, e); forall i :: 0 <= i < |r.log| ==> Aside(r.log[i])
  {
  }

  /** An offer is written exactly if the medium comes up, and then waits exactly if the channel is paused. */
  lemma OfferWaits(env: Env, s: State, e: EndpointId, m: Medium, t: State)
    requires HasHandler(s, m) && e in s.registry && t == MakeOffer(env, s, e, m).0
    ensures Follows(s, t) && t.registry == s.registry && t.io.paused == s.io.paused
    ensures var up := HandlerSpec.Init(env.outcome, |s.io.log|, m, s.handlers[m], s.registry[e].serviceId, e).ok;
      Freely(s, t) <==> !(up && OnHold(s, e))
  {
    var c := s.registry[e];
    var r := HandlerSpec.Init(env.outcome, |s.io.log|, m, s.handlers[m], c.serviceId, e);
    InitIsAside(env.outcome, |s.io.log|, m, s.handlers[m], c.serviceId, e);
    var s1 := WithHandler(s, m, r);
    Quietly(s, s1);
    if r.ok {
      One(s1, t, Wrote(e, c, Offer(m), Next(env, s1.io.log)));
      Then(s, s1, t);
    }
  }

  /** One round of an initiation waits exactly if it makes an offer on a paused channel. */
  lemma RoundWaits(env: Env, s: State, e: EndpointId, m: Medium, t: State)
    requires t == InitiateOnce(env, s, e, m).state
    ensures Follows(s, t) && t.registry == s.registry && t.io.paused == s.io.paused
    ensures Freely(s, t) <==> !(ComesUp(env, s, e, m) && OnHold(s, e))
  {
    var s1 := Readied(env, s, e, m);
    Frames.PreliminariesFrame(env, s, e, m);
    if Viable(s, e, m) {
      var s2 := MakeOffer(env, s1, e, m).0;
      OfferWaits(env, s1, e, m, s2);
      MissThenFree(env, s1, e, m, s2, t);
    } else {
      Quietly(s, t);
    }
  }

  lemma MissThenFree(env: Env, s: State, e: EndpointId, m: Medium, s1: State, t: State)
    requires HasHandler(s, m) && e in s.registry && s1 == MakeOffer(env, s, e, m).0 && t == Attempt(env, s, e, m).state
    requires Follows(s, s1) && s1.registry == s.registry && s1.io.paused == s.io.paused
    ensures Follows(s, t) && t.registry == s.registry && t.io.paused == s.io.paused && (Freely(s, t) <==> Freely(s, s1))
  {
    if MakeOffer(env, s, e, m).1 {
      assert t.io == s1.io;
    } else {
      FailureIsFree(env, s1, e, OnWire(m), t);
      Then(s, s1, t);
    }
  }

  /** Some round after the first attempts a medium that comes up. */
  ghost predicate Reaches(env: Env, e: EndpointId, os: seq<Outcome>) {
    exists i :: 0 <= i < |os| && os[i].Again? && ComesUp(env, os[i].state, e, os[i].medium)
  }

  lemma ReachesTail(env: Env, e: EndpointId, os: seq<Outcome>)
    requires |os| > 1 && os[0].Again?
    ensures Reaches(env, e, os) <==> ComesUp(env, os[0].state, e, os[0].medium) || Reaches(env, e, os[1..])
  {
    if Reaches(env, e, os) && !ComesUp(env, os[0].state, e, os[0].medium) {
      var i :| 0 <= i < |os| && os[i].Again? && ComesUp(env, os[i].state, e, os[i].medium);
      assert os[1..][i - 1] == os[i];
    }
    if Reaches(env, e, os[1..]) {
      var i :| 0 <= i < |os[1..]| && os[1..][i].Again? && ComesUp(env, os[1..][i].state, e, os[1..][i].medium);
      assert os[i + 1] == os[1..][i];
    }
  }

  /** The rounds after the first leave registry and pauses alone, and wait exactly if they make an offer on a paused channel. */
  lemma {:induction false} RoundsWait(env: Env, e: EndpointId, os: seq<Outcome>)
    requires Rounds(env, e, os)
    ensures var s, t := os[0].state, os[|os| - 1].state;
      && Follows(s, t) && t.registry == s.registry && t.io.paused == s.io.paused
      && (Freely(s, t) <==> !(OnHold(s, e) && Reaches(env, e, os)))
    decreases |os|
  {
    if |os| == 1 {
      Quietly(os[0].state, os[0].state);
    } else {
      var s, u, t := os[0].state, os[1..][0].state, os[|os| - 1].state;
      RoundsTail(env, e, os);
      RoundWaits(env, s, e, os[0].medium, u);
      RoundsWait(env, e, os[1..]);
      ReachesTail(env, e, os);
      Then(s, u, t);
    }
  }

  /** From a first round that waits for nothing. */
  lemma FailoverWaits(env: Env, s: State, e: EndpointId, os: seq<Outcome>)
    requires Rounds(env, e, os)
    requires var u := os[0].state; Follows(s, u) && Freely(s, u) && u.registry == s.registry && u.io.paused == s.io.paused
    ensures var t := os[|os| - 1].state;
      && Follows(s, t) && t.registry == s.registry && t.io.paused == s.io.paused
      && (Freely(s, t) <==> !(OnHold(s, e) && Reaches(env, e, os)))
  {
    RoundsWait(env, e, os);
    Then(s, os[0].state, os[|os| - 1].state);
  }

  /**
   * A failover changes neither the registry nor what is paused. It is held up exactly if the endpoint's channel is
   * paused and it gets to a medium that comes up: in a reported failure, in a due retry, in an initiation.
   */
  lemma FailureWaits(env: Env, s: State, e: EndpointId, last: Medium, os: seq<Outcome>)
    requires Rounds(env, e, os) && os[0] == FailureOnce(env, s, e, last)
    ensures var t := os[|os| - 1].state;
      && Follows(s, t) && t.registry == s.registry && t.io.paused == s.io.paused
      && (Freely(s, t) <==> !(OnHold(s, e) && Reaches(env, e, os)))
  {
    FailureIsFree(env, s, e, last, os[0].state);
    FailoverWaits(env, s, e, os);
  }

  lemma AlarmWaits(env: Env, s: State, e: EndpointId, os: seq<Outcome>)
    requires Rounds(env, e, os) && os[0] == FireAlarm(env, s, e)
    ensures var t := os[|os| - 1].state;
      && Follows(s, t) && t.registry == s.registry && t.io.paused == s.io.paused
      && (Freely(s, t) <==> !(OnHold(s, e) && Reaches(env, e, os)))
  {
    AlarmIsFree(env, s, e, os[0].state);
    FailoverWaits(env, s, e, os);
  }

  lemma InitiationWaits(env: Env, s: State, e: EndpointId, m: Medium, os: seq<Outcome>)
    requires Rounds(env, e, os) && os[0] == InitiateOnce(env, s, e, m)
    ensures var t := os[|os| - 1].state;
      && Follows(s, t) && t.registry == s.registry && t.io.paused == s.io.paused
      && (Freely(s, t) <==> !(OnHold(s, e) && (ComesUp(env, s, e, m) || Reaches(env, e, os))))
  {
    RoundWaits(env, s, e, m, os[0].state);
    RoundsWait(env, e, os);
    Then(s, os[0].state, os[|os| - 1].state);
  }

  // -- the other writes -----------------------------------------------------

  lemma RevertIsFree(env: Env, s: State, service: ServiceId, e: EndpointId, t: State)
    requires t == Revert(env, s, service, e)
    ensures Follows(s, t) && Freely(s, t) && t.io.paused == s.io.paused
  {
    Frames.RevertFrame(env, s, service, e);
    Quietly(s, t);
  }

  /** Refusing an offer is held up exactly if the channel is paused. */
  lemma RefusalWaits(env: Env, s: State, e: EndpointId, info: PathInfo, t: State)
    requires t == FailedProtocol(env, s, e, info)
    ensures Follows(s, t) && t.registry == s.registry && t.io.paused == s.io.paused
    ensures Freely(s, t) <==> !OnHold(s, e)
  {
    if e !in s.registry {
      Quietly(s, t);
    } else {
      var wrote := Wrote(e, s.registry[e], UpgradeFailed(info), Next(env, s.io.log));
      var s1 := Emit(s, wrote);
      One(s, s1, wrote);
      ToldThenFree(env, s1, e, s.registry[e], wrote.ok, t);
      Then(s, s1, t);
    }
  }

  lemma ToldThenFree(env: Env, s: State, e: EndpointId, c: Channel, ok: bool, t: State)
    requires t == if ok then Stopped(if MediumFor(env, s, e) != UnknownMedium then Revert(env, s, c.serviceId, e) else s, e)
                  else Emit(s, Closed(e, c, IoError))
    ensures Follows(s, t) && Freely(s, t) && t.registry == s.registry && t.io.paused == s.io.paused
  {
    Frames.RevertFrame(env, s, c.serviceId, e);
    Quietly(s, t);
  }

  /** SAFE_TO_CLOSE is held up exactly if the parked channel is paused. */
  lemma LastWriteWaits(env: Env, s: State, e: EndpointId, t: State)
    requires t == OnLastWrite(env, s, e)
    ensures Follows(s, t) && t.registry == s.registry && t.io.paused == s.io.paused
    ensures Freely(s, t) <==> !(e in s.up.parked && s.up.parked[e] in s.io.paused)
  {
    if e !in s.up.parked {
      Quietly(s, t);
    } else {
      var wrote := Wrote(e, s.up.parked[e], SafeToClose, Next(env, s.io.log));
      if wrote.ok {
        One(s, t, wrote);
      } else {
        Two(s, t, wrote, Closed(e, s.up.parked[e], IoError));
      }
    }
  }

  /** So is DISCONNECTION. */
  lemma SafeToCloseWaits(env: Env, s: State, e: EndpointId, t: State)
    requires t == OnSafeToClose(env, s, e)
    ensures Follows(s, t) && t.registry == s.registry
    ensures t.io.paused == if e in s.up.parked && e in s.registry then s.io.paused - {s.registry[e]} else s.io.paused
    ensures Freely(s, t) <==> !(e in s.up.parked && s.up.parked[e] in s.io.paused)
  {
    if e !in s.up.parked {
      Quietly(s, t);
    } else {
      var prev, off := s.up.parked[e], EncryptionOff(e, s.up.parked[e]);
      var wrote := Wrote(e, prev, Disconnection, Next(env, s.io.log + [off]));
      var s1 := s.(io := s.io.(log := s.io.log + [off] + [wrote]));
      var s2 := s.(io := s.io.(log := s1.io.log + [DrainRead(e, prev)] + [Closed(e, prev, Upgraded)]));
      Two(s, s1, off, wrote);
      Two(s1, s2, DrainRead(e, prev), Closed(e, prev, Upgraded));
      Then(s, s1, s2);
      if e in s.registry {
        Two(s2, t, Resumed(s.registry[e]), BandwidthChanged(e, s.registry[e].medium));
        Then(s, s2, t);
      } else {
        assert t.io == s2.io;
      }
    }
  }

  /** A swap is held up exactly if the channel it displaces is paused, or is the new one. */
  lemma SwapWaits(env: Env, s: State, e: EndpointId, c: Channel, t: State)
    requires t == RunProtocol(env, s, e, c)
    ensures Follows(s, t) && t.io.paused == s.io.paused + {c}
    ensures Freely(s, t) <==> !(e in s.registry && s.registry[e] in s.io.paused + {c})
  {
    if e !in s.registry {
      One(s, t, Paused(c));
    } else {
      var prior := s.registry[e];
      var swapped := s.io.log + [Paused(c)] + [Registered(e, c)];
      var wrote := Wrote(e, prior, LastWrite, Next(env, swapped));
      var s1 := s.(io := s.io.(paused := s.io.paused + {c}, log := swapped));
      var s2 := s.(registry := s.registry[e := c], io := s.io.(paused := s.io.paused + {c}, log := swapped + [wrote]));
      Two(s, s1, Paused(c), Registered(e, c));
      One(s1, s2, wrote);
      Then(s, s1, s2);
      if wrote.ok {
        ParkWaits(env, s2, e, prior, t);
        Then(s, s2, t);
      }
    }
  }

  lemma ParkWaits(env: Env, s: State, e: EndpointId, prior: Channel, t: State)
    requires t == Park(env, s, e, prior)
    ensures Follows(s, t) && t.io.paused == s.io.paused
    ensures Freely(s, t) <==> !(e in s.up.latched && prior in s.io.paused)
  {
    var log := if e in s.up.parked then s.io.log + [Released(e, s.up.parked[e])] else s.io.log;
    var s1 := s.(up := s.up.(parked := s.up.parked[e := prior], latched := s.up.latched - {e}), io := s.io.(log := log));
    if e in s.up.parked {
      One(s, s1, Released(e, s.up.parked[e]));
    } else {
      Quietly(s, s1);
    }
    if e in s.up.latched {
      LastWriteWaits(env, s1, e, t);
      Then(s, s1, t);
    }
  }
}
