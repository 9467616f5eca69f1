/** When retries fire: exactly when they are due, each at the deadline it was given when it was first seen pending. */
module Punctual {
  import opened Wrappers
  import opened Protocol
  import opened ServiceIds
  import opened BwuSpec
  import opened Timers

  // -- one turn -------------------------------------------------------------

  /** A turn of the timer fires those endpoints whose deadline has come, each once, and no other. */
  lemma FiresExactlyTheDue(env: Env, a: Actor, turn: Turn, b: Actor)
    requires Takes(env, a, turn, b) && turn.Timer?
    ensures forall e ::
      (exists i :: 0 <= i < |turn.calls| && turn.calls[i].op == AlarmFires(e)) <==> e in a.armed && a.armed[e] <= turn.now
    ensures forall i, j :: 0 <= i < j < |turn.calls| ==> turn.calls[i].op != turn.calls[j].op
  {
    forall e
      ensures (exists i :: 0 <= i < |turn.calls| && turn.calls[i].op == AlarmFires(e)) <==>
        e in a.armed && a.armed[e] <= turn.now
    {
      FiredIffDue(env, a, turn, b, e);
    }
  }

  lemma FiredIffDue(env: Env, a: Actor, turn: Turn, b: Actor, e: EndpointId)
    requires Takes(env, a, turn, b) && turn.Timer?
    ensures (exists i :: 0 <= i < |turn.calls| && turn.calls[i].op == AlarmFires(e)) <==> e in turn.due
    ensures e in turn.due <==> e in a.armed && a.armed[e] <= turn.now
  {
    if e in turn.due {
      var i :| 0 <= i < |turn.due| && turn.due[i] == e;
      assert turn.calls[i].op == AlarmFires(e);
    }
  }

  /** Whoever is armed for later keeps the pending retry, its delay and its deadline. */
  lemma LaterStays(env: Env, a: Actor, turn: Turn, b: Actor, e: EndpointId)
    requires Resolved(env.config) && ActorInv(env, a) && Takes(env, a, turn, b)
    requires turn.Timer? && e in a.armed && turn.now < a.armed[e]
    ensures e in a.manager.retry.alarms && e in b.manager.retry.alarms
      && b.manager.retry.alarms[e] == a.manager.retry.alarms[e]
    ensures e in b.armed && b.armed[e] == a.armed[e]
  {
    assert Timely(env, a, e);
    FiredIffDue(env, a, turn, b, e);
    WholeBatchRetries(env, a.manager, turn.due, turn.calls, e);
  }

  /** The turn fires the retry of `e`. */
  predicate FiresIn(turn: Turn, e: EndpointId) {
    turn.Timer? && exists i :: 0 <= i < |turn.calls| && turn.calls[i].op == AlarmFires(e)
  }

  /**
   * After any turn exactly the pending retries are armed: those armed before and not fired at their old deadline,
   * the others for the end of the turn plus their delay.
   */
  lemma TurnArms(env: Env, a: Actor, turn: Turn, b: Actor, e: EndpointId)
    requires Takes(env, a, turn, b)
    ensures e in b.armed <==> e in b.manager.retry.alarms
    ensures e in b.armed ==>
      b.armed[e] == if e in a.armed && !FiresIn(turn, e) then a.armed[e] else b.clock + b.manager.retry.alarms[e]
  {
    if turn.Timer? {
      FiredIffDue(env, a, turn, b, e);
      TimerArms(env, a, turn, b, e);
    }
  }

  lemma TimerArms(env: Env, a: Actor, turn: Turn, b: Actor, e: EndpointId)
    requires Takes(env, a, turn, b) && turn.Timer? && (e in turn.due <==> e in a.armed && a.armed[e] <= turn.now)
    ensures e in b.armed <==> e in b.manager.retry.alarms
    ensures e in b.armed ==>
      b.armed[e] == if e in a.armed && e !in turn.due then a.armed[e] else b.clock + b.manager.retry.alarms[e]
  {
  }

  // -- whole runs -----------------------------------------------------------

  /** Since turn `j` the retry of `e` has been armed for one deadline, set when that turn ended. */
  predicate ArmedSince(actors: seq<Actor>, j: nat, k: nat, e: EndpointId)
    requires j <= k < |actors|
  {
    && e in actors[k].armed
    && (forall i :: j <= i <= k ==> e in actors[i].armed && actors[i].armed[e] == actors[k].armed[e])
    && e in actors[j].manager.retry.alarms
    && actors[k].armed[e] == actors[j].clock + actors[j].manager.retry.alarms[e]
  }

  lemma TurnBefore(env: Env, mediums: set<Medium>, actors: seq<Actor>, turns: seq<Turn>, k: nat, e: EndpointId)
    requires Run(env, mediums, actors, turns) && k < |actors| && e in actors[k].armed
    ensures k > 0 && e in actors[k].manager.retry.alarms
    ensures actors[k].armed[e] == if e in actors[k - 1].armed && !FiresIn(turns[k - 1], e) then actors[k - 1].armed[e]
                                  else actors[k].clock + actors[k].manager.retry.alarms[e]
  {
    if k > 0 {
      assert Takes(env, actors[k - 1], turns[k - 1], actors[k - 1 + 1]);
      TurnArms(env, actors[k - 1], turns[k - 1], actors[k], e);
    }
  }

  lemma StillArmed(actors: seq<Actor>, j: nat, k: nat, e: EndpointId)
    requires j <= k < |actors| - 1 && ArmedSince(actors, j, k, e)
    requires e in actors[k + 1].armed && actors[k + 1].armed[e] == actors[k].armed[e]
    ensures ArmedSince(actors, j, k + 1, e)
  {
  }

  /** What each turn does to the deadline of `e`. */
  ghost predicate Rearms(actors: seq<Actor>, turns: seq<Turn>, e: EndpointId) {
    && |actors| == |turns| + 1 && e !in actors[0].armed
    && forall k :: 0 < k < |actors| && e in actors[k].armed ==>
         && e in actors[k].manager.retry.alarms
         && actors[k].armed[e] == if e in actors[k - 1].armed && !FiresIn(turns[k - 1], e) then actors[k - 1].armed[e]
                                  else actors[k].clock + actors[k].manager.retry.alarms[e]
  }

  lemma RunRearms(env: Env, mediums: set<Medium>, actors: seq<Actor>, turns: seq<Turn>, e: EndpointId)
    requires Run(env, mediums, actors, turns)
    ensures Rearms(actors, turns, e)
  {
    forall k | 0 < k < |actors| && e in actors[k].armed
      ensures e in actors[k].manager.retry.alarms
      ensures actors[k].armed[e] == if e in actors[k - 1].armed && !FiresIn(turns[k - 1], e) then actors[k - 1].armed[e]
                                    else actors[k].clock + actors[k].manager.retry.alarms[e]
    {
      TurnBefore(env, mediums, actors, turns, k, e);
    }
  }

  /** Every deadline is the moment the retry was first seen pending, plus the delay it had then. */
  lemma {:induction false} DeadlineSet(actors: seq<Actor>, turns: seq<Turn>, k: nat, e: EndpointId) returns (j: nat)
    requires Rearms(actors, turns, e) && k < |actors| && e in actors[k].armed
    ensures 0 < j <= k && ArmedSince(actors, j, k, e)
    ensures e !in actors[j - 1].armed || FiresIn(turns[j - 1], e)
    decreases k
  {
    if e in actors[k - 1].armed && !FiresIn(turns[k - 1], e) {
      j := DeadlineSet(actors, turns, k - 1, e);
      StillArmed(actors, j, k - 1, e);
    } else {
      j := k;
    }
  }

  /**
   * No retry ever fires early: when the actor fires one, at least the delay it had when it was first seen pending has
   * passed since then, and all that time it was armed for that deadline.
   */
  lemma NeverEarly(env: Env, mediums: set<Medium>, actors: seq<Actor>, turns: seq<Turn>, k: nat,
      e: EndpointId) returns (j: nat)
    requires Run(env, mediums, actors, turns) && k < |turns| && FiresIn(turns[k], e)
    ensures 0 < j <= k && ArmedSince(actors, j, k, e)
    ensures actors[j].clock + actors[j].manager.retry.alarms[e] <= turns[k].now
    ensures e !in actors[j - 1].armed || FiresIn(turns[j - 1], e)
  {
    assert Takes(env, actors[k], turns[k], actors[k + 1]);
    FiredIffDue(env, actors[k], turns[k], actors[k + 1], e);
    RunRearms(env, mediums, actors, turns, e);
    j := DeadlineSet(actors, turns, k, e);
  }
}
