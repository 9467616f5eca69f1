/** The actor that owns the manager: it applies one command or one batch of due retries at a time. */
module ActorObject {
  import opened Wrappers
  import opened ServiceIds
  import opened Protocol
  import opened BwuSpec
  import opened Objects
  import opened Manager
  import opened Timers

  function Elements(es: seq<EndpointId>): set<EndpointId> {
    set e | e in es
  }

  lemma OneMore(armed: Deadlines, due: seq<EndpointId>, i: nat)
    requires i < |due|
    ensures armed - Elements(due[..i]) - {due[i]} == armed - Elements(due[..i + 1])
  {
    assert due[..i + 1] == due[..i] + [due[i]];
    assert Elements(due[..i + 1]) == Elements(due[..i]) + {due[i]};
  }

  /** The deadlines kept and those added make up the reconciled ones. */
  lemma AllArmed(before: Deadlines, pending: map<EndpointId, nat>, now: nat, kept: Deadlines, after: Deadlines)
    requires kept == map e | e in before && e in pending :: before[e]
    requires after.Keys == kept.Keys + pending.Keys
    requires forall e :: e in after ==> after[e] == if e in kept then kept[e] else now + pending[e]
    ensures after == Reconciled(before, pending, now)
  {
  }

  /** Who was armed for later stays armed for then; the other pending retries are armed anew. */
  lemma Rearmed(armed: Deadlines, now: nat, alarms: map<EndpointId, nat>, later: nat)
    ensures var after := Reconciled(armed - Due(armed, now), alarms, later);
      && after.Keys == alarms.Keys
      && forall e :: e in after ==> after[e] == if e in armed && now < armed[e] then armed[e] else later + alarms[e]
  {
  }

  class BwuActor {
    const manager: BwuManager
    var armed: Deadlines

    constructor (manager: BwuManager)
      ensures this.manager == manager && armed == map[]
    {
      this.manager := manager;
      armed := map[];
    }

    /** Apply one command to the manager, the client or the registry. */
    method Handle(op: Op, ghost rounds: seq<Outcome>)
      requires Rounds(manager.world.env, Subject(op), rounds)
      requires rounds[0] == Begin(manager.world.env, manager.S(), op)
      modifies manager, manager.ecm, manager.client, manager.world
      ensures manager.S() == rounds[|rounds| - 1].state
    {
      match op {
        case Initiate(e, m) => manager.InitiateBwuForEndpoint(e, m, rounds);
        case ResetUpgrade(e) => manager.ResetUpgradeForEndpoint(e);
        case IncomingFrame(e, f) => manager.OnBwuNegotiationFrame(e, f, rounds);
        case IncomingConnection(c, introduced) => manager.OnIncomingConnection(c, introduced);
        case EndpointDisconnect(service, e) => manager.OnEndpointDisconnect(service, e);
        case AlarmFires(e) => manager.FireRetryAlarm(e, rounds);
        case Stop => manager.ShutDownManager();
        case _ => HandleElsewhere(op);
      }
    }

    /** Commands for the registry and the client. */
    method HandleElsewhere(op: Op)
      requires op.RegisterChannel? || op.UnregisterChannel? || op.ConnectionInitiated? || op.ConnectionAccepted?
            || op.ClientDisconnected? || op.SetUpgradeMediums?
      modifies manager.ecm, manager.client, manager.world
      ensures Begin(manager.world.env, old(manager.S()), op) == Done(manager.S())
    {
      match op {
        case RegisterChannel(e, c) =>
          manager.ecm.RegisterChannelForEndpoint(e, c);
          manager.world.Meet(c);
          manager.world.Emit(Registered(e, c));
        case UnregisterChannel(e) =>
          var _ := manager.ecm.UnregisterChannelForEndpoint(e);
          manager.world.Emit(Unregistered(e));
        case ConnectionInitiated(e, incoming) =>
          manager.client.Update(e, manager.client.Get(e).(incoming := incoming));
        case ConnectionAccepted(e) => manager.client.Update(e, manager.client.Get(e).(connected := true));
        case ClientDisconnected(e) => manager.client.OnDisconnected(e);
        case SetUpgradeMediums(e, mediums) => manager.client.Update(e, manager.client.Get(e).(mediums := mediums));
      }
    }

    /** Endpoints with a timer that has run out. */
    method DueAt(now: nat) returns (due: set<EndpointId>)
      ensures due == Due(armed, now)
      ensures forall e :: e in due <==> e in armed && armed[e] <= now
    {
      due := set e | e in armed && armed[e] <= now;
    }

    /** `order` is the one in which the map of timers is walked; `calls` has no run-time counterpart. */
    method FireDueRetries(now: nat, later: nat, order: set<EndpointId> -> seq<EndpointId>, ghost calls: seq<Call>)
      requires now <= later && Enumerates(order(Due(armed, now)), Due(armed, now))
      requires Fires(order(Due(armed, now)), calls) && Execution(manager.world.env, manager.S(), calls)
      modifies this, manager, manager.ecm, manager.client, manager.world
      ensures manager.S() == End(old(manager.S()), calls)
      ensures armed == Reconciled(old(armed) - Due(old(armed), now), manager.S().retry.alarms, later)
      ensures armed.Keys == manager.S().retry.alarms.Keys
      ensures forall e :: e in armed ==>
        armed[e] == if e in old(armed) && now < old(armed)[e] then old(armed)[e] else later + manager.S().retry.alarms[e]
    {
      var due := DueAt(now);
      var batch := order(due);
      ghost var states := StatesOf(manager.world.env, manager.S(), calls);
      FireEach(batch, calls, states);
      assert Elements(batch) == due;
      ReconcileTimers(later);
      Rearmed(old(armed), now, manager.S().retry.alarms, later);
    }

    method FireEach(due: seq<EndpointId>, ghost calls: seq<Call>, ghost states: seq<State>)
      requires Fires(due, calls) && |states| == |calls| + 1 && states[0] == manager.S()
      requires forall i :: 0 <= i < |calls| ==> Leads(manager.world.env, states[i], calls[i], states[i + 1])
      modifies this, manager, manager.ecm, manager.client, manager.world
      ensures manager.S() == states[|calls|]
      ensures armed == old(armed) - Elements(due)
    {
      ghost var before := armed;
      var i := 0;
      while i < |due|
        invariant i <= |due|
        invariant manager.S() == states[i]
        invariant armed == before - Elements(due[..i])
      {
        OneMore(before, due, i);
        FireOne(due[i], calls[i], states[i + 1]);
        i := i + 1;
      }
      assert due[..i] == due;
    }

    method FireOne(e: EndpointId, ghost call: Call, ghost next: State)
      requires call.op == AlarmFires(e) && Leads(manager.world.env, manager.S(), call, next)
      modifies this, manager, manager.ecm, manager.client, manager.world
      ensures manager.S() == next
      ensures armed == old(armed) - {e}
    {
      armed := armed - {e};
      manager.FireRetryAlarm(e, call.rounds);
    }

    method ReconcileTimers(now: nat)
      modifies this
      ensures armed == Reconciled(old(armed), manager.S().retry.alarms, now)
    {
      var pending := manager.retryUpgradeAlarms;
      armed := map e | e in armed && e in pending :: armed[e];
      ghost var kept := armed;
      var todo := pending.Keys;
      while todo != {}
        invariant todo <= pending.Keys
        invariant armed.Keys == kept.Keys + (pending.Keys - todo)
        invariant forall e :: e in armed ==> armed[e] == if e in kept then kept[e] else now + pending[e]
        decreases |todo|
      {
        var e :| e in todo;
        if e !in armed {
          armed := armed[e := now + pending[e]];
        }
        todo := todo - {e};
      }
      AllArmed(old(armed), pending, now, kept, armed);
    }
  }
}
