/** The upgrade manager as an object, with the registry, the client and the outside world beside it. */
module Objects {
  import opened ServiceIds
  import opened Protocol
  import BwuSpec

  /** `EndpointChannelManager`: which channel each endpoint currently uses. */
  class EndpointChannelManager {
    var endpoints: map<EndpointId, Channel>

    constructor ()
      ensures endpoints == map[]
    {
      endpoints := map[];
    }

    method RegisterChannelForEndpoint(e: EndpointId, c: Channel)
      modifies this
      ensures endpoints == old(endpoints)[e := c]
    {
      endpoints := endpoints[e := c];
    }

    method ReplaceChannelForEndpoint(e: EndpointId, c: Channel)
      modifies this
      ensures endpoints == old(endpoints)[e := c]
    {
      endpoints := endpoints[e := c];
    }

    method UnregisterChannelForEndpoint(e: EndpointId) returns (existed: bool)
      modifies this
      ensures endpoints == old(endpoints) - {e}
      ensures existed == (e in old(endpoints))
    {
      existed := e in endpoints;
      endpoints := endpoints - {e};
    }

    predicate IsWifiLanConnected()
      reads this
    {
      exists e :: e in endpoints && endpoints[e].medium == WifiLan
    }
  }

  /** `ClientProxy`, as far as the manager looks at it. */
  class ClientProxy {
    var endpoints: map<EndpointId, BwuSpec.Client>

    constructor ()
      ensures endpoints == map[]
    {
      endpoints := map[];
    }

    function Get(e: EndpointId): BwuSpec.Client
      reads this
    {
      if e in endpoints then endpoints[e] else BwuSpec.UNSEEN
    }

    method Update(e: EndpointId, c: BwuSpec.Client)
      modifies this
      ensures endpoints == old(endpoints)[e := c]
    {
      endpoints := endpoints[e := c];
    }

    method OnDisconnected(e: EndpointId)
      modifies this
      ensures endpoints == old(endpoints) - {e}
    {
      endpoints := endpoints - {e};
    }
  }

  /** The channels' shared state and the log of every operation; outcomes come from `env`. */
  class World {
    const env: Env
    var paused: set<Channel>
    var nextChannel: nat
    var log: Log

    constructor (env: Env)
      ensures this.env == env && paused == {} && nextChannel == 0 && log == []
    {
      this.env := env;
      paused, nextChannel, log := {}, 0, [];
    }

    method Emit(event: Event)
      modifies this`log
      ensures log == old(log) + [event]
    {
      log := log + [event];
    }

    method Write(e: EndpointId, c: Channel, f: Frame) returns (ok: bool)
      modifies this`log
      ensures ok == env.outcome(|old(log)|)
      ensures log == old(log) + [Wrote(e, c, f, ok)]
    {
      ok := env.outcome(|log|);
      log := log + [Wrote(e, c, f, ok)];
    }

    method Pause(c: Channel)
      modifies this`log, this`paused
      ensures paused == old(paused) + {c} && log == old(log) + [Paused(c)]
    {
      paused, log := paused + {c}, log + [Paused(c)];
    }

    method Resume(c: Channel)
      modifies this`log, this`paused
      ensures paused == old(paused) - {c} && log == old(log) + [Resumed(c)]
    {
      paused, log := paused - {c}, log + [Resumed(c)];
    }

    method Close(e: EndpointId, c: Channel, reason: Reason)
      modifies this`log
      ensures log == old(log) + [Closed(e, c, reason)]
    {
      log := log + [Closed(e, c, reason)];
    }

    /** Take note of a channel someone else made. */
    method Meet(c: Channel)
      modifies this`nextChannel
      ensures nextChannel == if c.id < old(nextChannel) then old(nextChannel) else c.id + 1
    {
      if nextChannel <= c.id {
        nextChannel := c.id + 1;
      }
    }
  }
}

module Manager {
  import opened Wrappers
  import opened ServiceIds
  import opened Protocol
  import opened BwuSpec
  import opened Objects
  import Failover
  import Frames
  import Waiting
  import HandlerSpec

  class BwuManager {
    const ecm: EndpointChannelManager
    const client: ClientProxy
    const world: World

    var handlers: map<Medium, HandlerSpec.Handler>
    var medium: Medium
    var endpointIdToBwuMedium: map<EndpointId, Medium>
    var inProgressUpgrades: set<EndpointId>
    var previousEndpointChannels: map<EndpointId, Channel>
    var successfullyUpgradedEndpoints: set<EndpointId>
    var retryUpgradeAlarms: map<EndpointId, nat>
    var retryDelays: map<EndpointId, nat>

    /** The state that the functions of `BwuSpec` speak about. */
    function S(): State
      reads this, ecm, client, world
    {
      State(handlers, Mediums(medium, endpointIdToBwuMedium),
            Upgrades(inProgressUpgrades, previousEndpointChannels, successfullyUpgradedEndpoints),
            Retries(retryUpgradeAlarms, retryDelays), ecm.endpoints, client.endpoints,
            Io(world.paused, world.nextChannel, world.log))
    }

    constructor (config: Config, outcome: Outcomes, order: set<ServiceId> -> seq<ServiceId>,
                handlerOrder: set<Medium> -> seq<Medium>, mediums: set<Medium>)
      ensures fresh(ecm) && fresh(client) && fresh(world)
      ensures S() == Fresh(mediums)
      ensures world.env == Env(Resolve(config), outcome, order, handlerOrder)
    {
      ecm := new EndpointChannelManager();
      client := new ClientProxy();
      world := new World(Env(Resolve(config), outcome, order, handlerOrder));
      handlers := map m | m in mediums :: HandlerSpec.NEW;
      medium := UnknownMedium;
      endpointIdToBwuMedium := map[];
      inProgressUpgrades, successfullyUpgradedEndpoints := {}, {};
      previousEndpointChannels, retryUpgradeAlarms, retryDelays := map[], map[], map[];
    }

    predicate IsUpgradeOngoing(e: EndpointId)
      reads this
    {
      e in inProgressUpgrades
    }

    function GetBwuMediumForEndpoint(e: EndpointId): (m: Medium)
      reads this, ecm, client, world
      ensures m == MediumFor(world.env, S(), e)
    {
      if world.env.config.multipleMediums then
        if e in endpointIdToBwuMedium then endpointIdToBwuMedium[e] else UnknownMedium
      else
        medium
    }

    method SetBwuMediumForEndpoint(e: EndpointId, m: Medium)
      modifies this
      ensures S() == SetMedium(world.env, old(S()), e, m)
    {
      if world.env.config.multipleMediums {
        endpointIdToBwuMedium := endpointIdToBwuMedium[e := m];
      } else {
        medium := m;
      }
    }

    predicate HasHandlerForMedium(m: Medium)
      reads this
    {
      m != UnknownMedium && m in handlers
    }

    /** Let the handler for `m` do its work; the handlers belong to this object alone. */
    method Use(m: Medium, r: HandlerSpec.Result)
      modifies this, world
      ensures S() == WithHandler(old(S()), m, r)
    {
      handlers := handlers[m := r.handler];
      world.log := world.log + r.log;
    }

    // -- initiator ----------------------------------------------------------

    /** `rounds` lays out how often the failover comes back here; it has no run-time counterpart. */
    method InitiateBwuForEndpoint(e: EndpointId, proposed: Medium, ghost rounds: seq<Outcome>)
      requires Rounds(world.env, e, rounds) && rounds[0] == InitiateOnce(world.env, S(), e, proposed)
      modifies this, ecm, client, world
      ensures S() == rounds[|rounds| - 1].state
      decreases |rounds|, 5
    {
      var go := PrepareUpgrade(e, proposed);
      if go {
        AttemptUpgrade(e, proposed, rounds);
      }
    }

    /** The guards, in order, and what each of them leaves behind. */
    method PrepareUpgrade(e: EndpointId, proposed: Medium) returns (go: bool)
      modifies this
      ensures go == Viable(old(S()), e, proposed)
      ensures S() == if go then Readied(world.env, old(S()), e, proposed) else Declined(world.env, old(S()), e, proposed)
    {
      if proposed == WifiHotspot && ecm.IsWifiLanConnected() {
        return false;
      }
      ghost var s := S();
      SetBwuMediumForEndpoint(e, proposed);
      Recorded(world.env, s, e, proposed, S());
      go := ClearTheWay(e, proposed);
    }

    /** A fresh attempt supersedes a pending retry, unless it is turned down before that. */
    method ClearTheWay(e: EndpointId, proposed: Medium) returns (go: bool)
      modifies this
      ensures var s, stay := old(S()), !HasHandler(old(S()), proposed) || e in old(S()).up.inProgress;
        && S() == (if stay then s else CancelAlarm(s, e))
        && go == (!stay && e in s.registry && s.registry[e].medium != proposed)
    {
      if !HasHandlerForMedium(proposed) {
        return false;
      }
      if e in inProgressUpgrades {
        return false;
      }
      CancelRetryUpgradeAlarm(e);
      go := e in ecm.endpoints && ecm.endpoints[e].medium != proposed;
    }

    method AttemptUpgrade(e: EndpointId, proposed: Medium, ghost rounds: seq<Outcome>)
      requires HasHandler(S(), proposed) && e in ecm.endpoints
      requires Rounds(world.env, e, rounds) && rounds[0] == Attempt(world.env, S(), e, proposed)
      modifies this, ecm, client, world
      ensures S() == rounds[|rounds| - 1].state
      decreases |rounds|, 4
    {
      var offered := OfferUpgrade(e, proposed);
      if !offered {
        ProcessUpgradeFailureEvent(e, OnWire(proposed), rounds);
        return;
      }
      inProgressUpgrades := inProgressUpgrades + {e};
    }

    /**
     * Bring the medium up and write the offer; whichever fails, the failure is handled alike. On a paused channel the
     * write first waits until somebody resumes or closes it.
     */
    method OfferUpgrade(e: EndpointId, proposed: Medium) returns (ok: bool)
      requires HasHandler(S(), proposed) && e in ecm.endpoints
      modifies this, world
      ensures (S(), ok) == MakeOffer(world.env, old(S()), e, proposed)
      ensures var service := old(ecm.endpoints[e].serviceId);
        var up := HandlerSpec.Init(world.env.outcome, |old(world.log)|, proposed, old(handlers[proposed]), service, e).ok;
        Waiting.Freely(old(S()), S()) <==> !(up && Waiting.OnHold(old(S()), e))
    {
      Waiting.OfferWaits(world.env, S(), e, proposed, MakeOffer(world.env, S(), e, proposed).0);
      var channel := ecm.endpoints[e];
      var up := HandlerSpec.Init(world.env.outcome, |world.log|, proposed, handlers[proposed], channel.serviceId, e);
      Use(proposed, up);
      if !up.ok {
        return false;
      }
      ok := world.Write(e, channel, Offer(proposed));
    }

    method ResetUpgradeForEndpoint(e: EndpointId)
      modifies this
      ensures S() == Stopped(old(S()), e)
    {
      inProgressUpgrades := inProgressUpgrades - {e};
    }

    // -- dispatch -----------------------------------------------------------

    method OnBwuNegotiationFrame(e: EndpointId, f: Received, ghost rounds: seq<Outcome>)
      requires Rounds(world.env, e, rounds) && rounds[0] == OnFrame(world.env, S(), e, f)
      modifies this, ecm, client, world
      ensures S() == rounds[|rounds| - 1].state
    {
      if !client.Get(e).connected {
        if f.PathAvailable? && f.info.Some? {
          RunUpgradeFailedProtocol(e, f.info.value);
        }
        return;
      }
      match f {
        case PathAvailable(Some(info)) => ProcessBwuPathAvailableEvent(e, info);
        case UpgradeFailure(Some(info)) => ProcessUpgradeFailureEvent(e, info.medium, rounds);
        case LastWriteToPriorChannel =>
          if e in inProgressUpgrades {
            ProcessLastWriteToPriorChannelEvent(e);
          }
        case SafeToClosePriorChannel =>
          if e in inProgressUpgrades {
            ProcessSafeToClosePriorChannelEvent(e);
          }
        case _ =>
      }
    }

    // -- responder ----------------------------------------------------------

    method ProcessBwuPathAvailableEvent(e: EndpointId, info: PathInfo)
      modifies this, ecm, client, world
      ensures S() == OnPathAvailable(world.env, old(S()), e, info)
    {
      if ecm.IsWifiLanConnected() && info.medium == WifiHotspot {
        RunUpgradeFailedProtocol(e, info);
        return;
      }
      if client.Get(e).incoming {
        return;
      }
      if e in inProgressUpgrades {
        CloseEverything(e);
        return;
      }
      if GetBwuMediumForEndpoint(e) == UnknownMedium {
        SetBwuMediumForEndpoint(e, info.medium);
      }
      AcceptOffer(e, info);
    }

    /** Dial and swap, unless another medium is on record. */
    method AcceptOffer(e: EndpointId, info: PathInfo)
      modifies this, ecm, client, world
      ensures S() == Accept(world.env, old(S()), e, info)
    {
      if info.medium != GetBwuMediumForEndpoint(e) {
        RunUpgradeFailedProtocol(e, info);
        return;
      }
      var channel := ProcessBwuPathAvailableEventInternal(e, info);
      if channel.None? {
        RunUpgradeFailedProtocol(e, info);
        return;
      }
      inProgressUpgrades := inProgressUpgrades + {e};
      world.Emit(Joined(e));
      RunUpgradeProtocol(e, channel.value);
    }

    /** The answer to a second offer while an upgrade is in flight. */
    method CloseEverything(e: EndpointId)
      modifies this, world
      ensures S() == DuplicateOffer(old(S()), e)
    {
      if e in previousEndpointChannels {
        world.Close(e, previousEndpointChannels[e], Unfinished);
      }
      previousEndpointChannels := previousEndpointChannels - {e};
      if e in ecm.endpoints {
        var cur := ecm.endpoints[e];
        world.Resume(cur);
        world.Close(e, cur, Unfinished);
      }
    }

    method ProcessBwuPathAvailableEventInternal(e: EndpointId, info: PathInfo) returns (channel: Option<Channel>)
      modifies this, world
      ensures (S(), channel) == Dial(world.env, old(S()), e, info)
    {
      if !HasHandlerForMedium(info.medium) || e !in ecm.endpoints {
        return None;
      }
      var service := ecm.endpoints[e].serviceId;
      var ok := world.env.outcome(|world.log|);
      world.Emit(Create(info.medium, service, e, ok));
      if !ok {
        return None;
      }
      var c := Channel(world.nextChannel, info.medium, service);
      world.nextChannel := c.id + 1;
      ok := world.Write(e, c, Introduction);
      if !ok {
        world.Emit(Discarded(c));
        return None;
      }
      if info.introductionAck {
        ok := world.env.outcome(|world.log|);
        world.Emit(AckRead(c, ok));
        if !ok {
          world.Emit(Discarded(c));
          return None;
        }
      }
      return Some(c);
    }

    // -- incoming connection ------------------------------------------------

    method OnIncomingConnection(channel: Channel, introduced: Option<EndpointId>)
      modifies this, ecm, client, world
      ensures S() == OnIncoming(world.env, old(S()), channel, introduced)
    {
      var introducer := Introduce(channel, introduced);
      if introducer.None? {
        return;
      }
      var target := TargetOf(introducer.value);
      if target.None? {
        return;
      }
      CancelRetryUpgradeAlarm(target.value);
      RunUpgradeProtocol(target.value, channel);
    }

    /** Read the introduction and acknowledge it. */
    method Introduce(channel: Channel, introduced: Option<EndpointId>) returns (introducer: Option<EndpointId>)
      modifies world
      ensures (S(), introducer) == Introduced(world.env, old(S()), channel, introduced)
    {
      world.Meet(channel);
      world.Emit(IntroductionRead(channel, introduced.Some?));
      if introduced.None? {
        world.Emit(Discarded(channel));
        return None;
      }
      var ok := world.env.outcome(|world.log|);
      world.Emit(AckWritten(channel, ok));
      if !ok {
        world.Emit(Discarded(channel));
        return None;
      }
      return introduced;
    }

    method TargetOf(introduced: EndpointId) returns (target: Option<EndpointId>)
      ensures target == Target(S(), introduced)
    {
      if introduced in inProgressUpgrades {
        return Some(introduced);
      }
      if |inProgressUpgrades| != 1 {
        return None;
      }
      var e :| e in inProgressUpgrades;
      assert e in {Sole(inProgressUpgrades)};
      return Some(e);
    }

    // -- the converged protocol ---------------------------------------------

    method RunUpgradeProtocol(e: EndpointId, newChannel: Channel)
      modifies this, ecm, client, world
      ensures S() == RunProtocol(world.env, old(S()), e, newChannel)
      ensures Waiting.Freely(old(S()), S())
         <==> !(e in old(ecm.endpoints) && old(ecm.endpoints)[e] in old(world.paused) + {newChannel})
    {
      Waiting.SwapWaits(world.env, S(), e, newChannel, RunProtocol(world.env, S(), e, newChannel));
      world.Pause(newChannel);
      if e !in ecm.endpoints {
        return;
      }
      var oldChannel := ecm.endpoints[e];
      ecm.ReplaceChannelForEndpoint(e, newChannel);
      world.Emit(Registered(e, newChannel));
      var ok := world.Write(e, oldChannel, LastWrite);
      if !ok {
        return;
      }
      if e in previousEndpointChannels {
        world.Emit(Released(e, previousEndpointChannels[e]));
      }
      previousEndpointChannels := previousEndpointChannels[e := oldChannel];
      var early := e in successfullyUpgradedEndpoints;
      successfullyUpgradedEndpoints := successfullyUpgradedEndpoints - {e};
      if early {
        ProcessLastWriteToPriorChannelEvent(e);
      }
    }

    method ProcessLastWriteToPriorChannelEvent(e: EndpointId)
      modifies this, world
      ensures S() == OnLastWrite(world.env, old(S()), e)
      ensures Waiting.Freely(old(S()), S())
         <==> !(e in old(previousEndpointChannels) && old(previousEndpointChannels)[e] in old(world.paused))
    {
      Waiting.LastWriteWaits(world.env, S(), e, OnLastWrite(world.env, S(), e));
      if e !in previousEndpointChannels {
        successfullyUpgradedEndpoints := successfullyUpgradedEndpoints + {e};
        return;
      }
      var prev := previousEndpointChannels[e];
      var ok := world.Write(e, prev, SafeToClose);
      if !ok {
        world.Close(e, prev, IoError);
        previousEndpointChannels := previousEndpointChannels - {e};
      }
    }

    method ProcessSafeToClosePriorChannelEvent(e: EndpointId)
      modifies this, world
      ensures S() == OnSafeToClose(world.env, old(S()), e)
      ensures Waiting.Freely(old(S()), S())
         <==> !(e in old(previousEndpointChannels) && old(previousEndpointChannels)[e] in old(world.paused))
    {
      Waiting.SafeToCloseWaits(world.env, S(), e, OnSafeToClose(world.env, S(), e));
      if e !in previousEndpointChannels {
        return;
      }
      var prev := previousEndpointChannels[e];
      previousEndpointChannels := previousEndpointChannels - {e};
      SayGoodbye(e, prev);
      if e !in ecm.endpoints {
        return;
      }
      var channel := ecm.endpoints[e];
      world.Resume(channel);
      world.Emit(BandwidthChanged(e, channel.medium));
      inProgressUpgrades := inProgressUpgrades - {e};
    }

    /** DISCONNECTION in the clear, the drain read, and the close of the displaced channel. */
    method SayGoodbye(e: EndpointId, prev: Channel)
      modifies world`log
      ensures var off := old(world.log) + [EncryptionOff(e, prev)];
        world.log == off + [Wrote(e, prev, Disconnection, Next(world.env, off))] + [DrainRead(e, prev)] + [Closed(e, prev, Upgraded)]
    {
      world.Emit(EncryptionOff(e, prev));
      var _ := world.Write(e, prev, Disconnection);
      world.Emit(DrainRead(e, prev));
      world.Close(e, prev, Upgraded);
    }

    // -- failure and failover -----------------------------------------------

    method RunUpgradeFailedProtocol(e: EndpointId, info: PathInfo)
      modifies this, world
      ensures S() == FailedProtocol(world.env, old(S()), e, info)
      ensures Waiting.Freely(old(S()), S()) <==> !Waiting.OnHold(old(S()), e)
    {
      Waiting.RefusalWaits(world.env, S(), e, info, FailedProtocol(world.env, S(), e, info));
      if e !in ecm.endpoints {
        return;
      }
      var channel := ecm.endpoints[e];
      var ok := world.Write(e, channel, UpgradeFailed(info));
      if !ok {
        world.Close(e, channel, IoError);
        return;
      }
      if GetBwuMediumForEndpoint(e) != UnknownMedium {
        RevertBwuMediumForEndpoint(channel.serviceId, e);
      }
      inProgressUpgrades := inProgressUpgrades - {e};
    }

    method ProcessUpgradeFailureEvent(e: EndpointId, last: Medium, ghost rounds: seq<Outcome>)
      requires Rounds(world.env, e, rounds) && rounds[0] == FailureOnce(world.env, S(), e, last)
      modifies this, ecm, client, world
      ensures S() == rounds[|rounds| - 1].state
      decreases |rounds|, 3
    {
      ghost var s := S();
      inProgressUpgrades := inProgressUpgrades - {e};
      if !world.env.config.multipleMediums && |ecm.endpoints| > 1 {
        return;
      }
      StoppedFirst(world.env, s, e);
      UndoAndGoOn(e, last, rounds);
    }

    /** Give up the failed medium and go on behind it in the preference list. */
    method UndoAndGoOn(e: EndpointId, last: Medium, ghost rounds: seq<Outcome>)
      requires e !in inProgressUpgrades && Rounds(world.env, e, rounds)
      requires rounds[0] == NextBestOnce(world.env, Undone(world.env, S(), e), e, After(client.Get(e).mediums, last))
      modifies this, ecm, client, world
      ensures S() == rounds[|rounds| - 1].state
      decreases |rounds|, 2
    {
      UndoUpgrade(e);
      var untried := DropTried(client.Get(e).mediums, last);
      TryNextBestUpgradeMediums(e, untried, rounds);
    }

    /** Give up the medium that an upgrade no longer in progress was to run over. */
    method UndoUpgrade(e: EndpointId)
      requires e !in inProgressUpgrades
      modifies this, world
      ensures S() == Undone(world.env, old(S()), e)
    {
      assert Stopped(S(), e) == S();
      var service := if e in ecm.endpoints then ecm.endpoints[e].serviceId else UNKNOWN_SERVICE_ID;
      if GetBwuMediumForEndpoint(e) != UnknownMedium {
        RevertBwuMediumForEndpoint(Wrap(service), e);
      }
    }

    /** What is left of `mediums` once everything up to the first `last` is dropped. */
    method DropTried(mediums: seq<Medium>, last: Medium) returns (untried: seq<Medium>)
      ensures untried == After(mediums, last)
    {
      untried := mediums;
      var found := false;
      while untried != [] && !found
        invariant After(mediums, last) == if found then untried else After(untried, last)
      {
        found := untried[0] == last;
        untried := untried[1..];
      }
    }

    method TryNextBestUpgradeMediums(e: EndpointId, mediums: seq<Medium>, ghost rounds: seq<Outcome>)
      requires Rounds(world.env, e, rounds) && rounds[0] == NextBestOnce(world.env, S(), e, mediums)
      modifies this, ecm, client, world
      ensures S() == rounds[|rounds| - 1].state
      decreases |rounds|, 1
    {
      var next := PickNextMedium(e, mediums);
      GoOn(e, next, rounds);
    }

    method GoOn(e: EndpointId, next: Option<Medium>, ghost rounds: seq<Outcome>)
      requires Rounds(world.env, e, rounds)
      requires rounds[0] == if next.Some? then Again(S(), next.value) else Done(S())
      modifies this, ecm, client, world
      ensures S() == rounds[|rounds| - 1].state
      decreases |rounds|, 0
    {
      if next.Some? {
        RoundsTail(world.env, e, rounds);
        InitiateBwuForEndpoint(e, next.value, rounds[1..]);
      }
    }

    /** Everything up to the re-initiation: the medium to go on with, or none after settling the matter. */
    method PickNextMedium(e: EndpointId, mediums: seq<Medium>) returns (next: Option<Medium>)
      modifies this, world
      ensures NextBestOnce(world.env, old(S()), e, mediums)
           == if next.Some? then Again(S(), next.value) else Done(S())
    {
      var best := ChooseBestUpgradeMedium(e, mediums);
      var current := if e in ecm.endpoints then ecm.endpoints[e].medium else UnknownMedium;
      if current != WifiLan && (best == current || best == UnknownMedium || mediums == []) {
        RetryUpgradesAfterDelay(e);
        return None;
      }
      if !HasHandlerForMedium(best) {
        return None;
      }
      SetBwuMediumForEndpoint(e, best);
      return Some(best);
    }

    /** The medium on record if it is listed and usable; with none on record, the first usable one listed. */
    method ChooseBestUpgradeMedium(e: EndpointId, mediums: seq<Medium>) returns (best: Medium)
      ensures best == ChooseBest(world.env, S(), e, mediums)
      ensures Failover.IsBest(S(), mediums, MediumFor(world.env, S(), e), best)
    {
      Failover.BestIsBest(world.env, S(), e, mediums);
      var available := StripOutUnavailableMediums(mediums);
      var current := GetBwuMediumForEndpoint(e);
      if current == UnknownMedium {
        if available != [] {
          return available[0];
        }
      } else if current in available {
        return current;
      }
      return UnknownMedium;
    }

    method StripOutUnavailableMediums(mediums: seq<Medium>) returns (available: seq<Medium>)
      ensures available == Available(S(), mediums)
      ensures forall m :: m in available <==> m in mediums && HasHandlerForMedium(m)
    {
      ghost var s := S();
      available := [];
      var i := 0;
      while i < |mediums|
        invariant i <= |mediums|
        invariant available + Available(s, mediums[i..]) == Available(s, mediums)
      {
        Failover.AvailableFrom(s, mediums, i, available);
        if HasHandlerForMedium(mediums[i]) {
          available := available + [mediums[i]];
        }
        i := i + 1;
      }
      Failover.AvailableExactly(s, mediums);
    }

    method RetryUpgradesAfterDelay(e: EndpointId)
      modifies this, world
      ensures S() == ScheduleRetry(world.env, old(S()), e)
    {
      var delay := CalculateNextRetryDelay(e);
      CancelRetryUpgradeAlarm(e);
      retryUpgradeAlarms := retryUpgradeAlarms[e := delay];
      retryDelays := retryDelays[e := delay];
      world.Emit(RetryScheduled(e, delay));
    }

    function CalculateNextRetryDelay(e: EndpointId): (d: nat)
      reads this, ecm, client, world
      ensures d == NextDelay(world.env, S(), e)
    {
      var config := world.env.config;
      if e !in retryDelays then config.retryDelay
      else
        var next := if config.exponential then retryDelays[e] * 2 else retryDelays[e] + config.retryDelay;
        if next <= config.maxDelay then next else config.maxDelay
    }

    method FireRetryAlarm(e: EndpointId, ghost rounds: seq<Outcome>)
      requires Rounds(world.env, e, rounds) && rounds[0] == FireAlarm(world.env, S(), e)
      modifies this, ecm, client, world
      ensures S() == rounds[|rounds| - 1].state
    {
      if e !in retryUpgradeAlarms {
        return;
      }
      retryUpgradeAlarms := retryUpgradeAlarms - {e};
      if !client.Get(e).connected {
        return;
      }
      TryNextBestUpgradeMediums(e, client.Get(e).mediums, rounds);
    }

    method CancelRetryUpgradeAlarm(e: EndpointId)
      modifies this
      ensures S() == CancelAlarm(old(S()), e)
    {
      retryUpgradeAlarms := retryUpgradeAlarms - {e};
    }

    // -- disconnect, revert, shutdown ---------------------------------------

    method OnEndpointDisconnect(service: ServiceId, e: EndpointId)
      modifies this, world
      ensures S() == OnDisconnect(world.env, old(S()), service, e)
    {
      ForgetEndpoint(e);
      if world.env.config.multipleMediums || |ecm.endpoints| <= 1 {
        RevertBwuMediumForEndpoint(service, e);
      }
    }

    /** Close what is parked and drop every entry of the endpoint. */
    method ForgetEndpoint(e: EndpointId)
      modifies this, world
      ensures S() == Forget(world.env, old(S()), e)
    {
      var m := GetBwuMediumForEndpoint(e);
      if HasHandlerForMedium(m) {
        world.Emit(HandlerDisconnect(m, e));
      }
      if e in previousEndpointChannels {
        world.Close(e, previousEndpointChannels[e], Shutdown);
      }
      previousEndpointChannels := previousEndpointChannels - {e};
      inProgressUpgrades := inProgressUpgrades - {e};
      retryDelays := retryDelays - {e};
      CancelRetryUpgradeAlarm(e);
      successfullyUpgradedEndpoints := successfullyUpgradedEndpoints - {e};
      world.Emit(Forgotten(e));
    }

    method RevertBwuMediumForEndpoint(service: ServiceId, e: EndpointId)
      modifies this, world
      ensures S() == Revert(world.env, old(S()), service, e)
    {
      var m := GetBwuMediumForEndpoint(e);
      if !world.env.config.multipleMediums {
        medium := UnknownMedium;
        if HasHandlerForMedium(m) {
          Use(m, HandlerSpec.RevertAll(m, handlers[m], world.env.order(handlers[m].active.Keys)));
        }
        return;
      }
      endpointIdToBwuMedium := endpointIdToBwuMedium - {e};
      if !HasHandlerForMedium(m) {
        return;
      }
      if !IsInitiator(service) {
        if m == WifiHotspot || m == WifiDirect {
          Use(m, HandlerSpec.TearDown(m, handlers[m], service));
        }
        return;
      }
      Use(m, HandlerSpec.RevertEndpoint(m, handlers[m], service, e));
    }

    method RevertEachHandler(mediums: seq<Medium>)
      modifies this, world
      ensures S() == RevertHandlers(world.env, old(S()), mediums)
    {
      ghost var start := S();
      var i := 0;
      while i < |mediums|
        invariant i <= |mediums|
        invariant RevertHandlers(world.env, S(), mediums[i..]) == RevertHandlers(world.env, start, mediums)
      {
        var m := mediums[i];
        assert mediums[i..][0] == m && mediums[i..][1..] == mediums[i + 1..];
        if m in handlers {
          Use(m, HandlerSpec.RevertAll(m, handlers[m], world.env.order(handlers[m].active.Keys)));
        }
        i := i + 1;
      }
    }

    method ShutDownManager()
      modifies this, world
      ensures S() == DoShutDown(world.env, old(S()))
      ensures world.env.Valid() ==> AllCleared(old(handlers))
      ensures inProgressUpgrades == {} && previousEndpointChannels == map[] && successfullyUpgradedEndpoints == {}
      ensures retryUpgradeAlarms == map[] && retryDelays == map[]
    {
      ghost var s := S();
      retryUpgradeAlarms, retryDelays := map[], map[];
      Frames.RevertHandlersFrame(world.env, S(), world.env.handlerOrder(handlers.Keys));
      RevertEachHandler(world.env.handlerOrder(handlers.Keys));
      inProgressUpgrades, successfullyUpgradedEndpoints := {}, {};
      previousEndpointChannels := map[];
      world.Emit(ShutDown);
      if world.env.Valid() {
        Frames.ShutDownClears(world.env, s);
        assert S().handlers == handlers;
      }
    }

    /** Every handler of `before` is still there, with nothing tracked. */
    ghost predicate AllCleared(before: map<Medium, HandlerSpec.Handler>)
      reads this
    {
      && handlers.Keys == before.Keys
      && forall m :: m in before ==> handlers[m] == HandlerSpec.Cleared(before[m])
    }
  }
}
