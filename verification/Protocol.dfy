/** Vocabulary shared by every part of the model: mediums, channels, frames, the log of I/O. */
module Protocol {
  import opened ServiceIds
  import opened Wrappers

  datatype Medium =
    | UnknownMedium | Mdns | Bluetooth | WifiHotspot | Ble | WifiLan | WifiAware | Nfc
    | WifiDirect | WebRtc | BleL2cap | Usb | WebRtcNonCellular | Awdl

  /** What is left of a medium after a trip through the wire's own medium enum. */
  function OnWire(m: Medium): Medium {
    if m == BleL2cap then UnknownMedium else m
  }

  /** A shared channel. Its identity, medium and service never change. */
  datatype Channel = Channel(id: nat, medium: Medium, serviceId: ServiceId)

  datatype Reason = IoError | Upgraded | Shutdown | Unfinished

  /** `UpgradePathInfo`, without the credentials, which only the medium reads. */
  datatype PathInfo = PathInfo(medium: Medium, introductionAck: bool)

  /** Frames the manager writes. */
  datatype Frame =
    | Offer(medium: Medium)
    | Introduction
    | IntroductionAck
    | LastWrite
    | SafeToClose
    | UpgradeFailed(info: PathInfo)
    | Disconnection

  /** Negotiation frames the manager is handed. `Ignored` stands for every other event type. */
  datatype Received =
    | PathAvailable(info: Option<PathInfo>)
    | UpgradeFailure(info: Option<PathInfo>)
    | LastWriteToPriorChannel
    | SafeToClosePriorChannel
    | Ignored

  /** Everything observable that the manager, its handlers or the registry do, in order. */
  datatype Event =
    // channels
    | Wrote(endpoint: EndpointId, channel: Channel, frame: Frame, ok: bool)
    | DrainRead(endpoint: EndpointId, channel: Channel)
    | EncryptionOff(endpoint: EndpointId, channel: Channel)
    | Closed(endpoint: EndpointId, channel: Channel, reason: Reason)
    | Released(endpoint: EndpointId, channel: Channel) // a parked channel let go without a close
    | IntroductionRead(channel: Channel, ok: bool)
    | AckWritten(channel: Channel, ok: bool)
    | AckRead(channel: Channel, ok: bool)
    | Discarded(channel: Channel)                      // close() before the channel was ever used
    | Paused(channel: Channel)
    | Resumed(channel: Channel)
    // the registry
    | Registered(endpoint: EndpointId, channel: Channel)
    | Unregistered(endpoint: EndpointId)
    // medium handlers
    | Initialize(medium: Medium, service: ServiceId, endpoint: EndpointId)
    | Reverted(medium: Medium, service: ServiceId)
    | Create(medium: Medium, service: ServiceId, endpoint: EndpointId, ok: bool)
    | HandlerDisconnect(medium: Medium, endpoint: EndpointId)
    | ListenerStart(medium: Medium, service: ServiceId, ok: bool)
    | ListenerStop(medium: Medium, service: ServiceId)
    | SoftApStart(service: ServiceId, ok: bool)
    | SoftApStop(service: ServiceId)
    // the endpoint's upgrade
    | Joined(endpoint: EndpointId)                     // accepted the remote's offer
    | BandwidthChanged(endpoint: EndpointId, medium: Medium)
    | RetryScheduled(endpoint: EndpointId, delay: nat)
    | Forgotten(endpoint: EndpointId)                  // endpoint disconnect handled
    | ShutDown

  type Log = seq<Event>

  /** The result of the n-th logged operation, for every n: any pattern of success and failure. */
  type Outcomes = nat -> bool

  datatype Config = Config(multipleMediums: bool, exponential: bool, retryDelay: nat, maxDelay: nat)

  /** Zero delays stand for the defaults (in milliseconds), chosen by the kind of backoff. */
  function Resolve(c: Config): (r: Config)
    ensures r.retryDelay > 0 && r.maxDelay > 0
    ensures Resolved(c) ==> r == c
  {
    c.(retryDelay := if c.retryDelay != 0 then c.retryDelay else if c.exponential then 3000 else 5000,
       maxDelay := if c.maxDelay != 0 then c.maxDelay else if c.exponential then 300000 else 10000)
  }

  predicate Resolved(c: Config) {
    c.retryDelay > 0 && c.maxDelay > 0
  }

  /**
   * The surroundings of one run: configuration, the outcome of every I/O operation, and the orders
   * in which a hash map hands out its keys.
   */
  datatype Env = Env(
    config: Config,
    outcome: Outcomes,
    order: set<ServiceId> -> seq<ServiceId>,
    handlerOrder: set<Medium> -> seq<Medium>)
  {
    ghost predicate Valid() {
      && Resolved(config)
      && (forall keys :: Enumerates(order(keys), keys))
      && (forall keys :: Enumerates(handlerOrder(keys), keys))
    }
  }

  /** `s` lists the elements of `keys`, each once. */
  ghost predicate Enumerates<T(!new)>(s: seq<T>, keys: set<T>) {
    && (forall k :: k in keys <==> k in s)
    && (forall i, j :: 0 <= i < j < |s| ==> s[i] != s[j])
  }
}
