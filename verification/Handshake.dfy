/**
 * One upgrade round between two managers: the initiator offers, the responder dials a new channel and introduces
 * itself there, both swap to the new channel, exchange LAST_WRITE and SAFE_TO_CLOSE on the old one, drain and
 * close it, and resume. Meanwhile both applications send payloads. Either side moves at any time; a manager that
 * waits in a blocking read does not. A step of one side changes that side alone: it appends to the logs of what
 * it wrote and moves its own position in the logs of its peer.
 */
module Handshake {
  import opened Wrappers
  import Framing

  type Payload = Framing.Bytes

  datatype Message =
    | Data(payload: Payload)
    | Offer
    | Introduction
    | IntroductionAck
    | LastWrite
    | SafeToClose
    | Disconnection

  datatype Ending = Broken | Upgraded

  /** What the manager knows about the endpoint's upgrade, and how it closed the old channel, if it did. */
  datatype Core = Core(
    inProgress: bool, parked: bool, latched: bool, onNew: bool, newPaused: bool, reports: nat, closed: Option<Ending>)

  // -- what a manager does: the new state and what it got onto the old channel --

  /** Swap the channels and announce it. `last` and `safe` say which of the two writes work. */
  function Swap(c: Core, last: bool, safe: bool): (Core, seq<Message>) {
    var c1 := c.(onNew := true, newPaused := true);
    if !last then (c1, [])
    else if !c.latched then (c1.(parked := true), [LastWrite])
    else
      var (c2, answer) := SeeLastWrite(c1.(parked := true, latched := false), safe);
      (c2, [LastWrite] + answer)
  }

  function SeeLastWrite(c: Core, safe: bool): (Core, seq<Message>) {
    if !c.parked then (c.(latched := true), [])
    else if safe then (c, [SafeToClose])
    else (c.(parked := false, closed := Some(Broken)), [])
  }

  /** SAFE_TO_CLOSE arrived: say goodbye on the parked channel; the drain read follows. */
  function BeginClose(c: Core, goodbye: bool): (Core, seq<Message>) {
    (c.(parked := false), if goodbye then [Disconnection] else [])
  }

  /** After the drain read: close the old channel, resume the new one, report success. */
  function EndClose(c: Core): Core {
    c.(closed := Some(Upgraded), newPaused := false, reports := c.reports + 1, inProgress := false)
  }

  // -- one side -------------------------------------------------------------

  /** Where the manager's thread is: free for the next event, or in one of its blocking reads. */
  datatype At = Idle | AwaitAck | AwaitIntroduction | Draining

  /**
   * `oldOut` and `newOut` are what this side wrote and the channel took, `oldRead` and `newRead` how far it has
   * read what its peer wrote. `begun`: it has made the offer, or met it. `joined`: it has dialled, or accepted
   * the socket. `cut`: the channel it closed lost what its peer had not read yet. History: `tail`, the number of
   * closing messages in `oldOut`; payloads `sent` and `got`; and what the drain read threw away.
   */
  datatype Side = Side(
    core: Core, at: At, begun: bool, joined: bool,
    oldOut: seq<Message>, newOut: seq<Message>, oldRead: nat, newRead: nat, cut: bool,
    todo: seq<Payload>, tail: nat, sent: seq<Payload>, got: seq<Payload>, drained: seq<Message>)

  datatype Role = Initiator | Responder

  /** Which of the things a step tries work out. */
  datatype Luck = Luck(write: bool, last: bool, safe: bool, dial: bool, introduce: bool, receive: bool)

  const ALL_WELL: Luck := Luck(true, true, true, true, true, true)

  datatype Action =
    | MakeOffer
    | TakeOld
    | TakeNew
    | AcceptSocket
    | ReadIntroduction
    | ReadAck
    | Drain
    | Send
    | Cut

  predicate OldReadable(me: Side, peer: Side) {
    me.oldRead < |peer.oldOut| && !peer.cut
  }

  predicate NewReadable(me: Side, peer: Side) {
    me.newRead < |peer.newOut|
  }

  /** Nothing more will come out of the old channel. */
  predicate OldEnded(me: Side, peer: Side) {
    peer.core.closed.Some? && !OldReadable(me, peer)
  }

  /** May `me` do this? A blocking read ends when its message is there, or by failing. */
  predicate Enabled(role: Role, me: Side, peer: Side, a: Action, luck: Luck) {
    match a
    case MakeOffer => role.Initiator? && me.at.Idle? && !me.begun
    case TakeOld =>
      && OldReadable(me, peer) && me.core.closed.None?
      && (me.at.Idle? || (!me.at.Draining? && peer.oldOut[me.oldRead].Data?))
    case TakeNew => me.core.onNew && NewReadable(me, peer)
    case AcceptSocket => role.Initiator? && me.at.Idle? && peer.joined && !me.joined
    case ReadIntroduction => me.at.AwaitIntroduction? && (!luck.receive || NewReadable(me, peer))
    case ReadAck => me.at.AwaitAck? && (!luck.receive || NewReadable(me, peer))
    case Drain => me.at.Draining? && (!luck.receive || OldReadable(me, peer) || OldEnded(me, peer))
    case Send => me.todo != [] && if me.core.onNew then !me.core.newPaused else me.core.closed.None?
    case Cut => me.core.closed.Some? && !me.cut
  }

  /** Put messages on the old channel; it takes nothing once either end is closed. */
  function Put(me: Side, peer: Side, ms: seq<Message>): Side {
    if me.core.closed.Some? || peer.core.closed.Some? then me
    else me.(oldOut := me.oldOut + ms, tail := me.tail + |ms|)
  }

  /** The converged protocol, on either side. */
  function RunProtocol(me: Side, peer: Side, luck: Luck): Side {
    var (c, ms) := Swap(me.core, luck.last, luck.safe);
    Put(me, peer, ms).(core := c, at := Idle)
  }

  /** The offer arrived: dial and introduce ourselves, then wait for the acknowledgement or go on at once. */
  function MeetOffer(me: Side, peer: Side, ack: bool, luck: Luck): Side {
    if !luck.dial || !luck.introduce then me.(begun := true)
    else
      var dialled := me.(begun := true, joined := true, newOut := me.newOut + [Introduction]);
      if ack then dialled.(at := AwaitAck)
      else RunProtocol(dialled.(core := dialled.core.(inProgress := true)), peer, luck)
  }

  /** Handle one message off the old channel. Offers after the first are not part of one round. */
  function Handle(role: Role, me: Side, peer: Side, ack: bool, luck: Luck, m: Message): Side {
    match m
    case Data(p) => me.(got := me.got + [p])
    case Offer => if role.Responder? && !me.begun then MeetOffer(me, peer, ack, luck) else me
    case LastWrite =>
      if !me.core.inProgress then me
      else
        var (c, ms) := SeeLastWrite(me.core, luck.safe);
        Put(me, peer, ms).(core := c)
    case SafeToClose =>
      if !me.core.inProgress || !me.core.parked then me
      else
        var (c, ms) := BeginClose(me.core, luck.write);
        Put(me, peer, ms).(core := c, at := Draining)
    case _ => me
  }

  function SendOne(me: Side, peer: Side, luck: Luck): Side
    requires me.todo != []
  {
    var p, rest := me.todo[0], me.(todo := me.todo[1..]);
    if !luck.write then rest
    else if me.core.onNew then rest.(newOut := me.newOut + [Data(p)], sent := me.sent + [p])
    else if peer.core.closed.Some? then rest.(sent := me.sent + [p])
    else rest.(oldOut := me.oldOut + [Data(p)], sent := me.sent + [p])
  }

  /** What `me` becomes. `ack`: the offer asks for an acknowledged introduction. */
  function Do(role: Role, me: Side, peer: Side, ack: bool, a: Action, luck: Luck): Side
    requires Enabled(role, me, peer, a, luck)
  {
    match a
    case MakeOffer =>
      if !luck.write then me.(begun := true)
      else me.(begun := true, oldOut := me.oldOut + [Offer], core := me.core.(inProgress := true))
    case TakeOld =>
      Handle(role, me.(oldRead := me.oldRead + 1), peer, ack, luck, peer.oldOut[me.oldRead])
    case TakeNew =>
      var m := peer.newOut[me.newRead];
      me.(newRead := me.newRead + 1, got := if m.Data? then me.got + [m.payload] else me.got)
    case AcceptSocket => me.(joined := true, at := AwaitIntroduction)
    case ReadIntroduction =>
      if !luck.receive || peer.newOut[me.newRead] != Introduction || !luck.introduce then me.(at := Idle)
      else
        var acked := me.(newRead := me.newRead + 1, newOut := me.newOut + [IntroductionAck]);
        if !me.core.inProgress then acked.(at := Idle) else RunProtocol(acked, peer, luck)
    case ReadAck =>
      if !luck.receive || peer.newOut[me.newRead] != IntroductionAck then me.(at := Idle)
      else RunProtocol(me.(newRead := me.newRead + 1, core := me.core.(inProgress := true)), peer, luck)
    case Drain =>
      var after := me.(core := EndClose(me.core), at := Idle);
      if !luck.receive || !OldReadable(me, peer) then after
      else after.(oldRead := me.oldRead + 1, drained := me.drained + [peer.oldOut[me.oldRead]])
    case Send => SendOne(me, peer, luck)
    case Cut => me.(cut := true)
  }

  // -- both sides -----------------------------------------------------------

  datatype Pair = Pair(initiator: Side, responder: Side)

  function Clean(todo: seq<Payload>): Side {
    Side(Core(false, false, false, false, false, 0, None), Idle, false, false, [], [], 0, 0, false, todo, 0, [], [], [])
  }

  datatype Move = Move(role: Role, action: Action, luck: Luck)

  function Mine(s: Pair, role: Role): Side {
    if role.Initiator? then s.initiator else s.responder
  }

  function Theirs(s: Pair, role: Role): Side {
    if role.Initiator? then s.responder else s.initiator
  }

  predicate Can(s: Pair, m: Move) {
    Enabled(m.role, Mine(s, m.role), Theirs(s, m.role), m.action, m.luck)
  }

  function After(s: Pair, ack: bool, m: Move): Pair
    requires Can(s, m)
  {
    var me := Do(m.role, Mine(s, m.role), Theirs(s, m.role), ack, m.action, m.luck);
    if m.role.Initiator? then s.(initiator := me) else s.(responder := me)
  }

  /** A run of one round from a clean state, in which the applications have these payloads to send. */
  ghost predicate Run(ack: bool, todo: (seq<Payload>, seq<Payload>), states: seq<Pair>, moves: seq<Move>) {
    && |states| == |moves| + 1
    && states[0] == Pair(Clean(todo.0), Clean(todo.1))
    && forall k :: 0 <= k < |moves| ==> Can(states[k], moves[k]) && states[k + 1] == After(states[k], ack, moves[k])
  }
}
