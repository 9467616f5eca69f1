/** Whatever fails, the swap neither reorders nor duplicates nor skips a payload. */
module HandshakeSafety {
  import opened Wrappers
  import opened Handshake

  // -- payloads in a log ----------------------------------------------------

  function Datas(log: seq<Message>): seq<Payload> {
    if log == [] then []
    else Datas(log[..|log| - 1]) + if log[|log| - 1].Data? then [log[|log| - 1].payload] else []
  }

  lemma DatasSnoc(log: seq<Message>, m: Message)
    ensures Datas(log + [m]) == Datas(log) + if m.Data? then [m.payload] else []
  {
    assert (log + [m])[..|log|] == log;
  }

  lemma DatasNext(log: seq<Message>, k: nat)
    requires k < |log|
    ensures Datas(log[..k + 1]) == Datas(log[..k]) + if log[k].Data? then [log[k].payload] else []
  {
    assert log[..k + 1] == log[..k] + [log[k]];
    DatasSnoc(log[..k], log[k]);
  }

  lemma {:induction false} DatasPrefix(log: seq<Message>, k: nat)
    requires k <= |log|
    ensures Datas(log[..k]) <= Datas(log)
    ensures (forall i :: k <= i < |log| ==> !log[i].Data?) ==> Datas(log[..k]) == Datas(log)
    decreases |log| - k
  {
    if k == |log| {
      assert log[..k] == log;
    } else {
      DatasNext(log, k);
      DatasPrefix(log, k + 1);
    }
  }

  // -- the invariant --------------------------------------------------------

  /** Where the closing messages of `a` start on the old channel. */
  function Head(a: Side): int {
    |a.oldOut| - a.tail
  }

  /** Payloads and offers, then LAST_WRITE, SAFE_TO_CLOSE, DISCONNECTION as far as they went. */
  predicate Shape(out: seq<Message>, tail: nat) {
    && tail <= 3 && tail <= |out|
    && (forall j :: 0 <= j < |out| - tail ==> out[j].Data? || out[j].Offer?)
    && (forall j :: |out| - tail <= j < |out| ==> out[j] == Closing(j - (|out| - tail)))
  }

  /** The k-th closing message. */
  function Closing(k: nat): Message {
    if k == 0 then LastWrite else if k == 1 then SafeToClose else Disconnection
  }

  /** `b` has taken the k-th closing message of `a`. */
  predicate Saw(b: Side, a: Side, k: nat) {
    a.tail >= k && b.oldRead >= Head(a) + k
  }

  predicate Resumed(a: Side) {
    a.core.onNew && !a.core.newPaused
  }

  /** What was sent is in the logs, and what was got is what was read of them, the old one first. */
  predicate Accounted(prior: seq<Message>, next: seq<Message>, sent: seq<Payload>, resumed: bool,
                      oldRead: nat, newRead: nat, got: seq<Payload>) {
    && oldRead <= |prior| && newRead <= |next|
    && sent == Datas(prior) + Datas(next)
    && got == Datas(prior[..oldRead]) + Datas(next[..newRead])
    && (!resumed ==> Datas(next) == [])
  }

  predicate Flows(a: Side, b: Side) {
    Accounted(a.oldOut, a.newOut, a.sent, Resumed(a), b.oldRead, b.newRead, b.got)
  }

  /** How far `a` can be, given what it has seen of `b`. */
  predicate Ordered(a: Side, b: Side) {
    && (a.tail >= 1 ==> a.core.onNew)
    && (a.tail >= 2 ==> Saw(a, b, 1))
    && (a.tail >= 3 || a.at.Draining? || Resumed(a) ==> Saw(a, b, 2))
    && (a.core.latched ==> Saw(a, b, 1) && !a.core.parked)
    && (a.core.closed.Some? ==> Saw(a, b, 1) && a.core.onNew)
    && (a.core.parked ==> a.core.inProgress && a.core.onNew && 1 <= a.tail <= 2 && a.core.closed.None? && !Resumed(a))
    && (a.core.parked && Saw(a, b, 1) ==> a.tail == 2 || b.core.closed.Some?)
    && (a.at.Draining? ==> a.core.onNew && !a.core.parked && !Resumed(a) && a.core.closed.None?)
    && (a.at.AwaitAck? || a.at.AwaitIntroduction? ==> !a.core.onNew)
    && (a.core.onNew ==> a.begun)
  }

  predicate NoPayloadDrained(a: Side) {
    forall i :: 0 <= i < |a.drained| ==> !a.drained[i].Data?
  }

  /** What is known about the direction from `a` to `b`. */
  predicate Direction(a: Side, b: Side) {
    Shape(a.oldOut, a.tail) && Flows(a, b) && Ordered(a, b) && NoPayloadDrained(a)
  }

  predicate Both(a: Side, b: Side) {
    Direction(a, b) && Direction(b, a)
  }

  // -- steps that concern both directions alike -----------------------------

  /** Whoever still uses the old channel has not seen its peer close it. */
  lemma OpenUntilSwap(a: Side, b: Side)
    requires Both(a, b) && !a.core.onNew
    ensures a.tail == 0 && a.core.closed.None? && b.core.closed.None? && !Resumed(a)
  {
  }

  /** The next message on the old channel, where it is told by its position. */
  lemma NextMessage(a: Side, b: Side)
    requires Shape(a.oldOut, a.tail) && b.oldRead < |a.oldOut|
    ensures var m := a.oldOut[b.oldRead];
      && (m.Data? || m.Offer? <==> b.oldRead < Head(a))
      && (m.LastWrite? <==> a.tail >= 1 && b.oldRead == Head(a))
      && (m.SafeToClose? <==> a.tail >= 2 && b.oldRead == Head(a) + 1)
      && (m.Disconnection? <==> a.tail >= 3 && b.oldRead == Head(a) + 2)
  {
  }

  /** As long as payloads come on the old channel, none has come on the new one. */
  lemma OldFirst(me: Side, peer: Side)
    requires Both(me, peer) && OldReadable(me, peer) && peer.oldOut[me.oldRead].Data?
    ensures Datas(peer.newOut[..me.newRead]) == []
  {
    NextMessage(peer, me);
    assert !Resumed(peer);
    DatasPrefix(peer.newOut, me.newRead);
  }

  function TookOld(me: Side, m: Message): Side {
    me.(oldRead := me.oldRead + 1, got := if m.Data? then me.got + [m.payload] else me.got)
  }

  lemma TookOldFlows(me: Side, peer: Side)
    requires Both(me, peer) && OldReadable(me, peer)
    ensures Flows(peer, TookOld(me, peer.oldOut[me.oldRead]))
  {
    if peer.oldOut[me.oldRead].Data? {
      OldFirst(me, peer);
    }
    TookOldAccounted(peer.oldOut, peer.newOut, peer.sent, Resumed(peer), me.oldRead, me.newRead, me.got);
  }

  lemma TookOldAccounted(prior: seq<Message>, next: seq<Message>, sent: seq<Payload>, resumed: bool,
                         oldRead: nat, newRead: nat, got: seq<Payload>)
    requires Accounted(prior, next, sent, resumed, oldRead, newRead, got) && oldRead < |prior|
    requires prior[oldRead].Data? ==> Datas(next[..newRead]) == []
    ensures var m := prior[oldRead];
      Accounted(prior, next, sent, resumed, oldRead + 1, newRead, if m.Data? then got + [m.payload] else got)
  {
    DatasNext(prior, oldRead);
    if prior[oldRead].Data? {
      GotOneMore(Datas(prior[..oldRead]), Datas(next[..newRead]), prior[oldRead].payload);
    }
  }

  lemma GotOneMore(prior: seq<Payload>, next: seq<Payload>, p: Payload)
    requires next == []
    ensures prior + next + [p] == prior + [p] + next
  {
  }

  lemma ReadOnSees(me: Side, peer: Side, me': Side)
    requires Shape(peer.oldOut, peer.tail) && OldReadable(me, peer) && me'.oldRead == me.oldRead + 1
    ensures Saw(me', peer, 1) == (Saw(me, peer, 1) || peer.oldOut[me.oldRead].LastWrite?)
    ensures Saw(me', peer, 2) == (Saw(me, peer, 2) || peer.oldOut[me.oldRead].SafeToClose?)
  {
    NextMessage(peer, me);
  }

  /** One more closing message. */
  lemma WroteShape(out: seq<Message>, tail: nat)
    requires Shape(out, tail) && tail < 3
    ensures Shape(out + [Closing(tail)], tail + 1)
  {
  }

  lemma WroteFlows(me: Side, peer: Side, m: Message)
    requires Flows(me, peer) && !m.Data?
    ensures Accounted(me.oldOut + [m], me.newOut, me.sent, Resumed(me), peer.oldRead, peer.newRead, peer.got)
  {
    DatasSnoc(me.oldOut, m);
    assert (me.oldOut + [m])[..peer.oldRead] == me.oldOut[..peer.oldRead];
  }

  // -- taking a message off the old channel ---------------------------------

  /** Messages that only count as read: payloads, and whatever the manager has no use for. */
  lemma QuietKeeps(me: Side, peer: Side, me': Side)
    requires Both(me, peer) && OldReadable(me, peer) && !me.at.Draining?
    requires peer.oldOut[me.oldRead].LastWrite? ==> !me.core.inProgress
    requires me' == TookOld(me, peer.oldOut[me.oldRead])
    ensures Both(me', peer)
  {
    TookOldFlows(me, peer);
    ReadOnSees(me, peer, me');
  }

  /** The old channel took `m` from us after we took a message from it, or was closed and took nothing. */
  lemma AnswerKeeps(me: Side, peer: Side, me': Side, m: Message)
    requires Both(me, peer) && OldReadable(me, peer) && !peer.oldOut[me.oldRead].Data?
    requires me' == me.(oldRead := me.oldRead + 1, oldOut := me'.oldOut, tail := me'.tail, core := me'.core, at := me'.at)
    requires (me'.oldOut == me.oldOut && me'.tail == me.tail)
          || (me.tail < 3 && m == Closing(me.tail) && me'.oldOut == me.oldOut + [m] && me'.tail == me.tail + 1)
    requires Resumed(me') == Resumed(me) && Ordered(me', peer) && Ordered(peer, me')
    ensures Both(me', peer)
  {
    TookOldFlows(me, peer);
    if me'.oldOut != me.oldOut {
      WroteShape(me.oldOut, me.tail);
      WroteFlows(me, peer, m);
    }
  }

  /** LAST_WRITE arrived: latch it, or answer on the parked channel. */
  lemma LastWriteKeeps(me: Side, peer: Side, safe: bool, me': Side)
    requires Both(me, peer) && OldReadable(me, peer) && me.core.closed.None? && !me.at.Draining?
    requires peer.oldOut[me.oldRead].LastWrite? && me.core.inProgress
    requires me' == Put(me.(oldRead := me.oldRead + 1), peer, SeeLastWrite(me.core, safe).1)
                      .(core := SeeLastWrite(me.core, safe).0)
    ensures Both(me', peer)
  {
    assert me.oldOut + [] == me.oldOut;
    ReadOnSees(me, peer, me');
    NextMessage(peer, me);
    assert Ordered(me', peer) && Ordered(peer, me');
    AnswerKeeps(me, peer, me', SafeToClose);
  }

  /** SAFE_TO_CLOSE arrived for the parked channel: say goodbye and go on to the drain read. */
  lemma SafeToCloseKeeps(me: Side, peer: Side, goodbye: bool, me': Side)
    requires Both(me, peer) && OldReadable(me, peer) && me.core.closed.None? && me.at.Idle?
    requires peer.oldOut[me.oldRead].SafeToClose? && me.core.parked
    requires me' == Put(me.(oldRead := me.oldRead + 1), peer, BeginClose(me.core, goodbye).1)
                      .(core := BeginClose(me.core, goodbye).0, at := Draining)
    ensures Both(me', peer)
  {
    assert me.oldOut + [] == me.oldOut;
    ReadOnSees(me, peer, me');
    NextMessage(peer, me);
    assert Ordered(me', peer) && Ordered(peer, me');
    AnswerKeeps(me, peer, me', Disconnection);
  }

  // -- the swap -------------------------------------------------------------

  /** What a swap puts on the old channel. */
  lemma SwapLog(me: Side, peer: Side, luck: Luck)
    requires Shape(me.oldOut, 0) && Flows(me, peer) && !Resumed(me) && me.tail == 0 && !me.core.parked
    requires me.core.closed.None? && peer.core.closed.None?
    ensures var me' := RunProtocol(me, peer, luck);
      && Shape(me'.oldOut, me'.tail) && Head(me') == |me.oldOut|
      && Accounted(me'.oldOut, me.newOut, me.sent, false, peer.oldRead, peer.newRead, peer.got)
      && me'.tail == (if !luck.last then 0 else if me.core.latched && luck.safe then 2 else 1)
  {
    var me' := RunProtocol(me, peer, luck);
    if !luck.last {
      assert me'.oldOut == me.oldOut;
    } else {
      WroteShape(me.oldOut, 0);
      WroteFlows(me, peer, LastWrite);
      if me.core.latched && luck.safe {
        WroteBoth(me, peer);
        assert me'.oldOut == me.oldOut + [LastWrite] + [SafeToClose];
      } else {
        assert me'.oldOut == me.oldOut + [LastWrite];
      }
    }
  }

  lemma WroteBoth(me: Side, peer: Side)
    requires Shape(me.oldOut, 0) && Flows(me, peer)
    ensures var out := me.oldOut + [LastWrite] + [SafeToClose];
      Shape(out, 2) && Accounted(out, me.newOut, me.sent, Resumed(me), peer.oldRead, peer.newRead, peer.got)
  {
    WroteShape(me.oldOut, 0);
    WroteFlows(me, peer, LastWrite);
    WroteShape(me.oldOut + [LastWrite], 1);
    WroteFlows(me.(oldOut := me.oldOut + [LastWrite]), peer, SafeToClose);
  }

  /** Swapping keeps the order, provided an early LAST_WRITE of the peer was latched. */
  lemma SwapKeeps(me: Side, peer: Side, luck: Luck)
    requires Both(me, peer) && !me.core.onNew && me.begun && me.core.inProgress && !me.at.Draining?
    requires Saw(me, peer, 1) ==> me.core.latched
    ensures Both(RunProtocol(me, peer, luck), peer)
  {
    OpenUntilSwap(me, peer);
    SwapLog(me, peer, luck);
    SwapOrder(me, peer, luck);
  }

  lemma SwapOrder(me: Side, peer: Side, luck: Luck)
    requires Ordered(me, peer) && Ordered(peer, me) && Saw(me, peer, 1) == me.core.latched
    requires !me.core.onNew && me.begun && me.core.inProgress && !me.at.Draining? && peer.oldRead <= |me.oldOut|
    requires me.tail == 0 && me.core.closed.None? && peer.core.closed.None? && !me.core.parked
    requires var me' := RunProtocol(me, peer, luck);
      me'.tail == (if !luck.last then 0 else if me.core.latched && luck.safe then 2 else 1) && Head(me') == |me.oldOut|
    ensures var me' := RunProtocol(me, peer, luck); Ordered(me', peer) && Ordered(peer, me')
  {
  }

  // -- the drain read, payloads, and the rest -------------------------------

  /** The drain read takes the goodbye, if anything; then the new channel may be used. */
  lemma DrainKeeps(me: Side, peer: Side, luck: Luck, me': Side)
    requires Both(me, peer) && Enabled(Initiator, me, peer, Drain, luck)
    requires me' == Do(Initiator, me, peer, true, Drain, luck)
    ensures Both(me', peer)
  {
    if luck.receive && OldReadable(me, peer) {
      NextMessage(peer, me);
      TookOldFlows(me, peer);
      ReadOnSees(me, peer, TookOld(me, peer.oldOut[me.oldRead]));
    }
  }

  lemma SentFlows(me: Side, peer: Side, p: Payload)
    requires Flows(me, peer)
    ensures Resumed(me) ==>
      Accounted(me.oldOut, me.newOut + [Data(p)], me.sent + [p], true, peer.oldRead, peer.newRead, peer.got)
    ensures !Resumed(me) ==>
      Accounted(me.oldOut + [Data(p)], me.newOut, me.sent + [p], false, peer.oldRead, peer.newRead, peer.got)
  {
    if Resumed(me) {
      DatasSnoc(me.newOut, Data(p));
      StillTaken(me.newOut, Data(p), peer.newRead);
      Reassociate(Datas(me.oldOut), Datas(me.newOut), p);
    } else {
      DatasSnoc(me.oldOut, Data(p));
      StillTaken(me.oldOut, Data(p), peer.oldRead);
      GotOneMore(Datas(me.oldOut), Datas(me.newOut), p);
    }
  }

  lemma StillTaken(log: seq<Message>, m: Message, k: nat)
    requires k <= |log|
    ensures (log + [m])[..k] == log[..k]
  {
  }

  lemma Reassociate(a: seq<Payload>, b: seq<Payload>, p: Payload)
    ensures a + b + [p] == a + (b + [p])
  {
  }

  lemma SendKeeps(me: Side, peer: Side, luck: Luck)
    requires Both(me, peer) && Enabled(Initiator, me, peer, Send, luck)
    ensures Both(SendOne(me, peer, luck), peer)
  {
    var p, me' := me.todo[0], SendOne(me, peer, luck);
    if luck.write {
      SentFlows(me, peer, p);
      if !me.core.onNew {
        OpenUntilSwap(me, peer);
        assert Shape(me'.oldOut, 0);
      }
    }
  }

  function TookNew(me: Side, m: Message): Side {
    me.(newRead := me.newRead + 1, got := if m.Data? then me.got + [m.payload] else me.got)
  }

  lemma TookNewFlows(me: Side, peer: Side)
    requires Flows(peer, me) && NewReadable(me, peer)
    ensures Flows(peer, TookNew(me, peer.newOut[me.newRead]))
  {
    var m := peer.newOut[me.newRead];
    DatasNext(peer.newOut, me.newRead);
    if m.Data? {
      Associate(Datas(peer.oldOut[..me.oldRead]), Datas(peer.newOut[..me.newRead]), m.payload);
    }
  }

  lemma Associate(a: seq<Payload>, b: seq<Payload>, p: Payload)
    ensures (a + b) + [p] == a + (b + [p])
  {
  }

  lemma TakeNewKeeps(me: Side, peer: Side)
    requires Both(me, peer) && NewReadable(me, peer)
    ensures Both(TookNew(me, peer.newOut[me.newRead]), peer)
  {
    TookNewFlows(me, peer);
    SameRest(me, peer, TookNew(me, peer.newOut[me.newRead]));
  }

  lemma SameRest(me: Side, peer: Side, me': Side)
    requires Both(me, peer) && Flows(peer, me')
    requires me' == me.(newRead := me'.newRead, got := me'.got)
    ensures Both(me', peer)
  {
  }

  // -- the roles ------------------------------------------------------------

  predicate Offered(i: Side) {
    i.core.inProgress || i.core.onNew
  }

  predicate OnlyPayloads(log: seq<Message>) {
    forall j :: 0 <= j < |log| ==> log[j].Data?
  }

  /** What is known about who has come how far. */
  predicate Roles(i: Side, r: Side) {
    && (!Offered(i) ==> !r.begun && OnlyPayloads(i.oldOut))
    && (i.joined ==> r.joined) && (r.joined ==> r.begun)
    && (i.core.onNew || i.at.AwaitIntroduction? ==> i.joined)
    && (r.at.AwaitAck? ==> r.begun) && !i.at.AwaitAck? && !r.at.AwaitIntroduction?
    && (i.core.inProgress ==> i.begun) && (r.core.inProgress ==> r.core.onNew)
    && (!i.core.onNew && Saw(i, r, 1) ==> i.core.latched)
    && (Saw(r, i, 1) ==> r.begun && !r.at.AwaitAck?)
  }

  predicate Inv(s: Pair) {
    Both(s.initiator, s.responder) && Roles(s.initiator, s.responder)
  }

  /** An introduction or its acknowledgement goes out on the new channel. */
  lemma GreetingKeeps(me: Side, peer: Side, me': Side, m: Message)
    requires Both(me, peer) && !m.Data? && !me.core.onNew && !me.at.Draining?
    requires me' == me.(newOut := me.newOut + [m], begun := me'.begun, joined := me'.joined, at := me'.at,
                        core := me.core.(inProgress := me.core.inProgress || me'.core.inProgress))
    requires !me'.at.Draining?
    ensures Both(me', peer)
  {
    DatasSnoc(me.newOut, m);
    assert me'.newOut[..peer.newRead] == me.newOut[..peer.newRead];
  }

  lemma MeetOfferKeeps(i: Side, r: Side, ack: bool, luck: Luck, r': Side)
    requires Both(r, i) && Roles(i, r) && Enabled(Responder, r, i, TakeOld, luck)
    requires i.oldOut[r.oldRead].Offer? && !r.begun
    requires r' == MeetOffer(r.(oldRead := r.oldRead + 1), i, ack, luck)
    ensures Both(r', i)
  {
    var r1 := r.(oldRead := r.oldRead + 1);
    QuietKeeps(r, i, r1);
    ReadOnSees(r, i, r1);
    if luck.dial && luck.introduce {
      var r2 := r1.(begun := true, joined := true, newOut := r1.newOut + [Introduction],
                    at := if ack then AwaitAck else r1.at, core := r1.core.(inProgress := r1.core.inProgress || !ack));
      GreetingKeeps(r1, i, r2, Introduction);
      if !ack {
        SwapKeeps(r2, i, luck);
      }
    }
  }

  /** The four things that taking a message off the old channel can come to. */
  predicate Took(role: Role, me: Side, peer: Side, ack: bool, luck: Luck, me': Side)
    requires OldReadable(me, peer)
  {
    var m, me1 := peer.oldOut[me.oldRead], me.(oldRead := me.oldRead + 1);
    if m.LastWrite? && me.core.inProgress then
      me' == Put(me1, peer, SeeLastWrite(me.core, luck.safe).1).(core := SeeLastWrite(me.core, luck.safe).0)
    else if m.SafeToClose? && me.core.inProgress && me.core.parked then
      me' == Put(me1, peer, BeginClose(me.core, luck.write).1).(core := BeginClose(me.core, luck.write).0, at := Draining)
    else if m.Offer? && role.Responder? && !me.begun then
      me' == MeetOffer(me1, peer, ack, luck)
    else
      me' == TookOld(me, m)
  }

  lemma DoTakeOld(role: Role, me: Side, peer: Side, ack: bool, luck: Luck, me': Side)
    requires Enabled(role, me, peer, TakeOld, luck) && me' == Do(role, me, peer, ack, TakeOld, luck)
    ensures Took(role, me, peer, ack, luck, me')
  {
  }

  lemma TakeOldKeeps(role: Role, me: Side, peer: Side, ack: bool, luck: Luck, me': Side)
    requires Both(me, peer) && Enabled(role, me, peer, TakeOld, luck)
    requires role.Responder? ==> Roles(peer, me)
    requires Took(role, me, peer, ack, luck, me')
    ensures Both(me', peer)
  {
    var m := peer.oldOut[me.oldRead];
    if m.LastWrite? && me.core.inProgress {
      LastWriteKeeps(me, peer, luck.safe, me');
    } else if m.SafeToClose? && me.core.inProgress && me.core.parked {
      SafeToCloseKeeps(me, peer, luck.write, me');
    } else if m.Offer? && role.Responder? && !me.begun {
      MeetOfferKeeps(peer, me, ack, luck, me');
    } else {
      QuietKeeps(me, peer, me');
    }
  }

  lemma ReadIntroductionKeeps(i: Side, r: Side, ack: bool, luck: Luck)
    requires Both(i, r) && Roles(i, r) && Enabled(Initiator, i, r, ReadIntroduction, luck)
    ensures Both(Do(Initiator, i, r, ack, ReadIntroduction, luck), r)
  {
    if luck.receive && r.newOut[i.newRead].Introduction? && luck.introduce {
      var i1 := TookNew(i, Introduction);
      TakeNewKeeps(i, r);
      var i2 := i1.(newOut := i1.newOut + [IntroductionAck]);
      GreetingKeeps(i1, r, i2, IntroductionAck);
      if i.core.inProgress {
        SwapKeeps(i2, r, luck);
      } else {
        GreetingKeeps(i1, r, i2.(at := Idle), IntroductionAck);
      }
    }
  }

  lemma AckStarts(i: Side, r: Side, r2: Side)
    requires Both(r, i) && Roles(i, r) && r.at.AwaitAck? && NewReadable(r, i) && i.newOut[r.newRead].IntroductionAck?
    requires r2 == TookNew(r, IntroductionAck).(core := r.core.(inProgress := true))
    ensures Both(r2, i)
  {
    TakeNewKeeps(r, i);
  }

  lemma ReadAckKeeps(i: Side, r: Side, ack: bool, luck: Luck)
    requires Both(r, i) && Roles(i, r) && Enabled(Responder, r, i, ReadAck, luck)
    ensures Both(Do(Responder, r, i, ack, ReadAck, luck), i)
  {
    if luck.receive && i.newOut[r.newRead].IntroductionAck? {
      var r2 := TookNew(r, IntroductionAck).(core := r.core.(inProgress := true));
      AckStarts(i, r, r2);
      SwapKeeps(r2, i, luck);
    }
  }

  lemma MakeOfferKeeps(i: Side, r: Side, ack: bool, luck: Luck)
    requires Both(i, r) && Enabled(Initiator, i, r, MakeOffer, luck)
    ensures Both(Do(Initiator, i, r, ack, MakeOffer, luck), r)
  {
    if luck.write {
      var i' := Do(Initiator, i, r, ack, MakeOffer, luck);
      OpenUntilSwap(i, r);
      WroteFlows(i, r, Offer);
      assert Shape(i'.oldOut, 0);
    }
  }

  /** Any step of either side. */
  lemma StepKeeps(role: Role, me: Side, peer: Side, ack: bool, a: Action, luck: Luck, me': Side)
    requires Both(me, peer) && Enabled(role, me, peer, a, luck)
    requires if role.Initiator? then Roles(me, peer) else Roles(peer, me)
    requires me' == Do(role, me, peer, ack, a, luck)
    ensures Both(me', peer)
  {
    if a.TakeOld? {
      DoTakeOld(role, me, peer, ack, luck, me');
      TakeOldKeeps(role, me, peer, ack, luck, me');
    } else if a.MakeOffer? || a.ReadIntroduction? || a.ReadAck? {
      GreetKeeps(role, me, peer, ack, a, luck, me');
    } else {
      OtherKeeps(role, me, peer, ack, a, luck, me');
    }
  }

  lemma GreetKeeps(role: Role, me: Side, peer: Side, ack: bool, a: Action, luck: Luck, me': Side)
    requires Both(me, peer) && Enabled(role, me, peer, a, luck) && (a.MakeOffer? || a.ReadIntroduction? || a.ReadAck?)
    requires if role.Initiator? then Roles(me, peer) else Roles(peer, me)
    requires me' == Do(role, me, peer, ack, a, luck)
    ensures Both(me', peer)
  {
    match a
    case MakeOffer => MakeOfferKeeps(me, peer, ack, luck);
    case ReadIntroduction => ReadIntroductionKeeps(me, peer, ack, luck);
    case ReadAck => ReadAckKeeps(peer, me, ack, luck);
  }

  lemma OtherKeeps(role: Role, me: Side, peer: Side, ack: bool, a: Action, luck: Luck, me': Side)
    requires Both(me, peer) && Enabled(role, me, peer, a, luck)
    requires a.TakeNew? || a.AcceptSocket? || a.Drain? || a.Send? || a.Cut?
    requires if role.Initiator? then Roles(me, peer) else Roles(peer, me)
    requires me' == Do(role, me, peer, ack, a, luck)
    ensures Both(me', peer)
  {
    match a
    case TakeNew => TakeNewKeeps(me, peer);
    case AcceptSocket => MarkKeeps(me, peer, me');
    case Drain => DrainKeeps(me, peer, luck, me');
    case Send => SendKeeps(me, peer, luck);
    case Cut => MarkKeeps(me, peer, me');
  }

  /** To begin waiting for the introduction, or to lose what is left of a closed channel, changes no log. */
  lemma MarkKeeps(me: Side, peer: Side, me': Side)
    requires Both(me, peer)
    requires me' == me.(cut := true) || (!me.core.onNew && me.at.Idle? && me' == me.(joined := true, at := AwaitIntroduction))
    ensures Both(me', peer)
  {
  }

  lemma InitiatorRoles(i: Side, r: Side, ack: bool, a: Action, luck: Luck, i': Side)
    requires Both(i, r) && Roles(i, r) && Enabled(Initiator, i, r, a, luck)
    requires i' == Do(Initiator, i, r, ack, a, luck)
    ensures Roles(i', r)
  {
    if a.TakeOld? {
      DoTakeOld(Initiator, i, r, ack, luck, i');
      InitiatorTakeRoles(i, r, ack, luck, i');
    } else if a.ReadIntroduction? {
      IntroducedRoles(i, r, ack, luck, i');
    }
  }

  lemma InitiatorTakeRoles(i: Side, r: Side, ack: bool, luck: Luck, i': Side)
    requires Both(i, r) && Roles(i, r) && Enabled(Initiator, i, r, TakeOld, luck)
    requires Took(Initiator, i, r, ack, luck, i')
    ensures Roles(i', r)
  {
    ReadOnSees(i, r, i');
    NextMessage(r, i);
  }

  lemma IntroducedRoles(i: Side, r: Side, ack: bool, luck: Luck, i': Side)
    requires Both(i, r) && Roles(i, r) && Enabled(Initiator, i, r, ReadIntroduction, luck)
    requires i' == Do(Initiator, i, r, ack, ReadIntroduction, luck)
    ensures Roles(i', r)
  {
    OpenUntilSwap(i, r);
  }

  lemma ResponderRoles(i: Side, r: Side, ack: bool, a: Action, luck: Luck, r': Side)
    requires Both(r, i) && Roles(i, r) && Enabled(Responder, r, i, a, luck)
    requires r' == Do(Responder, r, i, ack, a, luck)
    ensures Roles(i, r')
  {
    if a.TakeOld? {
      DoTakeOld(Responder, r, i, ack, luck, r');
      ResponderTakeRoles(i, r, ack, luck, r');
    }
  }

  lemma ResponderTakeRoles(i: Side, r: Side, ack: bool, luck: Luck, r': Side)
    requires Both(r, i) && Roles(i, r) && Enabled(Responder, r, i, TakeOld, luck)
    requires Took(Responder, r, i, ack, luck, r')
    ensures Roles(i, r')
  {
    ReadOnSees(r, i, r');
    NextMessage(i, r);
    if i.oldOut[r.oldRead].Offer? && !r.begun {
      MeetingRoles(i, r, ack, luck, r');
    }
  }

  /** Meeting the offer. */
  lemma MeetingRoles(i: Side, r: Side, ack: bool, luck: Luck, r': Side)
    requires Both(r, i) && Roles(i, r) && Enabled(Responder, r, i, TakeOld, luck)
    requires Took(Responder, r, i, ack, luck, r') && i.oldOut[r.oldRead].Offer? && !r.begun
    requires Saw(r', i, 1) == Saw(r, i, 1)
    ensures Roles(i, r')
  {
  }

  // -- whole rounds ---------------------------------------------------------

  lemma {:induction false} RoundKeeps(
      ack: bool, todo: (seq<Payload>, seq<Payload>), states: seq<Pair>, moves: seq<Move>, k: nat)
    requires Run(ack, todo, states, moves) && k < |states|
    ensures Inv(states[k])
    decreases k
  {
    if k > 0 {
      RoundKeeps(ack, todo, states, moves, k - 1);
      var s, m := states[k - 1], moves[k - 1];
      assert Can(s, m) && states[k - 1 + 1] == After(s, ack, m);
      MoveKeeps(s, ack, m, states[k]);
    }
  }

  lemma MoveKeeps(s: Pair, ack: bool, m: Move, s': Pair)
    requires Inv(s) && Can(s, m) && s' == After(s, ack, m)
    ensures Inv(s')
  {
    var i, r := s.initiator, s.responder;
    if m.role.Initiator? {
      StepKeeps(m.role, i, r, ack, m.action, m.luck, s'.initiator);
      InitiatorRoles(i, r, ack, m.action, m.luck, s'.initiator);
    } else {
      StepKeeps(m.role, r, i, ack, m.action, m.luck, s'.responder);
      ResponderRoles(i, r, ack, m.action, m.luck, s'.responder);
    }
  }

  /** Once a payload was taken off the new channel, the old one holds none that was not taken before. */
  lemma GotIsPrefix(a: Side, b: Side)
    requires Both(a, b)
    ensures b.got <= a.sent
  {
    DatasPrefix(a.newOut, b.newRead);
    DatasPrefix(a.oldOut, b.oldRead);
    if Resumed(a) {
      assert Saw(b, a, 1);
    } else {
      assert Datas(a.newOut[..b.newRead]) == [];
    }
  }

  /**
   * At every moment of every round, whatever writes, dials and reads fail and however the two sides interleave:
   * what either side got, over both channels, is a prefix of what the other sent, and no drain read took a payload.
   */
  lemma SwapKeepsOrder(ack: bool, todo: (seq<Payload>, seq<Payload>), states: seq<Pair>, moves: seq<Move>, k: nat)
    requires Run(ack, todo, states, moves) && k < |states|
    ensures var s := states[k];
      && s.responder.got <= s.initiator.sent && s.initiator.got <= s.responder.sent
      && (forall m :: m in s.initiator.drained + s.responder.drained ==> !m.Data?)
  {
    RoundKeeps(ack, todo, states, moves, k);
    GotIsPrefix(states[k].initiator, states[k].responder);
    GotIsPrefix(states[k].responder, states[k].initiator);
  }

  /**
   * The goal the code states: a payload goes out on the new channel only after the peer has taken everything
   * that was written on the old one before the swap.
   */
  lemma NewOnlyAfterDrained(
      ack: bool, todo: (seq<Payload>, seq<Payload>), states: seq<Pair>, moves: seq<Move>, k: nat, role: Role)
    requires Run(ack, todo, states, moves) && k < |states|
    requires Datas(Mine(states[k], role).newOut) != []
    ensures var me, peer := Mine(states[k], role), Theirs(states[k], role);
      && me.core.onNew && !me.core.newPaused
      && peer.oldRead <= |me.oldOut|
      && (forall j :: peer.oldRead <= j < |me.oldOut| ==> !me.oldOut[j].Data?)
      && Datas(me.oldOut[..peer.oldRead]) == Datas(me.oldOut)
  {
    RoundKeeps(ack, todo, states, moves, k);
    SaidAfterDrained(Mine(states[k], role), Theirs(states[k], role));
  }

  lemma SaidAfterDrained(me: Side, peer: Side)
    requires Both(me, peer) && Datas(me.newOut) != []
    ensures me.core.onNew && !me.core.newPaused && peer.oldRead <= |me.oldOut|
    ensures forall j :: peer.oldRead <= j < |me.oldOut| ==> !me.oldOut[j].Data?
    ensures Datas(me.oldOut[..peer.oldRead]) == Datas(me.oldOut)
  {
    assert Saw(peer, me, 1);
    DatasPrefix(me.oldOut, peer.oldRead);
  }
}
