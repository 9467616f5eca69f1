/** Every round is finite, and one in which nothing fails ends with both sides on the new channel. */
module HandshakeConvergence {
  import opened Wrappers
  import opened Handshake
  import opened HandshakeSafety

  // -- every round is finite, whatever fails --------------------------------

  function Cost(pending: bool): nat {
    if pending then 6 else 0
  }

  /** What one side still has before it. */
  function Ahead(a: Side): int {
    Cost(!a.begun) + Cost(!a.joined) + Cost(!a.core.onNew) + Cost(a.core.closed.None?) + Cost(!a.cut)
    + (if a.at.AwaitAck? || a.at.AwaitIntroduction? then 1 else 0) + 3 * (3 - a.tail) + 3 * |a.todo|
  }

  /** What `b` has not yet read of what `a` wrote. */
  function Unread(a: Side, b: Side): int {
    |a.oldOut| - b.oldRead + |a.newOut| - b.newRead
  }

  function Measure(s: Pair): int {
    Ahead(s.initiator) + Ahead(s.responder) + 2 * Unread(s.initiator, s.responder) + 2 * Unread(s.responder, s.initiator)
  }

  /** What the measure of `me` and its peer gives `me` to pay with; the rest of it is the peer's own. */
  function Means(a: Side): int {
    Ahead(a) + 2 * |a.oldOut| + 2 * |a.newOut| - 2 * a.oldRead - 2 * a.newRead
  }

  /** A closing message costs less than what is gained by having written it. */
  lemma PutPays(me: Side, peer: Side, ms: seq<Message>)
    ensures var me' := Put(me, peer, ms);
      && Means(me') <= Means(me) && me' == me.(oldOut := me'.oldOut, tail := me'.tail)
  {
  }

  lemma RunPays(me: Side, peer: Side, luck: Luck)
    requires !me.core.onNew && me.core.closed.None?
    ensures Means(RunProtocol(me, peer, luck)) <= Means(me) - 6
  {
    var (c, ms) := Swap(me.core, luck.last, luck.safe);
    PutPays(me, peer, ms);
    assert c.onNew;
  }

  /** What the measure needs of the invariant. */
  predicate Fit(a: Side) {
    && (a.core.onNew ==> a.begun) && (a.core.closed.Some? ==> a.core.onNew)
    && (a.at.Draining? ==> a.core.closed.None?) && (a.at.AwaitAck? || a.at.AwaitIntroduction? ==> !a.core.onNew)
  }

  lemma TakeOldPays(role: Role, me: Side, peer: Side, ack: bool, luck: Luck, me': Side)
    requires Fit(me) && Enabled(role, me, peer, TakeOld, luck)
    requires Took(role, me, peer, ack, luck, me')
    ensures Means(me') < Means(me)
  {
    var m, me1 := peer.oldOut[me.oldRead], me.(oldRead := me.oldRead + 1);
    if (m.LastWrite? && me.core.inProgress) || (m.SafeToClose? && me.core.inProgress && me.core.parked) {
      TakeClosingPays(role, me, peer, ack, luck, me');
    } else if m.Offer? && role.Responder? && !me.begun {
      ReadPays(me, me1);
      MeetOfferPays(me1, peer, ack, luck);
    } else {
      ReadPays(me, me');
    }
  }

  lemma TakeClosingPays(role: Role, me: Side, peer: Side, ack: bool, luck: Luck, me': Side)
    requires OldReadable(me, peer) && (peer.oldOut[me.oldRead].LastWrite? || peer.oldOut[me.oldRead].SafeToClose?)
    requires me.core.inProgress && (peer.oldOut[me.oldRead].SafeToClose? ==> me.core.parked)
    requires Took(role, me, peer, ack, luck, me')
    ensures Means(me') < Means(me)
  {
    var me1 := me.(oldRead := me.oldRead + 1);
    ReadPays(me, me1);
    if peer.oldOut[me.oldRead].LastWrite? {
      AnswerPays(me1, peer, SeeLastWrite(me.core, luck.safe), me1.at, me');
    } else {
      AnswerPays(me1, peer, BeginClose(me.core, luck.write), Draining, me');
    }
  }

  lemma ReadPays(me: Side, me1: Side)
    requires me1 == me.(oldRead := me.oldRead + 1, got := me1.got)
    ensures Means(me1) == Means(me) - 2
  {
  }

  lemma AnswerPays(me: Side, peer: Side, answer: (Core, seq<Message>), at: At, me': Side)
    requires answer.0.onNew == me.core.onNew && (me.core.closed.Some? ==> answer.0.closed.Some?)
    requires at == me.at || at.Draining?
    requires me' == Put(me, peer, answer.1).(core := answer.0, at := at)
    ensures Means(me') <= Means(me)
  {
    PutPays(me, peer, answer.1);
  }

  lemma MeetOfferPays(me: Side, peer: Side, ack: bool, luck: Luck)
    requires me.core.onNew ==> me.begun
    requires me.core.closed.Some? ==> me.core.onNew
    ensures !me.begun ==> Means(MeetOffer(me, peer, ack, luck)) <= Means(me)
  {
    if !me.begun && luck.dial && luck.introduce && !ack {
      var r := me.(begun := true, joined := true, newOut := me.newOut + [Introduction], core := me.core.(inProgress := true));
      RunPays(r, peer, luck);
    }
  }

  /** Every step of either side makes the measure smaller. */
  lemma Decreases(role: Role, me: Side, peer: Side, ack: bool, a: Action, luck: Luck, me': Side)
    requires Fit(me) && Enabled(role, me, peer, a, luck)
    requires me' == Do(role, me, peer, ack, a, luck)
    ensures Means(me') < Means(me)
  {
    if a.TakeOld? {
      DoTakeOld(role, me, peer, ack, luck, me');
      TakeOldPays(role, me, peer, ack, luck, me');
    } else if a.ReadIntroduction? || a.ReadAck? {
      GreetPays(role, me, peer, ack, a, luck, me');
    } else if a.Send? {
      SendPays(me, peer, luck);
    } else {
      OtherPays(role, me, peer, ack, a, luck, me');
    }
  }

  lemma GreetPays(role: Role, me: Side, peer: Side, ack: bool, a: Action, luck: Luck, me': Side)
    requires Fit(me) && Enabled(role, me, peer, a, luck) && (a.ReadIntroduction? || a.ReadAck?)
    requires me' == Do(role, me, peer, ack, a, luck)
    ensures Means(me') < Means(me)
  {
    if a.ReadAck? {
      AckPays(me, peer, luck, me.(newRead := me.newRead + 1, core := me.core.(inProgress := true)));
    } else {
      IntroductionPays(me, peer, luck, me.(newRead := me.newRead + 1, newOut := me.newOut + [IntroductionAck]));
    }
  }

  lemma AckPays(me: Side, peer: Side, luck: Luck, me1: Side)
    requires Fit(me) && me.at.AwaitAck? && me1 == me.(newRead := me.newRead + 1, core := me.core.(inProgress := true))
    ensures Means(RunProtocol(me1, peer, luck)) < Means(me) && Means(me.(at := Idle)) < Means(me)
  {
    RunPays(me1, peer, luck);
  }

  lemma IntroductionPays(me: Side, peer: Side, luck: Luck, me1: Side)
    requires Fit(me) && me.at.AwaitIntroduction?
    requires me1 == me.(newRead := me.newRead + 1, newOut := me.newOut + [IntroductionAck])
    ensures Means(RunProtocol(me1, peer, luck)) < Means(me)
    ensures Means(me1.(at := Idle)) < Means(me) && Means(me.(at := Idle)) < Means(me)
  {
    RunPays(me1, peer, luck);
  }

  lemma SendPays(me: Side, peer: Side, luck: Luck)
    requires me.todo != []
    ensures Means(SendOne(me, peer, luck)) < Means(me)
  {
  }

  lemma OtherPays(role: Role, me: Side, peer: Side, ack: bool, a: Action, luck: Luck, me': Side)
    requires Fit(me) && Enabled(role, me, peer, a, luck)
    requires a.MakeOffer? || a.TakeNew? || a.AcceptSocket? || a.Drain? || a.Cut?
    requires me' == Do(role, me, peer, ack, a, luck)
    ensures Means(me') < Means(me)
  {
  }

  lemma MeasureIsMeans(s: Pair)
    ensures Measure(s) == Means(s.initiator) + Means(s.responder)
  {
  }

  lemma MeasureIsPositive(s: Pair)
    requires Inv(s)
    ensures Measure(s) >= 0
  {
  }

  /** However it goes, a round takes no more steps than this. */
  lemma {:induction false} RoundsAreFinite(
      ack: bool, todo: (seq<Payload>, seq<Payload>), states: seq<Pair>, moves: seq<Move>, k: nat)
    requires Run(ack, todo, states, moves) && k < |states|
    ensures k + Measure(states[k]) <= 78 + 3 * (|todo.0| + |todo.1|)
    ensures k <= 78 + 3 * (|todo.0| + |todo.1|)
    decreases k
  {
    PositiveAt(ack, todo, states, moves, k);
    if k > 0 {
      RoundsAreFinite(ack, todo, states, moves, k - 1);
      PaysAt(ack, todo, states, moves, k);
    }
  }

  lemma PositiveAt(ack: bool, todo: (seq<Payload>, seq<Payload>), states: seq<Pair>, moves: seq<Move>, k: nat)
    requires Run(ack, todo, states, moves) && k < |states|
    ensures Measure(states[k]) >= 0
  {
    RoundKeeps(ack, todo, states, moves, k);
    MeasureIsPositive(states[k]);
  }

  lemma PaysAt(ack: bool, todo: (seq<Payload>, seq<Payload>), states: seq<Pair>, moves: seq<Move>, k: nat)
    requires Run(ack, todo, states, moves) && 0 < k < |states|
    ensures Measure(states[k]) < Measure(states[k - 1])
  {
    RoundKeeps(ack, todo, states, moves, k - 1);
    assert Can(states[k - 1], moves[k - 1]) && states[k - 1 + 1] == After(states[k - 1], ack, moves[k - 1]);
    MovePays(states[k - 1], ack, moves[k - 1], states[k]);
  }

  lemma MovePays(s: Pair, ack: bool, m: Move, s': Pair)
    requires Inv(s) && Can(s, m) && s' == After(s, ack, m)
    ensures Measure(s') < Measure(s)
  {
    FitBoth(s);
    Decreases(m.role, Mine(s, m.role), Theirs(s, m.role), ack, m.action, m.luck, Mine(s', m.role));
    MeasureIsMeans(s);
    MeasureIsMeans(s');
  }

  lemma FitBoth(s: Pair)
    requires Inv(s)
    ensures Fit(s.initiator) && Fit(s.responder)
  {
  }

  // -- what holds when nothing fails ----------------------------------------

  predicate Smooth(a: Side, b: Side) {
    && (a.core.onNew ==> a.tail >= 1 && !a.core.latched && (a.core.parked || a.at.Draining? || a.core.closed.Some?))
    && (a.core.closed.Some? ==> a.core.closed == Some(Upgraded) && Resumed(a) && Saw(a, b, 2) && !a.core.inProgress)
    && (a.core.parked && Saw(a, b, 1) ==> a.tail == 2)
    && (a.at.Draining? || a.core.closed.Some? <==> a.tail == 3)
    && (b.core.closed.Some? ==> a.tail == 3)
    && (Saw(a, b, 2) ==> a.at.Draining? || a.core.closed.Some?)
    && (a.at.Draining? ==> a.oldRead == Head(b) + 2)
    && (a.core.onNew && a.core.closed.None? ==> a.core.inProgress)
    && a.core.reports == (if a.core.closed.Some? then 1 else 0)
    && (a.cut ==> a.core.closed.Some?)
    && (!a.core.onNew ==> a.newRead == 0)
  }

  predicate OfferAhead(i: Side, r: Side) {
    exists j :: r.oldRead <= j < |i.oldOut| && i.oldOut[j].Offer?
  }

  predicate StartsWith(log: seq<Message>, m: Message) {
    log != [] && log[0] == m
  }

  predicate SmoothRoles(i: Side, r: Side) {
    && (i.begun ==> Offered(i)) && (i.begun && !r.begun ==> OfferAhead(i, r))
    && (r.begun ==> r.joined) && (r.joined ==> r.at.AwaitAck? || r.core.onNew)
    && (i.joined ==> i.at.AwaitIntroduction? || i.core.onNew)
    && (if r.joined then StartsWith(r.newOut, Introduction) else r.newOut == [])
    && (if i.core.onNew then StartsWith(i.newOut, IntroductionAck) else i.newOut == [])
  }

  /** Nothing can happen any more. */
  ghost predicate Over(s: Pair) {
    forall role, a :: !Can(s, Move(role, a, ALL_WELL))
  }

  /** One side is through: on the new channel, the old one closed as upgraded, everything sent and received. */
  predicate Settled(a: Side, todo: seq<Payload>, theirs: seq<Payload>) {
    && a.core == Core(false, false, false, true, false, 1, Some(Upgraded)) && a.at.Idle?
    && a.todo == [] && a.sent == todo && a.got == theirs
  }

  ghost predicate SmoothInv(s: Pair) {
    Inv(s) && Smooth(s.initiator, s.responder) && Smooth(s.responder, s.initiator) && SmoothRoles(s.initiator, s.responder)
  }

  /** Both have met: as long as one of them has not swapped, something can happen. */
  lemma OverMeansSwapped(s: Pair)
    requires SmoothInv(s) && Over(s)
    ensures s.initiator.core.onNew && s.responder.core.onNew
  {
    var i, r := s.initiator, s.responder;
    assert !Can(s, Move(Initiator, MakeOffer, ALL_WELL));
    assert i.begun;
    assert !Can(s, Move(Responder, TakeOld, ALL_WELL));
    assert r.begun;
    assert !Can(s, Move(Initiator, AcceptSocket, ALL_WELL));
    assert i.joined;
    assert !Can(s, Move(Initiator, ReadIntroduction, ALL_WELL));
    assert i.core.onNew;
    assert !Can(s, Move(Responder, ReadAck, ALL_WELL));
  }

  /** Both have swapped: as long as one of them has not closed the old channel, something can happen. */
  lemma OverMeansClosed(s: Pair, role: Role)
    requires SmoothInv(s) && Over(s) && s.initiator.core.onNew && s.responder.core.onNew
    ensures Mine(s, role).core.closed.Some?
  {
    OverMeansStuck(s, role);
    StuckMeansClosed(Mine(s, role), Theirs(s, role));
  }

  lemma OverMeansStuck(s: Pair, role: Role)
    requires Over(s)
    ensures Stuck(Mine(s, role), Theirs(s, role)) && Stuck(Theirs(s, role), Mine(s, role))
  {
    assert !Can(s, Move(Initiator, TakeOld, ALL_WELL)) && !Can(s, Move(Responder, TakeOld, ALL_WELL));
    assert !Can(s, Move(Initiator, Drain, ALL_WELL)) && !Can(s, Move(Responder, Drain, ALL_WELL));
  }

  /** Neither the next message nor the drain read is there to be had. */
  predicate Stuck(a: Side, b: Side) {
    !Enabled(Initiator, a, b, TakeOld, ALL_WELL) && !Enabled(Initiator, a, b, Drain, ALL_WELL)
  }

  /** Two sides that have swapped and can neither take from the old channel nor drain it have closed it. */
  lemma StuckMeansClosed(a: Side, b: Side)
    requires Both(a, b) && Smooth(a, b) && Smooth(b, a) && a.core.onNew && b.core.onNew
    requires Stuck(a, b) && Stuck(b, a)
    ensures a.core.closed.Some?
  {
  }

  lemma OverMeansSettled(s: Pair, todo: (seq<Payload>, seq<Payload>))
    requires SmoothInv(s) && Over(s)
    requires s.initiator.sent + s.initiator.todo == todo.0 && s.responder.sent + s.responder.todo == todo.1
    ensures Settled(s.initiator, todo.0, todo.1) && Settled(s.responder, todo.1, todo.0)
  {
    OverMeansSwapped(s);
    OverMeansClosed(s, Initiator);
    OverMeansClosed(s, Responder);
    AllGot(s, Initiator);
    AllGot(s, Responder);
  }

  lemma AllGot(s: Pair, role: Role)
    requires SmoothInv(s) && Over(s) && s.initiator.core.closed.Some? && s.responder.core.closed.Some?
    ensures Mine(s, role).todo == [] && Theirs(s, role).got == Mine(s, role).sent
  {
    assert !Can(s, Move(role, Send, ALL_WELL));
    assert !Can(s, Move(if role.Initiator? then Responder else Initiator, TakeNew, ALL_WELL));
    AllRead(Mine(s, role), Theirs(s, role));
  }

  lemma AllRead(a: Side, b: Side)
    requires Both(a, b) && Saw(b, a, 1) && !NewReadable(b, a)
    ensures b.got == a.sent
  {
    DatasPrefix(a.oldOut, b.oldRead);
    assert a.newOut[..b.newRead] == a.newOut;
  }

  // -- nothing fails: the steps ---------------------------------------------

  predicate BothSmooth(a: Side, b: Side) {
    Smooth(a, b) && Smooth(b, a)
  }

  lemma SmoothQuiet(me: Side, peer: Side, me': Side)
    requires Both(me, peer) && BothSmooth(me, peer) && OldReadable(me, peer) && !me.at.Draining? && me.core.closed.None?
    requires !peer.oldOut[me.oldRead].LastWrite? && !peer.oldOut[me.oldRead].SafeToClose?
    requires me' == TookOld(me, peer.oldOut[me.oldRead])
    ensures BothSmooth(me', peer)
  {
    ReadOnSees(me, peer, me');
  }

  lemma SmoothLastWrite(me: Side, peer: Side, me': Side)
    requires Both(me, peer) && BothSmooth(me, peer) && OldReadable(me, peer) && me.core.closed.None? && !me.at.Draining?
    requires peer.oldOut[me.oldRead].LastWrite? && me.core.inProgress
    requires me' == Put(me.(oldRead := me.oldRead + 1), peer, SeeLastWrite(me.core, true).1)
                      .(core := SeeLastWrite(me.core, true).0)
    ensures BothSmooth(me', peer)
  {
    ReadOnSees(me, peer, me');
    NextMessage(peer, me);
    assert |me.oldOut + [SafeToClose]| == |me.oldOut| + 1;
    assert |me.oldOut + []| == |me.oldOut|;
  }

  lemma SmoothSafeToClose(me: Side, peer: Side, me': Side)
    requires Both(me, peer) && BothSmooth(me, peer) && OldReadable(me, peer) && me.core.closed.None? && me.at.Idle?
    requires peer.oldOut[me.oldRead].SafeToClose? && me.core.parked
    requires me' == Put(me.(oldRead := me.oldRead + 1), peer, BeginClose(me.core, true).1)
                      .(core := BeginClose(me.core, true).0, at := Draining)
    ensures BothSmooth(me', peer)
  {
    ReadOnSees(me, peer, me');
    NextMessage(peer, me);
    assert |me.oldOut + [Disconnection]| == |me.oldOut| + 1;
  }

  lemma SmoothSwap(me: Side, peer: Side, me': Side)
    requires Both(me, peer) && !me.core.onNew && me.begun && me.core.inProgress && !me.at.Draining?
    requires Saw(me, peer, 1) ==> me.core.latched
    requires !me.core.closed.Some? && me.core.reports == 0 && !me.cut && !Saw(me, peer, 2) && Smooth(peer, me)
    requires me' == RunProtocol(me, peer, ALL_WELL)
    ensures BothSmooth(me', peer)
  {
    OpenUntilSwap(me, peer);
    SwapLog(me, peer, ALL_WELL);
  }

  lemma SmoothDrain(role: Role, me: Side, peer: Side, ack: bool, me': Side)
    requires Both(me, peer) && BothSmooth(me, peer) && Enabled(role, me, peer, Drain, ALL_WELL)
    requires me' == Do(role, me, peer, ack, Drain, ALL_WELL)
    ensures BothSmooth(me', peer)
  {
    if OldReadable(me, peer) {
      NextMessage(peer, me);
    }
  }

  lemma SmoothOther(role: Role, me: Side, peer: Side, ack: bool, a: Action, me': Side)
    requires Both(me, peer) && BothSmooth(me, peer) && Enabled(role, me, peer, a, ALL_WELL)
    requires a.MakeOffer? || a.TakeNew? || a.AcceptSocket? || a.Send? || a.Cut?
    requires me' == Do(role, me, peer, ack, a, ALL_WELL)
    ensures BothSmooth(me', peer)
  {
  }

  /** A closing message finds the manager ready for it. */
  lemma Expected(role: Role, me: Side, peer: Side)
    requires Both(me, peer) && BothSmooth(me, peer) && Enabled(role, me, peer, TakeOld, ALL_WELL)
    requires if role.Initiator? then Roles(me, peer) && SmoothRoles(me, peer) else Roles(peer, me) && SmoothRoles(peer, me)
    ensures peer.oldOut[me.oldRead].LastWrite? ==> me.core.inProgress
    ensures peer.oldOut[me.oldRead].SafeToClose? ==> me.core.inProgress && me.core.parked
  {
    NextMessage(peer, me);
  }

  lemma SmoothOffer(i: Side, r: Side, ack: bool, r': Side)
    requires Both(r, i) && BothSmooth(r, i) && Roles(i, r) && Enabled(Responder, r, i, TakeOld, ALL_WELL)
    requires i.oldOut[r.oldRead].Offer? && !r.begun
    requires r' == MeetOffer(r.(oldRead := r.oldRead + 1), i, ack, ALL_WELL)
    ensures BothSmooth(r', i)
  {
    var r1 := r.(oldRead := r.oldRead + 1);
    QuietKeeps(r, i, r1);
    SmoothQuiet(r, i, r1);
    ReadOnSees(r, i, r1);
    var r2 := r1.(begun := true, joined := true, newOut := r1.newOut + [Introduction],
                  at := if ack then AwaitAck else r1.at, core := r1.core.(inProgress := r1.core.inProgress || !ack));
    GreetingKeeps(r1, i, r2, Introduction);
    if !ack {
      SmoothSwap(r2, i, r');
    }
  }

  lemma SmoothTakeOld(role: Role, me: Side, peer: Side, ack: bool, me': Side)
    requires Both(me, peer) && BothSmooth(me, peer) && Enabled(role, me, peer, TakeOld, ALL_WELL)
    requires if role.Initiator? then Roles(me, peer) && SmoothRoles(me, peer) else Roles(peer, me) && SmoothRoles(peer, me)
    requires Took(role, me, peer, ack, ALL_WELL, me')
    ensures BothSmooth(me', peer)
  {
    var m := peer.oldOut[me.oldRead];
    Expected(role, me, peer);
    if m.LastWrite? {
      SmoothLastWrite(me, peer, me');
    } else if m.SafeToClose? {
      SmoothSafeToClose(me, peer, me');
    } else if m.Offer? && role.Responder? && !me.begun {
      SmoothOffer(peer, me, ack, me');
    } else {
      SmoothQuiet(me, peer, me');
    }
  }

  lemma SmoothIntroduction(i: Side, r: Side, ack: bool, i': Side)
    requires Both(i, r) && BothSmooth(i, r) && Roles(i, r) && SmoothRoles(i, r)
    requires Enabled(Initiator, i, r, ReadIntroduction, ALL_WELL)
    requires i' == Do(Initiator, i, r, ack, ReadIntroduction, ALL_WELL)
    ensures BothSmooth(i', r)
  {
    var i2 := TookNew(i, Introduction).(newOut := i.newOut + [IntroductionAck]);
    IntroductionIsRead(i, r, ack, i2);
    IntroductionSwaps(i, r, i2, i');
  }

  lemma IntroductionIsRead(i: Side, r: Side, ack: bool, i2: Side)
    requires Ordered(i, r) && Smooth(i, r) && Roles(i, r) && SmoothRoles(i, r)
    requires Enabled(Initiator, i, r, ReadIntroduction, ALL_WELL)
    requires i2 == TookNew(i, Introduction).(newOut := i.newOut + [IntroductionAck])
    ensures r.newOut[i.newRead].Introduction? && Do(Initiator, i, r, ack, ReadIntroduction, ALL_WELL) == RunProtocol(i2, r, ALL_WELL)
  {
  }

  lemma IntroductionSwaps(i: Side, r: Side, i2: Side, i': Side)
    requires Both(i, r) && BothSmooth(i, r) && Roles(i, r) && SmoothRoles(i, r)
    requires i.at.AwaitIntroduction? && NewReadable(i, r) && r.newOut[i.newRead].Introduction?
    requires i2 == TookNew(i, Introduction).(newOut := i.newOut + [IntroductionAck])
    requires i' == RunProtocol(i2, r, ALL_WELL)
    ensures BothSmooth(i', r)
  {
    IntroductionStarts(i, r, i2);
    SmoothSwap(i2, r, i');
  }

  lemma IntroductionStarts(i: Side, r: Side, i2: Side)
    requires Both(i, r) && i.at.AwaitIntroduction? && NewReadable(i, r) && r.newOut[i.newRead].Introduction?
    requires i2 == TookNew(i, Introduction).(newOut := i.newOut + [IntroductionAck])
    ensures Both(i2, r)
  {
    TakeNewKeeps(i, r);
    GreetingKeeps(TookNew(i, Introduction), r, i2, IntroductionAck);
  }

  lemma SmoothAck(i: Side, r: Side, ack: bool, r': Side)
    requires Both(r, i) && BothSmooth(r, i) && Roles(i, r) && SmoothRoles(i, r)
    requires Enabled(Responder, r, i, ReadAck, ALL_WELL)
    requires r' == Do(Responder, r, i, ack, ReadAck, ALL_WELL)
    ensures BothSmooth(r', i)
  {
    var r2 := TookNew(r, IntroductionAck).(core := r.core.(inProgress := true));
    AckStarts(i, r, r2);
    SmoothSwap(r2, i, r');
  }

  lemma SmoothStep(role: Role, me: Side, peer: Side, ack: bool, a: Action, me': Side)
    requires Both(me, peer) && BothSmooth(me, peer) && Enabled(role, me, peer, a, ALL_WELL)
    requires if role.Initiator? then Roles(me, peer) && SmoothRoles(me, peer) else Roles(peer, me) && SmoothRoles(peer, me)
    requires me' == Do(role, me, peer, ack, a, ALL_WELL)
    ensures BothSmooth(me', peer)
  {
    if a.TakeOld? {
      DoTakeOld(role, me, peer, ack, ALL_WELL, me');
      SmoothTakeOld(role, me, peer, ack, me');
    } else if a.ReadIntroduction? {
      SmoothIntroduction(me, peer, ack, me');
    } else if a.ReadAck? {
      SmoothAck(peer, me, ack, me');
    } else if a.Drain? {
      SmoothDrain(role, me, peer, ack, me');
    } else {
      SmoothOther(role, me, peer, ack, a, me');
    }
  }

  // -- the roles, and what was sent -----------------------------------------

  lemma StillAhead(i: Side, r: Side, i': Side, r': Side)
    requires OfferAhead(i, r) && i.oldOut <= i'.oldOut && r.oldRead <= r'.oldRead
    requires r'.oldRead == r.oldRead || (r'.oldRead == r.oldRead + 1 && r.oldRead < |i.oldOut| && !i.oldOut[r.oldRead].Offer?)
    ensures OfferAhead(i', r')
  {
    var j :| r.oldRead <= j < |i.oldOut| && i.oldOut[j].Offer?;
    assert i'.oldOut[j].Offer?;
  }

  lemma OfferMade(i: Side, r: Side)
    requires r.oldRead <= |i.oldOut|
    ensures OfferAhead(i.(oldOut := i.oldOut + [Offer]), r)
  {
    assert (i.oldOut + [Offer])[|i.oldOut|] == Offer;
  }

  lemma InitiatorSmooth(i: Side, r: Side, ack: bool, a: Action, i': Side)
    requires Ordered(i, r) && Smooth(i, r) && Roles(i, r) && SmoothRoles(i, r) && r.oldRead <= |i.oldOut|
    requires Enabled(Initiator, i, r, a, ALL_WELL)
    requires i' == Do(Initiator, i, r, ack, a, ALL_WELL)
    ensures SmoothRoles(i', r)
  {
    OfferMade(i, r);
    if a.TakeOld? {
      DoTakeOld(Initiator, i, r, ack, ALL_WELL, i');
    }
    if i.begun && !r.begun {
      assert i.oldOut <= i'.oldOut;
      StillAhead(i, r, i', r);
    }
  }

  lemma Sends(role: Role, me: Side, peer: Side, ack: bool, a: Action, me': Side)
    requires Enabled(role, me, peer, a, ALL_WELL) && me' == Do(role, me, peer, ack, a, ALL_WELL)
    ensures me'.sent + me'.todo == me.sent + me.todo
  {
    if a.Send? {
      HandOver(me.sent, me.todo);
      assert me' == SendOne(me, peer, ALL_WELL);
    } else {
      SendsNothing(role, me, peer, ack, a, me');
    }
  }

  lemma HandOver(sent: seq<Payload>, todo: seq<Payload>)
    requires todo != []
    ensures (sent + [todo[0]]) + todo[1..] == sent + todo
  {
  }

  lemma SendsNothing(role: Role, me: Side, peer: Side, ack: bool, a: Action, me': Side)
    requires Enabled(role, me, peer, a, ALL_WELL) && me' == Do(role, me, peer, ack, a, ALL_WELL) && !a.Send?
    ensures me'.sent == me.sent && me'.todo == me.todo
  {
    if a.TakeOld? {
      DoTakeOld(role, me, peer, ack, ALL_WELL, me');
      TakingSendsNothing(role, me, peer, ack, me');
    }
  }

  lemma TakingSendsNothing(role: Role, me: Side, peer: Side, ack: bool, me': Side)
    requires OldReadable(me, peer) && Took(role, me, peer, ack, ALL_WELL, me')
    ensures me'.sent == me.sent && me'.todo == me.todo
  {
  }

  lemma ResponderSmooth(i: Side, r: Side, ack: bool, a: Action, r': Side)
    requires Ordered(r, i) && Smooth(r, i) && Roles(i, r) && SmoothRoles(i, r) && Enabled(Responder, r, i, a, ALL_WELL)
    requires r' == Do(Responder, r, i, ack, a, ALL_WELL)
    ensures SmoothRoles(i, r')
  {
    if i.begun && !r'.begun {
      StillAhead(i, r, i, r');
    }
  }

  /** A run in which nothing fails. */
  ghost predicate SmoothRun(ack: bool, todo: (seq<Payload>, seq<Payload>), states: seq<Pair>, moves: seq<Move>) {
    Run(ack, todo, states, moves) && forall k :: 0 <= k < |moves| ==> moves[k].luck == ALL_WELL
  }

  lemma {:induction false} SmoothKeeps(
      ack: bool, todo: (seq<Payload>, seq<Payload>), states: seq<Pair>, moves: seq<Move>, k: nat)
    requires SmoothRun(ack, todo, states, moves) && k < |states|
    ensures SmoothInv(states[k])
    ensures states[k].initiator.sent + states[k].initiator.todo == todo.0
    ensures states[k].responder.sent + states[k].responder.todo == todo.1
    decreases k
  {
    RoundKeeps(ack, todo, states, moves, k);
    if k > 0 {
      SmoothKeeps(ack, todo, states, moves, k - 1);
      var s, m := states[k - 1], moves[k - 1];
      assert Can(s, m) && states[k - 1 + 1] == After(s, ack, m);
      SmoothMove(s, ack, m, states[k]);
    }
  }

  lemma SmoothMove(s: Pair, ack: bool, m: Move, s': Pair)
    requires SmoothInv(s) && Can(s, m) && m.luck == ALL_WELL && s' == After(s, ack, m) && Inv(s')
    ensures SmoothInv(s')
    ensures s'.initiator.sent + s'.initiator.todo == s.initiator.sent + s.initiator.todo
    ensures s'.responder.sent + s'.responder.todo == s.responder.sent + s.responder.todo
  {
    var i, r := s.initiator, s.responder;
    if m.role.Initiator? {
      SmoothStep(m.role, i, r, ack, m.action, s'.initiator);
      InitiatorSmooth(i, r, ack, m.action, s'.initiator);
      Sends(m.role, i, r, ack, m.action, s'.initiator);
    } else {
      SmoothStep(m.role, r, i, ack, m.action, s'.responder);
      ResponderSmooth(i, r, ack, m.action, s'.responder);
      Sends(m.role, r, i, ack, m.action, s'.responder);
    }
  }

  /**
   * A round in which nothing fails goes on until both sides are settled: with or without an acknowledged
   * introduction, however early LAST_WRITE arrives, and in whatever order the two sides move. If nothing can
   * happen any more, both have the new channel registered and resumed, the old one closed as upgraded, nothing
   * parked or latched, no upgrade in progress, one success reported, and every payload sent and delivered.
   */
  lemma RoundSettles(ack: bool, todo: (seq<Payload>, seq<Payload>), states: seq<Pair>, moves: seq<Move>, k: nat)
    requires SmoothRun(ack, todo, states, moves) && k < |states|
    ensures Over(states[k]) ==>
      Settled(states[k].initiator, todo.0, todo.1) && Settled(states[k].responder, todo.1, todo.0)
  {
    SmoothKeeps(ack, todo, states, moves, k);
    if Over(states[k]) {
      OverMeansSettled(states[k], todo);
    }
  }

  /** In other words, there is no deadlock: short of being settled, some side can move. */
  lemma NoDeadlock(ack: bool, todo: (seq<Payload>, seq<Payload>), states: seq<Pair>, moves: seq<Move>, k: nat) returns (m: Move)
    requires SmoothRun(ack, todo, states, moves) && k < |states|
    requires !(Settled(states[k].initiator, todo.0, todo.1) && Settled(states[k].responder, todo.1, todo.0))
    ensures Can(states[k], m) && m.luck == ALL_WELL
  {
    RoundSettles(ack, todo, states, moves, k);
    var role, a :| Can(states[k], Move(role, a, ALL_WELL));
    m := Move(role, a, ALL_WELL);
  }

  /** Without an acknowledged introduction LAST_WRITE does overtake the socket, and is latched. */
  lemma EarlyLastWriteHappens() returns (states: seq<Pair>, moves: seq<Move>)
    ensures SmoothRun(false, ([], []), states, moves)
    ensures states[|moves|].initiator.core.latched && !states[|moves|].initiator.core.onNew
  {
    moves := [Move(Initiator, MakeOffer, ALL_WELL), Move(Responder, TakeOld, ALL_WELL), Move(Initiator, TakeOld, ALL_WELL)];
    var s0 := Pair(Clean([]), Clean([]));
    var s1 := After(s0, false, moves[0]);
    assert s1.initiator.oldOut == [Offer];
    var s2 := After(s1, false, moves[1]);
    assert s2.responder.oldOut == [LastWrite];
    states := [s0, s1, s2, After(s2, false, moves[2])];
  }
}
