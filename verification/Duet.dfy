/**
 * Two managers joined by the channels between them. Each makes its calls when the message a call is about arrives;
 * what its log says it wrote goes into the channels; a call that waits for a message holds its manager up while the
 * other side and the applications go on. Seen from outside such a pair is a two-party round, so what holds of every
 * round holds of two managers.
 */
module Duet {
  import opened Wrappers
  import opened ServiceIds
  import opened Protocol
  import opened BwuSpec
  import opened Frames
  import opened HandshakeRefinement
  import opened HandshakeDispatch
  import H = Handshake
  import Safety = HandshakeSafety

  // -- one half -------------------------------------------------------------

  /** What does not change in a round: the surroundings, the part played, the endpoint, the old and the new channel. */
  datatype Place = Place(env: Env, role: H.Role, e: EndpointId, o: Channel, n: Channel)

  /** The call the manager is in, if it waits: for the acknowledgement, for the introduction, or in the drain read. */
  datatype Flight = Answering(info: PathInfo) | Accepting | Closing

  /**
   * A manager, the call it waits in, and its ends of the channels. Of `ends` neither `core` nor `at` is looked at:
   * the manager says what they are.
   */
  datatype Half = Half(s: State, flight: Option<Flight>, ends: H.Side)

  function CoreNow(p: Place, h: Half): H.Core {
    var c := CoreOf(h.s, p.e, p.o, p.n);
    if h.flight == Some(Closing) then c.(parked := false) else c
  }

  function AtNow(h: Half): H.At {
    match h.flight
    case None => H.Idle
    case Some(Answering(_)) => H.AwaitAck
    case Some(Accepting) => H.AwaitIntroduction
    case Some(Closing) => H.Draining
  }

  /** The side of the round that the half shows. */
  function View(p: Place, h: Half): H.Side {
    h.ends.(core := CoreNow(p, h), at := AtNow(h))
  }

  // -- what a call puts into the channels -----------------------------------

  /** What was written on `c` between two points of a log. */
  function Spoken(before: Log, after: Log, c: Channel): seq<H.Message> {
    if |Out(before, c)| <= |Out(after, c)| then Out(after, c)[|Out(before, c)|..] else []
  }

  lemma SpokenIs(before: Log, after: Log, c: Channel, ms: seq<H.Message>)
    requires Out(after, c) == Out(before, c) + ms
    ensures Spoken(before, after, c) == ms
  {
  }

  /** The channels take it; the old one does not once it is closed at either end. */
  function Take(ends: H.Side, open: bool, before: Log, after: Log, p: Place): H.Side {
    var ends1 := ends.(newOut := ends.newOut + Spoken(before, after, p.n));
    if open then ends1.(oldOut := ends1.oldOut + Spoken(before, after, p.o),
      tail := ends1.tail + |Spoken(before, after, p.o)|)
    else ends1
  }

  // -- the calls ------------------------------------------------------------

  predicate Free(h: Half) {
    h.flight.None?
  }

  /** The upgrade is started, and the failover goes as far as it goes. */
  ghost predicate Offers(p: Place, h: Half, h': Half, m: Medium, os: seq<Outcome>) {
    && p.role.Initiator? && Free(h) && !h.ends.begun && Viable(h.s, p.e, m)
    && Leads(p.env, h.s, Call(Initiate(p.e, m), os), h'.s) && h'.flight.None?
    && h'.ends == h.ends.(begun := true, oldOut := h.ends.oldOut + Spoken(h.s.io.log, h'.s.io.log, p.o),
                          newOut := h.ends.newOut + Spoken(h.s.io.log, h'.s.io.log, p.n))
  }

  /** The next message on the old channel is `m`, and the manager is handed it. */
  predicate Handed(p: Place, h: Half, q: H.Side, m: H.Message) {
    && Free(h) && H.OldReadable(View(p, h), q) && CoreOf(h.s, p.e, p.o, p.n).closed.None?
    && q.oldOut[h.ends.oldRead] == m
  }

  /** The medium comes up on this side and the introduction is written. */
  predicate Joins(p: Place, s: State, info: PathInfo) {
    Dials(p.env, s, info) && Introduces(p.env, s, p.e, info, p.o)
  }

  /** The offer is met: the call is over unless it waits for the acknowledgement. */
  ghost predicate Meets(p: Place, h: Half, q: H.Side, ack: bool, h': Half, info: PathInfo) {
    var s0 := Adopted(p.env, h.s, p.e, info.medium);
    var t, met := OnFrame(p.env, h.s, p.e, PathAvailable(Some(info))).state,
      h.ends.(begun := true, oldRead := h.ends.oldRead + 1);
    && p.role.Responder? && !h.ends.begun && Handed(p, h, q, H.Offer)
    && TakesUp(p.env, h.s, p.e, info) && info.introductionAck == ack && p.n == Dialled(h.s, info, p.o)
    && if Joins(p, s0, info) && ack then
         h' == Half(h.s, Some(Answering(info)),
                    Take(met.(joined := true), true, h.s.io.log, Wanted(s0, p.e, info, p.o, true), p))
       else
         && h' == Half(t, None, Take(met.(joined := h.ends.joined || Joins(p, s0, info)), true, h.s.io.log, t.io.log,
           p))
         && (!Joins(p, s0, info) ==> Next(p.env, Dial(p.env, s0, p.e, info).0.io.log))
  }

  /** The manager declines the offer, or ignores it: it may not use this medium, or it is the one that was called. */
  predicate Declines(p: Place, h: Half, q: H.Side, h': Half, info: PathInfo) {
    var t := OnFrame(p.env, h.s, p.e, PathAvailable(Some(info))).state;
    && p.role.Responder? && !h.ends.begun && Handed(p, h, q, H.Offer) && p.e !in h.s.up.inProgress
    && !TakesUp(p.env, h.s, p.e, info) && (t == h.s || Next(p.env, h.s.io.log))
    && h' == Half(t, None, Take(h.ends.(begun := true, oldRead := h.ends.oldRead + 1), true, h.s.io.log, t.io.log, p))
  }

  /** The wait for the acknowledgement ends: with it, or without. */
  ghost predicate EndsAnswer(p: Place, h: Half, q: H.Side, receive: bool, h': Half) {
    h.flight.Some? && h.flight.value.Answering? && (
      var info := h.flight.value.info;
      var s0 := Adopted(p.env, h.s, p.e, info.medium);
      var t := OnFrame(p.env, h.s, p.e, PathAvailable(Some(info))).state;
      var mid := Wanted(s0, p.e, info, p.o, true);
      && (receive ==> H.NewReadable(View(p, h), q))
      && (Acknowledged(p.env, s0, p.e, info, p.o) <==> receive && q.newOut[h.ends.newRead] == H.IntroductionAck)
      && (var got := Acknowledged(p.env, s0, p.e, info, p.o);
        && h' == Half(t, None, Take(h.ends.(newRead := h.ends.newRead + if got then 1 else 0), true, mid, t.io.log, p))
        && (!got ==> Next(p.env, Dial(p.env, s0, p.e, info).0.io.log))))
  }

  /** The socket arrives, and the manager waits for its introduction. */
  predicate Accepts(p: Place, h: Half, q: H.Side, h': Half) {
    && p.role.Initiator? && Free(h) && q.joined && !h.ends.joined
    && h' == Half(h.s, Some(Accepting), h.ends.(joined := true))
  }

  /** That wait ends. */
  ghost predicate EndsAccept(p: Place, h: Half, q: H.Side, receive: bool, h': Half) {
    && h.flight == Some(Accepting) && (p.e in h.s.up.inProgress || |h.s.up.inProgress| != 1)
    && (receive ==> H.NewReadable(View(p, h), q))
    && (var readable := receive && q.newOut[h.ends.newRead] == H.Introduction;
      var t := OnIncoming(p.env, h.s, p.n, if readable then Some(p.e) else None);
      var greeted := readable && Next(p.env, h.s.io.log + [IntroductionRead(p.n, true)]);
      h' == Half(t, None, Take(h.ends.(newRead := h.ends.newRead + if greeted then 1 else 0), true, h.s.io.log,
        t.io.log, p)))
  }

  predicate BothOpen(p: Place, h: Half, q: H.Side) {
    CoreOf(h.s, p.e, p.o, p.n).closed.None? && q.core.closed.None?
  }

  /** LAST_WRITE arrives. */
  ghost predicate SeesLastWrite(p: Place, h: Half, q: H.Side, h': Half) {
    var t := OnFrame(p.env, h.s, p.e, LastWriteToPriorChannel).state;
    && Handed(p, h, q, H.LastWrite)
    && h' == Half(t, None, Take(h.ends.(oldRead := h.ends.oldRead + 1), BothOpen(p, h, q), h.s.io.log, t.io.log, p))
  }

  /** The log up to the drain read. */
  function Goodbye(p: Place, s: State): Log {
    var off := s.io.log + [EncryptionOff(p.e, p.o)];
    off + [Wrote(p.e, p.o, Disconnection, Next(p.env, off))]
  }

  predicate Closes(p: Place, s: State) {
    p.e in s.up.inProgress && p.e in s.up.parked
  }

  /** SAFE_TO_CLOSE arrives; if there is a parked channel, the manager goes on to the drain read. */
  ghost predicate SeesSafeToClose(p: Place, h: Half, q: H.Side, h': Half) {
    var t, ends := OnFrame(p.env, h.s, p.e, SafeToClosePriorChannel).state, h.ends.(oldRead := h.ends.oldRead + 1);
    && Handed(p, h, q, H.SafeToClose)
    && h' == if Closes(p, h.s) then Half(h.s, Some(Closing),
      Take(ends, BothOpen(p, h, q), h.s.io.log, Goodbye(p, h.s), p))
             else Half(t, None, ends)
  }

  /** The drain read ends: with a message, at the end of the stream, or failing. */
  ghost predicate EndsDrain(p: Place, h: Half, q: H.Side, receive: bool, h': Half) {
    && h.flight == Some(Closing)
    && (!receive || H.OldReadable(View(p, h), q) || H.OldEnded(View(p, h), q))
    && (var t := OnFrame(p.env, h.s, p.e, SafeToClosePriorChannel).state;
      h' == Half(t, None, if !receive || !H.OldReadable(View(p, h), q) then h.ends
                          else h.ends.(oldRead := h.ends.oldRead + 1,
                            drained := h.ends.drained + [q.oldOut[h.ends.oldRead]])))
  }

  /** An application, or the channel, does something; the manager is not asked. */
  predicate Application(p: Place, h: Half, q: H.Side, ack: bool, a: H.Action, luck: H.Luck, h': Half) {
    && H.Enabled(p.role, View(p, h), q, a, luck)
    && (a.Send? || a.TakeNew? || a.Cut? || (a.TakeOld? && q.oldOut[h.ends.oldRead].Data?))
    && h' == h.(ends := H.Do(p.role, View(p, h), q, ack, a, luck))
  }

  /** A call of the manager about other things: it leaves the round as it is and says nothing on its channels. */
  ghost predicate Elsewhere(p: Place, h: Half, call: Call, h': Half) {
    && Free(h) && h' == h.(s := h'.s) && Leads(p.env, h.s, call, h'.s)
    && CoreOf(h'.s, p.e, p.o, p.n) == CoreOf(h.s, p.e, p.o, p.n) && InRound(h'.s, p.e, p.o, p.n)
    && ClientOf(h'.s, p.e).connected
  }

  // -- what stays true of a half --------------------------------------------

  predicate Engaged(p: Place, h: Half) {
    && InRound(h.s, p.e, p.o, p.n) && ClientOf(h.s, p.e).connected
    && match h.flight
       case None => true
       case Some(Accepting) => true
       case Some(Closing) => Closes(p, h.s) && h.s.registry[p.e] == p.n
       case Some(Answering(info)) =>
         && TakesUp(p.env, h.s, p.e, info) && info.introductionAck && p.n == Dialled(h.s, info, p.o)
         && Joins(p, Adopted(p.env, h.s, p.e, info.medium), info)
         && h.s.registry[p.e] == p.o && p.e !in h.s.up.parked
  }

  // -- each step is one of the round ----------------------------------------

  /** From `me` the round goes on to `me'`, with the peer `q`. */
  ghost predicate Goes(p: Place, me: H.Side, q: H.Side, ack: bool, me': H.Side) {
    exists a, luck :: H.Enabled(p.role, me, q, a, luck) && me' == H.Do(p.role, me, q, ack, a, luck)
  }

  lemma ApplicationGoes(p: Place, h: Half, q: H.Side, ack: bool, a: H.Action, luck: H.Luck, h': Half)
    requires Engaged(p, h) && Application(p, h, q, ack, a, luck, h')
    ensures Engaged(p, h') && Goes(p, View(p, h), q, ack, View(p, h'))
  {
    ApplicationLeaves(p, View(p, h), q, ack, a, luck);
    assert View(p, h') == H.Do(p.role, View(p, h), q, ack, a, luck);
  }

  lemma ApplicationLeaves(p: Place, me: H.Side, q: H.Side, ack: bool, a: H.Action, luck: H.Luck)
    requires H.Enabled(p.role, me, q, a, luck)
    requires a.Send? || a.TakeNew? || a.Cut? || (a.TakeOld? && q.oldOut[me.oldRead].Data?)
    ensures var me' := H.Do(p.role, me, q, ack, a, luck); me'.core == me.core && me'.at == me.at
  {
  }

  /** Before the swap the endpoint uses the old channel, with nothing parked, and both ends of it are open. */
  lemma BeforeSwap(p: Place, h: Half, q: H.Side)
    requires Engaged(p, h) && Safety.Both(View(p, h), q) && !View(p, h).core.onNew && !(h.flight == Some(Closing))
    ensures h.s.registry[p.e] == p.o && p.e !in h.s.up.parked && HandshakeDispatch.Open(View(p, h), q)
  {
    Safety.OpenUntilSwap(View(p, h), q);
  }

  /** The manager is free again, and the half shows what the round made of its side. */
  lemma Became(p: Place, h: Half, q: H.Side, ack: bool, a: H.Action, luck: H.Luck, me': H.Side, h': Half)
    requires H.Enabled(p.role, View(p, h), q, a, luck) && me' == H.Do(p.role, View(p, h), q, ack, a, luck)
    requires h'.flight.None? && me'.at.Idle? && h'.ends.(core := me'.core, at := me'.at) == me'
    requires CoreOf(h'.s, p.e, p.o, p.n) == me'.core && InRound(h'.s, p.e, p.o, p.n) && ClientOf(h'.s, p.e).connected
    ensures Engaged(p, h') && Goes(p, View(p, h), q, ack, View(p, h'))
  {
    assert View(p, h') == me';
  }

  // the offer

  /** Between `s` and `t` an offer went out if the upgrade is in progress, and nothing else concerns the round. */
  predicate OnlyOffer(s: State, t: State, e: EndpointId, o: Channel, n: Channel) {
    var up := e in t.up.inProgress;
    && CoreOf(t, e, o, n) == CoreOf(s, e, o, n).(inProgress := up)
    && Out(t.io.log, o) == Out(s.io.log, o) + (if up then [H.Offer] else []) && Out(t.io.log, n) == Out(s.io.log, n)
    && t.registry == s.registry && t.clients == s.clients && t.up.parked == s.up.parked
  }

  lemma RoundSays(env: Env, s: State, e: EndpointId, m: Medium, o: Channel, n: Channel, first: Outcome)
    requires InRound(s, e, o, n) && s.registry[e] == o && e !in s.up.inProgress && first == InitiateOnce(env, s, e, m)
    ensures OnlyOffer(s, first.state, e, o, n) && (first.Again? ==> e !in first.state.up.inProgress)
  {
    var s1 := Readied(env, s, e, m);
    PreliminariesFrame(env, s, e, m);
    if Viable(s, e, m) {
      AttemptSays(env, s1, e, m, o, n, first);
    }
  }

  lemma AttemptSays(env: Env, s: State, e: EndpointId, m: Medium, o: Channel, n: Channel, first: Outcome)
    requires HasHandler(s, m) && InRound(s, e, o, n) && s.registry[e] == o && e !in s.up.inProgress
    requires first == Attempt(env, s, e, m)
    ensures OnlyOffer(s, first.state, e, o, n) && (first.Again? ==> e !in first.state.up.inProgress)
  {
    var t := MakeOffer(env, s, e, m).0;
    OfferFrame(env, s, e, m);
    OfferSaid(env, s, e, m, t, o);
    OfferSaid(env, s, e, m, t, n);
    if !MakeOffer(env, s, e, m).1 {
      FailureUnsaid(env, t, e, OnWire(m), first.state, o, n);
      FailureFrame(env, t, e, OnWire(m));
    }
  }

  lemma {:induction false} RoundsSay(env: Env, s: State, e: EndpointId, o: Channel, n: Channel, os: seq<Outcome>)
    requires Rounds(env, e, os) && InRound(s, e, o, n) && s.registry[e] == o && e !in s.up.inProgress
    requires OnlyOffer(s, os[0].state, e, o, n) && (os[0].Again? ==> e !in os[0].state.up.inProgress)
    ensures OnlyOffer(s, os[|os| - 1].state, e, o, n)
    decreases |os|
  {
    if |os| > 1 {
      RoundsTail(env, e, os);
      RoundSays(env, os[0].state, e, os[0].medium, o, n, os[1..][0]);
      RoundsSay(env, s, e, o, n, os[1..]);
    }
  }

  lemma OffersGo(p: Place, h: Half, q: H.Side, ack: bool, h': Half, m: Medium, os: seq<Outcome>)
    requires Engaged(p, h) && Safety.Both(View(p, h), q) && Offers(p, h, h', m, os)
    ensures Engaged(p, h') && Goes(p, View(p, h), q, ack, View(p, h'))
  {
    var up := p.e in h'.s.up.inProgress;
    var ms := if up then [H.Offer] else [];
    BeforeSwap(p, h, q);
    RoundSays(p.env, h.s, p.e, m, p.o, p.n, os[0]);
    RoundsSay(p.env, h.s, p.e, p.o, p.n, os);
    SpokenIs(h.s.io.log, h'.s.io.log, p.o, ms);
    SpokenIs(h.s.io.log, h'.s.io.log, p.n, []);
    OfferedGoes(p, h, q, ack, h', up, ms);
  }

  lemma OfferedGoes(p: Place, h: Half, q: H.Side, ack: bool, h': Half, up: bool, ms: seq<H.Message>)
    requires Engaged(p, h) && p.role.Initiator? && Free(h) && !h.ends.begun && p.e !in h.s.up.inProgress
    requires ms == (if up then [H.Offer] else []) && h'.flight.None? && InRound(h'.s, p.e, p.o, p.n)
      && ClientOf(h'.s, p.e).connected
    requires CoreOf(h'.s, p.e, p.o, p.n) == CoreOf(h.s, p.e, p.o, p.n).(inProgress := up)
    requires h'.ends == h.ends.(begun := true, oldOut := h.ends.oldOut + ms, newOut := h.ends.newOut + [])
    ensures Engaged(p, h') && Goes(p, View(p, h), q, ack, View(p, h'))
  {
    var me' := H.Do(p.role, View(p, h), q, ack, H.MakeOffer, H.ALL_WELL.(write := up));
    OfferSide(p, View(p, h), q, ack, up, ms, me');
    Became(p, h, q, ack, H.MakeOffer, H.ALL_WELL.(write := up), me', h');
  }

  lemma OfferSide(p: Place, me: H.Side, q: H.Side, ack: bool, up: bool, ms: seq<H.Message>, me': H.Side)
    requires H.Enabled(p.role, me, q, H.MakeOffer, H.ALL_WELL.(write := up)) && ms == if up then [H.Offer] else []
    requires me' == H.Do(p.role, me, q, ack, H.MakeOffer, H.ALL_WELL.(write := up)) && !me.core.inProgress
    ensures me' == me.(begun := true, oldOut := me.oldOut + ms, newOut := me.newOut + [],
      core := me.core.(inProgress := up))
  {
    assert me.oldOut + [] == me.oldOut && me.newOut + [] == me.newOut;
  }

  // what a call says

  /** The channels take what was said, the old one if it is open. */
  lemma Takes(p: Place, ends: H.Side, open: bool, before: Log, after: Log, ms: seq<H.Message>, ns: seq<H.Message>)
    requires Out(after, p.o) == Out(before, p.o) + ms && Out(after, p.n) == Out(before, p.n) + ns
    ensures Take(ends, open, before, after, p) == if open
      then ends.(newOut := ends.newOut + ns, oldOut := ends.oldOut + ms, tail := ends.tail + |ms|)
      else ends.(newOut := ends.newOut + ns)
  {
    SpokenIs(before, after, p.o, ms);
    SpokenIs(before, after, p.n, ns);
  }

  /** As `Takes`, where it is known what becomes of the two channels. */
  lemma TakesTo(p: Place, ends: H.Side, s: State, t: State, oldOut: seq<H.Message>, newOut: seq<H.Message>)
    requires SaysOn(s, t, p.o, ends.oldOut, oldOut) && SaysOn(s, t, p.n, ends.newOut, newOut)
    ensures Take(ends, true, s.io.log, t.io.log, p)
         == ends.(newOut := newOut, oldOut := oldOut, tail := ends.tail + |oldOut| - |ends.oldOut|)
  {
    var ms, ns := oldOut[|ends.oldOut|..], newOut[|ends.newOut|..];
    assert ends.oldOut + ms == oldOut && ends.newOut + ns == newOut;
    Takes(p, ends, true, s.io.log, t.io.log, ms, ns);
  }

  // the answer

  lemma WantedSaid(s: State, e: EndpointId, info: PathInfo, o: Channel, n: Channel)
    requires n == Dialled(s, info, o) && o != n
    ensures var mid := Wanted(s, e, info, o, true);
      Out(mid, o) == Out(s.io.log, o) + [] && Out(mid, n) == Out(s.io.log, n) + [H.Introduction]
  {
    CreateSaid(s, e, info, o, n, true);
    Snoc(Created(s, e, info, o, true), Wrote(e, n, Introduction, true), e, o);
    Snoc(Created(s, e, info, o, true), Wrote(e, n, Introduction, true), e, n);
  }

  /** The offer is met, and the acknowledgement waited for. */
  lemma WaitGoes(p: Place, h: Half, q: H.Side, ack: bool, h': Half, info: PathInfo)
    requires Engaged(p, h) && Safety.Both(View(p, h), q) && Meets(p, h, q, ack, h', info)
    requires ack && Joins(p, Adopted(p.env, h.s, p.e, info.medium), info)
    ensures Engaged(p, h') && Goes(p, View(p, h), q, ack, View(p, h'))
  {
    var s0, ends := Adopted(p.env, h.s, p.e, info.medium),
      h.ends.(begun := true, oldRead := h.ends.oldRead + 1, joined := true);
    BeforeSwap(p, h, q);
    AdoptedFrame(p.env, h.s, p.e, info.medium);
    WantedSaid(s0, p.e, info, p.o, p.n);
    Takes(p, ends, true, h.s.io.log, Wanted(s0, p.e, info, p.o, true), [], [H.Introduction]);
    assert ends.oldOut + [] == ends.oldOut;
    assert H.Enabled(p.role, View(p, h), q, H.TakeOld, H.ALL_WELL);
    assert View(p, h') == H.Do(p.role, View(p, h), q, ack, H.TakeOld, H.ALL_WELL);
  }

  /** The two writes of a swap from `s` decide what the round leaves open. */
  function SwapsAs(env: Env, s: State, e: EndpointId, o: Channel, n: Channel, luck: H.Luck): (r: H.Luck)
    ensures SwapLuck(env, s, e, o, n, r)
    ensures r == luck.(last := r.last, safe := r.safe)
  {
    var log := Swapped(s, e, n);
    var last := Next(env, log);
    luck.(last := last, safe := Next(env, log + [Wrote(e, o, LastWrite, last)]))
  }

  /** Meeting the offer without waiting, or in vain. */
  lemma MetSide(me: H.Side, q: H.Side, ack: bool, luck: H.Luck, met: H.Side)
    requires H.Enabled(H.Responder, me, q, H.TakeOld, luck) && q.oldOut[me.oldRead].Offer? && !me.begun && me.at.Idle?
    requires HandshakeDispatch.Open(me, q) && !(ack && luck.dial && luck.introduce)
    requires met == H.Do(H.Responder, me, q, ack, H.TakeOld, luck)
    ensures me.oldOut <= met.oldOut
    ensures met == me.(begun := true, joined := me.joined || (luck.dial && luck.introduce), oldRead := me.oldRead + 1,
      core := met.core, newOut := met.newOut, oldOut := met.oldOut, tail := me.tail + |met.oldOut| - |me.oldOut|)
  {
  }

  /** What meeting the offer depends on, as the manager at `s0` finds it, where `s1` is what the dial leaves. */
  function MeetingLuck(p: Place, s0: State, s1: State, info: PathInfo): H.Luck {
    SwapsAs(p.env, Emit(Started(s1, p.e), Joined(p.e)), p.e, p.o, p.n,
            H.ALL_WELL.(dial := Dials(p.env, s0, info), introduce := Introduces(p.env, s0, p.e, info, p.o)))
  }

  lemma MetFollows(p: Place, h: Half, q: H.Side, ack: bool, h': Half, info: PathInfo, s0: State, s1: State, t: State,
      met: H.Side)
    requires Engaged(p, h) && Safety.Both(View(p, h), q) && Meets(p, h, q, ack, h', info)
    requires s0 == Adopted(p.env, h.s, p.e, info.medium) && !(ack && Joins(p, s0, info))
    requires s1 == Dial(p.env, s0, p.e, info).0 && t == OnFrame(p.env, h.s, p.e, PathAvailable(Some(info))).state
    requires met == H.Do(p.role, View(p, h), q, ack, H.TakeOld, MeetingLuck(p, s0, s1, info))
    ensures Follows(h.s, t, p.e, p.o, p.n, View(p, h), met, true) && HandshakeDispatch.Open(View(p, h), q)
  {
    var me, luck := View(p, h), MeetingLuck(p, s0, s1, info);
    BeforeSwap(p, h, q);
    MetSide(me, q, ack, luck, met);
    MeetFollows(p.env, h.s, p.e, info, p.o, p.n, s0, s1, t, me, q, luck, met, q, luck, met);
    ToldFollows(h.s, s1, t, p.e, p.o, p.n, me, met);
  }

  lemma MetGoes(p: Place, h: Half, q: H.Side, ack: bool, h': Half, info: PathInfo, s0: State, s1: State, t: State)
    requires Engaged(p, h) && Safety.Both(View(p, h), q) && Meets(p, h, q, ack, h', info)
    requires s0 == Adopted(p.env, h.s, p.e, info.medium) && !(ack && Joins(p, s0, info))
    requires s1 == Dial(p.env, s0, p.e, info).0 && t == OnFrame(p.env, h.s, p.e, PathAvailable(Some(info))).state
    ensures Engaged(p, h') && Goes(p, View(p, h), q, ack, View(p, h'))
  {
    var luck := MeetingLuck(p, s0, s1, info);
    var met := H.Do(p.role, View(p, h), q, ack, H.TakeOld, luck);
    MetFollows(p, h, q, ack, h', info, s0, s1, t, met);
    MetEnds(p, h, q, ack, info, s0, t, luck, met);
    TakingKeepsClients(p.env, h.s, p.e, info, t);
    Became(p, h, q, ack, H.TakeOld, luck, met, h');
  }

  lemma MetEnds(p: Place, h: Half, q: H.Side, ack: bool, info: PathInfo, s0: State, t: State, luck: H.Luck, met: H.Side)
    requires Handed(p, h, q, H.Offer) && !h.ends.begun && p.role.Responder? && !(ack && luck.dial && luck.introduce)
    requires met == H.Do(p.role, View(p, h), q, ack, H.TakeOld, luck) && HandshakeDispatch.Open(View(p, h), q)
    requires Follows(h.s, t, p.e, p.o, p.n, View(p, h), met, true)
    ensures var ends := h.ends.(begun := true, oldRead := h.ends.oldRead + 1, joined := h.ends.joined
      || (luck.dial && luck.introduce));
      Take(ends, true, h.s.io.log, t.io.log, p).(core := met.core, at := met.at) == met && met.at.Idle?
  {
    MetSide(View(p, h), q, ack, luck, met);
    TakesTo(p, h.ends.(begun := true, oldRead := h.ends.oldRead + 1, joined := h.ends.joined
      || (luck.dial && luck.introduce)),
            h.s, t, met.oldOut, met.newOut);
  }

  lemma DeclineGoes(p: Place, h: Half, q: H.Side, ack: bool, h': Half, info: PathInfo)
    requires Engaged(p, h) && Safety.Both(View(p, h), q) && Declines(p, h, q, h', info)
    ensures Engaged(p, h') && Goes(p, View(p, h), q, ack, View(p, h'))
  {
    BeforeSwap(p, h, q);
    DeclinedSays(p, h.s, info, h'.s);
    TakesNothing(p, h.ends.(begun := true, oldRead := h.ends.oldRead + 1), h.s, h'.s);
    DeclineSide(p, h, q, ack, h');
  }

  lemma DeclineSide(p: Place, h: Half, q: H.Side, ack: bool, h': Half)
    requires p.role.Responder? && !h.ends.begun && Handed(p, h, q, H.Offer)
    requires h'.ends == h.ends.(begun := true, oldRead := h.ends.oldRead + 1) && h'.flight.None?
    requires CoreOf(h'.s, p.e, p.o, p.n) == CoreOf(h.s, p.e, p.o, p.n) && InRound(h'.s, p.e, p.o, p.n)
      && ClientOf(h'.s, p.e).connected
    ensures Engaged(p, h') && Goes(p, View(p, h), q, ack, View(p, h'))
  {
    var luck := H.ALL_WELL.(dial := false);
    Became(p, h, q, ack, H.TakeOld, luck, H.Do(p.role, View(p, h), q, ack, H.TakeOld, luck), h');
  }

  lemma DeclinedSays(p: Place, s: State, info: PathInfo, t: State)
    requires InRound(s, p.e, p.o, p.n) && s.registry[p.e] == p.o && p.e !in s.up.inProgress
      && ClientOf(s, p.e).connected
    requires !TakesUp(p.env, s, p.e, info) && t == OnFrame(p.env, s, p.e, PathAvailable(Some(info))).state
    requires t == s || Next(p.env, s.io.log)
    ensures Out(t.io.log, p.o) == Out(s.io.log, p.o) && Out(t.io.log, p.n) == Out(s.io.log, p.n)
    ensures CoreOf(t, p.e, p.o, p.n) == CoreOf(s, p.e, p.o, p.n) && InRound(t, p.e, p.o, p.n) && t.clients == s.clients
  {
    assert t == s || t == FailedProtocol(p.env, s, p.e, info);
    if t != s {
      NoticeSaid(p.env, s, p.e, info, t, p.o, p.n);
      NoticeKeepsClients(p.env, s, p.e, info);
    }
  }

  /** Telling the peer that it failed adds nothing to what was followed. */
  lemma ToldFollows(s: State, s1: State, t: State, e: EndpointId, o: Channel, n: Channel, me: H.Side, me': H.Side)
    ensures Follows(s, s1, e, o, n, me, me', true) && OnlyNotice(s1, t, e, o, n, true)
      ==> Follows(s, t, e, o, n, me, me', true)
  {
  }

  lemma TakingKeepsClients(env: Env, s: State, e: EndpointId, info: PathInfo, t: State)
    requires TakesUp(env, s, e, info) && t == OnFrame(env, s, e, PathAvailable(Some(info))).state
    ensures t.clients == s.clients
  {
    var s0 := Adopted(env, s, e, info.medium);
    TakenUp(env, s, e, info, s0, t);
    var (s1, dialled) := Dial(env, s0, e, info);
    assert s1.clients == s.clients;
    if dialled.None? {
      NoticeKeepsClients(env, s1, e, info);
    } else {
      SwapKeepsClients(env, Emit(Started(s1, e), Joined(e)), e, dialled.value);
    }
  }

  lemma NoticeKeepsClients(env: Env, s: State, e: EndpointId, info: PathInfo)
    ensures FailedProtocol(env, s, e, info).clients == s.clients
  {
    if e in s.registry {
      RevertFrame(env, s.(io := s.io.(log := s.io.log + [Wrote(e, s.registry[e], UpgradeFailed(info), true)])),
        s.registry[e].serviceId, e);
    }
  }

  lemma SwapKeepsClients(env: Env, s: State, e: EndpointId, c: Channel)
    ensures RunProtocol(env, s, e, c).clients == s.clients
  {
  }

  // the acknowledgement

  /** What the wait for the acknowledgement ends with, where `s1` is what the dial leaves. */
  function AnswerLuck(p: Place, s1: State, receive: bool): H.Luck {
    SwapsAs(p.env, Emit(Started(s1, p.e), Joined(p.e)), p.e, p.o, p.n, H.ALL_WELL.(receive := receive))
  }

  lemma AnswerGoes(p: Place, h: Half, q: H.Side, ack: bool, receive: bool, h': Half, info: PathInfo, s0: State,
      s1: State)
    requires Engaged(p, h) && Safety.Both(View(p, h), q) && EndsAnswer(p, h, q, receive, h')
      && h.flight == Some(Answering(info))
    requires s0 == Adopted(p.env, h.s, p.e, info.medium) && s1 == Dial(p.env, s0, p.e, info).0
    ensures Engaged(p, h') && Goes(p, View(p, h), q, ack, View(p, h'))
  {
    var me, luck, t, mid := View(p, h), AnswerLuck(p, s1, receive), h'.s, Wanted(s0, p.e, info, p.o, true);
    var me' := H.Do(p.role, me, q, ack, H.ReadAck, luck);
    BeforeSwap(p, h, q);
    TakenUp(p.env, h.s, p.e, info, s0, t);
    AnswerDialled(p, h.s, info, s0, s1);
    TakingKeepsClients(p.env, h.s, p.e, info, t);
    if Acknowledged(p.env, s0, p.e, info, p.o) {
      AnswerSwaps(p, h, q, ack, luck, me', mid, s1, t);
    } else {
      AnswerFails(p, h, q, ack, luck, me', info, mid, s1, t);
    }
    Became(p, h, q, ack, H.ReadAck, luck, me', h');
  }

  /** The dial of a call that waits for its acknowledgement has said the introduction. */
  lemma AnswerDialled(p: Place, s: State, info: PathInfo, s0: State, s1: State)
    requires InRound(s, p.e, p.o, p.n) && s.registry[p.e] == p.o && s0 == s.(mediums := s0.mediums)
    requires p.n == Dialled(s, info, p.o) && Joins(p, s0, info) && info.introductionAck
      && s1 == Dial(p.env, s0, p.e, info).0
    ensures s1 == s0.(io := s1.io) && CoreOf(s1, p.e, p.o, p.n) == CoreOf(s, p.e, p.o, p.n)
    ensures var mid := Wanted(s0, p.e, info, p.o, true);
      Out(s1.io.log, p.o) == Out(mid, p.o) && Out(s1.io.log, p.n) == Out(mid, p.n)
    ensures Dial(p.env, s0, p.e, info).1 == if Acknowledged(p.env, s0, p.e, info, p.o) then Some(p.n) else None
  {
    DialSaid(p.env, s0, p.e, info, s1, p.o, p.n);
    WantedSaid(s0, p.e, info, p.o, p.n);
  }

  lemma AnswerSwaps(p: Place, h: Half, q: H.Side, ack: bool, luck: H.Luck, me': H.Side, mid: Log, s1: State, t: State)
    requires InRound(s1, p.e, p.o, p.n) && s1.registry[p.e] == p.o && p.e !in s1.up.parked
    requires HandshakeDispatch.Open(View(p, h), q) && CoreOf(s1, p.e, p.o, p.n) == View(p, h).core
    requires luck == AnswerLuck(p, s1, true) && H.Enabled(p.role, View(p, h), q, H.ReadAck, luck)
    requires q.newOut[h.ends.newRead] == H.IntroductionAck && me' == H.Do(p.role, View(p, h), q, ack, H.ReadAck, luck)
    requires t == RunProtocol(p.env, Emit(Started(s1, p.e), Joined(p.e)), p.e, p.n)
    requires Out(s1.io.log, p.o) == Out(mid, p.o) && Out(s1.io.log, p.n) == Out(mid, p.n)
    ensures Take(h.ends.(newRead := h.ends.newRead + 1), true, mid, t.io.log, p).(core := me'.core, at := me'.at) == me'
    ensures me'.at.Idle? && CoreOf(t, p.e, p.o, p.n) == me'.core && InRound(t, p.e, p.o, p.n)
  {
    var me, ends := View(p, h), h.ends.(newRead := h.ends.newRead + 1);
    AckSide(p, me, q, ack, luck, me');
    JoinedFollows(p.env, s1, p.e, p.o, p.n, t, me, q, luck);
    TakesSwap(p, ends, s1, t, me'.oldOut);
  }

  lemma AckSide(p: Place, me: H.Side, q: H.Side, ack: bool, luck: H.Luck, me': H.Side)
    requires HandshakeDispatch.Open(me, q) && H.Enabled(p.role, me, q, H.ReadAck, luck) && luck.receive
    requires q.newOut[me.newRead] == H.IntroductionAck && me' == H.Do(p.role, me, q, ack, H.ReadAck, luck)
    ensures var swapped := H.RunProtocol(me.(core := me.core.(inProgress := true)), q, luck);
      && me.oldOut <= me'.oldOut && me'.core == swapped.core && me'.oldOut == swapped.oldOut
      && me' == me.(newRead := me.newRead + 1, core := me'.core, at := H.Idle, oldOut := me'.oldOut,
                    tail := me.tail + |me'.oldOut| - |me.oldOut|)
  {
    var started := me.(core := me.core.(inProgress := true));
    SwapSide(started, q, luck, started.(newRead := me.newRead + 1), me');
  }

  lemma TakesSwap(p: Place, ends: H.Side, s: State, t: State, oldOut: seq<H.Message>)
    requires SaysOn(s, t, p.o, ends.oldOut, oldOut) && Out(t.io.log, p.n) == Out(s.io.log, p.n)
    ensures Take(ends, true, s.io.log, t.io.log, p)
      == ends.(oldOut := oldOut, tail := ends.tail + |oldOut| - |ends.oldOut|)
  {
    Unsaid(s, t, p.n, ends.newOut);
    TakesTo(p, ends, s, t, oldOut, ends.newOut);
  }

  /** A swap changes no more than this, and what has been said and read on the new channel does not matter to it. */
  lemma SwapSide(me: H.Side, q: H.Side, luck: H.Luck, me1: H.Side, me': H.Side)
    requires HandshakeDispatch.Open(me, q) && me1 == me.(newRead := me1.newRead, newOut := me1.newOut)
    requires me' == H.RunProtocol(me1, q, luck)
    ensures me.oldOut <= me'.oldOut && me'.core == H.RunProtocol(me, q, luck).core
      && me'.oldOut == H.RunProtocol(me, q, luck).oldOut
    ensures me' == me1.(core := me'.core, at := H.Idle, oldOut := me'.oldOut,
      tail := me.tail + |me'.oldOut| - |me.oldOut|)
  {
  }

  lemma AnswerFails(p: Place, h: Half, q: H.Side, ack: bool, luck: H.Luck, me': H.Side, info: PathInfo, mid: Log,
      s1: State, t: State)
    requires InRound(s1, p.e, p.o, p.n) && s1.registry[p.e] == p.o && p.e !in s1.up.inProgress && Next(p.env, s1.io.log)
    requires CoreOf(s1, p.e, p.o, p.n) == View(p, h).core && H.Enabled(p.role, View(p, h), q, H.ReadAck, luck)
    requires me' == H.Do(p.role, View(p, h), q, ack, H.ReadAck, luck)
      && (luck.receive ==> q.newOut[h.ends.newRead] != H.IntroductionAck)
    requires t == FailedProtocol(p.env, s1, p.e, info)
    requires Out(s1.io.log, p.o) == Out(mid, p.o) && Out(s1.io.log, p.n) == Out(mid, p.n)
    ensures Take(h.ends, true, mid, t.io.log, p).(core := me'.core, at := me'.at) == me'
    ensures me'.at.Idle? && CoreOf(t, p.e, p.o, p.n) == me'.core && InRound(t, p.e, p.o, p.n)
  {
    NoticeSaid(p.env, s1, p.e, info, t, p.o, p.n);
    TakesNothing(p, h.ends, s1, t);
  }

  // the socket

  lemma AcceptGoes(p: Place, h: Half, q: H.Side, ack: bool, h': Half)
    requires Engaged(p, h) && Accepts(p, h, q, h')
    ensures Engaged(p, h') && Goes(p, View(p, h), q, ack, View(p, h'))
  {
    assert H.Enabled(p.role, View(p, h), q, H.AcceptSocket, H.ALL_WELL);
    assert View(p, h') == H.Do(p.role, View(p, h), q, ack, H.AcceptSocket, H.ALL_WELL);
  }

  /** What the wait for the introduction ends with, where `s0` is what an acknowledged introduction leaves. */
  function AcceptLuck(p: Place, s: State, s0: State, receive: bool): H.Luck {
    SwapsAs(p.env, CancelAlarm(s0, p.e), p.e, p.o, p.n,
            H.ALL_WELL.(receive := receive, introduce := Next(p.env, s.io.log + [IntroductionRead(p.n, true)])))
  }

  lemma AcceptedGoes(p: Place, h: Half, q: H.Side, ack: bool, receive: bool, h': Half, s0: State, luck: H.Luck)
    requires Engaged(p, h) && Safety.Both(View(p, h), q) && EndsAccept(p, h, q, receive, h')
    requires s0 == Introduced(p.env, h.s, p.n, Some(p.e)).0 && luck == AcceptLuck(p, h.s, s0, receive)
    ensures Engaged(p, h') && Goes(p, View(p, h), q, ack, View(p, h'))
  {
    var me' := H.Do(p.role, View(p, h), q, ack, H.ReadIntroduction, luck);
    BeforeSwap(p, h, q);
    if receive && q.newOut[h.ends.newRead] == H.Introduction && luck.introduce {
      GreetedState(p.env, h.s, p.e, p.o, p.n, s0);
      GreetedEnds(p, h, q, ack, luck, me', s0, h'.s);
    } else {
      UnreadEnds(p, h, q, ack, luck, me', receive && q.newOut[h.ends.newRead] == H.Introduction, h'.s);
    }
    IncomingKeepsClients(p.env, h.s, p.n, if receive && q.newOut[h.ends.newRead] == H.Introduction then Some(p.e)
      else None);
    Became(p, h, q, ack, H.ReadIntroduction, luck, me', h');
  }

  lemma IncomingKeepsClients(env: Env, s: State, c: Channel, read: Option<EndpointId>)
    ensures OnIncoming(env, s, c, read).clients == s.clients
  {
    var (s1, known) := Introduced(env, s, c, read);
    if known.Some? && Target(s1, known.value).Some? {
      SwapKeepsClients(env, CancelAlarm(s1, Target(s1, known.value).value), Target(s1, known.value).value, c);
    }
  }

  lemma GreetedEnds(p: Place, h: Half, q: H.Side, ack: bool, luck: H.Luck, me': H.Side, s0: State, t: State)
    requires InRound(h.s, p.e, p.o, p.n) && h.s.registry[p.e] == p.o && p.e !in h.s.up.parked
    requires (p.e in h.s.up.inProgress || |h.s.up.inProgress| != 1) && CoreOf(h.s, p.e, p.o, p.n) == View(p, h).core
    requires HandshakeDispatch.Open(View(p, h), q) && H.Enabled(p.role, View(p, h), q, H.ReadIntroduction, luck)
    requires luck.receive && q.newOut[h.ends.newRead] == H.Introduction && luck.introduce
    requires me' == H.Do(p.role, View(p, h), q, ack, H.ReadIntroduction, luck)
    requires SwapLuck(p.env, CancelAlarm(s0, p.e), p.e, p.o, p.n, luck)
    requires s0 == h.s.(io := s0.io) && s0.io.paused == h.s.io.paused
      && CoreOf(s0, p.e, p.o, p.n) == CoreOf(h.s, p.e, p.o, p.n)
    requires Out(s0.io.log, p.n) == Out(h.s.io.log, p.n) + [H.IntroductionAck]
      && Out(s0.io.log, p.o) == Out(h.s.io.log, p.o)
    requires t == if Target(s0, p.e).Some? then RunProtocol(p.env, CancelAlarm(s0, p.e), p.e, p.n) else s0
    ensures var ends := h.ends.(newRead := h.ends.newRead + 1);
      Take(ends, true, h.s.io.log, t.io.log, p).(core := me'.core, at := me'.at) == me'
    ensures me'.at.Idle? && CoreOf(t, p.e, p.o, p.n) == me'.core && InRound(t, p.e, p.o, p.n)
  {
    GreetedSide(p, View(p, h), q, ack, luck, me');
    AckedFollows(p.env, h.s, s0, p.e, p.o, p.n, t, View(p, h), q, luck);
    TakesTo(p, h.ends.(newRead := h.ends.newRead + 1), h.s, t, me'.oldOut, me'.newOut);
  }

  lemma GreetedSide(p: Place, me: H.Side, q: H.Side, ack: bool, luck: H.Luck, me': H.Side)
    requires HandshakeDispatch.Open(me, q) && H.Enabled(p.role, me, q, H.ReadIntroduction, luck)
    requires luck.receive && q.newOut[me.newRead] == H.Introduction && luck.introduce
    requires me' == H.Do(p.role, me, q, ack, H.ReadIntroduction, luck)
    ensures var swapped := H.RunProtocol(me, q, luck);
      && me'.core == (if me.core.inProgress then swapped.core else me.core)
      && me'.oldOut == (if me.core.inProgress then swapped.oldOut else me.oldOut)
    ensures me.oldOut <= me'.oldOut
    ensures me' == me.(core := me'.core, at := H.Idle, newRead := me.newRead + 1,
      newOut := me.newOut + [H.IntroductionAck],
                       oldOut := me'.oldOut, tail := me.tail + |me'.oldOut| - |me.oldOut|)
  {
    var greeted := me.(newRead := me.newRead + 1, newOut := me.newOut + [H.IntroductionAck]);
    SwapSide(me, q, luck, greeted, H.RunProtocol(greeted, q, luck));
  }

  lemma UnreadEnds(p: Place, h: Half, q: H.Side, ack: bool, luck: H.Luck, me': H.Side, readable: bool, t: State)
    requires InRound(h.s, p.e, p.o, p.n) && CoreOf(h.s, p.e, p.o, p.n) == View(p, h).core
    requires H.Enabled(p.role, View(p, h), q, H.ReadIntroduction, luck)
    requires readable == (luck.receive && q.newOut[h.ends.newRead] == H.Introduction) && !(readable && luck.introduce)
    requires luck.introduce == Next(p.env, h.s.io.log + [IntroductionRead(p.n, true)])
    requires me' == H.Do(p.role, View(p, h), q, ack, H.ReadIntroduction, luck)
    requires t == OnIncoming(p.env, h.s, p.n, if readable then Some(p.e) else None)
    ensures Take(h.ends, true, h.s.io.log, t.io.log, p).(core := me'.core, at := me'.at) == me'
    ensures me'.at.Idle? && CoreOf(t, p.e, p.o, p.n) == me'.core && InRound(t, p.e, p.o, p.n)
  {
    SocketUnsaid(p.env, h.s, p.e, p.o, p.n, if readable then Some(p.e) else None, t);
    TakesNothing(p, h.ends, h.s, t);
  }

  lemma TakesNothing(p: Place, ends: H.Side, s: State, t: State)
    requires Out(t.io.log, p.o) == Out(s.io.log, p.o) && Out(t.io.log, p.n) == Out(s.io.log, p.n)
    ensures Take(ends, true, s.io.log, t.io.log, p) == ends
  {
    Unsaid(s, t, p.o, ends.oldOut);
    TakesSwap(p, ends, s, t, ends.oldOut);
  }

  // the closing messages

  lemma LastWriteGoes(p: Place, h: Half, q: H.Side, ack: bool, h': Half, luck: H.Luck)
    requires Engaged(p, h) && Safety.Both(View(p, h), q) && SeesLastWrite(p, h, q, h')
    requires luck == H.ALL_WELL.(safe := Next(p.env, h.s.io.log))
    ensures Engaged(p, h') && Goes(p, View(p, h), q, ack, View(p, h'))
  {
    ParkedAfterSwap(p, h, q);
    LastWriteEnds(p, h, q, h', luck);
    LastWriteTaken(p, h, q, ack, luck, h', Answer(View(p, h).core, true, luck.safe).1);
  }

  lemma LastWriteTaken(p: Place, h: Half, q: H.Side, ack: bool, luck: H.Luck, h': Half, ms: seq<H.Message>)
    requires Handed(p, h, q, H.LastWrite) && ms == Answer(View(p, h).core, true, luck.safe).1
    requires h'.ends == Heard(h.ends.(oldRead := h.ends.oldRead + 1), BothOpen(p, h, q), ms)
    requires h'.flight.None? && InRound(h'.s, p.e, p.o, p.n) && ClientOf(h'.s, p.e).connected
    requires CoreOf(h'.s, p.e, p.o, p.n) == Answer(View(p, h).core, true, luck.safe).0
    ensures Engaged(p, h') && Goes(p, View(p, h), q, ack, View(p, h'))
  {
    var me' := H.Do(p.role, View(p, h), q, ack, H.TakeOld, luck);
    LastWriteSide(p, View(p, h), q, ack, luck, ms, me');
    Became(p, h, q, ack, H.TakeOld, luck, me', h');
  }

  lemma LastWriteEnds(p: Place, h: Half, q: H.Side, h': Half, luck: H.Luck)
    requires InRound(h.s, p.e, p.o, p.n) && ClientOf(h.s, p.e).connected
      && (p.e in h.s.up.parked ==> h.s.registry[p.e] == p.n)
    requires SeesLastWrite(p, h, q, h') && luck.safe == Next(p.env, h.s.io.log)
    ensures var (c, ms) := Answer(CoreOf(h.s, p.e, p.o, p.n), true, luck.safe);
      && h'.ends == Heard(h.ends.(oldRead := h.ends.oldRead + 1), BothOpen(p, h, q), ms)
        && CoreOf(h'.s, p.e, p.o, p.n) == c
    ensures h'.flight.None? && InRound(h'.s, p.e, p.o, p.n) && ClientOf(h'.s, p.e).connected
  {
    LastWriteSaid(p, h.s, h'.s, luck.safe);
    TakesOld(p, h.ends.(oldRead := h.ends.oldRead + 1), BothOpen(p, h, q), h.s.io.log, h'.s.io.log,
             Answer(CoreOf(h.s, p.e, p.o, p.n), true, luck.safe).1);
  }

  lemma ParkedAfterSwap(p: Place, h: Half, q: H.Side)
    requires Engaged(p, h) && Safety.Both(View(p, h), q) && Free(h)
    ensures p.e in h.s.up.parked ==> h.s.registry[p.e] == p.n
  {
  }

  lemma LastWriteSaid(p: Place, s: State, t: State, works: bool)
    requires InRound(s, p.e, p.o, p.n) && ClientOf(s, p.e).connected && (p.e in s.up.parked ==> s.registry[p.e] == p.n)
    requires works == Next(p.env, s.io.log) && t == OnFrame(p.env, s, p.e, LastWriteToPriorChannel).state
    ensures var (c, ms) := Answer(CoreOf(s, p.e, p.o, p.n), true, works);
      CoreOf(t, p.e, p.o, p.n) == c && Out(t.io.log, p.o) == Out(s.io.log, p.o) + ms && InRound(t, p.e, p.o, p.n)
    ensures Out(t.io.log, p.n) == Out(s.io.log, p.n) && t.clients == s.clients
  {
    ControlRefines(p.env, s, p.e, p.o, p.n, LastWriteToPriorChannel, t, works);
    ControlUnsaid(p.env, s, p.e, p.o, p.n, LastWriteToPriorChannel, t);
    LastWriteKeepsClients(p.env, s, p.e);
  }

  /** As `Takes`, when nothing was said on the new channel. */
  lemma TakesOld(p: Place, ends: H.Side, open: bool, before: Log, after: Log, ms: seq<H.Message>)
    requires Out(after, p.o) == Out(before, p.o) + ms && Out(after, p.n) == Out(before, p.n)
    ensures Take(ends, open, before, after, p) == Heard(ends, open, ms)
  {
    assert Out(after, p.n) == Out(before, p.n) + [] && ends.newOut + [] == ends.newOut;
    Takes(p, ends, open, before, after, ms, []);
  }

  function Heard(ends: H.Side, open: bool, ms: seq<H.Message>): H.Side {
    if open then ends.(oldOut := ends.oldOut + ms, tail := ends.tail + |ms|) else ends
  }

  lemma LastWriteSide(p: Place, me: H.Side, q: H.Side, ack: bool, luck: H.Luck, ms: seq<H.Message>, me': H.Side)
    requires H.Enabled(p.role, me, q, H.TakeOld, luck) && q.oldOut[me.oldRead].LastWrite? && me.at.Idle?
    requires me' == H.Do(p.role, me, q, ack, H.TakeOld, luck) && ms == Answer(me.core, true, luck.safe).1
    ensures me' == Heard(me.(oldRead := me.oldRead + 1), HandshakeDispatch.Open(me, q),
      ms).(core := Answer(me.core, true, luck.safe).0)
  {
    assert me.oldOut + [] == me.oldOut;
  }

  lemma LastWriteKeepsClients(env: Env, s: State, e: EndpointId)
    ensures OnFrame(env, s, e, LastWriteToPriorChannel).state.clients == s.clients
    ensures OnFrame(env, s, e, SafeToClosePriorChannel).state.clients == s.clients
  {
  }

  /** SAFE_TO_CLOSE comes too late, or too early: nothing happens. */
  lemma NoSafeToCloseGoes(p: Place, h: Half, q: H.Side, ack: bool, h': Half)
    requires Engaged(p, h) && SeesSafeToClose(p, h, q, h') && !Closes(p, h.s)
    ensures Engaged(p, h') && Goes(p, View(p, h), q, ack, View(p, h'))
  {
    assert h'.s == h.s;
    assert H.Enabled(p.role, View(p, h), q, H.TakeOld, H.ALL_WELL);
    Became(p, h, q, ack, H.TakeOld, H.ALL_WELL, H.Do(p.role, View(p, h), q, ack, H.TakeOld, H.ALL_WELL), h');
  }

  lemma SafeToCloseGoes(p: Place, h: Half, q: H.Side, ack: bool, h': Half, luck: H.Luck)
    requires Engaged(p, h) && Safety.Both(View(p, h), q) && SeesSafeToClose(p, h, q, h') && Closes(p, h.s)
    requires luck == H.ALL_WELL.(write := Next(p.env, h.s.io.log + [EncryptionOff(p.e, p.o)]))
    ensures Engaged(p, h') && Goes(p, View(p, h), q, ack, View(p, h'))
  {
    var ms := if luck.write then [H.Disconnection] else [];
    GoodbyeSaid(p, h.s, luck.write);
    ParkedAfterSwap(p, h, q);
    TakesOld(p, h.ends.(oldRead := h.ends.oldRead + 1), BothOpen(p, h, q), h.s.io.log, Goodbye(p, h.s), ms);
    SafeToCloseSide(p, View(p, h), q, ack, luck, ms, H.Do(p.role, View(p, h), q, ack, H.TakeOld, luck));
    assert View(p, h') == H.Do(p.role, View(p, h), q, ack, H.TakeOld, luck);
  }

  lemma GoodbyeSaid(p: Place, s: State, ok: bool)
    requires p.o != p.n && ok == Next(p.env, s.io.log + [EncryptionOff(p.e, p.o)])
    ensures Out(Goodbye(p, s), p.o) == Out(s.io.log, p.o) + if ok then [H.Disconnection] else []
    ensures Out(Goodbye(p, s), p.n) == Out(s.io.log, p.n)
  {
    var off := s.io.log + [EncryptionOff(p.e, p.o)];
    Snoc(s.io.log, EncryptionOff(p.e, p.o), p.e, p.o);
    Snoc(s.io.log, EncryptionOff(p.e, p.o), p.e, p.n);
    Snoc(off, Wrote(p.e, p.o, Disconnection, ok), p.e, p.o);
    Snoc(off, Wrote(p.e, p.o, Disconnection, ok), p.e, p.n);
  }

  lemma SafeToCloseSide(p: Place, me: H.Side, q: H.Side, ack: bool, luck: H.Luck, ms: seq<H.Message>, me': H.Side)
    requires H.Enabled(p.role, me, q, H.TakeOld, luck) && q.oldOut[me.oldRead].SafeToClose? && me.at.Idle?
    requires me.core.inProgress && me.core.parked && ms == if luck.write then [H.Disconnection] else []
    requires me' == H.Do(p.role, me, q, ack, H.TakeOld, luck)
    ensures me' == Heard(me.(oldRead := me.oldRead + 1), HandshakeDispatch.Open(me, q),
      ms).(core := me.core.(parked := false), at := H.Draining)
  {
  }

  lemma DrainGoes(p: Place, h: Half, q: H.Side, ack: bool, receive: bool, h': Half, luck: H.Luck)
    requires Engaged(p, h) && EndsDrain(p, h, q, receive, h') && luck == H.ALL_WELL.(receive := receive)
    ensures Engaged(p, h') && Goes(p, View(p, h), q, ack, View(p, h'))
  {
    SafeToCloseRefines(p.env, h.s, p.e, p.o, p.n);
    LastWriteKeepsClients(p.env, h.s, p.e);
    Became(p, h, q, ack, H.Drain, luck, H.Do(p.role, View(p, h), q, ack, H.Drain, luck), h');
  }

  // -- a half as a whole ----------------------------------------------------

  /** What a half does in one step. */
  datatype Deed =
    | StartUpgrade(medium: Medium, rounds: seq<Outcome>)
    | TakeUpOffer(info: PathInfo)
    | DeclineOffer(info: PathInfo)
    | EndAnswer(receive: bool)
    | TakeSocket
    | EndAccept(receive: bool)
    | TakeLastWrite
    | TakeSafeToClose
    | EndDrain(receive: bool)
    | Apply(action: H.Action, luck: H.Luck)
    | OtherCall(call: Call)

  ghost predicate Does(p: Place, h: Half, q: H.Side, ack: bool, deed: Deed, h': Half) {
    match deed
    case StartUpgrade(m, os) => Offers(p, h, h', m, os)
    case TakeUpOffer(info) => Meets(p, h, q, ack, h', info)
    case DeclineOffer(info) => Declines(p, h, q, h', info)
    case EndAnswer(receive) => EndsAnswer(p, h, q, receive, h')
    case TakeSocket => Accepts(p, h, q, h')
    case EndAccept(receive) => EndsAccept(p, h, q, receive, h')
    case TakeLastWrite => SeesLastWrite(p, h, q, h')
    case TakeSafeToClose => SeesSafeToClose(p, h, q, h')
    case EndDrain(receive) => EndsDrain(p, h, q, receive, h')
    case Apply(a, luck) => Application(p, h, q, ack, a, luck, h')
    case OtherCall(call) => Elsewhere(p, h, call, h')
  }

  /** Whatever a half does is a step of the round, or does not show. */
  lemma DeedGoes(p: Place, h: Half, q: H.Side, ack: bool, deed: Deed, h': Half)
    requires Engaged(p, h) && Safety.Both(View(p, h), q) && Does(p, h, q, ack, deed, h')
    ensures Engaged(p, h')
    ensures if deed.OtherCall? then View(p, h') == View(p, h) else Goes(p, View(p, h), q, ack, View(p, h'))
  {
    if deed.EndAnswer? || deed.EndAccept? || deed.EndDrain? {
      WaitOverGoes(p, h, q, ack, deed, h');
    } else if deed.TakeUpOffer? || deed.DeclineOffer? || deed.TakeSocket? || deed.TakeLastWrite?
      || deed.TakeSafeToClose? {
      ArrivalGoes(p, h, q, ack, deed, h');
    } else {
      UnaskedGoes(p, h, q, ack, deed, h');
    }
  }

  /** The same where nothing arrives. */
  lemma UnaskedGoes(p: Place, h: Half, q: H.Side, ack: bool, deed: Deed, h': Half)
    requires Engaged(p, h) && Safety.Both(View(p, h), q) && Does(p, h, q, ack, deed, h')
    requires deed.StartUpgrade? || deed.Apply? || deed.OtherCall?
    ensures Engaged(p, h')
    ensures if deed.OtherCall? then View(p, h') == View(p, h) else Goes(p, View(p, h), q, ack, View(p, h'))
  {
    match deed
    case StartUpgrade(m, os) => OffersGo(p, h, q, ack, h', m, os);
    case Apply(a, luck) => ApplicationGoes(p, h, q, ack, a, luck, h');
    case OtherCall(call) =>
  }

  /** The same where a message or the socket arrives. */
  lemma ArrivalGoes(p: Place, h: Half, q: H.Side, ack: bool, deed: Deed, h': Half)
    requires Engaged(p, h) && Safety.Both(View(p, h), q) && Does(p, h, q, ack, deed, h')
    requires deed.TakeUpOffer? || deed.DeclineOffer? || deed.TakeSocket? || deed.TakeLastWrite? || deed.TakeSafeToClose?
    ensures Engaged(p, h') && Goes(p, View(p, h), q, ack, View(p, h'))
  {
    match deed
    case TakeUpOffer(info) => OfferTakenGoes(p, h, q, ack, h', info, Adopted(p.env, h.s, p.e, info.medium));
    case DeclineOffer(info) => DeclineGoes(p, h, q, ack, h', info);
    case TakeSocket => AcceptGoes(p, h, q, ack, h');
    case TakeLastWrite => LastWriteGoes(p, h, q, ack, h', H.ALL_WELL.(safe := Next(p.env, h.s.io.log)));
    case TakeSafeToClose => ClosingGoes(p, h, q, ack, h');
  }

  /** The same where a wait ends. */
  lemma WaitOverGoes(p: Place, h: Half, q: H.Side, ack: bool, deed: Deed, h': Half)
    requires Engaged(p, h) && Safety.Both(View(p, h), q) && Does(p, h, q, ack, deed, h')
    requires deed.EndAnswer? || deed.EndAccept? || deed.EndDrain?
    ensures Engaged(p, h') && Goes(p, View(p, h), q, ack, View(p, h'))
  {
    match deed
    case EndAnswer(receive) =>
      var info := h.flight.value.info;
      var s0 := Adopted(p.env, h.s, p.e, info.medium);
      AnswerGoes(p, h, q, ack, receive, h', info, s0, Dial(p.env, s0, p.e, info).0);
    case EndAccept(receive) =>
      var s0 := Introduced(p.env, h.s, p.n, Some(p.e)).0;
      AcceptedGoes(p, h, q, ack, receive, h', s0, AcceptLuck(p, h.s, s0, receive));
    case EndDrain(receive) => DrainGoes(p, h, q, ack, receive, h', H.ALL_WELL.(receive := receive));
  }

  lemma OfferTakenGoes(p: Place, h: Half, q: H.Side, ack: bool, h': Half, info: PathInfo, s0: State)
    requires Engaged(p, h) && Safety.Both(View(p, h), q) && Meets(p, h, q, ack, h', info)
    requires s0 == Adopted(p.env, h.s, p.e, info.medium)
    ensures Engaged(p, h') && Goes(p, View(p, h), q, ack, View(p, h'))
  {
    if ack && Joins(p, s0, info) {
      WaitGoes(p, h, q, ack, h', info);
    } else {
      MetGoes(p, h, q, ack, h', info, s0, Dial(p.env, s0, p.e, info).0,
        OnFrame(p.env, h.s, p.e, PathAvailable(Some(info))).state);
    }
  }

  lemma ClosingGoes(p: Place, h: Half, q: H.Side, ack: bool, h': Half)
    requires Engaged(p, h) && Safety.Both(View(p, h), q) && SeesSafeToClose(p, h, q, h')
    ensures Engaged(p, h') && Goes(p, View(p, h), q, ack, View(p, h'))
  {
    if Closes(p, h.s) {
      SafeToCloseGoes(p, h, q, ack, h', H.ALL_WELL.(write := Next(p.env, h.s.io.log + [EncryptionOff(p.e, p.o)])));
    } else {
      NoSafeToCloseGoes(p, h, q, ack, h');
    }
  }
}
