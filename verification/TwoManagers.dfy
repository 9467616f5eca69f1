/**
 * A whole round of two managers. Their runs, joined by what the channels hold, are a run of the two-party round;
 * so the payloads of both applications arrive in order, whatever fails and however the two interleave.
 */
module TwoManagers {
  import opened Wrappers
  import opened ServiceIds
  import opened Protocol
  import opened BwuSpec
  import opened HandshakeRefinement
  import opened Duet
  import HandshakeDispatch
  import HeldUp
  import H = Handshake
  import Safety = HandshakeSafety

  // -- both halves ----------------------------------------------------------

  datatype Stage = Stage(initiator: Place, responder: Place)

  datatype Duo = Duo(initiator: Half, responder: Half)

  datatype Act = Act(role: H.Role, deed: Deed)

  function PlaceOf(g: Stage, role: H.Role): Place {
    if role.Initiator? then g.initiator else g.responder
  }

  function HalfOf(d: Duo, role: H.Role): Half {
    if role.Initiator? then d.initiator else d.responder
  }

  function Other(role: H.Role): H.Role {
    if role.Initiator? then H.Responder else H.Initiator
  }

  /** What the half in this role shows. */
  function Shown(g: Stage, d: Duo, role: H.Role): H.Side {
    View(PlaceOf(g, role), HalfOf(d, role))
  }

  function Seen(g: Stage, d: Duo): H.Pair {
    H.Pair(Shown(g, d, H.Initiator), Shown(g, d, H.Responder))
  }

  /** One half acts; the other is as before. */
  ghost predicate Acts(g: Stage, ack: bool, d: Duo, act: Act, d': Duo) {
    && HalfOf(d', Other(act.role)) == HalfOf(d, Other(act.role))
    && Does(PlaceOf(g, act.role), HalfOf(d, act.role), Shown(g, d, Other(act.role)), ack, act.deed,
      HalfOf(d', act.role))
  }

  /**
   * The endpoint is connected over the old channel and nothing of a round has begun. What the manager reported of
   * earlier rounds does not matter.
   */
  predicate Ready(p: Place, h: Half, todo: seq<H.Payload>) {
    && Duet.Free(h) && InRound(h.s, p.e, p.o, p.n) && ClientOf(h.s, p.e).connected
    && View(p, h) == Begun(todo, Reports(h.s.io.log, p.e))
  }

  function Begun(todo: seq<H.Payload>, reports: nat): H.Side {
    H.Clean(todo).(core := H.Clean(todo).core.(reports := reports))
  }

  /** A run of two managers, one in each role, from where they are ready; either acts at any time. */
  ghost predicate Runs(g: Stage, ack: bool, todo: (seq<H.Payload>, seq<H.Payload>), duos: seq<Duo>, acts: seq<Act>) {
    && g.initiator.role.Initiator? && g.responder.role.Responder?
    && |duos| == |acts| + 1
    && Ready(g.initiator, duos[0].initiator, todo.0) && Ready(g.responder, duos[0].responder, todo.1)
    && forall k :: 0 <= k < |acts| ==> Acts(g, ack, duos[k], acts[k], duos[k + 1])
  }

  // -- what every run keeps -------------------------------------------------

  predicate Sound(g: Stage, d: Duo) {
    Engaged(g.initiator, d.initiator) && Engaged(g.responder, d.responder) && Safety.Inv(Seen(g, d))
  }

  lemma ReadyIsSound(g: Stage, d: Duo, todo: (seq<H.Payload>, seq<H.Payload>))
    requires Ready(g.initiator, d.initiator, todo.0) && Ready(g.responder, d.responder, todo.1)
    ensures Sound(g, d)
  {
  }

  /** The round makes one move, or none. */
  ghost predicate MovesOn(s: H.Pair, ack: bool, s': H.Pair) {
    s' == s || exists m :: H.Can(s, m) && s' == H.After(s, ack, m)
  }

  lemma GoesMoves(p: Place, s: H.Pair, ack: bool, s': H.Pair)
    requires Safety.Inv(s) && Goes(p, H.Mine(s, p.role), H.Theirs(s, p.role), ack, H.Mine(s', p.role))
    requires H.Theirs(s', p.role) == H.Theirs(s, p.role)
    ensures MovesOn(s, ack, s') && Safety.Inv(s')
  {
    var me, q := H.Mine(s, p.role), H.Theirs(s, p.role);
    var a, luck :| H.Enabled(p.role, me, q, a, luck) && H.Mine(s', p.role) == H.Do(p.role, me, q, ack, a, luck);
    var m := H.Move(p.role, a, luck);
    assert H.Can(s, m) && s' == H.After(s, ack, m);
    Safety.MoveKeeps(s, ack, m, s');
  }

  lemma ActKeeps(g: Stage, ack: bool, d: Duo, act: Act, d': Duo)
    requires g.initiator.role.Initiator? && g.responder.role.Responder?
    requires Sound(g, d) && Acts(g, ack, d, act, d')
    ensures Sound(g, d') && MovesOn(Seen(g, d), ack, Seen(g, d'))
  {
    var p, h, h' := PlaceOf(g, act.role), HalfOf(d, act.role), HalfOf(d', act.role);
    InvBoth(Seen(g, d), act.role);
    DeedGoes(p, h, Shown(g, d, Other(act.role)), ack, act.deed, h');
    SeenMoves(p, ack, View(p, h), View(p, h'), act, Seen(g, d), Seen(g, d'));
  }

  /** One side of what is seen moves on as the round says, or not at all. */
  lemma SeenMoves(p: Place, ack: bool, me: H.Side, me': H.Side, act: Act, s: H.Pair, s': H.Pair)
    requires Safety.Inv(s) && p.role == act.role && me == H.Mine(s, p.role) && me' == H.Mine(s', p.role)
    requires H.Theirs(s', p.role) == H.Theirs(s, p.role)
    requires if act.deed.OtherCall? then me' == me else Goes(p, me, H.Theirs(s, p.role), ack, me')
    ensures MovesOn(s, ack, s') && Safety.Inv(s')
  {
    if act.deed.OtherCall? {
      assert s' == s;
    } else {
      GoesMoves(p, s, ack, s');
    }
  }

  lemma InvBoth(s: H.Pair, role: H.Role)
    requires Safety.Inv(s)
    ensures Safety.Both(H.Mine(s, role), H.Theirs(s, role))
  {
  }

  /** What holds at first and is kept by whatever either half does holds throughout. */
  lemma {:induction false} Kept<D(!new), A(!new)>(ds: seq<D>, acts: seq<A>, inv: D -> bool, step: (D, A, D) -> bool,
      k: nat)
    requires |ds| == |acts| + 1 && k < |ds| && inv(ds[0])
    requires forall i :: 0 <= i < |acts| ==> step(ds[i], acts[i], ds[i + 1])
    requires forall d, a, d' :: inv(d) && step(d, a, d') ==> inv(d')
    ensures inv(ds[k])
  {
    if k > 0 {
      Kept(ds, acts, inv, step, k - 1);
      assert step(ds[k - 1], acts[k - 1], ds[k - 1 + 1]);
    }
  }

  lemma RunIsSound(g: Stage, ack: bool, todo: (seq<H.Payload>, seq<H.Payload>), duos: seq<Duo>, acts: seq<Act>, k: nat)
    requires Runs(g, ack, todo, duos, acts) && k < |duos|
    ensures Sound(g, duos[k])
  {
    var inv, step := (d: Duo) => Sound(g, d), (d: Duo, act: Act, d': Duo) => Acts(g, ack, d, act, d');
    ReadyIsSound(g, duos[0], todo);
    forall d, act, d' | inv(d) && step(d, act, d')
      ensures inv(d')
    {
      ActKeeps(g, ack, d, act, d');
    }
    Kept(duos, acts, inv, step, k);
  }

  /**
   * At every moment of every run of two managers, what either application got, over both channels, is a prefix of
   * what the other sent, and neither manager's drain read took a payload.
   */
  lemma TwoManagersKeepOrder(
      g: Stage, ack: bool, todo: (seq<H.Payload>, seq<H.Payload>), duos: seq<Duo>, acts: seq<Act>, k: nat)
    requires Runs(g, ack, todo, duos, acts) && k < |duos|
    ensures var i, r := duos[k].initiator.ends, duos[k].responder.ends;
      && r.got <= i.sent && i.got <= r.sent
      && (forall m :: m in i.drained + r.drained ==> !m.Data?)
  {
    RunIsSound(g, ack, todo, duos, acts, k);
    Safety.GotIsPrefix(Seen(g, duos[k]).initiator, Seen(g, duos[k]).responder);
    Safety.GotIsPrefix(Seen(g, duos[k]).responder, Seen(g, duos[k]).initiator);
  }

  /** A payload goes out on the new channel only after the peer has taken every payload written on the old one. */
  lemma NewOnlyAfterDrained(
      g: Stage, ack: bool, todo: (seq<H.Payload>, seq<H.Payload>), duos: seq<Duo>, acts: seq<Act>, k: nat, role: H.Role)
    requires Runs(g, ack, todo, duos, acts) && k < |duos|
    requires Safety.Datas(HalfOf(duos[k], role).ends.newOut) != []
    ensures var p, h, peer := PlaceOf(g, role), HalfOf(duos[k], role), HalfOf(duos[k], Other(role));
      && p.e in h.s.registry && h.s.registry[p.e] == p.n && p.n !in h.s.io.paused
      && peer.ends.oldRead <= |h.ends.oldOut|
      && (forall j :: peer.ends.oldRead <= j < |h.ends.oldOut| ==> !h.ends.oldOut[j].Data?)
  {
    RunIsSound(g, ack, todo, duos, acts, k);
    Safety.SaidAfterDrained(Shown(g, duos[k], role), Shown(g, duos[k], Other(role)));
  }

  // -- a run of two managers is a round -------------------------------------

  /** Moves of a round from one pair to another. */
  ghost predicate Round(ack: bool, states: seq<H.Pair>, moves: seq<H.Move>) {
    && |states| == |moves| + 1
    && forall k :: 0 <= k < |moves| ==> H.Can(states[k], moves[k]) && states[k + 1] == H.After(states[k], ack, moves[k])
  }

  lemma OneMore(ack: bool, states: seq<H.Pair>, moves: seq<H.Move>, s': H.Pair)
      returns (states': seq<H.Pair>, moves': seq<H.Move>)
    requires Round(ack, states, moves) && MovesOn(states[|moves|], ack, s')
    ensures Round(ack, states', moves') && states'[0] == states[0] && states'[|moves'|] == s'
  {
    if s' == states[|moves|] {
      states', moves' := states, moves;
    } else {
      var m :| H.Can(states[|moves|], m) && s' == H.After(states[|moves|], ack, m);
      states', moves' := states + [s'], moves + [m];
    }
  }

  lemma {:induction false} MovesMakeRound(ack: bool, seen: seq<H.Pair>, k: nat)
      returns (states: seq<H.Pair>, moves: seq<H.Move>)
    requires k < |seen| && forall i :: 0 <= i < |seen| - 1 ==> MovesOn(seen[i], ack, seen[i + 1])
    ensures Round(ack, states, moves) && states[0] == seen[0] && states[|moves|] == seen[k]
  {
    if k == 0 {
      states, moves := [seen[0]], [];
    } else {
      states, moves := MovesMakeRound(ack, seen, k - 1);
      assert MovesOn(seen[k - 1], ack, seen[k - 1 + 1]);
      states, moves := OneMore(ack, states, moves, seen[k]);
    }
  }

  lemma MovedAt(g: Stage, ack: bool, todo: (seq<H.Payload>, seq<H.Payload>), duos: seq<Duo>, acts: seq<Act>, k: nat)
    requires Runs(g, ack, todo, duos, acts) && k < |acts|
    ensures MovesOn(Seen(g, duos[k]), ack, Seen(g, duos[k + 1]))
  {
    RunIsSound(g, ack, todo, duos, acts, k);
    ActKeeps(g, ack, duos[k], acts[k], duos[k + 1]);
  }

  /** How many upgrades of its endpoint the manager in this role has reported. */
  function Reported(g: Stage, d: Duo, role: H.Role): nat {
    Reports(HalfOf(d, role).s.io.log, PlaceOf(g, role).e)
  }

  lemma ReadySeen(g: Stage, d: Duo, todo: (seq<H.Payload>, seq<H.Payload>))
    requires Ready(g.initiator, d.initiator, todo.0) && Ready(g.responder, d.responder, todo.1)
    ensures Seen(g, d) == H.Pair(Begun(todo.0, Reported(g, d, H.Initiator)), Begun(todo.1, Reported(g, d, H.Responder)))
  {
  }

  lemma RoundIsRun(ack: bool, todo: (seq<H.Payload>, seq<H.Payload>), states: seq<H.Pair>, moves: seq<H.Move>,
      past: (nat, nat))
    requires Round(ack, states, moves) && states[0] == H.Pair(Begun(todo.0, past.0), Begun(todo.1, past.1))
    ensures past == (0, 0) ==> H.Run(ack, todo, states, moves)
  {
  }

  /**
   * What a run of two managers shows, up to any moment of it, is a run of the round: from the clean state if neither
   * manager has reported an upgrade of the endpoint before, and else from one that differs in that count alone.
   */
  lemma RunIsRound(g: Stage, ack: bool, todo: (seq<H.Payload>, seq<H.Payload>), duos: seq<Duo>, acts: seq<Act>, k: nat)
      returns (states: seq<H.Pair>, moves: seq<H.Move>)
    requires Runs(g, ack, todo, duos, acts) && k < |duos|
    ensures Round(ack, states, moves) && states[|moves|] == Seen(g, duos[k])
    ensures var past := (Reported(g, duos[0], H.Initiator), Reported(g, duos[0], H.Responder));
      states[0] == H.Pair(Begun(todo.0, past.0), Begun(todo.1, past.1))
        && (past == (0, 0) ==> H.Run(ack, todo, states, moves))
  {
    var seen := seq(|duos|, i requires 0 <= i < |duos| => Seen(g, duos[i]));
    forall i | 0 <= i < |seen| - 1
      ensures MovesOn(seen[i], ack, seen[i + 1])
    {
      MovedAt(g, ack, todo, duos, acts, i);
    }
    states, moves := MovesMakeRound(ack, seen, k);
    ReadySeen(g, duos[0], todo);
    RoundIsRun(ack, todo, states, moves, (Reported(g, duos[0], H.Initiator), Reported(g, duos[0], H.Responder)));
  }

  // -- each half is an execution of its manager -----------------------------

  ghost predicate Proceeds(env: Env, s: State, t: State) {
    t == s || exists call :: Leads(env, s, call, t)
  }

  lemma AtOnce(env: Env, s: State, op: Op, t: State)
    requires Begin(env, s, op) == Done(t)
    ensures Proceeds(env, s, t)
  {
    assert Leads(env, s, Call(op, [Done(t)]), t);
  }

  /** What a half does is at most one call of its manager. */
  lemma DeedIsCall(p: Place, h: Half, q: H.Side, ack: bool, deed: Deed, h': Half)
    requires Engaged(p, h) && Does(p, h, q, ack, deed, h')
    ensures Proceeds(p.env, h.s, h'.s)
  {
    if deed.EndAnswer? || deed.EndAccept? || deed.EndDrain? {
      EndIsCall(p, h, q, ack, deed, h');
    } else if deed.TakeUpOffer? || deed.DeclineOffer? || deed.TakeLastWrite? || deed.TakeSafeToClose? {
      TakeIsCall(p, h, q, ack, deed, h');
    }
  }

  lemma TakeIsCall(p: Place, h: Half, q: H.Side, ack: bool, deed: Deed, h': Half)
    requires Engaged(p, h) && Does(p, h, q, ack, deed, h')
    requires deed.TakeUpOffer? || deed.DeclineOffer? || deed.TakeLastWrite? || deed.TakeSafeToClose?
    ensures Proceeds(p.env, h.s, h'.s)
  {
    match deed
    case TakeUpOffer(info) => OfferIsCall(p, h, q, ack, h', info);
    case DeclineOffer(info) => DeclineIsCall(p, h, q, h', info);
    case TakeLastWrite => AtOnceUnless(p.env, h.s, IncomingFrame(p.e, LastWriteToPriorChannel), h'.s);
    case TakeSafeToClose => AtOnceUnless(p.env, h.s, IncomingFrame(p.e, SafeToClosePriorChannel), h'.s);
  }

  lemma OfferIsCall(p: Place, h: Half, q: H.Side, ack: bool, h': Half, info: PathInfo)
    requires Engaged(p, h) && Meets(p, h, q, ack, h', info)
    ensures Proceeds(p.env, h.s, h'.s)
  {
    AtOnceUnless(p.env, h.s, IncomingFrame(p.e, PathAvailable(Some(info))), h'.s);
  }

  lemma DeclineIsCall(p: Place, h: Half, q: H.Side, h': Half, info: PathInfo)
    requires Engaged(p, h) && Declines(p, h, q, h', info)
    ensures Proceeds(p.env, h.s, h'.s)
  {
    AtOnceUnless(p.env, h.s, IncomingFrame(p.e, PathAvailable(Some(info))), h'.s);
  }

  lemma EndIsCall(p: Place, h: Half, q: H.Side, ack: bool, deed: Deed, h': Half)
    requires Engaged(p, h) && Does(p, h, q, ack, deed, h') && (deed.EndAnswer? || deed.EndAccept? || deed.EndDrain?)
    ensures Proceeds(p.env, h.s, h'.s)
  {
    match deed
    case EndAnswer(receive) => AnswerIsCall(p, h, q, receive, h', h.flight.value.info);
    case EndAccept(receive) => AcceptIsCall(p, h, q, receive, h');
    case EndDrain(_) => AtOnceUnless(p.env, h.s, IncomingFrame(p.e, SafeToClosePriorChannel), h'.s);
  }

  lemma AnswerIsCall(p: Place, h: Half, q: H.Side, receive: bool, h': Half, info: PathInfo)
    requires Engaged(p, h) && h.flight == Some(Answering(info)) && EndsAnswer(p, h, q, receive, h')
    ensures Proceeds(p.env, h.s, h'.s)
  {
    AtOnce(p.env, h.s, IncomingFrame(p.e, PathAvailable(Some(info))), h'.s);
  }

  lemma AcceptIsCall(p: Place, h: Half, q: H.Side, receive: bool, h': Half)
    requires EndsAccept(p, h, q, receive, h')
    ensures Proceeds(p.env, h.s, h'.s)
  {
    var read := if receive && q.newOut[h.ends.newRead] == H.Introduction then Some(p.e) else None;
    AtOnce(p.env, h.s, IncomingConnection(p.n, read), h'.s);
  }

  lemma AtOnceUnless(env: Env, s: State, op: Op, t: State)
    requires t == s || Begin(env, s, op) == Done(t)
    ensures Proceeds(env, s, t)
  {
    if t != s {
      AtOnce(env, s, op, t);
    }
  }

  lemma OneMoreCall(env: Env, start: State, calls: seq<Call>, s: State, call: Call, t: State)
      returns (longer: seq<Call>)
    requires Execution(env, start, calls) && End(start, calls) == s && Leads(env, s, call, t)
    ensures Execution(env, start, longer) && End(start, longer) == t
  {
    longer := calls + [call];
    assert longer[..|longer| - 1] == calls;
  }

  lemma {:induction false} CallsMakeExecution(env: Env, states: seq<State>, k: nat) returns (calls: seq<Call>)
    requires k < |states| && forall i :: 0 <= i < |states| - 1 ==> Proceeds(env, states[i], states[i + 1])
    ensures Execution(env, states[0], calls) && End(states[0], calls) == states[k]
  {
    if k == 0 {
      calls := [];
    } else {
      calls := CallsMakeExecution(env, states, k - 1);
      assert Proceeds(env, states[k - 1], states[k - 1 + 1]);
      if states[k] != states[k - 1] {
        var call :| Leads(env, states[k - 1], call, states[k]);
        calls := OneMoreCall(env, states[0], calls, states[k - 1], call, states[k]);
      }
    }
  }

  lemma ProceedsAt(g: Stage, ack: bool, todo: (seq<H.Payload>, seq<H.Payload>), duos: seq<Duo>, acts: seq<Act>,
      role: H.Role, k: nat)
    requires Runs(g, ack, todo, duos, acts) && k < |acts|
    ensures Proceeds(PlaceOf(g, role).env, HalfOf(duos[k], role).s, HalfOf(duos[k + 1], role).s)
  {
    RunIsSound(g, ack, todo, duos, acts, k);
    assert Acts(g, ack, duos[k], acts[k], duos[k + 1]);
    if acts[k].role == role {
      DeedIsCall(PlaceOf(g, role), HalfOf(duos[k], role), Shown(g, duos[k], Other(role)), ack, acts[k].deed,
        HalfOf(duos[k + 1], role));
    }
  }

  /** Either manager is, at every moment, where some of its own calls took it from where it was ready. */
  lemma HalfExecutes(g: Stage, ack: bool, todo: (seq<H.Payload>, seq<H.Payload>), duos: seq<Duo>, acts: seq<Act>,
      role: H.Role, k: nat)
      returns (calls: seq<Call>)
    requires Runs(g, ack, todo, duos, acts) && k < |duos|
    ensures Execution(PlaceOf(g, role).env, HalfOf(duos[0], role).s, calls)
    ensures End(HalfOf(duos[0], role).s, calls) == HalfOf(duos[k], role).s
  {
    var states := seq(|duos|, i requires 0 <= i < |duos| => HalfOf(duos[i], role).s);
    forall i | 0 <= i < |states| - 1
      ensures Proceeds(PlaceOf(g, role).env, states[i], states[i + 1])
    {
      ProceedsAt(g, ack, todo, duos, acts, role, i);
    }
    calls := CallsMakeExecution(PlaceOf(g, role).env, states, k);
  }

  // -- such runs exist ------------------------------------------------------

  function Readied(s: State, todo: seq<H.Payload>): Half {
    Half(s, None, H.Clean(todo))
  }

  lemma PreparedIsReady(p: Place, s: State, todo: seq<H.Payload>)
    requires HeldUp.Prepared(s, p.e) && p.o == HeldUp.OLD && p.n == HeldUp.NEW
    ensures Ready(p, Readied(s, todo), todo)
  {
    assert s.io.log == [] + [Registered(p.e, p.o)];
    Snoc([], Registered(p.e, p.o), p.e, p.o);
  }

  lemma StartsUpgrade(p: Place, s: State, todo: seq<H.Payload>) returns (deed: Deed, h': Half)
    requires (forall n :: p.env.outcome(n)) && HeldUp.Prepared(s, p.e) && p.o == HeldUp.OLD && p.n == HeldUp.NEW
      && p.role.Initiator?
    ensures deed.StartUpgrade? && Offers(p, Readied(s, todo), h', deed.medium, deed.rounds)
      && h'.ends.oldOut == [H.Offer] && !h'.ends.cut
  {
    var t := InitiateOnce(p.env, s, p.e, WebRtc).state;
    HeldUp.OfferOut(p.env, s, p.e, t);
    OfferSpoken(p, s, t);
    deed := StartUpgrade(WebRtc, [Done(t)]);
    h' := Half(t, None, H.Clean(todo).(begun := true, oldOut := [] + Spoken(s.io.log, t.io.log, p.o),
      newOut := [] + Spoken(s.io.log, t.io.log, p.n)));
    InitiateLeads(p.env, s, p.e, WebRtc, t);
  }

  lemma OfferSpoken(p: Place, s: State, t: State)
    requires HeldUp.Prepared(s, p.e) && p.o == HeldUp.OLD && p.n == HeldUp.NEW
    requires InitiateOnce(p.env, s, p.e, WebRtc) == Done(t) && p.e in t.up.inProgress
    ensures Spoken(s.io.log, t.io.log, p.o) == [H.Offer]
  {
    RoundSays(p.env, s, p.e, WebRtc, p.o, p.n, Done(t));
    SpokenIs(s.io.log, t.io.log, p.o, [H.Offer]);
  }

  lemma InitiateLeads(env: Env, s: State, e: EndpointId, m: Medium, t: State)
    requires InitiateOnce(env, s, e, m) == Done(t)
    ensures Leads(env, s, Call(Initiate(e, m), [Done(t)]), t)
  {
  }

  lemma TakesOffer(p: Place, s: State, todo: seq<H.Payload>, q: H.Side) returns (deed: Deed, h': Half)
    requires (forall n :: p.env.outcome(n)) && HeldUp.Prepared(s, p.e) && p.o == HeldUp.OLD && p.n == HeldUp.NEW
      && p.role.Responder?
    requires q.oldOut == [H.Offer] && !q.cut
    ensures deed.TakeUpOffer? && Meets(p, Readied(s, todo), q, false, h', deed.info)
    ensures p.e in h'.s.registry && h'.s.registry[p.e] == p.n
  {
    var info := PathInfo(WebRtc, false);
    var t := OnFrame(p.env, s, p.e, PathAvailable(Some(info))).state;
    PreparedIsReady(p, s, todo);
    OfferSwaps(p.env, s, p.e, info, p.o, t);
    deed := TakeUpOffer(info);
    h' := Half(t, None, Take(H.Clean(todo).(begun := true, oldRead := 1, joined := true), true, s.io.log, t.io.log, p));
  }

  lemma OfferSwaps(env: Env, s: State, e: EndpointId, info: PathInfo, o: Channel, t: State)
    requires (forall n :: env.outcome(n)) && HeldUp.Prepared(s, e) && info == PathInfo(WebRtc, false) && o == HeldUp.OLD
    requires t == OnFrame(env, s, e, PathAvailable(Some(info))).state
    ensures HandshakeDispatch.TakesUp(env, s, e, info)
      && HandshakeDispatch.Dials(env, Adopted(env, s, e, info.medium), info)
    ensures e in t.registry && t.registry[e] == HeldUp.NEW
  {
    assert !WifiLanConnected(s);
  }

  lemma TwoActs(g: Stage, ack: bool, todo: (seq<H.Payload>, seq<H.Payload>), d: Duo, i: Half, r: Half, start: Deed,
      take: Deed)
      returns (duos: seq<Duo>, acts: seq<Act>)
    requires g.initiator.role.Initiator? && g.responder.role.Responder?
    requires Ready(g.initiator, d.initiator, todo.0) && Ready(g.responder, d.responder, todo.1)
    requires Does(g.initiator, d.initiator, View(g.responder, d.responder), ack, start, i)
    requires Does(g.responder, d.responder, View(g.initiator, i), ack, take, r)
    ensures Runs(g, ack, todo, duos, acts) && duos == [d, Duo(i, d.responder), Duo(i, r)] && |acts| == 2
  {
    duos, acts := [d, Duo(i, d.responder), Duo(i, r)], [Act(H.Initiator, start), Act(H.Responder, take)];
    ActsAs(g, ack, duos[0], acts[0], duos[1]);
    ActsAs(g, ack, duos[1], acts[1], duos[2]);
    TwoSteps(duos, acts, (d: Duo, act: Act, d': Duo) => Acts(g, ack, d, act, d'));
  }

  lemma ActsAs(g: Stage, ack: bool, d: Duo, act: Act, d': Duo)
    requires HalfOf(d', Other(act.role)) == HalfOf(d, Other(act.role))
    requires Does(PlaceOf(g, act.role), HalfOf(d, act.role), Shown(g, d, Other(act.role)), ack, act.deed,
      HalfOf(d', act.role))
    ensures Acts(g, ack, d, act, d')
  {
  }

  lemma TwoSteps<D, A>(ds: seq<D>, acts: seq<A>, step: (D, A, D) -> bool)
    requires |ds| == 3 && |acts| == 2 && step(ds[0], acts[0], ds[1]) && step(ds[1], acts[1], ds[2])
    ensures forall i :: 0 <= i < |acts| ==> step(ds[i], acts[i], ds[i + 1])
  {
  }

  /** Two managers can play: here an offer is made and met, and the responder has swapped. */
  lemma OfferIsMet(env: Env, e: EndpointId, todo: (seq<H.Payload>, seq<H.Payload>))
      returns (g: Stage, duos: seq<Duo>, acts: seq<Act>)
    requires forall n :: env.outcome(n)
    ensures Runs(g, false, todo, duos, acts) && |duos| == 3
    ensures Shown(g, duos[1], H.Initiator).oldOut == [H.Offer] && Shown(g, duos[2], H.Responder).core.onNew
  {
    var calls, s := HeldUp.Prepare(env, e);
    g := Stage(Place(env, H.Initiator, e, HeldUp.OLD, HeldUp.NEW), Place(env, H.Responder, e, HeldUp.OLD, HeldUp.NEW));
    PreparedIsReady(g.initiator, s, todo.0);
    PreparedIsReady(g.responder, s, todo.1);
    var start, i := StartsUpgrade(g.initiator, s, todo.0);
    var take, r := TakesOffer(g.responder, s, todo.1, View(g.initiator, i));
    duos, acts := TwoActs(g, false, todo, Duo(Readied(s, todo.0), Readied(s, todo.1)), i, r, start, take);
  }
}
