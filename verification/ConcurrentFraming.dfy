/**
 * Any number of threads writing to and reading from one framed channel while others pause, resume and close
 * it, interleaved step by step: a step is what a thread does between two points at which others can act.
 */
module ConcurrentFraming {
  import opened Wrappers
  import opened Framing

  type Thread = nat

  /** How far a write has come: waiting at the pause gate, for the writer lock, or inside it. */
  datatype WriterAt = AtGate | WaitingToWrite | Holding | Encoded | HeaderOut | WriteReturned(ok: bool)

  /**
   * `payload` is what the write puts on the wire, once it is encoded under `key`; `out` that its whole
   * frame is there.
   */
  datatype Writer = Writer(data: Bytes, key: Option<Cipher>, payload: Option<Bytes>, at: WriterAt, out: bool)

  /** How far a raw read has come: it holds the reader lock while it collects the length and then the payload. */
  datatype Reader = WaitingToRead | Length(got: Bytes) | Payload(n: int, got: Bytes) | ReadReturned(result: Result<Bytes>)

  /** The whole frame of `writer` is on the wire. */
  datatype Entry = Entry(writer: Thread, payload: Bytes)

  /** Every byte ever appended, and how many of them were taken. */
  datatype Stream = Stream(wire: Bytes, taken: nat, closed: bool)

  /** The channel's own flags; `closing`: closed, and the stream is about to be. */
  datatype Channel = Channel(paused: bool, closed: bool, closing: bool, cipher: Option<Cipher>)

  /** History: frames on the wire in order, a header still without its payload, the order of getting the lock. */
  datatype Writing = Writing(
    lock: Option<Thread>, writers: map<Thread, Writer>, sent: seq<Entry>, bare: Option<Entry>, turn: map<Thread, nat>)

  /** History: the payloads of successful reads. */
  datatype Reading = Reading(lock: Option<Thread>, readers: map<Thread, Reader>, received: seq<Bytes>)

  datatype State = State(stream: Stream, channel: Channel, writing: Writing, reading: Reading)

  const START: State :=
    State(Stream([], 0, false), Channel(false, false, false, None),
          Writing(None, map[], [], None, map[]), Reading(None, map[], []))

  datatype Step =
    | CallWrite(t: Thread, data: Bytes)
    | PassGate(t: Thread)
    | LockWriter(t: Thread)
    | Encode(t: Thread)
    | PutHeader(t: Thread)
    | PutPayload(t: Thread)
    | CallRead(t: Thread)
    | LockReader(t: Thread)
    | Take(t: Thread, k: nat)
    | Decide(t: Thread)
    | MeetEnd(t: Thread)
    | Pause
    | Resume
    | CloseChannel
    | CloseStream
    | StreamFails
    | SetCipher(c: Option<Cipher>)

  predicate WriterIs(w: Writing, t: Thread, at: WriterAt) {
    t in w.writers && w.writers[t].at == at
  }

  function Wanted(r: Reader): int {
    match r
    case Length(got) => 4 - |got|
    case Payload(n, got) => n - |got|
    case _ => 0
  }

  predicate IsReading(r: Reading, t: Thread) {
    t in r.readers && (r.readers[t].Length? || r.readers[t].Payload?)
  }

  /** The write of `t` got past the cipher. */
  predicate Ready(w: Writing, t: Thread) {
    t in w.writers && w.writers[t].payload.Some? && Fits(w.writers[t].payload.value)
  }

  predicate Enabled(s: State, step: Step) {
    match step
    case CallWrite(t, _) => t !in s.writing.writers
    case PassGate(t) => WriterIs(s.writing, t, AtGate) && !s.channel.paused
    case LockWriter(t) => WriterIs(s.writing, t, WaitingToWrite) && s.writing.lock == None
    case Encode(t) => WriterIs(s.writing, t, Holding)
    case PutHeader(t) => WriterIs(s.writing, t, Encoded) && Ready(s.writing, t)
    case PutPayload(t) => WriterIs(s.writing, t, HeaderOut) && Ready(s.writing, t)
    case CallRead(t) => t !in s.reading.readers
    case LockReader(t) => t in s.reading.readers && s.reading.readers[t].WaitingToRead? && s.reading.lock == None
    case Take(t, k) =>
      IsReading(s.reading, t) && 0 < k <= Wanted(s.reading.readers[t]) && s.stream.taken + k <= |s.stream.wire|
    case Decide(t) => IsReading(s.reading, t) && Wanted(s.reading.readers[t]) == 0
    case MeetEnd(t) =>
      IsReading(s.reading, t) && Wanted(s.reading.readers[t]) > 0 && Exhausted(s.stream)
    case CloseStream => s.channel.closing
    case _ => true
  }

  /** Nothing is left to read and nothing more will come. */
  predicate Exhausted(stream: Stream) {
    stream.closed && stream.taken == |stream.wire|
  }

  // -- writers --------------------------------------------------------------

  function Move(w: Writing, t: Thread, at: WriterAt): Writing
    requires t in w.writers
  {
    w.(writers := w.writers[t := w.writers[t].(at := at)])
  }

  function Lock(w: Writing, t: Thread): Writing
    requires t in w.writers
  {
    w.(writers := w.writers[t := w.writers[t].(at := Holding)], lock := Some(t), turn := w.turn[t := |w.turn|])
  }

  function Give(w: Writing, t: Thread, key: Option<Cipher>, payload: Bytes): Writing
    requires t in w.writers
  {
    w.(writers := w.writers[t := w.writers[t].(key := key, payload := Some(payload), at := Encoded)])
  }

  /** The call of `t` returns and gives the lock back. */
  function Return(w: Writing, t: Thread, ok: bool): Writing
    requires t in w.writers
  {
    w.(writers := w.writers[t := w.writers[t].(at := WriteReturned(ok))], lock := None)
  }

  /** The header of `t` went out; that is the whole frame if there is no payload. */
  function Announce(w: Writing, t: Thread, p: Bytes): Writing
    requires t in w.writers
  {
    if p == [] then
      w.(writers := w.writers[t := w.writers[t].(at := HeaderOut, out := true)], sent := w.sent + [Entry(t, p)])
    else
      w.(writers := w.writers[t := w.writers[t].(at := HeaderOut)], bare := Some(Entry(t, p)))
  }

  /** The payload of `t` went out, and its call returns. */
  function Finish(w: Writing, t: Thread, p: Bytes): Writing
    requires t in w.writers
  {
    if p == [] then Return(w, t, true)
    else
      w.(writers := w.writers[t := w.writers[t].(at := WriteReturned(true), out := true)], lock := None,
         sent := w.sent + [Entry(t, p)], bare := None)
  }

  // -- readers --------------------------------------------------------------

  function Got(r: Reader, more: Bytes): Reader {
    match r
    case Length(got) => Length(got + more)
    case Payload(n, got) => Payload(n, got + more)
    case _ => r
  }

  function EndRead(r: Reading, t: Thread, result: Result<Bytes>): Reading {
    r.(readers := r.readers[t := ReadReturned(result)], lock := None)
  }

  /** All the bytes asked for are there: on to the payload, or done. */
  function Decided(r: Reading, t: Thread): Reading
    requires IsReading(r, t) && Wanted(r.readers[t]) == 0
  {
    match r.readers[t]
    case Length(got) =>
      if DecodeLength(got) < 0 then EndRead(r, t, Err(Io))
      else r.(readers := r.readers[t := Payload(DecodeLength(got), [])])
    case Payload(n, got) => EndRead(r, t, Ok(got)).(received := r.received + [got])
  }

  function Apply(s: State, step: Step): State
    requires Enabled(s, step)
  {
    match step
    case CallWrite(t, data) =>
      s.(writing := s.writing.(writers := s.writing.writers[t := Writer(data, None, None, AtGate, false)]))
    case PassGate(t) => s.(writing := Move(s.writing, t, WaitingToWrite))
    case LockWriter(t) => s.(writing := Lock(s.writing, t))
    case Encode(t) =>
      var payload := ToWire(s.channel.cipher, s.writing.writers[t].data);
      s.(writing := if payload.None? then Return(s.writing, t, false) else Give(s.writing, t, s.channel.cipher, payload.value))
    case PutHeader(t) =>
      var p := s.writing.writers[t].payload.value;
      if s.stream.closed then s.(writing := Return(s.writing, t, false))
      else s.(writing := Announce(s.writing, t, p), stream := s.stream.(wire := s.stream.wire + EncodeLength(|p|)))
    case PutPayload(t) =>
      var p := s.writing.writers[t].payload.value;
      if s.stream.closed then s.(writing := Return(s.writing, t, false))
      else s.(writing := Finish(s.writing, t, p), stream := s.stream.(wire := s.stream.wire + p))
    case CallRead(t) => s.(reading := s.reading.(readers := s.reading.readers[t := WaitingToRead]))
    case LockReader(t) => s.(reading := s.reading.(readers := s.reading.readers[t := Length([])], lock := Some(t)))
    case Take(t, k) =>
      var more := s.stream.wire[s.stream.taken..s.stream.taken + k];
      s.(stream := s.stream.(taken := s.stream.taken + k),
         reading := s.reading.(readers := s.reading.readers[t := Got(s.reading.readers[t], more)]))
    case Decide(t) => s.(reading := Decided(s.reading, t))
    case MeetEnd(t) => s.(reading := EndRead(s.reading, t, Err(NoData)))
    case Pause => s.(channel := s.channel.(paused := true))
    case Resume => s.(channel := s.channel.(paused := false))
    case CloseChannel =>
      if s.channel.closed then s else s.(channel := s.channel.(closed := true, paused := false, closing := true))
    case CloseStream => s.(channel := s.channel.(closing := false), stream := s.stream.(closed := true))
    case StreamFails => s.(stream := s.stream.(closed := true))
    case SetCipher(c) => s.(channel := s.channel.(cipher := c))
  }

  /** `states` is a run of the system from its start. */
  ghost predicate Run(states: seq<State>, steps: seq<Step>) {
    && |states| == |steps| + 1
    && states[0] == START
    && forall i :: 0 <= i < |steps| ==> Enabled(states[i], steps[i]) && states[i + 1] == Apply(states[i], steps[i])
  }

  // -- what holds of the writers --------------------------------------------

  predicate InLock(w: Writer) {
    w.at == Holding || w.at == Encoded || w.at == HeaderOut
  }

  ghost predicate IsSent(w: Writing, t: Thread) {
    exists i :: 0 <= i < |w.sent| && w.sent[i].writer == t
  }

  /** What is known about one write; `over` says that the stream is closed. */
  ghost predicate WriterOk(w: Writing, over: bool, t: Thread)
    requires t in w.writers
  {
    var me := w.writers[t];
    && (InLock(me) <==> w.lock == Some(t))
    && (t in w.turn <==> me.at != AtGate && me.at != WaitingToWrite)
    && (me.at == Encoded || me.at == HeaderOut ==> me.payload.Some?)
    && (me.payload.Some? ==> me.payload == ToWire(me.key, me.data))
    && (me.at == HeaderOut ==> if me.payload.value == [] then me.out else w.bare == Some(Entry(t, me.payload.value)))
    && (me.at == WriteReturned(true) ==> me.out)
    && (me.out ==> IsSent(w, t) && me.payload.Some?)
    && (me.out && me.at != WriteReturned(true) ==>
          me.payload == Some([]) && (me.at == HeaderOut || (me.at == WriteReturned(false) && over)))
  }

  predicate SentOk(w: Writing, i: nat)
    requires i < |w.sent|
  {
    var entry := w.sent[i];
    && entry.writer in w.writers && entry.writer in w.turn
    && w.writers[entry.writer].out && w.writers[entry.writer].payload == Some(entry.payload) && Fits(entry.payload)
  }

  predicate BareOk(w: Writing, over: bool) {
    w.bare.Some? ==>
      var Entry(t, p) := w.bare.value;
      && p != [] && t in w.writers && w.writers[t].payload == Some(p) && !w.writers[t].out
      && (w.writers[t].at == HeaderOut || (w.writers[t].at == WriteReturned(false) && over))
  }

  /** The writer of the i-th frame got the lock before the writer of the j-th. */
  predicate Earlier(w: Writing, i: nat, j: nat)
    requires i < |w.sent| && j < |w.sent|
  {
    && w.sent[i].writer in w.turn && w.sent[j].writer in w.turn
    && w.turn[w.sent[i].writer] < w.turn[w.sent[j].writer]
  }

  /** Writers got the lock one at a time, and frames went out in that order. */
  ghost predicate InTurn(w: Writing) {
    && (forall t :: t in w.turn ==> t in w.writers && w.turn[t] < |w.turn|)
    && (forall i, j :: 0 <= i < j < |w.sent| ==> Earlier(w, i, j))
    && (w.lock.Some? ==>
          w.lock.value in w.turn && forall t :: t in w.turn && t != w.lock.value ==> w.turn[t] < w.turn[w.lock.value])
  }

  ghost predicate WriterInv(w: Writing, over: bool) {
    && (forall t :: t in w.writers ==> WriterOk(w, over, t))
    && (forall i :: 0 <= i < |w.sent| ==> SentOk(w, i))
    && BareOk(w, over)
    && InTurn(w)
  }

  lemma Closing(w: Writing)
    requires WriterInv(w, false)
    ensures WriterInv(w, true)
  {
    forall t | t in w.writers
      ensures WriterOk(w, true, t)
    {
      assert WriterOk(w, false, t);
    }
  }

  /** A step of writer `t` and what it cannot do to the others, or to frames already out. */
  ghost predicate StepOf(w: Writing, t: Thread, w': Writing) {
    && t in w.writers && t in w'.writers
    && w'.writers == w.writers[t := w'.writers[t]]
    && (w'.lock == w.lock || (w.lock == None && w'.lock == Some(t)) || (w.lock == Some(t) && w'.lock == None))
    && (w'.turn == w.turn || w'.turn == w.turn[t := |w.turn|])
    && (w.writers[t].out ==> w'.writers[t].out && w'.writers[t].payload == w.writers[t].payload)
    && (w'.bare == w.bare || w.lock == Some(t))
  }

  lemma OthersKeep(w: Writing, over: bool, t: Thread, w': Writing)
    requires WriterInv(w, over) && StepOf(w, t, w')
    requires |w.sent| <= |w'.sent| && w'.sent[..|w.sent|] == w.sent
    ensures forall u :: u in w.writers && u != t ==> WriterOk(w', over, u)
    ensures forall i :: 0 <= i < |w.sent| ==> SentOk(w', i)
  {
    forall u | u in w.writers && u != t
      ensures WriterOk(w', over, u)
    {
      assert WriterOk(w, over, u);
      if w.writers[u].out {
        var i :| 0 <= i < |w.sent| && w.sent[i].writer == u;
        assert w'.sent[i] == w.sent[i];
      }
    }
    forall i | 0 <= i < |w.sent|
      ensures SentOk(w', i)
    {
      assert SentOk(w, i);
      assert w'.sent[i] == w.sent[i];
    }
  }

  /** Steps that get no lock and put no frame out leave the order alone. */
  lemma QuietOrder(w: Writing, w': Writing)
    requires InTurn(w) && w'.turn == w.turn && w'.sent == w.sent
    requires w'.lock == w.lock || w'.lock == None
    requires forall t :: t in w.writers ==> t in w'.writers
    ensures InTurn(w')
  {
    forall i, j | 0 <= i < j < |w.sent|
      ensures Earlier(w', i, j)
    {
      assert Earlier(w, i, j);
    }
  }

  lemma CallKeeps(w: Writing, over: bool, t: Thread, data: Bytes)
    requires WriterInv(w, over) && t !in w.writers
    ensures WriterInv(w.(writers := w.writers[t := Writer(data, None, None, AtGate, false)]), over)
  {
    var w' := w.(writers := w.writers[t := Writer(data, None, None, AtGate, false)]);
    QuietOrder(w, w');
    NewcomerKeeps(w, over, t, w');
  }

  /** A write that has just been called is unknown to all the others. */
  lemma NewcomerKeeps(w: Writing, over: bool, t: Thread, w': Writing)
    requires WriterInv(w, over) && t !in w.writers && t in w'.writers
    requires w' == w.(writers := w.writers[t := w'.writers[t]])
    ensures forall u :: u in w.writers ==> WriterOk(w', over, u)
    ensures forall i :: 0 <= i < |w.sent| ==> SentOk(w', i)
    ensures BareOk(w', over)
    ensures t !in w.turn && w.lock != Some(t) && !IsSent(w', t)
  {
    forall u | u in w.writers
      ensures WriterOk(w', over, u)
    {
      assert WriterOk(w, over, u);
    }
    forall i | 0 <= i < |w.sent|
      ensures SentOk(w', i) && w.sent[i].writer != t
    {
      assert SentOk(w, i);
    }
  }

  lemma MoveKeeps(w: Writing, over: bool, t: Thread)
    requires WriterInv(w, over) && WriterIs(w, t, AtGate)
    ensures WriterInv(Move(w, t, WaitingToWrite), over)
  {
    assert WriterOk(w, over, t);
    OthersKeep(w, over, t, Move(w, t, WaitingToWrite));
    QuietOrder(w, Move(w, t, WaitingToWrite));
  }

  lemma LockOrder(w: Writing, t: Thread, w': Writing)
    requires InTurn(w) && t !in w.turn && w'.turn == w.turn[t := |w.turn|] && w'.lock == Some(t)
    requires w'.sent == w.sent
    requires t in w'.writers && forall u :: u in w.writers ==> u in w'.writers
    ensures InTurn(w')
  {
    forall i, j | 0 <= i < j < |w.sent|
      ensures Earlier(w', i, j)
    {
      assert Earlier(w, i, j);
    }
  }

  lemma LockKeeps(w: Writing, over: bool, t: Thread)
    requires WriterInv(w, over) && WriterIs(w, t, WaitingToWrite) && w.lock == None
    ensures WriterInv(Lock(w, t), over)
  {
    assert WriterOk(w, over, t);
    OthersKeep(w, over, t, Lock(w, t));
    LockOrder(w, t, Lock(w, t));
  }

  lemma GiveKeeps(w: Writing, over: bool, t: Thread, key: Option<Cipher>, p: Bytes)
    requires WriterInv(w, over) && WriterIs(w, t, Holding) && ToWire(key, w.writers[t].data) == Some(p)
    ensures WriterInv(Give(w, t, key, p), over)
  {
    assert WriterOk(w, over, t);
    OthersKeep(w, over, t, Give(w, t, key, p));
    QuietOrder(w, Give(w, t, key, p));
  }

  lemma ReturnKeeps(w: Writing, over: bool, t: Thread, ok: bool)
    requires WriterInv(w, over) && t in w.writers
    requires ok ==> WriterIs(w, t, HeaderOut) && w.writers[t].payload == Some([])
    requires !ok ==> w.writers[t].at == Holding || (over && (w.writers[t].at == Encoded || w.writers[t].at == HeaderOut))
    ensures WriterInv(Return(w, t, ok), over)
  {
    assert WriterOk(w, over, t);
    OthersKeep(w, over, t, Return(w, t, ok));
    QuietOrder(w, Return(w, t, ok));
  }

  /** The lock holder's frame goes out last. */
  lemma OutKeeps(w: Writing, over: bool, t: Thread, w': Writing)
    requires WriterInv(w, over) && StepOf(w, t, w') && w.lock == Some(t) && !w.writers[t].out
    requires w.writers[t].payload.Some? && w'.writers[t].payload == w.writers[t].payload && w'.turn == w.turn
    requires w'.sent == w.sent + [Entry(t, w.writers[t].payload.value)] && w'.writers[t].out
    ensures forall u :: u in w.writers && u != t ==> WriterOk(w', over, u)
    ensures forall i :: 0 <= i < |w'.sent| ==> SentOk(w', i)
    ensures InTurn(w') && IsSent(w', t)
  {
    assert WriterOk(w, over, t);
    OthersKeep(w, over, t, w');
    assert w'.sent[|w.sent|] == Entry(t, w.writers[t].payload.value);
    forall i, j | 0 <= i < j < |w'.sent|
      ensures Earlier(w', i, j)
    {
      assert SentOk(w, i);
      if j < |w.sent| {
        assert Earlier(w, i, j);
      }
    }
  }

  lemma AnnounceKeeps(w: Writing, t: Thread)
    requires WriterInv(w, false) && WriterIs(w, t, Encoded) && Ready(w, t)
    ensures WriterInv(Announce(w, t, w.writers[t].payload.value), false)
  {
    var p := w.writers[t].payload.value;
    assert WriterOk(w, false, t);
    if p == [] {
      OutKeeps(w, false, t, Announce(w, t, p));
    } else {
      OthersKeep(w, false, t, Announce(w, t, p));
      QuietOrder(w, Announce(w, t, p));
    }
  }

  lemma FinishKeeps(w: Writing, t: Thread)
    requires WriterInv(w, false) && WriterIs(w, t, HeaderOut) && Ready(w, t)
    ensures WriterInv(Finish(w, t, w.writers[t].payload.value), false)
  {
    var p := w.writers[t].payload.value;
    assert WriterOk(w, false, t);
    if p == [] {
      ReturnKeeps(w, false, t, true);
    } else {
      OutKeeps(w, false, t, Finish(w, t, p));
    }
  }

  lemma WritersKeep(s: State, step: Step)
    requires WriterInv(s.writing, s.stream.closed) && Enabled(s, step)
    ensures var s' := Apply(s, step); WriterInv(s'.writing, s'.stream.closed)
  {
    var w, over := s.writing, s.stream.closed;
    match step
    case CallWrite(t, data) => CallKeeps(w, over, t, data);
    case PassGate(t) => MoveKeeps(w, over, t);
    case LockWriter(t) => LockKeeps(w, over, t);
    case Encode(t) =>
      var payload := ToWire(s.channel.cipher, w.writers[t].data);
      if payload.None? {
        ReturnKeeps(w, over, t, false);
      } else {
        GiveKeeps(w, over, t, s.channel.cipher, payload.value);
      }
    case PutHeader(t) =>
      if over {
        ReturnKeeps(w, over, t, false);
      } else {
        AnnounceKeeps(w, t);
      }
    case PutPayload(t) =>
      if over {
        ReturnKeeps(w, over, t, false);
      } else {
        FinishKeeps(w, t);
      }
    case CloseStream =>
      if !over {
        Closing(w);
      }
    case StreamFails =>
      if !over {
        Closing(w);
      }
    case _ =>
  }

  // -- the bytes ------------------------------------------------------------

  ghost predicate AllFit(sent: seq<Entry>) {
    forall i :: 0 <= i < |sent| ==> Fits(sent[i].payload)
  }

  /** The frames one after the other. */
  ghost function Flat(sent: seq<Entry>): Bytes
    requires AllFit(sent)
  {
    if sent == [] then [] else Flat(sent[..|sent| - 1]) + FrameOf(sent[|sent| - 1].payload)
  }

  lemma FlatSnoc(sent: seq<Entry>, entry: Entry)
    requires AllFit(sent) && Fits(entry.payload)
    ensures AllFit(sent + [entry]) && Flat(sent + [entry]) == Flat(sent) + FrameOf(entry.payload)
  {
    assert (sent + [entry])[..|sent|] == sent;
  }

  function BareHeader(bare: Option<Entry>): Bytes {
    if bare.Some? && Fits(bare.value.payload) then EncodeLength(|bare.value.payload|) else []
  }

  /** Whole frames, and then at most one header without its payload. */
  ghost predicate WireOk(wire: Bytes, w: Writing) {
    AllFit(w.sent) && wire == Flat(w.sent) + BareHeader(w.bare)
  }

  /** While the stream is open only the lock holder can have a header out without its payload. */
  lemma BareIsHolders(w: Writing)
    requires WriterInv(w, false) && w.bare.Some?
    ensures w.lock == Some(w.bare.value.writer) && WriterIs(w, w.bare.value.writer, HeaderOut)
  {
    assert WriterOk(w, false, w.bare.value.writer);
  }

  lemma AnnounceWire(w: Writing, wire: Bytes, t: Thread)
    requires WriterInv(w, false) && WireOk(wire, w) && WriterIs(w, t, Encoded) && Ready(w, t)
    ensures var p := w.writers[t].payload.value; WireOk(wire + EncodeLength(|p|), Announce(w, t, p))
  {
    var p := w.writers[t].payload.value;
    assert WriterOk(w, false, t);
    if w.bare.Some? {
      BareIsHolders(w);
    }
    assert wire == Flat(w.sent);
    if p == [] {
      FlatSnoc(w.sent, Entry(t, p));
      assert FrameOf(p) == EncodeLength(0);
      assert Flat(w.sent) + EncodeLength(0) + [] == Flat(w.sent) + EncodeLength(0);
    }
  }

  lemma FinishWire(w: Writing, wire: Bytes, t: Thread)
    requires WriterInv(w, false) && WireOk(wire, w) && WriterIs(w, t, HeaderOut) && Ready(w, t)
    ensures var p := w.writers[t].payload.value; WireOk(wire + p, Finish(w, t, p))
  {
    var p := w.writers[t].payload.value;
    assert WriterOk(w, false, t);
    FlatSnoc(w.sent, Entry(t, p));
    if p == [] {
      assert wire + p == wire;
    } else {
      assert wire + p == Flat(w.sent) + (EncodeLength(|p|) + p);
      assert Flat(w.sent + [Entry(t, p)]) + [] == Flat(w.sent + [Entry(t, p)]);
    }
  }

  lemma WireKeeps(s: State, step: Step)
    requires WriterInv(s.writing, s.stream.closed) && WireOk(s.stream.wire, s.writing) && Enabled(s, step)
    ensures var s' := Apply(s, step); WireOk(s'.stream.wire, s'.writing)
  {
    match step
    case PutHeader(t) =>
      if !s.stream.closed {
        AnnounceWire(s.writing, s.stream.wire, t);
      }
    case PutPayload(t) =>
      if !s.stream.closed {
        FinishWire(s.writing, s.stream.wire, t);
      }
    case _ =>
  }

  // -- what holds of the readers --------------------------------------------

  lemma {:induction false} FlatPrefix(sent: seq<Entry>, k: nat)
    requires AllFit(sent) && k <= |sent|
    ensures AllFit(sent[..k]) && Flat(sent[..k]) <= Flat(sent)
    decreases |sent|
  {
    if k < |sent| {
      FlatPrefix(sent[..|sent| - 1], k);
      assert sent[..|sent| - 1][..k] == sent[..k];
    } else {
      assert sent[..k] == sent;
    }
  }

  /** Where the k-th frame starts. */
  ghost function Start(sent: seq<Entry>, k: nat): nat
    requires AllFit(sent) && k <= |sent|
  {
    |Flat(sent[..k])|
  }

  /** What is on the wire from there on. */
  lemma FrameAt(wire: Bytes, w: Writing, k: nat)
    requires WireOk(wire, w) && k < |w.sent|
    ensures var q, start := w.sent[k].payload, Start(w.sent, k);
      && Start(w.sent, k + 1) == start + 4 + |q| <= |wire|
      && wire[start..start + 4] == EncodeLength(|q|) && wire[start + 4..start + 4 + |q|] == q
  {
    var q, start := w.sent[k].payload, Start(w.sent, k);
    FlatNext(w.sent, k);
    FlatPrefix(w.sent, k + 1);
    FrameInside(wire, Flat(w.sent[..k]), q);
  }

  lemma FlatNext(sent: seq<Entry>, k: nat)
    requires k < |sent| && Fits(sent[k].payload) && AllFit(sent[..k])
    ensures AllFit(sent[..k + 1]) && Flat(sent[..k + 1]) == Flat(sent[..k]) + FrameOf(sent[k].payload)
  {
    FlatSnoc(sent[..k], sent[k]);
    assert sent[..k] + [sent[k]] == sent[..k + 1];
  }

  lemma FrameInside(wire: Bytes, before: Bytes, q: Bytes)
    requires Fits(q) && before + FrameOf(q) <= wire
    ensures wire[|before|..|before| + 4] == EncodeLength(|q|) && wire[|before| + 4..|before| + 4 + |q|] == q
  {
    assert wire[|before|..|before| + 4 + |q|] == FrameOf(q);
    assert FrameOf(q)[..4] == EncodeLength(|q|) && FrameOf(q)[4..] == q;
  }

  /** After the last whole frame there is nothing, or the length of a payload that is not there. */
  lemma NothingAt(wire: Bytes, w: Writing)
    requires WireOk(wire, w)
    ensures Start(w.sent, |w.sent|) <= |wire|
    ensures Start(w.sent, |w.sent|) < |wire| ==>
      && w.bare.Some? && Fits(w.bare.value.payload) && |wire| == Start(w.sent, |w.sent|) + 4
      && wire[Start(w.sent, |w.sent|)..] == EncodeLength(|w.bare.value.payload|)
  {
    assert w.sent[..|w.sent|] == w.sent;
  }

  /** What the reader holding the lock has taken is the beginning of the frame that starts at `start`. */
  predicate InFrame(stream: Stream, start: nat, r: Reader) {
    match r
    case Length(got) =>
      |got| <= 4 && stream.taken == start + |got| <= |stream.wire| && stream.wire[start..stream.taken] == got
    case Payload(n, got) =>
      && 0 <= |got| <= n && stream.taken == start + 4 + |got| <= |stream.wire|
      && stream.wire[start + 4..stream.taken] == got && n == DecodeLength(stream.wire[start..start + 4])
    case _ => false
  }

  /** Successful reads were of the first frames, in order, and a read in progress is in the next one. */
  ghost predicate ReaderInv(stream: Stream, r: Reading, sent: seq<Entry>) {
    && AllFit(sent)
    && |r.received| <= |sent| && (forall k :: 0 <= k < |r.received| ==> r.received[k] == sent[k].payload)
    && Start(sent, |r.received|) <= stream.taken <= |stream.wire|
    && (forall t: Thread :: IsReading(r, t) ==> r.lock == Some(t))
    && (match r.lock
        case None => stream.taken == Start(sent, |r.received|) || Exhausted(stream)
        case Some(t) =>
          && t in r.readers
          && (InFrame(stream, Start(sent, |r.received|), r.readers[t])
              || (Exhausted(stream) && r.readers[t] == Length([]))))
  }

  /** More bytes and more frames leave a read in progress where it is. */
  lemma GrowingKeeps(stream: Stream, r: Reading, sent: seq<Entry>, more: Bytes, sent': seq<Entry>)
    requires ReaderInv(stream, r, sent) && !stream.closed
    requires |sent| <= |sent'| && sent'[..|sent|] == sent && AllFit(sent')
    ensures ReaderInv(stream.(wire := stream.wire + more), r, sent')
  {
    var k := |r.received|;
    assert sent'[..k] == sent[..k];
    var start := Start(sent, k);
    var wire' := stream.wire + more;
    forall i | 0 <= i < k
      ensures r.received[i] == sent'[i].payload
    {
      assert sent'[i] == sent'[..|sent|][i];
    }
    assert start <= stream.taken ==> wire'[start..stream.taken] == stream.wire[start..stream.taken];
    if start + 4 <= stream.taken {
      assert wire'[start + 4..stream.taken] == stream.wire[start + 4..stream.taken];
      assert wire'[start..start + 4] == stream.wire[start..start + 4];
    }
  }

  lemma TakeKeeps(s: State, t: Thread, k: nat)
    requires ReaderInv(s.stream, s.reading, s.writing.sent) && Enabled(s, Take(t, k))
    ensures var s' := Apply(s, Take(t, k)); ReaderInv(s'.stream, s'.reading, s'.writing.sent)
  {
    var start, wire, taken := Start(s.writing.sent, |s.reading.received|), s.stream.wire, s.stream.taken;
    match s.reading.readers[t]
    case Length(got) => SliceConcat(wire, start, taken, taken + k);
    case Payload(n, got) => SliceConcat(wire, start + 4, taken, taken + k);
  }

  lemma SliceConcat(bytes: Bytes, a: nat, b: nat, c: nat)
    requires a <= b <= c <= |bytes|
    ensures bytes[a..c] == bytes[a..b] + bytes[b..c]
  {
  }

  /** The lock holder has all the bytes it asked for. */
  ghost predicate Deciding(stream: Stream, r: Reading, w: Writing, t: Thread) {
    && ReaderInv(stream, r, w.sent) && WireOk(stream.wire, w) && BareOk(w, stream.closed)
    && IsReading(r, t) && Wanted(r.readers[t]) == 0
  }

  /** The length at the start of the next frame is that of a payload sent, or of one on its way: then it is not 0. */
  lemma LengthAt(wire: Bytes, w: Writing, over: bool, k: nat) returns (p: Bytes)
    requires WireOk(wire, w) && BareOk(w, over) && k <= |w.sent| && Start(w.sent, k) + 4 <= |wire|
    ensures Fits(p) && DecodeLength(wire[Start(w.sent, k)..Start(w.sent, k) + 4]) == |p|
    ensures if k < |w.sent| then p == w.sent[k].payload else p != [] && |wire| == Start(w.sent, k) + 4
  {
    var start := Start(w.sent, k);
    if k < |w.sent| {
      FrameAt(wire, w, k);
      p := w.sent[k].payload;
    } else {
      NothingAt(wire, w);
      p := w.bare.value.payload;
      assert wire[start..] == wire[start..start + 4];
    }
    DecodeEncodeLength(|p|);
  }

  /** The length read is never negative. */
  lemma LengthKeeps(stream: Stream, r: Reading, w: Writing, t: Thread)
    requires Deciding(stream, r, w, t) && r.readers[t].Length?
    ensures ReaderInv(stream, Decided(r, t), w.sent)
  {
    var p := LengthAt(stream.wire, w, stream.closed, |r.received|);
    var start := Start(w.sent, |r.received|);
    assert stream.wire[start..start + 4] == r.readers[t].got;
  }

  /** A whole payload was taken, so it is that of a frame sent: behind a bare header there is none. */
  lemma PayloadIsSent(stream: Stream, r: Reading, w: Writing, t: Thread)
    requires Deciding(stream, r, w, t) && r.readers[t].Payload?
    ensures |r.received| < |w.sent| && r.readers[t].got == w.sent[|r.received|].payload
    ensures stream.taken == Start(w.sent, |r.received| + 1)
  {
    var p := LengthAt(stream.wire, w, stream.closed, |r.received|);
    FrameAt(stream.wire, w, |r.received|);
  }

  lemma DecideKeeps(stream: Stream, r: Reading, w: Writing, t: Thread)
    requires Deciding(stream, r, w, t)
    ensures ReaderInv(stream, Decided(r, t), w.sent)
  {
    if r.readers[t].Length? {
      LengthKeeps(stream, r, w, t);
    } else {
      PayloadIsSent(stream, r, w, t);
    }
  }

  // -- whole runs -----------------------------------------------------------

  ghost predicate SystemInv(s: State) {
    && WriterInv(s.writing, s.stream.closed)
    && WireOk(s.stream.wire, s.writing)
    && ReaderInv(s.stream, s.reading, s.writing.sent)
  }

  lemma PutKeeps(s: State, step: Step)
    requires SystemInv(s) && Enabled(s, step) && (step.PutHeader? || step.PutPayload?)
    ensures var s' := Apply(s, step); ReaderInv(s'.stream, s'.reading, s'.writing.sent)
  {
    var w, t := s.writing, step.t;
    if !s.stream.closed {
      var p := w.writers[t].payload.value;
      if step.PutHeader? {
        AnnounceWire(w, s.stream.wire, t);
        GrowingKeeps(s.stream, s.reading, w.sent, EncodeLength(|p|), Announce(w, t, p).sent);
      } else {
        FinishWire(w, s.stream.wire, t);
        GrowingKeeps(s.stream, s.reading, w.sent, p, Finish(w, t, p).sent);
      }
    }
  }

  lemma ReadersKeep(s: State, step: Step)
    requires SystemInv(s) && Enabled(s, step)
    ensures var s' := Apply(s, step); ReaderInv(s'.stream, s'.reading, s'.writing.sent)
  {
    match step
    case PutHeader(t) => PutKeeps(s, step);
    case PutPayload(t) => PutKeeps(s, step);
    case Take(t, k) => TakeKeeps(s, t, k);
    case Decide(t) => DecideKeeps(s.stream, s.reading, s.writing, t);
    case _ => RestKeeps(s, step);
  }

  lemma RestKeeps(s: State, step: Step)
    requires ReaderInv(s.stream, s.reading, s.writing.sent) && Enabled(s, step)
    requires !step.PutHeader? && !step.PutPayload? && !step.Take? && !step.Decide?
    ensures var s' := Apply(s, step); ReaderInv(s'.stream, s'.reading, s'.writing.sent)
  {
  }

  lemma {:induction false} RunKeeps(states: seq<State>, steps: seq<Step>, i: nat)
    requires Run(states, steps) && i < |states|
    ensures SystemInv(states[i])
    decreases i
  {
    if i > 0 {
      RunKeeps(states, steps, i - 1);
      assert states[i - 1 + 1] == Apply(states[i - 1], steps[i - 1]);
      StepKeeps(states[i - 1], steps[i - 1], states[i]);
    }
  }

  lemma StepKeeps(s: State, step: Step, t: State)
    requires SystemInv(s) && Enabled(s, step) && t == Apply(s, step)
    ensures SystemInv(t)
  {
    WritersKeep(s, step);
    WireKeeps(s, step);
    ReadersKeep(s, step);
  }

  /**
   * Whatever the interleaving, the bytes ever appended are whole frames, in the order in which their writers
   * got the lock and at most one per write, followed by at most one header without its payload. If the write
   * that header belongs to has returned, it has failed, and the stream is closed.
   */
  lemma WireIsFrames(states: seq<State>, steps: seq<Step>, i: nat)
    requires Run(states, steps) && i < |states|
    ensures var w := states[i].writing;
      && AllFit(w.sent) && states[i].stream.wire == Flat(w.sent) + BareHeader(w.bare)
      && (forall j, k :: 0 <= j < k < |w.sent| ==> Earlier(w, j, k) && w.sent[j].writer != w.sent[k].writer)
      && (w.bare.Some? ==>
            var t := w.bare.value.writer;
            && t in w.writers && !IsSent(w, t) && (w.writers[t].at == HeaderOut || states[i].stream.closed))
  {
    RunKeeps(states, steps, i);
    var w := states[i].writing;
    OnePerWrite(w);
    if w.bare.Some? {
      BareIsUnsent(w, states[i].stream.closed);
    }
  }

  lemma OnePerWrite(w: Writing)
    requires InTurn(w)
    ensures forall j, k :: 0 <= j < k < |w.sent| ==> Earlier(w, j, k) && w.sent[j].writer != w.sent[k].writer
  {
    forall j, k | 0 <= j < k < |w.sent|
      ensures Earlier(w, j, k) && w.sent[j].writer != w.sent[k].writer
    {
      assert Earlier(w, j, k);
    }
  }

  lemma BareIsUnsent(w: Writing, over: bool)
    requires WriterInv(w, over) && w.bare.Some?
    ensures var t := w.bare.value.writer; t in w.writers && !IsSent(w, t) && (w.writers[t].at == HeaderOut || over)
  {
    forall j | 0 <= j < |w.sent|
      ensures w.sent[j].writer != w.bare.value.writer
    {
      assert SentOk(w, j);
    }
  }

  /** Once the stream is closed, it stays closed and not a byte is added. */
  lemma {:induction false} ClosedForGood(states: seq<State>, steps: seq<Step>, i: nat, j: nat)
    requires Run(states, steps) && i <= j < |states| && states[i].stream.closed
    ensures states[j].stream.closed && states[j].stream.wire == states[i].stream.wire
    decreases j
  {
    if i < j {
      ClosedForGood(states, steps, i, j - 1);
      assert states[j - 1 + 1] == Apply(states[j - 1], steps[j - 1]);
    }
  }

  /**
   * A write that succeeds has put the frame of its encoded data on the wire, once. One that fails has not, except
   * for an empty payload, whose frame is its header: closed in between, the write fails with all of it out.
   */
  lemma SuccessMeansSent(states: seq<State>, steps: seq<Step>, i: nat, t: Thread)
    requires Run(states, steps) && i < |states|
    requires t in states[i].writing.writers && states[i].writing.writers[t].at.WriteReturned?
    ensures var w, me := states[i].writing, states[i].writing.writers[t];
      && (me.at.ok ==> IsSent(w, t))
      && (me.payload != Some([]) ==> (me.at.ok <==> IsSent(w, t)))
      && (forall k :: 0 <= k < |w.sent| && w.sent[k].writer == t ==> ToWire(me.key, me.data) == Some(w.sent[k].payload))
  {
    RunKeeps(states, steps, i);
    var w := states[i].writing;
    assert WriterOk(w, states[i].stream.closed, t);
    forall k | 0 <= k < |w.sent| && w.sent[k].writer == t
      ensures w.writers[t].out && w.writers[t].payload == Some(w.sent[k].payload)
    {
      assert SentOk(w, k);
    }
  }

  /** The k-th successful raw read returns the payload of the k-th frame. */
  lemma ReadsFollowFrames(states: seq<State>, steps: seq<Step>, i: nat)
    requires Run(states, steps) && i < |states|
    ensures var s := states[i];
      |s.reading.received| <= |s.writing.sent|
      && forall k :: 0 <= k < |s.reading.received| ==> s.reading.received[k] == s.writing.sent[k].payload
  {
    RunKeeps(states, steps, i);
  }

  /** An empty write whose header went out, and no more. */
  const HEADER_OUT: State :=
    START.(stream := Stream(EncodeLength(0), 0, false),
           writing := Writing(Some(0), map[0 := Writer([], None, Some([]), HeaderOut, true)], [Entry(0, [])], None, map[0 := 0]))

  lemma EmptyHeaderOut() returns (states: seq<State>)
    ensures Run(states, [CallWrite(0, []), PassGate(0), LockWriter(0), Encode(0), PutHeader(0)]) && states[5] == HEADER_OUT
  {
    var s1 := Apply(START, CallWrite(0, []));
    var s3 := Apply(Apply(s1, PassGate(0)), LockWriter(0));
    var s4 := Apply(s3, Encode(0));
    states := [START, s1, Apply(s1, PassGate(0)), s3, s4, Apply(s4, PutHeader(0))];
    assert [] + EncodeLength(0) == EncodeLength(0);
  }

  /** The exception is real: closing between header and payload fails an empty write whose frame is out. */
  lemma EmptyWriteFails() returns (states: seq<State>, steps: seq<Step>)
    ensures Run(states, steps)
    ensures var s := states[|steps|];
      WriterIs(s.writing, 0, WriteReturned(false)) && IsSent(s.writing, 0) && s.stream.wire == FrameOf([])
  {
    var before := EmptyHeaderOut();
    var s6 := Apply(HEADER_OUT, CloseChannel);
    var s7 := Apply(s6, CloseStream);
    states := before + [s6, s7, Apply(s7, PutPayload(0))];
    steps := [CallWrite(0, []), PassGate(0), LockWriter(0), Encode(0), PutHeader(0)] + [CloseChannel, CloseStream, PutPayload(0)];
    assert HEADER_OUT.writing.sent[0].writer == 0;
  }

  // -- the gate, and reads that fail ----------------------------------------

  /**
   * While the channel stays paused, a write that has not passed the gate, or comes only now, does not pass it and has
   * nothing on the wire.
   */
  lemma PausedHoldsBack(states: seq<State>, steps: seq<Step>, i: nat, j: nat, t: Thread)
    requires Run(states, steps) && i <= j < |states| && (forall k :: i <= k < j ==> states[k].channel.paused)
    requires t in states[i].writing.writers ==> states[i].writing.writers[t].at == AtGate
    ensures var w := states[j].writing;
      && (t in w.writers ==> w.writers[t].at == AtGate) && !IsSent(w, t)
      && (w.bare.Some? ==> w.bare.value.writer != t)
  {
    StaysAtGate(states, steps, i, j, t);
    RunKeeps(states, steps, j);
    GateUnsent(states[j].writing, states[j].stream.closed, t);
  }

  lemma GateUnsent(w: Writing, over: bool, t: Thread)
    requires WriterInv(w, over) && (t in w.writers ==> w.writers[t].at == AtGate)
    ensures !IsSent(w, t) && (w.bare.Some? ==> w.bare.value.writer != t)
  {
    assert t in w.writers ==> WriterOk(w, over, t);
    forall k | 0 <= k < |w.sent|
      ensures w.sent[k].writer != t
    {
      assert SentOk(w, k);
    }
  }

  predicate NotPast(s: State, t: Thread) {
    t in s.writing.writers ==> s.writing.writers[t].at == AtGate
  }

  lemma GateHolds(s: State, step: Step, s': State, t: Thread)
    requires s.channel.paused && Enabled(s, step) && s' == Apply(s, step) && NotPast(s, t)
    ensures NotPast(s', t)
  {
  }

  lemma StaysAtGate(states: seq<State>, steps: seq<Step>, i: nat, j: nat, t: Thread)
    requires Run(states, steps) && i <= j < |states| && (forall k :: i <= k < j ==> states[k].channel.paused)
    requires NotPast(states[i], t)
    ensures NotPast(states[j], t)
  {
    var gate := seq(|states|, k requires 0 <= k < |states| => NotPast(states[k], t));
    forall k | i <= k < j && gate[k]
      ensures gate[k + 1]
    {
      GateHolds(states[k], steps[k], states[k + 1], t);
    }
    Along(gate, i, j);
  }

  /** What each step keeps holds on. */
  lemma {:induction false} Along(holds: seq<bool>, i: nat, j: nat)
    requires i <= j < |holds| && holds[i] && forall k :: i <= k < j && holds[k] ==> holds[k + 1]
    ensures holds[j]
    decreases j
  {
    if i < j {
      Along(holds, i, j - 1);
      assert holds[j - 1 + 1];
    }
  }

  /** The first close opens the gate: whoever waits there may go on, to find the stream closed sooner or later. */
  lemma CloseOpensTheGate(s: State, t: Thread)
    requires !s.channel.closed && WriterIs(s.writing, t, AtGate)
    ensures Enabled(Apply(s, CloseChannel), PassGate(t)) && Enabled(Apply(s, CloseChannel), CloseStream)
  {
  }

  predicate FailedAtTheEnd(s: State, t: Thread) {
    t in s.reading.readers && s.reading.readers[t].ReadReturned? && s.reading.readers[t].result.Err? ==>
      s.reading.readers[t].result == Err(NoData) && Exhausted(s.stream)
  }

  /** A raw read fails only at the end of a closed stream all of which was taken; it never meets a bad length. */
  lemma ReadsFailAtTheEnd(states: seq<State>, steps: seq<Step>, i: nat, t: Thread)
    requires Run(states, steps) && i < |states|
    ensures FailedAtTheEnd(states[i], t)
  {
    var ok := seq(|states|, k requires 0 <= k < |states| => FailedAtTheEnd(states[k], t));
    forall k | 0 <= k < i && ok[k]
      ensures ok[k + 1]
    {
      RunKeeps(states, steps, k);
      StepFails(states[k], steps[k], states[k + 1], t);
    }
    Along(ok, 0, i);
  }

  lemma StepFails(s: State, step: Step, s': State, t: Thread)
    requires SystemInv(s) && Enabled(s, step) && s' == Apply(s, step) && FailedAtTheEnd(s, t)
    ensures FailedAtTheEnd(s', t)
  {
    if step.Decide? {
      DecideFails(s, step.t, s', t);
    } else {
      OtherFails(s, step, s', t);
    }
  }

  lemma OtherFails(s: State, step: Step, s': State, t: Thread)
    requires Enabled(s, step) && !step.Decide? && s' == Apply(s, step) && FailedAtTheEnd(s, t)
    requires s.stream.taken <= |s.stream.wire|
    ensures FailedAtTheEnd(s', t)
  {
  }

  lemma DecideFails(s: State, u: Thread, s': State, t: Thread)
    requires SystemInv(s) && Enabled(s, Decide(u)) && s' == Apply(s, Decide(u)) && FailedAtTheEnd(s, t)
    ensures FailedAtTheEnd(s', t)
  {
    if s.reading.readers[u].Length? {
      LengthIsGood(s, u);
    }
  }

  lemma LengthIsGood(s: State, t: Thread)
    requires SystemInv(s) && Enabled(s, Decide(t)) && s.reading.readers[t].Length?
    ensures DecodeLength(s.reading.readers[t].got) >= 0
  {
    var start := Start(s.writing.sent, |s.reading.received|);
    var p := LengthAt(s.stream.wire, s.writing, s.stream.closed, |s.reading.received|);
    assert s.stream.wire[start..start + 4] == s.reading.readers[t].got;
  }
}
