/** The shared output queue: byte budget, producers, frame queue and writer, under any interleaving.

    An event that is not enabled leaves the state as it is, so every sequence of events is a run. */
module Outbound {
  import opened Prelude
  import opened CappedBuffers

  const MAX_OUTBOUND_BYTES: nat := 2 * (MAX_FRAME + 1)
  const QUEUE_SLOTS: nat := 64

  type Token = nat

  /** What a frame is for. Only session turns are told apart. */
  datatype Tag = Plain | PromptOf(turn: nat) | CancelOf(turn: nat)

  /** `capacity` is what the frame's vector has allocated, `permits` the part of the budget it owns. */
  datatype Frame = Frame(bytes: seq<byte>, capacity: nat, lifetime: Option<Token>, permits: nat, tag: Tag)

  /** One call of `OutboundQueue::send`. `Reserved` is serializing: it has written `bytes` to a buffer
      of this extent. */
  datatype Producer =
    | Waiting(lifetime: Option<Token>, tag: Tag)
    | Reserved(lifetime: Option<Token>, tag: Tag, bytes: seq<byte>, extent: Extent)
    | Encoded(frame: Frame)
    | Finished(sent: bool, tag: Tag)

  /** `Halted` is past the loop's `break`; `Gone` has dropped the receiver too. `torn` is how much of
      a frame the loop left behind. */
  datatype Writer =
    | Idle
    | Writing(frame: Frame, offset: nat)
    | Flushing(frame: Frame)
    | Halted(torn: seq<byte>)
    | Gone(torn: seq<byte>)

  /** A frame the writer is done with: written completely, or skipped. */
  datatype Delivery = Delivery(frame: Frame, written: bool)

  datatype Reason =
    | ConnectionClosed
    | CancelledMidFrame
    | WriteFailed
    | WroteNothing
    | FlushFailed
    | WriteTimedOut
    | Elsewhere(code: nat)

  /** `sent` and `log` are history: every frame ever queued, and the fate of those taken off. */
  datatype State = State(
    available: nat,
    producers: seq<Producer>,
    queue: seq<Frame>,
    writer: Writer,
    wire: seq<byte>,
    failure: Option<Reason>,
    stop: bool,
    cancelled: set<Token>,
    sent: seq<Frame>,
    log: seq<Delivery>)

  const INITIAL := State(MAX_OUTBOUND_BYTES, [], [], Idle, [], None, false, {}, [], [])

  /** Request lifetimes are children of the connection's stop token. */
  predicate Dead(s: State, lifetime: Option<Token>) {
    lifetime.Some? && (s.stop || lifetime.value in s.cancelled)
  }

  // ---------------------------------------------------------------- writing one frame

  datatype Io = Accepted(count: nat) | IoError

  datatype Poll = Poll(stopped: bool, cancelled: bool, io: Io)

  datatype Progress = Advance(offset: nat) | Skip | Break(reason: Reason)

  /** One turn of the write loop, its `select!` biased towards stopping, then cancellation. */
  function PollWrite(length: nat, offset: nat, poll: Poll): (next: Progress)
    ensures next.Advance? && offset < length ==> offset < next.offset <= length
    ensures next.Skip? <==> !poll.stopped && poll.cancelled && offset == 0
    ensures next == Break(CancelledMidFrame) <==> !poll.stopped && poll.cancelled && offset > 0
  {
    if poll.stopped then Break(ConnectionClosed) else
    if poll.cancelled then if offset == 0 then Skip else Break(CancelledMidFrame) else
    match poll.io
    case IoError => Break(WriteFailed)
    case Accepted(count) =>
      if count == 0 then Break(WroteNothing) else Advance(Min(offset + count, length))
  }

  /** The loop from `offset` over successive polls; running out of them is the timeout. */
  function WriteFrom(length: nat, offset: nat, polls: seq<Poll>): (nat, Progress)
    decreases |polls|
  {
    if offset >= length then (offset, Advance(offset)) else
    if polls == [] then (offset, Break(WriteTimedOut)) else
    match PollWrite(length, offset, polls[0])
    case Advance(further) => WriteFrom(length, further, polls[1..])
    case other => (offset, other)
  }

  /** Skipping writes nothing; finishing writes everything; anything else leaves a strict prefix
      and, once that is not empty, only failure is possible. */
  lemma {:induction false} WriteOutcomes(length: nat, offset: nat, polls: seq<Poll>)
    requires offset <= length
    ensures
      var (reached, outcome) := WriteFrom(length, offset, polls);
      match outcome
      case Advance(_) => reached == length
      case Skip => reached == 0 == offset
      case Break(_) => offset <= reached < length
    decreases |polls|
  {
    if offset < length && polls != [] {
      var next := PollWrite(length, offset, polls[0]);
      if next.Advance? {
        WriteOutcomes(length, next.offset, polls[1..]);
      }
    }
  }

  /** The agent's standard input. */
  class Pipe {
    var wire: seq<byte>

    constructor ()
      ensures wire == []
    {
      wire := [];
    }

    method WriteFrame(frame: array<byte>, polls: seq<Poll>) returns (outcome: Progress)
      modifies this
      ensures
        var (reached, expected) := WriteFrom(frame.Length, 0, polls);
        outcome == expected && reached <= frame.Length && wire == old(wire) + frame[..reached]
      ensures frame.Length > 0 && polls != [] && !polls[0].stopped && polls[0].cancelled ==>
        outcome == Skip && wire == old(wire)
      ensures outcome == Break(CancelledMidFrame) ==> old(wire) < wire
    {
      var offset, turn := 0, 0;
      while offset < frame.Length
        invariant 0 <= offset <= frame.Length && turn <= |polls|
        invariant wire == old(wire) + frame[..offset]
        invariant WriteFrom(frame.Length, offset, polls[turn..]) == WriteFrom(frame.Length, 0, polls)
        decreases |polls| - turn
      {
        if turn == |polls| {
          return Break(WriteTimedOut);
        }
        var next := PollWrite(frame.Length, offset, polls[turn]);
        assert polls[turn..][1..] == polls[turn + 1..];
        if !next.Advance? {
          return next;
        }
        assert frame[..next.offset] == frame[..offset] + frame[offset..next.offset];
        wire := wire + frame[offset..next.offset];
        offset := next.offset;
        turn := turn + 1;
      }
      return Advance(offset);
    }
  }

  // ---------------------------------------------------------------- the machine

  datatype Event =
    | Begin(lifetime: Option<Token>, tag: Tag)
    | Acquire(producer: nat)
    | Serialize(producer: nat, part: seq<byte>)
    | Encode(producer: nat)
    | Enqueue(producer: nat)
    | Abandon(producer: nat)
    | CancelLifetime(token: Token)
    | Fail(code: nat)
    | Stop
    | Receive
    | Write(io: Io)
    | Flush(ok: bool)
    | TimeOut
    | Leave
    | DropReceiver

  function Held(p: Producer): nat {
    match p
    case Reserved(_, _, _, _) => MAX_FRAME + 1
    case Encoded(frame) => frame.permits
    case _ => 0
  }

  function TagOf(p: Producer): Tag {
    if p.Encoded? then p.frame.tag else p.tag
  }

  /** The first failure keeps the diagnostic. */
  function Failing(s: State, reason: Reason): State {
    s.(failure := if s.failure.Some? then s.failure else Some(reason))
  }

  /** The allocation once the delimiter is pushed; without room for it the vector would double. */
  function Delimited(e: Extent): nat {
    if e.length + 1 <= e.capacity then e.capacity else 2 * Max(e.capacity, 1)
  }

  /** The part of a reservation that an allocation leaves unused. */
  function Unused(capacity: nat): (unused: nat)
    ensures unused <= MAX_FRAME + 1
  {
    if capacity <= MAX_FRAME + 1 then MAX_FRAME + 1 - capacity else 0
  }

  function Settle(s: State, i: nat, sent: bool): State
    requires i < |s.producers|
  {
    s.(available := s.available + Held(s.producers[i]),
       producers := s.producers[i := Finished(sent, TagOf(s.producers[i]))])
  }

  function ProducerStep(s: State, e: Event): State {
    match e
    case Begin(lifetime, tag) => s.(producers := s.producers + [Waiting(lifetime, tag)])
    case Acquire(i) =>
      if i < |s.producers| && s.producers[i].Waiting? && s.available >= MAX_FRAME + 1 then
        s.(available := s.available - (MAX_FRAME + 1),
           producers := s.producers[i :=
             Reserved(s.producers[i].lifetime, s.producers[i].tag, [], Extent(0, 0, 0))])
      else s
    case Serialize(i, part) =>
      // One write of the serializer, which never writes a raw newline.
      if i < |s.producers| && s.producers[i].Reserved? && NEWLINE !in part then
        var p := s.producers[i];
        if !CappedBuffers.Fits(p.extent, |part|) then Settle(s, i, false)
        else s.(producers := s.producers[i := p.(bytes := p.bytes + part, extent := Grow(p.extent, |part|))])
      else s
    case Encode(i) =>
      // The serializer is done; it has written at least once.
      if i < |s.producers| && s.producers[i].Reserved? && s.producers[i].extent.capacity > 0 then
        var p, capacity := s.producers[i], Delimited(s.producers[i].extent);
        var unused := Unused(capacity);
        var frame := Frame(p.bytes + [NEWLINE], capacity, p.lifetime, MAX_FRAME + 1 - unused, p.tag);
        s.(available := s.available + unused, producers := s.producers[i := Encoded(frame)])
      else s
    case Enqueue(i) =>
      if i < |s.producers| && s.producers[i].Encoded? then
        if s.writer.Gone? then Settle(s, i, false) else
        if |s.queue| < QUEUE_SLOTS then
          var frame := s.producers[i].frame;
          s.(queue := s.queue + [frame],
             sent := s.sent + [frame],
             producers := s.producers[i := Finished(true, frame.tag)])
        else s
      else s
    case Abandon(i) =>
      if i < |s.producers| && !s.producers[i].Finished? then Settle(s, i, false) else s
    case _ => s
  }

  /** The permits of the frame in the writer's hand. */
  function InHand(w: Writer): nat {
    if w.Writing? || w.Flushing? then w.frame.permits else 0
  }

  /** The part of an unfinished frame that is on the wire. */
  function Torn(w: Writer): seq<byte> {
    match w
    case Writing(frame, offset) => if offset <= |frame.bytes| then frame.bytes[..offset] else []
    case Halted(torn) => torn
    case Gone(torn) => torn
    case _ => []
  }

  /** Leaving the loop in failure drops the frame in hand. */
  function BreakOff(s: State, reason: Reason): State {
    Failing(s.(available := s.available + InHand(s.writer), writer := Halted(Torn(s.writer))), reason)
  }

  function WriterStep(s: State, e: Event): State {
    match e
    case Receive =>
      if s.writer.Idle? && !s.stop && s.queue != [] then
        s.(writer := Writing(s.queue[0], 0), queue := s.queue[1..])
      else s
    case Write(io) =>
      if s.writer.Writing? && s.writer.offset < |s.writer.frame.bytes| then
        var frame, offset := s.writer.frame, s.writer.offset;
        match PollWrite(|frame.bytes|, offset, Poll(s.stop, Dead(s, frame.lifetime), io))
        case Skip =>
          s.(available := s.available + frame.permits, log := s.log + [Delivery(frame, false)], writer := Idle)
        case Break(reason) => BreakOff(s, reason)
        case Advance(further) =>
          var s' := s.(wire := s.wire + frame.bytes[offset..further]);
          if further < |frame.bytes| then s'.(writer := Writing(frame, further))
          else s'.(log := s.log + [Delivery(frame, true)], writer := Flushing(frame))
      else s
    case Flush(ok) =>
      if s.writer.Flushing? then
        if s.stop then BreakOff(s, ConnectionClosed)
        else if !ok then BreakOff(s, FlushFailed)
        else s.(available := s.available + InHand(s.writer), writer := Idle)
      else s
    case TimeOut =>
      if s.writer.Writing? || s.writer.Flushing? then BreakOff(s, WriteTimedOut) else s
    case Leave =>
      if s.writer.Idle? && (s.stop || s.queue == []) then s.(writer := Halted([])) else s
    case DropReceiver =>
      if s.writer.Halted? then
        s.(available := s.available + Permits(s.queue), queue := [], writer := Gone(s.writer.torn))
      else s
    case _ => s
  }

  predicate ByProducer(e: Event) {
    e.Begin? || e.Acquire? || e.Serialize? || e.Encode? || e.Enqueue? || e.Abandon?
  }

  function Step(s: State, e: Event): State {
    match e
    case CancelLifetime(token) => s.(cancelled := s.cancelled + {token})
    case Fail(code) => Failing(s, Elsewhere(code))
    case Stop => if s.failure.Some? then s.(stop := true) else s
    case Begin(_, _) => ProducerStep(s, e)
    case Acquire(_) => ProducerStep(s, e)
    case Serialize(_, _) => ProducerStep(s, e)
    case Encode(_) => ProducerStep(s, e)
    case Enqueue(_) => ProducerStep(s, e)
    case Abandon(_) => ProducerStep(s, e)
    case _ => WriterStep(s, e)
  }

  function RunFrom(s: State, es: seq<Event>): State {
    if es == [] then s else Step(RunFrom(s, es[..|es| - 1]), es[|es| - 1])
  }

  function Run(es: seq<Event>): State {
    RunFrom(INITIAL, es)
  }

  // ---------------------------------------------------------------- the byte budget

  function Permits(frames: seq<Frame>): nat {
    if frames == [] then 0 else frames[0].permits + Permits(frames[1..])
  }

  function Reservations(producers: seq<Producer>): nat {
    if producers == [] then 0 else Held(producers[0]) + Reservations(producers[1..])
  }

  ghost predicate Balanced(s: State) {
    s.available + Reservations(s.producers) + Permits(s.queue) + InHand(s.writer) == MAX_OUTBOUND_BYTES
  }

  lemma {:induction false} ReservationsUpdate(producers: seq<Producer>, i: nat, p: Producer)
    requires i < |producers|
    ensures Reservations(producers[i := p]) + Held(producers[i]) == Reservations(producers) + Held(p)
  {
    if i == 0 {
      assert producers[0 := p][1..] == producers[1..];
    } else {
      ReservationsUpdate(producers[1..], i - 1, p);
      assert producers[i := p][1..] == producers[1..][i - 1 := p];
    }
  }

  lemma {:induction false} ReservationsAppend(producers: seq<Producer>, p: Producer)
    ensures Reservations(producers + [p]) == Reservations(producers) + Held(p)
  {
    if producers != [] {
      assert (producers + [p])[1..] == producers[1..] + [p];
      ReservationsAppend(producers[1..], p);
    } else {
      assert producers + [p] == [p];
    }
  }

  lemma {:induction false} PermitsAppend(frames: seq<Frame>, f: Frame)
    ensures Permits(frames + [f]) == Permits(frames) + f.permits
  {
    if frames != [] {
      assert (frames + [f])[1..] == frames[1..] + [f];
      PermitsAppend(frames[1..], f);
    } else {
      assert frames + [f] == [f];
    }
  }

  /** Changing one producer moves permits between it and the rest. */
  lemma ProducerBalanced(s: State, i: nat, p: Producer, t: State)
    requires Balanced(s) && i < |s.producers|
    requires t.producers == s.producers[i := p] && t.writer == s.writer
    requires t.available + Permits(t.queue) + Held(p) == s.available + Permits(s.queue) + Held(s.producers[i])
    ensures Balanced(t)
  {
    ReservationsUpdate(s.producers, i, p);
  }

  lemma ProducerStepBalanced(s: State, e: Event)
    requires Balanced(s) && (ByProducer(e))
    ensures Balanced(ProducerStep(s, e))
  {
    hide Balanced;
    var t := ProducerStep(s, e);
    if t != s {
      if e.Begin? {
        BeginBalanced(s, t, Waiting(e.lifetime, e.tag));
      } else {
        if e.Enqueue? {
          PermitsAppend(s.queue, s.producers[e.producer].frame);
        }
        ProducerBalanced(s, e.producer, t.producers[e.producer], t);
      }
    }
  }

  lemma BeginBalanced(s: State, t: State, p: Producer)
    requires Balanced(s) && Held(p) == 0 && t == s.(producers := s.producers + [p])
    ensures Balanced(t)
  {
    ReservationsAppend(s.producers, p);
  }

  lemma StepBalanced(s: State, e: Event)
    requires Balanced(s)
    ensures Balanced(Step(s, e))
  {
    hide ProducerStep;
    if ByProducer(e) {
      ProducerStepBalanced(s, e);
    }
  }

  /** At every step of every run the permits are all somewhere. */
  lemma {:induction false} BudgetConserved(es: seq<Event>)
    ensures Balanced(Run(es))
  {
    if es != [] {
      hide Step, Balanced;
      BudgetConserved(es[..|es| - 1]);
      StepBalanced(Run(es[..|es| - 1]), es[|es| - 1]);
    } else {
      assert Balanced(INITIAL);
    }
  }

  /** With every call of `send` over and no frame left, the whole budget is back. */
  lemma AllPermitsReturn(es: seq<Event>)
    requires
      var s := Run(es);
      && (forall p <- s.producers :: p.Waiting? || p.Finished?)
      && s.queue == []
      && !s.writer.Writing? && !s.writer.Flushing?
    ensures Run(es).available == MAX_OUTBOUND_BYTES
  {
    BudgetConserved(es);
    NothingReserved(Run(es).producers);
  }

  lemma {:induction false} NothingReserved(producers: seq<Producer>)
    requires forall p <- producers :: p.Waiting? || p.Finished?
    ensures Reservations(producers) == 0
  {
    if producers != [] {
      assert producers[0] in producers;
      forall p <- producers[1..]
        ensures p in producers
      {}
      NothingReserved(producers[1..]);
    }
  }

  // ---------------------------------------------------------------- what reaches the agent

  function Frames(log: seq<Delivery>): seq<Frame> {
    seq(|log|, i requires 0 <= i < |log| => log[i].frame)
  }

  /** The bytes of the frames written completely, in order. */
  function Complete(log: seq<Delivery>): seq<byte> {
    if log == [] then [] else
    Complete(log[..|log| - 1]) + if log[|log| - 1].written then log[|log| - 1].frame.bytes else []
  }

  predicate WellFramed(f: Frame) {
    && 0 < |f.bytes| <= f.capacity == f.permits <= MAX_FRAME + 1
    && f.bytes[|f.bytes| - 1] == NEWLINE
    && NEWLINE !in f.bytes[..|f.bytes| - 1]
  }

  /** The buffer being filled stays within the reservation and has room for the delimiter; a frame has
      exactly the permits of its allocation. */
  predicate WellMade(p: Producer) {
    match p
    case Reserved(_, _, bytes, extent) =>
      && NEWLINE !in bytes && |bytes| == extent.length <= MAX_FRAME
      && extent.capacity <= MAX_FRAME + 1
      && (extent.capacity > 0 ==> extent.length + 1 <= extent.capacity)
    case Encoded(frame) => WellFramed(frame)
    case _ => true
  }

  /** The frames not yet taken off the queue are the rest of `sent`, in order. */
  ghost predicate InOrder(s: State) {
    && |s.log| <= |s.sent|
    && Frames(s.log) == s.sent[..|s.log|]
    && match s.writer
       case Idle => s.queue == s.sent[|s.log|..]
       case Flushing(frame) => s.queue == s.sent[|s.log|..]
       case Writing(frame, offset) =>
         |s.log| < |s.sent| && frame == s.sent[|s.log|] && offset < |frame.bytes| && s.queue == s.sent[|s.log| + 1..]
       case Halted(torn) => true
       case Gone(torn) => true
  }

  ghost predicate WireShape(s: State) {
    && s.wire == Complete(s.log) + Torn(s.writer)
    && (Torn(s.writer) != [] ==>
          |s.log| < |s.sent| && Torn(s.writer) < s.sent[|s.log|].bytes)
    && (Torn(s.writer) != [] && !s.writer.Writing? ==> s.failure.Some?)
  }

  ghost predicate Sound(s: State) {
    && (s.stop ==> s.failure.Some?)
    && |s.queue| <= QUEUE_SLOTS
    && (forall p <- s.producers :: WellMade(p))
    && (forall f <- s.sent :: WellFramed(f))
    && (forall f <- s.queue :: WellFramed(f))
    && (s.writer.Writing? || s.writer.Flushing? ==> WellFramed(s.writer.frame))
    && (forall d <- s.log :: !d.written ==> d.frame.lifetime.Some? && d.frame.lifetime.value in s.cancelled)
  }

  ghost predicate Delivering(s: State) {
    Sound(s) && InOrder(s) && WireShape(s)
  }

  lemma LogAppend(log: seq<Delivery>, d: Delivery)
    ensures Frames(log + [d]) == Frames(log) + [d.frame]
    ensures Complete(log + [d]) == Complete(log) + if d.written then d.frame.bytes else []
  {
    assert (log + [d])[..|log|] == log;
  }

  /** Nothing a producer does disturbs what was already queued. */
  lemma ProducerStepDelivers(s: State, e: Event)
    requires Delivering(s) && (ByProducer(e))
    ensures Delivering(ProducerStep(s, e))
  {
    assert forall p <- s.producers :: WellMade(p);
    hide Delivering, Sound, InOrder, WireShape, WellMade;
    var t := ProducerStep(s, e);
    if t != s {
      if t.sent != s.sent {
        QueuingDelivers(s, t, e.producer);
      } else {
        if e.Serialize? || e.Encode? {
          assert s.producers[e.producer] in s.producers;
          SerializingIsWellMade(s, e);
        }
        SettledIsWellMade();
        NewProducersDeliver(s, t);
      }
    }
  }

  lemma SettledIsWellMade()
    ensures forall p: Producer :: p.Waiting? || p.Finished? ==> WellMade(p)
    ensures forall lifetime, tag :: WellMade(Reserved(lifetime, tag, [], Extent(0, 0, 0)))
  {}

  lemma SerializingIsWellMade(s: State, e: Event)
    requires (e.Serialize? || e.Encode?) && e.producer < |s.producers| && WellMade(s.producers[e.producer])
    ensures WellMade(ProducerStep(s, e).producers[e.producer])
  {
    var p := s.producers[e.producer];
    if p.Reserved? {
      assert (p.bytes + [NEWLINE])[..|p.bytes|] == p.bytes;
    }
  }

  lemma NewProducersDeliver(s: State, t: State)
    requires Delivering(s)
    requires t == s.(available := t.available, producers := t.producers)
    requires forall p <- t.producers :: p in s.producers || WellMade(p)
    ensures Delivering(t)
  {}

  lemma QueuingDelivers(s: State, t: State, i: nat)
    requires Delivering(s) && i < |s.producers| && s.producers[i].Encoded? && |s.queue| < QUEUE_SLOTS && !s.writer.Gone?
    requires
      var frame := s.producers[i].frame;
      t == s.(queue := s.queue + [frame],
              sent := s.sent + [frame],
              producers := s.producers[i := Finished(true, frame.tag)])
    ensures Delivering(t)
  {
    assert s.producers[i] in s.producers;
    assert t.sent[..|s.log|] == s.sent[..|s.log|];
  }

  lemma TakingDelivers(s: State)
    requires Delivering(s)
    ensures Delivering(WriterStep(s, Receive))
  {
    if s.writer.Idle? && !s.stop && s.queue != [] {
      assert s.sent[|s.log|] == s.queue[0];
      assert s.sent[|s.log|] in s.sent;
      assert s.sent[|s.log| + 1..] == s.queue[1..];
    }
  }

  lemma LogInOrder(s: State, frame: Frame, written: bool)
    requires InOrder(s) && |s.log| < |s.sent| && frame == s.sent[|s.log|]
    ensures Frames(s.log + [Delivery(frame, written)]) == s.sent[..|s.log| + 1]
  {
    LogAppend(s.log, Delivery(frame, written));
    assert s.sent[..|s.log| + 1] == s.sent[..|s.log|] + [frame];
  }

  /** The last byte of a frame has been written. */
  lemma CompletingDelivers(s: State, t: State)
    requires Delivering(s) && s.writer.Writing?
    requires
      var frame := s.writer.frame;
      t == s.(wire := s.wire + frame.bytes[s.writer.offset..], log := s.log + [Delivery(frame, true)],
              writer := Flushing(frame))
    ensures Delivering(t)
  {
    var frame, offset := s.writer.frame, s.writer.offset;
    LogInOrder(s, frame, true);
    LogAppend(s.log, Delivery(frame, true));
    MoreWritten(s.wire, Complete(s.log), frame.bytes, offset, |frame.bytes|);
    assert frame.bytes[offset..|frame.bytes|] == frame.bytes[offset..] && frame.bytes[..|frame.bytes|] == frame.bytes;
    hide Complete, Frames, WellFramed;
  }

  lemma MoreWritten(wire: seq<byte>, complete: seq<byte>, bytes: seq<byte>, offset: nat, further: nat)
    requires offset <= further <= |bytes| && wire == complete + bytes[..offset]
    ensures wire + bytes[offset..further] == complete + bytes[..further]
  {
    assert bytes[..offset] + bytes[offset..further] == bytes[..further];
    assert wire + bytes[offset..further] == complete + (bytes[..offset] + bytes[offset..further]);
  }

  /** A frame has been skipped before its first byte. */
  lemma SkippingDelivers(s: State, t: State)
    requires Delivering(s) && s.writer.Writing? && s.writer.offset == 0
    requires s.writer.frame.lifetime.Some? && s.writer.frame.lifetime.value in s.cancelled
    requires t == s.(available := t.available, log := s.log + [Delivery(s.writer.frame, false)], writer := Idle)
    ensures Delivering(t)
  {
    LogInOrder(s, s.writer.frame, false);
    LogAppend(s.log, Delivery(s.writer.frame, false));
    hide Complete, Frames;
    assert s.writer.frame.bytes[..0] == [];
  }

  lemma BreakingDelivers(s: State, reason: Reason)
    requires Delivering(s) && (s.writer.Writing? || s.writer.Flushing?)
    ensures Delivering(BreakOff(s, reason))
  {
    if s.writer.Writing? {
      assert |Torn(s.writer)| < |s.writer.frame.bytes|;
    }
  }

  /** Some more bytes of a frame have been written. */
  lemma AdvancingDelivers(s: State, t: State, further: nat)
    requires Delivering(s) && s.writer.Writing? && s.writer.offset < further < |s.writer.frame.bytes|
    requires
      var frame := s.writer.frame;
      t == s.(wire := s.wire + frame.bytes[s.writer.offset..further], writer := Writing(frame, further))
    ensures Delivering(t)
  {
    var bytes, offset := s.writer.frame.bytes, s.writer.offset;
    MoreWritten(s.wire, Complete(s.log), bytes, offset, further);
    hide Complete, Frames, WellFramed;
  }

  lemma WritingDelivers(s: State, io: Io)
    requires Delivering(s) && s.writer.Writing?
    ensures Delivering(WriterStep(s, Write(io)))
  {
    assert s.writer.offset < |s.writer.frame.bytes|;
    hide Delivering;
    var t := WriterStep(s, Write(io));
    var frame, offset := s.writer.frame, s.writer.offset;
    match PollWrite(|frame.bytes|, offset, Poll(s.stop, Dead(s, frame.lifetime), io))
    case Skip =>
      assert s.writer.frame.lifetime.value in s.cancelled || s.stop;
      SkippingDelivers(s, t);
    case Break(reason) => BreakingDelivers(s, reason);
    case Advance(further) =>
      if further == |frame.bytes| {
        CompletingDelivers(s, t);
      } else {
        AdvancingDelivers(s, t, further);
      }
  }

  lemma StepDelivers(s: State, e: Event)
    requires Delivering(s)
    ensures Delivering(Step(s, e))
  {
    if ByProducer(e) {
      ProducerStepDelivers(s, e);
    } else if e.Receive? {
      TakingDelivers(s);
    } else if e.Write? && s.writer.Writing? {
      WritingDelivers(s, e.io);
    } else if (e.Flush? || e.TimeOut?) && (s.writer.Writing? || s.writer.Flushing?) {
      BreakingDelivers(s, if e.TimeOut? then WriteTimedOut else if s.stop then ConnectionClosed else FlushFailed);
    }
  }

  /** In every run the wire carries the complete frames in queue order, minus frames whose lifetime
      was cancelled, and then at most one strict prefix of the next frame; a prefix that is not
      still being written means the connection has failed. */
  lemma {:induction false} WireIsFrames(es: seq<Event>)
    ensures Delivering(Run(es))
  {
    if es != [] {
      WireIsFrames(es[..|es| - 1]);
      StepDelivers(Run(es[..|es| - 1]), es[|es| - 1]);
    }
  }

  // ---------------------------------------------------------------- across a run

  lemma RunFromConcat(s: State, es: seq<Event>, more: seq<Event>)
    ensures RunFrom(s, es + more) == RunFrom(RunFrom(s, es), more)
    decreases |more|
  {
    hide Step;
    if more == [] {
      assert es + more == es;
    } else {
      var init := more[..|more| - 1];
      RunFromConcat(s, es, init);
      assert (es + more)[..|es + more| - 1] == es + init;
    }
  }

  ghost predicate LoopOver(w: Writer) {
    w.Halted? || w.Gone?
  }

  lemma LoopOverStays(s: State, e: Event)
    requires LoopOver(s.writer)
    ensures LoopOver(Step(s, e).writer) && Step(s, e).wire == s.wire && Step(s, e).log == s.log
    ensures Torn(Step(s, e).writer) == Torn(s.writer)
  {}

  /** Once the write loop is over nothing is ever written again, whatever happens next. */
  lemma {:induction false} NothingAfterTheLoop(s: State, more: seq<Event>)
    requires LoopOver(s.writer)
    ensures
      var t := RunFrom(s, more);
      LoopOver(t.writer) && t.wire == s.wire && t.log == s.log && Torn(t.writer) == Torn(s.writer)
    decreases |more|
  {
    if more != [] {
      hide Step;
      NothingAfterTheLoop(s, more[..|more| - 1]);
      LoopOverStays(RunFrom(s, more[..|more| - 1]), more[|more| - 1]);
    }
  }

  /** Frame `k` has not begun: it is skipped, or still to come, or next with no byte written. */
  ghost predicate Unbegun(s: State, k: nat) {
    && k < |s.sent|
    && (k < |s.log| ==> !s.log[k].written)
    && (k == |s.log| ==> Torn(s.writer) == [])
  }

  lemma UnbegunWrites(s: State, e: Event, k: nat)
    requires Delivering(s) && Unbegun(s, k) && Dead(s, s.sent[k].lifetime)
    ensures Unbegun(WriterStep(s, e), k) && WriterStep(s, e).sent == s.sent
  {
    if e.Write? && s.writer.Writing? && k == |s.log| {
      assert s.writer.offset == 0 by {
        assert |Torn(s.writer)| == s.writer.offset;
      }
    }
    hide Complete, Frames, WellFramed;
  }

  lemma DeadStays(s: State, e: Event, lifetime: Option<Token>)
    requires Dead(s, lifetime)
    ensures Dead(Step(s, e), lifetime)
  {
  }

  lemma UnbegunStays(s: State, e: Event, k: nat)
    requires Delivering(s) && Unbegun(s, k) && Dead(s, s.sent[k].lifetime)
    ensures Unbegun(Step(s, e), k)
    ensures Step(s, e).sent[k] == s.sent[k] && Dead(Step(s, e), s.sent[k].lifetime)
  {
    DeadStays(s, e, s.sent[k].lifetime);
    UnbegunWrites(s, e, k);
    hide Delivering, Dead, WriterStep, Torn, Grow;
  }

  lemma {:induction false} StillUnbegun(s: State, more: seq<Event>, k: nat)
    requires Delivering(s) && Unbegun(s, k) && Dead(s, s.sent[k].lifetime)
    ensures
      var t := RunFrom(s, more);
      Delivering(t) && Unbegun(t, k) && t.sent[k] == s.sent[k] && Dead(t, t.sent[k].lifetime)
    decreases |more|
  {
    if more != [] {
      hide Step, Delivering, Dead;
      StillUnbegun(s, more[..|more| - 1], k);
      var t := RunFrom(s, more[..|more| - 1]);
      UnbegunStays(t, more[|more| - 1], k);
      StepDelivers(t, more[|more| - 1]);
    }
  }

  /** A frame whose lifetime is cancelled before its first byte never puts a byte on the wire. */
  lemma CancelledNeverBegins(es: seq<Event>, more: seq<Event>, k: nat)
    requires Unbegun(Run(es), k) && Dead(Run(es), Run(es).sent[k].lifetime)
    ensures Unbegun(Run(es + more), k) && Run(es + more).sent[k] == Run(es).sent[k]
  {
    WireIsFrames(es);
    RunFromConcat(INITIAL, es, more);
    StillUnbegun(Run(es), more, k);
  }

  // ---------------------------------------------------------------- allocation

  /** Everything allocated for output: buffers being filled, and frames until the writer drops them. */
  function Allocated(s: State): nat {
    Buffered(s.producers) + Capacities(s.queue)
    + if s.writer.Writing? || s.writer.Flushing? then s.writer.frame.capacity else 0
  }

  function Capacities(frames: seq<Frame>): nat {
    if frames == [] then 0 else frames[0].capacity + Capacities(frames[1..])
  }

  function CapacityOf(p: Producer): nat {
    if p.Reserved? then p.extent.capacity else if p.Encoded? then p.frame.capacity else 0
  }

  function Buffered(producers: seq<Producer>): nat {
    if producers == [] then 0 else CapacityOf(producers[0]) + Buffered(producers[1..])
  }

  lemma {:induction false} FramesWithinPermits(frames: seq<Frame>)
    requires forall f <- frames :: WellFramed(f)
    ensures Capacities(frames) <= Permits(frames)
  {
    if frames != [] {
      assert frames[0] in frames;
      assert forall f <- frames[1..] :: f in frames;
      FramesWithinPermits(frames[1..]);
    }
  }

  lemma {:induction false} BuffersWithinReservations(producers: seq<Producer>)
    requires forall p <- producers :: WellMade(p)
    ensures Buffered(producers) <= Reservations(producers)
  {
    if producers != [] {
      assert producers[0] in producers;
      assert forall p <- producers[1..] :: p in producers;
      BuffersWithinReservations(producers[1..]);
    }
  }

  /** After every single write of every serializer, what is allocated for output and what is still
      available stay within the budget. */
  lemma AllocationWithinBudget(es: seq<Event>)
    ensures Allocated(Run(es)) + Run(es).available <= MAX_OUTBOUND_BYTES
  {
    BudgetConserved(es);
    WireIsFrames(es);
    FramesWithinPermits(Run(es).queue);
    BuffersWithinReservations(Run(es).producers);
  }

  /** No call of `send` ever allocates more than the permits it holds; a buffer that has been written to
      has room for the delimiter, and a finished one keeps exactly the permits of its allocation. */
  lemma SenderWithinItsPermits(es: seq<Event>, k: nat)
    requires k < |Run(es).producers|
    ensures
      var p := Run(es).producers[k];
      && CapacityOf(p) <= Held(p)
      && (p.Reserved? && p.extent.capacity > 0 ==> |p.bytes| + 1 <= p.extent.capacity)
      && (p.Encoded? ==> CapacityOf(p) == Held(p))
  {
    WireIsFrames(es);
    assert Run(es).producers[k] in Run(es).producers;
    hide Run;
  }

  /** A call of `send` keeps its tag, is over once it is over, and is what adds frames to the queue. */
  lemma ProducersEvolve(s: State, e: Event)
    ensures
      var t := Step(s, e);
      && |s.producers| <= |t.producers|
      && (forall k | 0 <= k < |s.producers| ::
            && TagOf(t.producers[k]) == TagOf(s.producers[k])
            && (s.producers[k].Finished? ==> t.producers[k] == s.producers[k]))
      && (if e.Begin? then t.producers == s.producers + [Waiting(e.lifetime, e.tag)]
          else |t.producers| == |s.producers|)
      && (t.sent != s.sent ==>
            && e.Enqueue? && e.producer < |s.producers|
            && s.producers[e.producer].Encoded?
            && t.producers[e.producer].Finished?
            && t.sent == s.sent + [s.producers[e.producer].frame])
      && (e.Abandon? && e.producer < |s.producers| ==> t.producers[e.producer].Finished?)
  {
    hide Grow, WriterStep;
    WriterLeavesProducers(s, e);
  }

  lemma WriterLeavesProducers(s: State, e: Event)
    ensures WriterStep(s, e).producers == s.producers && WriterStep(s, e).sent == s.sent
  {}
}
