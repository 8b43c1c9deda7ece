/** What the output queue does, told from the events of a run: how writing a frame ends, what makes the
    connection fail, and whose bytes a frame carries. */
module OutboundLaws {
  import opened Prelude
  import opened CappedBuffers
  import opened Outbound

  lemma RunSnoc(es: seq<Event>, e: Event)
    ensures Run(es + [e]) == Step(Run(es), e)
  {
    hide Step;
    assert (es + [e])[..|es|] == es;
  }

  // ---------------------------------------------------------------- one frame

  /** A turn of the write loop that takes some bytes. */
  predicate Takes(poll: Poll) {
    !poll.stopped && !poll.cancelled && poll.io.Accepted? && poll.io.count > 0
  }

  function Taken(polls: seq<Poll>): nat {
    if polls == [] then 0 else (if polls[0].io.Accepted? then polls[0].io.count else 0) + Taken(polls[1..])
  }

  /** How the loop ends at a turn that takes nothing, with `offset` bytes written. */
  predicate EndsAt(poll: Poll, offset: nat, outcome: Progress) {
    && (poll.stopped ==> outcome == Break(ConnectionClosed))
    && (!poll.stopped && poll.cancelled && offset == 0 ==> outcome == Skip)
    && (!poll.stopped && poll.cancelled && offset > 0 ==> outcome == Break(CancelledMidFrame))
    && (!poll.stopped && !poll.cancelled && poll.io.IoError? ==> outcome == Break(WriteFailed))
    && (!poll.stopped && !poll.cancelled && poll.io == Accepted(0) ==> outcome == Break(WroteNothing))
  }

  /** The first `k` turns take bytes and leave some; then the loop is over. */
  ghost predicate OverAfter(left: nat, polls: seq<Poll>, k: nat) {
    && k <= |polls|
    && (forall j | 0 <= j < k :: Takes(polls[j]) && Taken(polls[..j]) < left)
    && (Taken(polls[..k]) >= left || k == |polls| || !Takes(polls[k]))
  }

  /** However many turns it takes, the loop writes what was accepted, to the end of the frame and no further;
      it is cut short by the first turn that takes nothing, as that turn says, or by the timeout. A frame
      cancelled before its first byte is skipped, and only such a frame. */
  lemma {:induction false} WriteEnds(length: nat, offset: nat, polls: seq<Poll>, k: nat)
    requires offset <= length && OverAfter(length - offset, polls, k)
    ensures
      var (reached, outcome) := WriteFrom(length, offset, polls);
      var taken := Taken(polls[..k]);
      if offset + taken >= length then reached == length && outcome == Advance(length)
      else
        && reached == offset + taken
        && if k == |polls| then outcome == Break(WriteTimedOut) else EndsAt(polls[k], reached, outcome)
    decreases k
  {
    if k > 0 {
      var rest := polls[1..];
      assert polls[..k] == [polls[0]] + rest[..k - 1];
      assert Takes(polls[0]) && Taken(polls[..0]) < length - offset;
      var further := Min(offset + polls[0].io.count, length);
      if further < length {
        forall j | 0 <= j < k - 1
          ensures Takes(rest[j]) && Taken(rest[..j]) < length - further
        {
          assert Takes(polls[j + 1]);
          assert polls[..j + 1] == [polls[0]] + rest[..j];
        }
        WriteEnds(length, further, rest, k - 1);
      }
    }
  }

  /** One turn of the machine's writer, by what it meets. */
  lemma WriteMeans(es: seq<Event>, io: Io)
    requires Run(es).writer.Writing?
    ensures Run(es).writer.offset < |Run(es).writer.frame.bytes|
    ensures
      var s, t := Run(es), Run(es + [Write(io)]);
      var frame, offset := s.writer.frame, s.writer.offset;
      var cancelled := frame.lifetime.Some? && frame.lifetime.value in s.cancelled;
      if s.stop then t.writer == Halted(frame.bytes[..offset]) && t.wire == s.wire && t.failure == s.failure
      else if cancelled && offset == 0 then
        t == s.(available := s.available + frame.permits, log := s.log + [Delivery(frame, false)], writer := Idle)
      else if cancelled || io.IoError? || io.count == 0 then
        && t.writer == Halted(frame.bytes[..offset]) && t.wire == s.wire && t.log == s.log && t.failure.Some?
        && t.available == s.available + frame.permits
      else if offset + io.count < |frame.bytes| then
        t == s.(wire := s.wire + frame.bytes[offset..offset + io.count],
                writer := Writing(frame, offset + io.count))
      else
        t == s.(wire := s.wire + frame.bytes[offset..], log := s.log + [Delivery(frame, true)],
                writer := Flushing(frame))
  {
    WireIsFrames(es);
    RunSnoc(es, Write(io));
    var frame := Run(es).writer.frame;
    assert frame.bytes[Run(es).writer.offset..|frame.bytes|] == frame.bytes[Run(es).writer.offset..];
    hide Run, Complete, Frames, WellFramed, ProducerStep;
  }

  // ---------------------------------------------------------------- why the connection fails

  /** Event `e` fails a connection that has not failed yet, for reason `r`. */
  predicate Fails(s: State, e: Event, r: Reason) {
    var w := s.writer;
    var cancelled := w.Writing? && w.frame.lifetime.Some? && w.frame.lifetime.value in s.cancelled;
    match r
    case ConnectionClosed => false
    case CancelledMidFrame => e.Write? && w.Writing? && cancelled && w.offset > 0
    case WriteFailed => e == Write(IoError) && w.Writing? && !cancelled
    case WroteNothing => e == Write(Accepted(0)) && w.Writing? && !cancelled
    case FlushFailed => e == Flush(false) && w.Flushing?
    case WriteTimedOut => e == TimeOut && (w.Writing? || w.Flushing?)
    case Elsewhere(code) => e == Event.Fail(code)
  }

  lemma FailsNow(s: State, e: Event, r: Reason)
    requires Sound(s) && InOrder(s) && s.failure.None?
    ensures Step(s, e).failure == Some(r) <==> Fails(s, e, r)
  {
    hide Frames, WellFramed, WellMade, Grow;
  }

  lemma FailureStays(s: State, e: Event)
    requires s.failure.Some?
    ensures Step(s, e).failure == s.failure
  {
    hide Grow, Delimited;
  }

  /** Event `i` is the one that fails the connection, for reason `r`. */
  ghost predicate FailsAt(es: seq<Event>, i: nat, r: Reason) {
    i < |es| && Run(es[..i]).failure.None? && Fails(Run(es[..i]), es[i], r)
  }

  lemma FailsSnoc(es: seq<Event>, r: Reason)
    requires es != []
    ensures
      var init := es[..|es| - 1];
      (exists i: nat :: FailsAt(es, i, r))
      <==> (exists i: nat :: FailsAt(init, i, r)) || (Run(init).failure.None? && Fails(Run(init), es[|init|], r))
  {
    hide Run, Fails;
    var init := es[..|es| - 1];
    assert es[..|init|] == init;
    if i: nat :| FailsAt(es, i, r) {
      if i < |init| {
        assert init[..i] == es[..i];
        assert FailsAt(init, i, r);
      }
    }
    if i: nat :| FailsAt(init, i, r) {
      assert init[..i] == es[..i];
      assert FailsAt(es, i, r);
    }
    if Run(init).failure.None? && Fails(Run(init), es[|init|], r) {
      assert FailsAt(es, |init|, r);
    }
  }

  lemma FailsFrom(s: State, e: Event, r: Reason)
    requires Delivering(s)
    ensures
      Step(s, e).failure == Some(r) <==> if s.failure.None? then Fails(s, e, r) else s.failure == Some(r)
  {
    hide Fails, Step;
    if s.failure.None? {
      FailsNow(s, e, r);
    } else {
      FailureStays(s, e);
    }
  }

  lemma NothingFailedYet(r: Reason)
    ensures forall i: nat :: !FailsAt([], i, r)
  {}

  /** A run has failed for a reason exactly when that reason's event is the first failure in it. */
  lemma {:induction false} FailureIff(es: seq<Event>, r: Reason)
    ensures Run(es).failure == Some(r) <==> exists i: nat :: FailsAt(es, i, r)
  {
    hide Step, Fails, FailsAt, Delivering;
    if es == [] {
      NothingFailedYet(r);
    } else {
      var init, e := es[..|es| - 1], es[|es| - 1];
      FailureIff(init, r);
      WireIsFrames(init);
      FailsFrom(Run(init), e, r);
      FailsSnoc(es, r);
    }
  }

  /** A connection that has failed because a request was cancelled has left part of a frame on the wire. */
  lemma {:induction false} CancelledIsTorn(es: seq<Event>)
    ensures Run(es).failure == Some(CancelledMidFrame) ==> Torn(Run(es).writer) != [] && LoopOver(Run(es).writer)
  {
    if es != [] {
      var init, e := es[..|es| - 1], es[|es| - 1];
      CancelledIsTorn(init);
      WireIsFrames(init);
      assert Run(es) == Step(Run(init), e) by { hide Step; }
      hide Run;
      if Run(init).failure.None? {
        FailsNow(Run(init), e, CancelledMidFrame);
        hide Frames, WellFramed, WellMade, Complete, ProducerStep;
      } else {
        FailureStays(Run(init), e);
        hide Step;
        if LoopOver(Run(init).writer) {
          LoopOverStays(Run(init), e);
        }
      }
    }
  }

  // ---------------------------------------------------------------- whose bytes a frame carries

  datatype Given = Given(lifetime: Option<Token>, tag: Tag)

  /** What each call of `send` was given, by the number of the call. */
  function Sends(es: seq<Event>): seq<Given> {
    if es == [] then []
    else
      var last := es[|es| - 1];
      Sends(es[..|es| - 1]) + if last.Begin? then [Given(last.lifetime, last.tag)] else []
  }

  /** What the serializer of call `k` has written while the call was serializing. */
  function Written(es: seq<Event>, k: nat): seq<byte> {
    if es == [] then []
    else
      var init, last := es[..|es| - 1], es[|es| - 1];
      var producers := Run(init).producers;
      Written(init, k)
      + if last.Serialize? && last.producer == k && k < |producers| && producers[k].Reserved? && NEWLINE !in last.part
        then last.part else []
  }

  /** A call holds what it was given and what has been serialized, and nothing else. */
  predicate Carries(p: Producer, given: Given, written: seq<byte>) {
    match p
    case Waiting(lifetime, tag) => lifetime == given.lifetime && tag == given.tag && written == []
    case Reserved(lifetime, tag, bytes, _) => lifetime == given.lifetime && tag == given.tag && bytes == written
    case Encoded(frame) =>
      frame.lifetime == given.lifetime && frame.tag == given.tag && frame.bytes == written + [NEWLINE]
    case Finished(_, tag) => tag == given.tag
  }

  lemma StepCarries(s: State, e: Event, k: nat, given: Given, written: seq<byte>)
    requires k < |s.producers| && Carries(s.producers[k], given, written)
    ensures
      var p := s.producers[k];
      var more := if e.Serialize? && e.producer == k && p.Reserved? && NEWLINE !in e.part then e.part else [];
      k < |Step(s, e).producers| && Carries(Step(s, e).producers[k], given, written + more)
  {
    WriterLeavesProducers(s, e);
    assert written + [] == written;
    hide WriterStep, Grow, Delimited;
  }

  lemma SendsAreProducers(s: State, e: Event)
    ensures
      var t := Step(s, e);
      if e.Begin? then t.producers == s.producers + [Waiting(e.lifetime, e.tag)] else |t.producers| == |s.producers|
  {
    ProducersEvolve(s, e);
    hide Step;
  }

  lemma {:induction false} NothingWrittenBefore(es: seq<Event>, k: nat)
    requires |Run(es).producers| <= k
    ensures Written(es, k) == []
  {
    if es != [] {
      SendsAreProducers(Run(es[..|es| - 1]), es[|es| - 1]);
      hide Step;
      NothingWrittenBefore(es[..|es| - 1], k);
    }
  }

  /** In every run each call holds what it was given and the bytes its own serializer wrote. */
  lemma {:induction false} EveryCallCarriesItsOwn(es: seq<Event>)
    ensures |Run(es).producers| == |Sends(es)|
    ensures forall k | 0 <= k < |Sends(es)| :: Carries(Run(es).producers[k], Sends(es)[k], Written(es, k))
  {
    if es != [] {
      var init, e := es[..|es| - 1], es[|es| - 1];
      EveryCallCarriesItsOwn(init);
      assert Run(es) == Step(Run(init), e) by { hide Step; }
      SendsAreProducers(Run(init), e);
      forall k | 0 <= k < |Sends(es)|
        ensures Carries(Run(es).producers[k], Sends(es)[k], Written(es, k))
      {
        if k < |Sends(init)| {
          StepCarries(Run(init), e, k, Sends(init)[k], Written(init, k));
        } else {
          NothingWrittenBefore(init, k);
        }
        hide Step, Run;
      }
      hide Step, Run;
    }
  }

  /** Every frame that was ever queued is the message of one call of `send`: exactly what its serializer
      wrote and one delimiter, under the lifetime the call was given. */
  lemma {:induction false} QueuedFrameIs(es: seq<Event>, i: nat) returns (k: nat)
    requires i < |Run(es).sent|
    ensures k < |Sends(es)| == |Run(es).producers| && Run(es).producers[k] == Finished(true, Sends(es)[k].tag)
    ensures
      var frame := Run(es).sent[i];
      && frame.bytes == Written(es, k) + [NEWLINE]
      && frame.lifetime == Sends(es)[k].lifetime && frame.tag == Sends(es)[k].tag
  {
    assert es != [];
    var init, e := es[..|es| - 1], es[|es| - 1];
    var s := Run(init);
    assert Run(es) == Step(s, e) by { hide Step; }
    ProducersEvolve(s, e);
    EveryCallCarriesItsOwn(init);
    EveryCallCarriesItsOwn(es);
    if i < |s.sent| {
      k := QueuedFrameIs(init, i);
      hide Run, Step;
    } else {
      k := e.producer;
      EnqueueFinishes(s, k);
      hide Run, Step;
    }
  }

  lemma EnqueueFinishes(s: State, k: nat)
    requires k < |s.producers| && s.producers[k].Encoded? && Step(s, Enqueue(k)).sent != s.sent
    ensures Step(s, Enqueue(k)).producers[k] == Finished(true, s.producers[k].frame.tag)
  {
    assert s.sent + [s.producers[k].frame] != s.sent;
  }

  // ---------------------------------------------------------------- what goes through

  /** A message that fits is queued when a whole reservation is available, the queue has a slot and its
      receiver is there; what it does not need of the reservation is available again. */
  lemma SendGoesThrough(es: seq<Event>, lifetime: Option<Token>, tag: Tag, part: seq<byte>) returns (more: seq<Event>)
    requires NEWLINE !in part && |part| <= 8 * 1024 * 1024
    requires Run(es).available >= 8 * 1024 * 1024 + 1 && |Run(es).queue| < 64 && !Run(es).writer.Gone?
    ensures
      var s, t := Run(es), Run(es + more);
      && |t.queue| == |s.queue| + 1 && t.queue[..|s.queue|] == s.queue
      && var frame := t.queue[|s.queue|];
         && frame.bytes == part + [NEWLINE] && frame.lifetime == lifetime && frame.tag == tag
         && t.available == s.available - frame.permits && t.failure == s.failure && t.wire == s.wire
  {
    var s, k := Run(es), |Run(es).producers|;
    more := [Begin(lifetime, tag), Acquire(k), Serialize(k, part), Encode(k), Enqueue(k)];
    RunSnoc(es, Begin(lifetime, tag));
    RunSnoc(es + [Begin(lifetime, tag)], Acquire(k));
    var begun := es + [Begin(lifetime, tag)] + [Acquire(k)];
    hide Run;
    assert Run(begun) == s.(available := s.available - (MAX_FRAME + 1),
                            producers := s.producers + [Reserved(lifetime, tag, [], Extent(0, 0, 0))]);
    RunSnoc(begun, Serialize(k, part));
    RunSnoc(begun + [Serialize(k, part)], Encode(k));
    RunSnoc(begun + [Serialize(k, part)] + [Encode(k)], Enqueue(k));
    assert es + more == begun + [Serialize(k, part)] + [Encode(k)] + [Enqueue(k)];
    hide WriterStep;
  }

  /** The next frame, if its lifetime is not over, is written and gives its permits back. */
  lemma FrameGoesOut(es: seq<Event>) returns (more: seq<Event>)
    requires Run(es).writer.Idle? && !Run(es).stop && Run(es).queue != []
    requires
      var lifetime := Run(es).queue[0].lifetime;
      lifetime.None? || lifetime.value !in Run(es).cancelled
    ensures
      var s, t := Run(es), Run(es + more);
      t == s.(queue := s.queue[1..], wire := s.wire + s.queue[0].bytes, log := s.log + [Delivery(s.queue[0], true)],
              available := s.available + s.queue[0].permits)
  {
    var frame := Run(es).queue[0];
    WireIsFrames(es);
    assert WellFramed(frame) by { assert frame in Run(es).queue; }
    RunSnoc(es, Receive);
    var taken := es + [Receive];
    WriteMeans(taken, Accepted(|frame.bytes|));
    RunSnoc(taken + [Write(Accepted(|frame.bytes|))], Flush(true));
    more := [Receive, Write(Accepted(|frame.bytes|)), Flush(true)];
    assert es + more == taken + [Write(Accepted(|frame.bytes|))] + [Flush(true)];
    assert frame.bytes[0..] == frame.bytes;
    hide Run, Delivering, WellFramed, ProducerStep;
  }

  // ---------------------------------------------------------------- how the loop ends

  /** A flush ends a frame and gives its permits back, unless it fails or the loop has been told to stop. */
  lemma AFlushEndsTheFrame(es: seq<Event>, ok: bool)
    requires Run(es).writer.Flushing?
    ensures
      var s, t := Run(es), Run(es + [Flush(ok)]);
      var closed, failed := Some(ConnectionClosed), Some(FlushFailed);
      && t.wire == s.wire && t.log == s.log && t.queue == s.queue
      && t.available == s.available + s.writer.frame.permits
      && if s.stop then
           t.writer == Halted([]) && t.failure == if s.failure.Some? then s.failure else closed
         else if !ok then
           t.writer == Halted([]) && t.failure == if s.failure.Some? then s.failure else failed
         else t.writer.Idle? && t.failure == s.failure
  {
    RunSnoc(es, Flush(ok));
    hide Run, ProducerStep;
  }

  /** The loop takes no frame once it has been told to stop, leaves then or when nothing is queued any more, and
      drops what is queued, so that every permit comes back. */
  lemma AStoppedLoopLeaves(es: seq<Event>)
    requires Run(es).writer.Idle?
    ensures
      var s, t := Run(es), Run(es + [Leave] + [DropReceiver]);
      if s.stop || s.queue == [] then
        && t.writer == Gone([]) && t.queue == [] && t.available == s.available + Permits(s.queue)
        && t.wire == s.wire && t.log == s.log
      else t == s
    ensures Run(es).stop ==> Run(es + [Receive]) == Run(es)
  {
    RunSnoc(es, Leave);
    RunSnoc(es + [Leave], DropReceiver);
    RunSnoc(es, Receive);
    hide Run, ProducerStep;
  }

  /** A failure stops the connection. */
  lemma AFailureStops(es: seq<Event>)
    requires Run(es).failure.Some?
    ensures Run(es + [Stop]) == Run(es).(stop := true)
  {
    RunSnoc(es, Stop);
    hide Run, ProducerStep;
  }

  /** A call that finds nobody to receive its frame ends without sending, and its permits come back. */
  lemma NobodyReceives(es: seq<Event>, i: nat)
    requires i < |Run(es).producers| && Run(es).producers[i].Encoded? && Run(es).writer.Gone?
    ensures
      var s, t := Run(es), Run(es + [Enqueue(i)]);
      && t.available == s.available + s.producers[i].frame.permits && t.queue == s.queue && t.sent == s.sent
      && t.producers == s.producers[i := Finished(false, s.producers[i].frame.tag)]
  {
    RunSnoc(es, Enqueue(i));
    hide Run, WriterStep;
  }

  lemma StepCancels(s: State, e: Event, token: Token)
    ensures token in Step(s, e).cancelled <==> token in s.cancelled || e == CancelLifetime(token)
  {
    hide Grow, Delimited;
  }

  /** A lifetime is over exactly when it was cancelled. */
  lemma {:induction false} CancelledIff(es: seq<Event>, token: Token)
    ensures token in Run(es).cancelled <==> CancelLifetime(token) in es
  {
    if es != [] {
      var init, e := es[..|es| - 1], es[|es| - 1];
      assert es == init + [e];
      CancelledIff(init, token);
      assert Run(es) == Step(Run(init), e) by { hide Step; }
      hide Run, Step;
      StepCancels(Run(init), e, token);
    }
  }
}
