/** The incoming half of a connection, told from its events: what is dispatched, who is taken on, what fails the
    connection, and when barriers pass. */
module InboundLaws {
  import opened Prelude
  import opened Inbound

  // ---------------------------------------------------------------- at most 32 callbacks at a time

  /** Only taking a request and a worker's reply or end touch the workers. */
  lemma SameWorkers(s: State, e: Event)
    requires e.Read? || e.StopReading? || e.IssueBarrier? || e.RejectReply? || e.FailElsewhere?
    ensures Step(s, e).workers == s.workers && Step(s, e).finishing == s.finishing
  {
    hide Reply, Dispatch;
    if e.Read? && s.reading {
      DispatchEffect(s, e.message);
      DispatchFinishes(s, e.message);
    } else if e.RejectReply? && s.loop.Rejecting? && s.loop.token < |s.owners| {
      ReplyFrame(s, s.loop.token);
    }
  }

  lemma WorkerSteps(s: State, e: Event)
    requires |s.workers| + s.finishing <= 32 && (e.WorkerReply? || e.TakeItem?)
    ensures |Step(s, e).workers| + Step(s, e).finishing <= 32
  {
    hide Reply;
    if e.WorkerReply? && e.token in s.workers && e.token < |s.owners| {
      ReplyFrame(s, e.token);
      assert |s.workers - {e.token}| == |s.workers| - 1;
    }
  }

  lemma StepKeepsWorkers(s: State, e: Event)
    requires |s.workers| + s.finishing <= 32
    ensures |Step(s, e).workers| + Step(s, e).finishing <= 32
  {
    if e.Read? || e.StopReading? || e.IssueBarrier? || e.RejectReply? || e.FailElsewhere? {
      SameWorkers(s, e);
      hide Step;
    } else if e.WorkerReply? || e.TakeItem? {
      WorkerSteps(s, e);
      hide Step;
    } else {
      assert |Step(s, e).workers| <= |s.workers| && Step(s, e).finishing <= s.finishing;
    }
  }

  lemma DispatchFinishes(s: State, m: Message)
    ensures Dispatch(s, m).finishing == s.finishing
  {}

  lemma ReplyFrame(s: State, token: nat)
    requires token < |s.owners|
    ensures Reply(s, token).workers == s.workers && Reply(s, token).finishing == s.finishing
    ensures Reply(s, token).failed == s.failed && Reply(s, token).loop == s.loop
    ensures Reply(s, token).channel == s.channel && Reply(s, token).barriers == s.barriers
    ensures Reply(s, token).reading == s.reading
  {}

  /** In every run at most 32 callbacks are at work, counting those that have answered and not yet ended. */
  lemma {:induction false} WorkersAreLimited(es: seq<Event>)
    ensures |Run(es).workers| + Run(es).finishing <= 32
  {
    if es != [] {
      hide Step;
      WorkersAreLimited(es[..|es| - 1]);
      StepKeepsWorkers(Run(es[..|es| - 1]), es[|es| - 1]);
    }
  }

  lemma RunSnoc(es: seq<Event>, e: Event)
    ensures Run(es + [e]) == Step(Run(es), e)
  {
    assert (es + [e])[..|es|] == es;
    hide Step;
  }

  /** A request whose turn it is gets a worker while fewer than 32 are at work; otherwise the loop rejects it. */
  lemma ARequestIsTakenOn(es: seq<Event>, token: nat)
    requires Run(es).loop.Ready? && Run(es).channel != [] && Run(es).channel[0] == Call(token)
    ensures
      var s, t := Run(es), Run(es + [TakeItem]);
      && t.channel == s.channel[1..] && t.failed == s.failed && t.finishing == s.finishing
      && t.incoming == s.incoming && t.answered == s.answered
      && if |s.workers| + s.finishing < 32 then t.workers == s.workers + {token} && t.loop == Ready
         else t.workers == s.workers && t.loop == Rejecting(token)
  {
    RunSnoc(es, TakeItem);
    hide Run;
  }

  /** At event `i` request `token` was next and 32 callbacks were at work. */
  ghost predicate Crowded(es: seq<Event>, i: nat, token: nat) {
    && i < |es| && es[i] == TakeItem
    && var s := Run(es[..i]);
       |s.workers| + s.finishing == 32 && s.channel != [] && s.channel[0] == Call(token)
  }

  lemma RejectingStep(s: State, e: Event, token: nat)
    requires Step(s, e).loop == Rejecting(token)
    ensures
      || s.loop == Rejecting(token)
      || (e == TakeItem && |s.workers| + s.finishing >= 32 && s.channel != [] && s.channel[0] == Call(token))
  {
    if e.Read? && s.reading {
      DispatchEffect(s, e.message);
      hide Dispatch;
    }
  }

  /** Nothing is rejected unless 32 callbacks were at work when its turn came. */
  lemma {:induction false} RejectedOnlyInACrowd(es: seq<Event>, token: nat)
    requires Run(es).loop == Rejecting(token)
    ensures exists i: nat :: Crowded(es, i, token)
  {
    var init, e := es[..|es| - 1], es[|es| - 1];
    WorkersAreLimited(init);
    hide Step;
    RejectingStep(Run(init), e, token);
    if Run(init).loop == Rejecting(token) {
      RejectedOnlyInACrowd(init, token);
      var i: nat :| Crowded(init, i, token);
      assert es[..i] == init[..i];
      assert Crowded(es, i, token);
    } else {
      assert es[..|init|] == init;
      assert Crowded(es, |init|, token);
    }
  }

  // ---------------------------------------------------------------- failures

  /** Message `m` cannot be dispatched: too many requests are unanswered, or one has this identifier, or the
      queue is full. */
  predicate Undispatchable(s: State, m: Message) {
    match m
    case Request(id) => |s.incoming| >= 64 || id in s.incoming || |s.channel| >= 256
    case Notification => |s.channel| >= 256
    case Response => false
    case CancelRequest(_) => false
  }

  predicate Fails(s: State, e: Event) {
    match e
    case Read(m) => s.reading && Undispatchable(s, m)
    case UpdateApplied(ok) => s.loop.Applying? && !ok
    case WorkerCrash(token) => s.loop.Ready? && token in s.workers
    case FailElsewhere => true
    case _ => false
  }

  ghost predicate FailsAt(es: seq<Event>, i: nat) {
    i < |es| && Fails(Run(es[..i]), es[i])
  }

  lemma DispatchFails(s: State, m: Message)
    ensures Dispatch(s, m).failed <==> s.failed || Undispatchable(s, m)
    ensures Dispatch(s, m).reading <==> s.reading && !Undispatchable(s, m)
  {}

  lemma StepFails(s: State, e: Event)
    ensures Step(s, e).failed <==> s.failed || Fails(s, e)
  {
    hide Reply, Dispatch, Undispatchable;
    if e.Read? && s.reading {
      DispatchFails(s, e.message);
    } else if e.RejectReply? && s.loop.Rejecting? && s.loop.token < |s.owners| {
      ReplyFrame(s, s.loop.token);
    } else if e.WorkerReply? && e.token in s.workers && e.token < |s.owners| {
      ReplyFrame(s, e.token);
    }
  }

  lemma FailsSnoc(es: seq<Event>)
    requires es != []
    ensures
      var init := es[..|es| - 1];
      (exists i: nat :: FailsAt(es, i)) <==> (exists i: nat :: FailsAt(init, i)) || Fails(Run(init), es[|init|])
  {
    hide Run, Fails;
    var init := es[..|es| - 1];
    assert es[..|init|] == init;
    if i: nat :| FailsAt(es, i) {
      if i < |init| {
        assert init[..i] == es[..i];
        assert FailsAt(init, i);
      }
    }
    if i: nat :| FailsAt(init, i) {
      assert init[..i] == es[..i];
      assert FailsAt(es, i);
    }
    if Fails(Run(init), es[|init|]) {
      assert FailsAt(es, |init|);
    }
  }

  /** The connection has failed exactly when a message could not be dispatched, an update could not be applied,
      a callback crashed under the loop, or it failed elsewhere. */
  lemma {:induction false} FailureIff(es: seq<Event>)
    ensures Run(es).failed <==> exists i: nat :: FailsAt(es, i)
  {
    hide Step, FailsAt, Fails;
    if es != [] {
      FailureIff(es[..|es| - 1]);
      FailsSnoc(es);
      StepFails(Run(es[..|es| - 1]), es[|es| - 1]);
    } else {
      NothingFailed();
    }
  }

  lemma NothingFailed()
    ensures forall i: nat :: !FailsAt([], i)
  {}

  ghost predicate Justified(s: State) {
    (!s.reading ==> s.failed) && (s.loop.Ended? ==> s.failed && s.workers == {})
  }

  lemma StepJustifies(s: State, e: Event)
    requires Justified(s)
    ensures Justified(Step(s, e))
  {
    hide Reply, Dispatch;
    if e.Read? && s.reading {
      DispatchFails(s, e.message);
      DispatchEffect(s, e.message);
    } else if e.RejectReply? && s.loop.Rejecting? && s.loop.token < |s.owners| {
      ReplyFrame(s, s.loop.token);
    } else if e.WorkerReply? && e.token in s.workers && e.token < |s.owners| {
      ReplyFrame(s, e.token);
    }
  }

  /** Neither the reader nor the loop stops while the connection lives, and a loop that has ended leaves no
      callback running. */
  lemma {:induction false} NobodyStopsAlone(es: seq<Event>)
    ensures Justified(Run(es))
  {
    if es != [] {
      hide Step, Justified;
      NobodyStopsAlone(es[..|es| - 1]);
      StepJustifies(Run(es[..|es| - 1]), es[|es| - 1]);
    } else {
      NobodyStoppedYet();
    }
  }

  lemma NobodyStoppedYet()
    ensures Justified(INITIAL)
  {}

  /** The loop of a failed connection ends at the next occasion. */
  lemma AFailureEndsTheLoop(es: seq<Event>)
    requires Run(es).failed && Run(es).loop.Ready?
    ensures Run(es + [LoopStops]).loop.Ended? && Run(es + [LoopStops]).workers == {}
  {
    RunSnoc(es, LoopStops);
    hide Run;
  }

  // ---------------------------------------------------------------- what becomes of a message

  /** A message that can be dispatched goes to the end of the queue with a token or its position, or, when it is
      a response or a cancellation, past it. */
  lemma AMessageIsDispatched(es: seq<Event>, m: Message)
    requires Run(es).reading && !Undispatchable(Run(es), m)
    ensures
      var s, t := Run(es), Run(es + [Read(m)]);
      && t.wire == s.wire + [m] && t.failed == s.failed && t.loop == s.loop && t.workers == s.workers
      && match m
         case Request(id) =>
           t.channel == s.channel + [Call(|s.owners|)] && t.owners == s.owners + [id]
           && t.incoming == s.incoming[id := |s.owners|] && t.cancelled == s.cancelled
         case Notification =>
           t.channel == s.channel + [Note(|s.wire|)] && t.incoming == s.incoming && t.cancelled == s.cancelled
         case Response => t.channel == s.channel && t.incoming == s.incoming && t.cancelled == s.cancelled
         case CancelRequest(_) => t.channel == s.channel && t.incoming == s.incoming
  {
    RunSnoc(es, Read(m));
    hide Run;
  }

  /** While the connection lives the answer of a worker, or of the loop that rejects, is the one answer to its
      request, and frees the identifier. */
  lemma AReplyAnswers(es: seq<Event>, token: nat, e: Event)
    requires !Run(es).failed
    requires (e == WorkerReply(token) && token in Run(es).workers)
             || (e == RejectReply && Run(es).loop == Rejecting(token))
    ensures
      var s, t := Run(es), Run(es + [e]);
      && token < |s.owners| && token !in s.answered
      && t.answered == s.answered + [token] && t.incoming == s.incoming - {s.owners[token]}
      && t.workers == s.workers - {token} && (e.RejectReply? ==> t.loop.Ready?)
  {
    EveryRequestIsOwned(es);
    RunSnoc(es, e);
    hide Run;
    assert Holder(Run(es), token);
    assert Unanswered(Run(es), token);
    assert e.RejectReply? ==> token !in Run(es).workers;
  }

  /** The loop applies the update in its hand and goes on. */
  lemma AnUpdateIsApplied(es: seq<Event>, position: nat)
    requires Run(es).loop.Ready? && Run(es).channel != [] && Run(es).channel[0] == Note(position)
    ensures
      var s, t := Run(es), Run(es + [TakeItem] + [UpdateApplied(true)]);
      && t.applied == s.applied + [position] && t.loop.Ready? && t.channel == s.channel[1..]
      && t.failed == s.failed
  {
    RunSnoc(es, TakeItem);
    RunSnoc(es + [TakeItem], UpdateApplied(true));
    hide Run;
  }

  // ---------------------------------------------------------------- barriers

  /** Each barrier is on the queue once or has passed. */
  ghost predicate OnQueueOrPassed(s: State) {
    && (forall k: nat | k < |s.barriers| :: s.barriers[k].passed <==> Fence(k) !in s.channel)
    && (forall i, j | 0 <= i < j < |s.channel| && s.channel[i].Fence? :: s.channel[i] != s.channel[j])
    && (forall item <- s.channel :: item.Fence? ==> item.number < |s.barriers|)
  }

  lemma QueueOther(s: State, t: State, item: Item)
    requires OnQueueOrPassed(s) && !item.Fence? && t.channel == s.channel + [item] && t.barriers == s.barriers
    ensures OnQueueOrPassed(t)
  {
    forall k: nat
      ensures Fence(k) in t.channel <==> Fence(k) in s.channel
    {}
  }

  lemma SameQueue(s: State, t: State)
    requires OnQueueOrPassed(s) && t.channel == s.channel && t.barriers == s.barriers
    ensures OnQueueOrPassed(t)
  {}

  lemma IssueKeepsQueue(s: State, after: nat)
    requires OnQueueOrPassed(s)
    ensures OnQueueOrPassed(Step(s, IssueBarrier(after)))
  {
    var t := Step(s, IssueBarrier(after));
    if t != s {
      assert Fence(|s.barriers|) !in s.channel;
      assert t.channel[|s.channel|] == Fence(|s.barriers|);
      forall k: nat
        ensures Fence(k) in t.channel <==> Fence(k) in s.channel || k == |s.barriers|
      {}
    }
  }

  /** The first item leaves, and a barrier that leaves has passed. */
  lemma HeadLeaves(s: State, t: State)
    requires OnQueueOrPassed(s) && s.channel != [] && t.channel == s.channel[1..]
    requires t.barriers
             == if s.channel[0].Fence? then
                  s.barriers[s.channel[0].number := s.barriers[s.channel[0].number].(passed := true)]
                else s.barriers
    ensures OnQueueOrPassed(t)
  {
    var head := s.channel[0];
    assert s.channel == [head] + t.channel;
    assert forall i | 0 <= i < |t.channel| :: t.channel[i] == s.channel[i + 1];
    assert forall item <- t.channel :: item in s.channel;
    forall k: nat | k < |t.barriers|
      ensures t.barriers[k].passed <==> Fence(k) !in t.channel
    {
      assert Fence(k) in s.channel <==> Fence(k) in t.channel || head == Fence(k);
      assert head == Fence(k) ==> Fence(k) !in t.channel;
      assert s.barriers[k].passed <==> Fence(k) !in s.channel;
    }
  }

  lemma TakeKeepsQueue(s: State)
    requires OnQueueOrPassed(s) && s.channel != []
    ensures OnQueueOrPassed(Take(s))
  {
    assert s.channel[0] in s.channel;
    assert s.channel[0].Fence? ==> s.channel[0].number < |s.barriers|;
    hide OnQueueOrPassed;
    HeadLeaves(s, Take(s));
  }

  lemma StepKeepsQueue(s: State, e: Event)
    requires OnQueueOrPassed(s)
    ensures OnQueueOrPassed(Step(s, e))
  {
    hide OnQueueOrPassed;
    if e.Read? {
      if s.reading {
        DispatchFrames(s, e.message);
        hide Dispatch;
        if Dispatch(s, e.message).channel == s.channel {
          SameQueue(s, Step(s, e));
        } else {
          QueueOther(s, Step(s, e), Step(s, e).channel[|s.channel|]);
        }
      }
    } else if e.IssueBarrier? {
      IssueKeepsQueue(s, e.after);
    } else if e.TakeItem? {
      if s.loop.Ready? && s.channel != [] {
        TakeKeepsQueue(s);
      }
    } else {
      LoopFrames(s, e);
      hide Step;
      SameQueue(s, Step(s, e));
    }
  }

  /** A barrier has passed exactly when the loop has taken it off the queue. */
  lemma {:induction false} BarriersPassOffTheQueue(es: seq<Event>)
    ensures OnQueueOrPassed(Run(es))
  {
    if es != [] {
      hide Step, OnQueueOrPassed;
      BarriersPassOffTheQueue(es[..|es| - 1]);
      StepKeepsQueue(Run(es[..|es| - 1]), es[|es| - 1]);
    } else {
      QueueIsEmpty();
    }
  }

  lemma QueueIsEmpty()
    ensures OnQueueOrPassed(INITIAL)
  {}

  /** A barrier is taken off as soon as it is first. */
  lemma ABarrierPasses(es: seq<Event>, k: nat)
    requires Run(es).loop.Ready? && Run(es).channel != [] && Run(es).channel[0] == Fence(k)
    ensures
      var t := Run(es + [TakeItem]);
      k < |t.barriers| && t.barriers[k].passed && t.loop.Ready? && t.channel == Run(es).channel[1..]
  {
    BarriersPassOffTheQueue(es);
    RunSnoc(es, TakeItem);
    hide Run;
    assert Run(es).channel[0] in Run(es).channel;
  }

  /** The reader of a failed connection stops, and a callback that has answered makes room for another. */
  lemma ReaderAndWorkersLeave(es: seq<Event>)
    ensures Run(es).failed ==> Run(es + [StopReading]) == Run(es).(reading := false)
    ensures Run(es).finishing > 0 ==> Run(es + [WorkerDone]) == Run(es).(finishing := Run(es).finishing - 1)
  {
    RunSnoc(es, StopReading);
    RunSnoc(es, WorkerDone);
    hide Run;
  }
}
