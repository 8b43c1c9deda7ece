/** The order in which a session's turns reach the agent. */
module TurnOrder {
  import opened Prelude
  import opened Turns
  import Out = Outbound

  predicate OfSessionTag(tag: Out.Tag) {
    tag.PromptOf? || tag.CancelOf?
  }

  /** `later` may follow `earlier`: turns never go back, and within one turn only cancellations follow. */
  predicate MayFollow(earlier: Out.Tag, later: Out.Tag) {
    OfSessionTag(earlier) && OfSessionTag(later) ==>
      earlier.turn < later.turn || (earlier.turn == later.turn && later.CancelOf?)
  }

  ghost predicate InOrder(frames: seq<Out.Frame>) {
    forall i, j | 0 <= i < j < |frames| :: MayFollow(frames[i].tag, frames[j].tag)
  }

  ghost predicate Queued(o: Out.State, tag: Out.Tag) {
    exists i :: 0 <= i < |o.sent| && o.sent[i].tag == tag
  }

  ghost predicate InFlight(o: Out.State, k: nat, tag: Out.Tag) {
    k < |o.producers| && !o.producers[k].Finished? && Out.TagOf(o.producers[k]) == tag
  }

  /** Only the holder of the cancellation gate sends for the session, one frame at a time. */
  ghost predicate Flights(s: State) {
    && (forall k: nat, t: nat | InFlight(s.out, k, Out.PromptOf(t)) ::
          && s.cancelGate.holder.Some? && s.cancelGate.holder.value.ByPrompt?
          && s.cancelGate.holder.value.i < |s.prompts|
          && var p := s.prompts[s.cancelGate.holder.value.i];
          && p.stage.Sending? && p.producer == k && p.turn == t)
    && (forall k: nat, t: nat | InFlight(s.out, k, Out.CancelOf(t)) ::
          && s.cancelGate.holder.Some? && s.cancelGate.holder.value.ByCancel?
          && s.cancelGate.holder.value.j < |s.cancels|
          && var c := s.cancels[s.cancelGate.holder.value.j];
          && c.stage.Notifying? && c.producer == k && c.turn == t)
  }

  /** Nothing is queued for a turn before it exists, nor its cancellation before its token is cancelled. */
  ghost predicate Known(s: State) {
    && (forall t: nat | Queued(s.out, Out.PromptOf(t)) :: t <= s.turn)
    && (forall t: nat | Queued(s.out, Out.CancelOf(t)) :: t <= s.turn && t in s.ended)
  }

  /** What a prompt that has yet to be queued finds there of its own turn. */
  ghost predicate Awaited(s: State, p: Prompt) {
    && (Unsent(p.stage) ==> !Queued(s.out, Out.PromptOf(s.turn)))
    && (p.stage.Sending? && InFlight(s.out, p.producer, Out.PromptOf(p.turn)) ==>
          !Queued(s.out, Out.PromptOf(s.turn)) && !Queued(s.out, Out.CancelOf(s.turn)))
  }

  ghost predicate Ordered(s: State) {
    && InOrder(s.out.sent)
    && Flights(s)
    && Known(s)
    && (forall i | 0 <= i < |s.prompts| :: Awaited(s, s.prompts[i]))
  }

  // ---------------------------------------------------------------- the queue's own steps

  lemma QueueGrows(o: Out.State, e: Out.Event, tag: Out.Tag)
    ensures Queued(o, tag) ==> Queued(Out.Step(o, e), tag)
    ensures Queued(Out.Step(o, e), tag) ==>
              Queued(o, tag) || exists k :: InFlight(o, k, tag) && !InFlight(Out.Step(o, e), k, tag)
  {
    Out.ProducersEvolve(o, e);
    hide Out.Step;
    var o' := Out.Step(o, e);
    if Queued(o, tag) {
      var i :| 0 <= i < |o.sent| && o.sent[i].tag == tag;
      assert o'.sent[i].tag == tag;
    }
    if Queued(o', tag) && !Queued(o, tag) {
      var i :| 0 <= i < |o'.sent| && o'.sent[i].tag == tag;
      assert i == |o.sent| && InFlight(o, e.producer, tag);
    }
  }

  /** What a step of the queue can do to frames in flight. */
  lemma FlightsEvolve(o: Out.State, e: Out.Event, k: nat, tag: Out.Tag)
    ensures InFlight(Out.Step(o, e), k, tag) ==>
              InFlight(o, k, tag) || (e.Begin? && k == |o.producers| && tag == e.tag)
    ensures e.Abandon? && k == e.producer ==> !InFlight(Out.Step(o, e), k, tag)
  {
    Out.ProducersEvolve(o, e);
    hide Out.Step;
  }

  lemma OneMoreInOrder(frames: seq<Out.Frame>, f: Out.Frame)
    requires InOrder(frames)
    requires forall g <- frames :: MayFollow(g.tag, f.tag)
    ensures InOrder(frames + [f])
  {}

  /** Queuing the frame in flight keeps the turns in order. */
  lemma QueueKeepsOrder(s: State, e: Out.Event)
    requires Turning(s) && Ordered(s)
    ensures InOrder(Out.Step(s.out, e).sent)
  {
    Out.ProducersEvolve(s.out, e);
    hide Out.Step;
    var o := Out.Step(s.out, e);
    if o.sent != s.out.sent {
      var f, k := s.out.producers[e.producer].frame, e.producer;
      assert InFlight(s.out, k, f.tag);
      forall g <- s.out.sent
        ensures MayFollow(g.tag, f.tag)
      {
        assert Queued(s.out, g.tag);
        QueuedInTime(s, g.tag, f.tag, k);
      }
      OneMoreInOrder(s.out.sent, f);
    }
  }

  lemma QueuedInTime(s: State, earlier: Out.Tag, later: Out.Tag, k: nat)
    requires Turning(s) && Ordered(s) && Queued(s.out, earlier) && InFlight(s.out, k, later)
    ensures MayFollow(earlier, later)
  {
    if later.PromptOf? {
      var p := s.prompts[s.cancelGate.holder.value.i];
      assert Awaited(s, p) && InTurn(s, p);
    } else if later.CancelOf? {
      var c := s.cancels[s.cancelGate.holder.value.j];
      assert InCancel(s, c);
    }
  }

  /** A step of the queue alone, or with the prompt or cancellation that caused it left as it was. */
  lemma OutKeepsOrdered(s: State, e: Out.Event)
    requires Turning(s) && Ordered(s) && (e.Begin? ==> e.tag == Out.Plain)
    ensures Ordered(s.(out := Out.Step(s.out, e)))
  {
    var t := s.(out := Out.Step(s.out, e));
    QueueKeepsOrder(s, e);
    forall k: nat, tag | InFlight(t.out, k, tag) && tag != Out.Plain
      ensures InFlight(s.out, k, tag)
    {
      FlightsEvolve(s.out, e, k, tag);
    }
    hide Out.Step, InFlight, Turning;
    assert Flights(t);
    KnownAfter(s, e);
    hide Queued, Flights, Known;
    forall i | 0 <= i < |t.prompts|
      ensures Awaited(t, t.prompts[i])
    {
      AwaitedAfter(s, e, i);
    }
  }

  lemma KnownAfter(s: State, e: Out.Event)
    requires Turning(s) && Ordered(s)
    ensures Known(s.(out := Out.Step(s.out, e)))
  {
    hide Out.Step, InFlight, Queued;
    var o := Out.Step(s.out, e);
    forall turn: nat | Queued(o, Out.PromptOf(turn))
      ensures turn <= s.turn
    {
      QueueGrows(s.out, e, Out.PromptOf(turn));
      if k :| InFlight(s.out, k, Out.PromptOf(turn)) {
        assert InTurn(s, s.prompts[s.cancelGate.holder.value.i]);
      }
    }
    forall turn: nat | Queued(o, Out.CancelOf(turn))
      ensures turn <= s.turn && turn in s.ended
    {
      QueueGrows(s.out, e, Out.CancelOf(turn));
      if k :| InFlight(s.out, k, Out.CancelOf(turn)) {
        assert InCancel(s, s.cancels[s.cancelGate.holder.value.j]);
      }
    }
  }

  lemma AwaitedAfter(s: State, e: Out.Event, i: nat)
    requires Turning(s) && Ordered(s) && i < |s.prompts| && (e.Begin? ==> e.tag == Out.Plain)
    ensures Awaited(s.(out := Out.Step(s.out, e)), s.prompts[i])
  {
    var p, t := s.prompts[i], s.(out := Out.Step(s.out, e));
    assert Awaited(s, p) && InTurn(s, p);
    QueueGrows(s.out, e, Out.PromptOf(s.turn));
    QueueGrows(s.out, e, Out.CancelOf(s.turn));
    FlightsEvolve(s.out, e, p.producer, Out.PromptOf(p.turn));
    hide Out.Step, InFlight, Queued;
    UnsentInTurn(p.stage);
    if p.stage.Sending? && InFlight(t.out, p.producer, Out.PromptOf(p.turn)) {
      // The gate is held by this prompt, so its own frame is the only one in flight.
      assert s.cancelGate.holder == Some(ByPrompt(i));
    }
  }

  lemma UnsentInTurn(g: Stage)
    ensures Unsent(g) ==> HasTurn(g) && HasPromptGate(g) && !g.Sending?
    ensures g.Sending? ==> HasCancelGate(g) && HasTurn(g) && HasPromptGate(g)
  {}

  // ---------------------------------------------------------------- the tasks' steps

  /** How a prompt's step relates to its frame: it starts sending only with a live token, and stops
      only when its call of `send` is over. */
  ghost predicate SendEffect(s: State, i: nat, m: Move)
    requires i < |s.prompts|
  {
    var p, q := s.prompts[i], m.prompt;
    && (Unsent(q.stage) ==> Unsent(p.stage) || (p.stage.Checked? && m.turn == s.turn + 1))
    && (p.stage.Sending? && q.stage.Sending? ==> q == p)
    && (q.stage.Sending? && !p.stage.Sending? ==>
          && p.stage.Locked? && !Dead(s, p.token) && q.producer == |s.out.producers| && q.turn == p.turn
          && exists lifetime :: m.out == Out.Step(s.out, Out.Begin(lifetime, Out.PromptOf(q.turn))))
    && (p.stage.Sending? && !q.stage.Sending? ==>
          || m.out == Out.Step(s.out, Out.Abandon(p.producer))
          || (m.out == s.out && p.producer < |s.out.producers| && s.out.producers[p.producer].Finished?))
    && (p.stage.Sending? == q.stage.Sending? ==> m.out == s.out || m.out == Out.Step(s.out, Out.Fail(0)))
  }

  lemma PromptSendEffect(s: State, i: nat, ok: bool, lifetime: Option<Out.Token>)
    requires i < |s.prompts|
    ensures SendEffect(s, i, StepPrompt(s, i, ok, lifetime))
  {
    hide Out.Step;
  }

  lemma DropSendEffect(s: State, i: nat)
    requires i < |s.prompts|
    ensures SendEffect(s, i, DropPrompt(s, i))
  {
    hide Out.Step;
  }

  /** A prompt's own step, once its effect on the output queue has been taken into account. */
  lemma PromptMoves(s: State, i: nat, m: Move)
    requires i < |s.prompts| && Turning(s) && Ordered(s) && PromptEffect(s, i, m)
    requires m.out == s.out && s.turn <= m.turn && s.ended <= m.ended
    requires var p, q := s.prompts[i], m.prompt;
             && (Unsent(q.stage) ==> Unsent(p.stage) || m.turn == s.turn + 1)
             && (q.stage.Sending? ==> p.stage.Sending? && q == p)
             && (p.stage.Sending? && !q.stage.Sending? ==> !InFlight(s.out, p.producer, Out.PromptOf(p.turn)))
    ensures Ordered(Apply(s, i, m))
  {
    var t := Apply(s, i, m);
    UnsentInTurn(s.prompts[i].stage);
    hide InFlight, Queued, HasCancelGate, HasPromptGate, HasTurn, HasToken, Running, InGate, InGateClose;
    assert Flights(t);
    assert Known(t);
    forall k | 0 <= k < |t.prompts|
      ensures Awaited(t, t.prompts[k])
    {
      assert Awaited(s, s.prompts[k]);
      if k != i && (Unsent(s.prompts[k].stage) || s.prompts[k].stage.Sending?) {
        OnlyOneTurn(s, i, m, k);
      }
    }
  }

  lemma OnlyOneTurn(s: State, i: nat, m: Move, k: nat)
    requires i < |s.prompts| && k < |s.prompts| && k != i && Turning(s) && PromptEffect(s, i, m)
    requires Unsent(s.prompts[k].stage) || s.prompts[k].stage.Sending?
    ensures m.turn == s.turn
  {}

  /** Locked with a live token: nothing of this turn is queued, and nothing is in flight. */
  lemma SendingBegins(s: State, i: nat, m: Move, lifetime: Option<Out.Token>)
    requires i < |s.prompts| && Turning(s) && Ordered(s) && PromptEffect(s, i, m) && SendEffect(s, i, m)
    requires m.prompt.stage.Sending? && s.prompts[i].stage.Locked?
    requires m.out == Out.Step(s.out, Out.Begin(lifetime, Out.PromptOf(m.prompt.turn)))
    ensures Ordered(Apply(s, i, m))
  {
    var p, q, t := s.prompts[i], m.prompt, Apply(s, i, m);
    LockedHasBoth();
    assert Awaited(s, p) && InTurn(s, p);
    BeginEvolves(s.out, lifetime, Out.PromptOf(q.turn));
    hide Out.Step, InFlight, Queued, HasCancelGate, HasPromptGate, HasTurn, HasToken, Running, InGate, InGateClose;
    assert Known(t);
    assert Flights(t);
    forall k | 0 <= k < |t.prompts|
      ensures Awaited(t, t.prompts[k])
    {
      UnsentInTurn(s.prompts[k].stage);
      assert Awaited(s, s.prompts[k]);
    }
  }

  lemma LockedHasBoth()
    ensures HasCancelGate(Locked) && HasPromptGate(Locked) && HasTurn(Locked) && HasToken(Locked) && Unsent(Locked)
  {}

  /** A new call of `send` queues nothing and is the only one that is new in flight. */
  lemma BeginEvolves(o: Out.State, lifetime: Option<Out.Token>, tag: Out.Tag)
    ensures
      var o' := Out.Step(o, Out.Begin(lifetime, tag));
      && o'.sent == o.sent
      && (forall x :: Queued(o', x) <==> Queued(o, x))
      && (forall k: nat, x :: InFlight(o', k, x) <==> InFlight(o, k, x) || (k == |o.producers| && x == tag))
  {
    Out.ProducersEvolve(o, Out.Begin(lifetime, tag));
    assert Out.Step(o, Out.Begin(lifetime, tag)).producers == o.producers + [Out.Waiting(lifetime, tag)];
    assert Out.Step(o, Out.Begin(lifetime, tag)).sent == o.sent;
  }

  lemma OutLeavesTurning(s: State, o: Out.State)
    requires Turning(s)
    ensures Turning(s.(out := o))
  {
    GatesFrame(s, s.(out := o));
    FrameKeepsTurning(s, s.(out := o));
  }

  lemma PromptEffectIgnoresOut(s: State, o: Out.State, i: nat, m: Move)
    requires i < |s.prompts| && PromptEffect(s, i, m)
    ensures PromptEffect(s.(out := o), i, m)
  {}

  lemma PromptKeepsOrdered(s: State, i: nat, m: Move)
    requires i < |s.prompts| && Turning(s) && Ordered(s) && PromptEffect(s, i, m) && SendEffect(s, i, m)
    ensures Ordered(Apply(s, i, m))
  {
    var p, q := s.prompts[i], m.prompt;
    if q.stage.Sending? && !p.stage.Sending? {
      var lifetime :| m.out == Out.Step(s.out, Out.Begin(lifetime, Out.PromptOf(q.turn)));
      SendingBegins(s, i, m, lifetime);
    } else {
      var e := if m.out == s.out then None
               else if m.out == Out.Step(s.out, Out.Abandon(p.producer)) then Some(Out.Abandon(p.producer))
               else Some(Out.Fail(0));
      var s1 := s.(out := m.out);
      EffectGrows(s, i, m);
      FlightOver(s, i, m);
      hide Out.Step, Turning, Ordered, InFlight, PromptEffect;
      if e.Some? {
        OutKeepsOrdered(s, e.value);
      }
      OutLeavesTurning(s, m.out);
      PromptEffectIgnoresOut(s, m.out, i, m);
      PromptMoves(s1, i, m);
    }
  }

  lemma EffectGrows(s: State, i: nat, m: Move)
    requires i < |s.prompts| && PromptEffect(s, i, m)
    ensures s.turn <= m.turn && s.ended <= m.ended
  {}

  lemma FlightOver(s: State, i: nat, m: Move)
    requires i < |s.prompts| && SendEffect(s, i, m)
    ensures s.prompts[i].stage.Sending? && !m.prompt.stage.Sending? ==>
              !InFlight(m.out, s.prompts[i].producer, Out.PromptOf(s.prompts[i].turn))
  {
    var p := s.prompts[i];
    FlightsEvolve(s.out, Out.Abandon(p.producer), p.producer, Out.PromptOf(p.turn));
    hide Out.Step;
  }

  ghost predicate NotifyEffect(s: State, j: nat, m: CancelMove)
    requires j < |s.cancels|
  {
    var c, d := s.cancels[j], m.cancel;
    && (c.stage.Notifying? && d.stage.Notifying? ==> d == c)
    && (d.stage.Notifying? && !c.stage.Notifying? ==>
          && c.stage.Struck? && d.producer == |s.out.producers| && d.turn == c.turn
          && m.out == Out.Step(s.out, Out.Begin(None, Out.CancelOf(d.turn))))
    && (c.stage.Notifying? && !d.stage.Notifying? ==>
          || m.out == Out.Step(s.out, Out.Abandon(c.producer))
          || (m.out == s.out && c.producer < |s.out.producers| && s.out.producers[c.producer].Finished?))
    && (c.stage.Notifying? == d.stage.Notifying? ==> m.out == s.out)
  }

  lemma CancelNotifyEffect(s: State, j: nat)
    requires j < |s.cancels|
    ensures NotifyEffect(s, j, StepCancel(s, j))
    ensures NotifyEffect(s, j, DropCancel(s, j))
  {
    hide Out.Step;
  }

  lemma CancelMoves(s: State, j: nat, m: CancelMove)
    requires j < |s.cancels| && Turning(s) && Ordered(s) && CancelEffect(s, j, m)
    requires m.out == s.out && s.ended <= m.ended
    requires var c, d := s.cancels[j], m.cancel;
             && (d.stage.Notifying? ==> c.stage.Notifying? && d == c)
             && (c.stage.Notifying? && !d.stage.Notifying? ==> !InFlight(s.out, c.producer, Out.CancelOf(c.turn)))
    ensures Ordered(ApplyCancel(s, j, m))
  {
    var t := ApplyCancel(s, j, m);
    NotifyingInGate();
    hide InFlight, Queued, HasCancelGate, HasPromptGate, HasTurn, HasToken, Running, InGate, InGateClose;
    assert Flights(t);
    assert Known(t);
    forall k | 0 <= k < |t.prompts|
      ensures Awaited(t, t.prompts[k])
    {
      assert Awaited(s, s.prompts[k]);
    }
  }

  lemma NotifyingInGate()
    ensures InGate(Notifying) && InGate(Struck) && Striking(Notifying) && Striking(Struck)
  {}

  lemma NotifyingBegins(s: State, j: nat, m: CancelMove)
    requires j < |s.cancels| && Turning(s) && Ordered(s) && CancelEffect(s, j, m) && NotifyEffect(s, j, m)
    requires m.cancel.stage.Notifying? && s.cancels[j].stage.Struck?
    ensures Ordered(ApplyCancel(s, j, m))
  {
    var c, d, t := s.cancels[j], m.cancel, ApplyCancel(s, j, m);
    NotifyingInGate();
    assert InCancel(s, c);
    BeginEvolves(s.out, None, Out.CancelOf(d.turn));
    hide Out.Step, InFlight, Queued, HasCancelGate, HasPromptGate, HasTurn, HasToken, Running, InGate;
    hide InGateClose, Striking;
    assert Known(t);
    assert Flights(t);
    forall k | 0 <= k < |t.prompts|
      ensures Awaited(t, t.prompts[k])
    {
      UnsentInTurn(s.prompts[k].stage);
      assert Awaited(s, s.prompts[k]);
    }
  }

  lemma CancelKeepsOrdered(s: State, j: nat, m: CancelMove)
    requires j < |s.cancels| && Turning(s) && Ordered(s) && CancelEffect(s, j, m) && NotifyEffect(s, j, m)
    ensures Ordered(ApplyCancel(s, j, m))
  {
    var c, d := s.cancels[j], m.cancel;
    if d.stage.Notifying? && !c.stage.Notifying? {
      NotifyingBegins(s, j, m);
    } else {
      var s1 := s.(out := m.out);
      CancelEffectCarries(s, m.out, j, m);
      NotifyOver(s, j, m);
      var abandoned := m.out != s.out;
      hide Out.Step, Turning, Ordered, InFlight, CancelEffect;
      if abandoned {
        OutKeepsOrdered(s, Out.Abandon(c.producer));
      }
      OutLeavesTurning(s, m.out);
      CancelMoves(s1, j, m);
    }
  }

  lemma CancelEffectCarries(s: State, o: Out.State, j: nat, m: CancelMove)
    requires j < |s.cancels| && CancelEffect(s, j, m)
    ensures CancelEffect(s.(out := o), j, m) && s.ended <= m.ended
  {}

  lemma NotifyOver(s: State, j: nat, m: CancelMove)
    requires j < |s.cancels| && NotifyEffect(s, j, m)
    ensures s.cancels[j].stage.Notifying? && !m.cancel.stage.Notifying? ==>
              !InFlight(m.out, s.cancels[j].producer, Out.CancelOf(s.cancels[j].turn))
  {
    var c := s.cancels[j];
    FlightsEvolve(s.out, Out.Abandon(c.producer), c.producer, Out.CancelOf(c.turn));
    hide Out.Step;
  }

  // ---------------------------------------------------------------- every run

  /** Asking, closing, newcomers and outside failures touch nothing that the order depends on. */
  lemma BystandersKeepOrdered(s: State, t: State)
    requires Ordered(s) && t.out == s.out && t.cancelGate == s.cancelGate && t.turn == s.turn && s.ended <= t.ended
    requires s.prompts <= t.prompts && s.cancels <= t.cancels
    requires forall i | |s.prompts| <= i < |t.prompts| :: t.prompts[i].stage.Entering?
    ensures Ordered(t)
  {
    hide InFlight, Queued;
    assert Flights(t);
    forall i | 0 <= i < |t.prompts|
      ensures Awaited(t, t.prompts[i])
    {
      assert i < |s.prompts| ==> Awaited(s, s.prompts[i]);
    }
  }

  lemma BystanderFrames(s: State, e: Event)
    requires !e.PromptStep? && !e.AbortPrompt? && !e.CancelStep? && !e.AbortCancel? && !e.OutStep?
    ensures
      var t := Step(s, e);
      && t.out == s.out && t.cancelGate == s.cancelGate && t.turn == s.turn && s.ended <= t.ended
      && s.prompts <= t.prompts && s.cancels <= t.cancels
      && forall i | |s.prompts| <= i < |t.prompts| :: t.prompts[i].stage.Entering?
  {
    hide Out.Step, StepAsk, StepClose, StepPrompt, DropPrompt, StepCancel, DropCancel;
    if e.AskStep? && e.a < |s.asks| {
      AskFrames(s, e.a, e.ok, e.choice);
    } else if e.CloseStep? && e.k < |s.closes| {
      CloseFrames(s, e.k, e.ok);
    }
  }

  lemma StepKeepsOrdered(s: State, e: Event)
    requires Turning(s) && Ordered(s)
    ensures Ordered(Step(s, e))
  {
    hide Turning, Ordered, PromptEffect, SendEffect, CancelEffect, NotifyEffect;
    hide StepPrompt, DropPrompt, StepCancel, DropCancel, StepClose, StepAsk, Apply, ApplyCancel, Out.Step;
    if e.PromptStep? {
      if e.i < |s.prompts| {
        PromptStepEffect(s, e.i, e.ok, e.lifetime);
        PromptSendEffect(s, e.i, e.ok, e.lifetime);
        PromptKeepsOrdered(s, e.i, StepPrompt(s, e.i, e.ok, e.lifetime));
      }
    } else if e.AbortPrompt? {
      if e.i < |s.prompts| {
        DropEffect(s, e.i);
        DropSendEffect(s, e.i);
        PromptKeepsOrdered(s, e.i, DropPrompt(s, e.i));
      }
    } else if e.CancelStep? {
      if e.j < |s.cancels| {
        CancelStepEffect(s, e.j);
        CancelNotifyEffect(s, e.j);
        CancelKeepsOrdered(s, e.j, StepCancel(s, e.j));
      }
    } else if e.AbortCancel? {
      if e.j < |s.cancels| {
        CancelDropEffect(s, e.j);
        CancelNotifyEffect(s, e.j);
        CancelKeepsOrdered(s, e.j, DropCancel(s, e.j));
      }
    } else if e.OutStep? {
      if !e.event.Begin? || e.event.tag == Out.Plain {
        OutKeepsOrdered(s, e.event);
      }
    } else {
      BystanderFrames(s, e);
      BystandersKeepOrdered(s, Step(s, e));
    }
  }

  lemma InitiallyOrdered()
    ensures Ordered(INITIAL)
  {}

  lemma {:induction false} EveryRunIsOrdered(es: seq<Event>)
    ensures Ordered(Run(es))
  {
    hide Step, Ordered, Turning;
    if es != [] {
      EveryRunIsOrdered(es[..|es| - 1]);
      EveryRunTurns(es[..|es| - 1]);
      StepKeepsOrdered(Run(es[..|es| - 1]), es[|es| - 1]);
    } else {
      InitiallyOrdered();
    }
  }
}
