/** What a session promises over whole runs: order on the wire, whom a cancellation hits, when a
    turn's token dies, whose consent is honoured, and that closing is final. */
module TurnLaws {
  import opened Prelude
  import opened Turns
  import TurnOrder
  import Out = Outbound

  // ---------------------------------------------------------------- order on the wire

  lemma OutTakesSteps(s: State, e: Event)
    ensures Step(s, e).out == s.out || exists oe :: Step(s, e).out == Out.Step(s.out, oe)
  {
    hide Out.Step, TurnOrder.SendEffect, TurnOrder.NotifyEffect;
    hide StepPrompt, DropPrompt, StepCancel, DropCancel, StepAsk;
    if e.PromptStep? && e.i < |s.prompts| {
      PromptTakesSteps(s, e.i, e.ok, e.lifetime);
    } else if e.AbortPrompt? && e.i < |s.prompts| {
      DropTakesSteps(s, e.i);
    } else if (e.CancelStep? || e.AbortCancel?) && e.j < |s.cancels| {
      CancelTakesSteps(s, e.j);
    } else if e.AskStep? && e.a < |s.asks| {
      AskTakesNone(s, e.a, e.ok, e.choice);
    }
  }

  lemma AskTakesNone(s: State, a: nat, ok: bool, choice: Option<string>)
    requires a < |s.asks|
    ensures StepAsk(s, a, ok, choice) == s.(asks := StepAsk(s, a, ok, choice).asks)
    ensures |StepAsk(s, a, ok, choice).asks| == |s.asks|
  {}

  lemma PromptTakesSteps(s: State, i: nat, ok: bool, lifetime: Option<Out.Token>)
    requires i < |s.prompts|
    ensures
      var out := StepPrompt(s, i, ok, lifetime).out;
      out == s.out || exists oe :: out == Out.Step(s.out, oe)
  {
    TurnOrder.PromptSendEffect(s, i, ok, lifetime);
    hide Out.Step, StepPrompt;
  }

  lemma DropTakesSteps(s: State, i: nat)
    requires i < |s.prompts|
    ensures DropPrompt(s, i).out == s.out || exists oe :: DropPrompt(s, i).out == Out.Step(s.out, oe)
  {
    TurnOrder.DropSendEffect(s, i);
    hide Out.Step, DropPrompt;
  }

  lemma CancelTakesSteps(s: State, j: nat)
    requires j < |s.cancels|
    ensures StepCancel(s, j).out == s.out || exists oe :: StepCancel(s, j).out == Out.Step(s.out, oe)
    ensures DropCancel(s, j).out == s.out || exists oe :: DropCancel(s, j).out == Out.Step(s.out, oe)
  {
    TurnOrder.CancelNotifyEffect(s, j);
    hide Out.Step, StepCancel, DropCancel;
  }

  lemma {:induction false} OutDelivers(es: seq<Event>)
    ensures Out.Delivering(Run(es).out)
  {
    hide Step, Out.Delivering, Out.Step;
    if es != [] {
      var s, e := Run(es[..|es| - 1]), es[|es| - 1];
      OutDelivers(es[..|es| - 1]);
      OutTakesSteps(s, e);
      if oe :| Step(s, e).out == Out.Step(s.out, oe) {
        Out.StepDelivers(s.out, oe);
      }
    } else {
      Out.WireIsFrames([]);
    }
  }

  /** The bytes the agent gets are whole frames and at most one strict prefix; among the session's
      frames turns never go back, and after a turn's prompt only its cancellations follow before the
      next turn's prompt. */
  lemma TurnsReachTheAgentInOrder(es: seq<Event>, i: nat, j: nat)
    requires i < j < |Run(es).out.log|
    ensures
      var o := Run(es).out;
      && o.wire == Out.Complete(o.log) + Out.Torn(o.writer)
      && TurnOrder.MayFollow(o.log[i].frame.tag, o.log[j].frame.tag)
  {
    OutDelivers(es);
    TurnOrder.EveryRunIsOrdered(es);
    hide Run;
    var o := Run(es).out;
    assert Out.Frames(o.log)[i] == o.sent[i] && Out.Frames(o.log)[j] == o.sent[j];
  }

  /** The same order among everything ever queued: a turn's prompt is queued once, before all of its
      cancellations, and these before the next turn's prompt. */
  lemma TurnsAreQueuedInOrder(es: seq<Event>, i: nat, j: nat, t: nat)
    requires i < |Run(es).out.sent| && j < |Run(es).out.sent|
    ensures
      var sent := Run(es).out.sent;
      && (sent[i].tag == sent[j].tag == Out.PromptOf(t) ==> i == j)
      && (sent[i].tag == Out.PromptOf(t) && sent[j].tag == Out.CancelOf(t) ==> i < j)
      && (sent[i].tag == Out.CancelOf(t) && sent[j].tag.PromptOf? && t < sent[j].tag.turn ==> i < j)
  {
    TurnOrder.EveryRunIsOrdered(es);
    hide Run;
    var sent := Run(es).out.sent;
    if j < i {
      assert TurnOrder.MayFollow(sent[j].tag, sent[i].tag);
    } else if i < j {
      assert TurnOrder.MayFollow(sent[i].tag, sent[j].tag);
    }
  }

  // ---------------------------------------------------------------- whom cancellation hits

  /** While a prompt may still clear `active` or cancel the token, the current turn is its own. */
  lemma GuardsActOnTheirOwnTurn(es: seq<Event>, i: nat)
    requires i < |Run(es).prompts| && HasTurn(Run(es).prompts[i].stage)
    ensures Run(es).prompts[i].turn == Run(es).turn
    ensures forall k | 0 <= k < |Run(es).prompts| && HasTurn(Run(es).prompts[k].stage) :: k == i
  {
    EveryRunTurns(es);
    hide Run;
    assert InTurn(Run(es), Run(es).prompts[i]);
    forall k | 0 <= k < |Run(es).prompts| && HasTurn(Run(es).prompts[k].stage)
      ensures k == i
    {
      TurnHasGate();
    }
  }

  /** Some prompt is in turn `u` and has not yet ended it. */
  ghost predicate RunningTurn(s: State, u: nat) {
    exists i :: 0 <= i < |s.prompts| && s.prompts[i].turn == u && Running(s.prompts[i].stage)
  }

  /** However a turn ended, its token has been cancelled. */
  lemma EndedTurnsAreDead(es: seq<Event>, u: nat)
    requires 1 <= u <= Run(es).turn && !RunningTurn(Run(es), u)
    ensures u in Run(es).ended
  {
    EveryRunTurns(es);
    hide Run;
    var s := Run(es);
    forall i: nat | RunningNow(s, i)
      ensures s.prompts[i].turn == s.turn
    {
      TurnHasGate();
      assert InTurn(s, s.prompts[i]);
    }
  }

  // ---------------------------------------------------------------- consent

  lemma RunConcat(es: seq<Event>, more: seq<Event>)
    requires more != []
    ensures Run(es + more) == Step(Run(es + more[..|more| - 1]), more[|more| - 1])
  {
    hide Step;
    ConcatLast(es, more);
  }

  lemma DeathIsFinal(s: State, e: Event, token: Token)
    requires DeadToken(s, token)
    ensures DeadToken(Step(s, e), token)
  {
    hide Out.Step;
    OutTakesSteps(s, e);
    if oe :| Step(s, e).out == Out.Step(s.out, oe) {
      StopIsFinal(s.out, oe);
    }
    EndedGrows(s, e);
  }

  lemma StopIsFinal(o: Out.State, e: Out.Event)
    ensures o.stop ==> Out.Step(o, e).stop
  {}

  lemma EndedGrows(s: State, e: Event)
    ensures s.ended <= Step(s, e).ended && (s.expired ==> Step(s, e).expired)
  {
    hide Out.Step, StepPrompt, DropPrompt, StepCancel, DropCancel, StepAsk, PromptEffect, CancelEffect;
    if e.PromptStep? && e.i < |s.prompts| {
      PromptStepEffect(s, e.i, e.ok, e.lifetime);
      TurnOrder.EffectGrows(s, e.i, StepPrompt(s, e.i, e.ok, e.lifetime));
    } else if e.AbortPrompt? && e.i < |s.prompts| {
      DropEffect(s, e.i);
      TurnOrder.EffectGrows(s, e.i, DropPrompt(s, e.i));
    } else if e.CancelStep? && e.j < |s.cancels| {
      CancelStepEffect(s, e.j);
      TurnOrder.CancelEffectCarries(s, s.out, e.j, StepCancel(s, e.j));
    } else if e.AbortCancel? && e.j < |s.cancels| {
      CancelDropEffect(s, e.j);
      TurnOrder.CancelEffectCarries(s, s.out, e.j, DropCancel(s, e.j));
    } else if e.AskStep? && e.a < |s.asks| {
      AskTakesNone(s, e.a, e.ok, e.choice);
    }
  }

  /** Request `a` has captured `token` and has no answer yet, or never gets one. */
  ghost predicate Held(s: State, a: nat, token: Token) {
    a < |s.asks| && match s.asks[a]
      case Captured(_, t) => t == token
      case Asking(_, t) => t == token
      case Nothing => true
      case _ => false
  }

  lemma HeldStaysHeld(s: State, e: Event, a: nat, token: Token)
    requires Held(s, a, token) && DeadToken(s, token)
    ensures Held(Step(s, e), a, token)
  {
    hide Out.Step, StepPrompt, DropPrompt, StepCancel, DropCancel, StepClose;
    if e.CloseStep? && e.k < |s.closes| {
      CloseKeepsAsks(s, e.k, e.ok);
    }
  }

  lemma CloseKeepsAsks(s: State, k: nat, ok: bool)
    requires k < |s.closes|
    ensures StepClose(s, k, ok).asks == s.asks
  {}

  /** Once the captured token is dead the request is never answered with a choice, whatever the
      handler says and whatever turns begin. */
  lemma {:induction false} DeadTokenRefuses(es: seq<Event>, more: seq<Event>, a: nat, token: Token)
    requires Held(Run(es), a, token) && DeadToken(Run(es), token)
    ensures Held(Run(es + more), a, token) && DeadToken(Run(es + more), token)
    decreases |more|
  {
    hide Step, Held, DeadToken;
    if more == [] {
      assert es + more == es;
    } else {
      DeadTokenRefuses(es, more[..|more| - 1], a, token);
      RunConcat(es, more);
      HeldStaysHeld(Run(es + more[..|more| - 1]), more[|more| - 1], a, token);
      DeathIsFinal(Run(es + more[..|more| - 1]), more[|more| - 1], token);
    }
  }

  /** No approval asked for in a turn is honoured after that turn has ended. */
  lemma EndedTurnRefuses(es: seq<Event>, more: seq<Event>, a: nat, u: nat)
    requires Held(Run(es), a, OfTurn(u)) && 1 <= u <= Run(es).turn && !RunningTurn(Run(es), u)
    ensures a < |Run(es + more).asks| && !Run(es + more).asks[a].Selected?
  {
    EndedTurnsAreDead(es, u);
    DeadTokenRefuses(es, more, a, OfTurn(u));
    hide Run;
  }

  /** A choice that was returned had been offered, and the token captured at entry was live when the
      handler returned it. */
  lemma {:induction false} SelectedWhileLive(es: seq<Event>, a: nat) returns (k: nat)
    requires a < |Run(es).asks| && Run(es).asks[a].Selected?
    ensures k < |es|
    ensures
      var before, outcome := Run(es[..k]), Run(es).asks[a];
      && a < |before.asks|
      && before.asks[a] == Asking(outcome.offered, outcome.token)
      && !DeadToken(before, outcome.token)
      && outcome.choice in outcome.offered
      && es[k].AskStep? && es[k].a == a && es[k].choice == Some(outcome.choice)
  {
    assert es != [];
    hide Step, DeadToken;
    var init, e := es[..|es| - 1], es[|es| - 1];
    if a < |Run(init).asks| && Run(init).asks[a].Selected? {
      SelectedStays(Run(init), e, a);
      k := SelectedWhileLive(init, a);
      assert init[..k] == es[..k];
    } else {
      SelectedNow(Run(init), e, a);
      k := |es| - 1;
    }
  }

  lemma SelectedStays(s: State, e: Event, a: nat)
    requires a < |s.asks| && s.asks[a].Selected?
    ensures a < |Step(s, e).asks| && Step(s, e).asks[a] == s.asks[a]
  {
    hide Out.Step, StepPrompt, DropPrompt, StepCancel, DropCancel, StepClose;
    if e.CloseStep? && e.k < |s.closes| {
      CloseKeepsAsks(s, e.k, e.ok);
    }
  }

  lemma SelectedNow(s: State, e: Event, a: nat)
    requires !(a < |s.asks| && s.asks[a].Selected?) && a < |Step(s, e).asks| && Step(s, e).asks[a].Selected?
    ensures
      var outcome := Step(s, e).asks[a];
      && a < |s.asks| && s.asks[a] == Asking(outcome.offered, outcome.token)
      && !DeadToken(s, outcome.token) && outcome.choice in outcome.offered
      && e.AskStep? && e.a == a && e.choice == Some(outcome.choice)
  {
    hide Out.Step, StepPrompt, DropPrompt, StepCancel, DropCancel, StepClose;
    if e.CloseStep? && e.k < |s.closes| {
      CloseKeepsAsks(s, e.k, e.ok);
    }
  }

  // ---------------------------------------------------------------- closing

  /** A `close` has got as far as marking the session closed. */
  ghost predicate ShutBy(s: State, k: nat) {
    k < |s.closes| && (s.closes[k].Shut? || s.closes[k].Expired? || s.closes[k].Closed?)
  }

  ghost predicate Silent(s: State) {
    s.closed && forall i | 0 <= i < |s.prompts| :: !s.prompts[i].stage.Checked? && !HasTurn(s.prompts[i].stage)
  }

  ghost predicate Closing(s: State) {
    forall k: nat | ShutBy(s, k) :: Silent(s)
  }

  lemma SilentStays(s: State, e: Event)
    requires Silent(s)
    ensures Silent(Step(s, e)) && Step(s, e).turn == s.turn
  {
    hide Out.Step, StepCancel, DropCancel, StepAsk, StepClose, StepPrompt, DropPrompt;
    if e.PromptStep? && e.i < |s.prompts| {
      SilentPrompt(s, e.i, e.ok, e.lifetime);
    } else if e.AbortPrompt? && e.i < |s.prompts| {
      SilentDrop(s, e.i);
    } else if e.AskStep? && e.a < |s.asks| {
      AskTakesNone(s, e.a, e.ok, e.choice);
    } else if e.CloseStep? && e.k < |s.closes| {
      SilentClose(s, e.k, e.ok);
    }
  }

  lemma SilentPrompt(s: State, i: nat, ok: bool, lifetime: Option<Out.Token>)
    requires i < |s.prompts| && s.closed && !s.prompts[i].stage.Checked? && !HasTurn(s.prompts[i].stage)
    ensures
      var m := StepPrompt(s, i, ok, lifetime);
      !m.prompt.stage.Checked? && !HasTurn(m.prompt.stage) && m.turn == s.turn
  {
    hide Out.Step;
  }

  lemma SilentDrop(s: State, i: nat)
    requires i < |s.prompts| && !s.prompts[i].stage.Checked? && !HasTurn(s.prompts[i].stage)
    ensures
      var m := DropPrompt(s, i);
      m.prompt == s.prompts[i] && m.turn == s.turn
  {
    hide Out.Step;
  }

  lemma SilentClose(s: State, k: nat, ok: bool)
    requires k < |s.closes|
    ensures
      var t := StepClose(s, k, ok);
      && t.prompts == s.prompts && t.turn == s.turn && (s.closed ==> t.closed)
      && (ShutBy(t, k) ==> ShutBy(s, k) || (s.closes[k].Held? && t.closed))
      && |t.closes| == |s.closes| && forall k' | 0 <= k' < |s.closes| && k' != k :: t.closes[k'] == s.closes[k']
  {}

  lemma StepKeepsClosing(s: State, e: Event)
    requires Turning(s) && Closing(s)
    ensures Closing(Step(s, e))
  {
    var t := Step(s, e);
    hide Step, Silent;
    if k: nat :| ShutBy(s, k) {
      SilentStays(s, e);
    } else {
      forall k: nat | ShutBy(t, k)
        ensures Silent(t)
      {
        ShutStarts(s, e, k);
      }
    }
  }

  lemma ShutStarts(s: State, e: Event, k: nat)
    requires Turning(s) && ShutBy(Step(s, e), k) && !ShutBy(s, k)
    ensures Silent(Step(s, e))
  {
    hide Out.Step, StepCancel, DropCancel, StepAsk, StepPrompt, DropPrompt, StepClose;
    TurnHasGate();
    CheckedHasGates(Checked);
    if e.AskStep? && e.a < |s.asks| {
      AskTakesNone(s, e.a, e.ok, e.choice);
    }
    if e.CloseStep? && e.k < |s.closes| {
      SilentClose(s, e.k, e.ok);
    }
  }

  lemma {:induction false} EveryRunCloses(es: seq<Event>)
    ensures Closing(Run(es))
  {
    hide Step, Turning, Closing;
    if es != [] {
      EveryRunCloses(es[..|es| - 1]);
      EveryRunTurns(es[..|es| - 1]);
      StepKeepsClosing(Run(es[..|es| - 1]), es[|es| - 1]);
    } else {
      NothingShutYet();
    }
  }

  lemma NothingShutYet()
    ensures Closing(INITIAL)
  {}

  lemma SilentQueuesNothing(s: State, e: Event, t: nat)
    requires Turning(s) && TurnOrder.Ordered(s) && Silent(s)
    requires TurnOrder.Queued(Step(s, e).out, Out.PromptOf(t))
    ensures TurnOrder.Queued(s.out, Out.PromptOf(t))
  {
    OutTakesSteps(s, e);
    hide Step, Out.Step, TurnOrder.Queued, TurnOrder.InFlight;
    if oe :| Step(s, e).out == Out.Step(s.out, oe) {
      TurnOrder.QueueGrows(s.out, oe, Out.PromptOf(t));
      TurnOrder.UnsentInTurn(Sending);
    }
  }

  /** After a `close` has succeeded no turn ever begins and no prompt is ever queued again. */
  lemma {:induction false} ClosedForGood(es: seq<Event>, more: seq<Event>, k: nat, t: nat)
    requires ShutBy(Run(es), k)
    ensures Silent(Run(es + more)) && Run(es + more).turn == Run(es).turn
    ensures TurnOrder.Queued(Run(es + more).out, Out.PromptOf(t)) ==> TurnOrder.Queued(Run(es).out, Out.PromptOf(t))
    decreases |more|
  {
    hide Step, Silent, Turning, TurnOrder.Ordered, TurnOrder.Queued;
    if more == [] {
      assert es + more == es;
      EveryRunCloses(es);
    } else {
      var past := es + more[..|more| - 1];
      ClosedForGood(es, more[..|more| - 1], k, t);
      RunConcat(es, more);
      SilentStays(Run(past), more[|more| - 1]);
      EveryRunTurns(past);
      TurnOrder.EveryRunIsOrdered(past);
      if TurnOrder.Queued(Run(es + more).out, Out.PromptOf(t)) {
        SilentQueuesNothing(Run(past), more[|more| - 1], t);
      }
    }
  }
}
