/** What prompts, cancellations and closes get done when nobody is in their way, and what an abandoned
    prompt leaves behind. */
module TurnFlow {
  import opened Prelude
  import opened Turns
  import TurnLaws
  import Out = Outbound

  lemma RunSnoc(es: seq<Event>, e: Event)
    ensures Run(es + [e]) == Step(Run(es), e)
  {
    hide Step;
    assert (es + [e])[..|es|] == es;
  }

  function Next(i: nat): Event {
    PromptStep(i, true, None)
  }

  /** The cancellation gate is free and nobody waits for it. */
  predicate Free(s: State) {
    s.cancelGate.holder.None? && s.cancelGate.queue == []
  }

  /** A session nobody is using, on a live connection. */
  predicate Idle(s: State) {
    Free(s) && s.promptGate.None? && !s.closed && !s.expired && !s.out.stop
  }

  // ---------------------------------------------------------------- a prompt

  lemma Enters(es: seq<Event>, i: nat) returns (longer: seq<Event>)
    requires Idle(Run(es)) && i == |Run(es).prompts|
    ensures
      var s, t := Run(es), Run(longer);
      && i < |t.prompts| && t.prompts[i] == Prompt(Checked, 0, 0, 0) && t.cancelGate.holder == Some(ByPrompt(i))
      && t.cancelGate.queue == [] && t.promptGate == Some(ByPrompt(i))
      && t.turn == s.turn && t.ended == s.ended && t.out == s.out && !t.closed && !t.expired
  {
    RunSnoc(es, StartPrompt);
    RunSnoc(es + [StartPrompt], Next(i));
    RunSnoc(es + [StartPrompt] + [Next(i)], Next(i));
    RunSnoc(es + [StartPrompt] + [Next(i)] + [Next(i)], Next(i));
    longer := es + [StartPrompt] + [Next(i)] + [Next(i)] + [Next(i)];
    hide Run, Out.Step;
  }

  /** No turn ends before it begins. */
  lemma StepEndsBegun(s: State, e: Event)
    requires forall u <- s.ended :: u <= s.turn
    ensures forall u <- Step(s, e).ended :: u <= Step(s, e).turn
  {
    hide Out.Step, StepPrompt, DropPrompt, StepCancel, DropCancel, StepAsk, StepClose;
    if e.PromptStep? && e.i < |s.prompts| {
      PromptStepEffect(s, e.i, e.ok, e.lifetime);
    } else if e.AbortPrompt? && e.i < |s.prompts| {
      DropEffect(s, e.i);
    } else if e.CancelStep? && e.j < |s.cancels| {
      CancelStepEffect(s, e.j);
    } else if e.AbortCancel? && e.j < |s.cancels| {
      CancelDropEffect(s, e.j);
    } else if e.CloseStep? && e.k < |s.closes| {
      CloseFrames(s, e.k, e.ok);
    } else if e.AskStep? && e.a < |s.asks| {
      AskFrames(s, e.a, e.ok, e.choice);
    }
  }

  lemma {:induction false} OnlyBegunTurnsEnd(es: seq<Event>)
    ensures forall u <- Run(es).ended :: u <= Run(es).turn
  {
    if es != [] {
      hide Step;
      OnlyBegunTurnsEnd(es[..|es| - 1]);
      StepEndsBegun(Run(es[..|es| - 1]), es[|es| - 1]);
    }
  }

  lemma BeginsTurn(es: seq<Event>, i: nat) returns (longer: seq<Event>)
    requires Idle(Run(es)) && i == |Run(es).prompts|
    ensures
      var s, t := Run(es), Run(longer);
      && i < |t.prompts| && t.prompts[i] == Prompt(Selecting, s.turn + 1, s.turn + 1, 0)
      && t.turn == s.turn + 1 && t.active && t.ended == s.ended && t.out == s.out && !t.closed && !t.expired
      && Free(t) && t.promptGate == Some(ByPrompt(i))
  {
    longer := Enters(es, i);
    hide Run, Out.Step;
    RunSnoc(longer, Next(i));
    RunSnoc(longer + [Next(i)], Next(i));
    RunSnoc(longer + [Next(i)] + [Next(i)], Next(i));
    RunSnoc(longer + [Next(i)] + [Next(i)] + [Next(i)], Next(i));
    longer := longer + [Next(i)] + [Next(i)] + [Next(i)] + [Next(i)];
  }

  /** A prompt of an idle session begins the next turn, makes the session active and asks the output queue to
      carry that turn's prompt. */
  lemma APromptGoesOut(es: seq<Event>, lifetime: Option<Out.Token>) returns (longer: seq<Event>)
    requires Idle(Run(es))
    ensures
      var s, t := Run(es), Run(longer);
      && t.turn == s.turn + 1 && t.active && t.ended == s.ended
      && t.out.producers == s.out.producers + [Out.Waiting(lifetime, Out.PromptOf(t.turn))]
      && t.out.failure == s.out.failure
  {
    var i := |Run(es).prompts|;
    OnlyBegunTurnsEnd(es);
    longer := BeginsTurn(es, i);
    hide Run;
    RunSnoc(longer, Next(i));
    RunSnoc(longer + [Next(i)], PromptStep(i, true, lifetime));
    longer := longer + [Next(i)] + [PromptStep(i, true, lifetime)];
  }

  /** One more step of prompt `i`, apart from the cancellation gate. */
  lemma Goes(es: seq<Event>, i: nat)
    requires i < |Run(es).prompts|
    ensures
      var s, t := Run(es), Run(es + [Next(i)]);
      var m := StepPrompt(s, i, true, None);
      && i < |t.prompts| && t.prompts[i] == m.prompt && t.promptGate == m.promptGate && t.active == m.active
      && t.turn == m.turn && t.ended == m.ended && t.out == m.out
  {
    RunSnoc(es, Next(i));
    hide Run, StepPrompt, Out.Step;
  }

  /** A prompt waits for its answer once its frame is queued, and gives up if it could not be. */
  lemma ASentPromptWaits(es: seq<Event>, i: nat)
    requires i < |Run(es).prompts| && Run(es).prompts[i].stage.Sending?
    requires
      var k := Run(es).prompts[i].producer;
      k < |Run(es).out.producers| && Run(es).out.producers[k].Finished?
    ensures
      var s, t := Run(es), Run(es + [Next(i)]);
      && i < |t.prompts| && t.turn == s.turn && t.active == s.active
      && (t.prompts[i].stage.Awaiting? <==> s.out.producers[s.prompts[i].producer].sent)
      && (t.prompts[i].stage.Ending? <==> !s.out.producers[s.prompts[i].producer].sent)
  {
    hide Run, Out.Step;
    Goes(es, i);
  }

  /** A prompt whose turn is over leaves. */
  lemma Leaves(es: seq<Event>, i: nat) returns (longer: seq<Event>)
    requires i < |Run(es).prompts| && Run(es).prompts[i].stage.Deactivating?
    ensures
      var s, t := Run(es), Run(longer);
      !t.active && t.ended == s.ended && t.turn == s.turn && t.promptGate.None? && t.out == s.out
  {
    hide Run, Out.Step;
    Goes(es, i);
    Goes(es + [Next(i)], i);
    Goes(es + [Next(i)] + [Next(i)], i);
    longer := es + [Next(i)] + [Next(i)] + [Next(i)];
  }

  /** A prompt that is answered ends its turn, leaves the session idle and gives the prompt gate back. */
  lemma AnAnsweredPromptEnds(es: seq<Event>, i: nat) returns (longer: seq<Event>)
    requires i < |Run(es).prompts| && Run(es).prompts[i].stage.Awaiting?
    ensures
      var s, t := Run(es), Run(longer);
      && !t.active && t.ended == s.ended + {s.turn} && t.turn == s.turn && t.promptGate.None? && t.out == s.out
  {
    hide Run, Out.Step;
    Goes(es, i);
    Goes(es + [Next(i)], i);
    longer := Leaves(es + [Next(i)] + [Next(i)], i);
  }

  /** The caller may drop a prompt here. */
  predicate Droppable(g: Stage) {
    g.Emitting? || g.Selecting? || g.Lining? || g.Sending? || g.Awaiting?
  }

  lemma AFailureIsKept(o: Out.State, e: Out.Event)
    ensures o.failure.Some? || e == Out.Event.Fail(0) ==> Out.Step(o, e).failure.Some?
  {}

  lemma Drops(es: seq<Event>, i: nat)
    requires i < |Run(es).prompts| && Droppable(Run(es).prompts[i].stage)
    ensures
      var s, t := Run(es), Run(es + [AbortPrompt(i)]);
      && i < |t.prompts| && t.prompts[i].stage.Aborting? && t.turn == s.turn && t.ended == s.ended
  {
    RunSnoc(es, AbortPrompt(i));
    hide Run, Out.Step;
  }

  /** A prompt whose caller goes away ends its turn, leaves the session idle, and fails the connection, since
      nobody would know what the agent still does. */
  lemma AnAbandonedPromptFails(es: seq<Event>, i: nat) returns (longer: seq<Event>)
    requires i < |Run(es).prompts| && Droppable(Run(es).prompts[i].stage)
    ensures
      var s, t := Run(es), Run(longer);
      && !t.active && t.ended == s.ended + {s.turn} && t.turn == s.turn && t.promptGate.None?
      && t.out.failure.Some?
  {
    hide Run, Out.Step;
    Drops(es, i);
    var dropped := es + [AbortPrompt(i)];
    Goes(dropped, i);
    AFailureIsKept(Run(dropped + [Next(i)]).out, Out.Event.Fail(0));
    Goes(dropped + [Next(i)], i);
    Goes(dropped + [Next(i)] + [Next(i)], i);
    longer := dropped + [Next(i)] + [Next(i)] + [Next(i)];
  }

  /** A prompt that holds both gates is refused on a closed session or a stopped connection, and gives them back. */
  lemma ARefusedPromptLeaves(es: seq<Event>, i: nat, ok: bool)
    requires i < |Run(es).prompts| && Run(es).prompts[i].stage.HoldsBoth?
    requires Run(es).closed || Run(es).out.stop || !ok
    ensures
      var s, t := Run(es), Run(es + [PromptStep(i, ok, None)]);
      && i < |t.prompts| && t.prompts[i].stage.Over? && t.promptGate.None? && t.turn == s.turn && t.out == s.out
      && t.active == s.active && t.ended == s.ended
  {
    RunSnoc(es, PromptStep(i, ok, None));
    hide Run, Out.Step;
  }

  /** A prompt whose token is dead before its frame is handed over goes to its end and sends nothing; neither does
      one whose request is refused. */
  lemma ACancelledPromptIsNotSent(es: seq<Event>, i: nat, ok: bool)
    requires i < |Run(es).prompts|
    requires
      var s, p := Run(es), Run(es).prompts[i];
      || (p.stage in {Selecting, Lining, Locked} && Dead(s, p.token))
      || (p.stage.Locked? && !ok)
    ensures
      var s, t := Run(es), Run(es + [PromptStep(i, ok, None)]);
      && i < |t.prompts| && t.prompts[i].stage.Ending? && t.turn == s.turn && t.out == s.out
      && t.ended == s.ended && t.promptGate == s.promptGate
  {
    RunSnoc(es, PromptStep(i, ok, None));
    hide Run, Out.Step, Dead;
  }

  /** A live prompt that has waited for the gate is sent once the gate is handed to it. */
  lemma AWaitingPromptGoesOut(es: seq<Event>, i: nat, lifetime: Option<Out.Token>)
    requires i < |Run(es).prompts| && Run(es).prompts[i].stage.Lining?
    requires !Dead(Run(es), Run(es).prompts[i].token) && Run(es).cancelGate.holder == Some(ByPrompt(i))
    ensures
      var s, t := Run(es), Run(es + [Next(i)] + [PromptStep(i, true, lifetime)]);
      && i < |t.prompts| && t.turn == s.turn && t.ended == s.ended && t.active == s.active
      && t.out.producers == s.out.producers + [Out.Waiting(lifetime, Out.PromptOf(s.prompts[i].turn))]
      && t.prompts[i].stage.Sending? && t.prompts[i].producer == |s.out.producers|
  {
    RunSnoc(es, Next(i));
    RunSnoc(es + [Next(i)], PromptStep(i, true, lifetime));
    hide Run;
  }

  /** An answer that cannot be used ends the turn, leaves the session idle, and fails the connection. */
  lemma AnUnusableAnswerFails(es: seq<Event>, i: nat) returns (longer: seq<Event>)
    requires i < |Run(es).prompts| && Run(es).prompts[i].stage.Awaiting?
    ensures
      var s, t := Run(es), Run(longer);
      && !t.active && t.ended == s.ended + {s.turn} && t.turn == s.turn && t.promptGate.None?
      && t.out.failure.Some?
  {
    hide Run, Out.Step;
    var useless := PromptStep(i, false, None);
    Spoils(es, i);
    var spoilt := es + [useless];
    Goes(spoilt, i);
    AFailureIsKept(Run(spoilt + [Next(i)]).out, Out.Event.Fail(0));
    Goes(spoilt + [Next(i)], i);
    Goes(spoilt + [Next(i)] + [Next(i)], i);
    longer := spoilt + [Next(i)] + [Next(i)] + [Next(i)];
  }

  lemma Spoils(es: seq<Event>, i: nat)
    requires i < |Run(es).prompts| && Run(es).prompts[i].stage.Awaiting?
    ensures
      var s, t := Run(es), Run(es + [PromptStep(i, false, None)]);
      && i < |t.prompts| && t.prompts[i].stage.Aborting? && t.turn == s.turn && t.ended == s.ended
  {
    RunSnoc(es, PromptStep(i, false, None));
    hide Run, Out.Step;
  }

  /** The session is idle as soon as a prompt has cancelled its turn, and its guard says so once more. */
  lemma AnEndedPromptIsIdle(es: seq<Event>, i: nat)
    requires i < |Run(es).prompts| && Run(es).prompts[i].stage in {Deactivating, Finishing}
    ensures
      var s, t := Run(es), Run(es + [Next(i)]);
      !t.active && t.turn == s.turn && t.ended == s.ended && t.out == s.out && t.promptGate == s.promptGate
  {
    hide Run, Out.Step;
    Goes(es, i);
  }

  // ---------------------------------------------------------------- cancelling and closing

  /** A cancellation of an active session cancels the turn and asks the output queue to carry the turn's
      cancellation, which no lifetime can stop. */
  lemma ACancelGoesOut(es: seq<Event>) returns (longer: seq<Event>)
    requires Free(Run(es)) && Run(es).active
    ensures
      var s, t := Run(es), Run(longer);
      && t.ended == s.ended + {s.turn} && t.turn == s.turn && t.active
      && t.out.producers == s.out.producers + [Out.Waiting(None, Out.CancelOf(s.turn))]
  {
    hide Run;
    var j := |Run(es).cancels|;
    var e := CancelStep(j);
    RunSnoc(es, StartCancel);
    RunSnoc(es + [StartCancel], e);
    RunSnoc(es + [StartCancel] + [e], e);
    RunSnoc(es + [StartCancel] + [e] + [e], e);
    RunSnoc(es + [StartCancel] + [e] + [e] + [e], e);
    longer := es + [StartCancel] + [e] + [e] + [e] + [e];
    hide Run;
  }

  /** A cancellation of an idle session changes nothing and frees its gate. */
  lemma AnIdleCancelDoesNothing(es: seq<Event>) returns (longer: seq<Event>)
    requires Free(Run(es)) && !Run(es).active
    ensures Run(longer) == Run(es).(cancels := Run(longer).cancels)
  {
    var j := |Run(es).cancels|;
    var e := CancelStep(j);
    RunSnoc(es, StartCancel);
    RunSnoc(es + [StartCancel], e);
    RunSnoc(es + [StartCancel] + [e], e);
    longer := es + [StartCancel] + [e] + [e];
    hide Run, Out.Step;
  }

  /** A cancellation is over once its frame is queued or given up, and then frees its gate. */
  lemma ACancelFreesItsGate(es: seq<Event>, j: nat) returns (longer: seq<Event>)
    requires j < |Run(es).cancels| && Run(es).cancels[j].stage.Notifying?
    requires Run(es).cancelGate.holder == Some(ByCancel(j)) && Run(es).cancelGate.queue == []
    requires
      var k := Run(es).cancels[j].producer;
      k < |Run(es).out.producers| && Run(es).out.producers[k].Finished?
    ensures Free(Run(longer)) && Run(longer).out == Run(es).out
  {
    var e := CancelStep(j);
    RunSnoc(es, e);
    RunSnoc(es + [e], e);
    longer := es + [e] + [e];
    hide Run, Out.Step;
  }

  lemma Closes(es: seq<Event>, k: nat)
    requires k < |Run(es).closes|
    ensures Run(es + [CloseStep(k, true)]) == StepClose(Run(es), k, true)
  {
    RunSnoc(es, CloseStep(k, true));
    hide Run, StepClose;
  }

  /** A close that meets nobody marks the session closed, ends its lifetime and gives the prompt gate back. */
  lemma ACloseGoesThrough(es: seq<Event>) returns (longer: seq<Event>)
    requires Run(es).promptGate.None?
    ensures
      var s, t := Run(es), Run(longer);
      t == s.(closes := t.closes, closed := true, expired := true)
  {
    var k := |Run(es).closes|;
    hide Run;
    RunSnoc(es, StartClose);
    Closes(es + [StartClose], k);
    Closes(es + [StartClose] + [CloseStep(k, true)], k);
    Closes(es + [StartClose] + [CloseStep(k, true)] + [CloseStep(k, true)], k);
    Closes(es + [StartClose] + [CloseStep(k, true)] + [CloseStep(k, true)] + [CloseStep(k, true)], k);
    longer := es + [StartClose] + [CloseStep(k, true)] + [CloseStep(k, true)] + [CloseStep(k, true)]
              + [CloseStep(k, true)];
  }

  /** A close that the agent refuses leaves the session open and gives the prompt gate back. */
  lemma ARefusedCloseLeavesItOpen(es: seq<Event>, k: nat)
    requires k < |Run(es).closes| && Run(es).closes[k].Held?
    ensures
      var s, t := Run(es), Run(es + [CloseStep(k, false)]);
      t == s.(closes := t.closes, promptGate := None)
  {
    RunSnoc(es, CloseStep(k, false));
    hide Run;
  }

  /** A close waits for the prompt gate, and gives up if it waits too long; either way nothing else changes. */
  lemma AnImpatientCloseGivesUp(es: seq<Event>, k: nat, ok: bool)
    requires k < |Run(es).closes| && Run(es).closes[k].Queueing? && Run(es).promptGate.Some?
    ensures
      var s, t := Run(es), Run(es + [CloseStep(k, ok)]);
      t == s.(closes := s.closes[k := if ok then Queueing else Refused])
  {
    RunSnoc(es, CloseStep(k, ok));
    hide Run;
  }

  /** When the connection has failed, every session ends: its lifetime, its turn and its activity. */
  lemma AFailureEndsTheSession(es: seq<Event>)
    requires Run(es).out.failure.Some?
    ensures
      var s, t := Run(es), Run(es + [TurnFails] + [DeactivationByFailure] + [LifetimeFails] + [ClosedByDisconnect]);
      t == s.(ended := s.ended + {s.turn}, active := false, expired := true, closed := true)
  {
    RunSnoc(es, TurnFails);
    RunSnoc(es + [TurnFails], DeactivationByFailure);
    RunSnoc(es + [TurnFails] + [DeactivationByFailure], LifetimeFails);
    RunSnoc(es + [TurnFails] + [DeactivationByFailure] + [LifetimeFails], ClosedByDisconnect);
    hide Run, Out.Step;
  }
}
