/** Who waits for the cancellation gate, and what that means for a cancellation that waits: the gate is
    handed on in the order of asking, so no prompt can begin a turn in between. */
module TurnQueue {
  import opened Prelude
  import opened Turns
  import Fair = FairGates
  import Out = Outbound

  /** Exactly those who wait for the gate or have it are at the gate, each once. */
  ghost predicate Lined(s: State) {
    && Fair.Orderly(s.cancelGate)
    && (forall i: nat | i < |s.prompts| ::
          Fair.At(s.cancelGate, ByPrompt(i)) <==> !StandingOf(s.prompts[i].stage).Outside?)
    && (forall j: nat | j < |s.cancels| ::
          Fair.At(s.cancelGate, ByCancel(j)) <==> !CancelStanding(s.cancels[j].stage).Outside?)
    && (forall h | Fair.At(s.cancelGate, h) ::
          (h.ByPrompt? && h.i < |s.prompts|) || (h.ByCancel? && h.j < |s.cancels|))
  }

  /** The turn a cancellation may strike: the one it was called in, or the one that a prompt in the gate
      was about to begin. */
  predicate Meant(c: Cancel, turn: nat) {
    turn == c.called || (c.behind && turn == c.called + 1)
  }

  ghost predicate Timely(s: State, c: Cancel) {
    && (c.stage.Biding? ==> Meant(c, s.turn) && (StartingInGate(s) ==> c.behind && s.turn == c.called))
    && (InGate(c.stage) ==> Meant(c, c.seen))
  }

  ghost predicate AllTimely(s: State) {
    forall j: nat | j < |s.cancels| :: Timely(s, s.cancels[j])
  }

  // ---------------------------------------------------------------- the line

  lemma PromptKeepsLine(s: State, i: nat, m: Move)
    requires i < |s.prompts| && Lined(s) && PromptEffect(s, i, m)
    ensures Lined(Apply(s, i, m))
  {
    var before, after := StandingOf(s.prompts[i].stage), StandingOf(m.prompt.stage);
    forall h: Holder
      ensures
        var g := Fair.Moved(s.cancelGate, ByPrompt(i), before, after);
        && Fair.Orderly(g) && (Fair.At(g, ByPrompt(i)) <==> !after.Outside?)
        && (h != ByPrompt(i) ==> (Fair.At(g, h) <==> Fair.At(s.cancelGate, h)))
    {
      Fair.MoveIsOrderly(s.cancelGate, ByPrompt(i), before, after, h);
    }
    hide Fair.Moved, Fair.At, Fair.Orderly, StandingOf, CancelStanding, PromptEffect;
  }

  lemma CancelKeepsLine(s: State, j: nat, m: CancelMove)
    requires j < |s.cancels| && Lined(s) && CancelEffect(s, j, m)
    ensures Lined(ApplyCancel(s, j, m))
  {
    var before, after := CancelStanding(s.cancels[j].stage), CancelStanding(m.cancel.stage);
    forall h: Holder
      ensures
        var g := Fair.Moved(s.cancelGate, ByCancel(j), before, after);
        && Fair.Orderly(g) && (Fair.At(g, ByCancel(j)) <==> !after.Outside?)
        && (h != ByCancel(j) ==> (Fair.At(g, h) <==> Fair.At(s.cancelGate, h)))
    {
      Fair.MoveIsOrderly(s.cancelGate, ByCancel(j), before, after, h);
    }
    hide Fair.Moved, Fair.At, Fair.Orderly, StandingOf, CancelStanding, CancelEffect;
  }

  // ---------------------------------------------------------------- nobody slips in

  /** Whoever is given the gate by another's leaving was waiting for it, so it is no starting prompt. */
  lemma NewHolderWaited(s: State, me: Holder, before: Fair.Standing, after: Fair.Standing, i: nat)
    requires Lined(s) && Gates(s) && Fair.Allowed(s.cancelGate, me, before, after)
    requires Fair.Moved(s.cancelGate, me, before, after).holder == Some(ByPrompt(i)) && me != ByPrompt(i)
    requires s.cancelGate.holder != Some(ByPrompt(i))
    ensures i < |s.prompts| && s.prompts[i].stage.Lining?
  {
    assert ByPrompt(i) in s.cancelGate.queue;
    assert Fair.At(s.cancelGate, ByPrompt(i));
  }

  lemma StartingHasGate(g: Stage)
    ensures Starting(g) ==> StandingOf(g).Inside? && !HasTurn(g)
    ensures g.Checked? ==> Starting(g)
    ensures g.Lining? || g.Turned? ==> !Starting(g)
  {}

  /** A starting prompt was starting before, or has just taken a gate that was free. */
  predicate StartEffect(s: State, i: nat, m: Move)
    requires i < |s.prompts|
  {
    Starting(m.prompt.stage) ==> Starting(s.prompts[i].stage) || StandingOf(s.prompts[i].stage).Outside?
  }

  lemma PromptStarts(s: State, i: nat, ok: bool, lifetime: Option<Out.Token>)
    requires i < |s.prompts|
    ensures StartEffect(s, i, StepPrompt(s, i, ok, lifetime)) && StartEffect(s, i, DropPrompt(s, i))
  {
    hide Out.Step, Dead;
  }

  /** While a cancellation waits, no prompt starts that was not already starting in the gate. */
  lemma NoNewStarter(s: State, i: nat, m: Move, j: nat)
    requires i < |s.prompts| && j < |s.cancels| && s.cancels[j].stage.Biding?
    requires Lined(s) && Gates(s) && PromptEffect(s, i, m) && StartEffect(s, i, m)
    requires StartingInGate(Apply(s, i, m))
    ensures StartingInGate(s) && m.turn == s.turn
  {
    var t := Apply(s, i, m);
    var k := t.cancelGate.holder.value.i;
    StartingHasGate(s.prompts[i].stage);
    StartingHasGate(m.prompt.stage);
    assert Fair.At(s.cancelGate, ByCancel(j));
    assert s.cancelGate.holder.Some?;
    assert Fair.At(s.cancelGate, ByPrompt(k));
  }

  lemma PromptKeepsTimely(s: State, i: nat, m: Move, j: nat)
    requires i < |s.prompts| && j < |s.cancels| && Lined(s) && Gates(s)
    requires PromptEffect(s, i, m) && StartEffect(s, i, m) && Timely(s, s.cancels[j])
    ensures Timely(Apply(s, i, m), s.cancels[j])
  {
    var c, t := s.cancels[j], Apply(s, i, m);
    if c.stage.Biding? {
      if StartingInGate(t) {
        NoNewStarter(s, i, m, j);
      }
      if m.turn != s.turn {
        StartingHasGate(s.prompts[i].stage);
        assert StartingInGate(s);
      }
    }
  }

  /** How a cancellation's step treats what it remembers of its call. */
  predicate AskEffect(s: State, j: nat, m: CancelMove)
    requires j < |s.cancels|
  {
    var c, d := s.cancels[j], m.cancel;
    if c.stage.Calling? then
      && (d.stage.Calling? ==> d == c)
      && (!d.stage.Calling? && !d.stage.Ended? ==> d.called == s.turn && d.behind == StartingInGate(s))
      && (InGate(d.stage) ==> d.seen == s.turn)
    else
      && !d.stage.Calling? && d.called == c.called && d.behind == c.behind
      && (d.stage.Biding? ==> c.stage.Biding?)
      && (InGate(d.stage) ==> if InGate(c.stage) then d.seen == c.seen else c.stage.Biding? && d.seen == s.turn)
  }

  lemma CancelAsks(s: State, j: nat)
    requires j < |s.cancels|
    ensures AskEffect(s, j, StepCancel(s, j)) && AskEffect(s, j, DropCancel(s, j))
  {
    hide Out.Step, StartingInGate;
  }

  /** A cancellation's step gives the gate to nobody who is starting. */
  lemma CancelStartsNobody(s: State, j: nat, m: CancelMove)
    requires j < |s.cancels| && Lined(s) && Gates(s) && CancelEffect(s, j, m)
    requires StartingInGate(ApplyCancel(s, j, m))
    ensures StartingInGate(s)
  {
    var k := ApplyCancel(s, j, m).cancelGate.holder.value.i;
    if s.cancelGate.holder != Some(ByPrompt(k)) {
      NewHolderWaited(s, ByCancel(j), CancelStanding(s.cancels[j].stage), CancelStanding(m.cancel.stage), k);
    }
  }

  lemma CancelKeepsTimely(s: State, j: nat, m: CancelMove, k: nat)
    requires j < |s.cancels| && k < |s.cancels| && Lined(s) && Gates(s)
    requires CancelEffect(s, j, m) && AskEffect(s, j, m) && Timely(s, s.cancels[j]) && Timely(s, s.cancels[k])
    ensures Timely(ApplyCancel(s, j, m), ApplyCancel(s, j, m).cancels[k])
  {
    if StartingInGate(ApplyCancel(s, j, m)) {
      CancelStartsNobody(s, j, m);
    }
    hide StartingInGate, CancelEffect, Lined, Gates;
  }

  // ---------------------------------------------------------------- every run

  ghost predicate InLine(s: State) {
    Lined(s) && AllTimely(s)
  }

  lemma PromptKeepsInLine(s: State, i: nat, m: Move)
    requires i < |s.prompts| && Gates(s) && InLine(s) && PromptEffect(s, i, m) && StartEffect(s, i, m)
    ensures InLine(Apply(s, i, m))
  {
    PromptKeepsLine(s, i, m);
    hide Lined, Gates, PromptEffect, StartEffect, Timely;
    forall j: nat | j < |s.cancels|
      ensures Timely(Apply(s, i, m), s.cancels[j])
    {
      PromptKeepsTimely(s, i, m, j);
    }
  }

  lemma CancelKeepsInLine(s: State, j: nat, m: CancelMove)
    requires j < |s.cancels| && Gates(s) && InLine(s) && CancelEffect(s, j, m) && AskEffect(s, j, m)
    ensures InLine(ApplyCancel(s, j, m))
  {
    CancelKeepsLine(s, j, m);
    hide Lined, Gates, CancelEffect, AskEffect, Timely;
    forall k: nat | k < |s.cancels|
      ensures Timely(ApplyCancel(s, j, m), ApplyCancel(s, j, m).cancels[k])
    {
      CancelKeepsTimely(s, j, m, k);
    }
  }

  /** Everything else leaves the line and the current turn alone. */
  lemma FrameKeepsInLine(s: State, t: State)
    requires InLine(s) && t.cancelGate == s.cancelGate && t.turn == s.turn
    requires s.prompts <= t.prompts && s.cancels <= t.cancels
    requires forall i | |s.prompts| <= i < |t.prompts| :: t.prompts[i].stage.Entering?
    requires forall j | |s.cancels| <= j < |t.cancels| :: t.cancels[j].stage.Calling?
    ensures InLine(t)
  {
    assert StartingInGate(t) ==> StartingInGate(s) by {
      if StartingInGate(t) {
        assert Fair.At(s.cancelGate, s.cancelGate.holder.value);
      }
    }
    hide StartingInGate;
    assert Lined(t) by {
      NewcomersAreOutside();
      hide StandingOf, CancelStanding, Fair.At, Fair.Orderly;
      assert forall i: nat | |s.prompts| <= i < |t.prompts| :: !Fair.At(s.cancelGate, ByPrompt(i));
      assert forall j: nat | |s.cancels| <= j < |t.cancels| :: !Fair.At(s.cancelGate, ByCancel(j));
    }
    forall j: nat | j < |t.cancels|
      ensures Timely(t, t.cancels[j])
    {
      assert j < |s.cancels| ==> Timely(s, s.cancels[j]);
    }
  }

  lemma NewcomersAreOutside()
    ensures StandingOf(Entering).Outside? && CancelStanding(Calling).Outside?
  {}

  /** What neither a prompt nor a cancellation does. */
  lemma OtherFrames(s: State, e: Event)
    requires !e.PromptStep? && !e.AbortPrompt? && !e.CancelStep? && !e.AbortCancel?
    ensures
      var t := Step(s, e);
      && t.cancelGate == s.cancelGate && t.turn == s.turn
      && s.prompts <= t.prompts && s.cancels <= t.cancels
      && (forall i | |s.prompts| <= i < |t.prompts| :: t.prompts[i].stage.Entering?)
      && (forall j | |s.cancels| <= j < |t.cancels| :: t.cancels[j].stage.Calling?)
  {
    hide Out.Step, StepAsk, StepClose, StepPrompt, DropPrompt, StepCancel, DropCancel;
    if e.AskStep? && e.a < |s.asks| {
      AskFrames(s, e.a, e.ok, e.choice);
    } else if e.CloseStep? && e.k < |s.closes| {
      CloseFrames(s, e.k, e.ok);
    }
  }

  lemma StepKeepsInLine(s: State, e: Event)
    requires Turning(s) && InLine(s)
    ensures InLine(Step(s, e))
  {
    hide InLine, PromptEffect, CancelEffect, StartEffect, AskEffect, Current, Ends;
    hide StepPrompt, DropPrompt, StepCancel, DropCancel, StepClose, StepAsk, Apply, ApplyCancel, Out.Step;
    if e.PromptStep? {
      if e.i < |s.prompts| {
        PromptStepEffect(s, e.i, e.ok, e.lifetime);
        PromptStarts(s, e.i, e.ok, e.lifetime);
        PromptKeepsInLine(s, e.i, StepPrompt(s, e.i, e.ok, e.lifetime));
      }
    } else if e.AbortPrompt? {
      if e.i < |s.prompts| {
        DropEffect(s, e.i);
        PromptStarts(s, e.i, false, None);
        PromptKeepsInLine(s, e.i, DropPrompt(s, e.i));
      }
    } else if e.CancelStep? {
      if e.j < |s.cancels| {
        CancelStepEffect(s, e.j);
        CancelAsks(s, e.j);
        CancelKeepsInLine(s, e.j, StepCancel(s, e.j));
      }
    } else if e.AbortCancel? {
      if e.j < |s.cancels| {
        CancelDropEffect(s, e.j);
        CancelAsks(s, e.j);
        CancelKeepsInLine(s, e.j, DropCancel(s, e.j));
      }
    } else {
      OtherFrames(s, e);
      FrameKeepsInLine(s, Step(s, e));
    }
  }

  lemma {:induction false} EveryRunIsInLine(es: seq<Event>)
    ensures InLine(Run(es))
  {
    hide Step, InLine, Turning;
    if es != [] {
      EveryRunIsInLine(es[..|es| - 1]);
      EveryRunTurns(es[..|es| - 1]);
      StepKeepsInLine(Run(es[..|es| - 1]), es[|es| - 1]);
    } else {
      NobodyIsThere();
    }
  }

  lemma NobodyIsThere()
    ensures InLine(INITIAL)
  {}

  /** What a cancellation remembers of its call is what was so when it first asked for the gate. */
  lemma {:induction false} CalledWhen(es: seq<Event>, j: nat) returns (k: nat)
    requires j < |Run(es).cancels| && (Run(es).cancels[j].stage.Biding? || InGate(Run(es).cancels[j].stage))
    ensures k < |es| && es[k] == CancelStep(j)
    ensures
      var before, c := Run(es[..k]), Run(es).cancels[j];
      && j < |before.cancels| && before.cancels[j].stage.Calling?
      && c.called == before.turn && c.behind == StartingInGate(before)
  {
    assert es != [];
    hide Step, StartingInGate, InGate;
    var init, e := es[..|es| - 1], es[|es| - 1];
    var s := Run(init);
    RemembersItsCall(s, e, j);
    if j < |s.cancels| && (s.cancels[j].stage.Biding? || InGate(s.cancels[j].stage)) {
      k := CalledWhen(init, j);
      assert init[..k] == es[..k];
    } else {
      k := |init|;
    }
  }

  lemma RemembersItsCall(s: State, e: Event, j: nat)
    requires j < |Step(s, e).cancels|
    requires Step(s, e).cancels[j].stage.Biding? || InGate(Step(s, e).cancels[j].stage)
    ensures
      var d := Step(s, e).cancels[j];
      && j < |s.cancels|
      && var c := s.cancels[j];
         if c.stage.Biding? || InGate(c.stage) then d.called == c.called && d.behind == c.behind
         else e == CancelStep(j) && c.stage.Calling? && d.called == s.turn && d.behind == StartingInGate(s)
  {
    hide Out.Step, StartingInGate, StepPrompt, DropPrompt, StepClose, StepAsk;
    if e.AskStep? && e.a < |s.asks| {
      AskFrames(s, e.a, e.ok, e.choice);
    } else if e.CloseStep? && e.k < |s.closes| {
      CloseFrames(s, e.k, e.ok);
    } else if (e.CancelStep? || e.AbortCancel?) && e.j < |s.cancels| {
      CancelAsks(s, e.j);
    }
  }

  /** A cancellation strikes the turn that was current when it was called or, if a prompt just starting
      had the gate then, the turn which that prompt began, or nothing; however long it waited and
      whatever was called in the meantime. */
  lemma CancelStrikesTheTurnItWasCalledIn(es: seq<Event>, j: nat) returns (k: nat)
    requires j < |Run(es).cancels| && Run(es).cancels[j].stage.Confirmed?
    ensures k < |es| && es[k] == CancelStep(j)
    ensures
      var call, s, u := Run(es[..k]), Run(es), Run(es).turn;
      && j < |call.cancels| && call.cancels[j].stage.Calling?
      && s.cancels[j].seen == u
      && Run(es + [CancelStep(j)]).ended == s.ended + {u} && Run(es + [CancelStep(j)]).turn == u
      && (u == call.turn || (StartingInGate(call) && u == call.turn + 1))
  {
    EveryRunTurns(es);
    EveryRunIsInLine(es);
    k := CalledWhen(es, j);
    assert (es + [CancelStep(j)])[..|es|] == es;
    assert Run(es + [CancelStep(j)]) == Step(Run(es), CancelStep(j)) by { hide Step; }
    hide Run, StartingInGate;
    assert InCancel(Run(es), Run(es).cancels[j]) && Timely(Run(es), Run(es).cancels[j]);
  }
}
