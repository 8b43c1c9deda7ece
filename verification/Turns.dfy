/** One session's turns: prompts, cancellations, closing and permission requests racing with each
    other over the shared output queue.

    An event that is not enabled leaves the state as it is, so every sequence of events is a run. */
module Turns {
  import opened Prelude
  import Out = Outbound
  import Fair = FairGates

  datatype Stage =
    | Entering
    | HoldsCancelGate
    | HoldsBoth
    | Checked
    | Turned
    | Armed
    | Emitting
    | Selecting
    | Lining
    | Locked
    | Sending
    | Awaiting
    | Ending
    | Deactivating
    | Finishing
    | Aborting
    | Revoking
    | Releasing
    | Over

  /** A call of `prompt`. From `Turned` on it has its turn, from `Selecting` on the token it captured.
      `Lining` waits for the cancellation gate. `Finishing` has disarmed its guard;
      `Aborting` and `Revoking` are the armed guard's drop. */
  datatype Prompt = Prompt(stage: Stage, turn: nat, token: nat, producer: nat)

  datatype CancelStage = Calling | Biding | Gated | Confirmed | Struck | Notifying | Cleaning | Ended

  /** A call of `cancel`. `called` is the turn that was current when it asked for the gate, `behind` says
      that a prompt just starting had the gate then, and `seen` is the turn when it got the gate. */
  datatype Cancel = Cancel(stage: CancelStage, called: nat, behind: bool, seen: nat, turn: nat, producer: nat)

  /** Where a call of `close` is, after its own cancellation. */
  datatype Close = Queueing | Held | Shut | Expired | Closed | Refused

  /** The token a permission request captures: its turn's, or the session lifetime. */
  datatype Token = OfTurn(turn: nat) | OfSession

  datatype Ask =
    | Looking(offered: set<string>)
    | Found(offered: set<string>)
    | Captured(offered: set<string>, token: Token)
    | Asking(offered: set<string>, token: Token)
    | Selected(offered: set<string>, token: Token, choice: string)
    | Nothing

  datatype Holder = ByPrompt(i: nat) | ByCancel(j: nat) | ByClose(k: nat)

  /** `ended` holds the turn tokens cancelled explicitly; turn 0 is the token before any prompt. */
  datatype State = State(
    out: Out.State,
    cancelGate: Fair.Gate<Holder>,
    promptGate: Option<Holder>,
    active: bool,
    closed: bool,
    expired: bool,
    turn: nat,
    ended: set<nat>,
    prompts: seq<Prompt>,
    cancels: seq<Cancel>,
    closes: seq<Close>,
    asks: seq<Ask>)

  const INITIAL := State(Out.INITIAL, Fair.Gate(None, []), None, false, false, false, 0, {}, [], [], [], [])

  /** Turn tokens are children of the session lifetime, itself a child of the stop token. */
  predicate Dead(s: State, turn: nat) {
    turn in s.ended || s.expired || s.out.stop
  }

  predicate DeadToken(s: State, token: Token) {
    match token
    case OfTurn(turn) => Dead(s, turn)
    case OfSession => s.expired || s.out.stop
  }

  datatype Event =
    | StartPrompt
    | PromptStep(i: nat, ok: bool, lifetime: Option<Out.Token>)
    | AbortPrompt(i: nat)
    | StartCancel
    | CancelStep(j: nat)
    | AbortCancel(j: nat)
    | StartClose
    | CloseStep(k: nat, ok: bool)
    | StartAsk(offered: set<string>)
    | AskStep(a: nat, ok: bool, choice: Option<string>)
    | OutStep(event: Out.Event)
    | LifetimeFails
    | TurnFails
    | DeactivationByFailure
    | ClosedByDisconnect

  predicate HasCancelGate(g: Stage) {
    g.HoldsCancelGate? || g.HoldsBoth? || g.Checked? || g.Turned? || g.Armed? || g.Locked? || g.Sending?
  }

  predicate InGate(g: CancelStage) {
    !g.Calling? && !g.Biding? && !g.Ended?
  }

  /** Where a prompt and a cancellation stand with the cancellation gate. */
  function StandingOf(g: Stage): Fair.Standing {
    if HasCancelGate(g) then Fair.Inside else if g.Lining? then Fair.Waiting else Fair.Outside
  }

  function CancelStanding(g: CancelStage): Fair.Standing {
    if InGate(g) then Fair.Inside else if g.Biding? then Fair.Waiting else Fair.Outside
  }

  /** A prompt on its way to begin its turn. */
  predicate Starting(g: Stage) {
    g.HoldsCancelGate? || g.HoldsBoth? || g.Checked?
  }

  /** Such a prompt has the cancellation gate. */
  predicate StartingInGate(s: State) {
    && s.cancelGate.holder.Some? && s.cancelGate.holder.value.ByPrompt?
    && s.cancelGate.holder.value.i < |s.prompts| && Starting(s.prompts[s.cancelGate.holder.value.i].stage)
  }

  /** What one step of a prompt may touch, besides the cancellation gate, which follows its stage. */
  datatype Move = Move(
    prompt: Prompt,
    promptGate: Option<Holder>,
    active: bool,
    turn: nat,
    ended: set<nat>,
    out: Out.State)

  function Apply(s: State, i: nat, m: Move): State
    requires i < |s.prompts|
  {
    s.(prompts := s.prompts[i := m.prompt],
       cancelGate := Fair.Moved(s.cancelGate, ByPrompt(i), StandingOf(s.prompts[i].stage), StandingOf(m.prompt.stage)),
       promptGate := m.promptGate, active := m.active, turn := m.turn, ended := m.ended, out := m.out)
  }

  /** Prompt `i` moves on to `stage`. */
  function Go(s: State, i: nat, stage: Stage): Move
    requires i < |s.prompts|
  {
    Move(s.prompts[i].(stage := stage), s.promptGate, s.active, s.turn, s.ended, s.out)
  }

  /** The progress of prompt `i`; `ok` resolves what the model does not decide. */
  function StepPrompt(s: State, i: nat, ok: bool, lifetime: Option<Out.Token>): Move
    requires i < |s.prompts|
  {
    var p, me := s.prompts[i], Some(ByPrompt(i));
    match p.stage
    case Entering => Go(s, i, if s.cancelGate.holder.None? then HoldsCancelGate else Over)
    case HoldsCancelGate => if s.promptGate.None? then Go(s, i, HoldsBoth).(promptGate := me) else Go(s, i, Over)
    case HoldsBoth =>
      if ok && !s.closed && !s.out.stop then Go(s, i, Checked) else Go(s, i, Over).(promptGate := None)
    case Checked => Go(s, i, Turned).(turn := s.turn + 1, prompt := p.(stage := Turned, turn := s.turn + 1))
    case Turned => Go(s, i, Armed).(active := true)
    case Armed => Go(s, i, Emitting)
    case Emitting =>
      if ok then Go(s, i, Selecting).(prompt := p.(stage := Selecting, token := s.turn)) else Go(s, i, Aborting)
    case Selecting =>
      Go(s, i, if Dead(s, p.token) then Ending else if s.cancelGate.holder.None? then Locked else Lining)
    case Lining =>
      Go(s, i, if Dead(s, p.token) then Ending else if s.cancelGate.holder == me then Locked else Lining)
    case Locked =>
      if Dead(s, p.token) || !ok then Go(s, i, Ending)
      else Go(s, i, Sending).(prompt := p.(stage := Sending, producer := |s.out.producers|),
                              out := Out.Step(s.out, Out.Begin(lifetime, Out.PromptOf(p.turn))))
    case Sending =>
      if p.producer < |s.out.producers| && s.out.producers[p.producer].Finished? then
        Go(s, i, if s.out.producers[p.producer].sent then Awaiting else Ending)
      else Go(s, i, Sending)
    case Awaiting => Go(s, i, if ok then Ending else Aborting)
    case Ending => Go(s, i, Deactivating).(ended := s.ended + {s.turn})
    case Deactivating => Go(s, i, Finishing).(active := false)
    case Finishing => Go(s, i, Releasing).(active := false)
    case Aborting => Go(s, i, Revoking).(active := false)
    case Revoking => Go(s, i, Releasing).(ended := s.ended + {s.turn}, out := Out.Step(s.out, Out.Fail(0)))
    case Releasing => Go(s, i, Over).(promptGate := None)
    case Over => Go(s, i, Over)
  }

  /** The caller drops prompt `i` at an `await`: inner state first, then the armed guard. */
  function DropPrompt(s: State, i: nat): Move
    requires i < |s.prompts|
  {
    match s.prompts[i].stage
    case Emitting => Go(s, i, Aborting)
    case Selecting => Go(s, i, Aborting)
    case Lining => Go(s, i, Aborting)
    case Sending => Go(s, i, Aborting).(out := Out.Step(s.out, Out.Abandon(s.prompts[i].producer)))
    case Awaiting => Go(s, i, Aborting)
    case stage => Go(s, i, stage)
  }

  /** What one step of a cancellation may touch, besides the cancellation gate. */
  datatype CancelMove = CancelMove(cancel: Cancel, ended: set<nat>, out: Out.State)

  function ApplyCancel(s: State, j: nat, m: CancelMove): State
    requires j < |s.cancels|
  {
    s.(cancels := s.cancels[j := m.cancel],
       cancelGate :=
         Fair.Moved(s.cancelGate, ByCancel(j), CancelStanding(s.cancels[j].stage), CancelStanding(m.cancel.stage)),
       ended := m.ended, out := m.out)
  }

  function GoCancel(s: State, j: nat, stage: CancelStage): CancelMove
    requires j < |s.cancels|
  {
    CancelMove(s.cancels[j].(stage := stage), s.ended, s.out)
  }

  function StepCancel(s: State, j: nat): CancelMove
    requires j < |s.cancels|
  {
    var c := s.cancels[j];
    match c.stage
    case Calling =>
      var asked := c.(called := s.turn, behind := StartingInGate(s));
      if s.cancelGate.holder.None? then GoCancel(s, j, Gated).(cancel := asked.(stage := Gated, seen := s.turn))
      else GoCancel(s, j, Biding).(cancel := asked.(stage := Biding))
    case Biding =>
      if s.cancelGate.holder == Some(ByCancel(j)) then
        GoCancel(s, j, Gated).(cancel := c.(stage := Gated, seen := s.turn))
      else GoCancel(s, j, Biding)
    case Gated => GoCancel(s, j, if s.active then Confirmed else Ended)
    case Confirmed =>
      GoCancel(s, j, Struck).(cancel := c.(stage := Struck, turn := s.turn), ended := s.ended + {s.turn})
    case Struck =>
      GoCancel(s, j, Notifying).(cancel := c.(stage := Notifying, producer := |s.out.producers|),
                                 out := Out.Step(s.out, Out.Begin(None, Out.CancelOf(c.turn))))
    case Notifying =>
      if c.producer < |s.out.producers| && s.out.producers[c.producer].Finished? then GoCancel(s, j, Cleaning)
      else GoCancel(s, j, Notifying)
    case Cleaning => GoCancel(s, j, Ended)
    case Ended => GoCancel(s, j, Ended)
  }

  function DropCancel(s: State, j: nat): CancelMove
    requires j < |s.cancels|
  {
    match s.cancels[j].stage
    case Calling => GoCancel(s, j, Ended)
    case Biding => GoCancel(s, j, Ended)
    case Notifying => GoCancel(s, j, Ended).(out := Out.Step(s.out, Out.Abandon(s.cancels[j].producer)))
    case Cleaning => GoCancel(s, j, Ended)
    case stage => GoCancel(s, j, stage)
  }

  function StepClose(s: State, k: nat, ok: bool): State
    requires k < |s.closes|
  {
    match s.closes[k]
    case Queueing =>
      if !ok then s.(closes := s.closes[k := Refused])
      else if s.promptGate.None? then s.(closes := s.closes[k := Held], promptGate := Some(ByClose(k)))
      else s
    case Held =>
      if ok then s.(closes := s.closes[k := Shut], closed := true)
      else s.(closes := s.closes[k := Refused], promptGate := None)
    case Shut => s.(closes := s.closes[k := Expired], expired := true)
    case Expired => s.(closes := s.closes[k := Closed], promptGate := None)
    case Closed => s
    case Refused => s
  }

  /** `ask_permission`: capture the token once, ask, and honour the choice only if that token is
      still live when the handler returns and the choice was offered. */
  function StepAsk(s: State, a: nat, ok: bool, choice: Option<string>): State
    requires a < |s.asks|
  {
    match s.asks[a]
    case Looking(offered) =>
      s.(asks := s.asks[a := if s.active then Found(offered) else Captured(offered, OfSession)])
    case Found(offered) => s.(asks := s.asks[a := Captured(offered, OfTurn(s.turn))])
    case Captured(offered, token) => s.(asks := s.asks[a := if ok then Asking(offered, token) else Nothing])
    case Asking(offered, token) =>
      s.(asks := s.asks[a :=
        if DeadToken(s, token) || choice.None? || choice.value !in offered then Nothing
        else Selected(offered, token, choice.value)])
    case Selected(_, _, _) => s
    case Nothing => s
  }

  function Step(s: State, e: Event): State {
    match e
    case StartPrompt => s.(prompts := s.prompts + [Prompt(Entering, 0, 0, 0)])
    case PromptStep(i, ok, lifetime) => if i < |s.prompts| then Apply(s, i, StepPrompt(s, i, ok, lifetime)) else s
    case AbortPrompt(i) => if i < |s.prompts| then Apply(s, i, DropPrompt(s, i)) else s
    case StartCancel => s.(cancels := s.cancels + [Cancel(Calling, 0, false, 0, 0, 0)])
    case CancelStep(j) => if j < |s.cancels| then ApplyCancel(s, j, StepCancel(s, j)) else s
    case AbortCancel(j) => if j < |s.cancels| then ApplyCancel(s, j, DropCancel(s, j)) else s
    case StartClose => s.(closes := s.closes + [Queueing])
    case CloseStep(k, ok) => if k < |s.closes| then StepClose(s, k, ok) else s
    case StartAsk(offered) => s.(asks := s.asks + [Looking(offered)])
    case AskStep(a, ok, choice) => if a < |s.asks| then StepAsk(s, a, ok, choice) else s
    case OutStep(event) => if event.Begin? && event.tag != Out.Plain then s else s.(out := Out.Step(s.out, event))
    case LifetimeFails => if s.out.failure.Some? then s.(expired := true) else s
    case TurnFails => if s.out.failure.Some? then s.(ended := s.ended + {s.turn}) else s
    case DeactivationByFailure => if s.out.failure.Some? then s.(active := false) else s
    case ClosedByDisconnect => if s.out.failure.Some? then s.(closed := true) else s
  }

  function RunFrom(s: State, es: seq<Event>): State {
    if es == [] then s else Step(RunFrom(s, es[..|es| - 1]), es[|es| - 1])
  }

  function Run(es: seq<Event>): State {
    RunFrom(INITIAL, es)
  }

  // ---------------------------------------------------------------- who holds what

  predicate HasPromptGate(g: Stage) {
    !g.Entering? && !g.HoldsCancelGate? && !g.Over?
  }

  predicate HasTurn(g: Stage) {
    HasPromptGate(g) && !g.HoldsBoth? && !g.Checked? && !g.Releasing?
  }

  /** The turn is running: nothing in `prompt` has cancelled its token yet. */
  predicate Running(g: Stage) {
    HasTurn(g) && !g.Deactivating? && !g.Finishing?
  }

  /** The turn's token has been captured and is still looked at. */
  predicate HasToken(g: Stage) {
    g.Selecting? || g.Lining? || g.Locked? || g.Sending?
  }

  /** The turn's prompt has not begun to be sent. */
  predicate Unsent(g: Stage) {
    g.Turned? || g.Armed? || g.Emitting? || g.Selecting? || g.Lining? || g.Locked?
  }

  /** The turn's token has been cancelled and its notification is on the way. */
  predicate Striking(g: CancelStage) {
    g.Struck? || g.Notifying?
  }

  predicate InGateClose(c: Close) {
    c.Held? || c.Shut? || c.Expired?
  }

  /** How a lock changes hands when `me` had it before (`had`) and has it after (`has`). */
  predicate Handed(before: Option<Holder>, after: Option<Holder>, had: bool, has: bool, me: Holder) {
    if had == has then after == before
    else if has then before.None? && after == Some(me)
    else after.None?
  }

  ghost predicate Gates(s: State) {
    && (forall i | 0 <= i < |s.prompts| && HasCancelGate(s.prompts[i].stage) ::
          s.cancelGate.holder == Some(ByPrompt(i)))
    && (forall i | 0 <= i < |s.prompts| && HasPromptGate(s.prompts[i].stage) :: s.promptGate == Some(ByPrompt(i)))
    && (forall j | 0 <= j < |s.cancels| && InGate(s.cancels[j].stage) :: s.cancelGate.holder == Some(ByCancel(j)))
    && (forall k | 0 <= k < |s.closes| && InGateClose(s.closes[k]) :: s.promptGate == Some(ByClose(k)))
  }

  /** Whoever is in a turn is in the current turn. */
  ghost predicate InTurn(s: State, p: Prompt) {
    && (HasTurn(p.stage) ==> p.turn == s.turn)
    && (HasToken(p.stage) ==> p.token == s.turn)
  }

  /** Whoever is cancelling is cancelling the current turn. */
  ghost predicate InCancel(s: State, c: Cancel) {
    && (InGate(c.stage) ==> c.seen == s.turn)
    && (Striking(c.stage) ==> c.turn == s.turn && c.turn in s.ended)
  }

  ghost predicate Current(s: State) {
    && (forall i | 0 <= i < |s.prompts| :: InTurn(s, s.prompts[i]))
    && (forall j | 0 <= j < |s.cancels| :: InCancel(s, s.cancels[j]))
  }

  ghost predicate RunningNow(s: State, i: nat) {
    i < |s.prompts| && s.promptGate == Some(ByPrompt(i)) && Running(s.prompts[i].stage)
  }

  /** A turn whose token is not cancelled is the current one, and its prompt is still running. */
  ghost predicate Ends(s: State) {
    forall u | 1 <= u <= s.turn && u !in s.ended :: u == s.turn && exists i :: RunningNow(s, i)
  }

  ghost predicate Turning(s: State) {
    Gates(s) && Current(s) && Ends(s)
  }

  /** What one step or drop of prompt `i` may do, apart from the output queue. */
  ghost predicate PromptEffect(s: State, i: nat, m: Move)
    requires i < |s.prompts|
  {
    var p, q := s.prompts[i], m.prompt;
    && Fair.Allowed(s.cancelGate, ByPrompt(i), StandingOf(p.stage), StandingOf(q.stage))
    && Handed(s.promptGate, m.promptGate, HasPromptGate(p.stage), HasPromptGate(q.stage), ByPrompt(i))
    && (m.turn != s.turn ==> p.stage.Checked? && q.stage.Turned? && m.turn == s.turn + 1)
    && (HasTurn(q.stage) ==> if HasTurn(p.stage) then q.turn == p.turn else q.stage.Turned? && q.turn == m.turn)
    && (HasToken(q.stage) && HasToken(p.stage) ==> q.token == p.token)
    && (HasToken(q.stage) && !HasToken(p.stage) ==> q.token == s.turn)
    && (m.ended == s.ended || m.ended == s.ended + {s.turn})
    && (Running(p.stage) && !Running(q.stage) ==> s.turn in m.ended)
  }

  lemma EarlyStepEffect(s: State, i: nat, ok: bool, lifetime: Option<Out.Token>)
    requires i < |s.prompts| && !HasTurn(s.prompts[i].stage)
    ensures PromptEffect(s, i, StepPrompt(s, i, ok, lifetime))
  {
    hide Out.Step;
  }

  lemma SendingStepEffect(s: State, i: nat, ok: bool, lifetime: Option<Out.Token>)
    requires i < |s.prompts| && (Unsent(s.prompts[i].stage) || s.prompts[i].stage.Sending?)
    ensures PromptEffect(s, i, StepPrompt(s, i, ok, lifetime))
  {
    hide Out.Step;
  }

  lemma LateStepEffect(s: State, i: nat, ok: bool, lifetime: Option<Out.Token>)
    requires i < |s.prompts| && HasTurn(s.prompts[i].stage)
    requires !Unsent(s.prompts[i].stage) && !s.prompts[i].stage.Sending?
    ensures PromptEffect(s, i, StepPrompt(s, i, ok, lifetime))
  {
    hide Out.Step;
  }

  lemma PromptStepEffect(s: State, i: nat, ok: bool, lifetime: Option<Out.Token>)
    requires i < |s.prompts|
    ensures PromptEffect(s, i, StepPrompt(s, i, ok, lifetime))
  {
    hide PromptEffect, StepPrompt;
    if !HasTurn(s.prompts[i].stage) {
      EarlyStepEffect(s, i, ok, lifetime);
    } else if Unsent(s.prompts[i].stage) || s.prompts[i].stage.Sending? {
      SendingStepEffect(s, i, ok, lifetime);
    } else {
      LateStepEffect(s, i, ok, lifetime);
    }
  }

  lemma DropEffect(s: State, i: nat)
    requires i < |s.prompts|
    ensures PromptEffect(s, i, DropPrompt(s, i))
  {
    hide Out.Step;
  }

  lemma PromptKeepsGates(s: State, i: nat, m: Move)
    requires i < |s.prompts| && PromptEffect(s, i, m) && Gates(s)
    ensures Gates(Apply(s, i, m))
  {
    hide HasCancelGate, HasPromptGate, InGate, InGateClose, HasTurn, HasToken, Running;
  }

  lemma PromptKeepsCurrent(s: State, i: nat, m: Move)
    requires i < |s.prompts| && PromptEffect(s, i, m) && Gates(s) && Current(s)
    ensures Current(Apply(s, i, m))
  {
    CheckedHasGates(s.prompts[i].stage);
    TurnHasGate();
    hide HasCancelGate, HasPromptGate, InGate, InGateClose, Running, HasTurn, HasToken;
    var t := Apply(s, i, m);
    forall k | 0 <= k < |t.prompts|
      ensures InTurn(t, t.prompts[k])
    {
      assert InTurn(s, s.prompts[k]) && InTurn(s, s.prompts[i]);
    }
    forall j | 0 <= j < |t.cancels|
      ensures InCancel(t, t.cancels[j])
    {
      assert InCancel(s, s.cancels[j]);
    }
  }

  lemma CheckedHasGates(g: Stage)
    ensures g.Checked? ==> HasCancelGate(g) && HasPromptGate(g) && !HasTurn(g) && !Running(g)
    ensures Running(Turned) && HasPromptGate(Turned)
  {}

  lemma TurnHasGate()
    ensures forall g :: HasTurn(g) ==> HasPromptGate(g)
    ensures forall g :: Running(g) ==> HasTurn(g)
    ensures forall g :: HasToken(g) ==> HasTurn(g) && !g.Turned?
  {}

  lemma PromptKeepsEnds(s: State, i: nat, m: Move)
    requires i < |s.prompts| && PromptEffect(s, i, m) && Gates(s) && Ends(s)
    ensures Ends(Apply(s, i, m))
  {
    CheckedHasGates(s.prompts[i].stage);
    TurnHasGate();
    hide HasCancelGate, HasPromptGate, InGate, InGateClose, HasTurn, HasToken, Running;
    var t := Apply(s, i, m);
    forall u | 1 <= u <= t.turn && u !in t.ended
      ensures u == t.turn && exists k :: RunningNow(t, k)
    {
      if u <= s.turn {
        var k :| RunningNow(s, k);
        assert RunningNow(t, k);
      } else {
        assert RunningNow(t, i);
      }
    }
  }

  /** What one step or drop of cancellation `j` may do, apart from the output queue. */
  ghost predicate CancelEffect(s: State, j: nat, m: CancelMove)
    requires j < |s.cancels|
  {
    var c, d := s.cancels[j], m.cancel;
    && Fair.Allowed(s.cancelGate, ByCancel(j), CancelStanding(c.stage), CancelStanding(d.stage))
    && (InGate(d.stage) ==> d.seen == if InGate(c.stage) then c.seen else s.turn)
    && (m.ended == s.ended || m.ended == s.ended + {s.turn})
    && (Striking(d.stage) ==> if Striking(c.stage) then d.turn == c.turn else d.turn == s.turn && s.turn in m.ended)
  }

  lemma CancelStepEffect(s: State, j: nat)
    requires j < |s.cancels|
    ensures CancelEffect(s, j, StepCancel(s, j))
  {
    hide Out.Step;
  }

  lemma CancelDropEffect(s: State, j: nat)
    requires j < |s.cancels|
    ensures CancelEffect(s, j, DropCancel(s, j))
  {
    hide Out.Step;
  }

  lemma CancelKeepsTurning(s: State, j: nat, m: CancelMove)
    requires j < |s.cancels| && CancelEffect(s, j, m) && Turning(s)
    ensures Turning(ApplyCancel(s, j, m))
  {
    StrikingInGate();
    hide HasCancelGate, HasPromptGate, InGate, InGateClose, HasTurn, HasToken, Running, Striking;
    var t := ApplyCancel(s, j, m);
    assert Gates(t);
    forall i | 0 <= i < |t.prompts|
      ensures InTurn(t, t.prompts[i])
    {
      assert InTurn(s, s.prompts[i]);
    }
    forall k | 0 <= k < |t.cancels|
      ensures InCancel(t, t.cancels[k])
    {
      assert InCancel(s, s.cancels[k]) && InCancel(s, s.cancels[j]);
    }
    assert forall k :: RunningNow(s, k) ==> RunningNow(t, k);
  }

  lemma StrikingInGate()
    ensures forall g :: Striking(g) ==> InGate(g)
  {}

  lemma CloseKeepsGates(s: State, k: nat, ok: bool)
    requires k < |s.closes| && Gates(s)
    ensures Gates(StepClose(s, k, ok))
  {
    hide HasCancelGate, HasPromptGate, InGate;
  }

  /** Turns depend on nothing but these fields. */
  lemma FrameKeepsTurning(s: State, t: State)
    requires Turning(s) && Gates(t)
    requires t.prompts == s.prompts && t.cancels == s.cancels && t.turn == s.turn && s.ended <= t.ended
    requires t.promptGate == s.promptGate || !exists i :: RunningNow(s, i)
    ensures Turning(t)
  {
    hide Gates, HasTurn, HasToken, Running, InGate, Striking;
    forall i | 0 <= i < |t.prompts|
      ensures InTurn(t, t.prompts[i])
    {
      assert InTurn(s, s.prompts[i]);
    }
    forall j | 0 <= j < |t.cancels|
      ensures InCancel(t, t.cancels[j])
    {
      assert InCancel(s, s.cancels[j]);
    }
    assert t.promptGate == s.promptGate ==> forall i :: RunningNow(s, i) ==> RunningNow(t, i);
  }

  lemma CloseKeepsTurning(s: State, k: nat, ok: bool)
    requires k < |s.closes| && Turning(s)
    ensures Turning(StepClose(s, k, ok))
  {
    CloseKeepsGates(s, k, ok);
    hide HasCancelGate, HasPromptGate, InGate, HasTurn, HasToken, Running, Turning;
    FrameKeepsTurning(s, StepClose(s, k, ok));
  }

  lemma PromptEventKeepsTurning(s: State, i: nat, m: Move)
    requires i < |s.prompts| && PromptEffect(s, i, m) && Turning(s)
    ensures Turning(Apply(s, i, m))
  {
    hide PromptEffect, Gates, Current, Ends;
    PromptKeepsGates(s, i, m);
    PromptKeepsCurrent(s, i, m);
    PromptKeepsEnds(s, i, m);
  }

  lemma StartKeepsTurning(s: State, e: Event)
    requires Turning(s) && (e.StartPrompt? || e.StartCancel? || e.StartClose?)
    ensures Turning(Step(s, e))
  {
    NewcomersHaveNothing();
    hide HasCancelGate, HasPromptGate, InGate, InGateClose, HasTurn, HasToken, Running, Striking;
    var t := Step(s, e);
    assert Gates(t);
    forall i | 0 <= i < |t.prompts|
      ensures InTurn(t, t.prompts[i])
    {
      assert i < |s.prompts| ==> InTurn(s, s.prompts[i]);
    }
    forall k | 0 <= k < |t.cancels|
      ensures InCancel(t, t.cancels[k])
    {
      assert k < |s.cancels| ==> InCancel(s, s.cancels[k]);
    }
    assert forall i :: RunningNow(s, i) ==> RunningNow(t, i);
  }

  lemma NewcomersHaveNothing()
    ensures !HasTurn(Entering) && !HasToken(Entering) && !HasCancelGate(Entering) && !HasPromptGate(Entering)
    ensures !InGate(Calling) && !Striking(Calling) && !InGateClose(Queueing)
  {}

  lemma AskFrames(s: State, a: nat, ok: bool, choice: Option<string>)
    requires a < |s.asks|
    ensures
      var t := StepAsk(s, a, ok, choice);
      && t.out == s.out && t.cancelGate == s.cancelGate && t.turn == s.turn && s.ended == t.ended
      && s.prompts == t.prompts && s.cancels == t.cancels
  {
    hide DeadToken;
  }

  lemma CloseFrames(s: State, k: nat, ok: bool)
    requires k < |s.closes|
    ensures
      var t := StepClose(s, k, ok);
      && t.out == s.out && t.cancelGate == s.cancelGate && t.turn == s.turn && s.ended == t.ended
      && s.prompts == t.prompts && s.cancels == t.cancels
  {}

  /** Asking, the output queue and outside failures change no gate and no task. */
  lemma RestFrames(s: State, e: Event)
    requires !e.PromptStep? && !e.AbortPrompt? && !e.CancelStep? && !e.AbortCancel? && !e.CloseStep?
    requires !e.StartPrompt? && !e.StartCancel? && !e.StartClose?
    ensures
      var t := Step(s, e);
      && t.prompts == s.prompts && t.cancels == s.cancels && t.closes == s.closes && t.turn == s.turn
      && t.promptGate == s.promptGate && t.cancelGate == s.cancelGate && s.ended <= t.ended
  {
    hide Out.Step;
  }

  lemma StepKeepsTurning(s: State, e: Event)
    requires Turning(s)
    ensures Turning(Step(s, e))
  {
    hide Turning, PromptEffect, CancelEffect, StepPrompt, DropPrompt, StepCancel, DropCancel, StepClose;
    hide Apply, ApplyCancel;
    if e.PromptStep? {
      if e.i < |s.prompts| {
        PromptStepEffect(s, e.i, e.ok, e.lifetime);
        PromptEventKeepsTurning(s, e.i, StepPrompt(s, e.i, e.ok, e.lifetime));
      }
    } else if e.AbortPrompt? {
      if e.i < |s.prompts| {
        DropEffect(s, e.i);
        PromptEventKeepsTurning(s, e.i, DropPrompt(s, e.i));
      }
    } else if e.CancelStep? {
      if e.j < |s.cancels| {
        CancelStepEffect(s, e.j);
        CancelKeepsTurning(s, e.j, StepCancel(s, e.j));
      }
    } else if e.AbortCancel? {
      if e.j < |s.cancels| {
        CancelDropEffect(s, e.j);
        CancelKeepsTurning(s, e.j, DropCancel(s, e.j));
      }
    } else if e.CloseStep? {
      if e.k < |s.closes| {
        CloseKeepsTurning(s, e.k, e.ok);
      }
    } else if e.StartPrompt? || e.StartCancel? || e.StartClose? {
      StartKeepsTurning(s, e);
    } else {
      RestFrames(s, e);
      GatesFrame(s, Step(s, e));
      FrameKeepsTurning(s, Step(s, e));
    }
  }

  lemma GatesFrame(s: State, t: State)
    requires Turning(s)
    requires t.prompts == s.prompts && t.cancels == s.cancels && t.closes == s.closes
    requires t.promptGate == s.promptGate && t.cancelGate == s.cancelGate
    ensures Gates(t)
  {}

  lemma InitiallyTurning()
    ensures Turning(INITIAL)
  {}

  lemma {:induction false} EveryRunTurns(es: seq<Event>)
    ensures Turning(Run(es))
  {
    hide Step, Turning;
    if es != [] {
      EveryRunTurns(es[..|es| - 1]);
      StepKeepsTurning(Run(es[..|es| - 1]), es[|es| - 1]);
    } else {
      InitiallyTurning();
    }
  }
}
