/** Permission requests told from the events of a run: what a request captures, and exactly when it is
    answered with a choice. */
module Consent {
  import opened Prelude
  import opened Turns
  import TurnLaws
  import Out = Outbound

  /** A step of a request: the session as the step found it, and what the step was told. */
  datatype Look = Look(session: State, ok: bool, choice: Option<string>)

  /** The steps of request `a` in a run. */
  function Looks(es: seq<Event>, a: nat): seq<Look> {
    if es == [] then []
    else
      var init, e := es[..|es| - 1], es[|es| - 1];
      Looks(init, a)
      + if e.AskStep? && e.a == a && a < |Run(init).asks| then [Look(Run(init), e.ok, e.choice)] else []
  }

  /** What each request was to choose from. */
  function Offers(es: seq<Event>): seq<set<string>> {
    if es == [] then []
    else Offers(es[..|es| - 1]) + if es[|es| - 1].StartAsk? then [es[|es| - 1].offered] else []
  }

  /** How many steps it takes the request to own a token: it looks whether the session is active, and if so
      looks up the turn as well. */
  function Needed(looks: seq<Look>): nat
    requires looks != []
  {
    if looks[0].session.active then 2 else 1
  }

  /** The token a request owns: that of the turn which was current at its second look, if the session was
      active at the first; otherwise the session's lifetime. */
  function Owned(looks: seq<Look>): Token
    requires looks != [] && Needed(looks) <= |looks|
  {
    if looks[0].session.active then OfTurn(looks[1].session.turn) else OfSession
  }

  /** A turn's token is over when it was cancelled, the session has ended or the connection has stopped; the
      session's when one of the latter two is so. */
  predicate IsOver(s: State, token: Token) {
    s.expired || s.out.stop || (token.OfTurn? && token.turn in s.ended)
  }

  /** The request was asked, and the answer came while its token was live and was among the choices. */
  predicate Honoured(looks: seq<Look>, offered: set<string>, choice: string) {
    && looks != [] && Needed(looks) + 2 <= |looks|
    && looks[Needed(looks)].ok
    && var answer := looks[Needed(looks) + 1];
       answer.choice == Some(choice) && choice in offered && !IsOver(answer.session, Owned(looks))
  }

  /** Where a request is after these steps. */
  ghost predicate Reached(looks: seq<Look>, offered: set<string>, ask: Ask) {
    if looks == [] then ask == Looking(offered)
    else if |looks| < Needed(looks) then ask == Found(offered)
    else if |looks| == Needed(looks) then ask == Captured(offered, Owned(looks))
    else if |looks| == Needed(looks) + 1 then
      ask == if looks[Needed(looks)].ok then Asking(offered, Owned(looks)) else Nothing
    else if ask.Selected? then
      ask.offered == offered && ask.token == Owned(looks) && Honoured(looks, offered, ask.choice)
    else ask == Nothing && forall choice :: !Honoured(looks, offered, choice)
  }

  lemma AskMoves(s: State, a: nat, ok: bool, choice: Option<string>, looks: seq<Look>, offered: set<string>)
    requires a < |s.asks| && Reached(looks, offered, s.asks[a])
    ensures
      var t := StepAsk(s, a, ok, choice);
      a < |t.asks| && Reached(looks + [Look(s, ok, choice)], offered, t.asks[a])
  {
    var longer := looks + [Look(s, ok, choice)];
    if looks != [] {
      assert longer[0] == looks[0];
      assert |looks| > 1 ==> longer[1] == looks[1];
      assert |looks| > 2 ==> longer[2] == looks[2];
      assert |looks| > 3 ==> longer[3] == looks[3];
      if |looks| >= Needed(looks) + 2 {
        forall c
          ensures Honoured(longer, offered, c) == Honoured(looks, offered, c)
        {}
      }
    }
  }

  /** Nothing but its own steps moves a request. */
  lemma OthersWait(s: State, e: Event, a: nat)
    requires a < |s.asks| && !(e.AskStep? && e.a == a)
    ensures a < |Step(s, e).asks| && Step(s, e).asks[a] == s.asks[a]
  {
    hide Out.Step, StepPrompt, DropPrompt, StepCancel, DropCancel, StepClose;
    if e.CloseStep? && e.k < |s.closes| {
      TurnLaws.CloseKeepsAsks(s, e.k, e.ok);
    }
  }

  lemma NewAsks(s: State, e: Event)
    ensures
      if e.StartAsk? then Step(s, e).asks == s.asks + [Looking(e.offered)] else |Step(s, e).asks| == |s.asks|
  {
    hide Out.Step, StepPrompt, DropPrompt, StepCancel, DropCancel, StepClose;
    if e.CloseStep? && e.k < |s.closes| {
      TurnLaws.CloseKeepsAsks(s, e.k, e.ok);
    }
  }

  lemma {:induction false} NoLooksBefore(es: seq<Event>, a: nat)
    requires |Run(es).asks| <= a
    ensures Looks(es, a) == []
  {
    if es != [] {
      NewAsks(Run(es[..|es| - 1]), es[|es| - 1]);
      hide Step;
      NoLooksBefore(es[..|es| - 1], a);
    }
  }

  /** In every run each request is where its own steps have taken it. */
  lemma {:induction false} EveryRequestIsWhereItWent(es: seq<Event>)
    ensures |Run(es).asks| == |Offers(es)|
    ensures forall a | 0 <= a < |Offers(es)| :: Reached(Looks(es, a), Offers(es)[a], Run(es).asks[a])
  {
    if es != [] {
      var init, e := es[..|es| - 1], es[|es| - 1];
      EveryRequestIsWhereItWent(init);
      NewAsks(Run(init), e);
      assert Run(es) == Step(Run(init), e) by { hide Step; }
      forall a | 0 <= a < |Offers(es)|
        ensures Reached(Looks(es, a), Offers(es)[a], Run(es).asks[a])
      {
        if a >= |Offers(init)| {
          NoLooksBefore(init, a);
          hide Step, Run;
        } else if e.AskStep? && e.a == a {
          AskMoves(Run(init), a, e.ok, e.choice, Looks(init, a), Offers(init)[a]);
          hide StepAsk, Run, Reached;
        } else {
          OthersWait(Run(init), e, a);
          assert Looks(init, a) + [] == Looks(init, a);
          hide Step, Run, Reached;
        }
      }
      hide Step, Run, Reached;
    }
  }

  /** A request is answered with a choice exactly when it was asked, the choice came back while the token it
      owns was live, and the choice had been offered. */
  lemma SelectedIff(es: seq<Event>, a: nat, choice: string)
    requires a < |Offers(es)|
    ensures a < |Run(es).asks|
    ensures Run(es).asks[a].Selected? && Run(es).asks[a].choice == choice
            <==> Honoured(Looks(es, a), Offers(es)[a], choice)
  {
    EveryRequestIsWhereItWent(es);
    hide Run, Looks;
  }

  /** A request looked up while a prompt was active, in turn `u`, is never answered with a choice that comes
      back after the turn has ended, whatever turns begin. */
  lemma NoApprovalAfterItsTurn(es: seq<Event>, a: nat, choice: string)
    requires a < |Offers(es)|
    ensures
      var looks := Looks(es, a);
      |looks| >= 4 && looks[0].session.active && looks[1].session.turn in looks[3].session.ended ==>
        a < |Run(es).asks| && !Run(es).asks[a].Selected?
  {
    EveryRequestIsWhereItWent(es);
    hide Run, Looks;
  }

  /** A request looked up while the session was idle is refused only for the handler, for its choice, or
      because the session has ended; no turn that ends concerns it. */
  lemma IdleRequestsOutliveTurns(es: seq<Event>, a: nat)
    requires a < |Offers(es)|
    ensures
      var looks := Looks(es, a);
      |looks| >= 3 && !looks[0].session.active && looks[1].ok && !looks[2].session.expired && !looks[2].session.out.stop
      && looks[2].choice.Some? && looks[2].choice.value in Offers(es)[a] ==>
        && a < |Run(es).asks| && Run(es).asks[a].Selected? && Run(es).asks[a].choice == looks[2].choice.value
  {
    var looks := Looks(es, a);
    if |looks| >= 3 && looks[2].choice.Some? {
      SelectedIff(es, a, looks[2].choice.value);
    }
    EveryRequestIsWhereItWent(es);
    hide Run, Looks;
  }

  /** However a turn ended, a request that was looked up in it and has no choice yet never gets one. */
  lemma ApprovalsEndWithTheirTurn(es: seq<Event>, more: seq<Event>, a: nat)
    requires a < |Offers(es)| && |Looks(es, a)| >= 2 && Looks(es, a)[0].session.active
    requires
      var u := Looks(es, a)[1].session.turn;
      1 <= u <= Run(es).turn && !TurnLaws.RunningTurn(Run(es), u)
    requires a < |Run(es).asks| && !Run(es).asks[a].Selected?
    ensures a < |Run(es + more).asks| && !Run(es + more).asks[a].Selected?
  {
    EveryRequestIsWhereItWent(es);
    TurnLaws.EndedTurnRefuses(es, more, a, Looks(es, a)[1].session.turn) by {
      assert TurnLaws.Held(Run(es), a, OfTurn(Looks(es, a)[1].session.turn)) by {
        hide Run, Looks;
      }
    }
    hide Run, Looks;
  }
}
