/** The phase of a connection read off the events of a run: who wrote it last decides. */
module PhaseLaws {
  import opened Prelude
  import opened Connection

  /** What an event does about the phase: an update that signs in or asks for authentication, one that
      begins authenticating, a failure, a disconnect, or nothing. */
  datatype Mark = SignsIn | AsksForIt | Authenticates | Fails | Leaves | Nothing

  /** An update ends that found the connection live. */
  predicate Completes(s: State, e: Event) {
    e.EndUpdate? && s.writer.Some? && !s.phase.Failed? && !s.phase.Exited? && !s.phase.Disconnected?
  }

  /** A completed initialization or authentication signs in. A logout, a refused authentication and a challenge
      ask for authentication, but a challenge met by another call while an authentication is under way is
      left to that one. */
  function MarkOf(s: State, e: Event): Mark {
    if Completes(s, e) then
      var u := s.writer.value;
      if u == Initialized || u == AuthenticationDone then SignsIn
      else if u == AuthenticationBegun then Authenticates
      else if u == Challenged(false) && s.phase == Authenticating then Nothing
      else AsksForIt
    else if e == FailedStep && s.failing == Judged && s.writer.None? && s.phase != Disconnected then Fails
    else if e == DisconnectCall && s.writer.None? then Leaves
    else Nothing
  }

  /** The phase such an event leaves. */
  function Shown(m: Mark): Option<Phase> {
    match m
    case SignsIn => Some(Connected)
    case AsksForIt => Some(AuthenticationRequired)
    case Authenticates => Some(Authenticating)
    case Fails => Some(Failed)
    case Leaves => Some(Disconnected)
    case Nothing => None
  }

  lemma MarksMove(s: State, e: Event)
    ensures Step(s, e).phase == if Shown(MarkOf(s, e)).Some? then Shown(MarkOf(s, e)).value else s.phase
  {
    hide Advanced, Dropped, Relocked, Retabled;
  }

  ghost predicate MarkedAt(es: seq<Event>, i: nat, p: Phase) {
    i < |es| && Shown(MarkOf(Run(es[..i]), es[i])) == Some(p)
  }

  /** Event `i` leaves phase `p`, and no later event another one. */
  ghost predicate LastAt(es: seq<Event>, i: nat, p: Phase) {
    MarkedAt(es, i, p) && forall j: nat, q | i < j && MarkedAt(es, j, q) :: q == p
  }

  lemma EarlierMark(es: seq<Event>, i: nat, p: Phase)
    requires es != [] && i < |es| - 1
    ensures MarkedAt(es, i, p) <==> MarkedAt(es[..|es| - 1], i, p)
  {
    assert es[..|es| - 1][..i] == es[..i];
  }

  lemma MarksOf(es: seq<Event>)
    requires es != []
    ensures
      var init := es[..|es| - 1];
      forall i: nat, q :: MarkedAt(es, i, q)
        <==> MarkedAt(init, i, q) || (i == |init| && Shown(MarkOf(Run(init), es[|init|])) == Some(q))
  {
    hide Run, MarkOf, Shown;
    var init := es[..|es| - 1];
    forall i: nat, q | i < |init|
      ensures MarkedAt(es, i, q) <==> MarkedAt(init, i, q)
    {
      EarlierMark(es, i, q);
    }
  }

  lemma NewMark(es: seq<Event>, p: Phase, q: Phase)
    requires es != [] && MarkedAt(es, |es| - 1, q)
    ensures (exists i: nat :: LastAt(es, i, p)) <==> p == q
  {
    if i: nat :| LastAt(es, i, p) {
      if i < |es| - 1 {
        assert q == p;
      }
    }
    assert LastAt(es, |es| - 1, q);
  }

  lemma NoNewMark(es: seq<Event>, init: seq<Event>, p: Phase)
    requires forall i: nat, q :: MarkedAt(es, i, q) <==> MarkedAt(init, i, q)
    ensures (exists i: nat :: LastAt(es, i, p)) <==> exists i: nat :: LastAt(init, i, p)
  {
    hide MarkedAt;
    assert forall i: nat :: LastAt(es, i, p) <==> LastAt(init, i, p);
  }

  /** A phase other than the first is shown exactly when the last event that marked the phase at all left it;
      the first is shown as long as there is no such event. */
  lemma {:induction false} PhaseIff(es: seq<Event>, p: Phase)
    ensures Run(es).phase == p <==>
              (exists i: nat :: LastAt(es, i, p))
              || (p == Initializing && forall i: nat, q :: !MarkedAt(es, i, q))
  {
    if es != [] {
      var init, e := es[..|es| - 1], es[|es| - 1];
      PhaseIff(init, p);
      MarksMove(Run(init), e);
      assert Run(es) == Step(Run(init), e) by { hide Step; }
      MarksOf(es);
      hide Run, Step, MarkOf, MarkedAt, LastAt;
      var shown := Shown(MarkOf(Run(init), e));
      if shown.Some? {
        assert MarkedAt(es, |init|, shown.value);
        NewMark(es, p, shown.value);
      } else {
        NoMarkBeyond(init);
        NoNewMark(es, init, p);
      }
    } else {
      assert forall i: nat, q :: !MarkedAt(es, i, q);
    }
  }

  lemma NoMarkBeyond(es: seq<Event>)
    ensures forall i: nat, q | |es| <= i :: !MarkedAt(es, i, q)
  {}

  /** After a logout, a refused authentication or a challenge that asked for authentication, the connection is
      not connected until an initialization or an authentication completes. */
  lemma NotConnectedUntilSignedIn(es: seq<Event>, i: nat)
    requires MarkedAt(es, i, AuthenticationRequired)
    requires forall j: nat | i < j :: !MarkedAt(es, j, Connected)
    ensures !Run(es).phase.Connected?
  {
    PhaseIff(es, Connected);
    hide Run, MarkOf;
  }

  /** What one update makes of a live phase. A challenge to the authentication call itself ends it; a challenge
      to another call meanwhile does not. */
  lemma UpdateMakes(es: seq<Event>, u: Update)
    requires !Run(es).stop && Run(es).writer.None?
    requires !Run(es).phase.Failed? && !Run(es).phase.Exited? && !Run(es).phase.Disconnected?
    ensures
      var p := Run(es + [BeginUpdate(u)] + [EndUpdate]).phase;
      match u
      case Initialized => p == Connected
      case AuthenticationDone => p == Connected
      case AuthenticationBegun => p == Authenticating
      case AuthenticationRefused => p == AuthenticationRequired
      case LoggedOut => p == AuthenticationRequired
      case Challenged(own) =>
        p == if Run(es).phase.Authenticating? && !own then Authenticating else AuthenticationRequired
  {
    RunSnoc(es, BeginUpdate(u));
    RunSnoc(es + [BeginUpdate(u)], EndUpdate);
    hide Run;
  }
}
