/** What a setup that failed leaves in the table of sessions. */
module Leftovers {
  import opened Prelude
  import opened Connection

  predicate Registered(s: State, k: nat)
    requires k < |s.setups|
  {
    s.setups[k].id in s.states && s.states[s.setups[k].id] == k
  }

  /** A setup that ended without a session has left one in the table only if the transport has failed
      or its caller went away while the session was being taken out. */
  predicate Tidy(s: State, k: nat)
    requires k < |s.setups|
  {
    var u := s.setups[k];
    && (Early(u.stage) || u.stage.Owning? || u.stage.Vouching? ==> !u.completed)
    && (u.abandoned ==> u.stage.Departing? || u.stage.Refused?)
    && (u.stage.Departing? && Registered(s, k) ==> !u.completed || u.abandoned)
    && (u.stage.Refused? && Registered(s, k) ==> s.failure || u.abandoned)
  }

  lemma AdvancedStaysTidy(s: State, k: nat, ok: bool, refused: bool, answer: SessionId)
    requires k < |s.setups| && Tidy(s, k) && (Early(s.setups[k].stage) ==> !Registered(s, k))
    requires s.setups[k].stage.Admitted? ==> forall id | id in s.states :: s.states[id] != k
    ensures Tidy(Moved(s, k, Advanced(s, s.setups[k], ok, refused, answer)), k)
  {
    hide Refusable, Relocked;
  }

  lemma DroppedStaysTidy(s: State, k: nat)
    requires k < |s.setups| && Tidy(s, k) && (Early(s.setups[k].stage) ==> !Registered(s, k))
    ensures Tidy(Moved(s, k, Dropped(s.setups[k])), k)
  {
    hide Refusable, Relocked;
  }

  /** A setup's step never registers another setup, and a failure stays. */
  lemma MoveSparesTidy(s: State, k: nat, v: Setup, j: nat)
    requires j < |s.setups| && k < |s.setups| && k != j && Tidy(s, j)
    ensures Tidy(Moved(s, k, v), j)
  {
    hide Relocked;
  }

  lemma RemovalSparesTidy(s: State, k: nat, j: nat)
    requires j < |s.setups| && k < |s.setups| && k != j && Tidy(s, j)
    ensures j < |Step(s, RemoveClosed(k)).setups| && Tidy(Step(s, RemoveClosed(k)), j)
  {
    hide Relocked;
  }

  lemma OthersStayTidy(s: State, e: Event, j: nat)
    requires j < |s.setups| && Tidy(s, j)
    requires (e.SetupStep? || e.AbandonSetup? || e.CloseSession? || e.RemoveClosed?) ==> e.k != j
    ensures j < |Step(s, e).setups| && Tidy(Step(s, e), j)
  {
    SetupsStay(s, e);
    hide Moved, Advanced, Dropped;
    if e.SetupStep? {
      if e.k < |s.setups| {
        MoveSparesTidy(s, e.k, Advanced(s, s.setups[e.k], e.ok, e.refused, e.answer), j);
      }
    } else if e.AbandonSetup? {
      if e.k < |s.setups| {
        MoveSparesTidy(s, e.k, Dropped(s.setups[e.k]), j);
      }
    } else if e.CloseSession? {
      if e.k < |s.setups| {
        MoveSparesTidy(s, e.k, s.setups[e.k].(stage := Shut), j);
      }
    } else if e.RemoveClosed? {
      if e.k < |s.setups| {
        RemovalSparesTidy(s, e.k, j);
      }
    }
  }

  lemma EarlyIsOut(s: State, k: nat)
    requires Table(s.states, s.setups) && k < |s.setups| && Early(s.setups[k].stage)
    ensures forall id | id in s.states :: s.states[id] != k
  {}

  lemma CloseStaysTidy(s: State, e: Event)
    requires (e.CloseSession? || e.RemoveClosed?) && e.k < |s.setups| && Tidy(s, e.k)
    ensures Tidy(Step(s, e), e.k)
  {
    hide Refusable, Relocked;
  }

  lemma SetupsStay(s: State, e: Event)
    ensures |s.setups| <= |Step(s, e).setups|
  {
    hide Advanced, Dropped, Relocked, Retabled;
  }

  lemma TidyStays(s: State, e: Event, k: nat)
    requires Sound(s) && k < |s.setups| && Tidy(s, k)
    ensures k < |Step(s, e).setups| && Tidy(Step(s, e), k)
  {
    SetupsStay(s, e);
    hide Gates, Fits, Table, Drainage, Moved, Advanced, Dropped, Tidy;
    if e.SetupStep? && e.k == k {
      if Early(s.setups[k].stage) {
        EarlyIsOut(s, k);
      }
      AdvancedStaysTidy(s, k, e.ok, e.refused, e.answer);
    } else if e.AbandonSetup? && e.k == k {
      if Early(s.setups[k].stage) {
        EarlyIsOut(s, k);
      }
      DroppedStaysTidy(s, k);
    } else if (e.CloseSession? || e.RemoveClosed?) && e.k == k {
      CloseStaysTidy(s, e);
    } else {
      OthersStayTidy(s, e, k);
    }
  }

  lemma StepKeepsTidy(s: State, e: Event)
    requires Sound(s) && forall k: nat | k < |s.setups| :: Tidy(s, k)
    ensures forall k: nat | k < |Step(s, e).setups| :: Tidy(Step(s, e), k)
  {
    forall k: nat | k < |Step(s, e).setups|
      ensures Tidy(Step(s, e), k)
    {
      if k < |s.setups| {
        hide Sound, Step, Tidy;
        TidyStays(s, e, k);
      } else {
        hide Sound, Moved, Advanced, Dropped;
        NewIsTidy(s, e, k);
      }
    }
  }

  lemma NewIsTidy(s: State, e: Event, k: nat)
    requires |s.setups| <= k < |Step(s, e).setups|
    ensures Tidy(Step(s, e), k)
  {
    hide Relocked, Retabled, Advanced, Dropped;
  }

  lemma {:induction false} EveryRunIsTidy(es: seq<Event>)
    ensures forall k: nat | k < |Run(es).setups| :: Tidy(Run(es), k)
  {
    hide Step, Sound, Tidy;
    if es != [] {
      EveryRunIsTidy(es[..|es| - 1]);
      EveryRunIsSound(es[..|es| - 1]);
      StepKeepsTidy(Run(es[..|es| - 1]), es[|es| - 1]);
    }
  }

  // ---------------------------------------------------------------- exactly when

  /** Setup `k` has its session in the table: it was registered and not yet handed over or undone. */
  predicate Owns(s: State, k: nat) {
    k < |s.setups| && (s.setups[k].stage.Owning? || s.setups[k].stage.Vouching?)
  }

  /** Since it was registered, setup `k` has lost its entry only by a drain, by its close or by undoing
      it. */
  ghost predicate Kept(s: State, k: nat) {
    && k < |s.setups|
    && var u := s.setups[k];
       && !Early(u.stage)
       && (u.abandoned ==> u.stage.Departing? || u.stage.Refused?)
       && (SomeDrained(s) || Registered(s, k) || u.stage.Gone? || (Ended(u.stage) && !u.abandoned))
  }

  predicate Ended(g: Stage) {
    g.Departing? || g.Refused?
  }

  lemma OwnMoveKeeps(s: State, k: nat, v: Setup)
    requires Kept(s, k) && Passage(s, s.setups[k], v) && (v.abandoned ==> Ended(v.stage))
    requires Fits(s, k)
    requires Ended(s.setups[k].stage) ==> Ended(v.stage) && v.abandoned == s.setups[k].abandoned
    requires s.setups[k].stage.Gone? ==> v.stage.Gone?
    ensures Kept(Moved(s, k, v), k)
  {
    assert SomeDrained(s) ==> SomeDrained(Moved(s, k, v));
    hide Refusable, Relocked, SomeDrained, HasGate;
  }

  lemma AdvancedGoesOn(s: State, u: Setup, ok: bool, refused: bool, answer: SessionId)
    ensures
      var v := Advanced(s, u, ok, refused, answer);
      && v.abandoned == u.abandoned && (Ended(u.stage) ==> Ended(v.stage)) && (u.stage.Gone? ==> v.stage.Gone?)
  {
    hide Refusable, Excused;
  }

  lemma OwnStepKeeps(s: State, e: Event, k: nat)
    requires Sound(s) && Kept(s, k)
    requires (e.SetupStep? || e.AbandonSetup? || e.CloseSession? || e.RemoveClosed?) && e.k == k
    ensures Kept(Step(s, e), k)
  {
    var u := s.setups[k];
    assert Fits(s, k);
    hide Sound, Fits, Gates, Table, Drainage, Moved;
    if e.SetupStep? {
      AdvancedGoesOn(s, u, e.ok, e.refused, e.answer);
      KeptIsPast(s, k);
      AdvancedPasses(s, u, e.ok, e.refused, e.answer);
      OwnMoveKeeps(s, k, Advanced(s, u, e.ok, e.refused, e.answer));
    } else if e.AbandonSetup? {
      DroppedPasses(s, u);
      OwnMoveKeeps(s, k, Dropped(u));
    } else if e.CloseSession? {
      if u.stage.Handed? {
        OwnMoveKeeps(s, k, u.(stage := Shut));
      }
    } else {
      ClosingKeeps(s, k);
    }
  }

  lemma KeptIsPast(s: State, k: nat)
    requires Kept(s, k)
    ensures !s.setups[k].stage.Unowned?
  {}

  lemma ClosingKeeps(s: State, k: nat)
    requires Kept(s, k)
    ensures Kept(Step(s, RemoveClosed(k)), k)
  {
    hide Relocked, SomeDrained;
  }

  lemma OtherStepKeeps(s: State, e: Event, k: nat)
    requires Sound(s) && Kept(s, k)
    requires (e.SetupStep? || e.AbandonSetup? || e.CloseSession? || e.RemoveClosed?) ==> e.k != k
    ensures Kept(Step(s, e), k)
  {
    if SomeDrained(s) {
      DrainStays(s, e);
    }
    if Registered(s, k) {
      EntryStays(s, e, s.setups[k].id);
    }
    SetupIsItsOwn(s, e, k);
    hide Step, Sound, SomeDrained;
  }

  lemma SetupIsItsOwn(s: State, e: Event, k: nat)
    requires k < |s.setups|
    requires (e.SetupStep? || e.AbandonSetup? || e.CloseSession? || e.RemoveClosed?) ==> e.k != k
    ensures k < |Step(s, e).setups| && Step(s, e).setups[k] == s.setups[k]
  {
    hide Advanced, Dropped, Relocked, Retabled;
  }

  lemma {:induction false} OwnerIsKept(es: seq<Event>, i: nat, k: nat)
    requires i <= |es| && Owns(Run(es[..i]), k)
    ensures Kept(Run(es), k)
    decreases |es|
  {
    if i == |es| {
      assert es[..i] == es;
      EveryRunIsSound(es);
      EveryRunIsTidy(es);
      hide Run, Step;
      assert Fits(Run(es), k) && Tidy(Run(es), k);
    } else {
      hide Step, Sound, Kept;
      var init, e := es[..|es| - 1], es[|es| - 1];
      assert init[..i] == es[..i];
      OwnerIsKept(init, i, k);
      EveryRunIsSound(init);
      if (e.SetupStep? || e.AbandonSetup? || e.CloseSession? || e.RemoveClosed?) && e.k == k {
        OwnStepKeeps(Run(init), e, k);
      } else {
        OtherStepKeeps(Run(init), e, k);
      }
    }
  }

  /** Whoever is in the table has been registered. */
  lemma {:induction false} RegisteredWasOwner(es: seq<Event>, k: nat) returns (i: nat)
    requires k < |Run(es).setups| && Registered(Run(es), k)
    ensures i <= |es| && Owns(Run(es[..i]), k)
  {
    assert es != [];
    var init, e := es[..|es| - 1], es[|es| - 1];
    EveryRunIsSound(init);
    EveryRunIsSound(es);
    RegistrationIsOwning(Run(init), e, k);
    hide Step, Sound, Registered, Owns;
    if k < |Run(init).setups| && Registered(Run(init), k) {
      i := RegisteredWasOwner(init, k);
      assert init[..i] == es[..i];
    } else {
      i := |es|;
      assert es[..i] == es;
    }
  }

  /** Only a registration adds to the table. */
  lemma TableGrowsByOwning(s: State, e: Event, id: SessionId)
    requires id in Step(s, e).states
    ensures
      var t := Step(s, e);
      (id in s.states && s.states[id] == t.states[id]) || Owns(t, t.states[id])
  {
    hide Refusable, Relocked;
  }

  lemma RegistrationIsOwning(s: State, e: Event, k: nat)
    requires Sound(s) && k < |Step(s, e).setups| && Registered(Step(s, e), k)
    ensures (k < |s.setups| && Registered(s, k)) || Owns(Step(s, e), k)
  {
    var id := Step(s, e).setups[k].id;
    TableGrowsByOwning(s, e, id);
    hide Step, Gates, Fits, Drainage;
  }

  /** While the transport lives, a setup that ended with an error has left its session in the table
      exactly when it had been registered and its caller dropped it in the middle of undoing. */
  lemma LeftBehindIff(es: seq<Event>, k: nat)
    requires k < |Run(es).setups| && Run(es).setups[k].stage.Refused? && !Run(es).failure
    ensures Registered(Run(es), k)
            <==> Run(es).setups[k].abandoned && exists i: nat :: i <= |es| && Owns(Run(es[..i]), k)
  {
    EveryRunIsTidy(es);
    DrainedHasFailed(es);
    if Registered(Run(es), k) {
      var i := RegisteredWasOwner(es, k);
      assert Tidy(Run(es), k);
    }
    if i: nat :| i <= |es| && Owns(Run(es[..i]), k) {
      OwnerIsKept(es, i, k);
    }
  }

  /** Every disconnect past its announcement has failed the transport. */
  ghost predicate AnnouncedFails(s: State) {
    forall d | 0 <= d < |s.disconnects| && !s.disconnects[d].Announced? :: s.failure
  }

  lemma StepAnnounces(s: State, e: Event)
    requires AnnouncedFails(s)
    ensures AnnouncedFails(Step(s, e))
  {
    hide Advanced, Dropped, Relocked, Retabled;
  }

  /** A disconnect drains only after it has failed the transport. */
  lemma {:induction false} DrainedHasFailed(es: seq<Event>)
    ensures AnnouncedFails(Run(es))
  {
    if es != [] {
      hide Step, AnnouncedFails;
      DrainedHasFailed(es[..|es| - 1]);
      StepAnnounces(Run(es[..|es| - 1]), es[|es| - 1]);
    }
  }

  const SAVED := SessionId("saved")
  const NEXT := SetupStep(0, true, false, SAVED)

  /** A restore of `SAVED` on a connected transport, alone. */
  function Restoring(g: Stage, states: map<SessionId, nat>): State {
    INITIAL.(phase := Connected, states := states, setups := [Setup(true, SAVED, 7, g, g.Undoing?, false)],
             gate := if HasGate(g) then Some(0) else None, lock := if HasLock(g) then Some(0) else None)
  }

  lemma RestoreBegins() returns (es: seq<Event>)
    ensures Run(es) == Restoring(Queued, map[])
  {
    RunSnoc([], BeginUpdate(Initialized));
    RunSnoc([] + [BeginUpdate(Initialized)], EndUpdate);
    RunSnoc([] + [BeginUpdate(Initialized)] + [EndUpdate], StartSetup(true, SAVED, 7));
    es := [] + [BeginUpdate(Initialized)] + [EndUpdate] + [StartSetup(true, SAVED, 7)];
    assert Run([]) == INITIAL;
    hide Run;
  }

  function Onward(g: Stage): Stage {
    match g
    case Queued => Gated
    case Gated => Live
    case Live => Welcome
    case Welcome => Unowned
    case Unowned => Identified
    case Identified => Locked
    case Locked => Probed
    case _ => Cleared
  }

  lemma RestoreGoesOn(es: seq<Event>, g: Stage) returns (longer: seq<Event>)
    requires Run(es) == Restoring(g, map[]) && Early(g) && !g.Admitted? && !g.Answered? && !g.Cleared?
    ensures Run(longer) == Restoring(Onward(g), map[])
  {
    longer := es + [NEXT];
    RunSnoc(es, NEXT);
    hide Run;
  }

  /** The case of `LeftBehindIff` is real: a restore that the agent refused and whose caller is
      lost while it is undone keeps its slot, although the transport lives and nobody has the session. */
  lemma AbandonedRestoreKeepsItsSlot() returns (es: seq<Event>)
    ensures
      var s := Run(es);
      && !s.failure && s.phase.Connected? && s.gate.None? && |s.setups| == 1
      && s.setups[0].stage.Refused? && Registered(s, 0)
  {
    hide Run, Restoring;
    es := RestoreBegins();
    es := RestoreGoesOn(es, Queued);
    es := RestoreGoesOn(es, Gated);
    es := RestoreGoesOn(es, Live);
    es := RestoreGoesOn(es, Welcome);
    es := RestoreGoesOn(es, Unowned);
    es := RestoreGoesOn(es, Identified);
    es := RestoreGoesOn(es, Locked);
    es := RestoreGoesOn(es, Probed);
    es := RestoreIsRefused(es);
    es := RestoreIsLost(es);
  }

  lemma RestoreIsRefused(es: seq<Event>) returns (longer: seq<Event>)
    requires Run(es) == Restoring(Cleared, map[])
    ensures Run(longer) == Restoring(Undoing, map[SAVED := 0])
  {
    RunSnoc(es, NEXT);
    longer := es + [NEXT] + [SetupStep(0, false, true, SAVED)];
    RunSnoc(es + [NEXT], SetupStep(0, false, true, SAVED));
    hide Run, Step;
    RestoreOwns();
    OwnerIsRefused();
  }

  lemma RestoreOwns()
    ensures Step(Restoring(Cleared, map[]), NEXT) == Restoring(Owning, map[SAVED := 0])
  {}

  lemma OwnerIsRefused()
    ensures
      Step(Restoring(Owning, map[SAVED := 0]), SetupStep(0, false, true, SAVED)) == Restoring(Undoing, map[SAVED := 0])
  {}

  lemma RestoreIsLost(es: seq<Event>) returns (longer: seq<Event>)
    requires Run(es) == Restoring(Undoing, map[SAVED := 0])
    ensures
      var s := Run(longer);
      && !s.failure && s.phase.Connected? && s.gate.None? && |s.setups| == 1
      && s.setups[0].stage.Refused? && Registered(s, 0)
  {
    RunSnoc(es, AbandonSetup(0));
    longer := es + [AbandonSetup(0)] + [NEXT];
    RunSnoc(es + [AbandonSetup(0)], NEXT);
    hide Run;
  }
}
