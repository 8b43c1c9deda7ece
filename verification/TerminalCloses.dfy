/** When closing a session leaves no terminal behind: the sweep comes first and the end of the session's
    lifetime afterwards, and what happens in between decides. */
module TerminalCloses {
  import opened Prelude
  import opened Terminals

  /** Event `e` puts a terminal of the session into the table. */
  predicate Inserts(s: State, e: Event, session: nat) {
    e.Create? && e.k < |s.creations| && s.creations[e.k].stage.Passed? && s.creations[e.k].session == session
  }

  /** Event `e` takes terminal `k` of the session out of the table. */
  predicate TakesOut(s: State, e: Event, session: nat, k: nat) {
    s.lock.None? && (e == Release(k) || e == Sweep(session) || e.SweepAll?)
  }

  predicate Passing(s: State, session: nat) {
    exists k :: 0 <= k < |s.creations| && s.creations[k].session == session && s.creations[k].stage.Passed?
  }

  /** The session has no terminal and, whatever happens, never gets one. */
  ghost predicate CleanForGood(es: seq<Event>, session: nat) {
    forall more: seq<Event> :: Of(Run(es + more).table, session) == {}
  }

  lemma InsertionShows(s: State, e: Event, session: nat)
    requires Inserts(s, e, session)
    ensures e.k in Of(Step(s, e).table, session)
  {}

  lemma InsertionOnly(s: State, e: Event, session: nat, k: nat)
    requires Locked(s) && e.Create?
    ensures k in Of(Step(s, e).table, session) <==> k in Of(s.table, session) || (Inserts(s, e, session) && e.k == k)
  {
    hide Ended;
  }

  /** How one event changes whether a terminal of the session is in the table. */
  lemma TableStep(s: State, e: Event, session: nat, k: nat)
    requires Locked(s)
    ensures k in Of(Step(s, e).table, session)
            <==> || (k in Of(s.table, session) && !TakesOut(s, e, session, k))
                 || (Inserts(s, e, session) && e.k == k)
  {
    if e.Create? {
      InsertionOnly(s, e, session, k);
      hide Step, Of, Inserts;
    } else {
      hide Ended, Locked;
    }
  }

  /** Event `i` of what follows `es` puts terminal `k` of the session into the table, and it stays. */
  ghost predicate InsertsAt(es: seq<Event>, mid: seq<Event>, i: nat, session: nat, k: nat) {
    && i < |mid| && Inserts(Run(es + mid[..i]), mid[i], session) && mid[i].k == k
    && forall j: nat | i < j < |mid| :: !TakesOut(Run(es + mid[..j]), mid[j], session, k)
  }

  lemma EarlierInsertion(es: seq<Event>, mid: seq<Event>, i: nat, session: nat, k: nat)
    requires mid != [] && i < |mid| - 1
    ensures
      var init := mid[..|mid| - 1];
      InsertsAt(es, mid, i, session, k)
      <==> InsertsAt(es, init, i, session, k) && !TakesOut(Run(es + init), mid[|init|], session, k)
  {
    hide Run, Inserts, TakesOut;
    var init := mid[..|mid| - 1];
    assert forall j | 0 <= j <= |init| :: init[..j] == mid[..j];
    assert init[..|init|] == init;
    if InsertsAt(es, init, i, session, k) && !TakesOut(Run(es + init), mid[|init|], session, k) {
      forall j: nat | i < j < |mid|
        ensures !TakesOut(Run(es + mid[..j]), mid[j], session, k)
      {
        if j < |init| {
          assert !TakesOut(Run(es + init[..j]), init[j], session, k);
        }
      }
    }
    if InsertsAt(es, mid, i, session, k) {
      forall j: nat | i < j < |init|
        ensures !TakesOut(Run(es + init[..j]), init[j], session, k)
      {
        assert !TakesOut(Run(es + mid[..j]), mid[j], session, k);
      }
      assert !TakesOut(Run(es + mid[..|init|]), mid[|init|], session, k);
    }
  }

  /** From an empty table on, a terminal of the session is there exactly when it was inserted since and has
      not been taken out again. */
  lemma {:induction false} InTableIff(es: seq<Event>, mid: seq<Event>, session: nat, k: nat)
    requires Of(Run(es).table, session) == {}
    ensures k in Of(Run(es + mid).table, session) <==> exists i: nat :: InsertsAt(es, mid, i, session, k)
    decreases |mid|
  {
    if mid == [] {
      assert es + mid == es;
      hide Run, Of, Inserts, TakesOut;
    } else {
      var init, e := mid[..|mid| - 1], mid[|mid| - 1];
      InTableIff(es, init, session, k);
      RunConcat(es, mid);
      EveryRunIsSound(es + init);
      TableStep(Run(es + init), e, session, k);
      LastInsertion(es, mid, session, k);
      hide Run, Step, Of, Inserts, TakesOut, InsertsAt;
    }
  }

  lemma EmptyIff(es: seq<Event>, mid: seq<Event>, session: nat)
    requires Of(Run(es).table, session) == {}
    ensures Of(Run(es + mid).table, session) == {} <==> forall i: nat, k: nat :: !InsertsAt(es, mid, i, session, k)
  {
    hide Run, Of, InsertsAt;
    if i: nat, k: nat :| InsertsAt(es, mid, i, session, k) {
      InTableIff(es, mid, session, k);
    } else if Of(Run(es + mid).table, session) != {} {
      var k :| k in Of(Run(es + mid).table, session);
      InTableIff(es, mid, session, k);
    }
  }

  lemma LastInsertion(es: seq<Event>, mid: seq<Event>, session: nat, k: nat)
    requires mid != []
    ensures
      var init, e := mid[..|mid| - 1], mid[|mid| - 1];
      (exists i: nat :: InsertsAt(es, mid, i, session, k))
      <==> || ((exists i: nat :: InsertsAt(es, init, i, session, k)) && !TakesOut(Run(es + init), e, session, k))
           || (Inserts(Run(es + init), e, session) && e.k == k)
  {
    hide Run, Inserts, TakesOut, InsertsAt;
    var init := mid[..|mid| - 1];
    InsertedLast(es, mid, session, k);
    if i: nat :| InsertsAt(es, mid, i, session, k) {
      InsertionBounds(es, mid, i, session, k);
      if i < |init| {
        EarlierInsertion(es, mid, i, session, k);
      }
    }
    if i: nat :| InsertsAt(es, init, i, session, k) {
      InsertionBounds(es, init, i, session, k);
      EarlierInsertion(es, mid, i, session, k);
    }
  }

  lemma InsertedLast(es: seq<Event>, mid: seq<Event>, session: nat, k: nat)
    requires mid != []
    ensures
      var init, e := mid[..|mid| - 1], mid[|mid| - 1];
      InsertsAt(es, mid, |init|, session, k) <==> Inserts(Run(es + init), e, session) && e.k == k
  {
    hide Run, TakesOut;
    assert mid[..|mid| - 1][..|mid| - 1] == mid[..|mid| - 1];
  }

  lemma InsertionBounds(es: seq<Event>, mid: seq<Event>, i: nat, session: nat, k: nat)
    requires InsertsAt(es, mid, i, session, k)
    ensures i < |mid|
  {}

  /** Once a session has ended, it stays without terminals for good exactly when it has none and no
      creation of its own has passed its last look at the token. */
  lemma CleanForGoodIff(es: seq<Event>, session: nat)
    requires Ended(Run(es), session)
    ensures CleanForGood(es, session) <==> Of(Run(es).table, session) == {} && !Passing(Run(es), session)
  {
    assert es + [] == es;
    if Passing(Run(es), session) {
      var k: nat :|
        k < |Run(es).creations| && Run(es).creations[k].session == session && Run(es).creations[k].stage.Passed?;
      RunSnoc(es, Create(k, true));
      InsertionShows(Run(es), Create(k, true), session);
    } else if Of(Run(es).table, session) == {} {
      forall more: seq<Event>
        ensures Of(Run(es + more).table, session) == {}
      {
        StaysClean(es, more, session);
      }
    } else {
      assert Of(Run(es + []).table, session) != {};
    }
    hide Run, Of;
  }

  lemma {:induction false} StaysClean(es: seq<Event>, more: seq<Event>, session: nat)
    requires Ended(Run(es), session) && Of(Run(es).table, session) == {} && !Passing(Run(es), session)
    ensures NonePassed(Run(es + more), session) && Of(Run(es + more).table, session) == {}
    decreases |more|
  {
    hide Step, Of;
    if more == [] {
      assert es + more == es;
      hide Run;
    } else {
      StaysClean(es, more[..|more| - 1], session);
      RunConcat(es, more);
      hide Run, NonePassed;
      EndedStepShrinks(Run(es + more[..|more| - 1]), more[|more| - 1], session);
    }
  }

  /** A close: the sweep, whatever happens in between, and the end of the session's lifetime. */
  function Close(es: seq<Event>, mid: seq<Event>, session: nat): seq<Event> {
    es + [Sweep(session)] + mid + [Expire(session)]
  }

  lemma SweepEmpties(es: seq<Event>, session: nat)
    requires Run(es).lock.None?
    ensures Of(Run(es + [Sweep(session)]).table, session) == {}
  {
    RunSnoc(es, Sweep(session));
    hide Run;
  }

  lemma ExpiryEnds(es: seq<Event>, session: nat)
    ensures
      var s, t := Run(es), Run(es + [Expire(session)]);
      Ended(t, session) && t.table == s.table && t.creations == s.creations
  {
    RunSnoc(es, Expire(session));
    hide Run;
  }

  /** A close leaves no terminal, now or later, exactly when each one that a creation of the session puts
      into the table between its sweep and its end is taken out again before its end, and then none is past
      its last look at the token. */
  lemma CloseIsCleanIff(es: seq<Event>, mid: seq<Event>, session: nat)
    requires Run(es).lock.None?
    ensures
      var swept := es + [Sweep(session)];
      CleanForGood(Close(es, mid, session), session)
      <==> (forall i: nat, k: nat :: !InsertsAt(swept, mid, i, session, k)) && !Passing(Run(swept + mid), session)
  {
    var swept := es + [Sweep(session)];
    SweepEmpties(es, session);
    ExpiryEnds(swept + mid, session);
    CleanForGoodIff(Close(es, mid, session), session);
    EmptyIff(swept, mid, session);
    hide Run, Of, CleanForGood, InsertsAt, Passing, Ended;
  }

  // ---------------------------------------------------------------- a guard for the caller

  /** No creation of the session is under way. */
  predicate Idle(s: State, session: nat) {
    forall k | 0 <= k < |s.creations| && s.creations[k].session == session :: s.creations[k].stage.Over?
  }

  lemma IdleStays(s: State, e: Event, session: nat)
    requires Idle(s, session) && Of(s.table, session) == {} && e != Approve(session)
    ensures Idle(Step(s, e), session) && Of(Step(s, e).table, session) == {}
  {
    hide Ended;
  }

  lemma {:induction false} IdleRuns(es: seq<Event>, mid: seq<Event>, session: nat)
    requires Idle(Run(es), session) && Of(Run(es).table, session) == {} && Approve(session) !in mid
    ensures Idle(Run(es + mid), session) && Of(Run(es + mid).table, session) == {}
    decreases |mid|
  {
    hide Step, Idle, Of;
    if mid == [] {
      assert es + mid == es;
    } else {
      assert forall x <- mid[..|mid| - 1] :: x in mid;
      IdleRuns(es, mid[..|mid| - 1], session);
      RunConcat(es, mid);
      hide Run;
      IdleStays(Run(es + mid[..|mid| - 1]), mid[|mid| - 1], session);
    }
  }

  /** So a close is clean if no command of the session is being started at its sweep and none is approved
      before its end, whatever else happens. */
  lemma IdleCloseIsClean(es: seq<Event>, mid: seq<Event>, session: nat)
    requires Run(es).lock.None? && Idle(Run(es), session) && Approve(session) !in mid
    ensures CleanForGood(Close(es, mid, session), session)
  {
    SweepEmpties(es, session);
    RunSnoc(es, Sweep(session));
    assert Idle(Run(es + [Sweep(session)]), session) by { hide Of; }
    IdleRuns(es + [Sweep(session)], mid, session);
    ExpiryEnds(es + [Sweep(session)] + mid, session);
    CleanForGoodIff(Close(es, mid, session), session);
    hide Run, Of, CleanForGood;
  }
}
