/** The table of agent terminals: approved creations that hold its lock while they spawn, releases,
    and the sweeps with which sessions and connections end.

    An event that is not enabled leaves the state as it is, so every sequence of events is a run. */
module Terminals {
  import opened Prelude

  const MAX_TERMINALS: nat := 64
  const MAX_PER_SESSION: nat := 16

  /** `Spawned` has its process and still looks at its token; `Passed` found it live. */
  datatype Stage = Approved | Holding | Spawned | Passed | Over

  datatype Creation = Creation(session: nat, stage: Stage)

  /** `table` holds terminals by their creation. `expired` are the sessions whose lifetime ended; tokens
      of all sessions are children of `stop`. `sealed` are the sessions swept after they had ended. */
  datatype State = State(
    table: map<nat, nat>,
    lock: Option<nat>,
    creations: seq<Creation>,
    expired: set<nat>,
    stop: bool,
    sealed: set<nat>,
    closed: bool)

  const INITIAL := State(map[], None, [], {}, false, {}, false)

  datatype Event =
    | Approve(session: nat)
    | Create(k: nat, ok: bool)
    | Abandon(k: nat)
    | Release(k: nat)
    | Expire(session: nat)
    | Sweep(session: nat)
    | Stop
    | SweepAll

  function Of(table: map<nat, nat>, session: nat): set<nat> {
    set k | k in table && table[k] == session
  }

  /** Whatever token the session hands out now is dead. */
  predicate Ended(s: State, session: nat) {
    s.stop || session in s.expired
  }

  predicate HasLock(g: Stage) {
    g.Holding? || g.Spawned? || g.Passed?
  }

  function With(s: State, k: nat, stage: Stage): State
    requires k < |s.creations|
  {
    s.(creations := s.creations[k := s.creations[k].(stage := stage)])
  }

  /** The progress of creation `k`; `ok` says that spawning works and that a turn's token is live. */
  function StepCreate(s: State, k: nat, ok: bool): State
    requires k < |s.creations|
  {
    var c := s.creations[k];
    match c.stage
    case Approved => if s.lock.None? then With(s, k, Holding).(lock := Some(k)) else s
    case Holding =>
      if !ok || |s.table| >= MAX_TERMINALS || |Of(s.table, c.session)| >= MAX_PER_SESSION then
        With(s, k, Over).(lock := None)
      else With(s, k, Spawned)
    case Spawned =>
      if !ok || Ended(s, c.session) then With(s, k, Over).(lock := None) else With(s, k, Passed)
    case Passed => With(s, k, Over).(lock := None, table := s.table[k := c.session])
    case Over => s
  }

  function Step(s: State, e: Event): State {
    match e
    case Approve(session) => s.(creations := s.creations + [Creation(session, Approved)])
    case Create(k, ok) => if k < |s.creations| then StepCreate(s, k, ok) else s
    case Abandon(k) =>
      if k < |s.creations| && s.creations[k].stage.Approved? then With(s, k, Over)
      else if k < |s.creations| && s.creations[k].stage.Holding? then With(s, k, Over).(lock := None)
      else s
    case Release(k) => if s.lock.None? then s.(table := s.table - {k}) else s
    case Expire(session) => s.(expired := s.expired + {session})
    case Sweep(session) =>
      if s.lock.Some? then s
      else
        s.(table := s.table - Of(s.table, session),
           sealed := if Ended(s, session) then s.sealed + {session} else s.sealed)
    case Stop => s.(stop := true)
    case SweepAll => if s.lock.Some? then s else s.(table := map[], closed := s.closed || s.stop)
  }

  function Run(es: seq<Event>): State {
    if es == [] then INITIAL else Step(Run(es[..|es| - 1]), es[|es| - 1])
  }

  lemma RunSnoc(es: seq<Event>, e: Event)
    ensures Run(es + [e]) == Step(Run(es), e)
  {
    hide Step;
    assert (es + [e])[..|es|] == es;
  }

  // ---------------------------------------------------------------- limits

  ghost predicate Locked(s: State) {
    forall k: nat | k < |s.creations| ::
      && (HasLock(s.creations[k].stage) ==> s.lock == Some(k))
      && (!s.creations[k].stage.Over? ==> k !in s.table)
  }

  /** There is room for the creation that has been counted. */
  ghost predicate Room(s: State, k: nat)
    requires k < |s.creations|
  {
    s.creations[k].stage.Spawned? || s.creations[k].stage.Passed? ==>
      |s.table| < MAX_TERMINALS && |Of(s.table, s.creations[k].session)| < MAX_PER_SESSION
  }

  ghost predicate Limited(s: State) {
    && |s.table| <= MAX_TERMINALS
    && (forall session: nat :: |Of(s.table, session)| <= MAX_PER_SESSION)
    && forall k: nat | k < |s.creations| :: Room(s, k)
  }

  /** Nothing more can enter for a session that was swept after it ended. */
  ghost predicate Quiet(s: State, session: nat) {
    && Ended(s, session)
    && Of(s.table, session) == {}
    && forall k: nat | k < |s.creations| :: s.creations[k].session == session ==> !s.creations[k].stage.Passed?
  }

  ghost predicate Sealed(s: State) {
    && (forall session | session in s.sealed :: Quiet(s, session))
    && (s.closed ==> s.stop && s.table == map[] && forall k: nat | k < |s.creations| :: !s.creations[k].stage.Passed?)
  }

  lemma SmallerTable(s: State, t: State)
    requires Limited(s) && t.table.Keys <= s.table.Keys && forall k | k in t.table :: t.table[k] == s.table[k]
    ensures |t.table| <= MAX_TERMINALS && forall session: nat :: Of(t.table, session) <= Of(s.table, session)
    ensures forall session: nat :: |Of(t.table, session)| <= |Of(s.table, session)|
    ensures |t.table| <= |s.table|
  {
    SubsetSize(t.table, s.table);
    forall session: nat
      ensures |Of(t.table, session)| <= |Of(s.table, session)|
    {
      SetSize(Of(t.table, session), Of(s.table, session));
    }
  }

  lemma CreateKeepsLocks(s: State, k: nat, ok: bool)
    requires Locked(s) && k < |s.creations|
    ensures Locked(StepCreate(s, k, ok))
  {
    hide Of;
  }

  lemma OfInserted(table: map<nat, nat>, k: nat, owner: nat, session: nat)
    requires k !in table
    ensures Of(table[k := owner], session) == Of(table, session) + if session == owner then {k} else {}
    ensures k !in Of(table, session)
  {}

  lemma InsertKeepsLimits(s: State, k: nat)
    requires Locked(s) && Limited(s) && k < |s.creations| && s.creations[k].stage.Passed?
    ensures Limited(StepCreate(s, k, true))
  {
    var t, c := StepCreate(s, k, true), s.creations[k];
    assert Room(s, k);
    assert |t.table| == |s.table| + 1;
    hide Of;
    forall session: nat
      ensures |Of(t.table, session)| <= MAX_PER_SESSION
    {
      OfInserted(s.table, k, c.session, session);
      assert |Of(s.table, session)| <= MAX_PER_SESSION;
    }
    forall j: nat | j < |t.creations|
      ensures Room(t, j)
    {
      assert j != k ==> !HasLock(s.creations[j].stage);
    }
  }

  lemma CreateKeepsLimits(s: State, k: nat, ok: bool)
    requires Locked(s) && Limited(s) && k < |s.creations|
    ensures Limited(StepCreate(s, k, ok))
  {
    if s.creations[k].stage.Passed? {
      InsertKeepsLimits(s, k);
    } else {
      var t := StepCreate(s, k, ok);
      assert t.table == s.table;
      hide Of;
      forall j: nat | j < |t.creations|
        ensures Room(t, j)
      {
        assert Room(s, j);
      }
    }
  }

  lemma CreateKeepsSeals(s: State, k: nat, ok: bool)
    requires Locked(s) && Sealed(s) && k < |s.creations|
    ensures Sealed(StepCreate(s, k, ok))
  {
    var t, c := StepCreate(s, k, ok), s.creations[k];
    forall session | session in t.sealed
      ensures Quiet(t, session)
    {
      assert Quiet(s, session);
      if c.stage.Passed? {
        OfInserted(s.table, k, c.session, session);
      }
    }
  }

  /** Terminals are numbered by their creations. */
  ghost predicate Numbered(s: State) {
    forall k | k in s.table :: k < |s.creations|
  }

  ghost predicate Sound(s: State) {
    Locked(s) && Limited(s) && Sealed(s)
  }

  lemma ShrinkKeeps(s: State, t: State)
    requires Sound(s) && t.creations == s.creations && t.lock == s.lock
    requires t.table.Keys <= s.table.Keys && forall k | k in t.table :: t.table[k] == s.table[k]
    requires (s.stop ==> t.stop) && s.expired <= t.expired
    requires forall session | session in t.sealed && session !in s.sealed ::
      t.lock.None? && Ended(t, session) && Of(t.table, session) == {}
    requires t.closed ==> s.closed || (t.lock.None? && t.stop && t.table == map[])
    ensures Sound(t)
  {
    SmallerTable(s, t);
    hide Of;
    assert Limited(t) by {
      forall session: nat
        ensures |Of(t.table, session)| <= MAX_PER_SESSION
      {
        assert |Of(s.table, session)| <= MAX_PER_SESSION;
      }
      forall k: nat | k < |t.creations|
        ensures Room(t, k)
      {
        assert Room(s, k);
      }
    }
    hide Limited;
    forall session | session in t.sealed
      ensures Quiet(t, session)
    {
      assert session in s.sealed ==> Quiet(s, session);
    }
  }

  lemma DropKeeps(s: State, k: nat)
    requires Sound(s) && k < |s.creations|
    ensures Sound(Step(s, Abandon(k)))
  {
    hide Of;
    var t := Step(s, Abandon(k));
    assert t.table == s.table;
    forall j: nat | j < |t.creations|
      ensures Room(t, j)
    {
      assert Room(s, j);
    }
    forall session | session in t.sealed
      ensures Quiet(t, session)
    {
      assert Quiet(s, session);
    }
  }

  lemma ApproveKeeps(s: State, session: nat)
    requires Sound(s) && Numbered(s)
    ensures Sound(Step(s, Approve(session)))
  {
    hide Of;
    var t := Step(s, Approve(session));
    forall j: nat | j < |t.creations|
      ensures Room(t, j)
    {
      assert j < |s.creations| ==> Room(s, j);
    }
    forall other | other in t.sealed
      ensures Quiet(t, other)
    {
      assert Quiet(s, other);
    }
  }

  lemma StepKeepsNumbers(s: State, e: Event)
    requires Numbered(s)
    ensures Numbered(Step(s, e))
  {
    hide Of, Ended;
  }

  lemma SweepKeeps(s: State, e: Event)
    requires Sound(s) && (e.Release? || e.Expire? || e.Sweep? || e.Stop? || e.SweepAll?)
    ensures Sound(Step(s, e))
  {
    hide Sound;
    ShrinkKeeps(s, Step(s, e));
  }

  lemma StepKeeps(s: State, e: Event)
    requires Sound(s) && Numbered(s)
    ensures Sound(Step(s, e)) && Numbered(Step(s, e))
  {
    StepKeepsNumbers(s, e);
    hide Numbered;
    if e.Create? && e.k < |s.creations| {
      hide StepCreate, Limited, Sealed, Locked;
      CreateKeepsLocks(s, e.k, e.ok);
      CreateKeepsLimits(s, e.k, e.ok);
      CreateKeepsSeals(s, e.k, e.ok);
    } else if e.Approve? {
      hide Sound, Step;
      ApproveKeeps(s, e.session);
    } else if e.Abandon? && e.k < |s.creations| {
      hide Sound, Step;
      DropKeeps(s, e.k);
    } else if !e.Create? && !e.Abandon? {
      hide Sound, Step;
      SweepKeeps(s, e);
    }
  }

  lemma {:induction false} EveryRunIsSound(es: seq<Event>)
    ensures Sound(Run(es)) && Numbered(Run(es))
  {
    hide Step, Sound;
    if es == [] {
      NothingYet();
    } else {
      hide Numbered;
      EveryRunIsSound(es[..|es| - 1]);
      StepKeeps(Run(es[..|es| - 1]), es[|es| - 1]);
    }
  }

  lemma NothingYet()
    ensures Sound(INITIAL)
  {}

  /** There are never more than 64 terminals, nor more than 16 of one session. */
  lemma TerminalsAreLimited(es: seq<Event>, session: nat)
    ensures |Run(es).table| <= MAX_TERMINALS && |Of(Run(es).table, session)| <= MAX_PER_SESSION
  {
    EveryRunIsSound(es);
    hide Run, Of;
  }

  // ---------------------------------------------------------------- what a sweep leaves

  lemma RunConcat(es: seq<Event>, more: seq<Event>)
    requires more != []
    ensures Run(es + more) == Step(Run(es + more[..|more| - 1]), more[|more| - 1])
  {
    hide Step;
    ConcatLast(es, more);
  }

  lemma CreateSealsNothing(s: State, k: nat, ok: bool)
    requires k < |s.creations|
    ensures StepCreate(s, k, ok).sealed == s.sealed && StepCreate(s, k, ok).closed == s.closed
  {
    hide Of, Ended;
  }

  lemma SealsStay(s: State, e: Event)
    ensures s.sealed <= Step(s, e).sealed && (s.closed ==> Step(s, e).closed)
  {
    hide Of, Ended, StepCreate;
    if e.Create? && e.k < |s.creations| {
      CreateSealsNothing(s, e.k, e.ok);
    }
  }

  lemma {:induction false} SealedStays(es: seq<Event>, more: seq<Event>, session: nat)
    ensures session in Run(es).sealed ==> session in Run(es + more).sealed
    ensures Run(es).closed ==> Run(es + more).closed
    decreases |more|
  {
    hide Step;
    if more == [] {
      assert es + more == es;
    } else {
      SealedStays(es, more[..|more| - 1], session);
      RunConcat(es, more);
      hide Run;
      SealsStay(Run(es + more[..|more| - 1]), more[|more| - 1]);
    }
  }

  /** A session swept after its lifetime ended never has a terminal again, as when a restore fails. */
  lemma SweptAfterTheEnd(es: seq<Event>, session: nat, more: seq<Event>)
    requires Ended(Run(es), session) && Run(es).lock.None?
    ensures Of(Run(es + [Sweep(session)] + more).table, session) == {}
  {
    RunSnoc(es, Sweep(session));
    assert session in Run(es + [Sweep(session)]).sealed by { hide Of; }
    SealedStays(es + [Sweep(session)], more, session);
    EveryRunIsSound(es + [Sweep(session)] + more);
    hide Run, Of;
    assert Quiet(Run(es + [Sweep(session)] + more), session);
  }

  /** A connection swept after it stopped never has a terminal again, as when it is disconnected. */
  lemma SweptAfterTheStop(es: seq<Event>, more: seq<Event>)
    requires Run(es).stop && Run(es).lock.None?
    ensures Run(es + [SweepAll] + more).table == map[]
  {
    RunSnoc(es, SweepAll);
    SealedStays(es + [SweepAll], more, 0);
    EveryRunIsSound(es + [SweepAll] + more);
    hide Run;
  }

  ghost predicate NonePassed(s: State, session: nat) {
    Ended(s, session)
    && forall k: nat | k < |s.creations| :: s.creations[k].session == session ==> !s.creations[k].stage.Passed?
  }

  lemma EndedStepShrinks(s: State, e: Event, session: nat)
    requires NonePassed(s, session)
    ensures NonePassed(Step(s, e), session) && Of(Step(s, e).table, session) <= Of(s.table, session)
  {}

  /** Once a session has ended and no creation holds the lock, its terminals only go away: what a close
      leaves behind is among what was in the table at the moment the lifetime ended. */
  lemma {:induction false} EndedOnlyShrinks(es: seq<Event>, more: seq<Event>, session: nat)
    requires Ended(Run(es), session) && Run(es).lock.None?
    ensures NonePassed(Run(es + more), session) && Of(Run(es + more).table, session) <= Of(Run(es).table, session)
    decreases |more|
  {
    hide Step, Of;
    if more == [] {
      assert es + more == es;
      EveryRunIsSound(es);
      hide Run;
    } else {
      EndedOnlyShrinks(es, more[..|more| - 1], session);
      RunConcat(es, more);
      hide Run, NonePassed;
      EndedStepShrinks(Run(es + more[..|more| - 1]), more[|more| - 1], session);
    }
  }

  const LATE := [Approve(0), Sweep(0), Create(0, true), Create(0, true), Create(0, true), Create(0, true), Expire(0)]

  /** Closing a session sweeps first and ends its lifetime afterwards, so a command approved before can
      start in between and its terminal stays in the table of a closed session. */
  lemma ClosingCanLeaveATerminal()
    ensures
      var s := Run(LATE);
      Ended(s, 0) && s.lock.None? && Of(s.table, 0) == {0} && s.creations == [Creation(0, Over)]
  {
    LateEnds();
  }

  lemma LateBegins()
    ensures Run(LATE[..4]) == INITIAL.(lock := Some(0), creations := [Creation(0, Spawned)])
  {
    RunSnoc([], Approve(0));
    RunSnoc([] + [Approve(0)], Sweep(0));
    RunSnoc([] + [Approve(0)] + [Sweep(0)], Create(0, true));
    RunSnoc([] + [Approve(0)] + [Sweep(0)] + [Create(0, true)], Create(0, true));
    assert LATE[..4] == [] + [Approve(0)] + [Sweep(0)] + [Create(0, true)] + [Create(0, true)];
    assert Run([]) == INITIAL;
    hide Run;
    assert Of(map[], 0) == {};
  }

  lemma LateEnds()
    ensures Run(LATE) == INITIAL.(table := map[0 := 0], creations := [Creation(0, Over)], expired := {0})
  {
    LateBegins();
    var es := LATE[..4];
    RunSnoc(es, Create(0, true));
    RunSnoc(es + [Create(0, true)], Create(0, true));
    RunSnoc(es + [Create(0, true)] + [Create(0, true)], Expire(0));
    assert LATE == es + [Create(0, true)] + [Create(0, true)] + [Expire(0)];
    hide Run;
  }
}
