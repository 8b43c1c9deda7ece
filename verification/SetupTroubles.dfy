/** What can go wrong with a setup, stage by stage, and whether its caller's owner then fails the transport. */
module SetupTroubles {
  import opened Prelude
  import opened Connection
  import Leftovers

  /** The errors a setup meets: the transport is closed; the connection is not connected; the id or the thread is
      taken, or 64 sessions are there; the options or the answer are no good; the agent or the session said no;
      or nobody knows what the agent did. */
  datatype Trouble = Closed | NotConnected(phase: Phase) | Taken | Invalid | No | Unknown

  predicate NoRoom(s: State, u: Setup) {
    || |s.states| >= 64
    || exists id :: id in s.states && s.states[id] < |s.setups| && s.setups[s.states[id]].thread == u.thread
  }

  function ClosedIf(s: State): Option<Trouble> {
    if s.stop then Some(Closed) else None
  }

  function NotConnectedIf(s: State): Option<Trouble> {
    if s.phase.Connected? then None else Some(NotConnected(s.phase))
  }

  /** The setup waits for a lock that somebody else has. */
  predicate Waits(s: State, u: Setup) {
    match u.stage
    case Queued => s.gate.Some?
    case Welcome => u.restore && s.lock.Some?
    case Unowned => s.lock.Some?
    case Answered => s.lock.Some?
    case Identified => s.lock.Some?
    case Undoing => s.lock.Some?
    case _ => false
  }

  /** What goes wrong with a setup at its next step, if anything does. */
  function Met(s: State, u: Setup, ok: bool, refused: bool): Option<Trouble> {
    match u.stage
    case Gated => ClosedIf(s)
    case Live => NotConnectedIf(s)
    case Welcome => if !ok then Some(Invalid) else if u.restore && u.id in s.states then Some(Taken) else None
    case Unowned => if !ok then Some(Invalid) else if NoRoom(s, u) then Some(Taken) else None
    case Admitted => if ok then None else if refused then Some(No) else Some(Unknown)
    case Answered => if !ok then Some(Invalid) else if u.id in s.states then Some(Taken) else None
    case Locked => ClosedIf(s)
    case Probed => NotConnectedIf(s)
    case Cleared => if u.id in s.states || NoRoom(s, u) then Some(Taken) else None
    case Owning => if ok then ClosedIf(s) else Some(if refused && u.restore then No else Unknown)
    case Vouching => NotConnectedIf(s)
    case _ => None
  }

  /** The caller has an owner whose drop fails the transport. */
  predicate Armed(g: Stage) {
    g.Admitted? || g.Answered? || g.Identified? || g.Locked? || g.Probed? || g.Cleared? || g.Owning? || g.Vouching?
  }

  /** A restore spares the transport whenever the error is neither a timeout nor a closed connection; a creation
      only when the agent itself refused the call. */
  predicate Spares(restore: bool, trouble: Trouble) {
    match trouble
    case No => true
    case Taken => restore
    case NotConnected(phase) => restore && (phase.AuthenticationRequired? || phase.Authenticating?)
    case _ => false
  }

  lemma RoomIs(s: State, u: Setup)
    ensures Refusable(s, u) <==> NoRoom(s, u)
  {}

  predicate AsksItself(u: Setup) {
    u.stage.Admitted? || u.stage.Answered?
  }

  lemma StepAsks(s: State, e: Event, k: nat)
    requires k < |Step(s, e).setups|
    requires forall j: nat | j < |s.setups| && AsksItself(s.setups[j]) :: !s.setups[j].restore
    ensures AsksItself(Step(s, e).setups[k]) ==> !Step(s, e).setups[k].restore
  {
    if e.SetupStep? && e.k < |s.setups| {
      MovesAsk(s, s.setups[e.k], e.ok, e.refused, e.answer);
      hide Advanced;
    } else if e.AbandonSetup? && e.k < |s.setups| {
      MovesAsk(s, s.setups[e.k], true, true, s.setups[e.k].id);
      hide Dropped;
    }
    hide Relocked, Retabled, Refusable, Excused;
  }

  lemma MovesAsk(s: State, u: Setup, ok: bool, refused: bool, answer: SessionId)
    requires AsksItself(u) ==> !u.restore
    ensures AsksItself(Advanced(s, u, ok, refused, answer)) ==> !Advanced(s, u, ok, refused, answer).restore
    ensures AsksItself(Dropped(u)) ==> !Dropped(u).restore
  {
    hide Refusable, Excused;
  }

  /** Only a creation asks the agent before it registers its session. */
  lemma {:induction false} OnlyCreationsAsk(es: seq<Event>)
    ensures forall k: nat | k < |Run(es).setups| && AsksItself(Run(es).setups[k]) :: !Run(es).setups[k].restore
  {
    if es != [] {
      OnlyCreationsAsk(es[..|es| - 1]);
      hide Step, AsksItself;
      forall k: nat | k < |Run(es).setups|
        ensures AsksItself(Run(es).setups[k]) ==> !Run(es).setups[k].restore
      {
        StepAsks(Run(es[..|es| - 1]), es[|es| - 1], k);
      }
    }
  }

  /** Where trouble takes a setup. */
  function Leaving(u: Setup, trouble: Trouble): Setup {
    if !Armed(u.stage) then u.(stage := Refused)
    else u.(stage := if u.restore then Undoing else Departing, completed := Spares(u.restore, trouble))
  }

  /** One step of a setup in trouble, on values. */
  lemma Troubled(s: State, u: Setup, ok: bool, refused: bool, answer: SessionId)
    requires Met(s, u, ok, refused).Some? && !u.completed && !Waits(s, u) && (AsksItself(u) ==> !u.restore)
    ensures Advanced(s, u, ok, refused, answer) == Leaving(u, Met(s, u, ok, refused).value)
  {
    RoomIs(s, u);
    hide Refusable, NoRoom;
  }

  lemma LeavingGivesBack(s: State, k: nat, trouble: Trouble)
    requires k < |s.setups| && !s.setups[k].stage.Undoing? && !s.setups[k].stage.Departing?
    requires HasGate(s.setups[k].stage)
    ensures
      var u, v := s.setups[k], Leaving(s.setups[k], trouble);
      && Moved(s, k, v).states == s.states && Moved(s, k, v).failure == s.failure
      && Moved(s, k, v).setups == s.setups[k := v] && Moved(s, k, v).phase == s.phase
      && (!Armed(u.stage) ==> Moved(s, k, v).gate.None?)
      && (HasLock(u.stage) ==> Moved(s, k, v).lock.None?)
  {}

  /** A setup that meets trouble leaves, with the table as it was and the gate and lock it held given back: at
      once if the agent has not been asked yet; otherwise through its owner, which fails the transport unless it
      is spared. */
  lemma ATroubledSetupLeaves(es: seq<Event>, k: nat, ok: bool, refused: bool, answer: SessionId)
    requires k < |Run(es).setups| && !Waits(Run(es), Run(es).setups[k])
    requires Met(Run(es), Run(es).setups[k], ok, refused).Some?
    ensures
      var s, t := Run(es), Run(es + [SetupStep(k, ok, refused, answer)]);
      var u, trouble := s.setups[k], Met(s, s.setups[k], ok, refused).value;
      && t.states == s.states && t.failure == s.failure && t.phase == s.phase
      && t.setups == s.setups[k := Leaving(u, trouble)]
      && (!Armed(u.stage) ==> t.gate.None?)
      && (HasLock(u.stage) ==> t.lock.None?)
  {
    var e := SetupStep(k, ok, refused, answer);
    var s := Run(es);
    RunSnoc(es, e);
    Leftovers.EveryRunIsTidy(es);
    OnlyCreationsAsk(es);
    hide Run, Met, Leaving, Step, Leftovers.Tidy, Waits;
    assert Leftovers.Tidy(s, k);
    TroubledStep(s, k, e);
    InHand(s, s.setups[k], ok, refused);
    LeavingGivesBack(s, k, Met(s, s.setups[k], ok, refused).value);
  }

  lemma TroubledStep(s: State, k: nat, e: Event)
    requires e.SetupStep? && e.k == k < |s.setups| && Leftovers.Tidy(s, k) && !Waits(s, s.setups[k])
    requires AsksItself(s.setups[k]) ==> !s.setups[k].restore
    requires Met(s, s.setups[k], e.ok, e.refused).Some?
    ensures Step(s, e) == Moved(s, k, Leaving(s.setups[k], Met(s, s.setups[k], e.ok, e.refused).value))
  {
    Uncompleted(s, k, e.ok, e.refused);
    Troubled(s, s.setups[k], e.ok, e.refused, e.answer);
    hide Advanced, Met, Leaving, Moved, Waits;
  }

  lemma InHand(s: State, u: Setup, ok: bool, refused: bool)
    requires Met(s, u, ok, refused).Some?
    ensures HasGate(u.stage) && !u.stage.Undoing? && !u.stage.Departing?
  {
    hide NoRoom;
  }

  /** The owner's drop fails the transport unless it was spared. */
  lemma AnOwnerLeaves(es: seq<Event>, k: nat, ok: bool, refused: bool, answer: SessionId)
    requires k < |Run(es).setups| && Run(es).setups[k].stage.Departing?
    ensures
      var s, t := Run(es), Run(es + [SetupStep(k, ok, refused, answer)]);
      && t.states == s.states && t.gate.None? && t.failure == (s.failure || !s.setups[k].completed)
      && t.setups == s.setups[k := s.setups[k].(stage := Refused)]
  {
    RunSnoc(es, SetupStep(k, ok, refused, answer));
    hide Run;
  }

  lemma Uncompleted(s: State, k: nat, ok: bool, refused: bool)
    requires k < |s.setups| && Leftovers.Tidy(s, k) && Met(s, s.setups[k], ok, refused).Some?
    ensures !s.setups[k].completed
  {
    hide NoRoom;
  }

  /** The stage after `u`'s. */
  function Onward(u: Setup): Stage {
    match u.stage
    case Queued => Gated
    case Gated => Live
    case Live => Welcome
    case Welcome => Unowned
    case Unowned => if u.restore then Identified else Admitted
    case Admitted => Answered
    case Answered => Identified
    case Identified => Locked
    case Locked => Probed
    case Probed => Cleared
    case Cleared => Owning
    case Owning => Vouching
    case _ => Handed
  }

  lemma Untroubled(s: State, u: Setup, ok: bool, refused: bool)
    requires Armed(u.stage) || u.stage in {Queued, Gated, Live, Welcome, Unowned}
    requires Met(s, u, ok, refused).None?
    ensures Next(s, u, ok) == if Waits(s, u) then u.stage else Onward(u)
  {
    RoomIs(s, u);
    hide Refusable, NoRoom;
  }

  /** A setup that meets no trouble waits for whoever is in its way, and goes on to its next stage if nobody is;
      its session enters the table as it leaves its last check. */
  lemma AnUntroubledSetupGoesOn(es: seq<Event>, k: nat, ok: bool, refused: bool, answer: SessionId)
    requires k < |Run(es).setups|
    requires
      var g := Run(es).setups[k].stage;
      Armed(g) || g in {Queued, Gated, Live, Welcome, Unowned}
    requires Met(Run(es), Run(es).setups[k], ok, refused).None?
    ensures
      var s, t := Run(es), Run(es + [SetupStep(k, ok, refused, answer)]);
      var u := s.setups[k];
      && k < |t.setups| && t.setups[k].stage == (if Waits(s, u) then u.stage else Onward(u))
      && t.failure == s.failure && t.states == if u.stage.Cleared? then s.states[u.id := k] else s.states
  {
    RunSnoc(es, SetupStep(k, ok, refused, answer));
    var s := Run(es);
    hide Run;
    Untroubled(s, s.setups[k], ok, refused);
    hide Met, Next, Excused;
  }

  /** A caller may go away while it waits, or while the agent or the clean-up is at work. Before the agent is asked
      nothing but the gate changes; while a restore is being taken out, it stays in. */
  lemma AnAbandonedSetupLeaves(es: seq<Event>, k: nat)
    requires k < |Run(es).setups|
    ensures
      var s, t, u := Run(es), Run(es + [AbandonSetup(k)]), Run(es).setups[k];
      && t.states == s.states && t.failure == s.failure && t.phase == s.phase
      && t.setups == s.setups[k :=
           if u.stage in {Queued, Unowned} then u.(stage := Refused)
           else if u.stage in {Admitted, Answered, Identified, Owning} then u.(stage := Departing)
           else if u.stage.Undoing? then u.(stage := Departing, abandoned := true)
           else u]
      && (u.stage.Unowned? ==> t.gate.None?)
  {
    RunSnoc(es, AbandonSetup(k));
    hide Run;
  }
}
