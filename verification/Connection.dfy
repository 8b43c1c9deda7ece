/** One connection's life: its phase, its stop token, the table of live sessions, and every call that
    creates, restores, closes or disconnects, interleaved between any two of their shared accesses.

    An event that is not enabled leaves the state as it is, so every sequence of events is a run. */
module Connection {
  import opened Prelude

  const MAX_SESSIONS: nat := 64

  datatype Phase =
    | Initializing
    | Connected
    | AuthenticationRequired
    | Authenticating
    | Failed
    | Exited
    | Disconnected

  predicate Terminal(p: Phase) {
    p.Failed? || p.Exited? || p.Disconnected?
  }

  datatype SessionId = SessionId(text: string)

  /** The late completions that want to write the phase. */
  datatype Update =
    | Initialized
    | Challenged(authenticating: bool)
    | AuthenticationBegun
    | AuthenticationDone
    | AuthenticationRefused
    | LoggedOut

  /** The phase an update writes, given the phase it finds. */
  function Updated(p: Phase, u: Update): Phase {
    match u
    case Initialized => Connected
    case Challenged(authenticating) => if p != Authenticating || authenticating then AuthenticationRequired else p
    case AuthenticationBegun => Authenticating
    case AuthenticationDone => Connected
    case AuthenticationRefused => AuthenticationRequired
    case LoggedOut => AuthenticationRequired
  }

  datatype Stage =
    | Queued
    | Gated
    | Live
    | Welcome
    | Unowned
    | Admitted
    | Answered
    | Identified
    | Locked
    | Probed
    | Cleared
    | Owning
    | Vouching
    | Undoing
    | Departing
    | Refused
    | Handed
    | Shut
    | Gone

  /** A call that creates or restores a session, and that session afterwards. `completed` disarms the
      owner whose drop fails the transport; `abandoned` records a caller lost while undoing. */
  datatype Setup = Setup(restore: bool, id: SessionId, thread: nat, stage: Stage, completed: bool, abandoned: bool)

  /** Where the one call that won `failed`'s swap is. */
  datatype FailStage = Unfailed | Swapped | Judged | Marked | Told

  datatype DisconnectStage = Announced | Reported | Drained

  /** `writer` is the update inside its block on the phase, past its look at the stop token. */
  datatype State = State(
    phase: Phase,
    writer: Option<Update>,
    failure: bool,
    stop: bool,
    failing: FailStage,
    gate: Option<nat>,
    lock: Option<nat>,
    states: map<SessionId, nat>,
    setups: seq<Setup>,
    disconnects: seq<DisconnectStage>)

  const INITIAL := State(Initializing, None, false, false, Unfailed, None, None, map[], [], [])

  datatype Event =
    | BeginUpdate(update: Update)
    | EndUpdate
    | FailedCall
    | FailedStep
    | TransportFails
    | StopSpreads
    | StartSetup(restore: bool, id: SessionId, thread: nat)
    | SetupStep(k: nat, ok: bool, refused: bool, answer: SessionId)
    | AbandonSetup(k: nat)
    | CloseSession(k: nat)
    | RemoveClosed(k: nat)
    | DisconnectCall
    | DisconnectStep(d: nat)

  /** A setup has the setup gate exactly in these stages, and the table's lock in those. */
  predicate HasGate(g: Stage) {
    !g.Queued? && !g.Refused? && !g.Handed? && !g.Shut? && !g.Gone?
  }

  predicate HasLock(g: Stage) {
    g.Locked? || g.Probed? || g.Cleared?
  }

  /** Another session of the table already has this thread. */
  predicate ThreadTaken(states: map<SessionId, nat>, setups: seq<Setup>, thread: nat) {
    exists id :: id in states && states[id] < |setups| && setups[states[id]].thread == thread
  }

  predicate Refusable(s: State, u: Setup) {
    ThreadTaken(s.states, s.setups, u.thread) || |s.states| >= MAX_SESSIONS
  }

  /** Where a setup goes when it fails: a restore first takes its session back out. */
  function Fallback(u: Setup): Stage {
    if u.restore then Undoing else Departing
  }

  /** The stage setup `u` moves to; `ok` resolves what the agent and the caller decide. */
  function Next(s: State, u: Setup, ok: bool): Stage {
    match u.stage
    case Queued => if s.gate.None? then Gated else Queued
    case Gated => if s.stop then Refused else Live
    case Live => if s.phase.Connected? then Welcome else Refused
    case Welcome =>
      if !ok then Refused
      else if u.restore && s.lock.Some? then Welcome
      else if u.restore && u.id in s.states then Refused
      else Unowned
    case Unowned =>
      if s.lock.Some? then Unowned
      else if !ok || Refusable(s, u) then Refused
      else if u.restore then Identified else Admitted
    case Admitted => if ok then Answered else Departing
    case Answered => if s.lock.Some? then Answered else if ok && u.id !in s.states then Identified else Departing
    case Identified => if s.lock.None? then Locked else Identified
    case Locked => if s.stop then Fallback(u) else Probed
    case Probed => if s.phase.Connected? then Cleared else Fallback(u)
    case Cleared => if u.id in s.states || Refusable(s, u) then Fallback(u) else Owning
    case Owning => if !ok || s.stop then Fallback(u) else Vouching
    case Vouching => if s.phase.Connected? then Handed else Fallback(u)
    case Undoing => if s.lock.None? then Departing else Undoing
    case Departing => Refused
    case stage => stage
  }

  /** Whether an error met at `u`'s stage disarms the owner: the agent refused, or the error is neither
      a timeout nor a closed connection. */
  predicate Excused(s: State, u: Setup, ok: bool, refused: bool) {
    match u.stage
    case Admitted => refused
    case Probed => u.restore && (s.phase.AuthenticationRequired? || s.phase.Authenticating?)
    case Cleared => u.restore
    case Owning => u.restore && !ok && refused
    case Vouching => u.restore && (s.phase.AuthenticationRequired? || s.phase.Authenticating?)
    case _ => u.completed
  }

  function Advanced(s: State, u: Setup, ok: bool, refused: bool, answer: SessionId): Setup {
    var g := Next(s, u, ok);
    u.(stage := g,
       id := if u.stage.Admitted? && g.Answered? then answer else u.id,
       completed := g.Handed? || (if g.Undoing? || g.Departing? then Excused(s, u, ok, refused) else u.completed))
  }

  /** The caller goes away at an `await`; nothing is undone any more. */
  function Dropped(u: Setup): Setup {
    match u.stage
    case Queued => u.(stage := Refused)
    case Unowned => u.(stage := Refused)
    case Admitted => u.(stage := Departing)
    case Answered => u.(stage := Departing)
    case Identified => u.(stage := Departing)
    case Owning => u.(stage := Departing)
    case Undoing => u.(stage := Departing, abandoned := true)
    case _ => u
  }

  /** A lock guard is released when it goes out of scope. */
  function Relocked(before: Option<nat>, had: bool, has: bool, k: nat): Option<nat> {
    if had == has then before else if has then Some(k) else None
  }

  /** Registering inserts the session; undoing removes whatever is under its id. */
  function Retabled(states: map<SessionId, nat>, k: nat, u: Setup, v: Setup): map<SessionId, nat> {
    if u.stage.Cleared? && v.stage.Owning? then states[u.id := k]
    else if u.stage.Undoing? && v.stage.Departing? && !v.abandoned then states - {u.id}
    else states
  }

  /** Setup `k` becomes `v`; an armed owner that ends fails the transport. */
  function Moved(s: State, k: nat, v: Setup): State
    requires k < |s.setups|
  {
    var u := s.setups[k];
    s.(setups := s.setups[k := v],
       gate := Relocked(s.gate, HasGate(u.stage), HasGate(v.stage), k),
       lock := Relocked(s.lock, HasLock(u.stage), HasLock(v.stage), k),
       states := Retabled(s.states, k, u, v),
       failure := s.failure || (u.stage.Departing? && v.stage.Refused? && !u.completed))
  }

  function StepFailed(s: State): State {
    match s.failing
    case Unfailed => s
    case Swapped => s.(failing := if s.phase.Disconnected? then Told else Judged)
    case Judged =>
      if s.writer.Some? then s
      else s.(failing := Marked, phase := if s.phase.Disconnected? then s.phase else Failed)
    case Marked => s.(failing := Told, failure := true)
    case Told => s
  }

  function StepDisconnect(s: State, d: nat): State
    requires d < |s.disconnects|
  {
    match s.disconnects[d]
    case Announced => s.(disconnects := s.disconnects[d := Reported], failure := true)
    case Reported =>
      if s.lock.None? then s.(disconnects := s.disconnects[d := Drained], states := map[]) else s
    case Drained => s
  }

  function Step(s: State, e: Event): State {
    match e
    case BeginUpdate(u) => if s.writer.None? && !s.stop then s.(writer := Some(u)) else s
    case EndUpdate =>
      if s.writer.None? then s
      else s.(writer := None, phase := if Terminal(s.phase) then s.phase else Updated(s.phase, s.writer.value))
    case FailedCall => if s.failing.Unfailed? then s.(failing := Swapped) else s
    case FailedStep => StepFailed(s)
    case TransportFails => s.(failure := true)
    case StopSpreads => if s.failure then s.(stop := true) else s
    case StartSetup(restore, id, thread) => s.(setups := s.setups + [Setup(restore, id, thread, Queued, false, false)])
    case SetupStep(k, ok, refused, answer) =>
      if k < |s.setups| then Moved(s, k, Advanced(s, s.setups[k], ok, refused, answer)) else s
    case AbandonSetup(k) => if k < |s.setups| then Moved(s, k, Dropped(s.setups[k])) else s
    case CloseSession(k) =>
      if k < |s.setups| && s.setups[k].stage.Handed? then Moved(s, k, s.setups[k].(stage := Shut)) else s
    case RemoveClosed(k) =>
      if k < |s.setups| && s.setups[k].stage.Shut? && s.lock.None? then
        Moved(s, k, s.setups[k].(stage := Gone)).(states := s.states - {s.setups[k].id})
      else s
    case DisconnectCall =>
      if s.writer.None? then s.(phase := Disconnected, disconnects := s.disconnects + [Announced]) else s
    case DisconnectStep(d) => if d < |s.disconnects| then StepDisconnect(s, d) else s
  }

  function Run(es: seq<Event>): State {
    if es == [] then INITIAL else Step(Run(es[..|es| - 1]), es[|es| - 1])
  }

  lemma RunSnoc(es: seq<Event>, e: Event)
    ensures Run(es + [e]) == Step(Run(es), e)
  {
    hide Step;
    assert (es + [e])[..|es|] == es;
  }

  lemma RunConcat(es: seq<Event>, more: seq<Event>)
    requires more != []
    ensures Run(es + more) == Step(Run(es + more[..|more| - 1]), more[|more| - 1])
  {
    hide Step;
    ConcatLast(es, more);
  }

  // ---------------------------------------------------------------- the phase

  /** How one step may move the phase: a terminal phase only to a terminal one, `Disconnected` not at
      all, and no live phase is written past the stop token unless its writer had already looked. */
  lemma PhaseMoves(s: State, e: Event)
    ensures
      var t := Step(s, e);
      && (Terminal(s.phase) ==> Terminal(t.phase))
      && (s.phase.Disconnected? ==> t.phase.Disconnected?)
      && (s.stop ==> t.stop)
      && (s.stop && s.writer.None? ==> t.writer.None? && (t.phase == s.phase || Terminal(t.phase)))
      && (s.writer.Some? && t.writer.Some? ==> t.writer == s.writer && t.phase == s.phase)
      && (s.writer.Some? && t.writer.None? ==>
            t.phase == if Terminal(s.phase) then s.phase else Updated(s.phase, s.writer.value))
  {
    hide Advanced, Dropped;
  }

  /** Failed, exited and disconnected connections never come back, and disconnecting is final. */
  lemma {:induction false} TerminalForGood(es: seq<Event>, more: seq<Event>)
    requires Terminal(Run(es).phase)
    ensures Terminal(Run(es + more).phase)
    ensures Run(es).phase.Disconnected? ==> Run(es + more).phase.Disconnected?
    decreases |more|
  {
    hide Step;
    if more == [] {
      assert es + more == es;
    } else {
      TerminalForGood(es, more[..|more| - 1]);
      RunConcat(es, more);
      PhaseMoves(Run(es + more[..|more| - 1]), more[|more| - 1]);
    }
  }

  /** What becomes of the phase once the transport has stopped. An update that had already looked at the
      stop token may still write, once, unless the phase has become terminal; while it is in its block
      nobody else writes, and after it nobody writes a live phase any more. */
  lemma {:induction false} StoppedTransport(es: seq<Event>, more: seq<Event>)
    requires Run(es).stop
    ensures
      var s, t := Run(es), Run(es + more);
      && t.stop
      && if s.writer.None? then t.writer.None? && (t.phase == s.phase || Terminal(t.phase))
         else if t.writer.Some? then t.writer == s.writer && t.phase == s.phase
         else Terminal(t.phase) || (!Terminal(s.phase) && t.phase == Updated(s.phase, s.writer.value))
    decreases |more|
  {
    hide Step;
    if more == [] {
      assert es + more == es;
    } else {
      StoppedTransport(es, more[..|more| - 1]);
      RunConcat(es, more);
      PhaseMoves(Run(es + more[..|more| - 1]), more[|more| - 1]);
    }
  }

  /** A transport that has stopped can come to another live phase exactly when an update that had looked at
      the stop token in time is in its block, on a phase that is not terminal and that it changes. */
  lemma RevivedIff(es: seq<Event>)
    requires Run(es).stop
    ensures
      var s := Run(es);
      (exists more :: !Terminal(Run(es + more).phase) && Run(es + more).phase != s.phase)
      <==> s.writer.Some? && !Terminal(s.phase) && Updated(s.phase, s.writer.value) != s.phase
  {
    var s := Run(es);
    if more :| !Terminal(Run(es + more).phase) && Run(es + more).phase != s.phase {
      StoppedTransport(es, more);
    }
    if s.writer.Some? && !Terminal(s.phase) && Updated(s.phase, s.writer.value) != s.phase {
      RunSnoc(es, EndUpdate);
      hide Run;
      assert Run(es + [EndUpdate]).phase == Updated(s.phase, s.writer.value);
    }
  }

  const LATE := [BeginUpdate(Initialized), TransportFails, StopSpreads, EndUpdate]

  /** That update is real: a transport that has failed and stopped becomes connected. */
  lemma AStoppedTransportCanConnect()
    ensures Run(LATE[..3]).stop && Run(LATE[..3]).phase.Initializing?
    ensures Run(LATE).stop && Run(LATE).phase.Connected?
  {
    RunSnoc([], BeginUpdate(Initialized));
    RunSnoc([] + [BeginUpdate(Initialized)], TransportFails);
    RunSnoc([] + [BeginUpdate(Initialized)] + [TransportFails], StopSpreads);
    assert LATE[..3] == [] + [BeginUpdate(Initialized)] + [TransportFails] + [StopSpreads];
    RunSnoc(LATE[..3], EndUpdate);
    assert LATE == LATE[..3] + [EndUpdate];
    assert Run([]) == INITIAL;
    hide Run;
  }

  // ---------------------------------------------------------------- the table of sessions

  /** The id has been found free and nothing of this setup is in the table yet. */
  predicate Entering(g: Stage) {
    g.Identified? || HasLock(g)
  }

  /** The session is in the table until somebody drains it. */
  predicate Settled(g: Stage) {
    g.Owning? || g.Vouching? || g.Handed? || g.Shut?
  }

  /** Taking the id out of the table is this setup's right: nobody else's session has it. */
  predicate Leaving(g: Stage) {
    g.Undoing?
  }

  ghost predicate SomeDrained(s: State) {
    exists d :: 0 <= d < |s.disconnects| && s.disconnects[d].Drained?
  }

  ghost predicate Gates(s: State) {
    forall k: nat | k < |s.setups| ::
      && (HasGate(s.setups[k].stage) ==> s.gate == Some(k))
      && (HasLock(s.setups[k].stage) ==> s.lock == Some(k))
  }

  /** Setup `k` fits the table. */
  ghost predicate Fits(s: State, k: nat)
    requires k < |s.setups|
  {
    var u := s.setups[k];
    && (u.restore && u.stage.Unowned? ==> u.id !in s.states)
    && (u.restore ==> !u.stage.Admitted? && !u.stage.Answered?)
    && (Entering(u.stage) ==> u.id !in s.states)
    && (Leaving(u.stage) ==> u.id in s.states ==> s.states[u.id] == k)
    && (Settled(u.stage) ==> (u.id in s.states && s.states[u.id] == k) || SomeDrained(s))
  }

  ghost predicate Table(states: map<SessionId, nat>, setups: seq<Setup>) {
    && |states| <= MAX_SESSIONS
    && (forall id | id in states ::
          states[id] < |setups| && setups[states[id]].id == id && !Early(setups[states[id]].stage))
    && (forall a, b | a in states && b in states && setups[states[a]].thread == setups[states[b]].thread :: a == b)
  }

  /** Nothing of this setup has entered the table. */
  predicate Early(g: Stage) {
    g.Queued? || g.Gated? || g.Live? || g.Welcome? || g.Unowned? || g.Admitted? || g.Answered? || Entering(g)
  }

  /** A drained table stays empty: nobody is past the check of the phase. */
  ghost predicate Drainage(s: State) {
    && (s.disconnects != [] ==> s.phase.Disconnected?)
    && (SomeDrained(s) ==> s.states == map[] && forall k: nat | k < |s.setups| :: !s.setups[k].stage.Cleared?)
  }

  ghost predicate Sound(s: State) {
    Gates(s) && (forall k: nat | k < |s.setups| :: Fits(s, k)) && Table(s.states, s.setups) && Drainage(s)
  }

  // ---------------------------------------------------------------- every step keeps it

  /** How a setup may move from `u` to `v`. */
  predicate Passage(s: State, u: Setup, v: Setup) {
    && v.thread == u.thread && v.restore == u.restore
    && (v.id != u.id ==> u.stage.Admitted? && v.stage.Answered?)
    && (HasGate(v.stage) && !HasGate(u.stage) ==> s.gate.None?)
    && (HasLock(v.stage) && !HasLock(u.stage) ==> s.lock.None?)
    && (Early(v.stage) ==> Early(u.stage))
    && (Entering(v.stage) ==> Entering(u.stage) || u.id !in s.states)
    && (u.restore && v.stage.Unowned? ==> u.stage.Unowned? || u.id !in s.states)
    && (u.restore && (v.stage.Admitted? || v.stage.Answered?) ==> u.stage.Admitted? || u.stage.Answered?)
    && (u.stage.Cleared? && v.stage.Owning? ==> u.id !in s.states && !Refusable(s, u))
    && (v.stage.Cleared? ==> u.stage.Cleared? || s.phase.Connected?)
    && (Leaving(v.stage) ==> Entering(u.stage) || Leaving(u.stage) || Settled(u.stage))
    && (Settled(v.stage) ==> Settled(u.stage) || (u.stage.Cleared? && v.stage.Owning?))
  }

  lemma AdvancedPasses(s: State, u: Setup, ok: bool, refused: bool, answer: SessionId)
    requires u.restore && u.stage.Unowned? ==> u.id !in s.states
    ensures Passage(s, u, Advanced(s, u, ok, refused, answer))
  {
    hide Refusable;
  }

  lemma DroppedPasses(s: State, u: Setup)
    ensures Passage(s, u, Dropped(u))
  {
    hide Refusable;
  }

  lemma MoveKeepsGates(s: State, k: nat, v: Setup)
    requires Gates(s) && k < |s.setups| && Passage(s, s.setups[k], v)
    ensures Gates(Moved(s, k, v))
  {
    hide Refusable;
  }

  lemma MoveKeepsFits(s: State, k: nat, v: Setup, j: nat)
    requires Gates(s) && Drainage(s) && k < |s.setups| && Passage(s, s.setups[k], v) && j < |s.setups|
    requires Fits(s, k) && Fits(s, j)
    ensures Fits(Moved(s, k, v), j)
  {
    hide Refusable;
    var t := Moved(s, k, v);
    assert SomeDrained(s) <==> SomeDrained(t);
    hide SomeDrained;
  }

  lemma UpdateSetup(states: map<SessionId, nat>, setups: seq<Setup>, k: nat, v: Setup)
    requires Table(states, setups) && k < |setups| && v.thread == setups[k].thread
    requires Early(setups[k].stage) || (v.id == setups[k].id && !Early(v.stage))
    ensures Table(states, setups[k := v])
  {}

  lemma InsertEntry(states: map<SessionId, nat>, setups: seq<Setup>, k: nat, id: SessionId)
    requires Table(states, setups) && k < |setups| && setups[k].id == id && !Early(setups[k].stage)
    requires id !in states && |states| < MAX_SESSIONS && !ThreadTaken(states, setups, setups[k].thread)
    ensures Table(states[id := k], setups)
  {
    assert states[id := k].Keys == states.Keys + {id};
  }

  lemma RemoveEntry(states: map<SessionId, nat>, setups: seq<Setup>, id: SessionId)
    requires Table(states, setups)
    ensures Table(states - {id}, setups)
  {
    SubsetSize(states - {id}, states);
  }

  lemma SameThreads(states: map<SessionId, nat>, setups: seq<Setup>, k: nat, v: Setup, thread: nat)
    requires k < |setups| && v.thread == setups[k].thread
    ensures ThreadTaken(states, setups[k := v], thread) <==> ThreadTaken(states, setups, thread)
  {
    var t := setups[k := v];
    if id :| id in states && states[id] < |t| && t[states[id]].thread == thread {
      assert setups[states[id]].thread == thread;
    }
    if id :| id in states && states[id] < |setups| && setups[states[id]].thread == thread {
      assert t[states[id]].thread == thread;
    }
  }

  lemma MoveKeepsTable(s: State, k: nat, v: Setup)
    requires Table(s.states, s.setups) && k < |s.setups| && Passage(s, s.setups[k], v)
    ensures Table(Moved(s, k, v).states, Moved(s, k, v).setups)
  {
    var u, setups := s.setups[k], s.setups[k := v];
    assert Early(u.stage) || (v.id == u.id && !Early(v.stage));
    UpdateSetup(s.states, s.setups, k, v);
    SameThreads(s.states, s.setups, k, v, u.thread);
    hide Table, ThreadTaken, Relocked;
    if u.stage.Cleared? && v.stage.Owning? {
      InsertEntry(s.states, setups, k, u.id);
    } else if u.stage.Undoing? && v.stage.Departing? && !v.abandoned {
      RemoveEntry(s.states, setups, u.id);
    }
  }

  lemma MoveKeepsDrainage(s: State, k: nat, v: Setup)
    requires Drainage(s) && k < |s.setups| && Passage(s, s.setups[k], v)
    ensures Drainage(Moved(s, k, v))
  {
    hide Refusable;
    assert SomeDrained(s) <==> SomeDrained(Moved(s, k, v));
  }

  lemma MoveKeeps(s: State, k: nat, v: Setup)
    requires Sound(s) && k < |s.setups| && Passage(s, s.setups[k], v)
    ensures Sound(Moved(s, k, v))
  {
    assert |Moved(s, k, v).setups| == |s.setups|;
    hide Gates, Fits, Table, Drainage, Passage, Moved;
    MoveKeepsGates(s, k, v);
    MoveKeepsTable(s, k, v);
    MoveKeepsDrainage(s, k, v);
    forall j: nat | j < |Moved(s, k, v).setups|
      ensures Fits(Moved(s, k, v), j)
    {
      MoveKeepsFits(s, k, v, j);
    }
  }

  /** Closing takes the session's own entry out. */
  lemma RemovalKeeps(s: State, k: nat, id: SessionId)
    requires Sound(s) && k < |s.setups| && s.setups[k].stage.Gone?
    requires id in s.states ==> s.states[id] == k
    ensures Sound(s.(states := s.states - {id}))
  {
    var t := s.(states := s.states - {id});
    assert s.states == map[] ==> t.states == map[];
    assert Gates(t) && Drainage(t);
    RemoveEntry(s.states, s.setups, id);
    hide Table, Drainage, Gates, Fits;
    forall j: nat | j < |t.setups|
      ensures Fits(t, j)
    {
      RemovalFits(s, k, id, j);
    }
  }

  lemma RemovalFits(s: State, k: nat, id: SessionId, j: nat)
    requires k < |s.setups| && s.setups[k].stage.Gone? && j < |s.setups| && Fits(s, j)
    requires id in s.states ==> s.states[id] == k
    ensures Fits(s.(states := s.states - {id}), j)
  {
    assert SomeDrained(s) <==> SomeDrained(s.(states := s.states - {id}));
  }

  lemma DisconnectKeeps(s: State, d: nat)
    requires Sound(s) && d < |s.disconnects|
    ensures Sound(StepDisconnect(s, d))
  {
    hide Refusable;
    var t := StepDisconnect(s, d);
    if s.disconnects[d].Reported? && s.lock.None? {
      assert SomeDrained(t) by { assert t.disconnects[d].Drained?; }
      hide SomeDrained;
      forall j: nat | j < |t.setups|
        ensures Fits(t, j)
      {
        assert Fits(s, j);
      }
    } else {
      assert SomeDrained(s) <==> SomeDrained(t) by {
        assert forall i | 0 <= i < |s.disconnects| :: s.disconnects[i].Drained? <==> t.disconnects[i].Drained?;
      }
      hide SomeDrained;
      assert forall j: nat | j < |t.setups| :: Fits(s, j) ==> Fits(t, j);
    }
  }

  /** The phase and the failure do not matter to the table. */
  lemma FrameKeeps(s: State, t: State)
    requires Sound(s)
    requires t.setups == s.setups && t.states == s.states && t.gate == s.gate && t.lock == s.lock
    requires SomeDrained(t) <==> SomeDrained(s)
    requires t.disconnects != [] ==> t.phase.Disconnected?
    ensures Sound(t)
  {
    hide SomeDrained;
    assert forall j: nat | j < |s.setups| :: Fits(s, j) ==> Fits(t, j);
  }

  lemma StartKeeps(s: State, e: Event)
    requires Sound(s) && e.StartSetup?
    ensures Sound(Step(s, e))
  {
    var t := Step(s, e);
    assert SomeDrained(t) <==> SomeDrained(s);
    hide SomeDrained;
    forall j: nat | j < |t.setups|
      ensures Fits(t, j)
    {
      assert j < |s.setups| ==> Fits(s, j);
    }
  }

  predicate Quiet(e: Event) {
    && !e.StartSetup? && !e.SetupStep? && !e.AbandonSetup? && !e.CloseSession? && !e.RemoveClosed?
    && !e.DisconnectStep?
  }

  lemma QuietEffect(s: State, e: Event)
    requires Quiet(e) && (s.disconnects != [] ==> s.phase.Disconnected?)
    ensures
      var t := Step(s, e);
      && t.setups == s.setups && t.states == s.states && t.gate == s.gate && t.lock == s.lock
      && (t.disconnects == s.disconnects || t.disconnects == s.disconnects + [Announced])
      && (t.disconnects != [] ==> t.phase.Disconnected?)
  {}

  lemma QuietKeeps(s: State, e: Event)
    requires Sound(s) && Quiet(e)
    ensures Sound(Step(s, e))
  {
    hide Step, Gates, Fits, Table, Quiet;
    QuietEffect(s, e);
    var t := Step(s, e);
    if d :| 0 <= d < |s.disconnects| && s.disconnects[d].Drained? {
      assert t.disconnects[d].Drained?;
    }
    FrameKeeps(s, t);
  }

  lemma SetupStepKeeps(s: State, e: Event)
    requires Sound(s) && e.SetupStep? && e.k < |s.setups|
    ensures Sound(Step(s, e))
  {
    assert Fits(s, e.k);
    AdvancedPasses(s, s.setups[e.k], e.ok, e.refused, e.answer);
    hide Moved, Advanced, Passage, Sound;
    MoveKeeps(s, e.k, Advanced(s, s.setups[e.k], e.ok, e.refused, e.answer));
  }

  lemma ClosedHasOwnEntry(s: State, k: nat)
    requires Sound(s) && k < |s.setups| && s.setups[k].stage.Shut? && s.setups[k].id in s.states
    ensures s.states[s.setups[k].id] == k
  {
    hide Gates, Table, SomeDrained;
    assert Fits(s, k);
  }

  lemma RemoveClosedKeeps(s: State, k: nat)
    requires Sound(s) && k < |s.setups| && s.setups[k].stage.Shut? && s.lock.None?
    ensures Sound(Step(s, RemoveClosed(k)))
  {
    hide Sound;
    var gone := s.setups[k].(stage := Gone);
    if s.setups[k].id in s.states {
      ClosedHasOwnEntry(s, k);
    }
    MoveKeeps(s, k, gone);
    RemovalKeeps(Moved(s, k, gone), k, gone.id);
  }

  lemma StepKeepsSound(s: State, e: Event)
    requires Sound(s)
    ensures Sound(Step(s, e))
  {
    hide Sound, Moved, Advanced, Dropped, StepDisconnect;
    if (e.SetupStep? || e.AbandonSetup? || e.CloseSession? || e.RemoveClosed?) && e.k < |s.setups| {
      var u := s.setups[e.k];
      if e.SetupStep? {
        SetupStepKeeps(s, e);
      } else if e.AbandonSetup? {
        DroppedPasses(s, u);
        MoveKeeps(s, e.k, Dropped(u));
      } else if e.CloseSession? {
        if u.stage.Handed? {
          MoveKeeps(s, e.k, u.(stage := Shut));
        }
      } else if u.stage.Shut? && s.lock.None? {
        RemoveClosedKeeps(s, e.k);
      }
    } else if e.DisconnectStep? && e.d < |s.disconnects| {
      DisconnectKeeps(s, e.d);
    } else if e.StartSetup? {
      hide Step;
      StartKeeps(s, e);
    } else if Quiet(e) {
      hide Step;
      QuietKeeps(s, e);
    }
  }

  /** At every moment the table is bounded, no two of its sessions share a thread, and everything else
      `Sound` says holds. */
  lemma {:induction false} EveryRunIsSound(es: seq<Event>)
    ensures Sound(Run(es))
  {
    hide Step, Sound;
    if es == [] {
      NothingYet();
    } else {
      EveryRunIsSound(es[..|es| - 1]);
      StepKeepsSound(Run(es[..|es| - 1]), es[|es| - 1]);
    }
  }

  lemma NothingYet()
    ensures Sound(INITIAL)
  {}

  /** Live sessions have distinct ids and distinct threads and number at most 64. */
  lemma SessionsAreDistinct(es: seq<Event>)
    ensures |Run(es).states| <= MAX_SESSIONS
    ensures forall id | id in Run(es).states ::
      Run(es).states[id] < |Run(es).setups| && Run(es).setups[Run(es).states[id]].id == id
    ensures forall a, b | a in Run(es).states && b in Run(es).states && a != b ::
      Run(es).setups[Run(es).states[a]].thread != Run(es).setups[Run(es).states[b]].thread
  {
    EveryRunIsSound(es);
    hide Run;
  }

  /** Once a disconnect has drained the table, it is empty for good. */
  lemma {:induction false} DrainedForGood(es: seq<Event>, more: seq<Event>)
    requires SomeDrained(Run(es))
    ensures SomeDrained(Run(es + more)) && Run(es + more).states == map[]
    decreases |more|
  {
    EveryRunIsSound(es + more);
    hide Step, Run, Gates, Fits, Table, SomeDrained;
    if more == [] {
      assert es + more == es;
    } else {
      DrainedForGood(es, more[..|more| - 1]);
      RunConcat(es, more);
      DrainStays(Run(es + more[..|more| - 1]), more[|more| - 1]);
    }
  }

  lemma DrainStays(s: State, e: Event)
    requires SomeDrained(s)
    ensures SomeDrained(Step(s, e))
  {
    hide Relocked, Retabled, Advanced, Dropped;
    var d :| 0 <= d < |s.disconnects| && s.disconnects[d].Drained?;
    assert d < |Step(s, e).disconnects| && Step(s, e).disconnects[d].Drained?;
  }

  /** A session leaves the table only by its own close, by its own failed restore, or in a drain. */
  lemma NobodyIsEvicted(es: seq<Event>, e: Event, id: SessionId)
    requires id in Run(es).states
    requires id !in Run(es + [e]).states || Run(es + [e]).states[id] != Run(es).states[id]
    ensures
      var s, t, k := Run(es), Run(es + [e]), Run(es).states[id];
      || (e.DisconnectStep? && t.states == map[] && SomeDrained(t))
      || (e == RemoveClosed(k) && s.setups[k].stage.Shut? && id !in t.states)
      || (e.SetupStep? && e.k == k && s.setups[k].stage.Undoing? && id !in t.states)
  {
    EveryRunIsSound(es);
    RunConcat(es, [e]);
    assert es + [e][..0] == es;
    hide Run, Step, Sound;
    EntryStays(Run(es), e, id);
  }

  /** Setup `k`'s step leaves the entry under `id` alone, unless it is undoing its own registration. */
  lemma SetupSparesEntry(s: State, k: nat, v: Setup, id: SessionId)
    requires k < |s.setups| && Fits(s, k) && Passage(s, s.setups[k], v) && id in s.states
    ensures
      var t := Moved(s, k, v);
      || (id in t.states && t.states[id] == s.states[id])
      || (k == s.states[id] && s.setups[k].stage.Undoing? && !v.abandoned && id !in t.states)
  {
    hide Refusable, SomeDrained, Relocked;
  }

  lemma EntryStays(s: State, e: Event, id: SessionId)
    requires Sound(s) && id in s.states
    ensures
      var t, k := Step(s, e), s.states[id];
      || (id in t.states && t.states[id] == k)
      || (e.DisconnectStep? && t.states == map[] && SomeDrained(t))
      || (e == RemoveClosed(k) && s.setups[k].stage.Shut? && id !in t.states)
      || (e.SetupStep? && e.k == k && s.setups[k].stage.Undoing? && id !in t.states)
  {
    hide Gates, Table, Relocked, Refusable;
    if e.SetupStep? && e.k < |s.setups| {
      assert Fits(s, e.k);
      var v := Advanced(s, s.setups[e.k], e.ok, e.refused, e.answer);
      AdvancedPasses(s, s.setups[e.k], e.ok, e.refused, e.answer);
      hide Advanced, Moved, Fits, Passage;
      SetupSparesEntry(s, e.k, v, id);
    } else if e.RemoveClosed? && e.k < |s.setups| {
      assert Fits(s, e.k);
    } else if e.DisconnectStep? && e.d < |s.disconnects| {
      hide Fits;
      if s.disconnects[e.d].Reported? && s.lock.None? {
        assert Step(s, e).disconnects[e.d].Drained?;
      }
    } else {
      hide Sound, SomeDrained, Fits;
    }
  }

  /** A session that was handed to its caller and has not been removed by its close is in the table,
      unless a disconnect has drained it. */
  lemma HandedIsRegistered(es: seq<Event>, k: nat)
    requires k < |Run(es).setups| && (Run(es).setups[k].stage.Handed? || Run(es).setups[k].stage.Shut?)
    requires !SomeDrained(Run(es))
    ensures
      var id := Run(es).setups[k].id;
      id in Run(es).states && Run(es).states[id] == k
  {
    EveryRunIsSound(es);
    hide Run;
    assert Fits(Run(es), k);
  }
}
