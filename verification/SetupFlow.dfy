/** What creating, restoring, closing and disconnecting get done when nobody is in their way, and which
    setups that go wrong take the transport with them. */
module SetupFlow {
  import opened Prelude
  import opened Connection

  // ---------------------------------------------------------------- a setup that meets nobody

  /** A connection on which a session of this thread can be set up. */
  ghost predicate Ready(s: State, thread: nat) {
    && s.gate.None? && s.lock.None? && !s.stop && s.phase.Connected? && |s.states| < 64
    && (forall id | id in s.states :: s.states[id] < |s.setups| && s.setups[s.states[id]].thread != thread)
  }

  /** `s` with one more setup that is the only one at work. */
  function Working(s: State, u: Setup): State {
    var k := |s.setups|;
    s.(setups := s.setups + [u], gate := if HasGate(u.stage) then Some(k) else None,
       lock := if HasLock(u.stage) then Some(k) else None)
  }

  /** The stages before the session is registered, in order. */
  function Following(u: Setup): Stage {
    match u.stage
    case Queued => Gated
    case Gated => Live
    case Live => Welcome
    case Welcome => Unowned
    case Unowned => if u.restore then Identified else Admitted
    case Admitted => Answered
    case Answered => Identified
    case Identified => Locked
    case Locked => Probed
    case _ => Cleared
  }

  /** How many stages are left until then. */
  function Left(g: Stage): nat {
    match g
    case Queued => 10
    case Gated => 9
    case Live => 8
    case Welcome => 7
    case Unowned => 6
    case Admitted => 5
    case Answered => 4
    case Identified => 3
    case Locked => 2
    case Probed => 1
    case _ => 0
  }

  lemma NoThreadTaken(s: State, u: Setup)
    requires Ready(s, u.thread)
    ensures !Refusable(Working(s, u), u)
  {}

  lemma Forward(s: State, u: Setup, answer: SessionId)
    requires Ready(s, u.thread) && Left(u.stage) > 0 && !u.completed
    requires if u.restore then u.id !in s.states && !u.stage.Admitted? && !u.stage.Answered? else answer !in s.states
    requires !u.restore && Left(u.stage) <= 4 ==> u.id == answer
    ensures
      var v := u.(stage := Following(u), id := if u.stage.Admitted? then answer else u.id);
      Step(Working(s, u), SetupStep(|s.setups|, true, false, answer)) == Working(s, v)
  {
    NoThreadTaken(s, u);
    hide Refusable;
    assert (s.setups + [u])[|s.setups| := u.(stage := Following(u))] == s.setups + [u.(stage := Following(u))];
  }

  lemma {:induction false} Arrives(es: seq<Event>, s: State, u: Setup, answer: SessionId) returns (longer: seq<Event>)
    requires Run(es) == Working(s, u) && Ready(s, u.thread) && !u.completed
    requires u.stage.Cleared? || Left(u.stage) > 0
    requires if u.restore then u.id !in s.states && !u.stage.Admitted? && !u.stage.Answered? else answer !in s.states
    requires !u.restore && Left(u.stage) <= 4 ==> u.id == answer
    ensures Run(longer) == Working(s, u.(stage := Cleared, id := if u.restore then u.id else answer))
    decreases Left(u.stage)
  {
    hide Run, Step;
    if u.stage.Cleared? {
      longer := es;
    } else {
      var e := SetupStep(|s.setups|, true, false, answer);
      Forward(s, u, answer);
      RunSnoc(es, e);
      var v := u.(stage := Following(u), id := if u.stage.Admitted? then answer else u.id);
      longer := Arrives(es + [e], s, v, answer);
    }
  }

  lemma Registers(s: State, u: Setup)
    requires Ready(s, u.thread) && u.stage.Cleared? && u.id !in s.states
    ensures
      Step(Working(s, u), SetupStep(|s.setups|, true, false, u.id))
      == Working(s, u.(stage := Owning)).(states := s.states[u.id := |s.setups|])
  {
    NoThreadTaken(s, u);
    hide Refusable;
    assert (s.setups + [u])[|s.setups| := u.(stage := Owning)] == s.setups + [u.(stage := Owning)];
  }

  lemma Hands(s: State, u: Setup)
    requires !s.stop && s.phase.Connected? && u.stage.Owning? && !u.completed
    requires s.gate.None? && s.lock.None?
    ensures
      var e, table := SetupStep(|s.setups|, true, false, u.id), s.states[u.id := |s.setups|];
      Step(Step(Working(s, u).(states := table), e), e)
      == Working(s, u.(stage := Handed, completed := true)).(states := table)
  {
    var k := |s.setups|;
    assert (s.setups + [u])[k := u.(stage := Vouching)] == s.setups + [u.(stage := Vouching)];
    assert (s.setups + [u.(stage := Vouching)])[k := u.(stage := Handed, completed := true)]
        == s.setups + [u.(stage := Handed, completed := true)];
  }

  /** A creation or a restore that meets nobody hands its caller a session that is in the table under the id
      the agent gave or the caller asked for, and frees the setup gate. */
  lemma ASetupGoesThrough(es: seq<Event>, restore: bool, id: SessionId, thread: nat, answer: SessionId)
      returns (longer: seq<Event>)
    requires Ready(Run(es), thread) && (if restore then id else answer) !in Run(es).states
    ensures
      var s, t, name := Run(es), Run(longer), if restore then id else answer;
      t == s.(setups := s.setups + [Setup(restore, name, thread, Handed, true, false)],
              states := s.states[name := |s.setups|])
  {
    var s, u := Run(es), Setup(restore, id, thread, Queued, false, false);
    hide Run;
    RunSnoc(es, StartSetup(restore, id, thread));
    assert Run(es + [StartSetup(restore, id, thread)]) == Working(s, u);
    longer := Arrives(es + [StartSetup(restore, id, thread)], s, u, answer);
    var v := u.(stage := Cleared, id := if restore then id else answer);
    var e := SetupStep(|s.setups|, true, false, v.id);
    Registers(s, v);
    Hands(s, v.(stage := Owning));
    RunSnoc(longer, e);
    RunSnoc(longer + [e], e);
    RunSnoc(longer + [e] + [e], e);
    longer := longer + [e] + [e] + [e];
    hide Step;
  }

  // ---------------------------------------------------------------- a setup that goes wrong

  /** A creation the agent does not grant leaves the table alone; it fails the transport unless the agent said
      so itself, since otherwise nobody knows whether the agent made a session. */
  lemma AnUngrantedCreation(es: seq<Event>, k: nat, refused: bool, answer: SessionId)
    requires k < |Run(es).setups| && Run(es).setups[k].stage.Admitted?
    ensures
      var s, t := Run(es), Run(es + [SetupStep(k, false, refused, answer)] + [SetupStep(k, false, refused, answer)]);
      && k < |t.setups| && t.setups[k].stage.Refused? && t.states == s.states && t.gate.None?
      && t.failure == (s.failure || !refused)
  {
    var e := SetupStep(k, false, refused, answer);
    RunSnoc(es, e);
    RunSnoc(es + [e], e);
    hide Run, Refusable;
  }

  /** A caller that goes away while the agent may be making or restoring its session fails the transport. */
  lemma AnAbandonedSetupFails(es: seq<Event>, k: nat, answer: SessionId)
    requires k < |Run(es).setups| && !Run(es).setups[k].completed
    requires
      var g := Run(es).setups[k].stage;
      g.Admitted? || g.Answered? || g.Identified? || g.Owning?
    ensures
      var s, t := Run(es), Run(es + [AbandonSetup(k)] + [SetupStep(k, true, false, answer)]);
      && k < |t.setups| && t.setups[k].stage.Refused? && t.states == s.states && t.gate.None? && t.failure
  {
    RunSnoc(es, AbandonSetup(k));
    RunSnoc(es + [AbandonSetup(k)], SetupStep(k, true, false, answer));
    hide Run, Refusable;
  }

  /** A restore that does not come about takes its session out of the table again; it fails the transport
      unless the agent or the session said no. */
  lemma AnUngrantedRestore(es: seq<Event>, k: nat, refused: bool) returns (longer: seq<Event>)
    requires k < |Run(es).setups| && Run(es).lock.None?
    requires
      var u := Run(es).setups[k];
      u.restore && u.stage.Owning? && !u.completed && !u.abandoned
    ensures
      var s, t := Run(es), Run(longer);
      && k < |t.setups| && t.setups[k].stage.Refused? && t.states == s.states - {s.setups[k].id} && t.gate.None?
      && t.failure == (s.failure || !refused)
  {
    hide Run, Refusable;
    var e := SetupStep(k, false, refused, Run(es).setups[k].id);
    RunSnoc(es, e);
    RunSnoc(es + [e], e);
    RunSnoc(es + [e] + [e], e);
    longer := es + [e] + [e] + [e];
    hide Run, Refusable;
  }

  // ---------------------------------------------------------------- the end

  /** A session that is closed leaves the table, and only it. */
  lemma AClosedSessionLeaves(es: seq<Event>, k: nat)
    requires k < |Run(es).setups| && Run(es).setups[k].stage.Handed? && Run(es).lock.None?
    ensures
      var s, t := Run(es), Run(es + [CloseSession(k)] + [RemoveClosed(k)]);
      && t.states == s.states - {s.setups[k].id} && t.phase == s.phase && t.failure == s.failure && t.gate == s.gate
  {
    RunSnoc(es, CloseSession(k));
    RunSnoc(es + [CloseSession(k)], RemoveClosed(k));
    hide Run;
  }

  /** A disconnect that meets nobody leaves the connection disconnected, the transport failed and no session. */
  lemma ADisconnectGoesThrough(es: seq<Event>) returns (longer: seq<Event>)
    requires Run(es).writer.None? && Run(es).lock.None?
    ensures Run(longer).phase.Disconnected? && Run(longer).failure && Run(longer).states == map[]
  {
    var d := |Run(es).disconnects|;
    RunSnoc(es, DisconnectCall);
    RunSnoc(es + [DisconnectCall], DisconnectStep(d));
    RunSnoc(es + [DisconnectCall] + [DisconnectStep(d)], DisconnectStep(d));
    longer := es + [DisconnectCall] + [DisconnectStep(d)] + [DisconnectStep(d)];
    hide Run;
  }

  /** The first report of a failure marks a connection failed that is not disconnected, and fails the
      transport. */
  lemma AFailureIsReported(es: seq<Event>) returns (longer: seq<Event>)
    requires Run(es).failing.Unfailed? && Run(es).writer.None?
    ensures
      var s, t := Run(es), Run(longer);
      if s.phase.Disconnected? then t.phase.Disconnected? && t.failure == s.failure else t.phase.Failed? && t.failure
  {
    RunSnoc(es, FailedCall);
    RunSnoc(es + [FailedCall], FailedStep);
    RunSnoc(es + [FailedCall] + [FailedStep], FailedStep);
    RunSnoc(es + [FailedCall] + [FailedStep] + [FailedStep], FailedStep);
    longer := es + [FailedCall] + [FailedStep] + [FailedStep] + [FailedStep];
    hide Run;
  }
}
