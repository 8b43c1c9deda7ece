/** Which event of a run puts which notice into the log of outgoing requests: who is answered with what, whose
    lifetime ends, and what the connection failed for. */
module Answers {
  import opened Prelude
  import opened PendingTable

  /** Request `c` has the entry under `id`, and nobody is draining the table. */
  predicate Awaits(s: State, id: RpcId, c: nat) {
    id in s.pending && s.pending[id] == c && !s.phase.Draining?
  }

  /** A call enters under its identifier: the connection is not stopped and fewer than 128 requests wait. */
  predicate Enters(s: State, e: Event, c: nat) {
    && e == Insert(c) && c < |s.callers| && s.callers[c].Numbered?
    && (s.phase.Healthy? || s.phase.Recorded?) && |s.pending| < 128
  }

  /** The entry of request `c` goes: it is answered, its guard or that of a request of the same identifier is
      dropped, another request replaces it, or the table is drained. */
  predicate Removes(s: State, e: Event, c: nat) {
    match e
    case Respond(id, _) => Awaits(s, id, c)
    case DropGuard(d) => d < |s.callers| && s.callers[d].Owning? && Awaits(s, IdOf(d), c)
    case Insert(d) => Enters(s, e, d) && Awaits(s, IdOf(d), c)
    case DrainOne(id) => s.phase.Draining? && id in s.pending && s.pending[id] == c
    case _ => false
  }

  /** Event `e` puts notice `n` into the log: a response that carries `v` answers the request it finds with `v`,
      and only draining answers that the connection is gone. */
  predicate Reports(s: State, e: Event, n: Notice) {
    match n
    case Entered(c) => Enters(s, e, c)
    case Left(c) => Removes(s, e, c)
    case LifetimeCancelled(c) => Removes(s, e, c)
    case Answered(c, Result(v)) => e.Respond? && e.value == v && Awaits(s, e.id, c)
    case Answered(c, Disconnected) => e.DrainOne? && Removes(s, e, c)
    case StopCancelled => e == CancelStop && s.phase.Recorded?
  }

  lemma TakeReports(s: State, e: Event, n: Notice)
    requires e.Respond? || e.DrainOne? || e.DropGuard?
    ensures n in Step(s, e).log <==> n in s.log || Reports(s, e, n)
  {
    hide IdOf;
  }

  lemma EnterReports(s: State, e: Event, n: Notice)
    requires !e.Respond? && !e.DrainOne? && !e.DropGuard?
    ensures n in Step(s, e).log <==> n in s.log || Reports(s, e, n)
  {
    hide IdOf;
  }

  ghost predicate ReportsAt(es: seq<Event>, i: nat, n: Notice) {
    i < |es| && Reports(Run(es[..i]), es[i], n)
  }

  lemma ReportsSnoc(es: seq<Event>, n: Notice)
    requires es != []
    ensures
      var init := es[..|es| - 1];
      (exists i: nat :: ReportsAt(es, i, n))
      <==> (exists i: nat :: ReportsAt(init, i, n)) || Reports(Run(init), es[|init|], n)
  {
    hide Run, Reports;
    var init := es[..|es| - 1];
    assert es[..|init|] == init;
    forall i: nat | i < |init|
      ensures ReportsAt(es, i, n) <==> ReportsAt(init, i, n)
    {
      assert es[..i] == init[..i];
    }
    if i: nat :| ReportsAt(init, i, n) {
      assert ReportsAt(es, i, n);
    }
    if Reports(Run(init), es[|init|], n) {
      assert ReportsAt(es, |init|, n);
    }
  }

  lemma StepReports(s: State, e: Event, n: Notice)
    ensures n in Step(s, e).log <==> n in s.log || Reports(s, e, n)
  {
    hide Step, Reports;
    if e.Respond? || e.DrainOne? || e.DropGuard? {
      TakeReports(s, e, n);
    } else {
      EnterReports(s, e, n);
    }
  }

  lemma NothingReportedYet(n: Notice)
    ensures n !in Run([]).log && forall i: nat :: !ReportsAt([], i, n)
  {}

  lemma RunLast(es: seq<Event>)
    requires es != []
    ensures Run(es) == Step(Run(es[..|es| - 1]), es[|es| - 1])
  {
    hide Step;
  }

  /** A notice is in the log exactly when some event of the run reported it. */
  lemma {:induction false} NoticeIff(es: seq<Event>, n: Notice)
    ensures n in Run(es).log <==> exists i: nat :: ReportsAt(es, i, n)
  {
    hide Run, Step, Reports, ReportsAt;
    if es == [] {
      NothingReportedYet(n);
    } else {
      NoticeIff(es[..|es| - 1], n);
      RunLast(es);
      StepReports(Run(es[..|es| - 1]), es[|es| - 1], n);
      ReportsSnoc(es, n);
    }
  }

  /** A caller is told that the connection is gone only after the connection has failed. */
  lemma DisconnectedOnlyAfterFailure(es: seq<Event>, c: nat)
    requires Answered(c, Disconnected) in Run(es).log
    ensures Run(es).failure.Some?
  {
    NoticeIff(es, Answered(c, Disconnected));
    var i: nat :| ReportsAt(es, i, Answered(c, Disconnected));
    PhasesHold(es[..i]);
    assert es == es[..i] + es[i..];
    FailureIsFinal(es[..i], es[i..]);
    hide Run;
  }

  /** A response to a request that is waiting answers it with what it carries, and with nothing else. */
  lemma AResponseAnswers(es: seq<Event>, id: RpcId, c: nat, value: int)
    requires Awaits(Run(es), id, c)
    ensures
      var t := Run(es + [Respond(id, value)]);
      && t.log == Run(es).log + [Left(c), LifetimeCancelled(c), Answered(c, Result(value))]
      && t.pending == Run(es).pending - {id} && t.callers == Run(es).callers
  {
    RunSnoc(es, Respond(id, value));
    hide Run;
  }

  // ---------------------------------------------------------------- the reason

  ghost predicate FailsFirst(es: seq<Event>, i: nat, reason: int) {
    i < |es| && es[i] == Fail(reason) && forall j | 0 <= j < i :: !es[j].Fail?
  }

  lemma StepFails(s: State, e: Event)
    ensures Step(s, e).failure == if e.Fail? && s.failure.None? then Some(e.reason) else s.failure
  {
    hide IdOf;
  }

  lemma FailsSnoc(es: seq<Event>, reason: int)
    requires es != []
    ensures
      var init := es[..|es| - 1];
      && ((exists i: nat :: FailsFirst(es, i, reason))
          <==> || (exists i: nat :: FailsFirst(init, i, reason))
               || (es[|init|] == Fail(reason) && forall j | 0 <= j < |init| :: !init[j].Fail?))
  {
    var init := es[..|es| - 1];
    assert forall i: nat | i < |init| :: FailsFirst(es, i, reason) <==> FailsFirst(init, i, reason);
    if i: nat :| FailsFirst(init, i, reason) {
      assert FailsFirst(es, i, reason);
    }
    if es[|init|] == Fail(reason) && forall j | 0 <= j < |init| :: !init[j].Fail? {
      assert FailsFirst(es, |init|, reason);
    }
  }

  /** The connection has failed for the reason of the first failure reported, and for no other. */
  lemma {:induction false} FailedFor(es: seq<Event>, reason: int)
    ensures Run(es).failure == Some(reason) <==> exists i: nat :: FailsFirst(es, i, reason)
    ensures Run(es).failure.None? <==> forall i | 0 <= i < |es| :: !es[i].Fail?
  {
    if es == [] {
      assert Run(es).failure.None?;
    } else {
      var init, e := es[..|es| - 1], es[|es| - 1];
      RunLast(es);
      hide Run, Step;
      FailedFor(init, reason);
      StepFails(Run(init), e);
      FailsSnoc(es, reason);
      hide FailsFirst;
      assert forall i | 0 <= i < |init| :: es[i] == init[i];
    }
  }

  lemma {:induction false} Drains(es: seq<Event>) returns (longer: seq<Event>)
    requires Run(es).phase.Draining?
    ensures Run(longer).phase.Draining? && Run(longer).pending == map[] && Run(es).log <= Run(longer).log
    ensures forall id | id in Run(es).pending :: Answered(Run(es).pending[id], Disconnected) in Run(longer).log
    decreases |Run(es).pending|
  {
    var s := Run(es);
    if s.pending == map[] {
      longer := es;
    } else {
      var id :| id in s.pending;
      RunSnoc(es, DrainOne(id));
      hide Run;
      var t := Run(es + [DrainOne(id)]);
      assert t.pending.Keys == s.pending.Keys - {id};
      assert |t.pending| == |t.pending.Keys| && |s.pending| == |s.pending.Keys|;
      assert t.log[|s.log| + 1] == Answered(s.pending[id], Disconnected);
      longer := Drains(es + [DrainOne(id)]);
      forall other | other in s.pending
        ensures Answered(s.pending[other], Disconnected) in Run(longer).log
      {
        if other == id {
          assert Run(longer).log[|s.log| + 1] == t.log[|s.log| + 1];
        } else {
          assert other in t.pending && t.pending[other] == s.pending[other];
        }
      }
    }
  }

  /** A failure that has been recorded can be carried through: then everybody who waits has been told, and the
      table is empty. */
  lemma AFailureTellsEveryone(es: seq<Event>) returns (longer: seq<Event>)
    requires Run(es).phase.Recorded?
    ensures Run(longer).phase.Drained? && Run(longer).pending == map[]
    ensures forall id | id in Run(es).pending :: Answered(Run(es).pending[id], Disconnected) in Run(longer).log
  {
    RunSnoc(es, CancelStop);
    RunSnoc(es + [CancelStop], LockForDrain);
    hide Run;
    longer := Drains(es + [CancelStop] + [LockForDrain]);
    RunSnoc(longer, UnlockDrained);
    longer := longer + [UnlockDrained];
  }
}
