/** What the loop and the setup do when nothing stands in their way: every update that finds its session is shown,
    every early one is kept while there is room, and a creation shows the early updates and ends. */
module HandoverFlow {
  import opened Handover

  /** An update that found no session is kept while one is being created, if fewer than 64 are kept and it fits
      within a mebibyte with them; otherwise it breaks the loop off. */
  lemma AnEarlyUpdateIsKept(start: State, acts: seq<Action>, known: bool, ok: bool)
    requires Run(start, acts).hand.Missing?
    requires
      Run(start, acts).stage
      in {Calling, Barred, Passed, Held, Registered, Configured, Taken, Released, Dropping}
    ensures
      var s, t := Run(start, acts), Run(start, acts + [LoopStep(known, ok)] + [LoopStep(known, ok)]);
      var size := s.notice.update.size;
      && t.channel == s.channel && t.events == s.events && t.todo == s.todo && t.stage == s.stage
      && if |s.early| < 64 && Sum(s.early) + size <= 1024 * 1024 then
           t.hand.Idle? && t.early == s.early + [Entry(s.notice.owner, s.notice.update)]
         else
           t.hand.Broken? && t.early == s.early
  {
    RunSnoc(start, acts, LoopStep(known, ok));
    RunSnoc(start, acts + [LoopStep(known, ok)], LoopStep(known, ok));
    hide Run, Dropped, Show;
  }

  /** With no creation going on such an update is dropped, and nothing else happens. */
  lemma AnUpdateForNobody(start: State, acts: seq<Action>, known: bool, ok: bool)
    requires Run(start, acts).hand.Missing? && Run(start, acts).stage in {Before, Wiped, Uncounted, Over}
    ensures
      var s, t := Run(start, acts), Run(start, acts + [LoopStep(known, ok)]);
      && t.hand.Idle? && t.channel == s.channel && t.early == s.early && t.events == s.events && t.todo == s.todo
      && t.stage == s.stage
  {
    RunSnoc(start, acts, LoopStep(known, ok));
    hide Run, Dropped, Show, Push;
  }

  /** An update for a session that is there is shown as soon as the session's gate is free; if the session cannot
      apply it the loop breaks off. */
  lemma AnUpdateIsShown(start: State, acts: seq<Action>, ok: bool)
    requires
      var s := Run(start, acts);
      && s.hand.Looking? && s.notice.owner == s.id && s.place.Present?
      && s.stage !in {Held, Registered, Configured, Taken}
    ensures
      var step := LoopStep(true, ok);
      var s, t := Run(start, acts), Run(start, acts + [step] + [step] + [step]);
      && t.early == s.early && t.channel == s.channel && t.stage == s.stage
      && if ok then
           && t.hand.Idle? && t.events == s.events + [Applied(s.notice.update)]
           && t.outcomes == s.outcomes + [Outcome(s.notice, Direct)]
         else t.hand.Broken? && t.events == s.events
  {
    var step := LoopStep(true, ok);
    RunSnoc(start, acts, step);
    RunSnoc(start, acts + [step], step);
    RunSnoc(start, acts + [step] + [step], step);
    hide Run, Dropped, Push, Miss;
  }

  /** An update for a session that has ended meanwhile is dropped for that. */
  lemma AnEndedSessionShowsNothing(start: State, acts: seq<Action>, known: bool, ok: bool)
    requires Run(start, acts).hand.Found? && (Run(start, acts).place.Ended? || Run(start, acts).place.Removed?)
    requires Run(start, acts).notice.owner == Run(start, acts).id
    ensures
      var s, t := Run(start, acts), Run(start, acts + [LoopStep(known, ok)]);
      t == s.(hand := Idle, outcomes := s.outcomes + [Outcome(s.notice, Closed)])
  {
    RunSnoc(start, acts, LoopStep(known, ok));
    hide Run, Push, Miss, Show;
  }

  /** Until then it waits. */
  lemma AHeldGateIsWaitedFor(start: State, acts: seq<Action>, known: bool, ok: bool)
    requires Run(start, acts).hand.Waiting? && Run(start, acts).stage in {Held, Registered, Configured, Taken}
    ensures Run(start, acts + [LoopStep(known, ok)]) == Run(start, acts)
  {
    RunSnoc(start, acts, LoopStep(known, ok));
    hide Run, Push, Miss;
  }

  /** The loop takes the next notice, or acknowledges the barrier. */
  lemma TheNextItemIsTaken(start: State, acts: seq<Action>, known: bool, ok: bool)
    requires Run(start, acts).hand.Idle? && Run(start, acts).channel != []
    ensures
      var s, t := Run(start, acts), Run(start, acts + [LoopStep(known, ok)]);
      && t.channel == s.channel[1..] && t.events == s.events && t.early == s.early
      && match s.channel[0]
         case Barrier => t.hand.Idle? && t.acked
         case Deliver(notice) => t.hand.Looking? && t.notice == notice && t.acked == s.acked
  {
    RunSnoc(start, acts, LoopStep(known, ok));
    hide Run, Push, Miss, Show;
  }

  const GO := SetupStep(true)

  function Go(s: State): State {
    StepSetup(s, true)
  }

  lemma GoesOn(start: State, acts: seq<Action>)
    ensures Run(start, acts + [GO]) == Go(Run(start, acts))
  {
    RunSnoc(start, acts, GO);
    hide Run, StepSetup;
  }

  /** Once the barrier has come back the setup registers the session, shows its configuration and takes what was
      kept. */
  lemma ASetupTakesWhatWasKept(start: State, acts: seq<Action>)
    requires Run(start, acts).stage.Passed?
    ensures
      var s, t := Run(start, acts), Run(start, acts + [GO] + [GO] + [GO] + [GO]);
      && t.stage.Taken? && t.place.Present? && t.aborted == s.aborted
      && t.events == s.events + [Configuration] && t.todo == s.early && t.early == []
  {
    GoesOn(start, acts);
    GoesOn(start, acts + [GO]);
    GoesOn(start, acts + [GO] + [GO]);
    GoesOn(start, acts + [GO] + [GO] + [GO]);
    hide Run, Go;
    Taking(Run(start, acts));
  }

  lemma Taking(s: State)
    requires s.stage.Passed?
    ensures
      Go(Go(Go(Go(s))))
      == s.(stage := Taken, place := Present, events := s.events + [Configuration], todo := s.early, early := [])
  {}

  function Times(n: nat): seq<Action> {
    seq(n, _ => GO)
  }

  lemma {:induction false} TakenAreShown(start: State, acts: seq<Action>, n: nat)
    requires Run(start, acts).stage.Taken? && |Run(start, acts).todo| == n
    ensures
      var s, t := Run(start, acts), Run(start, acts + Times(n));
      && t.stage.Taken? && t.todo == [] && t.events == s.events + Own(s.todo, s.id) && t.early == s.early
      && t.aborted == s.aborted && t.place == s.place && t.id == s.id
    decreases n
  {
    var s := Run(start, acts);
    if n == 0 {
      assert acts + Times(0) == acts;
      hide Run;
      assert Own([], s.id) == [];
    } else {
      GoesOn(start, acts);
      OneShown(s);
      hide Run, Go, Own;
      TakenAreShown(start, acts + [GO], n - 1);
      assert acts + [GO] + Times(n - 1) == acts + Times(n);
    }
  }

  /** One entry less to show. */
  lemma OneShown(s: State)
    requires s.stage.Taken? && s.todo != []
    ensures
      var t := Go(s);
      && t == s.(todo := s.todo[1..], events := t.events)
      && t.events + Own(t.todo, s.id) == s.events + Own(s.todo, s.id)
  {
    assert s.todo == [s.todo[0]] + s.todo[1..];
    OwnCons(s.todo[0], s.todo[1..], s.id);
    hide Own;
  }

  /** It shows what it took of its own, in order, and is over. */
  lemma ACreationEnds(start: State, acts: seq<Action>)
    requires Run(start, acts).stage.Taken?
    ensures
      var s := Run(start, acts);
      var t := Run(start, acts + Times(|s.todo|) + [GO] + [GO] + [GO]);
      && t.stage.Over? && t.early == [] && t.aborted == s.aborted && t.place == s.place
      && t.events == s.events + Own(s.todo, s.id)
  {
    var n := |Run(start, acts).todo|;
    TakenAreShown(start, acts, n);
    var all := acts + Times(n);
    GoesOn(start, all);
    GoesOn(start, all + [GO]);
    GoesOn(start, all + [GO] + [GO]);
    hide Run, Go, Own;
    Ending(Run(start, all));
  }

  lemma Ending(s: State)
    requires s.stage.Taken? && s.todo == []
    ensures Go(Go(Go(s))) == s.(stage := Over, early := [])
  {}

  /** A creation that is given up stops counting and leaves an empty buffer. */
  lemma AnAbortedCreationCleansUp(start: State, acts: seq<Action>)
    requires Run(start, acts).stage.Dropping?
    ensures
      var s, t := Run(start, acts), Run(start, acts + [GO] + [GO]);
      t.stage.Over? && t.early == [] && t.events == s.events && t.place == s.place
  {
    RunSnoc(start, acts, GO);
    RunSnoc(start, acts + [GO], GO);
    hide Run, StepLoop;
  }

  /** A setup that may not go on, or whose session cannot show something, is given up. */
  lemma ARefusedSetupAborts(start: State, acts: seq<Action>)
    requires
      var s := Run(start, acts);
      s.stage in {Passed, Held, Registered} || (s.stage.Taken? && s.todo != [] && s.todo[0].owner == s.id)
    ensures
      var s, t := Run(start, acts), Run(start, acts + [SetupStep(false)]);
      t == s.(stage := Dropping, aborted := true)
  {
    RunSnoc(start, acts, SetupStep(false));
    hide Run, StepLoop;
  }
}
