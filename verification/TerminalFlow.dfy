/** How a terminal is created when nothing stands in its way, and what stands in its way. */
module TerminalFlow {
  import opened Terminals

  /** The creation may start its command: fewer than 64 terminals there are, and fewer than 16 of its session. */
  predicate HasRoom(s: State, session: nat) {
    |s.table| < 64 && |set k | k in s.table && s.table[k] == session| < 16
  }

  /** An approved creation waits for the table's lock, and takes it when it is free. */
  lemma TheLockIsTaken(es: seq<Event>, k: nat, ok: bool)
    requires k < |Run(es).creations| && Run(es).creations[k].stage.Approved?
    ensures
      var s, t := Run(es), Run(es + [Create(k, ok)]);
      if s.lock.Some? then t == s
      else
        && t.lock.Some? && t.lock.value == k && t.table == s.table && t.stop == s.stop && t.expired == s.expired
        && t.creations == s.creations[k := Creation(s.creations[k].session, Holding)]
  {
    RunSnoc(es, Create(k, ok));
    hide Run, Of, Ended;
  }

  /** Under the lock it starts its command exactly when there is room. */
  lemma RoomIsChecked(es: seq<Event>, k: nat)
    requires k < |Run(es).creations| && Run(es).creations[k].stage.Holding?
    ensures
      var s, t := Run(es), Run(es + [Create(k, true)]);
      var session := s.creations[k].session;
      && t.table == s.table && t.stop == s.stop && t.expired == s.expired
      && if HasRoom(s, session) then
           t.lock == s.lock && t.creations == s.creations[k := Creation(session, Spawned)]
         else
           t.lock.None? && t.creations == s.creations[k := Creation(session, Over)]
  {
    RunSnoc(es, Create(k, true));
    hide Run, Ended;
    var s := Run(es);
    assert Of(s.table, s.creations[k].session) == set j | j in s.table && s.table[j] == s.creations[k].session;
    hide Of;
  }

  /** The command's terminal enters the table exactly when neither its session nor the connection has ended
      before the creation looked; otherwise the command is killed. */
  lemma TheEndIsLookedFor(es: seq<Event>, k: nat)
    requires k < |Run(es).creations| && Run(es).creations[k].stage.Spawned?
    ensures
      var s, t := Run(es), Run(es + [Create(k, true)] + [Create(k, true)]);
      var session := s.creations[k].session;
      && t.lock.None? && t.creations == s.creations[k := Creation(session, Over)]
      && t.table == if s.stop || session in s.expired then s.table else s.table[k := session]
  {
    RunSnoc(es, Create(k, true));
    RunSnoc(es + [Create(k, true)], Create(k, true));
    hide Run, Of;
  }

  /** A release takes one terminal out and no other. */
  lemma AReleaseTakesOne(es: seq<Event>, k: nat)
    requires Run(es).lock.None?
    ensures Run(es + [Release(k)]) == Run(es).(table := Run(es).table - {k})
  {
    RunSnoc(es, Release(k));
    hide Run, Of, StepCreate;
  }

  /** A creation whose caller goes away before its command starts is over and frees the lock if it had it. */
  lemma AnAbandonedCreationIsOver(es: seq<Event>, k: nat)
    requires k < |Run(es).creations| && (Run(es).creations[k].stage.Approved? || Run(es).creations[k].stage.Holding?)
    ensures
      var s, t := Run(es), Run(es + [Abandon(k)]);
      && t.creations == s.creations[k := Creation(s.creations[k].session, Over)] && t.table == s.table
      && (s.creations[k].stage.Approved? ==> t.lock == s.lock) && (s.creations[k].stage.Holding? ==> t.lock.None?)
  {
    RunSnoc(es, Abandon(k));
    hide Run, Of, StepCreate;
  }

  /** From the end of a session on, or of the connection, no command of it is let through. */
  lemma AnEndIsSeen(es: seq<Event>, k: nat)
    requires k < |Run(es).creations| && Run(es).creations[k].stage.Spawned?
    ensures
      var session := Run(es).creations[k].session;
      forall e | e == Stop || e == Expire(session) ::
        var t := Run(es + [e] + [Create(k, true)]);
        t.table == Run(es).table && t.lock.None? && t.creations == Run(es).creations[k := Creation(session, Over)]
  {
    var session := Run(es).creations[k].session;
    RunSnoc(es, Stop);
    RunSnoc(es + [Stop], Create(k, true));
    RunSnoc(es, Expire(session));
    RunSnoc(es + [Expire(session)], Create(k, true));
    hide Run, Of;
  }
}
