/** The blocks of a connection that run under one lock, as the methods they are: writing the phase,
    registering a session, failing and disconnecting. */
module ConnectionTable {
  import opened Prelude
  import opened Connection

  datatype Error = Closed | NeedsAuthentication | Busy | Limit

  class Session {
    const id: SessionId
    const thread: nat
    var active: bool
    var closed: bool
    var expired: bool
    var struck: bool

    constructor (id: SessionId, thread: nat)
      ensures this.id == id && this.thread == thread
      ensures !active && !closed && !expired && !struck
    {
      this.id, this.thread := id, thread;
      active, closed, expired, struck := false, false, false, false;
    }
  }

  /** Why the connection does not take part in new work. */
  function Refusal(stop: bool, phase: Phase): Option<Error> {
    if stop then Some(Closed)
    else match phase
      case Connected => None
      case AuthenticationRequired => Some(NeedsAuthentication)
      case Authenticating => Some(Busy)
      case _ => Some(Closed)
  }

  ghost predicate Distinct(table: map<SessionId, Session>) {
    && |table| <= MAX_SESSIONS
    && (forall id | id in table :: table[id].id == id)
    && (forall a, b | a in table && b in table && table[a].thread == table[b].thread :: a == b)
  }

  class LiveConnection {
    var phase: Phase
    var stop: bool
    var failing: bool
    var states: map<SessionId, Session>

    ghost predicate Valid()
      reads this
    {
      Distinct(states)
    }

    constructor ()
      ensures Valid() && phase == Initializing && !stop && !failing && states == map[]
    {
      phase, stop, failing, states := Initializing, false, false, map[];
    }

    /** A late completion writes the phase only of a connection that is still live. */
    method UpdateLive(update: Update) returns (changed: bool)
      modifies this`phase
      ensures changed <==> !stop && !Terminal(old(phase))
      ensures phase == if changed then Updated(old(phase), update) else old(phase)
      ensures changed && (update.Initialized? || update.AuthenticationDone?) ==> phase == Connected
      ensures changed && (update.LoggedOut? || update.AuthenticationRefused?) ==> phase == AuthenticationRequired
      ensures changed && update.AuthenticationBegun? ==> phase == Authenticating
      ensures changed && update.Challenged? ==>
        phase == if old(phase) == Authenticating && !update.authenticating then Authenticating
                 else AuthenticationRequired
    {
      if stop || phase == Disconnected || phase == Failed || phase == Exited {
        return false;
      }
      phase := Updated(phase, update);
      return true;
    }

    method EnsureConnected() returns (r: Result<(), Error>)
      ensures r.Success? <==> !stop && phase.Connected?
      ensures r.Failure? ==> Refusal(stop, phase) == Some(r.error)
      ensures r == Failure(NeedsAuthentication) <==> !stop && phase.AuthenticationRequired?
      ensures r == Failure(Busy) <==> !stop && phase.Authenticating?
      ensures r != Failure(Limit)
    {
      if stop {
        return Failure(Closed);
      }
      match phase {
        case Connected => r := Success(());
        case AuthenticationRequired => r := Failure(NeedsAuthentication);
        case Authenticating => r := Failure(Busy);
        case _ => r := Failure(Closed);
      }
    }

    /** `states.values().any(..)`: some live session belongs to `thread`. */
    method HasThread(thread: nat) returns (found: bool)
      ensures found <==> exists id :: id in states && states[id].thread == thread
    {
      var rest := states.Keys;
      found := false;
      while rest != {} && !found
        invariant rest <= states.Keys
        invariant !found ==> forall id | id in states && id !in rest :: states[id].thread != thread
        invariant found ==> exists id :: id in states && states[id].thread == thread
        decreases |rest|, !found
      {
        var id :| id in rest;
        rest := rest - {id};
        if states[id].thread == thread {
          found := true;
        }
      }
    }

    /** A session enters the table exactly when the connection is connected, its id and its thread are
        free and there is room, and it displaces nobody. */
    method RegisterSession(session: Session) returns (r: Result<(), Error>)
      requires Valid()
      modifies this`states
      ensures Valid()
      ensures r.Success? <==>
        && old(!stop && phase.Connected?)
        && session.id !in old(states)
        && (forall id | id in old(states) :: old(states)[id].thread != session.thread)
        && |old(states)| < MAX_SESSIONS
      ensures states == if r.Success? then old(states)[session.id := session] else old(states)
      ensures stop || phase.Initializing? || Terminal(phase) ==> r == Failure(Closed)
      ensures !stop && phase.AuthenticationRequired? ==> r == Failure(NeedsAuthentication)
      ensures !stop && phase.Authenticating? ==> r == Failure(Busy)
      ensures r.Failure? && !stop && phase.Connected? ==>
        r.error == (if session.id in states || (exists id :: id in states && states[id].thread == session.thread)
                    then Busy else Limit)
    {
      r := EnsureConnected();
      if r.Failure? {
        return;
      }
      var taken := HasThread(session.thread);
      if session.id in states || taken {
        return Failure(Busy);
      }
      if |states| >= MAX_SESSIONS {
        return Failure(Limit);
      }
      states := states[session.id := session];
    }

    /** The first caller fails the connection and strikes every session; a disconnected one stays so. */
    method Fail() returns (first: bool)
      modifies this, states.Values
      ensures first <==> !old(failing) && !old(phase.Disconnected?)
      ensures failing && states == old(states)
      ensures phase == if first then Failed else old(phase)
      ensures stop == (first || old(stop))
      ensures forall id | id in states && first ::
        states[id].expired && states[id].struck && !states[id].active && states[id].closed == old(states[id].closed)
      ensures !first ==> forall id | id in states :: unchanged(states[id])
    {
      if failing || phase == Disconnected {
        failing := true;
        return false;
      }
      failing := true;
      phase := Failed;
      stop := true;
      var rest := states.Keys;
      while rest != {}
        invariant rest <= states.Keys && states == old(states) && failing && stop && phase == Failed
        invariant forall id | id in states :: states[id].closed == old(states[id].closed)
        invariant forall id | id in states && id !in rest ::
          states[id].expired && states[id].struck && !states[id].active
        decreases |rest|
      {
        var id :| id in rest;
        states[id].expired := true;
        states[id].struck := true;
        states[id].active := false;
        rest := rest - {id};
      }
      return true;
    }

    /** Disconnecting is final: the table is emptied and every session in it is ended and closed. */
    method Disconnect()
      modifies this, states.Values
      ensures phase == Disconnected && stop && states == map[] && failing == old(failing)
      ensures forall id | id in old(states) ::
        var s := old(states)[id];
        s.expired && s.struck && s.closed && s.active == old(s.active)
    {
      phase := Disconnected;
      stop := true;
      var taken := states;
      states := map[];
      var rest := taken.Keys;
      while rest != {}
        invariant rest <= taken.Keys && taken == old(states)
        invariant phase == Disconnected && stop && states == map[] && failing == old(failing)
        invariant forall id | id in taken :: taken[id].active == old(taken[id].active)
        invariant forall id | id in taken && id !in rest ::
          taken[id].expired && taken[id].struck && taken[id].closed
        decreases |rest|
      {
        var id :| id in rest;
        taken[id].expired := true;
        taken[id].struck := true;
        taken[id].closed := true;
        rest := rest - {id};
      }
    }
  }
}
