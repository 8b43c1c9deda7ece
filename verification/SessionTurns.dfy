/** The blocks of a session's turn protocol as methods on its flags and its turn token, each proved to
    take the session where the steps of the machine take it. */
module SessionTurns {
  import opened Prelude
  import opened Turns

  class SessionState {
    var active: bool
    var closed: bool
    var expired: bool
    var turn: nat
    var ended: set<nat>

    constructor ()
      ensures Shows(INITIAL)
    {
      active, closed, expired, turn, ended := false, false, false, 0, {};
    }

    /** The session's fields are those of machine state `s`. */
    ghost predicate Shows(s: State)
      reads this
    {
      active == s.active && closed == s.closed && expired == s.expired && turn == s.turn && ended == s.ended
    }

    /** `prompt` installs a new turn token and marks the session active. */
    method BeginTurn(ghost s: State, ghost i: nat)
      requires Shows(s) && i < |s.prompts| && s.prompts[i].stage.Checked?
      modifies this
      ensures Shows(Step(Step(s, PromptStep(i, true, None)), PromptStep(i, true, None)))
      ensures active && turn == old(turn) + 1
      ensures closed == old(closed) && expired == old(expired) && ended == old(ended)
    {
      turn := turn + 1;
      active := true;
    }

    /** `prompt` is answered: the token is cancelled and the session is idle again. */
    method EndTurn(ghost s: State, ghost i: nat)
      requires Shows(s) && i < |s.prompts| && s.prompts[i].stage.Ending?
      modifies this
      ensures Shows(Step(Step(s, PromptStep(i, true, None)), PromptStep(i, true, None)))
      ensures !active && ended == old(ended) + {old(turn)}
      ensures closed == old(closed) && expired == old(expired) && turn == old(turn)
    {
      ended := ended + {turn};
      active := false;
    }

    /** The guard of an active prompt is dropped, complete or not. */
    method DropGuard(complete: bool, ghost s: State, ghost i: nat)
      requires Shows(s) && i < |s.prompts|
      requires if complete then s.prompts[i].stage.Finishing? else s.prompts[i].stage.Aborting?
      modifies this
      ensures
        var once := Step(s, PromptStep(i, true, None));
        Shows(if complete then once else Step(once, PromptStep(i, true, None)))
      ensures !active && ended == if complete then old(ended) else old(ended) + {old(turn)}
      ensures closed == old(closed) && expired == old(expired) && turn == old(turn)
    {
      active := false;
      if !complete {
        ended := ended + {turn};
      }
    }

    /** `cancel` behind its gate: only an active turn is struck, and it is the current one. */
    method Strike(ghost s: State, ghost j: nat) returns (struck: bool)
      requires Shows(s) && j < |s.cancels| && s.cancels[j].stage.Gated?
      modifies this
      ensures struck == old(active)
      ensures ended == if struck then old(ended) + {turn} else old(ended)
      ensures active == old(active) && closed == old(closed) && expired == old(expired) && turn == old(turn)
      ensures Shows(if struck then Step(Step(s, CancelStep(j)), CancelStep(j)) else Step(s, CancelStep(j)))
    {
      if !active {
        return false;
      }
      ended := ended + {turn};
      return true;
    }

    /** `interaction` captures the token that decides whether an answer still counts. */
    method Interaction(offered: set<string>, ghost s: State, ghost a: nat) returns (token: Token)
      requires Shows(s) && a < |s.asks| && s.asks[a] == Looking(offered)
      ensures
        var once := Step(s, AskStep(a, true, None));
        (if active then Step(once, AskStep(a, true, None)) else once).asks[a] == Captured(offered, token)
      ensures active ==> token == OfTurn(turn)
      ensures !active ==> token == OfSession
    {
      if active {
        token := OfTurn(turn);
      } else {
        token := OfSession;
      }
    }

    /** `close` marks the session closed and ends its lifetime. */
    method Shut(ghost s: State, ghost k: nat)
      requires Shows(s) && k < |s.closes| && s.closes[k].Held?
      modifies this
      ensures Shows(Step(Step(s, CloseStep(k, true)), CloseStep(k, true)))
      ensures closed && expired && active == old(active) && turn == old(turn) && ended == old(ended)
    {
      closed := true;
      expired := true;
    }
  }
}
