/** The peer's shared state object: each method is one critical section of the original, and is
    proved to be the corresponding events of the pending-table machine. */
module PeerState {
  import opened Prelude
  import opened PendingTable

  lemma RunOne(s: State, a: Event)
    ensures RunFrom(s, [a]) == Step(s, a)
  {
    hide Step;
    assert [a][..0] == [];
    assert RunFrom(s, []) == s;
  }

  lemma RunMore(s: State, es: seq<Event>, a: Event)
    ensures RunFrom(s, es + [a]) == Step(RunFrom(s, es), a)
  {
    hide Step;
    assert (es + [a])[..|es|] == es;
  }

  lemma NextTicket(k: nat)
    ensures (Ticket(k) + 1) % U64_COUNT == Ticket(k + 1)
  {}

  class Peer {
    var pending: map<RpcId, nat>
    var failure: Option<int>
    var stop: bool
    var next: nat
    var channels: nat  // response channels made so far; each names its receiver
    ghost var callers: seq<Caller>
    ghost var phase: Phase
    ghost var log: seq<Notice>

    ghost function Value(): State
      reads this
    {
      State(pending, callers, phase, failure, log)
    }

    ghost predicate Valid()
      reads this
    {
      next == Ticket(|callers|) && channels == |callers| && (stop <==> IsStopped(Value()))
    }

    constructor ()
      ensures Valid() && Value() == INITIAL
    {
      pending, failure, stop, next, channels := map[], None, false, 1, 0;
      callers, phase, log := [], Healthy, [];
    }

    /** The synchronous part of `begin_request`: number the request, then enter it under the lock. */
    method BeginRequest() returns (id: Option<RpcId>)
      requires Valid() && !phase.Draining?
      modifies this
      ensures Valid()
      ensures Value() == RunFrom(old(Value()), [Call, Insert(|old(callers)|)])
      ensures id == if old(stop) || |old(pending)| >= MAX_PENDING then None else Some(IdOf(|old(callers)|))
      ensures id.Some? ==> pending == old(pending)[id.value := |old(callers)|]
      ensures id.None? ==> pending == old(pending) && log == old(log)
      ensures failure == old(failure) && stop == old(stop)
    {
      ghost var caller := |callers|;
      NextTicket(caller);
      hide RunFrom, OwnId, Ticket;
      var own := OwnId(next);
      next := (next + 1) % U64_COUNT;
      var receiver := channels;
      channels := channels + 1;
      RunOne(Value(), Call);
      RunMore(Value(), [Call], Insert(caller));
      assert [Call] + [Insert(caller)] == [Call, Insert(caller)];
      if stop || |pending| >= MAX_PENDING {
        callers := callers + [Done];
        return None;
      }
      ghost var replaced := if own in pending then [Left(pending[own]), LifetimeCancelled(pending[own])] else [];
      pending := pending[own := receiver];
      callers := callers + [Owning];
      log := log + [Entered(caller)] + replaced;
      return Some(own);
    }

    /** `PendingGuard::drop`. Dropping a removed entry cancels its lifetime. */
    method DropGuard(ghost caller: nat, id: RpcId)
      requires Valid() && !phase.Draining?
      requires caller < |callers| && callers[caller].Owning? && id == IdOf(caller)
      modifies this
      ensures Valid() && Value() == Step(old(Value()), PendingTable.Event.DropGuard(caller))
      ensures pending == old(pending) - {id} && failure == old(failure) && stop == old(stop)
      ensures log == old(log) + if id in old(pending) then [Left(old(pending)[id]), LifetimeCancelled(old(pending)[id])]
                                else []
    {
      callers := callers[caller := Done];
      if id in pending {
        log := log + [Left(pending[id]), LifetimeCancelled(pending[id])];
        pending := pending - {id};
      }
    }

    /** The response half of `dispatch`. */
    method Respond(id: RpcId, value: int)
      requires Valid() && !phase.Draining?
      modifies this
      ensures Valid() && Value() == Step(old(Value()), PendingTable.Event.Respond(id, value))
      ensures pending == old(pending) - {id} && failure == old(failure) && stop == old(stop)
      ensures id in old(pending) ==>
        var c := old(pending)[id];
        log == old(log) + [Left(c), LifetimeCancelled(c), Answered(c, Result(value))]
      ensures id !in old(pending) ==> log == old(log)
    {
      if id in pending {
        var receiver := pending[id];
        pending := pending - {id};
        log := log + [Left(receiver), LifetimeCancelled(receiver)] + [Answered(receiver, Result(value))];
      }
    }

    /** `State::fail`, undisturbed: only the first call does anything, and it empties the table. */
    method Fail(reason: int) returns (ghost events: seq<Event>)
      requires Valid() && Phases(Value()) && (phase.Healthy? || failure.Some?)
      modifies this
      ensures Valid() && Value() == RunFrom(old(Value()), events)
      ensures old(failure).Some? ==> Value() == old(Value())
      ensures old(failure).None? ==> failure == Some(reason) && stop && pending == map[] && phase.Drained?
    {
      ghost var start := Value();
      events := [PendingTable.Event.Fail(reason)];
      RunOne(start, events[0]);
      if failure.Some? {
        return;
      }
      hide RunFrom;
      failure, phase := Some(reason), Recorded;
      RunMore(start, events, CancelStop);
      stop, phase, log := true, Stopped, log + [StopCancelled];
      events := events + [CancelStop];
      RunMore(start, events, LockForDrain);
      phase := Draining;
      events := Drain(start, events + [LockForDrain]);
      RunMore(start, events, UnlockDrained);
      phase := Drained;
      events := events + [UnlockDrained];
    }

    method Drain(ghost start: State, ghost before: seq<Event>) returns (ghost events: seq<Event>)
      requires Valid() && phase.Draining? && Value() == RunFrom(start, before)
      modifies this`pending, this`log
      ensures Valid() && pending == map[] && Value() == RunFrom(start, events)
    {
      hide RunFrom;
      events := before;
      while pending != map[]
        invariant Valid() && phase.Draining?
        invariant Value() == RunFrom(start, events)
        decreases |pending|
      {
        var id :| id in pending;
        RunMore(start, events, DrainOne(id));
        assert (pending - {id}).Keys == pending.Keys - {id};
        var receiver := pending[id];
        pending := pending - {id};
        log := log + [Left(receiver), Answered(receiver, Disconnected), LifetimeCancelled(receiver)];
        events := events + [DrainOne(id)];
      }
    }
  }
}
