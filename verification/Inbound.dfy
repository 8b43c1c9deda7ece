/** The incoming half of a connection: reader, message queue, dispatch loop, callback workers and
    replay barriers, under any interleaving.

    An event that is not enabled leaves the state as it is, so every sequence of events is a run. */
module Inbound {
  import opened Prelude

  const MAX_INCOMING: nat := 64
  const CHANNEL_SLOTS: nat := 256
  const MAX_WORKERS: nat := 32

  /** What the agent may put on the wire, after parsing. */
  datatype Message = Request(id: RpcId) | Notification | Response | CancelRequest(id: RpcId)

  /** What the reader and the barriers put on the queue. A request travels as its token, a
      notification as its position on the wire, a barrier as its number. */
  datatype Item = Call(token: nat) | Note(position: nat) | Fence(number: nat)

  datatype Loop = Ready | Applying(position: nat) | Rejecting(token: nat) | Ended

  /** A barrier issued by a caller that had seen the response at position `after`. */
  datatype Barrier = Barrier(after: nat, passed: bool)

  /** `wire` is what has been dispatched; `owners[t]` is the identifier token `t` was made for. */
  datatype State = State(
    wire: seq<Message>,
    reading: bool,
    failed: bool,
    incoming: map<RpcId, nat>,
    owners: seq<RpcId>,
    cancelled: set<nat>,
    channel: seq<Item>,
    loop: Loop,
    workers: set<nat>,
    finishing: nat,
    answered: seq<nat>,
    applied: seq<nat>,
    barriers: seq<Barrier>)

  const INITIAL := State([], true, false, map[], [], {}, [], Ready, {}, 0, [], [], [])

  datatype Event =
    | Read(message: Message)
    | StopReading
    | IssueBarrier(after: nat)
    | TakeItem
    | UpdateApplied(ok: bool)
    | RejectReply
    | WorkerReply(token: nat)
    | WorkerDone
    | WorkerCrash(token: nat)
    | FailElsewhere
    | LoopStops

  /** The reader fails the connection and stops. */
  function ReaderFails(s: State): State {
    s.(reading := false, failed := true)
  }

  function Dispatch(s: State, m: Message): State {
    var s' := s.(wire := s.wire + [m]);
    match m
    case Request(id) =>
      if |s.incoming| >= MAX_INCOMING then ReaderFails(s) else
      var token := |s.owners|;
      var s1 := s.(incoming := s.incoming[id := token], owners := s.owners + [id]);
      if id in s.incoming then ReaderFails(s1) else
      if |s.channel| >= CHANNEL_SLOTS then ReaderFails(s1) else
      s1.(channel := s.channel + [Call(token)], wire := s.wire + [m])
    case Notification =>
      if |s.channel| >= CHANNEL_SLOTS then ReaderFails(s) else
      s'.(channel := s.channel + [Note(|s.wire|)])
    case Response => s'
    case CancelRequest(id) =>
      if id in s.incoming then s'.(cancelled := s.cancelled + {s.incoming[id]}) else s'
  }

  /** `reply` answers only if the identifier still owns an incoming request. */
  function Reply(s: State, token: nat): State
    requires token < |s.owners|
  {
    var id := s.owners[token];
    if id in s.incoming then s.(incoming := s.incoming - {id}, answered := s.answered + [token]) else s
  }

  function Take(s: State): State
    requires s.channel != []
  {
    var s' := s.(channel := s.channel[1..]);
    match s.channel[0]
    case Fence(k) => if k < |s.barriers| then s'.(barriers := s.barriers[k := s.barriers[k].(passed := true)]) else s'
    case Note(position) => s'.(loop := Applying(position))
    case Call(token) =>
      if |s.workers| + s.finishing < MAX_WORKERS then s'.(workers := s.workers + {token})
      else s'.(loop := Rejecting(token))
  }

  function Step(s: State, e: Event): State {
    match e
    case Read(m) => if s.reading then Dispatch(s, m) else s
    case StopReading => if s.failed then s.(reading := false) else s
    case IssueBarrier(after) =>
      if after < |s.wire| && s.wire[after].Response? && |s.channel| < CHANNEL_SLOTS then
        s.(barriers := s.barriers + [Barrier(after, false)], channel := s.channel + [Fence(|s.barriers|)])
      else s
    case TakeItem => if s.loop.Ready? && s.channel != [] then Take(s) else s
    case UpdateApplied(ok) =>
      if !s.loop.Applying? then s else
      if ok then s.(applied := s.applied + [s.loop.position], loop := Ready)
      else s.(failed := true, loop := Ended, workers := {})
    case RejectReply =>
      if s.loop.Rejecting? && s.loop.token < |s.owners| then Reply(s, s.loop.token).(loop := Ready) else s
    case WorkerReply(token) =>
      if token in s.workers && token < |s.owners| then
        Reply(s, token).(workers := s.workers - {token}, finishing := s.finishing + 1)
      else s
    case WorkerDone => if s.finishing > 0 then s.(finishing := s.finishing - 1) else s
    case WorkerCrash(token) =>
      if s.loop.Ready? && token in s.workers then s.(failed := true, loop := Ended, workers := {}) else s
    case FailElsewhere => s.(failed := true)
    case LoopStops => if s.loop.Ready? && s.failed then s.(loop := Ended, workers := {}) else s
  }

  function RunFrom(s: State, es: seq<Event>): State {
    if es == [] then s else Step(RunFrom(s, es[..|es| - 1]), es[|es| - 1])
  }

  function Run(es: seq<Event>): State {
    RunFrom(INITIAL, es)
  }

  // ---------------------------------------------------------------- who holds which request

  /** Request `t` is in a message on the queue, with a callback worker, or in the loop's hand. */
  ghost predicate Holder(s: State, t: nat) {
    Call(t) in s.channel || t in s.workers || s.loop == Rejecting(t)
  }

  /** No request is held twice. */
  ghost predicate Exclusive(s: State) {
    && (forall i, j | 0 <= i < j < |s.channel| :: s.channel[i] == s.channel[j] ==> !s.channel[i].Call?)
    && (forall t: nat :: Call(t) in s.channel ==> t !in s.workers && s.loop != Rejecting(t))
    && (forall t <- s.workers :: s.loop != Rejecting(t))
  }

  ghost predicate Unanswered(s: State, t: nat) {
    t < |s.owners| && s.owners[t] in s.incoming && s.incoming[s.owners[t]] == t
  }

  /** Nothing held has been answered, and nothing is answered twice. */
  ghost predicate AnsweredOnce(s: State) {
    && (forall t: nat :: Holder(s, t) ==> t < |s.owners| && t !in s.answered)
    && (forall i, j | 0 <= i < j < |s.answered| :: s.answered[i] != s.answered[j])
    && (forall t <- s.answered :: t < |s.owners|)
  }

  /** While the connection lives the holders hold exactly the unanswered requests. */
  ghost predicate Owned(s: State) {
    !s.failed ==>
      && |s.incoming| <= MAX_INCOMING
      && (forall id <- s.incoming :: s.incoming[id] < |s.owners| && s.owners[s.incoming[id]] == id)
      && (forall t: nat :: Holder(s, t) <==> Unanswered(s, t))
  }

  ghost predicate Requests(s: State) {
    Exclusive(s) && AnsweredOnce(s) && Owned(s)
  }

  lemma AcceptKeepsRequests(s: State, t: State, id: RpcId)
    requires Requests(s) && |s.incoming| < MAX_INCOMING && id !in s.incoming
    requires t.incoming == s.incoming[id := |s.owners|] && t.owners == s.owners + [id]
    requires t.channel == s.channel + [Call(|s.owners|)] && t.workers == s.workers && t.loop == s.loop
    requires t.answered == s.answered && t.failed == s.failed
    ensures Requests(t)
  {
    var token := |s.owners|;
    assert !Holder(s, token);
    assert t.incoming.Keys == s.incoming.Keys + {id};
    forall u: nat
      ensures Holder(t, u) <==> Holder(s, u) || u == token
    {
      assert Call(u) in t.channel <==> Call(u) in s.channel || u == token;
    }
    hide Holder;
    forall u: nat
      ensures Unanswered(t, u) <==> (!s.failed && Unanswered(s, u)) || u == token || (s.failed && Unanswered(t, u))
    {}
  }

  /** Changes that leave every holder and every unanswered request alone, or come with failure. */
  lemma FrameKeepsRequests(s: State, t: State)
    requires Requests(s) && Exclusive(t) && t.answered == s.answered
    requires forall u: nat :: Holder(t, u) ==> Holder(s, u)
    requires s.owners <= t.owners && (s.failed ==> t.failed)
    requires t.failed || (t.incoming == s.incoming && t.owners == s.owners)
    requires t.failed || forall u: nat :: Holder(s, u) ==> Holder(t, u)
    ensures Requests(t)
  {
    hide Holder;
    if !t.failed {
      forall u: nat
        ensures Unanswered(s, u) <==> Unanswered(t, u)
      {}
    }
  }

  lemma QueueNonCall(s: State, t: State, item: Item)
    requires Exclusive(s) && !item.Call?
    requires t.channel == s.channel + [item] && t.workers == s.workers && t.loop == s.loop
    ensures Exclusive(t) && forall u: nat :: Holder(t, u) <==> Holder(s, u)
  {
    forall u: nat
      ensures Call(u) in t.channel <==> Call(u) in s.channel
    {}
  }

  /** Dispatching a message touches neither the workers nor the loop; a request that is not accepted comes
      with failure. */
  lemma DispatchEffect(s: State, m: Message)
    ensures
      var t := Dispatch(s, m);
      && t.workers == s.workers && t.loop == s.loop && t.answered == s.answered && (s.failed ==> t.failed)
      && if m.Request? && t.channel != s.channel then
           && |s.incoming| < MAX_INCOMING && m.id !in s.incoming && t.failed == s.failed
           && t.incoming == s.incoming[m.id := |s.owners|] && t.owners == s.owners + [m.id]
           && t.channel == s.channel + [Call(|s.owners|)]
         else
           && (t.channel == s.channel || t.channel == s.channel + [Note(|s.wire|)])
           && s.owners <= t.owners && (t.failed || (t.incoming == s.incoming && t.owners == s.owners))
  {}

  lemma SameHolders(s: State, t: State)
    requires t.channel == s.channel && t.workers == s.workers && t.loop == s.loop
    ensures Exclusive(t) == Exclusive(s) && forall u: nat :: Holder(t, u) <==> Holder(s, u)
  {}

  lemma ReadKeepsRequests(s: State, m: Message)
    requires Requests(s)
    ensures Requests(Dispatch(s, m))
  {
    var t := Dispatch(s, m);
    DispatchEffect(s, m);
    hide Dispatch, Exclusive, AnsweredOnce, Owned, Holder;
    if m.Request? && t.channel != s.channel {
      AcceptKeepsRequests(s, t, m.id);
    } else {
      if t.channel == s.channel {
        SameHolders(s, t);
      } else {
        QueueNonCall(s, t, Note(|s.wire|));
      }
      FrameKeepsRequests(s, t);
    }
  }

  /** A holder answers, and holds nothing afterwards. */
  lemma ReplyKeepsRequests(s: State, token: nat, t: State)
    requires Requests(s) && Holder(s, token) && Exclusive(t)
    requires forall u: nat :: Holder(t, u) <==> Holder(s, u) && u != token
    requires t.owners == s.owners && t.failed == s.failed
    requires token < |s.owners|
    requires t.incoming == Reply(s, token).incoming && t.answered == Reply(s, token).answered
    ensures Requests(t)
  {
    hide Holder, Exclusive;
    if !s.failed {
      assert Unanswered(s, token);
      assert t.incoming.Keys == s.incoming.Keys - {s.owners[token]};
      forall u: nat
        ensures Unanswered(t, u) <==> Unanswered(s, u) && u != token
      {}
    }
  }

  lemma TakeMovesHolder(s: State, t: State, u: nat)
    requires s.loop.Ready? && s.channel != [] && t == Take(s)
    ensures Holder(t, u) <==> Holder(s, u)
  {
    assert s.channel == [s.channel[0]] + t.channel;
    assert Call(u) in s.channel <==> s.channel[0] == Call(u) || Call(u) in t.channel;
  }

  lemma TakeKeepsExclusive(s: State, t: State)
    requires Exclusive(s) && s.loop.Ready? && s.channel != [] && t == Take(s)
    ensures Exclusive(t)
  {
    assert forall i | 0 <= i < |t.channel| :: t.channel[i] == s.channel[i + 1];
    if s.channel[0].Call? {
      var head := s.channel[0].token;
      assert s.channel[0] in s.channel;
      assert Call(head) !in t.channel;
      assert t.workers == s.workers || t.workers == s.workers + {head};
    }
    forall u: nat | Call(u) in t.channel
      ensures Call(u) in s.channel
    {}
  }

  lemma TakeKeepsRequests(s: State)
    requires Requests(s) && s.loop.Ready? && s.channel != []
    ensures Requests(Take(s))
  {
    var t := Take(s);
    TakeKeepsExclusive(s, t);
    forall u: nat
      ensures Holder(t, u) <==> Holder(s, u)
    {
      TakeMovesHolder(s, t, u);
    }
    hide Exclusive, Holder, AnsweredOnce;
    FrameKeepsRequests(s, t);
  }

  lemma AnswerKeepsRequests(s: State, e: Event)
    requires Requests(s) && ((e.RejectReply? && s.loop.Rejecting?) || (e.WorkerReply? && e.token in s.workers))
    ensures Requests(Step(s, e))
  {
    var t, token := Step(s, e), if e.RejectReply? then s.loop.token else e.token;
    assert Holder(s, token);
    assert Exclusive(t);
    forall u: nat
      ensures Holder(t, u) <==> Holder(s, u) && u != token
    {}
    hide Exclusive, Holder;
    ReplyKeepsRequests(s, token, t);
  }

  lemma RestKeepsExclusive(s: State, e: Event)
    requires Exclusive(s) && !e.Read? && !e.IssueBarrier? && !e.TakeItem? && !e.RejectReply? && !e.WorkerReply?
    ensures
      var t := Step(s, e);
      && Exclusive(t) && t.answered == s.answered && t.owners == s.owners && t.incoming == s.incoming
      && t.channel == s.channel && (s.failed ==> t.failed)
      && (t.failed || (t.workers == s.workers && forall u: nat :: t.loop == Rejecting(u) <==> s.loop == Rejecting(u)))
      && t.workers <= s.workers && forall u: nat :: t.loop == Rejecting(u) ==> s.loop == Rejecting(u)
  {}

  lemma RestKeepsRequests(s: State, e: Event)
    requires Requests(s) && !e.Read? && !e.TakeItem? && !e.RejectReply? && !e.WorkerReply?
    ensures Requests(Step(s, e))
  {
    var t := Step(s, e);
    if e.IssueBarrier? {
      if t != s {
        QueueNonCall(s, t, Fence(|s.barriers|));
        hide Exclusive;
        FrameKeepsRequests(s, t);
      }
    } else {
      RestKeepsExclusive(s, e);
      hide Exclusive, Step;
      FrameKeepsRequests(s, t);
    }
  }

  lemma StepKeepsRequests(s: State, e: Event)
    requires Requests(s)
    ensures Requests(Step(s, e))
  {
    hide Requests, Dispatch, Take;
    if e.Read? && s.reading {
      ReadKeepsRequests(s, e.message);
    } else if e.TakeItem? && s.loop.Ready? && s.channel != [] {
      TakeKeepsRequests(s);
    } else if (e.RejectReply? && s.loop.Rejecting?) || (e.WorkerReply? && e.token in s.workers) {
      AnswerKeepsRequests(s, e);
    } else if !e.Read? && !e.TakeItem? && !e.RejectReply? && !e.WorkerReply? {
      RestKeepsRequests(s, e);
    }
  }

  /** In every run each unanswered request of a living connection has exactly one holder, at most
      64 exist, and each is answered at most once. */
  lemma {:induction false} EveryRequestIsOwned(es: seq<Event>)
    ensures Requests(Run(es))
  {
    if es != [] {
      hide Step, Requests;
      EveryRequestIsOwned(es[..|es| - 1]);
      StepKeepsRequests(Run(es[..|es| - 1]), es[|es| - 1]);
    } else {
      InitiallyOwned();
    }
  }

  lemma InitiallyOwned()
    ensures Requests(INITIAL)
  {}

  /** A protocol cancellation reaches the token of the request it names and no other; in particular
      a number never names a string. */
  lemma CancellationIsExact(es: seq<Event>, id: RpcId, t: nat)
    requires Run(es).reading && !Run(es).failed && t !in Run(es).cancelled
    ensures t in Run(es + [Read(CancelRequest(id))]).cancelled
            <==> Holder(Run(es), t) && t < |Run(es).owners| && Run(es).owners[t] == id
  {
    EveryRequestIsOwned(es);
    assert (es + [Read(CancelRequest(id))])[..|es|] == es;
    var s := Run(es);
    hide Run;
    assert Holder(s, t) <==> Unanswered(s, t);
  }

  // ---------------------------------------------------------------- responses cannot overtake replay

  /** Positions of the notifications on the wire. */
  function Notes(wire: seq<Message>): seq<nat> {
    if wire == [] then [] else
    Notes(wire[..|wire| - 1]) + if wire[|wire| - 1].Notification? then [|wire| - 1] else []
  }

  function Waiting(channel: seq<Item>): seq<nat> {
    if channel == [] then [] else
    (if channel[0].Note? then [channel[0].position] else []) + Waiting(channel[1..])
  }

  function InHand(loop: Loop): seq<nat> {
    if loop.Applying? then [loop.position] else []
  }

  /** Notifications are applied in wire order, each once; the rest are in hand or still queued. */
  ghost predicate Replayed(s: State) {
    !s.loop.Ended? ==> s.applied + InHand(s.loop) + Waiting(s.channel) == Notes(s.wire)
  }

  /** A barrier that has passed has seen every earlier notification applied. */
  ghost predicate Seen(s: State, b: Barrier) {
    b.after < |s.wire| && (b.passed ==> forall p <- Notes(s.wire) :: p < b.after ==> p in s.applied)
  }

  /** Only notifications later on the wire than a barrier's response queue up behind it. */
  ghost predicate Behind(s: State, i: nat, j: nat)
    requires i < j < |s.channel|
  {
    s.channel[i].Fence? && s.channel[j].Note? ==>
      s.channel[i].number < |s.barriers| && s.channel[j].position > s.barriers[s.channel[i].number].after
  }

  ghost predicate Ordered(s: State) {
    && Replayed(s)
    && (forall b <- s.barriers :: Seen(s, b))
    && (forall i, j | 0 <= i < j < |s.channel| :: Behind(s, i, j))
    && (forall item <- s.channel :: item.Fence? ==> item.number < |s.barriers|)
  }

  lemma {:induction false} WaitingAppend(channel: seq<Item>, item: Item)
    ensures Waiting(channel + [item]) == Waiting(channel) + if item.Note? then [item.position] else []
  {
    var longer := channel + [item];
    if channel == [] {
      assert longer == [item] && longer[1..] == [];
    } else {
      WaitingAppend(channel[1..], item);
      assert longer[1..] == channel[1..] + [item] && longer[0] == channel[0];
    }
  }

  lemma {:induction false} WaitingAreQueued(channel: seq<Item>, p: nat)
    ensures p in Waiting(channel) <==> Note(p) in channel
  {
    if channel != [] {
      WaitingAreQueued(channel[1..], p);
      assert channel == [channel[0]] + channel[1..];
    }
  }

  lemma NotesAppend(wire: seq<Message>, m: Message)
    ensures Notes(wire + [m]) == Notes(wire) + if m.Notification? then [|wire|] else []
  {
    assert (wire + [m])[..|wire|] == wire;
  }

  lemma SeenStays(s: State, t: State, b: Barrier)
    requires Seen(s, b) && s.applied <= t.applied
    requires t.wire == s.wire || exists m :: t.wire == s.wire + [m]
    ensures Seen(t, b)
  {
    hide Notes;
    if m :| t.wire == s.wire + [m] {
      NotesAppend(s.wire, m);
    }
  }

  /** What dispatching one message does to the wire and the queue. */
  lemma DispatchFrames(s: State, m: Message)
    ensures
      var t := Dispatch(s, m);
      && t.barriers == s.barriers && t.applied == s.applied && t.loop == s.loop
      && (t.wire == s.wire || t.wire == s.wire + [m])
      && (t.channel == s.channel
          || (m.Notification? && t.wire == s.wire + [m] && t.channel == s.channel + [Note(|s.wire|)])
          || (m.Request? && t.channel == s.channel + [Call(|s.owners|)]))
      && (m.Notification? && t.wire != s.wire ==> t.channel != s.channel)
  {}

  lemma DispatchKeepsReplay(s: State, m: Message)
    requires Replayed(s)
    ensures Replayed(Dispatch(s, m))
  {
    DispatchFrames(s, m);
    NotesAppend(s.wire, m);
    WaitingAppend(s.channel, Note(|s.wire|));
    WaitingAppend(s.channel, Call(|s.owners|));
    hide Notes, Waiting, Dispatch, InHand;
    assert s.applied + InHand(s.loop) + (Waiting(s.channel) + [|s.wire|])
        == (s.applied + InHand(s.loop) + Waiting(s.channel)) + [|s.wire|];
  }

  lemma DispatchKeepsOrder(s: State, m: Message)
    requires Ordered(s)
    ensures Ordered(Dispatch(s, m))
  {
    DispatchKeepsReplay(s, m);
    DispatchFrames(s, m);
    hide Dispatch, Replayed, Seen;
    var t := Dispatch(s, m);
    forall b <- t.barriers
      ensures Seen(t, b)
    {
      SeenStays(s, t, b);
    }
    forall i, j | 0 <= i < j < |t.channel|
      ensures Behind(t, i, j)
    {
      if j < |s.channel| {
        assert Behind(s, i, j);
      } else if t.channel[i].Fence? {
        assert t.channel[i] in s.channel;
        SeenBounds(s, s.barriers[t.channel[i].number]);
      }
    }
  }

  lemma SeenBounds(s: State, b: Barrier)
    requires Seen(s, b)
    ensures b.after < |s.wire|
  {}

  lemma BarrierKeepsOrder(s: State, after: nat)
    requires Ordered(s)
    ensures Ordered(Step(s, IssueBarrier(after)))
  {
    var t := Step(s, IssueBarrier(after));
    if t != s {
      WaitingAppend(s.channel, Fence(|s.barriers|));
      hide Waiting, Notes;
      forall i, j | 0 <= i < j < |t.channel|
        ensures Behind(t, i, j)
      {
        if j < |s.channel| {
          assert Behind(s, i, j);
        }
      }
    }
  }

  lemma TakeKeepsReplay(s: State)
    requires Replayed(s) && s.loop.Ready? && s.channel != []
    ensures Replayed(Take(s))
  {
    hide Notes;
  }

  lemma TakeKeepsBehind(s: State)
    requires Ordered(s) && s.channel != []
    ensures
      var t := Take(s);
      && (forall i, j | 0 <= i < j < |t.channel| :: Behind(t, i, j))
      && (forall item <- t.channel :: item.Fence? ==> item.number < |t.barriers|)
  {
    var t := Take(s);
    hide Replayed, Seen;
    forall i, j | 0 <= i < j < |t.channel|
      ensures Behind(t, i, j)
    {
      assert Behind(s, i + 1, j + 1);
    }
    assert forall item <- t.channel :: item in s.channel;
  }

  lemma TakeKeepsSeen(s: State, b: Barrier)
    requires Ordered(s) && s.loop.Ready? && s.channel != [] && b in Take(s).barriers
    ensures Seen(Take(s), b)
  {
    var t := Take(s);
    assert s.channel[0] in s.channel;
    assert forall c <- s.barriers :: Seen(s, c);
    hide Replayed, Seen, Behind, Ordered;
    if b in s.barriers {
      SeenStays(s, t, b);
    } else {
      FencePasses(s, t, b);
    }
  }

  lemma TakeKeepsOrder(s: State)
    requires Ordered(s) && s.loop.Ready? && s.channel != []
    ensures Ordered(Take(s))
  {
    TakeKeepsReplay(s);
    TakeKeepsBehind(s);
    hide Take, Replayed, Seen, Behind;
    forall b <- Take(s).barriers
      ensures Seen(Take(s), b)
    {
      TakeKeepsSeen(s, b);
    }
  }

  /** The barrier at the head of the queue: everything before its response has been applied. */
  lemma FencePasses(s: State, t: State, b: Barrier)
    requires Ordered(s) && s.loop.Ready? && s.channel != [] && s.channel[0].Fence?
    requires b == s.barriers[s.channel[0].number].(passed := true)
    requires t.wire == s.wire && t.applied == s.applied
    ensures Seen(t, b)
  {
    assert s.barriers[s.channel[0].number] in s.barriers;
    forall p <- Notes(s.wire)
      ensures p < b.after ==> p in s.applied
    {
      if p in Waiting(s.channel) {
        WaitingAreQueued(s.channel, p);
        var j :| 0 <= j < |s.channel| && s.channel[j] == Note(p);
        assert Behind(s, 0, j);
      }
    }
  }

  lemma StepKeepsOrder(s: State, e: Event)
    requires Ordered(s)
    ensures Ordered(Step(s, e))
  {
    if e.Read? {
      hide Ordered, Dispatch;
      DispatchKeepsOrder(s, e.message);
    } else if e.IssueBarrier? {
      BarrierKeepsOrder(s, e.after);
    } else if e.TakeItem? {
      hide Ordered, Take;
      if s.loop.Ready? && s.channel != [] {
        TakeKeepsOrder(s);
      }
    } else {
      LoopKeepsOrder(s, e);
    }
  }

  lemma LoopFrames(s: State, e: Event)
    requires !e.Read? && !e.IssueBarrier? && !e.TakeItem?
    ensures
      var t := Step(s, e);
      t.channel == s.channel && t.barriers == s.barriers && t.wire == s.wire && s.applied <= t.applied
  {}

  lemma LoopReplays(s: State, e: Event)
    requires Replayed(s) && !e.Read? && !e.IssueBarrier? && !e.TakeItem?
    ensures Replayed(Step(s, e))
  {
    hide Waiting, Notes;
  }

  lemma LoopKeepsOrder(s: State, e: Event)
    requires Ordered(s) && !e.Read? && !e.IssueBarrier? && !e.TakeItem?
    ensures Ordered(Step(s, e))
  {
    LoopReplays(s, e);
    LoopFrames(s, e);
    hide Step, Replayed, Seen;
    var t := Step(s, e);
    forall b <- t.barriers
      ensures Seen(t, b)
    {
      SeenStays(s, t, b);
    }
    forall i, j | 0 <= i < j < |t.channel|
      ensures Behind(t, i, j)
    {
      assert Behind(s, i, j);
    }
  }

  lemma {:induction false} EveryRunIsOrdered(es: seq<Event>)
    ensures Ordered(Run(es))
  {
    if es != [] {
      hide Step, Ordered;
      EveryRunIsOrdered(es[..|es| - 1]);
      StepKeepsOrder(Run(es[..|es| - 1]), es[|es| - 1]);
    } else {
      InitiallyOrdered();
    }
  }

  lemma InitiallyOrdered()
    ensures Ordered(INITIAL)
  {}

  lemma {:induction false} NotesAreNotifications(wire: seq<Message>, p: nat)
    ensures p in Notes(wire) <==> p < |wire| && wire[p].Notification?
  {
    if wire != [] {
      NotesAreNotifications(wire[..|wire| - 1], p);
    }
  }

  /** Once a barrier issued for a response has passed, every notification before that response on the
      wire has been applied; and what has been applied is the first notifications, in wire order. */
  lemma ReplayPrecedesResponse(es: seq<Event>, k: nat, p: nat)
    requires k < |Run(es).barriers| && Run(es).barriers[k].passed
    requires p < Run(es).barriers[k].after && p < |Run(es).wire| && Run(es).wire[p].Notification?
    ensures p in Run(es).applied
  {
    var s := Run(es);
    EveryRunIsOrdered(es);
    hide Run;
    NotesAreNotifications(s.wire, p);
    assert s.barriers[k] in s.barriers;
    assert Seen(s, s.barriers[k]);
  }

  lemma AppliedInWireOrder(es: seq<Event>)
    requires !Run(es).loop.Ended?
    ensures Run(es).applied <= Notes(Run(es).wire)
  {
    EveryRunIsOrdered(es);
    hide Run;
    assert Replayed(Run(es));
  }
}
