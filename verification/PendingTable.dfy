/** The table of outgoing requests awaiting a response, under any interleaving of its users.

    An event that is not enabled leaves the state as it is, so every sequence of events is a run. */
module PendingTable {
  import opened Prelude

  const MAX_PENDING: nat := 128

  function Digits(n: nat): (text: string)
    ensures text != [] && (|text| == 1 <==> n < 10)
  {
    if n < 10 then [DIGITS[n]] else Digits(n / 10) + [DIGITS[n % 10]]
  }

  const DIGITS: string := "0123456789"

  /** The identifier of the request the counter numbers `n`. */
  function OwnId(n: nat): RpcId {
    Text("synara-" + Digits(n))
  }

  /** The value the wrapping 64-bit counter, which starts at one, hands to its `k`-th user. */
  function Ticket(k: nat): nat {
    (1 + k) % U64_COUNT
  }

  lemma {:induction false} DigitsInjective(m: nat, n: nat)
    ensures Digits(m) == Digits(n) ==> m == n
  {
    if Digits(m) == Digits(n) && m >= 10 && n >= 10 {
      var k := |Digits(m)| - 1;
      assert Digits(m)[..k] == Digits(m / 10) && Digits(n)[..k] == Digits(n / 10);
      assert Digits(m)[k] == DIGITS[m % 10] && Digits(n)[k] == DIGITS[n % 10];
      DigitsInjective(m / 10, n / 10);
    } else if m < 10 && n < 10 {
      assert Digits(m)[0] == DIGITS[m] && Digits(n)[0] == DIGITS[n];
    }
  }

  lemma OwnIdInjective(m: nat, n: nat)
    ensures OwnId(m) == OwnId(n) ==> m == n
  {
    assert OwnId(m).text[7..] == Digits(m) && OwnId(n).text[7..] == Digits(n);
    DigitsInjective(m, n);
  }

  lemma TicketsCollideIff(j: nat, k: nat)
    ensures Ticket(j) == Ticket(k) <==> (j - k) % U64_COUNT == 0
  {}

  /** Two requests share an identifier exactly when 2^64 requests, or a multiple, lie between. */
  lemma IdsCollideIff(j: nat, k: nat)
    ensures IdOf(j) == IdOf(k) <==> (j - k) % U64_COUNT == 0
  {
    OwnIdInjective(Ticket(j), Ticket(k));
    hide OwnId, Ticket;
    TicketsCollideIff(j, k);
  }

  /** So the identifiers of the first 2^64 requests are all different. */
  lemma IdsDistinct(j: nat, k: nat)
    requires j < U64_COUNT && k < U64_COUNT
    ensures IdOf(j) == IdOf(k) ==> j == k
  {
    IdsCollideIff(j, k);
    hide IdOf;
  }

  // ---------------------------------------------------------------- the machine

  /** One call of `begin_request`. `Owning` holds the guard, while sending and while waiting. */
  datatype Caller = Numbered | Owning | Done

  /** How far the one winning call of `State::fail` has got. While draining it holds the lock. */
  datatype Phase = Healthy | Recorded | Stopped | Draining | Drained

  datatype Answer = Result(value: int) | Disconnected

  /** What other tasks can observe, in order, of each request by the number its call got. */
  datatype Notice =
    | Entered(caller: nat)
    | Left(caller: nat)
    | LifetimeCancelled(caller: nat)
    | Answered(caller: nat, answer: Answer)
    | StopCancelled

  /** `pending` says which request is in the table under an identifier. */
  datatype State = State(
    pending: map<RpcId, nat>,
    callers: seq<Caller>,
    phase: Phase,
    failure: Option<int>,
    log: seq<Notice>)

  const INITIAL := State(map[], [], Healthy, None, [])

  function IdOf(caller: nat): RpcId {
    OwnId(Ticket(caller))
  }

  datatype Event =
    | Call
    | Insert(caller: nat)
    | DropGuard(caller: nat)
    | Respond(id: RpcId, value: int)
    | Fail(reason: int)
    | CancelStop
    | LockForDrain
    | DrainOne(id: RpcId)
    | UnlockDrained

  predicate IsStopped(s: State) {
    s.phase.Stopped? || s.phase.Draining? || s.phase.Drained?
  }

  /** Taking out an entry, whose lifetime ends. */
  function Take(s: State, id: RpcId): State
    requires id in s.pending
  {
    s.(pending := s.pending - {id}, log := s.log + [Left(s.pending[id]), LifetimeCancelled(s.pending[id])])
  }

  /** Entering a request; an entry that is replaced is dropped. */
  function Enter(s: State, c: nat): State {
    var id := IdOf(c);
    var replaced := if id in s.pending then [Left(s.pending[id]), LifetimeCancelled(s.pending[id])] else [];
    s.(pending := s.pending[id := c], log := s.log + [Entered(c)] + replaced)
  }

  function Step(s: State, e: Event): State {
    match e
    case Call => s.(callers := s.callers + [Numbered])
    case Insert(c) =>
      if c < |s.callers| && s.callers[c].Numbered? && !s.phase.Draining? then
        if IsStopped(s) || |s.pending| >= MAX_PENDING then s.(callers := s.callers[c := Done])
        else Enter(s, c).(callers := s.callers[c := Owning])
      else s
    case DropGuard(c) =>
      if c < |s.callers| && s.callers[c].Owning? && !s.phase.Draining? then
        var s' := s.(callers := s.callers[c := Done]);
        if IdOf(c) in s.pending then Take(s', IdOf(c)) else s'
      else s
    case Respond(id, value) =>
      if id in s.pending && !s.phase.Draining? then
        var t := Take(s, id);
        t.(log := t.log + [Answered(s.pending[id], Result(value))])
      else s
    case Fail(reason) =>
      if s.failure.None? then s.(failure := Some(reason), phase := Recorded) else s
    case CancelStop =>
      if s.phase.Recorded? then s.(phase := Stopped, log := s.log + [StopCancelled]) else s
    case LockForDrain =>
      if s.phase.Stopped? then s.(phase := Draining) else s
    case DrainOne(id) =>
      if s.phase.Draining? && id in s.pending then
        var c := s.pending[id];
        s.(pending := s.pending - {id}, log := s.log + [Left(c), Answered(c, Disconnected), LifetimeCancelled(c)])
      else s
    case UnlockDrained =>
      if s.phase.Draining? && s.pending == map[] then s.(phase := Drained) else s
  }

  function RunFrom(s: State, es: seq<Event>): State {
    if es == [] then s else Step(RunFrom(s, es[..|es| - 1]), es[|es| - 1])
  }

  function Run(es: seq<Event>): State {
    RunFrom(INITIAL, es)
  }

  // ---------------------------------------------------------------- the life of one request

  datatype Stage = Unseen | InTable | Out | Replied | Broken

  datatype Life = Life(stage: Stage, cancelled: bool)

  /** An observer of one request. It breaks if the request enters or leaves the table twice, is answered
      before it left or twice, or is answered before its lifetime was cancelled. */
  function Observe(life: Life, c: nat, n: Notice): Life {
    match n
    case Entered(x) => if x != c then life else life.(stage := if life.stage.Unseen? then InTable else Broken)
    case Left(x) => if x != c then life else life.(stage := if life.stage.InTable? then Out else Broken)
    case LifetimeCancelled(x) => if x != c then life else life.(cancelled := true)
    case Answered(x, _) =>
      if x != c then life else life.(stage := if life.stage.Out? && life.cancelled then Replied else Broken)
    case StopCancelled => life.(cancelled := true)
  }

  function Watch(log: seq<Notice>, c: nat): Life {
    if log == [] then Life(Unseen, false) else Observe(Watch(log[..|log| - 1], c), c, log[|log| - 1])
  }

  /** Request `c` has the entry under its identifier. */
  predicate Holds(s: State, c: nat) {
    IdOf(c) in s.pending && s.pending[IdOf(c)] == c
  }

  ghost predicate Healthily(s: State, c: nat) {
    var life := Watch(s.log, c);
    && !life.stage.Broken?
    && (Holds(s, c) <==> life.stage.InTable?)
    && (life.stage.Out? || life.stage.Replied? ==> life.cancelled)
    && (IsStopped(s) ==> life.cancelled)
    && (!life.stage.Unseen? ==> c < |s.callers| && !s.callers[c].Numbered?)
  }

  ghost predicate Phases(s: State) {
    && (s.phase.Healthy? <==> s.failure.None?)
    && (s.phase.Drained? ==> s.pending == map[])
    && |s.pending| <= MAX_PENDING
  }

  /** Every entry is under the identifier of its request. */
  ghost predicate Keyed(s: State) {
    forall id | id in s.pending :: id == IdOf(s.pending[id])
  }

  ghost predicate Valid(s: State) {
    Phases(s) && Keyed(s) && forall c: nat :: Healthily(s, c)
  }

  lemma WatchAppend(log: seq<Notice>, n: Notice, c: nat)
    ensures Watch(log + [n], c) == Observe(Watch(log, c), c, n)
  {
    assert (log + [n])[..|log|] == log;
  }

  lemma WatchAppendThree(log: seq<Notice>, x: Notice, y: Notice, z: Notice, c: nat)
    ensures Watch(log + [x, y], c) == Observe(Observe(Watch(log, c), c, x), c, y)
    ensures Watch(log + [x, y, z], c) == Observe(Observe(Observe(Watch(log, c), c, x), c, y), c, z)
  {
    WatchAppend(log, x, c);
    WatchAppend(log + [x], y, c);
    WatchAppend(log + [x] + [y], z, c);
    assert log + [x] + [y] == log + [x, y];
    assert log + [x, y] + [z] == log + [x, y, z];
  }

  /** Entering a request under a free identifier. */
  lemma EnterFree(s: State, c: nat, d: nat)
    requires Healthily(s, c) && Healthily(s, d) && IdOf(c) !in s.pending
    requires c < |s.callers| && s.callers[c].Numbered? && !IsStopped(s)
    ensures Healthily(Enter(s, c).(callers := s.callers[c := Owning]), d)
  {
    hide IdOf;
    WatchAppend(s.log, Entered(c), d);
    assert s.log + [Entered(c)] + [] == s.log + [Entered(c)];
    hide Watch;
  }

  /** Entering a request in the place of request `was`. */
  lemma EnterOver(s: State, c: nat, was: nat, d: nat)
    requires Healthily(s, c) && Healthily(s, d) && Healthily(s, was)
    requires IdOf(c) in s.pending && s.pending[IdOf(c)] == was && IdOf(was) == IdOf(c)
    requires c < |s.callers| && s.callers[c].Numbered? && !IsStopped(s)
    ensures Healthily(Enter(s, c).(callers := s.callers[c := Owning]), d)
  {
    hide IdOf;
    WatchAppendThree(s.log, Entered(c), Left(was), LifetimeCancelled(was), d);
    assert s.log + [Entered(c)] + [Left(was), LifetimeCancelled(was)]
        == s.log + [Entered(c), Left(was), LifetimeCancelled(was)];
    hide Watch;
  }

  lemma InsertKeeps(s: State, c: nat, d: nat)
    requires Valid(s) && c < |s.callers| && s.callers[c].Numbered? && !IsStopped(s)
    ensures Healthily(Enter(s, c).(callers := s.callers[c := Owning]), d)
  {
    hide IdOf, Healthily, Enter, Phases;
    if IdOf(c) in s.pending {
      EnterOver(s, c, s.pending[IdOf(c)], d);
    } else {
      EnterFree(s, c, d);
    }
  }

  /** An entry leaves the table as `notices` say. */
  lemma TakenHealthily(s: State, t: State, id: RpcId, notices: seq<Notice>, d: nat)
    requires Healthily(s, d) && Keyed(s) && id in s.pending
    requires t.pending == s.pending - {id} && t.phase == s.phase && t.log == s.log + notices
    requires |t.callers| == |s.callers| && (d < |s.callers| && t.callers[d].Numbered? ==> s.callers[d].Numbered?)
    requires
      var c := s.pending[id];
      || notices == [Left(c), LifetimeCancelled(c)]
      || (exists answer :: notices == [Left(c), LifetimeCancelled(c), Answered(c, answer)])
      || (exists answer :: notices == [Left(c), Answered(c, answer), LifetimeCancelled(c)] && IsStopped(s))
    ensures Healthily(t, d)
  {
    hide IdOf;
    WatchAppendThree(s.log, notices[0], notices[1], if |notices| == 3 then notices[2] else StopCancelled, d);
    hide Watch;
  }

  lemma TakeKeeps(s: State, e: Event, d: nat)
    requires Valid(s) && (e.DropGuard? || e.Respond? || e.DrainOne?)
    ensures Healthily(Step(s, e), d)
  {
    hide IdOf;
    var t := Step(s, e);
    assert Healthily(s, d);
    if t.log != s.log {
      var id := if e.DropGuard? then IdOf(e.caller) else e.id;
      var c := s.pending[id];
      if e.DropGuard? {
        hide Healthily, Valid;
        TakenHealthily(s, t, id, [Left(c), LifetimeCancelled(c)], d);
      } else if e.Respond? {
        assert s.log + [Left(c), LifetimeCancelled(c)] + [Answered(c, Result(e.value))]
            == s.log + [Left(c), LifetimeCancelled(c), Answered(c, Result(e.value))];
        hide Healthily, Valid;
        TakenHealthily(s, t, id, [Left(c), LifetimeCancelled(c), Answered(c, Result(e.value))], d);
      } else {
        hide Healthily, Valid;
        TakenHealthily(s, t, id, [Left(c), Answered(c, Disconnected), LifetimeCancelled(c)], d);
      }
    }
  }

  lemma OtherKeeps(s: State, e: Event, d: nat)
    requires Valid(s) && !(e.Insert? || e.DropGuard? || e.Respond? || e.DrainOne?)
    ensures Healthily(Step(s, e), d)
  {
    hide IdOf;
    assert Healthily(s, d);
    WatchAppend(s.log, StopCancelled, d);
  }

  lemma RemovalShrinks<K, V>(m: map<K, V>, k: K)
    ensures |m - {k}| <= |m|
    ensures m == map[] ==> m - {k} == map[]
  {
    SubsetSize(m - {k}, m);
  }

  lemma InsertKeepsPhases(s: State, c: nat)
    requires Phases(s)
    ensures Phases(Step(s, Insert(c)))
  {
    assert s.pending[IdOf(c) := c].Keys == s.pending.Keys + {IdOf(c)};
    hide IdOf;
  }

  lemma TakingKeepsPhases(s: State, e: Event)
    requires Phases(s) && (e.DropGuard? || e.Respond? || e.DrainOne?)
    ensures Phases(Step(s, e))
  {
    RemovalShrinks(s.pending, if e.DropGuard? then IdOf(e.caller) else e.id);
    hide IdOf;
  }

  lemma PhasesKept(s: State, e: Event)
    requires Phases(s)
    ensures Phases(Step(s, e))
  {
    if e.DropGuard? || e.Respond? || e.DrainOne? {
      hide Step, Phases;
      TakingKeepsPhases(s, e);
    } else if e.Insert? {
      hide Step, Phases;
      InsertKeepsPhases(s, e.caller);
    } else {
      hide IdOf;
    }
  }

  lemma KeyedKept(s: State, e: Event)
    requires Keyed(s)
    ensures Keyed(Step(s, e))
  {
    hide IdOf;
  }

  lemma StepKeepsValid(s: State, e: Event)
    requires Valid(s)
    ensures Valid(Step(s, e))
  {
    PhasesKept(s, e);
    KeyedKept(s, e);
    forall c: nat
      ensures Healthily(Step(s, e), c)
    {
      if e.Insert? {
        InsertStep(s, e.caller, c);
      } else {
        hide Step, Healthily;
        if e.DropGuard? || e.Respond? || e.DrainOne? {
          TakeKeeps(s, e, c);
        } else {
          OtherKeeps(s, e, c);
        }
      }
    }
  }

  lemma InsertStep(s: State, c: nat, d: nat)
    requires Valid(s)
    ensures Healthily(Step(s, Insert(c)), d)
  {
    assert Healthily(s, d);
    if c < |s.callers| && s.callers[c].Numbered? && !s.phase.Draining? {
      if IsStopped(s) || |s.pending| >= MAX_PENDING {
        hide Watch, IdOf, Enter;
      } else {
        hide Valid, Healthily, Enter;
        InsertKeeps(s, c, d);
      }
    } else {
      hide Healthily;
    }
  }

  /** Every run keeps the table valid, whatever races with what and however often the counter wraps. */
  lemma {:induction false} Reachable(es: seq<Event>)
    ensures Valid(Run(es))
  {
    hide Step, Healthily;
    if es != [] {
      Reachable(es[..|es| - 1]);
      StepKeepsValid(Run(es[..|es| - 1]), es[|es| - 1]);
    } else {
      InitiallyValid();
    }
  }

  lemma InitiallyValid()
    ensures Valid(INITIAL)
  {}

  // ---------------------------------------------------------------- in terms of positions

  ghost predicate AnswersAt(log: seq<Notice>, i: int, c: nat) {
    0 <= i < |log| && log[i].Answered? && log[i].caller == c
  }

  ghost predicate CancelsAt(log: seq<Notice>, i: int, c: nat) {
    0 <= i < |log| && (log[i] == LifetimeCancelled(c) || log[i] == StopCancelled)
  }

  lemma {:induction false} WatchSees(log: seq<Notice>, c: nat)
    requires !Watch(log, c).stage.Broken?
    ensures
      var life := Watch(log, c);
      && (life.cancelled <==> exists j :: CancelsAt(log, j, c))
      && (life.stage.Unseen? <==> Entered(c) !in log)
      && (life.stage.Out? || life.stage.Replied? <==> Left(c) in log)
      && (life.stage.Replied? <==> exists j :: AnswersAt(log, j, c))
  {
    if log != [] {
      var init, n := log[..|log| - 1], log[|log| - 1];
      WatchSees(init, c);
      assert log == init + [n];
      assert forall j :: CancelsAt(init, j, c) ==> CancelsAt(log, j, c);
      assert forall j :: AnswersAt(init, j, c) ==> AnswersAt(log, j, c);
      assert CancelsAt(log, |log| - 1, c) <==> (n == LifetimeCancelled(c) || n == StopCancelled);
      assert AnswersAt(log, |log| - 1, c) <==> (n.Answered? && n.caller == c);
      assert forall j :: CancelsAt(log, j, c) && j < |log| - 1 ==> CancelsAt(init, j, c);
      assert forall j :: AnswersAt(log, j, c) && j < |log| - 1 ==> AnswersAt(init, j, c);
    }
  }

  lemma {:induction false} UnbrokenPrefix(log: seq<Notice>, k: nat, c: nat)
    requires k <= |log| && !Watch(log, c).stage.Broken?
    ensures !Watch(log[..k], c).stage.Broken?
  {
    if k < |log| {
      assert log[..|log| - 1][..k] == log[..k];
      UnbrokenPrefix(log[..|log| - 1], k, c);
    } else {
      assert log[..k] == log;
    }
  }

  /** A request enters at most once, leaves at most once and only after entering, and is answered at most
      once; and an answer comes after leaving and after the cancellation of its lifetime. */
  lemma OneLife(es: seq<Event>, c: nat, i: nat, j: nat)
    requires i < |Run(es).log| && j < |Run(es).log|
    ensures
      var log := Run(es).log;
      && (log[i] == log[j] == Entered(c) ==> i == j)
      && (log[i] == log[j] == Left(c) ==> i == j)
      && (AnswersAt(log, i, c) && AnswersAt(log, j, c) ==> i == j)
      && (log[j] == Left(c) ==> Entered(c) in log[..j])
      && (AnswersAt(log, j, c) ==> Left(c) in log[..j] && exists k :: CancelsAt(log[..j], k, c))
  {
    Reachable(es);
    assert Healthily(Run(es), c);
    var log := Run(es).log;
    hide Run;
    SeenOnce(log, c, i, j);
    SeenOnce(log, c, j, i);
  }

  lemma SeenOnce(log: seq<Notice>, c: nat, i: nat, j: nat)
    requires i < |log| && j < |log| && !Watch(log, c).stage.Broken?
    ensures i < j ==> !(log[i] == log[j] == Entered(c)) && !(log[i] == log[j] == Left(c))
    ensures i < j ==> !(AnswersAt(log, i, c) && AnswersAt(log, j, c))
    ensures log[j] == Left(c) ==> Entered(c) in log[..j]
    ensures AnswersAt(log, j, c) ==> Left(c) in log[..j] && exists k :: CancelsAt(log[..j], k, c)
  {
    UnbrokenPrefix(log, j, c);
    UnbrokenPrefix(log, j + 1, c);
    assert log[..j + 1][..j] == log[..j];
    WatchSees(log[..j], c);
    if i < j {
      assert log[..j][i] == log[i];
      assert AnswersAt(log, i, c) ==> AnswersAt(log[..j], i, c);
    }
  }

  /** A request that was in the table and is no longer has a cancelled lifetime, even when another request
      has replaced it under the same identifier. */
  lemma GoneIsCancelled(es: seq<Event>, c: nat)
    requires Entered(c) in Run(es).log && !Holds(Run(es), c)
    ensures exists k :: CancelsAt(Run(es).log, k, c)
  {
    Reachable(es);
    assert Healthily(Run(es), c);
    WatchSees(Run(es).log, c);
  }

  /** A response or a dropped guard finds the request whose identifier it names, or one that a multiple of
      2^64 requests lies from it; among the first 2^64 there is no other. */
  lemma FindsItsOwn(es: seq<Event>, c: nat)
    requires IdOf(c) in Run(es).pending
    ensures (Run(es).pending[IdOf(c)] - c) % U64_COUNT == 0
    ensures c < |Run(es).callers| <= U64_COUNT ==> Holds(Run(es), c)
  {
    Reachable(es);
    var d := Run(es).pending[IdOf(c)];
    assert Healthily(Run(es), d);
    IdsCollideIff(d, c);
    hide Run, IdOf, Healthily, Watch;
    if c < |Run(es).callers| <= U64_COUNT {
      HoldersAreCallers(Run(es), d);
      IdsDistinct(c, d);
    }
  }

  lemma HoldersAreCallers(s: State, c: nat)
    requires Healthily(s, c) && Holds(s, c)
    ensures c < |s.callers|
  {}

  lemma RunSnoc(es: seq<Event>, e: Event)
    ensures Run(es + [e]) == Step(Run(es), e)
  {
    hide Step;
    assert (es + [e])[..|es|] == es;
  }

  function Calls(n: nat): seq<Event> {
    if n == 0 then [] else Calls(n - 1) + [Call]
  }

  lemma {:induction false} CallsNumber(n: nat)
    ensures Run(Calls(n)) == INITIAL.(callers := seq(n, _ => Numbered))
  {
    if n > 0 {
      CallsNumber(n - 1);
      RunSnoc(Calls(n - 1), Call);
      assert seq(n - 1, _ => Numbered) + [Numbered] == seq(n, _ => Numbered);
      hide Run;
    }
  }

  /** Call `c` still has its guard, request `d` its entry, and dropping the guard takes the entry out. */
  ghost predicate GuardTakes(es: seq<Event>, c: nat, d: nat) {
    && c < |Run(es).callers| && Run(es).callers[c].Owning?
    && Holds(Run(es), d) && !Holds(Run(es + [DropGuard(c)]), d)
  }

  /** Two calls of the same identifier may enter one after the other; the second then has the entry. */
  lemma EnteredOver(c: nat, d: nat) returns (es: seq<Event>)
    requires IdOf(c) == IdOf(d)
    ensures c < |Run(es).callers| && Run(es).callers[c].Owning? && Run(es).phase.Healthy? && Holds(Run(es), d)
  {
    var calls := Calls(if c < d then d + 1 else c + 1);
    CallsNumber(if c < d then d + 1 else c + 1);
    RunSnoc(calls, Insert(c));
    es := calls + [Insert(c)];
    if c != d {
      RunSnoc(es, Insert(d));
      es := es + [Insert(d)];
    }
    hide Run, IdOf, Calls;
  }

  /** The guard of one call can take out the entry of another exactly when a multiple of 2^64 requests lies
      between them. */
  lemma GuardTakesIff(c: nat, d: nat)
    ensures (exists es :: GuardTakes(es, c, d)) <==> (c - d) % U64_COUNT == 0
  {
    IdsCollideIff(c, d);
    if es :| GuardTakes(es, c, d) {
      RunSnoc(es, DropGuard(c));
      hide Run, IdOf;
    }
    if IdOf(c) == IdOf(d) {
      var es := EnteredOver(c, d);
      RunSnoc(es, DropGuard(c));
      hide Run, IdOf;
      assert GuardTakes(es, c, d);
    }
  }

  // ---------------------------------------------------------------- after failure

  lemma {:induction false} PhasesHold(es: seq<Event>)
    ensures Phases(Run(es))
  {
    if es != [] {
      hide Step, Phases;
      PhasesHold(es[..|es| - 1]);
      PhasesKept(Run(es[..|es| - 1]), es[|es| - 1]);
    } else {
      InitiallyValid();
    }
  }

  lemma FailureSticks(s: State, e: Event)
    requires Phases(s)
    ensures s.failure.Some? ==> Step(s, e).failure == s.failure
    ensures s.phase.Drained? ==> Step(s, e).phase.Drained?
  {}

  /** The first reason is kept, and a table once drained is empty for good. */
  lemma {:induction false} FailureIsFinal(es: seq<Event>, more: seq<Event>)
    ensures Run(es).failure.Some? ==> Run(es + more).failure == Run(es).failure
    ensures Run(es).phase.Drained? ==> Run(es + more).phase.Drained? && Run(es + more).pending == map[]
    decreases |more|
  {
    if more == [] {
      assert es + more == es;
      PhasesHold(es);
    } else {
      hide Step;
      var init := more[..|more| - 1];
      assert (es + more)[..|es + more| - 1] == es + init;
      FailureIsFinal(es, init);
      PhasesHold(es + init);
      PhasesHold(es + more);
      FailureSticks(Run(es + init), more[|more| - 1]);
    }
  }
}
