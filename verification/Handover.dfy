/** Handing early updates over to a session that is being created: the call that creates it races with
    the dispatch loop, which looks the session up, and only later buffers the update it found no owner
    for.

    One creation is followed from any point at which an earlier one may have left the loop and the
    buffer. An event that is not enabled leaves the state as it is. */
module Handover {
  import opened Prelude

  const MAX_EARLY: nat := 64
  const MAX_EARLY_BYTES: nat := 1024 * 1024

  /** A session update and the length of its serialization. */
  datatype Update = Update(number: nat, size: nat)

  /** An update on the wire, at the position the reader met it. */
  datatype Notice = Notice(owner: string, update: Update, at: nat)

  datatype Item = Deliver(notice: Notice) | Barrier

  datatype Entry = Entry(owner: string, update: Update)

  /** `Calling` to `Released` is the life of the guard that counts a creation; `Held` to `Taken` that of
      the new session's update gate. */
  datatype Stage =
    | Before
    | Wiped
    | Calling
    | Barred
    | Passed
    | Held
    | Registered
    | Configured
    | Taken
    | Released
    | Dropping
    | Uncounted
    | Over

  /** What the dispatch loop is doing with the notice in its hand. `Found` has the session but has not yet
      looked whether it has ended. */
  datatype Hand = Idle | Looking | Found | Missing | Pushing | Waiting | Broken

  datatype Event = Configuration | Applied(update: Update)

  /** What became of an update for the new session. `Closed` is dropped because the session has ended. */
  datatype Fate = Skipped | Buffered | Lost | Direct | Closed

  datatype Outcome = Outcome(notice: Notice, fate: Fate)

  /** Whether the session is in the table: `Ended` still is, though it was closed or its lifetime is over. */
  datatype Place = Absent | Present | Ended | Removed

  predicate HasEnded(p: Place) {
    p.Ended? || p.Removed?
  }

  /** `id` is the id the agent answers with; `since` counts the outcomes there were when the creation
      was first counted; `wire` logs the updates for `id` in the order the reader met them. */
  datatype State = State(
    id: string,
    read: nat,
    answered: Option<nat>,
    channel: seq<Item>,
    hand: Hand,
    notice: Notice,
    early: seq<Entry>,
    stage: Stage,
    aborted: bool,
    acked: bool,
    place: Place,
    todo: seq<Entry>,
    events: seq<Event>,
    outcomes: seq<Outcome>,
    since: nat,
    wire: seq<Notice>)

  datatype Action =
    | ReadUpdate(owner: string, update: Update)
    | ReadResponse
    | LoopStep(known: bool, ok: bool)
    | LoopStops
    | SetupStep(ok: bool)
    | AbortSetup
    | EndSession
    | RemoveSession

  predicate Creating(g: Stage) {
    !g.Before? && !g.Wiped? && !g.Uncounted? && !g.Over?
  }

  predicate HasGate(g: Stage) {
    g.Held? || g.Registered? || g.Configured? || g.Taken?
  }

  /** What is pushed now will be found by the take. */
  predicate Open(g: Stage) {
    g.Wiped? || g.Calling? || g.Barred? || g.Passed? || g.Held? || g.Registered? || g.Configured?
  }

  function Sum(entries: seq<Entry>): nat {
    if entries == [] then 0 else Sum(entries[..|entries| - 1]) + entries[|entries| - 1].update.size
  }

  predicate Fits(early: seq<Entry>, size: nat) {
    |early| < MAX_EARLY && Sum(early) + size <= MAX_EARLY_BYTES
  }

  /** The loop is done with its notice. */
  function Resolve(s: State, fate: Fate): State {
    s.(hand := Idle,
       outcomes := if s.notice.owner == s.id then s.outcomes + [Outcome(s.notice, fate)] else s.outcomes)
  }

  /** What becomes of an update that is neither shown nor buffered where the take will find it. */
  function Dropped(s: State): Fate {
    if s.stage.Before? || s.stage.Wiped? then Skipped else if s.place.Removed? then Closed else Lost
  }

  /** Nobody has the session: is one being created? */
  function Miss(s: State): State {
    if Creating(s.stage) then s.(hand := Pushing) else Resolve(s, Dropped(s))
  }

  /** Buffering an early update; a full buffer fails the connection. */
  function Push(s: State): State {
    if !Fits(s.early, s.notice.update.size) then s.(hand := Broken)
    else
      Resolve(s, if Open(s.stage) then Buffered else Dropped(s))
        .(early := s.early + [Entry(s.notice.owner, s.notice.update)])
  }

  /** Applying an update to the session, behind its gate. */
  function Show(s: State, ok: bool): State {
    if HasGate(s.stage) then s
    else if ok then Resolve(s, Direct).(events := s.events + [Applied(s.notice.update)])
    else s.(hand := Broken)
  }

  /** One step of the dispatch loop; `known` is the lookup of another session's id. */
  function StepLoop(s: State, known: bool, ok: bool): State {
    match s.hand
    case Idle =>
      if s.channel == [] then s
      else if s.channel[0].Barrier? then s.(channel := s.channel[1..], acked := true)
      else s.(channel := s.channel[1..], hand := Looking, notice := s.channel[0].notice)
    case Looking =>
      if s.notice.owner == s.id then s.(hand := if s.place.Present? || s.place.Ended? then Found else Missing)
      else s.(hand := if known then Idle else Missing)
    case Found => if HasEnded(s.place) then Resolve(s, Closed) else s.(hand := Waiting)
    case Missing => Miss(s)
    case Pushing => Push(s)
    case Waiting => Show(s, ok)
    case Broken => s
  }

  /** One step of the call that creates the session. */
  function StepSetup(s: State, ok: bool): State {
    match s.stage
    case Before => s.(stage := Wiped, early := [])
    case Wiped => s.(stage := Calling, since := |s.outcomes|)
    case Calling => if s.answered.Some? then s.(stage := Barred, channel := s.channel + [Barrier]) else s
    case Barred => if s.acked then s.(stage := Passed) else s
    case Passed => if ok then s.(stage := Held) else s.(stage := Dropping, aborted := true)
    case Held => if ok then s.(stage := Registered, place := Present) else s.(stage := Dropping, aborted := true)
    case Registered =>
      if ok then s.(stage := Configured, events := s.events + [Configuration])
      else s.(stage := Dropping, aborted := true)
    case Configured => s.(stage := Taken, todo := s.early, early := [])
    case Taken =>
      if s.todo == [] then s.(stage := Released)
      else if s.todo[0].owner != s.id then s.(todo := s.todo[1..])
      else if ok then s.(todo := s.todo[1..], events := s.events + [Applied(s.todo[0].update)])
      else s.(stage := Dropping, aborted := true)
    case Released => s.(stage := Uncounted)
    case Dropping => s.(stage := Uncounted)
    case Uncounted => s.(stage := Over, early := [])
    case Over => s
  }

  function Step(s: State, a: Action): State {
    match a
    case ReadUpdate(owner, update) =>
      var notice := Notice(owner, update, s.read);
      s.(channel := s.channel + [Deliver(notice)], read := s.read + 1,
         wire := if owner == s.id then s.wire + [notice] else s.wire)
    case ReadResponse =>
      if s.stage.Calling? && s.answered.None? then s.(answered := Some(s.read), read := s.read + 1) else s
    case LoopStep(known, ok) => StepLoop(s, known, ok)
    case LoopStops => if s.hand.Idle? then s.(hand := Broken) else s
    case SetupStep(ok) => StepSetup(s, ok)
    case AbortSetup =>
      if s.stage.Calling? || s.stage.Barred? || s.stage.Registered? || s.stage.Taken? then
        s.(stage := Dropping, aborted := true)
      else s
    case EndSession => if s.place.Present? then s.(place := Ended) else s
    case RemoveSession => if s.place.Absent? then s else s.(place := Removed)
  }

  function Run(start: State, acts: seq<Action>): State {
    if acts == [] then start else Step(Run(start, acts[..|acts| - 1]), acts[|acts| - 1])
  }

  /** The updates for `id` among what the channel still holds. */
  function Mine(channel: seq<Item>, id: string): seq<Notice> {
    if channel == [] then []
    else
      var first := if channel[0].Deliver? && channel[0].notice.owner == id then [channel[0].notice] else [];
      first + Mine(channel[1..], id)
  }

  /** The updates for the new session that the loop has not finished with. */
  function Inflight(s: State): seq<Notice> {
    (if !s.hand.Idle? && s.notice.owner == s.id then [s.notice] else []) + Mine(s.channel, s.id)
  }

  /** Where a creation may begin: nothing of it has happened, whatever the loop holds or the buffer has. */
  predicate Fresh(s: State) {
    && s.stage.Before? && !s.aborted && !s.acked && s.place.Absent? && s.answered.None?
    && s.todo == [] && s.events == [] && s.outcomes == [] && s.since == 0
    && !s.hand.Found? && !s.hand.Waiting? && !s.hand.Broken? && s.notice.at < s.read && s.wire == Inflight(s)
    && |s.early| <= MAX_EARLY && Sum(s.early) <= MAX_EARLY_BYTES
    && (forall i | 0 <= i < |s.channel| :: s.channel[i].Deliver? && s.channel[i].notice.at < s.read)
    && Increasing(s)
  }

  /** Updates are logged at the positions the reader met them, one after another. */
  predicate Increasing(s: State) {
    && (forall i | 0 <= i < |s.wire| :: s.wire[i].at < s.read)
    && (forall i, j | 0 <= i < j < |s.wire| :: s.wire[i].at < s.wire[j].at)
  }

  lemma RunSnoc(start: State, acts: seq<Action>, a: Action)
    ensures Run(start, acts + [a]) == Step(Run(start, acts), a)
  {
    hide Step;
    assert (acts + [a])[..|acts|] == acts;
  }

  // ---------------------------------------------------------------- the buffer

  ghost predicate Bounded(s: State) {
    |s.early| <= MAX_EARLY && Sum(s.early) <= MAX_EARLY_BYTES
  }

  lemma LoopKeepsBound(s: State, known: bool, ok: bool)
    requires Bounded(s)
    ensures Bounded(StepLoop(s, known, ok))
  {
    hide Open, Creating, HasGate;
    if s.hand.Pushing? {
      var entry := Entry(s.notice.owner, s.notice.update);
      assert (s.early + [entry])[..|s.early|] == s.early;
    }
  }

  lemma SetupKeepsBound(s: State, ok: bool)
    requires Bounded(s)
    ensures Bounded(StepSetup(s, ok))
  {}

  lemma StepKeepsBound(s: State, a: Action)
    requires Bounded(s)
    ensures Bounded(Step(s, a))
  {
    hide StepLoop, StepSetup;
    if a.LoopStep? {
      LoopKeepsBound(s, a.known, a.ok);
    } else if a.SetupStep? {
      SetupKeepsBound(s, a.ok);
    }
  }

  /** The buffer of early updates never exceeds 64 entries or one mebibyte. */
  lemma {:induction false} BufferIsBounded(start: State, acts: seq<Action>)
    requires Fresh(start)
    ensures Bounded(Run(start, acts))
  {
    if acts != [] {
      hide Step, Bounded;
      BufferIsBounded(start, acts[..|acts| - 1]);
      StepKeepsBound(Run(start, acts[..|acts| - 1]), acts[|acts| - 1]);
    }
  }

  // ---------------------------------------------------------------- the barrier

  predicate AfterBarrier(g: Stage) {
    HasGate(g) || g.Passed? || g.Released?
  }

  predicate Later(s: State, item: Item) {
    item.Deliver? && s.answered.Some? && item.notice.at > s.answered.value
  }

  ghost predicate Numbered(s: State) {
    && s.notice.at < s.read
    && (s.answered.Some? ==> s.answered.value < s.read && !s.stage.Before? && !s.stage.Wiped?)
    && forall i | 0 <= i < |s.channel| :: s.channel[i].Deliver? ==> s.channel[i].notice.at < s.read
  }

  /** Whatever is behind the barrier in the channel followed the response on the wire. */
  ghost predicate Barriers(s: State) {
    && (Barrier in s.channel ==> s.answered.Some? && !s.acked && !s.stage.Calling?)
    && forall i, j | 0 <= i < j < |s.channel| && s.channel[i].Barrier? :: Later(s, s.channel[j])
  }

  /** Once the barrier has come back, everything the loop still has to do follows the response. */
  ghost predicate Acked(s: State) {
    && (s.acked ==>
          && s.answered.Some? && !s.stage.Calling?
          && (!s.hand.Idle? && !s.hand.Broken? ==> s.notice.at > s.answered.value)
          && forall i | 0 <= i < |s.channel| :: Later(s, s.channel[i]))
    && (AfterBarrier(s.stage) || !s.place.Absent? ==> s.acked)
    && (s.stage.Barred? ==> s.answered.Some?)
  }

  ghost predicate Fenced(s: State) {
    Numbered(s) && Barriers(s) && Acked(s)
  }

  lemma ReadKeepsFence(s: State, a: Action)
    requires Fenced(s) && (a.ReadUpdate? || a.ReadResponse?)
    ensures Fenced(Step(s, a))
  {}

  lemma TakeKeepsFence(s: State, known: bool, ok: bool)
    requires Fenced(s) && s.hand.Idle?
    ensures Fenced(StepLoop(s, known, ok))
  {
    if s.channel != [] {
      assert forall i | 0 <= i < |s.channel| - 1 :: s.channel[1..][i] == s.channel[i + 1];
      assert s.channel[0] in s.channel;
    }
  }

  /** Steps that leave the wire and the channel alone. */
  lemma SameWire(s: State, t: State)
    requires Fenced(s)
    requires t.read == s.read && t.answered == s.answered && t.channel == s.channel && t.acked == s.acked
    requires t.notice == s.notice && (t.hand == s.hand || !s.hand.Idle?) && (s.hand.Broken? ==> t.hand.Broken?)
    requires AfterBarrier(t.stage) || !t.place.Absent? ==> AfterBarrier(s.stage) || !s.place.Absent? || s.acked
    requires t.stage == s.stage || (!t.stage.Calling? && !t.stage.Barred? && !t.stage.Before? && !t.stage.Wiped?)
             || (s.stage.Before? && t.stage.Wiped?) || (s.stage.Wiped? && t.stage.Calling?)
    ensures Fenced(t)
  {}

  lemma MissWire(s: State)
    requires Fenced(s) && s.hand.Missing?
    ensures Fenced(Miss(s))
  {
    hide Fenced, Creating;
    SameWire(s, Miss(s));
  }

  lemma PushWire(s: State)
    requires Fenced(s) && s.hand.Pushing?
    ensures Fenced(Push(s))
  {
    hide Fenced, Fits, Open;
    SameWire(s, Push(s));
  }

  lemma ShowWire(s: State, ok: bool)
    requires Fenced(s) && s.hand.Waiting?
    ensures Fenced(Show(s, ok))
  {
    hide Fenced, HasGate;
    SameWire(s, Show(s, ok));
  }

  lemma HandKeepsFence(s: State, known: bool, ok: bool)
    requires Fenced(s) && !s.hand.Idle?
    ensures Fenced(StepLoop(s, known, ok))
  {
    hide Fenced, Miss, Push, Show;
    if s.hand.Looking? || s.hand.Found? {
      SameWire(s, StepLoop(s, known, ok));
    } else if s.hand.Missing? {
      MissWire(s);
    } else if s.hand.Pushing? {
      PushWire(s);
    } else if s.hand.Waiting? {
      ShowWire(s, ok);
    }
  }

  /** What a step of the setup leaves alone. */
  lemma SetupFrame(s: State, ok: bool)
    ensures
      var t := StepSetup(s, ok);
      t.hand == s.hand && t.notice == s.notice && t.answered == s.answered
  {}

  lemma SetupReads(s: State, ok: bool)
    ensures StepSetup(s, ok).read == s.read && StepSetup(s, ok).wire == s.wire
  {}

  lemma SetupKeepsId(s: State, ok: bool)
    ensures StepSetup(s, ok).id == s.id
  {}

  lemma SetupDecidesNothing(s: State, ok: bool)
    ensures StepSetup(s, ok).outcomes == s.outcomes
  {}

  lemma SetupSends(s: State, ok: bool)
    requires !s.stage.Calling?
    ensures StepSetup(s, ok).channel == s.channel
  {}

  lemma SetupPasses(s: State, ok: bool)
    ensures
      var t := StepSetup(s, ok);
      && t.acked == s.acked
      && (AfterBarrier(t.stage) || !t.place.Absent? ==> AfterBarrier(s.stage) || !s.place.Absent? || s.acked)
  {}

  lemma SetupTurns(s: State, ok: bool)
    ensures
      var g, h := s.stage, StepSetup(s, ok).stage;
      h == g || (!h.Calling? && !h.Barred? && !h.Before? && !h.Wiped?)
      || (g.Before? && h.Wiped?) || (g.Wiped? && h.Calling?) || (g.Calling? && h.Barred?)
  {}

  /** The barrier is sent behind everything the reader has met so far. */
  lemma BarrierKeepsFence(s: State)
    requires Fenced(s) && s.stage.Calling? && s.answered.Some?
    ensures Fenced(s.(stage := Barred, channel := s.channel + [Barrier]))
  {}

  lemma SetupKeepsFence(s: State, ok: bool)
    requires Fenced(s)
    ensures Fenced(StepSetup(s, ok))
  {
    hide Fenced;
    if s.stage.Calling? {
      if s.answered.Some? {
        BarrierKeepsFence(s);
      }
    } else {
      SetupFrame(s, ok);
      SetupReads(s, ok);
      SetupSends(s, ok);
      SetupPasses(s, ok);
      SetupTurns(s, ok);
      hide StepSetup, AfterBarrier;
      SameWire(s, StepSetup(s, ok));
    }
  }

  lemma StepKeepsFence(s: State, a: Action)
    requires Fenced(s)
    ensures Fenced(Step(s, a))
  {
    if a.ReadUpdate? || a.ReadResponse? {
      ReadKeepsFence(s, a);
    } else if a.LoopStep? {
      hide StepLoop, Fenced;
      if s.hand.Idle? {
        TakeKeepsFence(s, a.known, a.ok);
      } else {
        HandKeepsFence(s, a.known, a.ok);
      }
    } else if a.SetupStep? {
      hide StepSetup, Fenced;
      SetupKeepsFence(s, a.ok);
    }
  }

  lemma {:induction false} EveryRunIsFenced(start: State, acts: seq<Action>)
    requires Fresh(start)
    ensures Fenced(Run(start, acts))
  {
    if acts != [] {
      hide Step, Fenced;
      EveryRunIsFenced(start, acts[..|acts| - 1]);
      StepKeepsFence(Run(start, acts[..|acts| - 1]), acts[|acts| - 1]);
    }
  }

  // ---------------------------------------------------------------- the wire order

  function Notices(outcomes: seq<Outcome>): seq<Notice> {
    seq(|outcomes|, i requires 0 <= i < |outcomes| => outcomes[i].notice)
  }

  /** Every update for the new session has had one outcome, or is still on its way, in wire order. */
  ghost predicate Accounted(s: State) {
    if s.hand.Broken? then Notices(s.outcomes) <= s.wire else s.wire == Notices(s.outcomes) + Inflight(s)
  }

  lemma {:induction false} MineSnoc(channel: seq<Item>, item: Item, id: string)
    ensures Mine(channel + [item], id) == Mine(channel, id) + Mine([item], id)
  {
    if channel == [] {
      assert channel + [item] == [item];
    } else {
      MineSnoc(channel[1..], item, id);
      assert (channel + [item])[1..] == channel[1..] + [item];
    }
  }

  lemma ResolveAccounts(s: State, fate: Fate)
    requires !s.hand.Idle? && !s.hand.Broken? && Accounted(s)
    ensures Accounted(Resolve(s, fate))
  {
    var t := Resolve(s, fate);
    if s.notice.owner == s.id {
      assert Notices(t.outcomes) == Notices(s.outcomes) + [s.notice];
    }
  }

  /** Accounting looks only at the channel, the hand, the outcomes and the log. */
  lemma SameAccount(s: State, t: State)
    requires Accounted(s)
    requires t.channel == s.channel && t.notice == s.notice && t.id == s.id
    requires t.outcomes == s.outcomes && t.wire == s.wire
    requires t.hand == s.hand || (!s.hand.Idle? && !s.hand.Broken? && !t.hand.Idle?) || t.hand.Broken?
    ensures Accounted(t)
  {}

  lemma TakeAccounts(s: State, known: bool, ok: bool)
    requires Accounted(s) && s.hand.Idle?
    ensures Accounted(StepLoop(s, known, ok))
  {}

  lemma LoopAccounts(s: State, known: bool, ok: bool)
    requires Accounted(s)
    ensures Accounted(StepLoop(s, known, ok))
  {
    hide Accounted, Miss, Push, Show;
    var t := StepLoop(s, known, ok);
    if s.hand.Idle? {
      TakeAccounts(s, known, ok);
    } else if s.hand.Looking? && t.hand.Idle? {
      OtherAccounts(s);
    } else if s.hand.Looking? {
      SameAccount(s, t);
    } else if s.hand.Found? {
      FoundAccounts(s);
    } else if s.hand.Missing? {
      MissAccounts(s);
    } else if s.hand.Pushing? {
      PushAccounts(s);
    } else if s.hand.Waiting? {
      ShowAccounts(s, ok);
    }
  }

  lemma OtherAccounts(s: State)
    requires Accounted(s) && s.hand.Looking? && s.notice.owner != s.id
    ensures Accounted(s.(hand := Idle))
  {}

  lemma FoundAccounts(s: State)
    requires Accounted(s) && s.hand.Found?
    ensures Accounted(if HasEnded(s.place) then Resolve(s, Closed) else s.(hand := Waiting))
  {
    hide Accounted;
    if HasEnded(s.place) {
      ResolveAccounts(s, Closed);
    } else {
      SameAccount(s, s.(hand := Waiting));
    }
  }

  lemma MissAccounts(s: State)
    requires Accounted(s) && s.hand.Missing?
    ensures Accounted(Miss(s))
  {
    hide Accounted, Creating;
    if Creating(s.stage) {
      SameAccount(s, s.(hand := Pushing));
    } else {
      ResolveAccounts(s, Dropped(s));
    }
  }

  lemma PushAccounts(s: State)
    requires Accounted(s) && s.hand.Pushing?
    ensures Accounted(Push(s))
  {
    hide Accounted, Fits, Open;
    if Fits(s.early, s.notice.update.size) {
      var fate := if Open(s.stage) then Buffered else Dropped(s);
      ResolveAccounts(s, fate);
      hide Resolve;
      SameAccount(Resolve(s, fate), Push(s));
    } else {
      SameAccount(s, Push(s));
    }
  }

  lemma ShowAccounts(s: State, ok: bool)
    requires Accounted(s) && s.hand.Waiting?
    ensures Accounted(Show(s, ok))
  {
    hide Accounted, HasGate;
    if !HasGate(s.stage) && ok {
      ResolveAccounts(s, Direct);
      hide Resolve;
      SameAccount(Resolve(s, Direct), Show(s, ok));
    } else {
      SameAccount(s, Show(s, ok));
    }
  }

  /** One more item at the end of the channel. */
  lemma InflightSnoc(s: State, t: State, item: Item)
    requires t.channel == s.channel + [item] && t.hand == s.hand && t.notice == s.notice && t.id == s.id
    ensures Inflight(t) == Inflight(s) + Mine([item], s.id)
  {
    MineSnoc(s.channel, item, s.id);
    hide Mine;
  }

  lemma ReadAccounts(s: State, a: Action)
    requires Accounted(s) && a.ReadUpdate?
    ensures Accounted(Step(s, a))
  {
    var notice := Notice(a.owner, a.update, s.read);
    InflightSnoc(s, Step(s, a), Deliver(notice));
    assert Mine([Deliver(notice)], s.id) == if a.owner == s.id then [notice] else [];
    hide Mine, Inflight, Notices;
  }

  lemma BarrierAccounts(s: State)
    requires Accounted(s)
    ensures Accounted(s.(stage := Barred, channel := s.channel + [Barrier]))
  {
    InflightSnoc(s, s.(stage := Barred, channel := s.channel + [Barrier]), Barrier);
    assert Mine([Barrier], s.id) == [];
    hide Mine, Inflight, Notices;
  }

  lemma SetupAccounts(s: State, ok: bool)
    requires Accounted(s)
    ensures Accounted(StepSetup(s, ok))
  {
    hide Accounted, Inflight;
    if s.stage.Calling? {
      if s.answered.Some? {
        BarrierAccounts(s);
      }
    } else {
      var t := StepSetup(s, ok);
      SetupFrame(s, ok);
      SetupReads(s, ok);
      SetupSends(s, ok);
      SetupKeepsId(s, ok);
      SetupDecidesNothing(s, ok);
      hide StepSetup;
      SameAccount(s, t);
    }
  }

  lemma StepAccounts(s: State, a: Action)
    requires Accounted(s)
    ensures Accounted(Step(s, a))
  {
    hide Accounted, StepLoop, StepSetup;
    if a.ReadUpdate? {
      ReadAccounts(s, a);
    } else if a.LoopStep? {
      LoopAccounts(s, a.known, a.ok);
    } else if a.SetupStep? {
      SetupAccounts(s, a.ok);
    } else {
      SameAccount(s, Step(s, a));
    }
  }

  lemma {:induction false} EveryRunAccounts(start: State, acts: seq<Action>)
    requires Fresh(start)
    ensures Accounted(Run(start, acts))
  {
    if acts != [] {
      hide Step, Accounted;
      EveryRunAccounts(start, acts[..|acts| - 1]);
      StepAccounts(Run(start, acts[..|acts| - 1]), acts[|acts| - 1]);
    }
  }

  lemma LoopReads(s: State, known: bool, ok: bool)
    ensures StepLoop(s, known, ok).read == s.read && StepLoop(s, known, ok).wire == s.wire
  {
    hide Fits, Open, Creating, HasGate;
  }

  lemma StepIncreases(s: State, a: Action)
    requires Increasing(s)
    ensures Increasing(Step(s, a))
  {
    hide StepLoop, StepSetup;
    if a.LoopStep? {
      LoopReads(s, a.known, a.ok);
    } else if a.SetupStep? {
      SetupReads(s, a.ok);
    }
  }

  lemma {:induction false} EveryRunIncreases(start: State, acts: seq<Action>)
    requires Fresh(start)
    ensures Increasing(Run(start, acts))
  {
    if acts != [] {
      hide Step, Increasing;
      EveryRunIncreases(start, acts[..|acts| - 1]);
      StepIncreases(Run(start, acts[..|acts| - 1]), acts[|acts| - 1]);
    }
  }

  /** No update has two outcomes. */
  lemma OneOutcome(s: State, i: nat, j: nat)
    requires Accounted(s) && Increasing(s) && i < |s.outcomes| && j < |s.outcomes|
    requires s.outcomes[i].notice == s.outcomes[j].notice
    ensures i == j
  {
    hide Inflight;
    assert Notices(s.outcomes) <= s.wire;
    assert forall k | 0 <= k < |s.outcomes| :: s.outcomes[k].notice == Notices(s.outcomes)[k] == s.wire[k];
  }

  /** The update in the loop's hand has had no outcome yet. */
  lemma NoOutcomeYet(s: State)
    requires Accounted(s) && Increasing(s) && InHand(s)
    ensures Undecided(s, s.notice)
  {
    var k := |s.outcomes|;
    assert s.wire[k] == s.notice by {
      assert Inflight(s)[0] == s.notice;
    }
    hide Inflight;
    assert forall i | 0 <= i < k :: s.outcomes[i].notice == Notices(s.outcomes)[i] == s.wire[i];
  }

  predicate Undecided(s: State, n: Notice) {
    forall i | 0 <= i < |s.outcomes| :: s.outcomes[i].notice != n
  }

  // ---------------------------------------------------------------- the hand-over

  /** The events that applying the updates with `fate` gives. */
  function Of(outcomes: seq<Outcome>, fate: Fate): seq<Event> {
    if outcomes == [] then []
    else
      var last := outcomes[|outcomes| - 1];
      Of(outcomes[..|outcomes| - 1], fate) + if last.fate == fate then [Applied(last.notice.update)] else []
  }

  /** The events that applying the entries of `id` gives. */
  function Own(entries: seq<Entry>, id: string): seq<Event> {
    if entries == [] then []
    else
      var last := entries[|entries| - 1];
      Own(entries[..|entries| - 1], id) + if last.owner == id then [Applied(last.update)] else []
  }

  lemma {:induction false} OwnCons(entry: Entry, rest: seq<Entry>, id: string)
    ensures Own([entry] + rest, id) == (if entry.owner == id then [Applied(entry.update)] else []) + Own(rest, id)
  {
    var whole := [entry] + rest;
    if rest == [] {
      assert whole == [entry] && whole[..0] == [];
    } else {
      assert whole[..|whole| - 1] == [entry] + rest[..|rest| - 1];
      OwnCons(entry, rest[..|rest| - 1], id);
    }
  }

  lemma OfSnoc(outcomes: seq<Outcome>, last: Outcome, fate: Fate)
    ensures
      Of(outcomes + [last], fate)
      == Of(outcomes, fate) + if last.fate == fate then [Applied(last.notice.update)] else []
  {
    assert (outcomes + [last])[..|outcomes|] == outcomes;
  }

  lemma OwnSnoc(entries: seq<Entry>, last: Entry, id: string)
    ensures Own(entries + [last], id) == Own(entries, id) + if last.owner == id then [Applied(last.update)] else []
  {
    assert (entries + [last])[..|entries|] == entries;
  }

  predicate PastTake(g: Stage) {
    g.Released? || g.Uncounted? || g.Over?
  }

  predicate HasTaken(g: Stage) {
    g.Taken? || PastTake(g)
  }

  /** What the session has shown, given what became of each of its updates. */
  ghost predicate Shown(s: State) {
    var buffered, direct := Of(s.outcomes, Buffered), Of(s.outcomes, Direct);
    if s.stage.Before? then s.events == [] && buffered == [] && direct == []
    else if Open(s.stage) then
      && Own(s.early, s.id) == buffered && direct == []
      && s.events == if s.stage.Configured? then [Configuration] else []
    else if s.stage.Taken? then s.events + Own(s.todo, s.id) == [Configuration] + buffered && direct == []
    else s.events == [Configuration] + buffered + direct
  }

  /** The session is in the table, and its gate protects what it shows. */
  ghost predicate Placed(s: State) {
    && (s.stage.Dropping? ==> s.aborted)
    && (!s.place.Absent? ==>
          && !s.stage.Before? && !s.stage.Wiped? && !s.stage.Calling? && !s.stage.Barred? && !s.stage.Passed?
          && !s.stage.Held?)
    && (!s.aborted && (s.stage.Registered? || s.stage.Configured? || HasTaken(s.stage)) ==> !s.place.Absent?)
    && (s.hand.Found? || s.hand.Waiting? ==> !s.place.Absent? && s.notice.owner == s.id)
  }

  ghost predicate Handed(s: State) {
    Placed(s) && (s.aborted || Shown(s))
  }

  /** Where the session is does not depend on the channel, the buffers or the outcomes. */
  lemma SamePlaced(s: State, t: State)
    requires Placed(s)
    requires t.stage == s.stage && t.aborted == s.aborted && t.place == s.place
    requires t.hand.Found? || t.hand.Waiting? ==> !s.place.Absent? && t.notice.owner == t.id
    ensures Placed(t)
  {}

  lemma LoopPlaced(s: State, known: bool, ok: bool)
    requires Placed(s)
    ensures Placed(StepLoop(s, known, ok))
  {
    LoopFrame(s, known, ok);
    LoopWaits(s, known, ok);
    hide StepLoop, Placed;
    SamePlaced(s, StepLoop(s, known, ok));
  }

  lemma HandsOnward(s: State, ok: bool)
    ensures Miss(s).hand.Pushing? || Miss(s).hand.Idle?
    ensures Push(s).hand.Broken? || Push(s).hand.Idle?
    ensures Show(s, ok) == s || Show(s, ok).hand.Broken? || Show(s, ok).hand.Idle?
  {
    hide Fits, Open, Creating, HasGate, Dropped;
  }

  /** The loop waits for the gate only of a session it has found. */
  lemma LoopWaits(s: State, known: bool, ok: bool)
    requires s.hand.Found? || s.hand.Waiting? ==> !s.place.Absent? && s.notice.owner == s.id
    ensures
      var t := StepLoop(s, known, ok);
      t.hand.Found? || t.hand.Waiting? ==> !s.place.Absent? && t.notice.owner == t.id
  {
    HandsOnward(s, ok);
    hide Miss, Push, Show;
  }

  lemma LoopFrame(s: State, known: bool, ok: bool)
    ensures
      var t := StepLoop(s, known, ok);
      t.stage == s.stage && t.aborted == s.aborted && t.place == s.place
  {
    hide Fits, Open, HasGate, Creating;
  }

  lemma SetupPlaced(s: State, ok: bool)
    requires Placed(s)
    ensures Placed(StepSetup(s, ok))
  {}

  /** An early update is buffered and will be found by the take. */
  lemma BufferedShown(s: State, t: State)
    requires Shown(s) && Open(s.stage) && t.stage == s.stage && t.id == s.id && t.events == s.events
    requires t.early == s.early + [Entry(s.notice.owner, s.notice.update)]
    requires t.outcomes == if s.notice.owner == s.id then s.outcomes + [Outcome(s.notice, Buffered)] else s.outcomes
    ensures Shown(t)
  {
    OfSnoc(s.outcomes, Outcome(s.notice, Buffered), Buffered);
    OfSnoc(s.outcomes, Outcome(s.notice, Buffered), Direct);
    OwnSnoc(s.early, Entry(s.notice.owner, s.notice.update), s.id);
    hide Of, Own;
  }

  /** An update that is skipped, lost or too late shows nothing. */
  lemma DiscardedShown(s: State, t: State, fate: Fate)
    requires Shown(s) && !fate.Buffered? && !fate.Direct?
    requires t.stage == s.stage && t.id == s.id && t.events == s.events && t.todo == s.todo
    requires t.early == s.early || !Open(s.stage)
    requires t.outcomes == if s.notice.owner == s.id then s.outcomes + [Outcome(s.notice, fate)] else s.outcomes
    ensures Shown(t)
  {
    OfSnoc(s.outcomes, Outcome(s.notice, fate), Buffered);
    OfSnoc(s.outcomes, Outcome(s.notice, fate), Direct);
    hide Of, Own;
  }

  lemma PushShown(s: State)
    requires Shown(s) && s.hand.Pushing?
    ensures Shown(Push(s))
  {
    hide Shown, Fits, Open;
    if !Fits(s.early, s.notice.update.size) {
      SameShown(s, Push(s));
    } else if Open(s.stage) {
      BufferedShown(s, Push(s));
    } else {
      DiscardedShown(s, Push(s), Dropped(s));
    }
  }

  lemma MissShown(s: State)
    requires Shown(s) && s.hand.Missing?
    ensures Shown(Miss(s))
  {
    hide Shown, Creating;
    if Creating(s.stage) {
      SameShown(s, Miss(s));
    } else {
      DiscardedShown(s, Miss(s), Dropped(s));
    }
  }

  lemma ShowShown(s: State, ok: bool)
    requires Placed(s) && !s.aborted && Shown(s) && s.hand.Waiting?
    ensures Shown(Show(s, ok))
  {
    OfSnoc(s.outcomes, Outcome(s.notice, Direct), Buffered);
    OfSnoc(s.outcomes, Outcome(s.notice, Direct), Direct);
    hide Of, Own;
  }

  /** What is shown depends only on the setup, the two buffers, the events and the outcomes. */
  lemma SameShown(s: State, t: State)
    requires Shown(s)
    requires t.stage == s.stage && t.id == s.id && t.early == s.early && t.todo == s.todo
    requires t.events == s.events && t.outcomes == s.outcomes
    ensures Shown(t)
  {}

  lemma LoopShown(s: State, known: bool, ok: bool)
    requires Placed(s) && !s.aborted && Shown(s)
    ensures Shown(StepLoop(s, known, ok))
  {
    hide Shown, Placed, Miss, Push, Show;
    if s.hand.Pushing? {
      PushShown(s);
    } else if s.hand.Missing? {
      MissShown(s);
    } else if s.hand.Waiting? {
      ShowShown(s, ok);
    } else if s.hand.Found? && HasEnded(s.place) {
      DiscardedShown(s, StepLoop(s, known, ok), Closed);
    } else {
      SameShown(s, StepLoop(s, known, ok));
    }
  }

  /** The setup applies the first entry it took, or skips it because it is another session's. */
  lemma ApplyFirst(s: State, ok: bool)
    requires Shown(s) && s.stage.Taken? && s.todo != [] && !StepSetup(s, ok).aborted
    ensures Shown(StepSetup(s, ok))
  {
    assert [s.todo[0]] + s.todo[1..] == s.todo;
    OwnCons(s.todo[0], s.todo[1..], s.id);
    hide Of, Own;
  }

  lemma SetupShown(s: State, ok: bool)
    requires Placed(s) && !s.aborted && Shown(s) && !StepSetup(s, ok).aborted
    ensures Shown(StepSetup(s, ok))
  {
    assert Own([], s.id) == [];
    if s.stage.Taken? && s.todo != [] {
      ApplyFirst(s, ok);
    } else if s.stage.Configured? {
      hide Of, Own;
      assert [Configuration] + Own(s.early, s.id) == [Configuration] + Of(s.outcomes, Buffered);
    } else {
      hide Of, Own;
    }
  }

  lemma LoopAborts(s: State, known: bool, ok: bool)
    ensures StepLoop(s, known, ok).aborted == s.aborted
  {
    hide Fits, Creating, Open, HasGate;
  }

  lemma StepKeepsHanded(s: State, a: Action)
    requires Handed(s)
    ensures Handed(Step(s, a))
  {
    if a.LoopStep? {
      LoopAborts(s, a.known, a.ok);
      hide StepLoop, Shown, Placed;
      LoopPlaced(s, a.known, a.ok);
      if !s.aborted {
        LoopShown(s, a.known, a.ok);
      }
    } else if a.SetupStep? {
      assert s.aborted ==> StepSetup(s, a.ok).aborted;
      hide StepSetup, Shown, Placed;
      SetupPlaced(s, a.ok);
      if !StepSetup(s, a.ok).aborted {
        SetupShown(s, a.ok);
      }
    } else {
      hide Shown;
      if !Step(s, a).aborted {
        SameShown(s, Step(s, a));
      }
    }
  }

  lemma {:induction false} EveryRunHandsOver(start: State, acts: seq<Action>)
    requires Fresh(start)
    ensures Handed(Run(start, acts))
  {
    if acts != [] {
      hide Step, Handed;
      EveryRunHandsOver(start, acts[..|acts| - 1]);
      StepKeepsHanded(Run(start, acts[..|acts| - 1]), acts[|acts| - 1]);
    }
  }

  // ---------------------------------------------------------------- what can be lost

  /** The loop has an update for the new session that found no owner and is not buffered yet. */
  predicate InHand(s: State) {
    (s.hand.Missing? || s.hand.Pushing?) && s.notice.owner == s.id
  }

  predicate Final(o: Outcome) {
    o.fate.Lost? || o.fate.Direct?
  }

  ghost predicate Judged(s: State) {
    && s.since <= |s.outcomes|
    && (!s.stage.Before? && !s.stage.Wiped? ==>
          forall i | s.since <= i < |s.outcomes| :: !s.outcomes[i].fate.Skipped?)
    && (forall i | 0 <= i < |s.outcomes| && s.outcomes[i].fate.Closed? :: HasEnded(s.place))
    && (s.aborted || OnceOnly(s))
  }

  /** After an update that was lost or applied directly, every one is applied directly, or comes after the
      end of the session. */
  ghost predicate OnceOnly(s: State) {
    && (forall i | 0 <= i < |s.outcomes| && Final(s.outcomes[i]) ::
          !s.place.Absent? && HasTaken(s.stage) && (InHand(s) ==> s.place.Removed?))
    && (forall i, j | 0 <= i < j < |s.outcomes| && Final(s.outcomes[i]) ::
          s.outcomes[j].fate.Direct? || s.outcomes[j].fate.Closed?)
    && (forall i | 0 <= i < |s.outcomes| && s.outcomes[i].fate.Lost? ::
          s.answered.Some? && s.outcomes[i].notice.at > s.answered.value)
  }

  lemma ResolveJudges(s: State, fate: Fate)
    requires Judged(s) && !s.hand.Idle? && (fate.Closed? ==> HasEnded(s.place))
    requires
      !s.aborted && s.notice.owner == s.id ==>
        fate.Direct? || fate.Closed? || !HasTaken(s.stage) || (InHand(s) && !s.place.Removed?)
    requires fate.Skipped? ==> s.stage.Before? || s.stage.Wiped?
    requires !s.aborted && s.notice.owner == s.id && (fate.Lost? || fate.Direct?) ==>
               !s.place.Absent? && HasTaken(s.stage)
    requires !s.aborted && s.notice.owner == s.id && fate.Lost? ==> s.answered.Some? && s.notice.at > s.answered.value
    ensures Judged(Resolve(s, fate))
  {}

  lemma SameJudged(s: State, t: State)
    requires Judged(s)
    requires t.outcomes == s.outcomes && t.answered == s.answered && (s.aborted ==> t.aborted)
    requires (!s.place.Absent? ==> !t.place.Absent?) && (s.place.Removed? ==> t.place.Removed?)
    requires HasEnded(s.place) ==> HasEnded(t.place)
    requires InHand(t) ==> InHand(s) || s.place.Absent? || t.place.Removed?
    requires HasTaken(s.stage) && !t.aborted ==> HasTaken(t.stage)
    requires t.since == |t.outcomes|
             || (t.since == s.since && (s.stage.Before? || s.stage.Wiped? ==> t.stage.Before? || t.stage.Wiped?))
    ensures Judged(t)
  {}

  lemma FoundJudges(s: State)
    requires Judged(s) && s.hand.Found?
    ensures Judged(if HasEnded(s.place) then Resolve(s, Closed) else s.(hand := Waiting))
  {
    hide Judged;
    if HasEnded(s.place) {
      ResolveJudges(s, Closed);
    } else {
      SameJudged(s, s.(hand := Waiting));
    }
  }

  lemma MissJudges(s: State)
    requires Judged(s) && Fenced(s) && Placed(s) && s.hand.Missing?
    ensures Judged(Miss(s))
  {
    hide Judged;
    if Creating(s.stage) {
      hide Fenced;
      SameJudged(s, Miss(s));
    } else {
      ResolveJudges(s, Dropped(s));
    }
  }

  lemma PushJudges(s: State)
    requires Judged(s) && Fenced(s) && Placed(s) && s.hand.Pushing?
    ensures Judged(Push(s))
  {
    hide Judged, Fits;
    if Fits(s.early, s.notice.update.size) {
      var fate := if Open(s.stage) then Buffered else Dropped(s);
      ResolveJudges(s, fate);
      hide Fenced;
      SameJudged(Resolve(s, fate), Push(s));
    } else {
      hide Fenced;
      SameJudged(s, Push(s));
    }
  }

  lemma ShowJudges(s: State, ok: bool)
    requires Judged(s) && Placed(s) && s.hand.Waiting?
    ensures Judged(Show(s, ok))
  {
    hide Judged;
    if !HasGate(s.stage) && ok {
      ResolveJudges(s, Direct);
      SameJudged(Resolve(s, Direct), Show(s, ok));
    } else {
      SameJudged(s, Show(s, ok));
    }
  }

  lemma LoopJudges(s: State, known: bool, ok: bool)
    requires Judged(s) && Fenced(s) && Placed(s)
    ensures Judged(StepLoop(s, known, ok))
  {
    hide Judged, Fenced, Placed, Miss, Push, Show;
    if s.hand.Missing? {
      MissJudges(s);
    } else if s.hand.Pushing? {
      PushJudges(s);
    } else if s.hand.Waiting? {
      ShowJudges(s, ok);
    } else if s.hand.Found? {
      FoundJudges(s);
    } else {
      SameJudged(s, StepLoop(s, known, ok));
    }
  }

  lemma SetupAdvances(s: State, ok: bool)
    requires s.stage.Held? ==> s.place.Absent?
    ensures
      var t := StepSetup(s, ok);
      && (s.aborted ==> t.aborted) && (!s.place.Absent? ==> t.place == s.place)
      && (HasTaken(s.stage) && !t.aborted ==> HasTaken(t.stage))
      && (t.since == |s.outcomes| || (t.since == s.since && !s.stage.Wiped? && (s.stage.Before? ==> t.stage.Wiped?)))
  {}

  lemma SetupJudges(s: State, ok: bool)
    requires Judged(s) && (s.stage.Held? ==> s.place.Absent?)
    ensures Judged(StepSetup(s, ok))
  {
    SetupFrame(s, ok);
    SetupDecidesNothing(s, ok);
    SetupKeepsId(s, ok);
    SetupAdvances(s, ok);
    hide Judged, StepSetup, HasTaken;
    SameJudged(s, StepSetup(s, ok));
  }

  lemma HeldIsAbsent(s: State)
    requires Placed(s)
    ensures s.stage.Held? ==> s.place.Absent?
  {}

  lemma StepKeepsJudged(s: State, a: Action)
    requires Judged(s) && Fenced(s) && Placed(s)
    ensures Judged(Step(s, a))
  {
    if a.LoopStep? {
      hide Judged, Fenced, Placed, StepLoop;
      LoopJudges(s, a.known, a.ok);
    } else if a.SetupStep? {
      HeldIsAbsent(s);
      hide Judged, Fenced, Placed, StepSetup;
      SetupJudges(s, a.ok);
    } else {
      hide Fenced, Placed;
    }
  }

  lemma {:induction false} EveryRunIsJudged(start: State, acts: seq<Action>)
    requires Fresh(start)
    ensures Judged(Run(start, acts))
  {
    if acts != [] {
      hide Step, Judged, Fenced, Placed, Shown;
      EveryRunIsJudged(start, acts[..|acts| - 1]);
      EveryRunIsFenced(start, acts[..|acts| - 1]);
      EveryRunHandsOver(start, acts[..|acts| - 1]);
      StepKeepsJudged(Run(start, acts[..|acts| - 1]), acts[|acts| - 1]);
    }
  }

  /** Once a creation has released its session, the session has shown its configuration, then each
      buffered update, then each update that arrived after registration, all in wire order. An update
      dispatched since the creation began is buffered or shown, except that one may be lost, between the
      two groups; it followed the response on the wire. Only once the session has ended are updates for it
      dropped. */
  lemma HandoverInOrder(start: State, acts: seq<Action>)
    requires Fresh(start) && !Run(start, acts).aborted && PastTake(Run(start, acts).stage)
    ensures
      var s := Run(start, acts);
      && s.events == [Configuration] + Of(s.outcomes, Buffered) + Of(s.outcomes, Direct)
      && Notices(s.outcomes) <= s.wire
      && (s.hand.Idle? && Mine(s.channel, s.id) == [] ==> Notices(s.outcomes) == s.wire)
      && (forall i | s.since <= i < |s.outcomes| :: !s.outcomes[i].fate.Skipped?)
      && (forall i, j | 0 <= i < j < |s.outcomes| && Final(s.outcomes[i]) ::
            s.outcomes[j].fate.Direct? || s.outcomes[j].fate.Closed?)
      && (forall i | 0 <= i < |s.outcomes| && s.outcomes[i].fate.Closed? :: HasEnded(s.place))
      && (forall i | 0 <= i < |s.outcomes| && s.outcomes[i].fate.Lost? ::
            s.answered.Some? && s.outcomes[i].notice.at > s.answered.value)
  {
    EveryRunAccounts(start, acts);
    EveryRunHandsOver(start, acts);
    EveryRunIsJudged(start, acts);
    hide Run, Of, Own, Mine, Fresh;
  }

  /** The take has happened, and update `n` is lost or still in the loop's hand to be lost. */
  predicate Slipping(s: State, n: Notice) {
    HasTaken(s.stage) && ((InHand(s) && !s.place.Removed? && s.notice == n) || Outcome(n, Lost) in s.outcomes)
  }

  lemma MissSlips(s: State, n: Notice)
    requires Slipping(Miss(s), n) && s.hand.Missing?
    ensures Slipping(s, n)
  {
    hide Creating;
  }

  lemma PushSlips(s: State, n: Notice)
    requires Slipping(Push(s), n) && s.hand.Pushing?
    ensures Slipping(s, n)
  {
    hide Fits;
  }

  lemma ShowSlips(s: State, ok: bool, n: Notice)
    requires Slipping(Show(s, ok), n) && s.hand.Waiting?
    ensures Slipping(s, n)
  {
    hide HasGate;
  }

  lemma LoopSlips(s: State, known: bool, ok: bool, n: Notice)
    requires Placed(s) && !s.aborted && Slipping(StepLoop(s, known, ok), n)
    ensures Slipping(s, n)
  {
    hide Miss, Push, Show;
    if s.hand.Missing? {
      MissSlips(s, n);
    } else if s.hand.Pushing? {
      PushSlips(s, n);
    } else if s.hand.Waiting? {
      ShowSlips(s, ok, n);
    }
  }

  lemma SetupSlips(s: State, ok: bool, n: Notice)
    requires Placed(s) && Judged(s) && !StepSetup(s, ok).aborted && Slipping(StepSetup(s, ok), n)
    ensures Slipping(s, n) || (s.stage.Configured? && InHand(s) && s.notice == n)
  {
    if i :| 0 <= i < |s.outcomes| && s.outcomes[i] == Outcome(n, Lost) {
      assert Final(s.outcomes[i]) && !s.aborted;
      assert HasTaken(s.stage);
    }
  }

  lemma SetupAborts(s: State, ok: bool)
    ensures s.aborted ==> StepSetup(s, ok).aborted
  {}

  lemma StepSlips(s: State, a: Action, n: Notice)
    requires Placed(s) && Judged(s) && !Step(s, a).aborted && Slipping(Step(s, a), n)
    ensures !s.aborted
    ensures Slipping(s, n) || (s.stage.Configured? && a.SetupStep? && InHand(s) && s.notice == n)
  {
    hide Judged, Placed, StepLoop, StepSetup;
    if a.LoopStep? {
      LoopAborts(s, a.known, a.ok);
      hide Slipping, InHand;
      LoopSlips(s, a.known, a.ok, n);
    } else if a.SetupStep? {
      SetupAborts(s, a.ok);
      hide Slipping, InHand;
      SetupSlips(s, a.ok, n);
    }
  }

  /** A lost update was in the loop's hand, past its lookup, at the moment the early updates were taken. */
  lemma {:induction false} LostWasInHand(start: State, acts: seq<Action>, n: Notice) returns (k: nat)
    requires Fresh(start) && !Run(start, acts).aborted && Slipping(Run(start, acts), n)
    ensures k < |acts| && acts[k].SetupStep?
    ensures
      var before := Run(start, acts[..k]);
      before.stage.Configured? && InHand(before) && before.notice == n
  {
    assert acts != [];
    var init, a := acts[..|acts| - 1], acts[|acts| - 1];
    var s := Run(start, init);
    EveryRunHandsOver(start, init);
    EveryRunIsJudged(start, init);
    hide Run, Step, Judged, Placed, Shown, Slipping, InHand, Fresh;
    StepSlips(s, a, n);
    if Slipping(s, n) {
      k := LostWasInHand(start, init, n);
      assert init[..k] == acts[..k];
    } else {
      k := |init|;
      assert acts[..k] == init;
    }
  }

  /** Update `n` cannot be saved: it is lost or dropped, or still in the loop's hand, or the loop has broken off
      with it. */
  predicate Doomed(s: State, n: Notice) {
    && (HasTaken(s.stage) || s.stage.Dropping?)
    && (|| Outcome(n, Lost) in s.outcomes || Outcome(n, Closed) in s.outcomes
        || (Undecided(s, n) && ((InHand(s) && s.notice == n) || s.hand.Broken?)))
  }

  lemma MissDooms(s: State, n: Notice)
    requires Doomed(s, n) && s.hand.Missing?
    ensures Doomed(Miss(s), n)
  {}

  lemma PushDooms(s: State, n: Notice)
    requires Doomed(s, n) && s.hand.Pushing?
    ensures Doomed(Push(s), n)
  {
    hide Fits;
  }

  lemma ShowDooms(s: State, ok: bool, n: Notice)
    requires Doomed(s, n) && s.hand.Waiting?
    ensures Doomed(Show(s, ok), n)
  {
    hide HasGate;
  }

  lemma LoopDooms(s: State, known: bool, ok: bool, n: Notice)
    requires Doomed(s, n)
    ensures Doomed(StepLoop(s, known, ok), n)
  {
    hide Miss, Push, Show;
    if s.hand.Missing? {
      MissDooms(s, n);
    } else if s.hand.Pushing? {
      PushDooms(s, n);
    } else if s.hand.Waiting? {
      ShowDooms(s, ok, n);
    }
  }

  lemma SetupGoesOn(s: State, ok: bool)
    requires HasTaken(s.stage) || s.stage.Dropping?
    ensures HasTaken(StepSetup(s, ok).stage) || StepSetup(s, ok).stage.Dropping?
  {}

  lemma SetupDooms(s: State, ok: bool, n: Notice)
    requires Doomed(s, n)
    ensures Doomed(StepSetup(s, ok), n)
  {
    SetupFrame(s, ok);
    SetupDecidesNothing(s, ok);
    SetupKeepsId(s, ok);
    SetupGoesOn(s, ok);
    hide StepSetup, HasTaken;
  }

  lemma DoomStays(s: State, a: Action, n: Notice)
    requires Doomed(s, n)
    ensures Doomed(Step(s, a), n)
  {
    if a.LoopStep? {
      hide StepLoop, Doomed;
      LoopDooms(s, a.known, a.ok, n);
    } else if a.SetupStep? {
      hide StepSetup, Doomed;
      SetupDooms(s, a.ok, n);
    }
  }

  lemma {:induction false} DoomIsFinal(start: State, acts: seq<Action>, more: seq<Action>, n: Notice)
    requires Doomed(Run(start, acts), n)
    ensures Doomed(Run(start, acts + more), n)
    decreases |more|
  {
    hide Step, Doomed;
    if more == [] {
      assert acts + more == acts;
    } else {
      DoomIsFinal(start, acts, more[..|more| - 1], n);
      assert acts + more == (acts + more[..|more| - 1]) + [more[|more| - 1]];
      RunSnoc(start, acts + more[..|more| - 1], more[|more| - 1]);
      hide Run;
      DoomStays(Run(start, acts + more[..|more| - 1]), more[|more| - 1], n);
    }
  }

  /** The outcomes of the updates other than `n`. */
  function Others(outcomes: seq<Outcome>, n: Notice): seq<Outcome> {
    if outcomes == [] then []
    else
      var last := outcomes[|outcomes| - 1];
      Others(outcomes[..|outcomes| - 1], n) + if last.notice == n then [] else [last]
  }

  /** The update is never shown. */
  predicate Hidden(o: Outcome) {
    o.fate.Lost? || o.fate.Closed?
  }

  lemma {:induction false} LostAddsNothing(outcomes: seq<Outcome>, n: Notice, fate: Fate)
    requires fate.Buffered? || fate.Direct?
    requires forall i | 0 <= i < |outcomes| && outcomes[i].notice == n :: Hidden(outcomes[i])
    ensures Of(Others(outcomes, n), fate) == Of(outcomes, fate)
  {
    if outcomes != [] {
      var init, last := outcomes[..|outcomes| - 1], outcomes[|outcomes| - 1];
      LostAddsNothing(init, n, fate);
      if last.notice == n {
        assert Others(outcomes, n) == Others(init, n);
      } else {
        OfSnoc(Others(init, n), last, fate);
      }
    }
  }

  /** Conversely, an update in the loop's hand once the early updates have been taken is never shown: if it
      gets an outcome it is lost, or dropped because the session has ended meanwhile; and all the session
      shows comes from the other updates. */
  lemma InHandAtTheTakeIsLost(start: State, acts: seq<Action>, more: seq<Action>)
    requires Fresh(start) && HasTaken(Run(start, acts).stage) && InHand(Run(start, acts))
    ensures
      var n, t := Run(start, acts).notice, Run(start, acts + more);
      && (forall i | 0 <= i < |t.outcomes| && t.outcomes[i].notice == n ::
            t.outcomes[i].fate.Lost? || (t.outcomes[i].fate.Closed? && HasEnded(t.place)))
      && (!t.aborted && PastTake(t.stage) ==>
            t.events == [Configuration] + Of(Others(t.outcomes, n), Buffered) + Of(Others(t.outcomes, n), Direct))
  {
    var n, t := Run(start, acts).notice, Run(start, acts + more);
    EveryRunAccounts(start, acts);
    EveryRunIncreases(start, acts);
    NoOutcomeYet(Run(start, acts));
    DoomIsFinal(start, acts, more, n);
    EveryRunAccounts(start, acts + more);
    EveryRunIncreases(start, acts + more);
    EveryRunIsJudged(start, acts + more);
    hide Run, Accounted, Increasing, Fresh, Of, Others;
    forall i | 0 <= i < |t.outcomes| && t.outcomes[i].notice == n
      ensures Hidden(t.outcomes[i])
    {
      var j :| 0 <= j < |t.outcomes| && (t.outcomes[j] == Outcome(n, Lost) || t.outcomes[j] == Outcome(n, Closed));
      OneOutcome(t, i, j);
    }
    if !t.aborted && PastTake(t.stage) {
      HandoverInOrder(start, acts + more);
      LostAddsNothing(t.outcomes, n, Buffered);
      LostAddsNothing(t.outcomes, n, Direct);
    }
  }

  // ---------------------------------------------------------------- a lost update

  const FIRST := Notice("session", Update(1, 100), 2)
  const GO := SetupStep(true)
  const TURN := LoopStep(false, true)

  const START :=
    State("session", 1, None, [], Idle, Notice("", Update(0, 0), 0), [], Before, false, false, Absent, [], [],
          [], 0, [])

  /** The response has been read and the update after it, behind the barrier. */
  const ANSWERED :=
    START.(stage := Barred, answered := Some(1), read := 3, channel := [Barrier, Deliver(FIRST)], wire := [FIRST])

  /** The loop has looked the session up in vain and the setup is about to take the buffer. */
  const RACING := ANSWERED.(channel := [], hand := Missing, notice := FIRST, acked := true,
                            stage := Configured, place := Present, events := [Configuration])

  lemma RaceBegins() returns (acts: seq<Action>)
    ensures Run(START, acts) == ANSWERED
  {
    acts := [] + [GO];
    RunSnoc(START, [], GO);
    RunSnoc(START, acts, GO);
    acts := acts + [GO];
    RunSnoc(START, acts, ReadResponse);
    acts := acts + [ReadResponse];
    RunSnoc(START, acts, GO);
    acts := acts + [GO];
    RunSnoc(START, acts, ReadUpdate("session", FIRST.update));
    acts := acts + [ReadUpdate("session", FIRST.update)];
    assert Run(START, []) == START;
    hide Run;
  }

  /** The loop has gone past the barrier and looked the session up in vain. */
  const MISSED := ANSWERED.(channel := [], hand := Missing, notice := FIRST, acked := true)

  lemma RaceMisses(acts: seq<Action>) returns (longer: seq<Action>)
    requires Run(START, acts) == ANSWERED
    ensures Run(START, longer) == MISSED
  {
    longer := acts + [TURN];
    RunSnoc(START, acts, TURN);
    RunSnoc(START, longer, TURN);
    longer := longer + [TURN];
    RunSnoc(START, longer, TURN);
    longer := longer + [TURN];
    hide Run, Miss, Push, Show;
  }

  lemma RaceGoesOn(acts: seq<Action>) returns (longer: seq<Action>)
    requires Run(START, acts) == MISSED
    ensures Run(START, longer) == RACING
  {
    longer := acts + [GO];
    RunSnoc(START, acts, GO);
    RunSnoc(START, longer, GO);
    longer := longer + [GO];
    RunSnoc(START, longer, GO);
    longer := longer + [GO];
    RunSnoc(START, longer, GO);
    longer := longer + [GO];
    hide Run, StepLoop;
  }

  /** The buffer has been taken empty and then the update was buffered. */
  const SLIPPED := RACING.(stage := Taken, hand := Idle, early := [Entry("session", FIRST.update)],
                           outcomes := [Outcome(FIRST, Lost)])

  lemma RaceIsLost(acts: seq<Action>) returns (longer: seq<Action>)
    requires Run(START, acts) == RACING
    ensures Run(START, longer) == SLIPPED
  {
    longer := acts + [GO];
    RunSnoc(START, acts, GO);
    RunSnoc(START, longer, TURN);
    longer := longer + [TURN];
    RunSnoc(START, longer, TURN);
    longer := longer + [TURN];
    hide Run;
    assert Sum([]) == 0;
  }

  lemma RaceEnds(acts: seq<Action>) returns (longer: seq<Action>)
    requires Run(START, acts) == SLIPPED
    ensures Run(START, longer) == SLIPPED.(stage := Over, early := [])
  {
    longer := acts + [GO];
    RunSnoc(START, acts, GO);
    RunSnoc(START, longer, GO);
    longer := longer + [GO];
    RunSnoc(START, longer, GO);
    longer := longer + [GO];
    hide Run, StepLoop;
  }

  lemma StartIsFresh()
    ensures Fresh(START)
  {}

  /** The one loss is real: an update sent right after the response, looked up before the session is
      registered and buffered after the take, is never shown, and nothing fails. */
  lemma AnUpdateCanBeLost() returns (acts: seq<Action>)
    ensures Fresh(START)
    ensures
      var s := Run(START, acts);
      && s.stage.Over? && !s.aborted && s.hand.Idle? && s.channel == []
      && s.wire == [FIRST] && s.outcomes == [Outcome(FIRST, Lost)] && s.events == [Configuration]
  {
    StartIsFresh();
    acts := RaceBegins();
    acts := RaceMisses(acts);
    acts := RaceGoesOn(acts);
    acts := RaceIsLost(acts);
    acts := RaceEnds(acts);
    hide Run, Fresh;
  }
}
