/** URL questions by the id the agent gave them: registering, completing, accepting and abandoning,
    with ids that are reused, request ids that are not, and owners that end at any time and take their
    questions with them. */
module Questions {
  import opened Prelude

  const MAX_QUESTIONS: nat := 64

  /** `T` stands for a cancellation token. */
  datatype Entry<T> = Entry(requestId: string, owner: T, question: T)

  function Retained<T>(entries: map<string, Entry<T>>, dead: set<T>): map<string, Entry<T>> {
    map id | id in entries && entries[id].owner !in dead :: entries[id]
  }

  /** The table with `entry` under `id`; refused when the id is taken or there is no room. */
  function Inserted<T>(kept: map<string, Entry<T>>, id: string, entry: Entry<T>): Option<map<string, Entry<T>>> {
    if |kept| >= MAX_QUESTIONS || id in kept then None else Some(kept[id := entry])
  }

  /** The table after a registration is dropped: its own entry leaves unless it was accepted. */
  function Abandoned<T>(entries: map<string, Entry<T>>, id: string, requestId: string, accepted: bool)
    : map<string, Entry<T>>
  {
    if !accepted && id in entries && entries[id].requestId == requestId then entries - {id} else entries
  }

  /** Owners' tokens, and the token made for registration `k` as a child of its owner's. */
  datatype Token = Owner(owner: nat) | Question(k: nat)

  datatype Registration = Registration(
    id: string,
    requestId: string,
    question: Token,
    parent: Token,
    accepted: bool,
    live: bool)

  /** `marked` are the tokens that were cancelled themselves. */
  datatype State = State(entries: map<string, Entry<Token>>, registrations: seq<Registration>, marked: set<Token>)

  const INITIAL := State(map[], [], {})

  /** A token is cancelled by its own cancellation or by its parent's. */
  predicate Cancelled(s: State, t: Token) {
    t in s.marked || (t.Question? && t.k < |s.registrations| && s.registrations[t.k].parent in s.marked)
  }

  /** The owners in the table that have ended. */
  function Dead(s: State): set<Token> {
    set id | id in s.entries && Cancelled(s, s.entries[id].owner) :: s.entries[id].owner
  }

  datatype Event =
    | Register(id: string, requestId: string, owner: nat)
    | Complete(id: string)
    | Accept(k: nat)
    | Drop(k: nat)
    | OwnerEnds(owner: nat)

  function Step(s: State, e: Event): State {
    match e
    case Register(id, requestId, owner) =>
      var kept := Retained(s.entries, Dead(s));
      var question := Question(|s.registrations|);
      var next := Inserted(kept, id, Entry(requestId, Owner(owner), question));
      if next.None? then s.(entries := kept)
      else
        s.(entries := next.value,
           registrations := s.registrations + [Registration(id, requestId, question, Owner(owner), false, true)])
    case Complete(id) =>
      if id in s.entries then
        s.(entries := s.entries - {id}, marked := s.marked + {s.entries[id].question})
      else s
    case Accept(k) =>
      if k < |s.registrations| && s.registrations[k].live then
        s.(registrations := s.registrations[k := s.registrations[k].(accepted := true)])
      else s
    case Drop(k) =>
      if k < |s.registrations| && s.registrations[k].live then
        var r := s.registrations[k];
        s.(marked := s.marked + {r.question}, entries := Abandoned(s.entries, r.id, r.requestId, r.accepted),
           registrations := s.registrations[k := r.(live := false)])
      else s
    case OwnerEnds(owner) => s.(marked := s.marked + {Owner(owner)})
  }

  function Run(es: seq<Event>): State {
    if es == [] then INITIAL else Step(Run(es[..|es| - 1]), es[|es| - 1])
  }

  /** Request ids are never used twice. */
  ghost predicate FreshIds(es: seq<Event>) {
    forall i, j | 0 <= i < j < |es| && es[i].Register? && es[j].Register? :: es[i].requestId != es[j].requestId
  }

  // ---------------------------------------------------------------- tokens

  /** Registrations have their own question tokens, under an owner's; entries point to them. */
  ghost predicate Pointing(s: State) {
    && (forall k: nat | k < |s.registrations| ::
          s.registrations[k].question == Question(k) && s.registrations[k].parent.Owner?)
    && (forall id | id in s.entries :: s.entries[id].question.Question? && s.entries[id].owner.Owner?)
    && (forall t | t in s.marked && t.Question? :: t.k < |s.registrations|)
    && (forall id | id in s.entries :: s.entries[id].question.k < |s.registrations|)
  }

  lemma StepKeepsPointing(s: State, e: Event)
    requires Pointing(s)
    ensures Pointing(Step(s, e))
  {
    hide Dead;
  }

  lemma {:induction false} EveryRunPoints(es: seq<Event>)
    ensures Pointing(Run(es))
  {
    hide Step, Pointing;
    if es != [] {
      EveryRunPoints(es[..|es| - 1]);
      StepKeepsPointing(Run(es[..|es| - 1]), es[|es| - 1]);
    } else {
      NothingYet();
    }
  }

  lemma NothingYet()
    ensures Pointing(INITIAL)
  {}

  /** Event `e` cancels question `k` itself: its registration is dropped, or the agent completes the id
      under which it is registered at that moment. */
  predicate Strikes(before: State, e: Event, k: nat) {
    match e
    case Drop(j) => j == k && k < |before.registrations| && before.registrations[k].live
    case Complete(id) => id in before.entries && before.entries[id].question == Question(k)
    case _ => false
  }

  lemma StepMarks(s: State, e: Event, t: Token)
    requires Pointing(s)
    ensures t in Step(s, e).marked
            <==> t in s.marked || (t.Question? && Strikes(s, e, t.k)) || (t.Owner? && e == OwnerEnds(t.owner))
  {
    hide Dead, Retained, Abandoned;
  }

  /** The event that cancelled token `t` itself. */
  lemma {:induction false} MarkedBy(es: seq<Event>, t: Token) returns (i: nat)
    requires t in Run(es).marked
    ensures i < |es|
    ensures if t.Question? then Strikes(Run(es[..i]), es[i], t.k) else es[i] == OwnerEnds(t.owner)
  {
    assert es != [];
    hide Step, Strikes, Pointing;
    var init, e := es[..|es| - 1], es[|es| - 1];
    EveryRunPoints(init);
    StepMarks(Run(init), e, t);
    if t in Run(init).marked {
      i := MarkedBy(init, t);
      assert es[..i] == init[..i];
    } else {
      i := |init|;
    }
  }

  lemma {:induction false} StrikeMarks(es: seq<Event>, i: nat, t: Token)
    requires i < |es|
    requires if t.Question? then Strikes(Run(es[..i]), es[i], t.k) else es[i] == OwnerEnds(t.owner)
    ensures t in Run(es).marked
  {
    hide Step, Strikes, Pointing;
    var init, e := es[..|es| - 1], es[|es| - 1];
    EveryRunPoints(init);
    StepMarks(Run(init), e, t);
    if i < |init| {
      assert es[..i] == init[..i];
      StrikeMarks(init, i, t);
    }
  }

  /** A question is cancelled exactly by its own drop, by its own completion, or by the end of its owner;
      nothing that happens to another question of the same owner cancels it. */
  lemma CancelledIff(es: seq<Event>, k: nat)
    requires k < |Run(es).registrations|
    ensures Run(es).registrations[k].parent.Owner?
    ensures Cancelled(Run(es), Question(k))
            <==> || (exists i: nat :: i < |es| && Strikes(Run(es[..i]), es[i], k))
                 || OwnerEnds(Run(es).registrations[k].parent.owner) in es
  {
    EveryRunPoints(es);
    var parent := Run(es).registrations[k].parent;
    OwnersEndThemselves(es, parent.owner);
    hide Run, Strikes;
    if Question(k) in Run(es).marked {
      var i := MarkedBy(es, Question(k));
    }
    if i: nat :| i < |es| && Strikes(Run(es[..i]), es[i], k) {
      StrikeMarks(es, i, Question(k));
    }
  }

  /** Cancellation never goes up: an owner is cancelled exactly when it was ended, whatever happens to
      its questions. */
  lemma OwnersEndThemselves(es: seq<Event>, owner: nat)
    ensures Cancelled(Run(es), Owner(owner)) <==> OwnerEnds(owner) in es
  {
    if Owner(owner) in Run(es).marked {
      var i := MarkedBy(es, Owner(owner));
    }
    if OwnerEnds(owner) in es {
      var i: nat :| i < |es| && es[i] == OwnerEnds(owner);
      StrikeMarks(es, i, Owner(owner));
    }
  }

  // ---------------------------------------------------------------- the table

  ghost predicate Belongs(s: State, id: string)
    requires id in s.entries
  {
    var entry := s.entries[id];
    && entry.question.Question? && entry.question.k < |s.registrations|
    && var r := s.registrations[entry.question.k];
       r.id == id && r.requestId == entry.requestId && r.parent == entry.owner && (r.live || r.accepted)
  }

  ghost predicate Table(s: State) {
    && |s.entries| <= MAX_QUESTIONS
    && (forall id | id in s.entries :: Belongs(s, id))
    && (forall a, b | 0 <= a < b < |s.registrations| :: s.registrations[a].requestId != s.registrations[b].requestId)
  }

  /** `requestId` was used by an earlier registration. */
  ghost predicate Used(es: seq<Event>, requestId: string) {
    exists i :: 0 <= i < |es| && es[i].Register? && es[i].requestId == requestId
  }

  lemma {:induction false} RegistrationsUsedTheirIds(es: seq<Event>, k: nat)
    requires k < |Run(es).registrations|
    ensures Used(es, Run(es).registrations[k].requestId)
  {
    if es != [] {
      var init, e := es[..|es| - 1], es[|es| - 1];
      hide Retained, Abandoned, Dead;
      if k < |Run(init).registrations| {
        RegistrationsUsedTheirIds(init, k);
        var i :| 0 <= i < |init| && init[i].Register? && init[i].requestId == Run(init).registrations[k].requestId;
        assert es[i] == init[i];
      } else {
        assert es[|es| - 1].Register?;
      }
    }
  }

  lemma RetainedIsSmaller<T>(entries: map<string, Entry<T>>, dead: set<T>)
    ensures |Retained(entries, dead)| <= |entries|
  {
    SubsetSize(Retained(entries, dead), entries);
  }

  lemma RegisterBelongs(s: State, e: Event, id: string)
    requires Table(s) && e.Register? && id in Step(s, e).entries
    ensures Belongs(Step(s, e), id)
  {
    hide Dead;
    if id in s.entries {
      assert Belongs(s, id);
    }
  }

  lemma RegisterKeepsSize(s: State, e: Event)
    requires |s.entries| <= MAX_QUESTIONS && e.Register?
    ensures |Step(s, e).entries| <= MAX_QUESTIONS
  {
    RetainedIsSmaller(s.entries, Dead(s));
    hide Retained, Dead;
  }

  lemma RegisterKeepsIds(s: State, e: Event)
    requires Table(s) && e.Register?
    requires forall k | 0 <= k < |s.registrations| :: s.registrations[k].requestId != e.requestId
    ensures
      var t := Step(s, e);
      forall a, b | 0 <= a < b < |t.registrations| :: t.registrations[a].requestId != t.registrations[b].requestId
  {
    hide Retained, Dead, Belongs;
  }

  lemma RegisterKeepsTable(s: State, e: Event)
    requires Table(s) && e.Register?
    requires forall k | 0 <= k < |s.registrations| :: s.registrations[k].requestId != e.requestId
    ensures Table(Step(s, e))
  {
    RegisterKeepsSize(s, e);
    RegisterKeepsIds(s, e);
    hide Step, Belongs;
    forall id | id in Step(s, e).entries
      ensures Belongs(Step(s, e), id)
    {
      RegisterBelongs(s, e, id);
    }
  }

  lemma RestBelongs(s: State, e: Event, id: string)
    requires Table(s) && !e.Register? && id in Step(s, e).entries
    ensures id in s.entries && Belongs(Step(s, e), id)
  {
    RestTakesOut(s, e);
    assert Belongs(s, id);
    hide Retained, Inserted, Dead;
  }

  /** Everything but registering only takes entries out, and a registration that ends unaccepted has no
      entry left. */
  lemma RestTakesOut(s: State, e: Event)
    requires !e.Register?
    ensures
      var t := Step(s, e);
      && t.entries.Keys <= s.entries.Keys
      && (forall id | id in t.entries :: t.entries[id] == s.entries[id])
  {
    hide Retained, Inserted, Dead;
  }

  lemma RestEffect(s: State, e: Event)
    requires Table(s) && !e.Register?
    ensures
      var t := Step(s, e);
      && t.entries.Keys <= s.entries.Keys
      && (forall id | id in t.entries :: t.entries[id] == s.entries[id] && Belongs(t, id))
  {
    RestTakesOut(s, e);
    forall id | id in Step(s, e).entries
      ensures Belongs(Step(s, e), id)
    {
      RestBelongs(s, e, id);
    }
    hide Step, Belongs;
  }

  lemma RestKeepsIds(s: State, e: Event)
    requires !e.Register?
    ensures |Step(s, e).registrations| == |s.registrations|
    ensures forall k | 0 <= k < |s.registrations| ::
      Step(s, e).registrations[k].requestId == s.registrations[k].requestId
  {
    hide Retained, Inserted, Abandoned, Dead;
  }

  lemma RestKeepsTable(s: State, e: Event)
    requires Table(s) && !e.Register?
    ensures Table(Step(s, e))
  {
    RestEffect(s, e);
    RestKeepsIds(s, e);
    hide Step, Belongs;
    SubsetSize(Step(s, e).entries, s.entries);
  }

  /** Entries number at most 64 and each belongs to a registration that is live or was accepted. */
  lemma {:induction false} EntriesAreOwned(es: seq<Event>)
    requires FreshIds(es)
    ensures Table(Run(es))
  {
    if es != [] {
      var init, e := es[..|es| - 1], es[|es| - 1];
      EntriesAreOwned(init);
      if e.Register? {
        forall k | 0 <= k < |Run(init).registrations|
          ensures Run(init).registrations[k].requestId != e.requestId
        {
          RegistrationsUsedTheirIds(init, k);
          var i :| 0 <= i < |init| && init[i].Register? && init[i].requestId == Run(init).registrations[k].requestId;
          assert es[i] == init[i];
        }
        hide Step, Table;
        RegisterKeepsTable(Run(init), e);
      } else {
        RestKeepsTable(Run(init), e);
      }
    }
  }

  /** Dropping an old registration never evicts another's entry, even under the same reused id. */
  lemma DropSparesOthers(es: seq<Event>, k: nat, id: string)
    requires FreshIds(es) && id in Run(es).entries && Run(es).entries[id].question != Question(k)
    ensures
      var t := Step(Run(es), Drop(k));
      id in t.entries && t.entries[id] == Run(es).entries[id]
  {
    EntriesAreOwned(es);
    EveryRunPoints(es);
    hide Run;
    assert Belongs(Run(es), id);
  }

  // ---------------------------------------------------------------- how long an entry lasts

  ghost predicate HasEntry(s: State, k: nat) {
    exists id :: id in s.entries && s.entries[id].question == Question(k)
  }

  /** Event `e` ends the entry of registration `k`: the agent completes its id, it is dropped without
      having been accepted, or somebody registers after its owner has ended. */
  predicate Evicts(s: State, e: Event, k: nat)
    requires k < |s.registrations|
  {
    match e
    case Complete(id) => id == s.registrations[k].id
    case Drop(j) => j == k && s.registrations[k].live && !s.registrations[k].accepted
    case Register(_, _, _) => Cancelled(s, s.registrations[k].parent)
    case _ => false
  }

  lemma EntryIsUnderItsId(s: State, k: nat)
    requires Table(s) && k < |s.registrations|
    ensures HasEntry(s, k) <==>
              s.registrations[k].id in s.entries && s.entries[s.registrations[k].id].question == Question(k)
  {
    if id :| id in s.entries && s.entries[id].question == Question(k) {
      assert Belongs(s, id);
    }
  }

  lemma DeadIff(s: State, id: string)
    requires id in s.entries
    ensures s.entries[id].owner in Dead(s) <==> Cancelled(s, s.entries[id].owner)
  {}

  /** Registering first throws out the entries whose owner has ended; then it may take an id that is free. */
  lemma RegisterEffect(s: State, e: Event, id: string)
    requires e.Register?
    ensures
      var t := Step(s, e);
      && (id in s.entries && !Cancelled(s, s.entries[id].owner) ==> id in t.entries && t.entries[id] == s.entries[id])
      && (id in t.entries && !(id in s.entries && !Cancelled(s, s.entries[id].owner)) ==>
            t.entries[id].question == Question(|s.registrations|))
  {
    if id in s.entries {
      DeadIff(s, id);
    }
    hide Dead, Cancelled;
  }

  lemma RegisterEvicts(s: State, e: Event, k: nat)
    requires Table(s) && Pointing(s) && k < |s.registrations| && e.Register?
    ensures
      var id, t := s.registrations[k].id, Step(s, e);
      id in t.entries && t.entries[id].question == Question(k)
      <==> id in s.entries && s.entries[id].question == Question(k) && !Evicts(s, e, k)
  {
    RegisterEffect(s, e, s.registrations[k].id);
    hide Step, Cancelled;
    if s.registrations[k].id in s.entries {
      assert Belongs(s, s.registrations[k].id);
    }
  }

  lemma RestEvicts(s: State, e: Event, k: nat)
    requires Table(s) && Pointing(s) && k < |s.registrations| && !e.Register?
    ensures
      var id, t := s.registrations[k].id, Step(s, e);
      id in t.entries && t.entries[id].question == Question(k)
      <==> id in s.entries && s.entries[id].question == Question(k) && !Evicts(s, e, k)
  {
    if s.registrations[k].id in s.entries {
      assert Belongs(s, s.registrations[k].id);
    }
    hide Dead, Retained, Inserted;
  }

  lemma RegistrationsStay(s: State, e: Event, k: nat)
    requires Pointing(s) && k < |Step(s, e).registrations|
    ensures k < |s.registrations| ==> Step(s, e).registrations[k].id == s.registrations[k].id
    ensures k >= |s.registrations| ==>
              var id := Step(s, e).registrations[k].id;
              id in Step(s, e).entries && Step(s, e).entries[id].question == Question(k)
  {
    hide Dead, Retained, Abandoned;
  }

  /** Event `i` ends the entry of registration `k`. */
  ghost predicate EvictsAt(es: seq<Event>, i: nat, k: nat) {
    i < |es| && k < |Run(es[..i]).registrations| && Evicts(Run(es[..i]), es[i], k)
  }

  /** A registration has its entry from the moment it is made, until the agent completes its id, or it is
      dropped unaccepted, or somebody registers after its owner has ended; never shorter nor longer. */
  lemma {:induction false} EntryLastsIff(es: seq<Event>, k: nat)
    requires FreshIds(es) && k < |Run(es).registrations|
    ensures HasEntry(Run(es), k) <==> forall i: nat :: !EvictsAt(es, i, k)
  {
    assert es != [];
    var init, e := es[..|es| - 1], es[|es| - 1];
    var s := Run(init);
    EntriesAreOwned(es);
    EntriesAreOwned(init);
    EveryRunPoints(init);
    EntryIsUnderItsId(Run(es), k);
    RegistrationsStay(s, e, k);
    forall i: nat | i < |init|
      ensures EvictsAt(es, i, k) <==> EvictsAt(init, i, k)
    {
      assert es[..i] == init[..i] && es[i] == init[i];
    }
    assert es[..|init|] == init;
    hide Step, Table, Pointing, Evicts, HasEntry;
    if k < |s.registrations| {
      EntryLastsIff(init, k);
      EntryIsUnderItsId(s, k);
      if e.Register? {
        RegisterEvicts(s, e, k);
      } else {
        RestEvicts(s, e, k);
      }
      assert EvictsAt(es, |init|, k) <==> Evicts(s, e, k);
      EvictedAtMost(es, k);
    } else {
      forall i: nat
        ensures !EvictsAt(es, i, k)
      {
        if i < |init| {
          NotYetThere(init, i, k);
        }
      }
    }
  }

  lemma EvictedAtMost(es: seq<Event>, k: nat)
    requires es != []
    ensures
      var init := es[..|es| - 1];
      (forall i: nat :: !EvictsAt(es, i, k))
      <==> (forall i: nat :: !EvictsAt(init, i, k)) && !EvictsAt(es, |init|, k)
  {
    hide Run, Evicts;
    var init := es[..|es| - 1];
    forall i: nat | i < |init|
      ensures EvictsAt(es, i, k) <==> EvictsAt(init, i, k)
    {
      assert es[..i] == init[..i] && es[i] == init[i];
    }
  }

  /** Registrations are never taken back. */
  lemma {:induction false} NotYetThere(es: seq<Event>, i: nat, k: nat)
    requires i <= |es| && |Run(es).registrations| <= k
    ensures |Run(es[..i]).registrations| <= k
  {
    if i == |es| {
      assert es[..i] == es;
    } else {
      var init := es[..|es| - 1];
      RegistrationsGrow(Run(init), es[|es| - 1]);
      assert init[..i] == es[..i];
      hide Step;
      NotYetThere(init, i, k);
    }
  }

  lemma RegistrationsGrow(s: State, e: Event)
    ensures |s.registrations| <= |Step(s, e).registrations|
  {
    hide Dead, Retained, Abandoned;
  }
}
