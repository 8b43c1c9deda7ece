/** The question registry as it is: a map behind a lock, tokens shared with their owners, and
    registrations that clean up when they are dropped. */
module QuestionRegistry {
  import opened Prelude
  import opened Questions

  /** A cancelled token ends everything below it. */
  lemma {:induction false} CancelledBelow(t: Token, above: Token)
    requires t.Sound() && above in t.Line() && above.marked
    ensures t.IsCancelled()
    decreases t.depth
  {
    if t != above {
      CancelledBelow(t.parent, above);
    }
  }

  /** A cancellation token, possibly the child of another. `depth` counts the tokens above it. */
  class Token {
    const parent: Token?
    ghost const depth: nat
    var marked: bool

    /** A token of its own. */
    constructor ()
      ensures Sound() && parent == null && !IsCancelled()
    {
      parent, depth, marked := null, 0, false;
    }

    /** A child: it ends with `owner`. */
    constructor Child(owner: Token)
      requires owner.Sound()
      ensures Sound() && parent == owner && (IsCancelled() <==> owner.IsCancelled())
    {
      parent, depth, marked := owner, owner.depth + 1, false;
    }

    ghost predicate Sound()
      decreases depth
    {
      parent != null ==> parent.depth < depth && parent.Sound()
    }

    /** The token and every token above it. */
    ghost function Line(): set<Token>
      requires Sound()
      ensures forall t | t in Line() :: t == this || t.depth < depth
      decreases depth
    {
      if parent == null then {this} else {this} + parent.Line()
    }

    predicate IsCancelled()
      requires Sound()
      reads Line()
      decreases depth
    {
      marked || (parent != null && parent.IsCancelled())
    }

    /** Cancelling a token ends the tokens below it, and no other. */
    method Cancel()
      requires Sound()
      modifies this`marked
      ensures marked && IsCancelled()
      ensures forall t: Token | old(allocated(t)) && t.Sound() && this in t.Line() :: t.IsCancelled()
      ensures forall t: Token | old(allocated(t)) && t.Sound() && this !in t.Line() ::
        t.IsCancelled() == old(t.IsCancelled())
    {
      marked := true;
      forall t: Token | old(allocated(t)) && t.Sound() && this in t.Line()
        ensures t.IsCancelled()
      {
        CancelledBelow(t, this);
      }
    }
  }

  class Registry {
    var entries: map<string, Entry<Token>>

    constructor ()
      ensures Valid() && entries == map[]
    {
      entries := map[];
    }

    ghost predicate Valid()
      reads this
    {
      forall id | id in entries :: entries[id].owner.Sound() && entries[id].question.Sound()
    }

    /** The owners and what is above them. */
    ghost function Watched(): set<Token>
      reads this
      requires Valid()
    {
      set id, t | id in entries && t in entries[id].owner.Line() :: t
    }

    /** The owners that have ended. */
    ghost function Dead(): set<Token>
      requires Valid()
      reads this, Watched()
    {
      set id | id in entries && entries[id].owner.IsCancelled() :: entries[id].owner
    }

    /** The ids of the others. */
    ghost function Lasting(): set<string>
      requires Valid()
      reads this, Watched()
    {
      set id | id in entries && !entries[id].owner.IsCancelled()
    }

    /** Throws out the entries whose owner has ended. */
    method Retain()
      requires Valid()
      modifies this
      ensures Valid() && entries == old(Retained(entries, Dead()))
    {
      var kept, rest := entries, entries.Keys;
      while rest != {}
        invariant rest <= entries.Keys
        invariant forall key :: key in kept <==> key in entries && (key in rest || !entries[key].owner.IsCancelled())
        invariant forall key | key in kept :: kept[key] == entries[key]
        decreases |rest|
      {
        var key :| key in rest;
        rest := rest - {key};
        if entries[key].owner.IsCancelled() {
          kept := kept - {key};
        }
      }
      assert kept == Retained(entries, Dead());
      entries := kept;
    }

    /** Entries of ended owners leave first; then the id must be free and there must be room. */
    method Register(id: string, requestId: string, owner: Token, question: Token) returns (r: Option<Registration>)
      requires Valid() && owner.Sound() && question.Sound()
      modifies this
      ensures Valid()
      ensures
        var kept := old(Retained(entries, Dead()));
        var next := Inserted(kept, id, Entry(requestId, owner, question));
        r.Some? == next.Some? && entries == if next.Some? then next.value else kept
      ensures
        var lasting := old(Lasting());
        && (r.Some? <==> |lasting| < 64 && id !in lasting)
        && entries.Keys == lasting + (if r.Some? then {id} else {})
        && (r.Some? ==> entries[id] == Entry(requestId, owner, question))
        && forall other | other in lasting :: entries[other] == old(entries)[other]
      ensures r.Some? ==>
        && fresh(r.value) && !r.value.accepted && r.value.registry == this && r.value.id == id
        && r.value.requestId == requestId && r.value.question == question
    {
      ghost var lasting := Lasting();
      Retain();
      assert entries.Keys == lasting;
      assert |entries| == |lasting|;
      if |entries| >= MAX_QUESTIONS || id in entries {
        return None;
      }
      entries := entries[id := Entry(requestId, owner, question)];
      var registration := new Registration(this, id, requestId, question);
      return Some(registration);
    }

    /** Completing an id cancels the question registered under it and what is below that; not the owner it
        is a child of, and not a question beside it. */
    method Complete(id: string)
      requires Valid()
      modifies this, if id in entries then {entries[id].question} else {}
      ensures Valid() && entries == old(entries) - {id}
      ensures id in old(entries) ==> old(entries)[id].question.IsCancelled()
      ensures id in old(entries) && old(entries)[id].question.parent == old(entries)[id].owner ==>
        old(entries)[id].owner.IsCancelled() == old(entries[id].owner.IsCancelled())
      ensures forall t: Token | old(allocated(t)) && t.Sound() ::
        (id in old(entries) ==> old(entries)[id].question !in t.Line()) ==>
          t.IsCancelled() == old(t.IsCancelled())
    {
      if id in entries {
        var entry := entries[id];
        entries := entries - {id};
        assert entry.question.parent == entry.owner ==> entry.question !in entry.owner.Line();
        entry.question.Cancel();
      } else {
        assert entries - {id} == entries;
      }
    }
  }

  class Registration {
    const registry: Registry
    const id: string
    const requestId: string
    const question: Token
    var accepted: bool

    constructor (registry: Registry, id: string, requestId: string, question: Token)
      ensures this.registry == registry && this.id == id && this.requestId == requestId
      ensures this.question == question && !accepted
    {
      this.registry, this.id, this.requestId, this.question, this.accepted := registry, id, requestId, question, false;
    }

    method Accepted()
      modifies this`accepted
      ensures accepted
    {
      accepted := true;
    }

    /** Dropping cancels the question, not its owner, and takes out only an unaccepted entry of the same
        request. */
    method Drop()
      requires registry.Valid() && question.Sound()
      modifies registry, question`marked
      ensures registry.Valid() && question.IsCancelled()
      ensures question.parent != null ==> question.parent.IsCancelled() == old(question.parent.IsCancelled())
      ensures registry.entries == Abandoned(old(registry.entries), id, requestId, accepted)
      ensures
        var was := old(registry.entries);
        registry.entries == if !accepted && id in was && was[id].requestId == requestId then was - {id} else was
    {
      assert question.parent != null ==> question !in question.parent.Line();
      question.Cancel();
      if !accepted && id in registry.entries && registry.entries[id].requestId == requestId {
        registry.entries := registry.entries - {id};
      }
    }
  }
}
