/** When a question is registered, and how long its registration lives, told from the events. */
module QuestionLaws {
  import opened Prelude
  import opened Questions

  /** The ids whose owner has not been ended. */
  ghost function Lasting(es: seq<Event>): set<string> {
    set id | id in Run(es).entries && Run(es).entries[id].owner.Owner?
             && OwnerEnds(Run(es).entries[id].owner.owner) !in es :: id
  }

  lemma RunSnoc(es: seq<Event>, e: Event)
    ensures Run(es + [e]) == Step(Run(es), e)
  {
    assert (es + [e])[..|es|] == es;
    hide Step;
  }

  lemma LastingAreKept(es: seq<Event>, id: string)
    ensures id in Lasting(es) <==> id in Run(es).entries && Run(es).entries[id].owner !in Dead(Run(es))
  {
    if id in Run(es).entries {
      EveryRunPoints(es);
      DeadIff(Run(es), id);
      OwnersEndThemselves(es, Run(es).entries[id].owner.owner);
      hide Run, Dead, Cancelled;
    } else {
      hide Run, Dead, Cancelled;
    }
  }

  /** A registration is accepted exactly when its id is not taken, and fewer than 64 are, by questions whose
      owners go on; the entries of the others leave in any case. */
  lemma RegisteredIff(es: seq<Event>, id: string, requestId: string, owner: nat)
    ensures
      var s, t := Run(es), Run(es + [Register(id, requestId, owner)]);
      var k := |s.registrations|;
      && t.marked == s.marked
      && (forall other | other in Lasting(es) :: other in t.entries && t.entries[other] == s.entries[other])
      && if |Lasting(es)| < 64 && id !in Lasting(es) then
           && t.entries.Keys == Lasting(es) + {id}
           && t.entries[id] == Entry(requestId, Owner(owner), Question(k))
           && t.registrations
              == s.registrations + [Registration(id, requestId, Question(k), Owner(owner), false, true)]
         else
           t.entries.Keys == Lasting(es) && t.registrations == s.registrations
  {
    RunSnoc(es, Register(id, requestId, owner));
    var s := Run(es);
    forall other
      ensures other in Lasting(es) <==> other in s.entries && s.entries[other].owner !in Dead(s)
    {
      LastingAreKept(es, other);
    }
    hide Run, Dead, Lasting;
    assert Retained(s.entries, Dead(s)).Keys == Lasting(es);
    assert |Retained(s.entries, Dead(s))| == |Retained(s.entries, Dead(s)).Keys|;
  }

  // ---------------------------------------------------------------- a registration's life

  /** Event `i` is `e`, and registration `k` has been made before. */
  ghost predicate Later(es: seq<Event>, i: nat, k: nat, e: Event) {
    i < |es| && es[i] == e && k < |Run(es[..i]).registrations|
  }

  lemma LaterSnoc(es: seq<Event>, k: nat, e: Event)
    requires es != []
    ensures
      var init := es[..|es| - 1];
      (exists i: nat :: Later(es, i, k, e))
      <==> (exists i: nat :: Later(init, i, k, e)) || (es[|init|] == e && k < |Run(init).registrations|)
  {
    hide Run;
    var init := es[..|es| - 1];
    assert es[..|init|] == init;
    if i: nat :| Later(es, i, k, e) {
      if i < |init| {
        assert init[..i] == es[..i];
        assert Later(init, i, k, e);
      }
    }
    if i: nat :| Later(init, i, k, e) {
      assert init[..i] == es[..i];
      assert Later(es, i, k, e);
    }
    if es[|init|] == e && k < |Run(init).registrations| {
      assert Later(es, |init|, k, e);
    }
  }

  lemma LifeStep(s: State, e: Event, k: nat)
    requires k < |Step(s, e).registrations|
    ensures
      var r := Step(s, e).registrations[k];
      if k < |s.registrations| then
        && (r.live <==> s.registrations[k].live && e != Drop(k))
        && (r.accepted <==> s.registrations[k].accepted || (e == Accept(k) && s.registrations[k].live))
      else r.live && !r.accepted
  {
    hide Dead, Retained, Abandoned;
  }

  /** A registration lives until it is dropped. */
  lemma {:induction false} LiveIff(es: seq<Event>, k: nat)
    requires k < |Run(es).registrations|
    ensures Run(es).registrations[k].live <==> !exists i: nat :: Later(es, i, k, Drop(k))
  {
    var init, e := es[..|es| - 1], es[|es| - 1];
    hide Step, Later;
    LifeStep(Run(init), e, k);
    LaterSnoc(es, k, Drop(k));
    if k < |Run(init).registrations| {
      LiveIff(init, k);
    } else {
      NotMade(init, k, Drop(k));
    }
  }

  lemma NotMade(es: seq<Event>, k: nat, e: Event)
    requires |Run(es).registrations| <= k
    ensures forall i: nat :: !Later(es, i, k, e)
  {
    forall i: nat | i < |es|
      ensures |Run(es[..i]).registrations| <= k
    {
      NotYetThere(es, i, k);
    }
    hide Run;
  }

  /** Event `i` accepts registration `k`, which has not been dropped before. */
  ghost predicate AcceptsAt(es: seq<Event>, i: nat, k: nat) {
    && Later(es, i, k, Accept(k))
    && forall j: nat | j < i :: !Later(es, j, k, Drop(k))
  }

  lemma AcceptsNow(init: seq<Event>, es: seq<Event>, k: nat)
    requires es != [] && init == es[..|es| - 1] && k < |Run(init).registrations|
    ensures AcceptsAt(es, |init|, k) <==> es[|init|] == Accept(k) && Run(init).registrations[k].live
  {
    LiveIff(init, k);
    assert es[..|init|] == init;
    assert forall j | 0 <= j < |init| :: init[..j] == es[..j] && init[j] == es[j];
    hide Run;
    if !Run(init).registrations[k].live {
      var j: nat :| Later(init, j, k, Drop(k));
      assert Later(es, j, k, Drop(k));
    } else {
      forall j: nat | j < |init|
        ensures !Later(es, j, k, Drop(k))
      {
        assert !Later(init, j, k, Drop(k));
      }
    }
  }

  lemma AcceptsBefore(es: seq<Event>, i: nat, k: nat)
    requires es != [] && i < |es| - 1
    ensures AcceptsAt(es, i, k) <==> AcceptsAt(es[..|es| - 1], i, k)
  {
    hide Run;
    var init := es[..|es| - 1];
    forall j: nat, e | j <= i
      ensures Later(es, j, k, e) <==> Later(init, j, k, e)
    {
      assert init[..j] == es[..j] && init[j] == es[j];
    }
    hide Later;
  }

  lemma AcceptsSnoc(es: seq<Event>, k: nat)
    requires es != []
    ensures
      var init := es[..|es| - 1];
      (exists i: nat :: AcceptsAt(es, i, k)) <==> (exists i: nat :: AcceptsAt(init, i, k)) || AcceptsAt(es, |init|, k)
  {
    var init := es[..|es| - 1];
    forall i: nat | i < |init|
      ensures AcceptsAt(es, i, k) <==> AcceptsAt(init, i, k)
    {
      AcceptsBefore(es, i, k);
    }
    AcceptsInside(es, k);
    AcceptsInside(init, k);
    hide AcceptsAt;
  }

  lemma AcceptsInside(es: seq<Event>, k: nat)
    ensures forall i: nat :: AcceptsAt(es, i, k) ==> i < |es|
  {
    hide Run;
  }

  /** It has been accepted exactly when that was said before it was dropped. */
  lemma {:induction false} AcceptedIff(es: seq<Event>, k: nat)
    requires k < |Run(es).registrations|
    ensures Run(es).registrations[k].accepted <==> exists i: nat :: AcceptsAt(es, i, k)
  {
    var init, e := es[..|es| - 1], es[|es| - 1];
    assert es != [] && Run(es) == Step(Run(init), e);
    hide Run, Step, AcceptsAt, Later;
    LifeStep(Run(init), e, k);
    AcceptsSnoc(es, k);
    if k < |Run(init).registrations| {
      AcceptsNow(init, es, k);
      AcceptedIff(init, k);
    } else {
      NotAccepted(init, es, k);
    }
  }

  lemma NotAccepted(init: seq<Event>, es: seq<Event>, k: nat)
    requires es != [] && init == es[..|es| - 1] && |Run(init).registrations| <= k
    ensures (forall i: nat :: !AcceptsAt(init, i, k)) && !AcceptsAt(es, |init|, k)
  {
    NotMade(init, k, Accept(k));
    assert es[..|init|] == init;
    hide Run;
  }
}
