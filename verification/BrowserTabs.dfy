/** Tabs told from the history of calls: which are open, what they show, and which navigation may still bring
    a document. */
module BrowserTabs {
  import opened Prelude
  import opened BrowserSpec
  import opened BrowserHistory

  /** What happened to a tab last. */
  datatype Happening =
    | Never
    | Opened
    | Started
    | Committed(origin: Origin)
    | Crashed
    | Closed

  predicate IsOpen(last: Happening) {
    !last.Never? && !last.Closed?
  }

  /** How many tabs have been opened: 32 at most are open at a time, and their numbers are never used again. */
  function Opens(h: seq<Call>): nat
    decreases |h|, 0
  {
    if h == [] then 0
    else Opens(h[..|h| - 1]) + if OpensOne(h[..|h| - 1], h[|h| - 1]) then 1 else 0
  }

  predicate OpensOne(h: seq<Call>, c: Call)
    decreases |h|, 1
  {
    c.DoOpenTab? && |After(h).tabs| < 32 && Opens(h) + 1 < U64_COUNT
  }

  /** How many navigations have been started in tab `t`. */
  function Starts(h: seq<Call>, t: TabId): nat
    decreases |h|, 0
  {
    if h == [] then 0
    else Starts(h[..|h| - 1], t) + if Happens(h[..|h| - 1], h[|h| - 1], t) == Started then 1 else 0
  }

  /** What call `c` does to tab `t` after history `h`; `Never` if nothing. Only the navigation started last may
      commit, and only if nothing has happened to the tab since. */
  function Happens(h: seq<Call>, c: Call, t: TabId): Happening
    decreases |h|, 2
  {
    match c
    case DoOpenTab(_) => if OpensOne(h, c) && t == Opens(h) + 1 then Opened else Never
    case DoCloseTab(tab) => if tab == t && IsOpen(Last(h, t)) then Closed else Never
    case DoBeginNavigation(tab) =>
      if tab == t && IsOpen(Last(h, t)) && Starts(h, t) + 1 < U64_COUNT then Started else Never
    case DoCommitNavigation(navigation, origin) =>
      if navigation == NavigationId(t, Starts(h, t)) && Last(h, t) == Started then Committed(origin) else Never
    case DoCrash(tab) => if tab == t && IsOpen(Last(h, t)) then Crashed else Never
    case _ => Never
  }

  function Last(h: seq<Call>, t: TabId): Happening
    decreases |h|, 0
  {
    if h == [] then Never
    else
      var now := Happens(h[..|h| - 1], h[|h| - 1], t);
      if now.Never? then Last(h[..|h| - 1], t) else now
  }

  /** What tab `t` was opened for. */
  function OpenedFor(h: seq<Call>, t: TabId): Context {
    if h == [] then Manual
    else if Happens(h[..|h| - 1], h[|h| - 1], t) == Opened then h[|h| - 1].context
    else OpenedFor(h[..|h| - 1], t)
  }

  /** The tab that this history leaves. */
  predicate Tells(h: seq<Call>, t: TabId, tab: Tab) {
    && tab.context == OpenedFor(h, t)
    && tab.generation == Starts(h, t)
    && (tab.loading <==> Last(h, t) == Started)
    && (tab.crashed <==> Last(h, t) == Crashed)
    && (tab.document == if Last(h, t).Committed? then Some(Last(h, t).origin) else None)
  }

  ghost predicate AllTold(h: seq<Call>) {
    && After(h).nextTab == Opens(h)
    && (forall t: TabId :: t in After(h).tabs <==> IsOpen(Last(h, t)))
    && (forall t: TabId | t in After(h).tabs :: Tells(h, t, After(h).tabs[t]))
    && (forall t: TabId | t > Opens(h) :: Last(h, t).Never? && Starts(h, t) == 0)
  }

  // ---------------------------------------------------------------- every history

  lemma OneMore(h: seq<Call>, t: TabId)
    requires h != []
    ensures
      var init, c := h[..|h| - 1], h[|h| - 1];
      var now := Happens(init, c, t);
      && After(h) == Perform(After(init), c)
      && Last(h, t) == (if now.Never? then Last(init, t) else now)
      && Starts(h, t) == Starts(init, t) + (if now == Started then 1 else 0)
      && OpenedFor(h, t) == (if now == Opened then c.context else OpenedFor(init, t))
      && Opens(h) == Opens(init) + (if OpensOne(init, c) then 1 else 0)
  {
    hide Perform, Happens;
  }

  /** What a call that does nothing to tab `t` leaves of it. */
  lemma Bystander(p: Policy, c: Call, t: TabId)
    requires c.DoRequest? || c.DoResolve? || c.DoConsume? || c.DoRevokeTask?
    ensures Perform(p, c).tabs == p.tabs && Perform(p, c).nextTab == p.nextTab
  {}

  lemma TabByOpen(h: seq<Call>, c: Call, t: TabId)
    requires AllTold(h) && c.DoOpenTab?
    ensures
      var q, now := Perform(After(h), c), Happens(h, c, t);
      && (now == Opened ==> t in q.tabs && q.tabs[t] == Tab(c.context, 0, None, false, false))
      && (now.Never? ==> (t in q.tabs <==> t in After(h).tabs) && (t in q.tabs ==> q.tabs[t] == After(h).tabs[t]))
      && (now.Never? || (now == Opened && t > Opens(h)))
      && q.nextTab == Opens(h) + if OpensOne(h, c) then 1 else 0
  {
    hide After, Opens, Starts, Last, OpenedFor;
  }

  lemma TabByCall(h: seq<Call>, c: Call, t: TabId)
    requires AllTold(h) && !c.DoOpenTab?
    ensures
      var p, q, now := After(h), Perform(After(h), c), Happens(h, c, t);
      && !now.Opened?
      && (now == Closed ==> t !in q.tabs)
      && (!now.Never? && now != Closed ==> t in p.tabs && t in q.tabs && q.tabs[t].context == p.tabs[t].context)
      && (now == Started ==> q.tabs[t] == Tab(p.tabs[t].context, p.tabs[t].generation + 1, None, true, false))
      && (now.Committed? ==> q.tabs[t] == p.tabs[t].(document := Some(now.origin), loading := false))
      && (now == Crashed ==> q.tabs[t] == p.tabs[t].(document := None, loading := false, crashed := true))
      && (now.Never? ==> (t in q.tabs <==> t in p.tabs) && (t in q.tabs ==> q.tabs[t] == p.tabs[t]))
      && q.nextTab == p.nextTab
  {
    if c.DoRequest? || c.DoResolve? || c.DoConsume? || c.DoRevokeTask? {
      Bystander(After(h), c, t);
      hide Perform;
    }
    hide After, Opens, Starts, Last, OpenedFor, Request, Resolve, Consume, Retain;
  }

  lemma OpenedOnes(h: seq<Call>, t: TabId)
    requires h != [] && AllTold(h[..|h| - 1])
    ensures
      var p := After(h);
      && p.nextTab == Opens(h)
      && (t in p.tabs <==> IsOpen(Last(h, t)))
      && (t in p.tabs ==> Tells(h, t, p.tabs[t]))
      && (t > Opens(h) ==> Last(h, t).Never? && Starts(h, t) == 0)
  {
    var init, c := h[..|h| - 1], h[|h| - 1];
    OneMore(h, t);
    if c.DoOpenTab? {
      TabByOpen(init, c, t);
    } else {
      TabByCall(init, c, t);
      NotOpening(init, c);
    }
    hide Perform, After, Happens, OpensOne, Last, Starts, Opens, OpenedFor;
  }

  lemma NotOpening(h: seq<Call>, c: Call)
    requires !c.DoOpenTab?
    ensures !OpensOne(h, c)
  {}

  /** After every history the tabs are those the calls have opened and not closed, each in the generation of its
      last navigation and showing what happened to it last. */
  lemma {:induction false} TabsAreTold(h: seq<Call>)
    ensures AllTold(h)
  {
    if h != [] {
      TabsAreTold(h[..|h| - 1]);
      hide Perform, After, Happens, Last, Starts, Opens, OpenedFor, Tells;
      forall t: TabId
        ensures After(h).nextTab == Opens(h)
        ensures t in After(h).tabs <==> IsOpen(Last(h, t))
        ensures t in After(h).tabs ==> Tells(h, t, After(h).tabs[t])
        ensures t > Opens(h) ==> Last(h, t).Never? && Starts(h, t) == 0
      {
        OpenedOnes(h, t);
      }
      assert After(h).nextTab == Opens(h) by { OpenedOnes(h, 0); }
    }
  }

  // ---------------------------------------------------------------- what the calls answer

  /** Opening a tab succeeds below 32 open tabs, under a number that was never used. */
  lemma OpenTabIff(h: seq<Call>, context: Context)
    ensures
      OpenTab(After(h), context).1
      == if |After(h).tabs| < 32 && Opens(h) + 1 < U64_COUNT then Success(Opens(h) + 1) else Failure(Limit)
    ensures Last(h, Opens(h) + 1).Never?
  {
    TabsAreTold(h);
    hide After, Last, Opens;
  }

  lemma OpenIff(h: seq<Call>, t: TabId)
    ensures t in After(h).tabs <==> IsOpen(Last(h, t))
  {
    TabsAreTold(h);
  }

  /** Starting a navigation succeeds in an open tab, and answers with the number of navigations started there. */
  lemma BeginNavigationIff(h: seq<Call>, t: TabId)
    ensures
      BeginNavigation(After(h), t).1
      == if !IsOpen(Last(h, t)) then Failure(MissingTab)
         else if Starts(h, t) + 1 < U64_COUNT then Success(NavigationId(t, Starts(h, t) + 1)) else Failure(Limit)
  {
    TabsAreTold(h);
    hide After, Last, Starts, Opens, OpenedFor, Clear;
  }

  lemma {:induction false} StartsGrow(h: seq<Call>, i: nat, t: TabId)
    requires i <= |h|
    ensures Starts(h[..i], t) <= Starts(h, t)
  {
    hide Happens;
    if i == |h| {
      assert h[..i] == h;
    } else {
      assert h[..|h| - 1][..i] == h[..i];
      StartsGrow(h[..|h| - 1], i, t);
    }
  }

  /** No two navigations ever started have the same id. */
  lemma NavigationsDiffer(h: seq<Call>, i: nat, j: nat)
    requires i < j < |h| && h[i].DoBeginNavigation? && h[j].DoBeginNavigation?
    requires BeginNavigation(After(h[..i]), h[i].tab).1.Success? && BeginNavigation(After(h[..j]), h[j].tab).1.Success?
    ensures BeginNavigation(After(h[..i]), h[i].tab).1.value != BeginNavigation(After(h[..j]), h[j].tab).1.value
  {
    BeginNavigationIff(h[..i], h[i].tab);
    BeginNavigationIff(h[..j], h[j].tab);
    hide After, BeginNavigation, Last;
    var t := h[i].tab;
    assert h[..i + 1][..i] == h[..i] && h[..i + 1][i] == h[i];
    OneMore(h[..i + 1], t);
    assert h[..j][..i + 1] == h[..i + 1];
    StartsGrow(h[..j], i + 1, t);
  }

  /** Call `i` starts navigation `id`, and nothing has happened to its tab since. */
  ghost predicate StartedLast(h: seq<Call>, i: nat, id: NavigationId) {
    && i < |h| && h[i] == DoBeginNavigation(id.tab)
    && Happens(h[..i], h[i], id.tab) == Started && id.generation == Starts(h[..i], id.tab) + 1
    && forall j | i < j < |h| :: Happens(h[..j], h[j], id.tab).Never?
  }

  lemma LaterHappening(h: seq<Call>, i: nat, id: NavigationId)
    requires h != [] && i < |h| - 1
    ensures
      StartedLast(h, i, id)
      <==> StartedLast(h[..|h| - 1], i, id) && Happens(h[..|h| - 1], h[|h| - 1], id.tab).Never?
  {
    hide Happens, Starts;
    var init := h[..|h| - 1];
    assert forall j | 0 <= j <= |init| :: init[..j] == h[..j];
    assert init[..|init|] == init;
    if StartedLast(h, i, id) {
      forall j | i < j < |init|
        ensures Happens(init[..j], init[j], id.tab).Never?
      {
        assert Happens(h[..j], h[j], id.tab).Never?;
      }
      assert Happens(h[..|init|], h[|init|], id.tab).Never?;
    }
    if StartedLast(init, i, id) && Happens(init, h[|init|], id.tab).Never? {
      forall j | i < j < |h|
        ensures Happens(h[..j], h[j], id.tab).Never?
      {
        if j < |init| {
          assert Happens(init[..j], init[j], id.tab).Never?;
        }
      }
    }
  }

  lemma StartsNow(h: seq<Call>, c: Call, t: TabId)
    ensures Happens(h, c, t) == Started ==> c == DoBeginNavigation(t)
  {
    hide Last, Starts, OpensOne;
  }

  lemma StartedSnoc(h: seq<Call>, id: NavigationId)
    requires h != []
    ensures
      var init := h[..|h| - 1];
      var now := Happens(init, h[|init|], id.tab);
      (exists i: nat :: StartedLast(h, i, id))
      <==> || (now.Never? && exists i: nat :: StartedLast(init, i, id))
           || (now == Started && id.generation == Starts(init, id.tab) + 1)
  {
    var init, c := h[..|h| - 1], h[|h| - 1];
    StartsNow(init, c, id.tab);
    assert h[..|init|] == init;
    hide Happens, Starts;
    var now := Happens(init, c, id.tab);
    if i: nat :| StartedLast(h, i, id) {
      if i < |init| {
        LaterHappening(h, i, id);
      }
    }
    if now.Never? && exists i: nat :: StartedLast(init, i, id) {
      var i: nat :| StartedLast(init, i, id);
      LaterHappening(h, i, id);
    }
    if now == Started && id.generation == Starts(init, id.tab) + 1 {
      assert StartedLast(h, |init|, id);
    }
  }

  lemma NothingStartedYet(id: NavigationId)
    ensures Last([], id.tab) != Started && forall i: nat :: !StartedLast([], i, id)
  {}

  lemma {:induction false} StartedLastIff(h: seq<Call>, id: NavigationId)
    ensures Last(h, id.tab) == Started && Starts(h, id.tab) == id.generation
            <==> exists i: nat :: StartedLast(h, i, id)
  {
    hide Happens, Last, Starts, After, Opens, OpenedFor, StartedLast;
    if h == [] {
      NothingStartedYet(id);
    } else {
      StartedLastIff(h[..|h| - 1], id);
      OneMore(h, id.tab);
      StartedSnoc(h, id);
    }
  }

  /** A navigation brings its document exactly when it is the last one started in its tab and since then the tab
      has neither got a document, nor crashed, nor been closed. */
  lemma CommitIff(h: seq<Call>, navigation: NavigationId, origin: Origin)
    ensures CommitNavigation(After(h), navigation, origin).1.Success?
            <==> exists i: nat :: StartedLast(h, i, navigation)
    ensures CommitNavigation(After(h), navigation, origin).1.Failure? ==>
      CommitNavigation(After(h), navigation, origin).1.error
      == if IsOpen(Last(h, navigation.tab)) then Stale else MissingTab
  {
    TabsAreTold(h);
    StartedLastIff(h, navigation);
    hide After, Last, Starts, Opens, OpenedFor, StartedLast;
  }

  /** The prompts that have not expired. */
  function Unexpired(m: map<RequestId, Prompt>, now: nat): map<RequestId, Prompt> {
    map id | id in m && now < m[id].expires :: m[id]
  }

  /** Why a request is refused, or nothing: the limits are looked at first, then the tab, whose it is, whether
      it is settled, and whether there is a document or the request is to navigate. */
  function Objection(h: seq<Call>, t: TabId, task: nat, action: Action, now: nat): Option<Error> {
    var p := After(h);
    if |Unexpired(p.pending, now)| + |Unexpired(p.grants, now)| >= 128 then Some(Limit)
    else if !IsOpen(Last(h, t)) then Some(MissingTab)
    else if OpenedFor(h, t) != AgentTask(task) then Some(WrongContext)
    else if Last(h, t) == Started || Last(h, t) == Crashed then Some(NotReady)
    else if Last(h, t) == Opened && !action.Navigate? then Some(NotReady)
    else if p.nextRequest + 1 >= U64_COUNT || now + 60_000 >= U64_COUNT then Some(Limit)
    else None
  }

  lemma PruningIsExpiry(m: map<RequestId, Prompt>, now: nat)
    ensures Retain(m, Expiring(now)) == Unexpired(m, now)
  {}

  /** A request succeeds exactly when the calls so far leave nothing to object to, and fails with the first
      objection; the prompt is about what the tab shows and expires a minute later. */
  lemma RequestIff(h: seq<Call>, t: TabId, task: nat, action: Action, now: nat)
    ensures
      var answer := Request(After(h), t, task, action, now).1;
      if Objection(h, t, task, action, now).Some? then answer == Failure(Objection(h, t, task, action, now).value)
      else
        var shown := if Last(h, t).Committed? then Some(Last(h, t).origin) else None;
        answer
        == Success(Prompt(After(h).nextRequest + 1, t, task, action, shown, now + 60_000, Starts(h, t)))
  {
    TabsAreTold(h);
    PruningIsExpiry(After(h).pending, now);
    PruningIsExpiry(After(h).grants, now);
    hide After, Last, Starts, Opens, OpenedFor, Retain, Unexpired;
  }
}
