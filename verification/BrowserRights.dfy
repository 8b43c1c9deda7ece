/** What a policy would honour, and how each call changes that. */
module BrowserRights {
  import opened Prelude
  import opened BrowserSpec
  import opened BrowserHistory

  /** A use that would succeed. */
  predicate Honours(p: Policy, id: RequestId, tab: TabId, task: nat, action: Action, now: nat) {
    Consume(p, id, tab, task, action, now).1.Success?
  }

  predicate Covers(m: map<RequestId, Prompt>, id: RequestId, tab: TabId, task: nat, action: Action, now: nat) {
    id in m && m[id].tab == tab && m[id].task == task && m[id].action == action && now < m[id].expires
  }

  lemma HonoursIff(p: Policy, id: RequestId, tab: TabId, task: nat, action: Action, now: nat)
    requires Valid(p)
    ensures Honours(p, id, tab, task, action, now) <==> Covers(p.grants, id, tab, task, action, now)
  {}

  /** How call `c` changes what is honoured: leaving a tab's document takes away exactly the rights on that
      tab, revoking a task exactly its rights, using a right exactly that right; approving gives exactly the
      right that was asked for; and a request forgets only what had expired. */
  ghost predicate Honoured(
    p: Policy, c: Call, q: Policy, id: RequestId, tab: TabId, task: nat, action: Action, now: nat)
  {
    match c
    case DoOpenTab(_) => Honours(q, id, tab, task, action, now) == Honours(p, id, tab, task, action, now)
    case DoCommitNavigation(_, _) => Honours(q, id, tab, task, action, now) == Honours(p, id, tab, task, action, now)
    case DoCloseTab(t) =>
      Honours(q, id, tab, task, action, now) <==> tab != t && Honours(p, id, tab, task, action, now)
    case DoBeginNavigation(t) =>
      Honours(q, id, tab, task, action, now)
      <==> (tab != t || BeginNavigation(p, t).1.Failure?) && Honours(p, id, tab, task, action, now)
    case DoCrash(t) =>
      Honours(q, id, tab, task, action, now) <==> tab != t && Honours(p, id, tab, task, action, now)
    case DoRevokeTask(t) =>
      Honours(q, id, tab, task, action, now) <==> task != t && Honours(p, id, tab, task, action, now)
    case DoRequest(_, _, _, asked) =>
      asked <= now ==> Honours(q, id, tab, task, action, now) == Honours(p, id, tab, task, action, now)
    case DoResolve(request, allow, answered) =>
      Honours(q, id, tab, task, action, now)
      <==> || Honours(p, id, tab, task, action, now)
           || (id == request && Approves(p, id, allow, answered) && Covers(p.pending, id, tab, task, action, now))
    case DoConsume(grant, _, _, _, _) =>
      Honours(q, id, tab, task, action, now) <==> id != grant && Honours(p, id, tab, task, action, now)
  }

  /** An answer that turns a pending prompt into a grant. */
  predicate Approves(p: Policy, request: RequestId, allow: bool, now: nat) {
    allow && request in p.pending && now < p.pending[request].expires
  }

  lemma NobodyOnAMissingTab(p: Policy, id: RequestId, tab: TabId, task: nat, action: Action, now: nat)
    requires Valid(p) && Honours(p, id, tab, task, action, now)
    ensures tab in p.tabs
  {}

  lemma StoredNowhereElse(p: Policy, id: RequestId)
    requires Valid(p)
    ensures id in p.grants ==> id !in p.pending
    ensures id in p.pending ==> Anchored(p, p.pending[id])
  {
    hide Anchored;
  }

  /** What one call does to a grant that covers a use. */
  lemma HeldByStep(p: Policy, c: Call, q: Policy, id: RequestId, tab: TabId, task: nat, action: Action, now: nat)
    requires Valid(p) && q == Perform(p, c) && id in p.grants
    ensures Covers(q.grants, id, tab, task, action, now)
            <==> && Covers(p.grants, id, tab, task, action, now)
                 && !Revokes(p, c, tab, task, p.grants[id].expires) && !ConsumesId(c, id)
    ensures id !in p.pending
  {
    StoredNowhereElse(p, id);
    GrantStep(p, c, q, id);
    hide Perform, Valid, Revokes;
  }

  /** A new grant comes from approving a prompt. */
  lemma NewByStep(p: Policy, c: Call, q: Policy, id: RequestId, tab: TabId, task: nat, action: Action, now: nat)
    requires Valid(p) && q == Perform(p, c) && id !in p.grants
    ensures Covers(q.grants, id, tab, task, action, now)
            <==> Covers(p.pending, id, tab, task, action, now) && ResolvesId(c, id) && Approves(p, id, c.allow, c.now)
  {
    StoredNowhereElse(p, id);
    GrantStart(p, c, q, id);
    hide Perform, Valid, Anchored;
  }

  /** What one call does to the grants that cover a use. */
  lemma CoveredByStep(p: Policy, c: Call, q: Policy, id: RequestId, tab: TabId, task: nat, action: Action, now: nat)
    requires Valid(p) && q == Perform(p, c)
    ensures Covers(q.grants, id, tab, task, action, now)
            <==> || (Covers(p.grants, id, tab, task, action, now)
                     && !Revokes(p, c, tab, task, p.grants[id].expires) && !ConsumesId(c, id))
                 || (Covers(p.pending, id, tab, task, action, now)
                     && ResolvesId(c, id) && Approves(p, id, c.allow, c.now))
  {
    hide Perform, Valid, Revokes, Approves, ConsumesId;
    if id in p.grants {
      HeldByStep(p, c, q, id, tab, task, action, now);
    } else {
      NewByStep(p, c, q, id, tab, task, action, now);
    }
  }

  /** Asking and answering. */
  lemma HonouredByAnswer(p: Policy, c: Call, id: RequestId, tab: TabId, task: nat, action: Action, now: nat)
    requires Valid(p) && (c.DoRequest? || c.DoResolve? || c.DoConsume? || c.DoRevokeTask?)
    ensures Honoured(p, c, Perform(p, c), id, tab, task, action, now)
  {
    StepKeepsValid(p, c);
    HonoursIff(p, id, tab, task, action, now);
    HonoursIff(Perform(p, c), id, tab, task, action, now);
    CoveredByStep(p, c, Perform(p, c), id, tab, task, action, now);
    hide Perform, Honours, Valid, Request, Resolve, Consume;
  }

  /** What happens to tabs. */
  lemma HonouredByTab(p: Policy, c: Call, id: RequestId, tab: TabId, task: nat, action: Action, now: nat)
    requires Valid(p) && !c.DoRequest? && !c.DoResolve? && !c.DoConsume? && !c.DoRevokeTask?
    ensures Honoured(p, c, Perform(p, c), id, tab, task, action, now)
  {
    StepKeepsValid(p, c);
    HonoursIff(p, id, tab, task, action, now);
    HonoursIff(Perform(p, c), id, tab, task, action, now);
    CoveredByStep(p, c, Perform(p, c), id, tab, task, action, now);
    if Honours(p, id, tab, task, action, now) {
      NobodyOnAMissingTab(p, id, tab, task, action, now);
    }
    hide Perform, Honours, Valid, Covers, Clear;
  }

  /** Every call changes what is honoured exactly so. */
  lemma HonouredByStep(p: Policy, c: Call, id: RequestId, tab: TabId, task: nat, action: Action, now: nat)
    requires Valid(p)
    ensures Honoured(p, c, Perform(p, c), id, tab, task, action, now)
  {
    hide Perform, Honoured, Valid;
    if c.DoRequest? || c.DoResolve? || c.DoConsume? || c.DoRevokeTask? {
      HonouredByAnswer(p, c, id, tab, task, action, now);
    } else {
      HonouredByTab(p, c, id, tab, task, action, now);
    }
  }

  /** One more call, seen from the history. */
  lemma Extend(h: seq<Call>, c: Call)
    ensures After(h + [c]) == Perform(After(h), c)
    ensures forall id, tab, task, action, now {:trigger Honours(After(h + [c]), id, tab, task, action, now)} ::
      Honoured(After(h), c, After(h + [c]), id, tab, task, action, now)
  {
    AfterLast(h + [c]);
    assert (h + [c])[..|h|] == h;
    Reachable(h);
    hide Perform, After, Valid, Honoured;
    forall id, tab, task, action, now
      ensures Honoured(After(h), c, After(h + [c]), id, tab, task, action, now)
    {
      HonouredByStep(After(h), c, id, tab, task, action, now);
    }
  }

  /** A new tab is under a new number and brings no rights. */
  lemma AfterOpenTab(h: seq<Call>, context: Context)
    ensures After(h + [DoOpenTab(context)]) == OpenTab(After(h), context).0
    ensures forall id, t, who, use, at ::
      Honours(After(h + [DoOpenTab(context)]), id, t, who, use, at)
      <==> Honours(After(h), id, t, who, use, at)
  {
    Extend(h, DoOpenTab(context));
    hide After, Honours;
  }

  /** Closing a tab takes away the rights on it and no other. */
  lemma AfterCloseTab(h: seq<Call>, tab: TabId)
    ensures After(h + [DoCloseTab(tab)]) == CloseTab(After(h), tab).0
    ensures forall id, t, who, use, at ::
      Honours(After(h + [DoCloseTab(tab)]), id, t, who, use, at)
      <==> t != tab && Honours(After(h), id, t, who, use, at)
  {
    Extend(h, DoCloseTab(tab));
    hide After, Honours;
  }

  /** Leaving a document takes away the rights on its tab and no other. */
  lemma AfterBeginNavigation(h: seq<Call>, tab: TabId)
    ensures After(h + [DoBeginNavigation(tab)]) == BeginNavigation(After(h), tab).0
    ensures forall id, t, who, use, at ::
      Honours(After(h + [DoBeginNavigation(tab)]), id, t, who, use, at)
      <==> (t != tab || BeginNavigation(After(h), tab).1.Failure?) && Honours(After(h), id, t, who, use, at)
  {
    Extend(h, DoBeginNavigation(tab));
    hide After, Honours;
  }

  /** A new document begins without rights. */
  lemma AfterCommitNavigation(h: seq<Call>, navigation: NavigationId, origin: Origin)
    ensures After(h + [DoCommitNavigation(navigation, origin)]) == CommitNavigation(After(h), navigation, origin).0
    ensures forall id, t, who, use, at ::
      Honours(After(h + [DoCommitNavigation(navigation, origin)]), id, t, who, use, at)
      <==> Honours(After(h), id, t, who, use, at)
  {
    Extend(h, DoCommitNavigation(navigation, origin));
    hide After, Honours;
  }

  /** A crash takes away the rights on the tab and no other. */
  lemma AfterCrash(h: seq<Call>, tab: TabId)
    ensures After(h + [DoCrash(tab)]) == Crash(After(h), tab).0
    ensures forall id, t, who, use, at ::
      Honours(After(h + [DoCrash(tab)]), id, t, who, use, at)
      <==> t != tab && Honours(After(h), id, t, who, use, at)
  {
    Extend(h, DoCrash(tab));
    hide After, Honours;
  }

  /** Asking grants nothing, and takes away nothing that could still be used. */
  lemma AfterRequest(h: seq<Call>, tab: TabId, task: nat, action: Action, now: nat)
    ensures After(h + [DoRequest(tab, task, action, now)]) == Request(After(h), tab, task, action, now).0
    ensures forall id, t, who, use, at | now <= at ::
      Honours(After(h + [DoRequest(tab, task, action, now)]), id, t, who, use, at)
      <==> Honours(After(h), id, t, who, use, at)
  {
    Extend(h, DoRequest(tab, task, action, now));
    hide After, Honours;
  }

  /** An answer grants exactly what was asked for, and only when it approves in time. */
  lemma AfterResolve(h: seq<Call>, request: RequestId, allow: bool, now: nat)
    ensures After(h + [DoResolve(request, allow, now)]) == Resolve(After(h), request, allow, now).0
    ensures forall id, t, who, use, at ::
      Honours(After(h + [DoResolve(request, allow, now)]), id, t, who, use, at)
      <==> Honours(After(h), id, t, who, use, at)
           || (id == request && Approves(After(h), id, allow, now) && Covers(After(h).pending, id, t, who, use, at))
  {
    Extend(h, DoResolve(request, allow, now));
    hide After, Honours;
  }

  /** A use leaves its id worth nothing, and no other. */
  lemma AfterConsume(h: seq<Call>, grant: RequestId, tab: TabId, task: nat, action: Action, now: nat)
    ensures After(h + [DoConsume(grant, tab, task, action, now)]) == Consume(After(h), grant, tab, task, action, now).0
    ensures forall id, t, who, use, at ::
      Honours(After(h + [DoConsume(grant, tab, task, action, now)]), id, t, who, use, at)
      <==> id != grant && Honours(After(h), id, t, who, use, at)
  {
    Extend(h, DoConsume(grant, tab, task, action, now));
    hide After, Honours;
  }

  /** Revoking a task takes away its rights and nobody else's. */
  lemma AfterRevokeTask(h: seq<Call>, task: nat)
    ensures After(h + [DoRevokeTask(task)]) == Clear(After(h), OfTask(task))
    ensures forall id, t, who, use, at ::
      Honours(After(h + [DoRevokeTask(task)]), id, t, who, use, at)
      <==> who != task && Honours(After(h), id, t, who, use, at)
  {
    Extend(h, DoRevokeTask(task));
    hide After, Honours;
  }

  /** A pending prompt is answered; the answer succeeds unless the prompt has expired. */
  lemma ResolveResult(p: Policy, request: RequestId, allow: bool, now: nat)
    requires Valid(p)
    ensures Resolve(p, request, allow, now).1 ==
              if request !in p.pending then Failure(Stale)
              else if now >= p.pending[request].expires then Failure(Expired)
              else Success(if allow then Some(request) else None)
  {}

  /** Call `r` asked for `prompt` under this id, nothing revoked or answered it since, and it is not too late. */
  ghost predicate AskedInTime(h: seq<Call>, r: nat, prompt: Prompt, request: RequestId, now: nat) {
    PendingSince(h, r, prompt) && prompt.id == request && now < prompt.expires
  }

  /** After any history an answer succeeds exactly when the history has a request of this id that nothing
      revoked or answered, and is in time. */
  lemma ResolveIffAsked(h: seq<Call>, request: RequestId, allow: bool, now: nat)
    ensures Resolve(After(h), request, allow, now).1.Success?
            <==> exists r: nat, prompt :: AskedInTime(h, r, prompt, request, now)
    ensures Resolve(After(h), request, allow, now).1 == Success(Some(request))
            <==> Approves(After(h), request, allow, now)
  {
    Reachable(h);
    ResolveResult(After(h), request, allow, now);
    hide Valid, After, Resolve, PendingSince;
    if request in After(h).pending {
      var r := PendingTrace(h, request);
      assert now < After(h).pending[request].expires ==> AskedInTime(h, r, After(h).pending[request], request, now);
    }
    if r: nat, prompt :| AskedInTime(h, r, prompt, request, now) {
      PendingKept(h, r, prompt);
    }
  }
}
