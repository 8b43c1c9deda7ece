/** The policy object the browser host holds: the same operations, in place. The object remembers the
    calls made on it, and what it holds is always what those calls leave. */
module Browser {
  import opened Prelude
  import opened Spec = BrowserSpec
  import opened BrowserHistory
  import opened BrowserRights
  import opened BrowserTabs

  class BrowserPolicy {
    var tabs: map<TabId, Tab>
    var pending: map<RequestId, Prompt>
    var grants: map<RequestId, Prompt>
    var nextTab: nat
    var nextRequest: nat
    ghost var history: seq<Call>

    ghost function State(): Policy
      reads this
    {
      Policy(tabs, pending, grants, nextTab, nextRequest)
    }

    ghost predicate Valid()
      reads this
    {
      State() == After(history)
    }

    /** A use that would be honoured now. */
    ghost predicate MayUse(id: RequestId, tab: TabId, task: nat, action: Action, now: nat)
      reads this
    {
      Honours(State(), id, tab, task, action, now)
    }

    constructor ()
      ensures Valid() && history == [] && State() == EMPTY
    {
      history := [];
      tabs, pending, grants := map[], map[], map[];
      nextTab, nextRequest := 0, 0;
    }

    /** A new tab is under a new number and brings no rights. */
    method OpenTab(context: Context) returns (result: Result<TabId, Error>)
      requires Valid()
      modifies this
      ensures Valid() && history == old(history) + [DoOpenTab(context)]
      ensures (State(), result) == Spec.OpenTab(old(State()), context)
      ensures result == if |old(tabs)| < 32 && Opens(old(history)) + 1 < U64_COUNT
                        then Success(Opens(old(history)) + 1) else Failure(Limit)
      ensures pending == old(pending) && grants == old(grants) && nextRequest == old(nextRequest)
      ensures tabs == match result
                      case Success(id) => old(tabs)[id := Tab(context, 0, None, false, false)]
                      case Failure(_) => old(tabs)
      ensures forall id, t, who, use, at ::
        MayUse(id, t, who, use, at) <==> old(MayUse(id, t, who, use, at))
    {
      hide After, Perform, Honours, Consented, AskedInTime, Opens, Starts, Last, StartedLast;
      OpenTabIff(history, context);
      AfterOpenTab(history, context);
      history := history + [DoOpenTab(context)];
      if |tabs| >= MAX_TABS {
        return Failure(Limit);
      }
      match CheckedAdd(nextTab, 1) {
        case None => return Failure(Limit);
        case Some(next) => nextTab := next;
      }
      tabs := tabs[nextTab := Tab(context, 0, None, false, false)];
      return Success(nextTab);
    }

    method RevokeTab(tab: TabId)
      modifies this`pending, this`grants
      ensures State() == Clear(old(State()), OfTab(tab))
    {
      pending := Retain(pending, OfTab(tab));
      grants := Retain(grants, OfTab(tab));
    }

    /** Nothing that was asked for or granted under this number survives, and nobody else loses anything. */
    method RevokeTask(task: nat)
      requires Valid()
      modifies this
      ensures Valid() && history == old(history) + [DoRevokeTask(task)]
      ensures tabs == old(tabs) && nextTab == old(nextTab) && nextRequest == old(nextRequest)
      ensures forall id :: id in pending <==> id in old(pending) && old(pending)[id].task != task
      ensures forall id, t, who, use, at ::
        MayUse(id, t, who, use, at) <==> who != task && old(MayUse(id, t, who, use, at))
    {
      hide After, Perform, Honours, Consented, AskedInTime;
      AfterRevokeTask(history, task);
      history := history + [DoRevokeTask(task)];
      pending := Retain(pending, OfTask(task));
      grants := Retain(grants, OfTask(task));
    }

    method Prune(now: nat)
      modifies this`pending, this`grants
      ensures State() == Clear(old(State()), Expiring(now))
    {
      pending := Retain(pending, Expiring(now));
      grants := Retain(grants, Expiring(now));
    }

    /** The tab is gone with everything asked for or granted on it, and with nothing else. */
    method CloseTab(tab: TabId) returns (result: Result<(), Error>)
      requires Valid()
      modifies this
      ensures Valid() && history == old(history) + [DoCloseTab(tab)]
      ensures (State(), result) == Spec.CloseTab(old(State()), tab)
      ensures result == if tab in old(tabs) then Success(()) else Failure(MissingTab)
      ensures tabs == old(tabs) - {tab} && nextTab == old(nextTab) && nextRequest == old(nextRequest)
      ensures forall id :: id in pending <==> id in old(pending) && (result.Failure? || old(pending)[id].tab != tab)
      ensures forall id, t, who, use, at ::
        MayUse(id, t, who, use, at) <==> t != tab && old(MayUse(id, t, who, use, at))
    {
      hide After, Perform, Honours, Consented, AskedInTime;
      AfterCloseTab(history, tab);
      history := history + [DoCloseTab(tab)];
      if tab !in tabs {
        return Failure(MissingTab);
      }
      tabs := tabs - {tab};
      RevokeTab(tab);
      return Success(());
    }

    /** Leaving the document takes away what was asked for or granted on it, and nothing else. */
    method BeginNavigation(tab: TabId) returns (result: Result<NavigationId, Error>)
      requires Valid()
      modifies this
      ensures Valid() && history == old(history) + [DoBeginNavigation(tab)]
      ensures (State(), result) == Spec.BeginNavigation(old(State()), tab)
      ensures result == if tab !in old(tabs) then Failure(MissingTab)
                        else if Starts(old(history), tab) + 1 >= U64_COUNT then Failure(Limit)
                        else Success(NavigationId(tab, Starts(old(history), tab) + 1))
      ensures nextTab == old(nextTab) && nextRequest == old(nextRequest)
      ensures tabs == match result
                      case Success(id) =>
                        old(tabs)[tab := Tab(old(tabs)[tab].context, id.generation, None, true, false)]
                      case Failure(_) => old(tabs)
      ensures forall id :: id in pending <==> id in old(pending) && (result.Failure? || old(pending)[id].tab != tab)
      ensures forall id, t, who, use, at ::
        MayUse(id, t, who, use, at) <==> (t != tab || result.Failure?) && old(MayUse(id, t, who, use, at))
    {
      hide After, Perform, Honours, Consented, AskedInTime, Opens, Starts, Last, StartedLast;
      BeginNavigationIff(history, tab);
      OpenIff(history, tab);
      AfterBeginNavigation(history, tab);
      history := history + [DoBeginNavigation(tab)];
      if tab !in tabs {
        return Failure(MissingTab);
      }
      var state := tabs[tab];
      match CheckedAdd(state.generation, 1) {
        case None => return Failure(Limit);
        case Some(next) => state := state.(generation := next);
      }
      tabs := tabs[tab := state.(document := None, loading := true, crashed := false)];
      var id := NavigationId(tab, state.generation);
      RevokeTab(tab);
      return Success(id);
    }

    /** A new document begins without rights; only the navigation that is loading may bring it. */
    method CommitNavigation(navigation: NavigationId, origin: Origin) returns (result: Result<(), Error>)
      requires Valid()
      modifies this
      ensures Valid() && history == old(history) + [DoCommitNavigation(navigation, origin)]
      ensures (State(), result) == Spec.CommitNavigation(old(State()), navigation, origin)
      ensures result.Success? <==> exists i: nat :: StartedLast(old(history), i, navigation)
      ensures result.Failure? ==> result.error == if navigation.tab in old(tabs) then Stale else MissingTab
      ensures pending == old(pending) && grants == old(grants)
      ensures nextTab == old(nextTab) && nextRequest == old(nextRequest)
      ensures tabs == if result.Failure? then old(tabs) else
                      var tab := navigation.tab;
                      old(tabs)[tab := old(tabs)[tab].(document := Some(origin), loading := false)]
      ensures forall id, t, who, use, at ::
        MayUse(id, t, who, use, at) <==> old(MayUse(id, t, who, use, at))
    {
      hide After, Perform, Honours, Consented, AskedInTime, Opens, Starts, Last, StartedLast;
      CommitIff(history, navigation, origin);
      OpenIff(history, navigation.tab);
      AfterCommitNavigation(history, navigation, origin);
      history := history + [DoCommitNavigation(navigation, origin)];
      if navigation.tab !in tabs {
        return Failure(MissingTab);
      }
      var state := tabs[navigation.tab];
      if state.generation != navigation.generation || !state.loading || state.crashed {
        return Failure(Stale);
      }
      tabs := tabs[navigation.tab := state.(document := Some(origin), loading := false)];
      return Success(());
    }

    /** A crashed tab has no document and no rights. */
    method Crash(tab: TabId) returns (result: Result<(), Error>)
      requires Valid()
      modifies this
      ensures Valid() && history == old(history) + [DoCrash(tab)]
      ensures (State(), result) == Spec.Crash(old(State()), tab)
      ensures result == if tab in old(tabs) then Success(()) else Failure(MissingTab)
      ensures nextTab == old(nextTab) && nextRequest == old(nextRequest)
      ensures tabs == if result.Failure? then old(tabs) else
                      old(tabs)[tab := old(tabs)[tab].(crashed := true, loading := false, document := None)]
      ensures forall id :: id in pending <==> id in old(pending) && (result.Failure? || old(pending)[id].tab != tab)
      ensures forall id, t, who, use, at ::
        MayUse(id, t, who, use, at) <==> t != tab && old(MayUse(id, t, who, use, at))
    {
      hide After, Perform, Honours, Consented, AskedInTime;
      AfterCrash(history, tab);
      history := history + [DoCrash(tab)];
      if tab !in tabs {
        return Failure(MissingTab);
      }
      tabs := tabs[tab := tabs[tab].(crashed := true, loading := false, document := None)];
      RevokeTab(tab);
      return Success(());
    }

    /** Asking grants nothing, and takes away nothing that could still be used. */
    method Request(tab: TabId, task: nat, action: Action, now: nat) returns (result: Result<Prompt, Error>)
      requires Valid()
      modifies this
      ensures Valid() && history == old(history) + [DoRequest(tab, task, action, now)]
      ensures (State(), result) == Spec.Request(old(State()), tab, task, action, now)
      ensures result.Failure? <==> Objection(old(history), tab, task, action, now).Some?
      ensures result.Failure? ==> Objection(old(history), tab, task, action, now) == Some(result.error)
      ensures result.Success? ==>
        result.value == Prompt(old(nextRequest) + 1, tab, task, action,
                               old(tabs)[tab].document, now + 60_000, old(tabs)[tab].generation)
      ensures tabs == old(tabs) && nextTab == old(nextTab)
      ensures forall id :: id in grants <==> id in old(grants) && now < old(grants)[id].expires
      ensures result.Failure? ==> forall id :: id in pending <==> id in old(pending) && now < old(pending)[id].expires
      ensures forall id, t, who, use, at | now <= at ::
        MayUse(id, t, who, use, at) <==> old(MayUse(id, t, who, use, at))
    {
      hide After, Perform, Honours, Consented, AskedInTime, Objection;
      RequestIff(history, tab, task, action, now);
      AfterRequest(history, tab, task, action, now);
      history := history + [DoRequest(tab, task, action, now)];
      Prune(now);
      if |pending| + |grants| >= MAX_CONSENTS {
        return Failure(Limit);
      }
      if tab !in tabs {
        return Failure(MissingTab);
      }
      var state := tabs[tab];
      if state.context != AgentTask(task) {
        return Failure(WrongContext);
      }
      if state.loading || state.crashed {
        return Failure(NotReady);
      }
      var origin := state.document;
      if origin.None? && !action.Navigate? {
        return Failure(NotReady);
      }
      match CheckedAdd(nextRequest, 1) {
        case None => return Failure(Limit);
        case Some(next) => nextRequest := next;
      }
      match CheckedAdd(now, CONSENT_TTL_MS) {
        case None => return Failure(Limit);
        case Some(expires) =>
          var prompt := Prompt(nextRequest, tab, task, action, origin, expires, state.generation);
          pending := pending[prompt.id := prompt];
          return Success(prompt);
      }
    }

    /** A prompt is answered once, and in time or not at all; approving it grants what was asked for. */
    method Resolve(request: RequestId, allow: bool, now: nat) returns (result: Result<Option<RequestId>, Error>)
      requires Valid()
      modifies this
      ensures Valid() && history == old(history) + [DoResolve(request, allow, now)]
      ensures (State(), result) == Spec.Resolve(old(State()), request, allow, now)
      ensures request !in pending
      ensures result.Success?
              <==> exists r: nat, prompt :: AskedInTime(old(history), r, prompt, request, now)
      ensures result.Success? ==> result.value == if allow then Some(request) else None
      ensures result.Failure? ==> result.error == if request in old(pending) then Expired else Stale
      ensures forall id: RequestId, t, who, use, at ::
        MayUse(id, t, who, use, at)
        <==> old(MayUse(id, t, who, use, at))
             || (result == Success(Some(id)) && Covers(old(pending), id, t, who, use, at))
    {
      hide After, Perform, Honours, Consented, AskedInTime;
      ResolveIffAsked(history, request, allow, now);
      if request in pending {
        StoredFailsOnlyByExpiry(history, request, now);
      }
      AfterResolve(history, request, allow, now);
      history := history + [DoResolve(request, allow, now)];
      if request !in pending {
        return Failure(Stale);
      }
      var prompt := pending[request];
      pending := pending - {request};
      var valid := Validate(prompt, now);
      if valid.Failure? {
        return Failure(valid.error);
      }
      if !allow {
        return Success(None);
      }
      grants := grants[request := prompt];
      return Success(Some(request));
    }

    /** A use succeeds exactly when the calls made so far consent to it, and leaves the id worth nothing. */
    method Consume(grant: RequestId, tab: TabId, task: nat, action: Action, now: nat)
      returns (result: Result<(), Error>)
      requires Valid()
      modifies this
      ensures Valid() && history == old(history) + [DoConsume(grant, tab, task, action, now)]
      ensures (State(), result) == Spec.Consume(old(State()), grant, tab, task, action, now)
      ensures result.Success?
              <==> exists r: nat, a: nat :: Consented(old(history), r, a, grant, tab, task, action, now)
      ensures result.Failure? ==>
        result.error == if grant !in old(grants) then Stale
                        else if now >= old(grants)[grant].expires then Expired else Denied
      ensures tabs == old(tabs) && pending == old(pending) && grants == old(grants) - {grant}
      ensures forall id, t, who, use, at ::
        MayUse(id, t, who, use, at) <==> id != grant && old(MayUse(id, t, who, use, at))
    {
      hide After, Perform, Honours, Consented, AskedInTime;
      ConsumeIffConsented(history, grant, tab, task, action, now);
      if grant in grants {
        StoredGrant(history, grant, now);
      }
      AfterConsume(history, grant, tab, task, action, now);
      history := history + [DoConsume(grant, tab, task, action, now)];
      if grant !in grants {
        return Failure(Stale);
      }
      var prompt := grants[grant];
      grants := grants - {grant};
      var valid := Validate(prompt, now);
      if valid.Failure? {
        return Failure(valid.error);
      }
      if prompt.tab != tab || prompt.task != task || prompt.action != action {
        return Failure(Denied);
      }
      return Success(());
    }

    method Validate(prompt: Prompt, now: nat) returns (result: Result<(), Error>)
      ensures result == ValidatePrompt(State(), prompt, now)
    {
      if now >= prompt.expires {
        return Failure(Expired);
      }
      if prompt.tab !in tabs {
        return Failure(MissingTab);
      }
      var state := tabs[prompt.tab];
      if state.loading
         || state.crashed
         || state.generation != prompt.generation
         || state.context != AgentTask(prompt.task)
         || state.document != prompt.origin
      {
        return Failure(Stale);
      }
      return Success(());
    }
  }
}
