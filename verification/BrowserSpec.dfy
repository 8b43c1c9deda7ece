/** The browser host's consent policy on values: tabs, navigations, prompts and one-shot grants. */
module BrowserSpec {
  import opened Prelude

  const MAX_TABS := 32
  const MAX_CONSENTS := 128
  const CONSENT_TTL_MS := 60_000

  datatype Scheme = Http | Https
  datatype Origin = Origin(scheme: Scheme, host: string, port: nat)
  type TabId = nat
  type RequestId = nat
  datatype NavigationId = NavigationId(tab: TabId, generation: nat)
  datatype Context = Manual | AgentTask(task: nat) | Authentication(flow: nat)
  datatype Action =
    | ReadDocument
    | Screenshot
    | Input
    | Download
    | Upload
    | ClipboardRead
    | ClipboardWrite
    | Navigate(target: Origin)
  datatype Error = MissingTab | NotReady | WrongContext | Stale | Expired | Denied | Limit

  datatype Prompt = Prompt(
    id: RequestId,
    tab: TabId,
    task: nat,
    action: Action,
    origin: Option<Origin>,
    expires: nat,
    generation: nat)
  datatype Tab = Tab(
    context: Context,
    generation: nat,
    document: Option<Origin>,
    loading: bool,
    crashed: bool)

  /** The value of a `BrowserPolicy` object. */
  datatype Policy = Policy(
    tabs: map<TabId, Tab>,
    pending: map<RequestId, Prompt>,
    grants: map<RequestId, Prompt>,
    nextTab: nat,
    nextRequest: nat)

  const EMPTY := Policy(map[], map[], map[], 0, 0)

  // ---------------------------------------------------------------- the operations, on values

  function OpenTab(p: Policy, context: Context): (Policy, Result<TabId, Error>) {
    if |p.tabs| >= MAX_TABS then (p, Failure(Limit)) else
    match CheckedAdd(p.nextTab, 1)
    case None => (p, Failure(Limit))
    case Some(id) =>
      (p.(nextTab := id, tabs := p.tabs[id := Tab(context, 0, None, false, false)]), Success(id))
  }

  /** Why `retain` throws a prompt away. */
  datatype Sweep = OfTab(tab: TabId) | OfTask(task: nat) | Expiring(now: nat)

  predicate Swept(prompt: Prompt, sweep: Sweep) {
    match sweep
    case OfTab(tab) => prompt.tab == tab
    case OfTask(task) => prompt.task == task
    case Expiring(now) => now >= prompt.expires
  }

  function Retain(m: map<RequestId, Prompt>, sweep: Sweep): map<RequestId, Prompt> {
    map id | id in m && !Swept(m[id], sweep) :: m[id]
  }

  function Clear(p: Policy, sweep: Sweep): Policy {
    p.(pending := Retain(p.pending, sweep), grants := Retain(p.grants, sweep))
  }

  function CloseTab(p: Policy, tab: TabId): (Policy, Result<(), Error>) {
    if tab !in p.tabs then (p, Failure(MissingTab)) else
    (Clear(p.(tabs := p.tabs - {tab}), OfTab(tab)), Success(()))
  }

  function BeginNavigation(p: Policy, tab: TabId): (Policy, Result<NavigationId, Error>) {
    if tab !in p.tabs then (p, Failure(MissingTab)) else
    match CheckedAdd(p.tabs[tab].generation, 1)
    case None => (p, Failure(Limit))
    case Some(generation) =>
      var state := Tab(p.tabs[tab].context, generation, None, true, false);
      (Clear(p.(tabs := p.tabs[tab := state]), OfTab(tab)), Success(NavigationId(tab, generation)))
  }

  function CommitNavigation(p: Policy, navigation: NavigationId, origin: Origin): (Policy, Result<(), Error>) {
    if navigation.tab !in p.tabs then (p, Failure(MissingTab)) else
    var state := p.tabs[navigation.tab];
    if state.generation != navigation.generation || !state.loading || state.crashed then (p, Failure(Stale)) else
    (p.(tabs := p.tabs[navigation.tab := state.(document := Some(origin), loading := false)]), Success(()))
  }

  function Crash(p: Policy, tab: TabId): (Policy, Result<(), Error>) {
    if tab !in p.tabs then (p, Failure(MissingTab)) else
    var state := p.tabs[tab].(crashed := true, loading := false, document := None);
    (Clear(p.(tabs := p.tabs[tab := state]), OfTab(tab)), Success(()))
  }

  function Request(p0: Policy, tab: TabId, task: nat, action: Action, now: nat): (Policy, Result<Prompt, Error>) {
    var p := Clear(p0, Expiring(now));
    if |p.pending| + |p.grants| >= MAX_CONSENTS then (p, Failure(Limit)) else
    if tab !in p.tabs then (p, Failure(MissingTab)) else
    var state := p.tabs[tab];
    if state.context != AgentTask(task) then (p, Failure(WrongContext)) else
    if state.loading || state.crashed then (p, Failure(NotReady)) else
    if state.document.None? && !action.Navigate? then (p, Failure(NotReady)) else
    match CheckedAdd(p.nextRequest, 1)
    case None => (p, Failure(Limit))
    case Some(id) =>
      // The counter has already moved when the deadline turns out not to fit.
      var p1 := p.(nextRequest := id);
      match CheckedAdd(now, CONSENT_TTL_MS)
      case None => (p1, Failure(Limit))
      case Some(expires) =>
        var prompt := Prompt(id, tab, task, action, state.document, expires, state.generation);
        (p1.(pending := p1.pending[id := prompt]), Success(prompt))
  }

  function ValidatePrompt(p: Policy, prompt: Prompt, now: nat): Result<(), Error> {
    if now >= prompt.expires then Failure(Expired) else
    if prompt.tab !in p.tabs then Failure(MissingTab) else
    var state := p.tabs[prompt.tab];
    if state.loading
       || state.crashed
       || state.generation != prompt.generation
       || state.context != AgentTask(prompt.task)
       || state.document != prompt.origin
    then Failure(Stale)
    else Success(())
  }

  function Resolve(p: Policy, request: RequestId, allow: bool, now: nat): (Policy, Result<Option<RequestId>, Error>) {
    if request !in p.pending then (p, Failure(Stale)) else
    var prompt := p.pending[request];
    var p1 := p.(pending := p.pending - {request});
    match ValidatePrompt(p1, prompt, now)
    case Failure(error) => (p1, Failure(error))
    case Success(_) =>
      if !allow then (p1, Success(None)) else
      (p1.(grants := p1.grants[request := prompt]), Success(Some(request)))
  }

  function Consume(p: Policy, grant: RequestId, tab: TabId, task: nat, action: Action, now: nat)
    : (Policy, Result<(), Error>)
  {
    if grant !in p.grants then (p, Failure(Stale)) else
    var prompt := p.grants[grant];
    var p1 := p.(grants := p.grants - {grant});
    match ValidatePrompt(p1, prompt, now)
    case Failure(error) => (p1, Failure(error))
    case Success(_) =>
      if prompt.tab != tab || prompt.task != task || prompt.action != action then (p1, Failure(Denied)) else
      (p1, Success(()))
  }

  // ---------------------------------------------------------------- any call

  datatype Call =
    | DoOpenTab(context: Context)
    | DoCloseTab(tab: TabId)
    | DoBeginNavigation(tab: TabId)
    | DoCommitNavigation(navigation: NavigationId, origin: Origin)
    | DoCrash(tab: TabId)
    | DoRequest(tab: TabId, task: nat, action: Action, now: nat)
    | DoResolve(id: RequestId, allow: bool, now: nat)
    | DoConsume(id: RequestId, tab: TabId, task: nat, action: Action, now: nat)
    | DoRevokeTask(task: nat)

  function Perform(p: Policy, c: Call): Policy {
    match c
    case DoOpenTab(context) => OpenTab(p, context).0
    case DoCloseTab(tab) => CloseTab(p, tab).0
    case DoBeginNavigation(tab) => BeginNavigation(p, tab).0
    case DoCommitNavigation(navigation, origin) => CommitNavigation(p, navigation, origin).0
    case DoCrash(tab) => Crash(p, tab).0
    case DoRequest(tab, task, action, now) => Request(p, tab, task, action, now).0
    case DoResolve(id, allow, now) => Resolve(p, id, allow, now).0
    case DoConsume(id, tab, task, action, now) => Consume(p, id, tab, task, action, now).0
    case DoRevokeTask(task) => Clear(p, OfTask(task))
  }

  /** The policy after a history of calls, oldest first. */
  function After(h: seq<Call>): Policy {
    if h == [] then EMPTY else Perform(After(h[..|h| - 1]), h[|h| - 1])
  }

  // ---------------------------------------------------------------- the state invariant

  /** The prompt still describes the document it was asked about. */
  ghost predicate Anchored(p: Policy, prompt: Prompt) {
    && prompt.tab in p.tabs
    && var tab := p.tabs[prompt.tab];
    && !tab.loading
    && !tab.crashed
    && tab.generation == prompt.generation
    && tab.context == AgentTask(prompt.task)
    && tab.document == prompt.origin
    && (prompt.origin.None? ==> prompt.action.Navigate?)
  }

  ghost predicate Stored(p: Policy, m: map<RequestId, Prompt>) {
    forall id <- m :: id <= p.nextRequest && m[id].id == id && Anchored(p, m[id])
  }

  ghost predicate Valid(p: Policy) {
    && |p.tabs| <= MAX_TABS
    && |p.pending| + |p.grants| <= MAX_CONSENTS
    && p.pending.Keys !! p.grants.Keys
    && Stored(p, p.pending)
    && Stored(p, p.grants)
    && (forall t <- p.tabs :: t <= p.nextTab && (p.tabs[t].loading || p.tabs[t].crashed ==> p.tabs[t].document.None?))
  }

  lemma ShrinkKeepsValid(p: Policy, q: Policy)
    requires Valid(p)
    requires q == p.(pending := q.pending, grants := q.grants)
    requires q.pending.Keys <= p.pending.Keys && forall id <- q.pending :: q.pending[id] == p.pending[id]
    requires q.grants.Keys <= p.grants.Keys && forall id <- q.grants :: q.grants[id] == p.grants[id]
    ensures Valid(q)
  {
    SubsetSize(q.pending, p.pending);
    SubsetSize(q.grants, p.grants);
  }

  lemma ClearKeepsValid(p: Policy, sweep: Sweep)
    requires Valid(p)
    ensures Valid(Clear(p, sweep))
  {
    ShrinkKeepsValid(p, Clear(p, sweep));
  }

  lemma AnchoredElsewhere(p: Policy, q: Policy, tab: TabId, m: map<RequestId, Prompt>)
    requires Stored(p, m) && q.nextRequest == p.nextRequest
    requires forall t | t in p.tabs && t != tab :: t in q.tabs && q.tabs[t] == p.tabs[t]
    ensures Stored(q, Retain(m, OfTab(tab)))
  {
    forall id <- Retain(m, OfTab(tab))
      ensures Anchored(q, m[id])
    {
      assert Anchored(p, m[id]);
    }
  }

  /** Removing a tab, or replacing one by a document-free one, is safe once its consents are revoked. */
  lemma RetabKeepsValid(p: Policy, tab: TabId, tabs: map<TabId, Tab>, q: Policy)
    requires Valid(p) && tab in p.tabs
    requires tabs == p.tabs - {tab} || (tab in tabs && tabs == p.tabs[tab := tabs[tab]] && tabs[tab].document.None?)
    requires q == Clear(p.(tabs := tabs), OfTab(tab))
    ensures Valid(q)
  {
    SubsetSize(tabs, p.tabs);
    SubsetSize(q.pending, p.pending);
    SubsetSize(q.grants, p.grants);
    AnchoredElsewhere(p, q, tab, p.pending);
    AnchoredElsewhere(p, q, tab, p.grants);
  }

  lemma AnchoredFrame(p: Policy, q: Policy, m: map<RequestId, Prompt>)
    requires Stored(p, m) && q.tabs == p.tabs && q.nextRequest >= p.nextRequest
    ensures Stored(q, m)
  {
    forall id <- m
      ensures Anchored(q, m[id])
    {
      assert Anchored(p, m[id]);
    }
  }

  lemma AskKeepsValid(p: Policy, q: Policy, prompt: Prompt)
    requires Valid(p) && |p.pending| + |p.grants| < MAX_CONSENTS
    requires prompt.id == p.nextRequest + 1 && Anchored(p, prompt)
    requires q == p.(nextRequest := prompt.id, pending := p.pending[prompt.id := prompt])
    ensures Valid(q)
  {
    assert prompt.id !in p.pending && prompt.id !in p.grants;
    assert q.pending.Keys == p.pending.Keys + {prompt.id};
    AnchoredFrame(p, q, p.pending);
    AnchoredFrame(p, q, p.grants);
    AnchoredSame(p, q, prompt);
    hide Anchored;
    assert Stored(q, q.pending);
  }

  lemma GrantKeepsValid(p: Policy, q: Policy, prompt: Prompt)
    requires Valid(p) && |p.pending| + |p.grants| < MAX_CONSENTS
    requires prompt.id <= p.nextRequest && prompt.id !in p.pending && prompt.id !in p.grants && Anchored(p, prompt)
    requires q == p.(grants := p.grants[prompt.id := prompt])
    ensures Valid(q)
  {
    hide Anchored;
    AnchoredFrame(p, q, p.pending);
    AnchoredFrame(p, q, p.grants);
    AnchoredSame(p, q, prompt);
    assert q.grants.Keys == p.grants.Keys + {prompt.id};
  }

  lemma AnchoredSame(p: Policy, q: Policy, prompt: Prompt)
    requires Anchored(p, prompt) && q.tabs == p.tabs
    ensures Anchored(q, prompt)
  {}

  lemma CounterKeepsValid(p: Policy, id: nat)
    requires Valid(p) && id >= p.nextRequest
    ensures Valid(p.(nextRequest := id))
  {
    AnchoredFrame(p, p.(nextRequest := id), p.pending);
    AnchoredFrame(p, p.(nextRequest := id), p.grants);
  }

  /** What a request leaves behind, in terms of the pruned policy. */
  lemma RequestEffect(p: Policy, tab: TabId, task: nat, action: Action, now: nat)
    ensures
      var q := Clear(p, Expiring(now));
      var (r, reply) := Request(p, tab, task, action, now);
      if reply.Success? then
        var prompt := reply.value;
        && prompt.id == q.nextRequest + 1 && Anchored(q, prompt)
        && |q.pending| + |q.grants| < MAX_CONSENTS
        && r == q.(nextRequest := prompt.id, pending := q.pending[prompt.id := prompt])
      else
        r == q || r == q.(nextRequest := q.nextRequest + 1)
  {}

  lemma RequestKeepsValid(p: Policy, tab: TabId, task: nat, action: Action, now: nat)
    requires Valid(p)
    ensures Valid(Request(p, tab, task, action, now).0)
  {
    var q := Clear(p, Expiring(now));
    ClearKeepsValid(p, Expiring(now));
    RequestEffect(p, tab, task, action, now);
    hide Valid, Request, Anchored, Clear;
    var r := Request(p, tab, task, action, now);
    if r.1.Success? {
      AskKeepsValid(q, r.0, r.1.value);
    } else if r.0 != q {
      CounterKeepsValid(q, q.nextRequest + 1);
    }
  }

  lemma ResolveKeepsValid(p: Policy, id: RequestId, allow: bool, now: nat)
    requires Valid(p)
    ensures Valid(Resolve(p, id, allow, now).0)
  {
    if id in p.pending {
      var p1 := p.(pending := p.pending - {id});
      assert p1.pending.Keys == p.pending.Keys - {id};
      ShrinkKeepsValid(p, p1);
      var q := Resolve(p, id, allow, now).0;
      if q != p1 {
        GrantKeepsValid(p1, q, p.pending[id]);
      }
    }
  }

  lemma ConsumeKeepsValid(p: Policy, c: Call)
    requires Valid(p) && c.DoConsume?
    ensures Valid(Perform(p, c))
  {
    if c.id in p.grants {
      var q := Perform(p, c);
      assert q == p.(grants := p.grants - {c.id});
      ShrinkKeepsValid(p, q);
    }
  }

  lemma OpenKeepsValid(p: Policy, q: Policy, id: TabId, tab: Tab)
    requires Valid(p) && |p.tabs| < MAX_TABS && id == p.nextTab + 1 && tab.document.None?
    requires q == p.(nextTab := id, tabs := p.tabs[id := tab])
    ensures Valid(q)
  {
    assert id !in p.tabs;
    assert q.tabs.Keys == p.tabs.Keys + {id};
    forall prompt: Prompt | Anchored(p, prompt)
      ensures Anchored(q, prompt)
    {}
  }

  lemma CommitKeepsValid(p: Policy, q: Policy, id: TabId, tab: Tab)
    requires Valid(p) && id in p.tabs && p.tabs[id].loading && !tab.loading && !tab.crashed
    requires q == p.(tabs := p.tabs[id := tab])
    ensures Valid(q)
  {
    assert q.tabs.Keys == p.tabs.Keys;
    SubsetSize(q.tabs, p.tabs);
    forall prompt: Prompt | Anchored(p, prompt)
      ensures Anchored(q, prompt)
    {}
  }

  lemma TabStepKeepsValid(p: Policy, c: Call)
    requires Valid(p) && (c.DoOpenTab? || c.DoCommitNavigation?)
    ensures Valid(Perform(p, c))
  {
    var q := Perform(p, c);
    if q != p {
      match c
      case DoOpenTab(context) => OpenKeepsValid(p, q, q.nextTab, q.tabs[q.nextTab]);
      case DoCommitNavigation(navigation, _) => CommitKeepsValid(p, q, navigation.tab, q.tabs[navigation.tab]);
    }
  }

  lemma RevokingStepKeepsValid(p: Policy, c: Call)
    requires Valid(p) && (c.DoCloseTab? || c.DoBeginNavigation? || c.DoCrash?)
    ensures Valid(Perform(p, c))
  {
    hide Valid, Clear;
    var q := Perform(p, c);
    if q != p {
      if c.DoCloseTab? {
        RetabKeepsValid(p, c.tab, p.tabs - {c.tab}, q);
      } else {
        RetabKeepsValid(p, c.tab, p.tabs[c.tab := NewTab(p, c)], q);
      }
    }
  }

  function NewTab(p: Policy, c: Call): Tab
    requires c.DoBeginNavigation? || c.DoCrash?
    requires c.tab in p.tabs
  {
    if c.DoCrash? then p.tabs[c.tab].(crashed := true, loading := false, document := None)
    else Tab(p.tabs[c.tab].context, p.tabs[c.tab].generation + 1, None, true, false)
  }

  lemma StepKeepsValid(p: Policy, c: Call)
    requires Valid(p)
    ensures Valid(Perform(p, c))
  {
    hide Valid;
    if c.DoOpenTab? || c.DoCommitNavigation? {
      TabStepKeepsValid(p, c);
    } else if c.DoCloseTab? || c.DoBeginNavigation? || c.DoCrash? {
      RevokingStepKeepsValid(p, c);
    } else if c.DoRequest? {
      RequestKeepsValid(p, c.tab, c.task, c.action, c.now);
    } else if c.DoResolve? {
      ResolveKeepsValid(p, c.id, c.allow, c.now);
    } else if c.DoConsume? {
      ConsumeKeepsValid(p, c);
    } else {
      ClearKeepsValid(p, OfTask(c.task));
    }
  }

  /** Every reachable policy is valid, whatever was called and whatever the clock said. */
  lemma {:induction false} Reachable(h: seq<Call>)
    ensures Valid(After(h))
  {
    if h != [] {
      Reachable(h[..|h| - 1]);
      StepKeepsValid(After(h[..|h| - 1]), h[|h| - 1]);
    }
  }

  /** A stored prompt can fail validation only by expiring, and then always does. */
  lemma StoredFailsOnlyByExpiry(h: seq<Call>, id: RequestId, now: nat)
    requires id in After(h).pending || id in After(h).grants
    ensures
      var p := After(h);
      var prompt := if id in p.pending then p.pending[id] else p.grants[id];
      ValidatePrompt(p, prompt, now) == if now >= prompt.expires then Failure(Expired) else Success(())
  {
    Reachable(h);
  }

  lemma StoredGrant(h: seq<Call>, id: RequestId, now: nat)
    requires id in After(h).grants
    ensures ValidatePrompt(After(h), After(h).grants[id], now)
            == if now >= After(h).grants[id].expires then Failure(Expired) else Success(())
  {
    Reachable(h);
    StoredFailsOnlyByExpiry(h, id, now);
  }
}
