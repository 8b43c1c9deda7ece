/** Consent read off the history of calls alone, and the proof that the stored maps agree with it. */
module BrowserHistory {
  import opened Prelude
  import opened BrowserSpec

  /** Call `c`, made in policy `p`, takes consent away from `task` on `tab`. A later request whose
      clock has passed the deadline also does, because every request first prunes. */
  ghost predicate Revokes(p: Policy, c: Call, tab: TabId, task: nat, deadline: int) {
    match c
    case DoCloseTab(t) => t == tab && CloseTab(p, t).1.Success?
    case DoBeginNavigation(t) => t == tab && BeginNavigation(p, t).1.Success?
    case DoCrash(t) => t == tab && Crash(p, t).1.Success?
    case DoRevokeTask(t) => t == task
    case DoRequest(_, _, _, now) => now >= deadline
    case _ => false
  }

  ghost predicate Undisturbed(h: seq<Call>, from: nat, tab: TabId, task: nat, deadline: int) {
    forall j | from <= j < |h| :: !Revokes(After(h[..j]), h[j], tab, task, deadline)
  }

  /** Call `r` asked for consent and was answered with `prompt`. */
  ghost predicate Asked(h: seq<Call>, r: nat, prompt: Prompt) {
    && r < |h|
    && h[r].DoRequest?
    && Request(After(h[..r]), h[r].tab, h[r].task, h[r].action, h[r].now).1 == Success(prompt)
  }

  ghost predicate ResolvesId(c: Call, id: RequestId) {
    c.DoResolve? && c.id == id
  }

  ghost predicate ConsumesId(c: Call, id: RequestId) {
    c.DoConsume? && c.id == id
  }

  ghost predicate PendingSince(h: seq<Call>, r: nat, prompt: Prompt) {
    && Asked(h, r, prompt)
    && Undisturbed(h, r + 1, prompt.tab, prompt.task, prompt.expires)
    && (forall j | r < j < |h| :: !ResolvesId(h[j], prompt.id))
  }

  ghost predicate GrantedSince(h: seq<Call>, r: nat, a: nat, prompt: Prompt) {
    && Asked(h, r, prompt)
    && Undisturbed(h, r + 1, prompt.tab, prompt.task, prompt.expires)
    && r < a < |h|
    && ResolvesId(h[a], prompt.id) && h[a].allow && h[a].now < prompt.expires
    && (forall j | r < j < a :: !ResolvesId(h[j], prompt.id))
    && (forall j | a < j < |h| :: !ConsumesId(h[j], prompt.id))
  }

  // ---------------------------------------------------------------- one call

  /** What one call does to a prompt already pending. */
  lemma PendingStep(p: Policy, c: Call, q: Policy, id: RequestId)
    requires q == Perform(p, c) && id in p.pending && id <= p.nextRequest
    ensures id in q.pending
            <==> !Revokes(p, c, p.pending[id].tab, p.pending[id].task, p.pending[id].expires) && !ResolvesId(c, id)
    ensures id in q.pending ==> q.pending[id] == p.pending[id]
  {}

  lemma PendingStart(p: Policy, c: Call, q: Policy, id: RequestId)
    requires q == Perform(p, c) && id !in p.pending
    ensures id in q.pending <==>
            && c.DoRequest?
            && Request(p, c.tab, c.task, c.action, c.now).1.Success?
            && Request(p, c.tab, c.task, c.action, c.now).1.value.id == id
  {}

  /** What one call does to a grant already held. */
  lemma GrantStep(p: Policy, c: Call, q: Policy, id: RequestId)
    requires q == Perform(p, c) && id in p.grants && id !in p.pending
    ensures id in q.grants
            <==> !Revokes(p, c, p.grants[id].tab, p.grants[id].task, p.grants[id].expires) && !ConsumesId(c, id)
    ensures id in q.grants ==> q.grants[id] == p.grants[id]
  {}

  lemma GrantStart(p: Policy, c: Call, q: Policy, id: RequestId)
    requires q == Perform(p, c) && id !in p.grants
    requires id in p.pending ==> Anchored(p, p.pending[id])
    ensures id in q.grants <==> id in p.pending && ResolvesId(c, id) && c.allow && c.now < p.pending[id].expires
    ensures id in q.grants ==> q.grants[id] == p.pending[id]
  {}

  lemma AnsweredPrompt(p: Policy, c: Call)
    requires c.DoRequest? && Request(p, c.tab, c.task, c.action, c.now).1.Success?
    ensures
      var prompt := Request(p, c.tab, c.task, c.action, c.now).1.value;
      && prompt.id == p.nextRequest + 1 == Perform(p, c).nextRequest
      && prompt.id in Perform(p, c).pending
      && Perform(p, c).pending[prompt.id] == prompt
      && prompt.tab == c.tab && prompt.task == c.task && prompt.action == c.action
      && prompt.expires == c.now + CONSENT_TTL_MS
  {}

  // ---------------------------------------------------------------- whole histories

  lemma AfterLast(h: seq<Call>)
    requires h != []
    ensures After(h) == Perform(After(h[..|h| - 1]), h[|h| - 1])
  {
    hide Perform;
  }

  lemma AskedExtends(h: seq<Call>, r: nat, prompt: Prompt)
    requires r < |h| - 1
    ensures Asked(h, r, prompt) <==> Asked(h[..|h| - 1], r, prompt)
  {
    hide After, Request;
    assert h[..|h| - 1][..r] == h[..r];
  }

  lemma UndisturbedExtends(h: seq<Call>, from: nat, tab: TabId, task: nat, deadline: int)
    requires from < |h|
    ensures Undisturbed(h, from, tab, task, deadline) <==>
            && Undisturbed(h[..|h| - 1], from, tab, task, deadline)
            && !Revokes(After(h[..|h| - 1]), h[|h| - 1], tab, task, deadline)
  {
    hide After, Revokes;
    var h' := h[..|h| - 1];
    assert forall j | 0 <= j < |h'| :: h'[..j] == h[..j] && h'[j] == h[j];
    if Undisturbed(h, from, tab, task, deadline) {
      forall j | from <= j < |h'|
        ensures !Revokes(After(h'[..j]), h'[j], tab, task, deadline)
      {
        assert !Revokes(After(h[..j]), h[j], tab, task, deadline);
      }
    }
  }

  /** What validity says about one identifier. */
  lemma StoredFacts(h: seq<Call>, id: RequestId)
    ensures
      var p := After(h);
      && (id in p.pending ==>
            id <= p.nextRequest && p.pending[id].id == id && Anchored(p, p.pending[id]) && id !in p.grants)
      && (id in p.grants ==> id <= p.nextRequest && p.grants[id].id == id && Anchored(p, p.grants[id]))
  {
    hide After;
    Reachable(h);
  }

  lemma PendingExtends(h: seq<Call>, r: nat, prompt: Prompt)
    requires r < |h| - 1
    ensures PendingSince(h, r, prompt) <==>
            && PendingSince(h[..|h| - 1], r, prompt)
            && !Revokes(After(h[..|h| - 1]), h[|h| - 1], prompt.tab, prompt.task, prompt.expires)
            && !ResolvesId(h[|h| - 1], prompt.id)
  {
    hide After, Revokes, Asked, Undisturbed;
    AskedExtends(h, r, prompt);
    UndisturbedExtends(h, r + 1, prompt.tab, prompt.task, prompt.expires);
  }

  lemma GrantExtends(h: seq<Call>, r: nat, a: nat, prompt: Prompt)
    requires r < a < |h| - 1
    ensures GrantedSince(h, r, a, prompt) <==>
            && GrantedSince(h[..|h| - 1], r, a, prompt)
            && !Revokes(After(h[..|h| - 1]), h[|h| - 1], prompt.tab, prompt.task, prompt.expires)
            && !ConsumesId(h[|h| - 1], prompt.id)
  {
    hide After, Revokes, Asked, Undisturbed;
    AskedExtends(h, r, prompt);
    UndisturbedExtends(h, r + 1, prompt.tab, prompt.task, prompt.expires);
  }

  /** An approval made by the last call. */
  lemma GrantBegins(h: seq<Call>, r: nat, prompt: Prompt)
    requires r < |h| - 1
    ensures GrantedSince(h, r, |h| - 1, prompt) <==>
            && PendingSince(h[..|h| - 1], r, prompt)
            && ResolvesId(h[|h| - 1], prompt.id) && h[|h| - 1].allow && h[|h| - 1].now < prompt.expires
  {
    hide After, Asked, Undisturbed;
    AskedExtends(h, r, prompt);
    UndisturbedExtends(h, r + 1, prompt.tab, prompt.task, prompt.expires);
  }

  /** Every pending prompt was asked for, and nothing has touched it since. */
  lemma {:induction false} PendingTrace(h: seq<Call>, id: RequestId) returns (r: nat)
    requires id in After(h).pending
    ensures PendingSince(h, r, After(h).pending[id])
    ensures After(h).pending[id].id == id
  {
    assert h != [];
    hide Perform, Request, Revokes, PendingSince, Anchored, After;
    var h', c := h[..|h| - 1], h[|h| - 1];
    AfterLast(h);
    StoredFacts(h', id);
    StoredFacts(h, id);
    if id in After(h').pending {
      r := PendingTrace(h', id);
      PendingStep(After(h'), c, After(h), id);
      SinceBounds(h', r, After(h').pending[id]);
      PendingExtends(h, r, After(h).pending[id]);
    } else {
      r := |h| - 1;
      PendingStart(After(h'), c, After(h), id);
      AnsweredPrompt(After(h'), c);
      PendingBegins(h, After(h).pending[id]);
    }
  }

  lemma PendingBegins(h: seq<Call>, prompt: Prompt)
    requires h != [] && h[|h| - 1].DoRequest?
    ensures PendingSince(h, |h| - 1, prompt) <==>
              var c := h[|h| - 1];
              Request(After(h[..|h| - 1]), c.tab, c.task, c.action, c.now).1 == Success(prompt)
  {
    hide After, Request, Revokes;
  }

  lemma SinceBounds(h: seq<Call>, r: nat, prompt: Prompt)
    requires PendingSince(h, r, prompt)
    ensures r < |h| && h[r].DoRequest?
  {
    hide After, Request, Revokes;
  }

  lemma {:induction false} PendingKept(h: seq<Call>, r: nat, prompt: Prompt)
    requires PendingSince(h, r, prompt)
    ensures prompt.id in After(h).pending && After(h).pending[prompt.id] == prompt
  {
    hide Perform, Request, Revokes, PendingSince, Anchored, After;
    SinceBounds(h, r, prompt);
    var h', c := h[..|h| - 1], h[|h| - 1];
    AfterLast(h);
    if r == |h| - 1 {
      PendingBegins(h, prompt);
      AnsweredPrompt(After(h'), c);
    } else {
      PendingExtends(h, r, prompt);
      PendingKept(h', r, prompt);
      StoredFacts(h', prompt.id);
      PendingStep(After(h'), c, After(h), prompt.id);
    }
  }

  /** Every grant was asked for and then approved, and nothing has touched it since. */
  lemma {:induction false} GrantTrace(h: seq<Call>, id: RequestId) returns (r: nat, a: nat)
    requires id in After(h).grants
    ensures GrantedSince(h, r, a, After(h).grants[id])
    ensures r < a < |h| && After(h).grants[id].id == id
  {
    assert h != [];
    hide Perform, Request, Revokes, PendingSince, GrantedSince, Anchored, After;
    var h', c := h[..|h| - 1], h[|h| - 1];
    AfterLast(h);
    StoredFacts(h', id);
    StoredFacts(h, id);
    if id in After(h').grants {
      GrantStep(After(h'), c, After(h), id);
      r, a := GrantTrace(h', id);
      GrantExtends(h, r, a, After(h).grants[id]);
    } else {
      GrantStart(After(h'), c, After(h), id);
      r := PendingTrace(h', id);
      a := |h| - 1;
      SinceBounds(h', r, After(h').pending[id]);
      GrantBegins(h, r, After(h').pending[id]);
    }
  }

  lemma {:induction false} GrantKept(h: seq<Call>, r: nat, a: nat, prompt: Prompt)
    requires r < a < |h| && GrantedSince(h, r, a, prompt)
    ensures prompt.id in After(h).grants && After(h).grants[prompt.id] == prompt
  {
    hide Perform, Request, Revokes, PendingSince, GrantedSince, Anchored, After;
    var h', c := h[..|h| - 1], h[|h| - 1];
    AfterLast(h);
    if a == |h| - 1 {
      GrantBegins(h, r, prompt);
      PendingKept(h', r, prompt);
      StoredFacts(h', prompt.id);
      GrantStart(After(h'), c, After(h), prompt.id);
    } else {
      GrantExtends(h, r, a, prompt);
      GrantKept(h', r, a, prompt);
      StoredFacts(h', prompt.id);
      GrantStep(After(h'), c, After(h), prompt.id);
    }
  }

  // ---------------------------------------------------------------- the refinement

  /** The history of calls alone entitles `task` to one `action` on `tab` under `id` at time `now`:
      call `r` asked for exactly that and was given `id`; call `a` is the first to resolve `id` and
      allows it in time; `now` is in time too; nothing revoked it since `r`; and `id` has not been
      used since `a`. */
  ghost predicate Consented(
    h: seq<Call>, r: nat, a: nat, id: RequestId, tab: TabId, task: nat, action: Action, now: nat)
  {
    && r < a < |h|
    && h[r].DoRequest? && h[r].tab == tab && h[r].task == task && h[r].action == action
    && (exists prompt :: Asked(h, r, prompt) && prompt.id == id)
    && var deadline := h[r].now + CONSENT_TTL_MS;
    && ResolvesId(h[a], id) && h[a].allow && h[a].now < deadline
    && now < deadline
    && (forall j | r < j < a :: !ResolvesId(h[j], id))
    && Undisturbed(h, r + 1, tab, task, deadline)
    && (forall j | a < j < |h| :: !ConsumesId(h[j], id))
  }

  /** A grant granted to `prompt` is exactly consent to what `prompt` says. */
  lemma ConsentedIsGranted(h: seq<Call>, r: nat, a: nat, prompt: Prompt, now: nat)
    requires Asked(h, r, prompt)
    ensures GrantedSince(h, r, a, prompt) && now < prompt.expires
            <==> Consented(h, r, a, prompt.id, prompt.tab, prompt.task, prompt.action, now)
    ensures h[r].tab == prompt.tab && h[r].task == prompt.task && h[r].action == prompt.action
  {
    hide After, Perform, Request, Undisturbed;
    AnsweredPrompt(After(h[..r]), h[r]);
  }

  /** After any history, with any clock, a grant is honoured exactly when the history consents. */
  lemma ConsumeIffConsented(h: seq<Call>, id: RequestId, tab: TabId, task: nat, action: Action, now: nat)
    ensures Consume(After(h), id, tab, task, action, now).1.Success?
            <==> exists r: nat, a: nat :: Consented(h, r, a, id, tab, task, action, now)
  {
    hide After, Perform, Request, Undisturbed, Asked;
    if Consume(After(h), id, tab, task, action, now).1.Success? {
      var r, a := GrantTrace(h, id);
      ConsentedIsGranted(h, r, a, After(h).grants[id], now);
    }
    if r: nat, a: nat :| Consented(h, r, a, id, tab, task, action, now) {
      var prompt :| Asked(h, r, prompt) && prompt.id == id;
      ConsentedIsGranted(h, r, a, prompt, now);
      GrantKept(h, r, a, prompt);
      StoredFacts(h, id);
      StoredFailsOnlyByExpiry(h, id, now);
      ValidateIgnoresConsents(After(h), After(h).(grants := After(h).grants - {id}), prompt, now);
    }
  }

  lemma ValidateIgnoresConsents(p: Policy, q: Policy, prompt: Prompt, now: nat)
    requires p.tabs == q.tabs
    ensures ValidatePrompt(p, prompt, now) == ValidatePrompt(q, prompt, now)
  {}

  lemma CounterStep(p: Policy, c: Call)
    ensures p.nextRequest <= Perform(p, c).nextRequest
  {}

  lemma {:induction false} CounterGrows(h: seq<Call>, i: nat)
    requires i <= |h|
    ensures After(h[..i]).nextRequest <= After(h).nextRequest
  {
    hide Perform;
    if i == |h| {
      assert h[..i] == h;
    } else {
      var h' := h[..|h| - 1];
      assert h'[..i] == h[..i];
      CounterGrows(h', i);
      CounterStep(After(h'), h[|h| - 1]);
    }
  }

  /** An identifier answers one request only. */
  lemma AskedOnce(h: seq<Call>, r1: nat, p1: Prompt, r2: nat, p2: Prompt)
    requires Asked(h, r1, p1) && Asked(h, r2, p2) && r1 < r2
    ensures p1.id < p2.id
  {
    hide Perform, Request, After;
    AfterLast(h[..r1 + 1]);
    AnsweredPrompt(After(h[..r1]), h[r1]);
    AnsweredPrompt(After(h[..r2]), h[r2]);
    assert h[..r1 + 1][..r1] == h[..r1];
    assert h[..r2][..r1 + 1] == h[..r1 + 1];
    CounterGrows(h[..r2], r1 + 1);
  }

  /** One approval is worth one use: after a successful use of an identifier none succeeds again. */
  lemma OneShot(h: seq<Call>, j: nat, now: nat, tab: TabId, task: nat, action: Action)
    requires j < |h| && h[j].DoConsume?
    requires Consume(After(h[..j]), h[j].id, h[j].tab, h[j].task, h[j].action, h[j].now).1.Success?
    ensures Consume(After(h), h[j].id, tab, task, action, now).1.Failure?
  {
    hide Perform, Request, Consume, After, Undisturbed, Asked;
    var c, past := h[j], h[..j];
    ConsumeIffConsented(past, c.id, c.tab, c.task, c.action, c.now);
    ConsumeIffConsented(h, c.id, tab, task, action, now);
    if r: nat, a: nat :| Consented(h, r, a, c.id, tab, task, action, now) {
      var r': nat, a': nat :| Consented(past, r', a', c.id, c.tab, c.task, c.action, c.now);
      var p :| Asked(h, r, p) && p.id == c.id;
      var p' :| Asked(past, r', p') && p'.id == c.id;
      AskedInPrefix(h, j, r', p');
      if r < r' {
        AskedOnce(h, r, p, r', p');
      } else if r' < r {
        AskedOnce(h, r', p', r, p);
      }
      assert false;
    }
  }

  lemma AskedInPrefix(h: seq<Call>, j: nat, r: nat, prompt: Prompt)
    requires j <= |h| && Asked(h[..j], r, prompt)
    ensures Asked(h, r, prompt)
  {
    hide After, Request;
    assert h[..j][..r] == h[..r];
  }
}
