/** When a release operation can be done, and when one that was interrupted can be done again. */
module Repeats {
  import opened Prelude
  import opened Activation

  /** An operation by process `pid`; an installation reads its files from `source`. */
  datatype Attempt = Attempt(kind: Kind, pid: nat, manifest: Manifest, source: map<string, string>)

  /** `es` is such an operation, as far as it got. */
  ghost predicate Made(a: Attempt, es: seq<Event>) {
    && OneProcess(a.kind, es) && es[0].pid == a.pid && es[0].manifest == a.manifest
    && forall i | 0 <= i < |es| && es[i].Read? :: es[i].name in a.source && es[i].bytes == a.source[es[i].name]
  }

  ghost predicate CanComplete(sha: Digest, s: State, a: Attempt) {
    exists es :: Made(a, es) && Completes(sha, a.kind, s, es)
  }

  /** What an installation looks at before it writes anything: a plain version that is new, the expected
      files with the digests the manifest states, and links that are absent or managed. */
  predicate Installable(sha: Digest, s: State, m: Manifest, source: map<string, string>) {
    && Version(m.version) && m.files.Keys == FILES && m.version !in s.releases
    && Managed(s, s.links.current) && Managed(s, s.links.previous)
    && FILES <= source.Keys && forall name | name in FILES :: sha(source[name]) == m.files[name]
  }

  predicate Reversible(s: State) {
    s.links.current.Some? && s.links.previous.Some? && Managed(s, s.links.current) && Managed(s, s.links.previous)
  }

  /** No temporary link of this number is in the way. */
  predicate Unblocked(s: State, kind: Kind, pid: nat) {
    && (Current, pid) !in s.temps
    && (Needs(kind, s.links, Previous) ==> (Previous, pid) !in s.temps)
  }

  predicate Permitted(sha: Digest, s: State, a: Attempt) {
    && (if a.kind.Install? then Installable(sha, s, a.manifest, a.source) else Reversible(s))
    && Unblocked(s, a.kind, a.pid)
  }

  // ---------------------------------------------------------------- nothing else completes

  /** What `source` has to be has been seen, as far as the installation has got. */
  ghost predicate Admitted(sha: Digest, start: State, m: Manifest, source: map<string, string>, s: State) {
    var p := s.process;
    if p.stage.Nobody? then s.last.Succeeded? ==> Installable(sha, start, m, source)
    else if p.stage.Reading? || p.stage.Reviewing? then
      && p.manifest == m && Version(m.version) && m.files.Keys == FILES
      && s.releases == start.releases && s.links == start.links
      && (forall name | name in p.contents ::
            name in FILES && name in source && sha(source[name]) == m.files[name])
      && (p.stage.Reviewing? ==> p.contents.Keys == FILES)
    else Installable(sha, start, m, source)
  }

  lemma AdmittedReads(sha: Digest, start: State, a: Attempt, s: State, e: Event)
    requires Admitted(sha, start, a.manifest, a.source, s)
    requires e.Read? && e.name in a.source && e.bytes == a.source[e.name]
    ensures Admitted(sha, start, a.manifest, a.source, ReadFile(sha, s, e))
  {
    hide Version;
  }

  lemma AdmittedPrepares(sha: Digest, start: State, m: Manifest, source: map<string, string>, s: State, ok: bool)
    requires Admitted(sha, start, m, source, s) && (s.process.stage.Reading? || s.process.stage.Reviewing?)
    ensures Admitted(sha, start, m, source, Prepare(s, ok))
  {
    hide Version, Order;
  }

  /** A process that works on stays granted what it was granted. */
  lemma GrantedStays(s: State, ok: bool)
    requires !s.process.stage.Nobody? && !s.process.stage.Reading? && !s.process.stage.Reviewing?
    ensures
      var g := Advance(s, ok).process.stage;
      !g.Reading? && !g.Reviewing?
  {
    hide Order, InstallLinks, ContentOf;
  }

  lemma AdmittedGoesOn(sha: Digest, start: State, a: Attempt, s: State, e: Event)
    requires Admitted(sha, start, a.manifest, a.source, s) && !e.Begin?
    requires e.Read? ==> e.name in a.source && e.bytes == a.source[e.name]
    ensures Admitted(sha, start, a.manifest, a.source, Step(sha, s, e))
  {
    var g := s.process.stage;
    if e.Read? {
      AdmittedReads(sha, start, a, s, e);
    } else if e.Go? && (g.Reading? || g.Reviewing?) {
      AdmittedPrepares(sha, start, a.manifest, a.source, s, e.ok);
    } else if e.Go? && !g.Nobody? {
      GrantedStays(s, e.ok);
      hide Installable, Advance, Version;
    } else {
      hide Installable, Version;
    }
  }

  lemma AdmittedBegins(sha: Digest, start: State, a: Attempt, e: Event)
    requires start.process.stage.Nobody? && e.Begin? && e.kind.Install? && e.manifest == a.manifest
    ensures Admitted(sha, start, a.manifest, a.source, Step(sha, start, e))
  {
    hide Version, Installable;
  }

  lemma {:induction false} AdmittedRuns(sha: Digest, start: State, a: Attempt, es: seq<Event>)
    requires start.process.stage.Nobody? && a.kind.Install? && Made(a, es)
    ensures Admitted(sha, start, a.manifest, a.source, Run(sha, start, es))
  {
    hide Step, Admitted;
    if |es| == 1 {
      assert es[..0] == [];
      AdmittedBegins(sha, start, a, es[0]);
    } else {
      AdmittedRuns(sha, start, a, es[..|es| - 1]);
      AdmittedGoesOn(sha, start, a, Run(sha, start, es[..|es| - 1]), es[|es| - 1]);
    }
  }

  /** A rollback that is at work, or has succeeded, found both links. */
  predicate Reversing(start: State, s: State) {
    !s.process.stage.Nobody? || s.last.Succeeded? ==> Reversible(start)
  }

  lemma {:induction false} ReversingRuns(sha: Digest, start: State, es: seq<Event>)
    requires start.process.stage.Nobody? && OneProcess(Rollback, es)
    ensures Reversing(start, Run(sha, start, es))
  {
    if |es| == 1 {
      assert es[..0] == [];
    } else {
      ReversingRuns(sha, start, es[..|es| - 1]);
      hide Run, ReadFile, Prepare, Write, Publish, SetLinks;
    }
  }

  lemma OnlyPermittedCompletes(sha: Digest, s: State, a: Attempt, es: seq<Event>)
    requires s.process.stage.Nobody? && Made(a, es) && Completes(sha, a.kind, s, es)
    ensures Permitted(sha, s, a)
  {
    forall link | Needs(a.kind, s.links, link)
      ensures (link, a.pid) !in s.temps
    {
      if (link, a.pid) in s.temps {
        BlockedRuns(sha, a.kind, s, es, link);
        hide Run, Selected, Needs, Wants;
      }
    }
    if a.kind.Install? {
      AdmittedRuns(sha, s, a, es);
    } else {
      ReversingRuns(sha, s, es);
    }
    hide Run, Installable;
  }

  // ---------------------------------------------------------------- what is permitted completes

  lemma Onward(sha: Digest, s: State, a: Attempt, es: seq<Event>, e: Event)
    requires Made(a, es) && !e.Begin? && (e.Read? ==> e.name in a.source && e.bytes == a.source[e.name])
    ensures Made(a, es + [e]) && Run(sha, s, es + [e]) == Step(sha, Run(sha, s, es), e)
  {
    hide Step;
    assert (es + [e])[..|es|] == es;
  }

  /** Nothing but the staging directories has changed since `s`. */
  predicate Quiet(s: State, a: Attempt, t: State) {
    && t.releases == s.releases && t.links == s.links && t.temps == s.temps && t.last.Running?
    && t.process.kind == a.kind && t.process.pid == a.pid && t.process.manifest == a.manifest
  }

  lemma Begins(sha: Digest, s: State, a: Attempt) returns (es: seq<Event>)
    requires s.process.stage.Nobody? && Permitted(sha, s, a)
    ensures Made(a, es) && Quiet(s, a, Run(sha, s, es))
    ensures
      var p := Run(sha, s, es).process;
      if a.kind.Install? then p.stage.Reading? && p.contents == map[]
      else p.stage.Linking? && p.todo == [(Current, s.links.previous.value), (Previous, s.links.current.value)]
  {
    es := [Begin(a.kind, a.pid, a.manifest, true)];
    assert es[..0] == [];
    hide Version, Managed;
  }

  ghost predicate AtReading(sha: Digest, s: State, a: Attempt, es: seq<Event>) {
    var t := Run(sha, s, es);
    && Made(a, es) && Quiet(s, a, t) && t.process.stage.Reading?
    && t.process.contents.Keys <= FILES
  }

  lemma ReadsOne(sha: Digest, s: State, a: Attempt, es: seq<Event>, name: string) returns (longer: seq<Event>)
    requires Installable(sha, s, a.manifest, a.source) && AtReading(sha, s, a, es)
    requires name in FILES && name !in Run(sha, s, es).process.contents
    ensures AtReading(sha, s, a, longer)
    ensures Run(sha, s, longer).process.contents.Keys == Run(sha, s, es).process.contents.Keys + {name}
  {
    var e := Read(name, a.source[name], true);
    Onward(sha, s, a, es, e);
    longer := es + [e];
    hide Run, Made, Version;
  }

  lemma Missing(some: set<string>, all: set<string>) returns (name: string)
    requires some <= all && some != all
    ensures name in all && name !in some
  {
    assert exists x :: x in all && x !in some;
    name :| name in all && name !in some;
  }

  lemma {:induction false} ReadsAll(sha: Digest, s: State, a: Attempt, es: seq<Event>) returns (longer: seq<Event>)
    requires Installable(sha, s, a.manifest, a.source) && AtReading(sha, s, a, es)
    ensures AtReading(sha, s, a, longer) && Run(sha, s, longer).process.contents.Keys == FILES
    decreases |FILES| - |Run(sha, s, es).process.contents.Keys|
  {
    var done := Run(sha, s, es).process.contents.Keys;
    hide Run, Made, Installable;
    if done == FILES {
      longer := es;
    } else {
      var name := Missing(done, FILES);
      SetSize(done + {name}, FILES);
      longer := ReadsOne(sha, s, a, es, name);
      longer := ReadsAll(sha, s, a, longer);
    }
  }

  const GO := Go(true)

  ghost predicate AtFilling(sha: Digest, s: State, a: Attempt, es: seq<Event>) {
    var t := Run(sha, s, es);
    && Made(a, es) && Quiet(s, a, t) && t.process.stage.Filling?
    && t.process.former == s.links.current && t.process.staging in t.stagings
  }

  lemma Starts(sha: Digest, s: State, a: Attempt, es: seq<Event>) returns (longer: seq<Event>)
    requires Installable(sha, s, a.manifest, a.source) && AtReading(sha, s, a, es)
    requires Run(sha, s, es).process.contents.Keys == FILES
    ensures AtFilling(sha, s, a, longer)
  {
    Onward(sha, s, a, es, GO);
    Onward(sha, s, a, es + [GO], GO);
    Onward(sha, s, a, es + [GO] + [GO], GO);
    longer := es + [GO] + [GO] + [GO];
    hide Run, Made, Order, Version;
  }

  lemma FillsOne(sha: Digest, s: State, a: Attempt, es: seq<Event>) returns (longer: seq<Event>)
    requires AtFilling(sha, s, a, es) && Run(sha, s, es).process.written < |Order()|
    ensures AtFilling(sha, s, a, longer)
    ensures Run(sha, s, longer).process.written == Run(sha, s, es).process.written + 1
  {
    Onward(sha, s, a, es, GO);
    Onward(sha, s, a, es + [GO], GO);
    longer := es + [GO] + [GO];
    hide Run, Made, Order, ContentOf;
  }

  lemma {:induction false} FillsAll(sha: Digest, s: State, a: Attempt, es: seq<Event>) returns (longer: seq<Event>)
    requires AtFilling(sha, s, a, es)
    ensures AtFilling(sha, s, a, longer) && Run(sha, s, longer).process.written >= |Order()|
    decreases |Order()| - Run(sha, s, es).process.written
  {
    longer := es;
    hide Run, AtFilling, Order;
    if Run(sha, s, es).process.written < |Order()| {
      longer := FillsOne(sha, s, a, es);
      longer := FillsAll(sha, s, a, longer);
    }
  }

  /** The installation is about to move its complete staging directory to its place. */
  ghost predicate AtMoving(sha: Digest, s: State, a: Attempt, es: seq<Event>) {
    var t := Run(sha, s, es);
    && Made(a, es) && Quiet(s, a, t) && t.process.stage.Moving?
    && t.process.former == s.links.current && t.process.staging in t.stagings
  }

  lemma GetsReady(sha: Digest, s: State, a: Attempt) returns (es: seq<Event>)
    requires s.process.stage.Nobody? && Permitted(sha, s, a) && a.kind.Install?
    ensures AtMoving(sha, s, a, es)
  {
    hide Run, Made, Order;
    es := Begins(sha, s, a);
    es := ReadsAll(sha, s, a, es);
    es := Starts(sha, s, a, es);
    es := FillsAll(sha, s, a, es);
    es := Marks(sha, s, a, es);
  }

  lemma Marks(sha: Digest, s: State, a: Attempt, es: seq<Event>) returns (longer: seq<Event>)
    requires AtFilling(sha, s, a, es) && Run(sha, s, es).process.written >= |Order()|
    ensures AtMoving(sha, s, a, longer)
  {
    Onward(sha, s, a, es, GO);
    Onward(sha, s, a, es + [GO], GO);
    longer := es + [GO] + [GO];
    hide Run, Made, Order, InstallLinks;
  }

  /** The release is in its place and no link has been touched. */
  lemma Moves(sha: Digest, s: State, a: Attempt, es: seq<Event>)
    requires AtMoving(sha, s, a, es) && a.manifest.version !in s.releases
    ensures Made(a, es + [GO])
    ensures
      var t := Run(sha, s, es + [GO]);
      && t.process.stage.Linking? && t.process.pid == a.pid && a.manifest.version in t.releases
      && t.process.todo == InstallLinks(s.links.current, a.manifest.version)
      && t.links == s.links && t.temps == s.temps
  {
    Onward(sha, s, a, es, GO);
    hide Run, Made, InstallLinks;
  }

  lemma {:induction false} LinksAll(sha: Digest, s: State, a: Attempt, es: seq<Event>) returns (longer: seq<Event>)
    requires Made(a, es) && Run(sha, s, es).process.stage.Linking? && Run(sha, s, es).process.pid == a.pid
    requires
      var t := Run(sha, s, es);
      forall i | 0 <= i < |t.process.todo| :: (t.process.todo[i].0, a.pid) !in t.temps
    ensures Made(a, longer) && Completes(sha, a.kind, s, longer)
    decreases |Run(sha, s, es).process.todo|
  {
    var t := Run(sha, s, es);
    Onward(sha, s, a, es, GO);
    if t.process.todo == [] {
      longer := es + [GO];
      hide Run;
    } else {
      Onward(sha, s, a, es + [GO], GO);
      hide Run, Made;
      assert Run(sha, s, es + [GO] + [GO]).temps == t.temps;
      longer := LinksAll(sha, s, a, es + [GO] + [GO]);
    }
  }

  lemma PermittedCompletes(sha: Digest, s: State, a: Attempt) returns (es: seq<Event>)
    requires s.process.stage.Nobody? && Permitted(sha, s, a)
    ensures Made(a, es) && Completes(sha, a.kind, s, es)
  {
    if a.kind.Install? {
      es := GetsReady(sha, s, a);
      Moves(sha, s, a, es);
      hide Run, Made, AtMoving, Installable;
      es := LinksAll(sha, s, a, es + [GO]);
    } else {
      es := Begins(sha, s, a);
      hide Run, Made;
      es := LinksAll(sha, s, a, es);
    }
  }

  /** With nobody at work, an operation can be completed exactly when it is permitted: an installation when
      its package is as its manifest says and its version is new, a rollback when both links are set, and
      either when the links are in order and no temporary link of its number is in the way. */
  lemma CanCompleteIff(sha: Digest, s: State, a: Attempt)
    requires s.process.stage.Nobody?
    ensures CanComplete(sha, s, a) <==> Permitted(sha, s, a)
  {
    hide Made, Completes, Permitted;
    if es :| Made(a, es) && Completes(sha, a.kind, s, es) {
      OnlyPermittedCompletes(sha, s, a, es);
    }
    if Permitted(sha, s, a) {
      var es := PermittedCompletes(sha, s, a);
    }
  }

  // ---------------------------------------------------------------- once more

  /** The installation has got past the rename of its staging directory. */
  ghost predicate Renamed(sha: Digest, s: State, es: seq<Event>) {
    exists i: nat :: i <= |es| && SetsLinks(Run(sha, s, es[..i]).process.stage)
  }

  lemma RenamedSnoc(sha: Digest, s: State, es: seq<Event>)
    requires es != []
    ensures
      Renamed(sha, s, es)
      <==> Renamed(sha, s, es[..|es| - 1]) || SetsLinks(Run(sha, s, es).process.stage)
  {
    hide Run;
    var init := es[..|es| - 1];
    assert forall i: nat | i <= |init| :: init[..i] == es[..i];
    assert es[..|es|] == es;
    if Renamed(sha, s, init) {
      var i: nat :| i <= |init| && SetsLinks(Run(sha, s, init[..i]).process.stage);
      assert SetsLinks(Run(sha, s, es[..i]).process.stage);
    }
    if Renamed(sha, s, es) {
      var i: nat :| i <= |es| && SetsLinks(Run(sha, s, es[..i]).process.stage);
      assert i <= |init| ==> SetsLinks(Run(sha, s, init[..i]).process.stage);
    }
  }

  lemma PublishBefore(s: State, ok: bool)
    requires !SetsLinks(s.process.stage)
    ensures
      var t := Publish(s, ok);
      && t.links == s.links
      && if SetsLinks(t.process.stage) then s.process.manifest.version in t.releases else t.releases == s.releases
  {
    hide InstallLinks;
  }

  /** Before the rename nothing is touched but staging directories; the rename brings the release. */
  lemma StepBefore(sha: Digest, s: State, e: Event)
    requires !SetsLinks(s.process.stage) && !e.Begin?
    ensures
      var t := Step(sha, s, e);
      && t.links == s.links && t.temps == s.temps
      && if SetsLinks(t.process.stage) then s.process.manifest.version in t.releases else t.releases == s.releases
  {
    OtherTemps(sha, s, e);
    if e.Go? {
      hide Prepare, Write, Publish, SetLinks;
      var g := s.process.stage;
      if g.Tearing? {
        WriteExtends(s, e.ok);
        WriteTemps(s, e.ok);
      } else if g.Marking? || g.Moving? {
        PublishBefore(s, e.ok);
      } else if !g.Nobody? && !g.Cleaning? {
        PrepareExtends(s, e.ok);
        PrepareKeepsPid(s, e.ok);
      }
    }
  }

  lemma {:induction false} BeforeTheRename(sha: Digest, s: State, a: Attempt, es: seq<Event>)
    requires s.process.stage.Nobody? && a.kind.Install? && Made(a, es)
    ensures
      var t := Run(sha, s, es);
      if Renamed(sha, s, es) then a.manifest.version in t.releases
      else t.releases == s.releases && t.links == s.links && t.temps == s.temps
  {
    RenamedSnoc(sha, s, es);
    if |es| == 1 {
      assert es[..0] == [] && !Renamed(sha, s, []);
      hide Version, Managed;
    } else {
      var init, e := es[..|es| - 1], es[|es| - 1];
      BeforeTheRename(sha, s, a, init);
      InstallRuns(sha, s, init);
      StepExtends(sha, Run(sha, s, init), e);
      hide Step, Renamed;
      if !SetsLinks(Run(sha, s, init).process.stage) {
        StepBefore(sha, Run(sha, s, init), e);
      } else {
        RenamedNow(sha, s, init);
      }
    }
  }

  lemma RenamedNow(sha: Digest, s: State, es: seq<Event>)
    requires SetsLinks(Run(sha, s, es).process.stage)
    ensures Renamed(sha, s, es)
  {
    assert es[..|es|] == es;
    hide Run;
  }

  lemma RunNothing(sha: Digest, s: State)
    ensures Run(sha, s, []) == s
  {}

  lemma RollbackKeeps(s: State, t: State)
    requires Reversible(s) && RollingBack(s.links, t) && t.process.stage.Nobody? && Extends(s, t)
    ensures Reversible(t)
  {}

  /** What an interrupted rollback leaves: links that still select what they selected between them. */
  lemma AfterRollback(sha: Digest, s: State, a: Attempt, es: seq<Event>)
    requires s.process.stage.Nobody? && Reversible(s) && a.kind.Rollback? && Made(a, es)
    requires Run(sha, s, es).process.stage.Nobody?
    ensures Reversible(Run(sha, s, es))
  {
    hide Run, Reversible, RollingBack, Extends;
    RollbackRuns(sha, s, es);
    RunNothing(sha, s);
    assert [] + es == es;
    ReleasesAreImmutable(sha, s, [], es);
    RollbackKeeps(s, Run(sha, s, es));
  }

  /** An operation that was permitted and has ended, however it ended, can be done again exactly when, for
      an installation, it had not got past its rename, and for a rollback, it was not killed while it had a
      temporary link. */
  lemma InterruptedIff(sha: Digest, s: State, a: Attempt, es: seq<Event>)
    requires s.process.stage.Nobody? && Permitted(sha, s, a) && Made(a, es) && Run(sha, s, es).process.stage.Nobody?
    ensures
      CanComplete(sha, Run(sha, s, es), a)
      <==> if a.kind.Install? then !Renamed(sha, s, es)
           else !Leaves(sha, s, es, Current, a.pid) && !Leaves(sha, s, es, Previous, a.pid)
  {
    CanCompleteIff(sha, Run(sha, s, es), a);
    if a.kind.Install? {
      BeforeTheRename(sha, s, a, es);
      hide Run, CanComplete, Made, Renamed, Version;
    } else {
      AfterRollback(sha, s, a, es);
      TempsIff(sha, s, es, Current, a.pid);
      TempsIff(sha, s, es, Previous, a.pid);
      hide Run, CanComplete, Made, Leaves, Installable;
    }
  }

  /** A version that has once been moved to its place is never installed again, by whatever process and from
      whatever package. */
  lemma NeverInstalledAgain(sha: Digest, start: State, es: seq<Event>, more: seq<Event>, a: Attempt)
    requires a.kind.Install? && a.manifest.version in Run(sha, start, es).releases
    requires Run(sha, start, es + more).process.stage.Nobody?
    ensures !CanComplete(sha, Run(sha, start, es + more), a)
  {
    ReleasesAreImmutable(sha, start, es, more);
    CanCompleteIff(sha, Run(sha, start, es + more), a);
    hide Run, CanComplete;
  }

  // ---------------------------------------------------------------- stranded releases

  /** Nothing selects release `v` or is about to. */
  predicate Stranded(s: State, v: string) {
    var p := s.process;
    && v in s.releases && s.links.current != Some(v) && s.links.previous != Some(v)
    && (p.stage.Making? || Stages(p.stage) ==> p.former != Some(v))
    && (SetsLinks(p.stage) ==> forall i | 0 <= i < |p.todo| :: p.todo[i].1 != v)
  }

  lemma PrepareStrands(s: State, ok: bool, v: string)
    requires Stranded(s, v) && !SetsLinks(s.process.stage)
    ensures Stranded(Prepare(s, ok), v)
  {
    hide Order;
  }

  lemma WriteStrands(s: State, ok: bool, v: string)
    requires Stranded(s, v) && s.process.stage.Tearing?
    ensures Stranded(Write(s, ok), v)
  {
    hide Order, ContentOf;
  }

  lemma PublishStrands(s: State, ok: bool, v: string)
    requires Stranded(s, v) && (s.process.stage.Marking? || s.process.stage.Moving?)
    ensures Stranded(Publish(s, ok), v)
  {}

  lemma SetLinksStrands(s: State, ok: bool, v: string)
    requires Stranded(s, v) && SetsLinks(s.process.stage)
    ensures Stranded(SetLinks(s, ok), v)
  {}

  lemma StepStrands(sha: Digest, s: State, e: Event, v: string)
    requires Stranded(s, v)
    ensures Stranded(Step(sha, s, e), v)
  {
    if e.Go? {
      hide Prepare, Write, Publish, SetLinks;
      var g := s.process.stage;
      if g.Tearing? {
        WriteStrands(s, e.ok, v);
      } else if g.Marking? || g.Moving? {
        PublishStrands(s, e.ok, v);
      } else if SetsLinks(g) {
        SetLinksStrands(s, e.ok, v);
      } else if !g.Nobody? && !g.Cleaning? {
        PrepareStrands(s, e.ok, v);
      }
    } else {
      hide Version;
    }
  }

  /** A release that no link selects when nobody is at work is never selected again: no rollback reaches it
      and no installation may use its version. */
  lemma {:induction false} StrandedForGood(sha: Digest, start: State, es: seq<Event>, v: string)
    requires Stranded(start, v)
    ensures Stranded(Run(sha, start, es), v)
  {
    hide Step, Stranded;
    if es != [] {
      StrandedForGood(sha, start, es[..|es| - 1], v);
      StepStrands(sha, Run(sha, start, es[..|es| - 1]), es[|es| - 1], v);
    }
  }

  // ---------------------------------------------------------------- two dead ends

  /** Installing version "1" by process 7 into an empty prefix, from a package of empty files. */
  function FirstInstall(sha: Digest): Attempt {
    Attempt(Install, 7, Manifest("1", map name | name in FILES :: sha("")), map name | name in FILES :: "")
  }

  lemma FirstIsPermitted(sha: Digest)
    ensures Permitted(sha, EMPTY, FirstInstall(sha))
  {}

  lemma NoneInstallsIt(sha: Digest, s: State, v: string)
    requires s.process.stage.Nobody? && v in s.releases
    ensures forall a: Attempt | a.kind.Install? && a.manifest.version == v :: !CanComplete(sha, s, a)
  {
    hide CanComplete;
    forall a: Attempt | a.kind.Install? && a.manifest.version == v
      ensures !CanComplete(sha, s, a)
    {
      CanCompleteIff(sha, s, a);
    }
  }

  lemma StopsThere(sha: Digest, a: Attempt, es: seq<Event>, killed: bool) returns (longer: seq<Event>)
    requires Made(a, es)
    requires
      var t := Run(sha, EMPTY, es);
      && t.process.stage.Linking? && t.process.todo != [] && a.manifest.version in t.releases
      && t.links == EMPTY.links && t.temps == {}
    ensures Made(a, longer)
    ensures
      var t := Run(sha, EMPTY, longer);
      && t.process.stage.Nobody? && t.links == EMPTY.links && t.temps == {} && Stranded(t, a.manifest.version)
  {
    var e := if killed then Crash else Go(false);
    Onward(sha, EMPTY, a, es, e);
    longer := es + [e];
    hide Run, Made;
  }

  /** An installation killed right after its rename, or whose first `point` fails, leaves no temporary link
      and a release that nothing selects: it is never installed again and never selected. */
  lemma AReleaseCanBeStranded(sha: Digest, killed: bool) returns (es: seq<Event>)
    ensures Made(FirstInstall(sha), es)
    ensures
      var s := Run(sha, EMPTY, es);
      && s.process.stage.Nobody? && s.temps == {} && s.links == EMPTY.links && Stranded(s, "1")
      && forall a: Attempt | a.kind.Install? && a.manifest.version == "1" :: !CanComplete(sha, s, a)
  {
    var a := FirstInstall(sha);
    FirstIsPermitted(sha);
    es := GetsReady(sha, EMPTY, a);
    Moves(sha, EMPTY, a, es);
    assert InstallLinks(EMPTY.links.current, a.manifest.version) != [];
    hide Run, Made, AtMoving, Permitted, CanComplete, Installable, InstallLinks, Stranded;
    es := StopsThere(sha, a, es + [GO], killed);
    NoneInstallsIt(sha, Run(sha, EMPTY, es), a.manifest.version);
  }

  /** An installation killed while it has its temporary link leaves it, and no process of its number can
      complete anything any more. */
  lemma ANumberCanBeBlocked(sha: Digest) returns (es: seq<Event>)
    ensures Made(FirstInstall(sha), es)
    ensures
      var s := Run(sha, EMPTY, es);
      && s.process.stage.Nobody? && s.temps == {(Current, 7)}
      && forall a: Attempt | a.pid == 7 :: !CanComplete(sha, s, a)
  {
    var a := FirstInstall(sha);
    FirstIsPermitted(sha);
    es := GetsReady(sha, EMPTY, a);
    Moves(sha, EMPTY, a, es);
    Onward(sha, EMPTY, a, es + [GO], GO);
    Onward(sha, EMPTY, a, es + [GO] + [GO], Crash);
    es := es + [GO] + [GO] + [Crash];
    hide Run, Made, AtMoving, CanComplete, Installable;
    forall b: Attempt | b.pid == 7
      ensures !CanComplete(sha, Run(sha, EMPTY, es), b)
    {
      CanCompleteIff(sha, Run(sha, EMPTY, es), b);
    }
  }

  // ---------------------------------------------------------------- refusals at the start

  /** A process that may not begin leaves everything as it is. */
  lemma ABeginningIsRefused(sha: Digest, start: State, es: seq<Event>, e: Event)
    requires e.Begin? && Run(sha, start, es).process.stage.Nobody?
    ensures
      var s, t := Run(sha, start, es), Run(sha, start, es + [e]);
      var fit := if e.kind.Install? then Version(e.manifest.version) && e.manifest.files.Keys == FILES
                 else
                   && s.links.current.Some? && s.links.previous.Some?
                   && s.links.current.value in s.releases && s.links.previous.value in s.releases;
      if e.sane && fit then !t.process.stage.Nobody? && t == s.(process := t.process, last := Running)
      else t == s.(last := Failed)
  {
    assert (es + [e])[..|es|] == es;
    assert Run(sha, start, es + [e]) == Step(sha, Run(sha, start, es), e);
    hide Run, Version;
  }

  /** A file that is not plain, or whose digest is not the manifest's, ends an installation before it has touched
      anything. */
  lemma AFileIsRefused(sha: Digest, start: State, es: seq<Event>, e: Event)
    requires e.Read? && Run(sha, start, es).process.stage.Reading?
    requires
      var p := Run(sha, start, es).process;
      e.name in p.manifest.files && e.name !in p.contents
    ensures
      var s, t := Run(sha, start, es), Run(sha, start, es + [e]);
      if e.plain && sha(e.bytes) == s.process.manifest.files[e.name] then
        t == s.(process := s.process.(contents := s.process.contents[e.name := e.bytes]))
      else t == s.(process := NOBODY, last := Failed)
  {
    assert (es + [e])[..|es|] == es;
    assert Run(sha, start, es + [e]) == Step(sha, Run(sha, start, es), e);
    hide Run;
  }
}
