/** Installing and rolling back server releases: every file-system operation is a step, and the process
    may die between any two of them.

    `sha` is the digest function. An event that is not enabled leaves the state as it is. */
module Activation {
  import opened Prelude

  const FILES: set<string> :=
    {"bin/synara-server", "deploy/Caddyfile", "deploy/server.env", "deploy/synara-server.service", "deploy/manage.py"}

  const MANIFEST := "MANIFEST.json"

  /** The order in which the files of a release are written. */
  function Order(): seq<string> {
    [MANIFEST, "bin/synara-server", "deploy/Caddyfile", "deploy/manage.py", "deploy/server.env",
     "deploy/synara-server.service"]
  }

  type Digest = string -> string

  datatype Manifest = Manifest(version: string, files: map<string, string>)

  /** What a file holds: bytes, the rewritten manifest, or whatever a write cut short left. */
  datatype Content = Bytes(bytes: string) | Listing(manifest: Manifest) | Torn

  datatype Dir = Dir(files: map<string, Content>, executable: bool)

  datatype Link = Current | Previous

  datatype Kind = Install | Rollback

  datatype Stage =
    | Nobody
    | Reading
    | Reviewing
    | Making
    | Filling
    | Tearing
    | Marking
    | Moving
    | Linking
    | Replacing
    | Unlinking
    | Cleaning

  /** The process that has the activation lock: what it has read, how many files it has written and which
      links it still has to set. */
  datatype Process = Process(
    kind: Kind,
    pid: nat,
    stage: Stage,
    manifest: Manifest,
    contents: map<string, string>,
    former: Option<string>,
    staging: nat,
    written: nat,
    todo: seq<(Link, string)>)

  datatype Ending = Running | Succeeded | Failed

  datatype Links = Links(current: Option<string>, previous: Option<string>)

  /** `temps` are the temporary links by name and process; `last` is how the last process ended. */
  datatype State = State(
    releases: map<string, Dir>,
    stagings: map<nat, Dir>,
    links: Links,
    temps: set<(Link, nat)>,
    process: Process,
    next: nat,
    last: Ending)

  const NOBODY := Process(Install, 0, Nobody, Manifest("", map[]), map[], None, 0, 0, [])

  datatype Event =
    | Begin(kind: Kind, pid: nat, manifest: Manifest, sane: bool)
    | Read(name: string, bytes: string, plain: bool)
    | Go(ok: bool)
    | Crash

  predicate Plain(c: char) {
    'A' <= c <= 'Z' || 'a' <= c <= 'z' || '0' <= c <= '9'
  }

  /** Versions are plain names, so no version is a hidden directory. */
  predicate Version(v: string) {
    && 1 <= |v| <= 128 && Plain(v[0])
    && forall i | 0 <= i < |v| :: Plain(v[i]) || v[i] in ".+_-"
  }

  /** A link selects a managed release, or is absent. */
  predicate Managed(s: State, link: Option<string>) {
    link.None? || link.value in s.releases
  }

  function Exit(s: State, ending: Ending): State {
    s.(process := NOBODY, last := ending)
  }

  function At(s: State, stage: Stage): State {
    s.(process := s.process.(stage := stage))
  }

  function Start(s: State, e: Event): State
    requires e.Begin?
  {
    var begun := s.(last := Running, process := NOBODY.(kind := e.kind, pid := e.pid, manifest := e.manifest));
    if !e.sane then s.(last := Failed)
    else if e.kind.Install? then
      if !Version(e.manifest.version) || e.manifest.files.Keys != FILES then s.(last := Failed)
      else At(begun, Reading)
    else if s.links.current.None? || s.links.previous.None? then s.(last := Failed)
    else if !Managed(s, s.links.current) || !Managed(s, s.links.previous) then s.(last := Failed)
    else
      begun.(process := begun.process.(stage := Linking,
        todo := [(Current, s.links.previous.value), (Previous, s.links.current.value)]))
  }

  /** The links an installation sets, in order. */
  function InstallLinks(former: Option<string>, version: string): seq<(Link, string)> {
    (if former.Some? then [(Previous, former.value)] else []) + [(Current, version)]
  }

  /** What is written under `name`, given what was reviewed. */
  function ContentOf(manifest: Manifest, contents: map<string, string>, name: string): Content {
    if name == MANIFEST then Listing(manifest)
    else if name in contents then Bytes(contents[name]) else Torn
  }

  function SetLink(links: Links, link: Link, target: string): Links {
    if link.Current? then links.(current := Some(target)) else links.(previous := Some(target))
  }

  function PutFile(s: State, name: string, content: Content): State
    requires s.process.staging in s.stagings
  {
    var dir := s.stagings[s.process.staging];
    s.(stagings := s.stagings[s.process.staging := dir.(files := dir.files[name := content])])
  }

  /** Preparing the release in a staging directory. */
  function Prepare(s: State, ok: bool): State {
    var p := s.process;
    match p.stage
    case Reading => if p.contents.Keys == FILES then At(s, Reviewing) else s
    case Reviewing =>
      if !ok || !Managed(s, s.links.current) || !Managed(s, s.links.previous) || p.manifest.version in s.releases then
        Exit(s, Failed)
      else s.(process := p.(stage := Making, former := s.links.current))
    case Making =>
      if !ok then Exit(s, Failed)
      else
        s.(stagings := s.stagings[s.next := Dir(map[], false)], next := s.next + 1,
           process := p.(stage := Filling, staging := s.next, written := 0))
    case Filling =>
      if p.written >= |Order()| then At(s, Marking)
      else if p.staging !in s.stagings then At(s, Cleaning)
      else At(PutFile(s, Order()[p.written], Torn), Tearing)
    case _ => s
  }

  /** Writing the next file, which is there already; a write cut short leaves it torn. */
  function Write(s: State, ok: bool): State {
    var p := s.process;
    if !ok || p.written >= |Order()| || p.staging !in s.stagings then At(s, Cleaning)
    else
      PutFile(s, Order()[p.written], ContentOf(p.manifest, p.contents, Order()[p.written]))
        .(process := p.(stage := Filling, written := p.written + 1))
  }

  /** Marking the server executable, then moving the staging directory to its place. */
  function Publish(s: State, ok: bool): State {
    var p := s.process;
    if p.staging !in s.stagings then At(s, Cleaning)
    else if !ok then At(s, Cleaning)
    else if p.stage.Marking? then
      s.(stagings := s.stagings[p.staging := s.stagings[p.staging].(executable := true)],
         process := p.(stage := Moving))
    else if p.manifest.version in s.releases then At(s, Cleaning)
    else
      s.(releases := s.releases[p.manifest.version := s.stagings[p.staging]], stagings := s.stagings - {p.staging},
         process := p.(stage := Linking, todo := InstallLinks(p.former, p.manifest.version)))
  }

  /** Setting the links: a temporary link first, which then replaces the real one in one step. */
  function SetLinks(s: State, ok: bool): State {
    var p := s.process;
    if p.todo == [] then Exit(s, Succeeded)
    else
      var (link, target) := p.todo[0];
      if p.stage.Linking? then
        if !ok || (link, p.pid) in s.temps then Exit(s, Failed)
        else At(s.(temps := s.temps + {(link, p.pid)}), Replacing)
      else if p.stage.Replacing? && ok then
        s.(links := SetLink(s.links, link, target), temps := s.temps - {(link, p.pid)},
           process := p.(stage := Linking, todo := p.todo[1..]))
      else if p.stage.Replacing? then At(s, Unlinking)
      else Exit(s.(temps := s.temps - {(link, p.pid)}), Failed)
  }

  function Advance(s: State, ok: bool): State {
    var g := s.process.stage;
    if g.Nobody? then s
    else if g.Reading? || g.Reviewing? || g.Making? || g.Filling? then Prepare(s, ok)
    else if g.Tearing? then Write(s, ok)
    else if g.Marking? || g.Moving? then Publish(s, ok)
    else if g.Linking? || g.Replacing? || g.Unlinking? then SetLinks(s, ok)
    else Exit(s.(stagings := s.stagings - {s.process.staging}), Failed)
  }

  function ReadFile(sha: Digest, s: State, e: Event): State
    requires e.Read?
  {
    var p := s.process;
    if !p.stage.Reading? || e.name !in p.manifest.files || e.name in p.contents then s
    else if !e.plain || sha(e.bytes) != p.manifest.files[e.name] then Exit(s, Failed)
    else s.(process := p.(contents := p.contents[e.name := e.bytes]))
  }

  function Step(sha: Digest, s: State, e: Event): State {
    match e
    case Begin(_, _, _, _) => if s.process.stage.Nobody? then Start(s, e) else s
    case Read(_, _, _) => ReadFile(sha, s, e)
    case Go(ok) => Advance(s, ok)
    case Crash => if s.process.stage.Nobody? then s else Exit(s, Failed)
  }

  function Run(sha: Digest, start: State, es: seq<Event>): State {
    if es == [] then start else Step(sha, Run(sha, start, es[..|es| - 1]), es[|es| - 1])
  }

  // ---------------------------------------------------------------- complete releases

  /** A release holds exactly the reviewed files, each with the digest its own manifest states. */
  ghost predicate Complete(sha: Digest, version: string, dir: Dir) {
    && dir.files.Keys == FILES + {MANIFEST}
    && dir.files[MANIFEST].Listing?
    && var m := dir.files[MANIFEST].manifest;
       && m.version == version && m.files.Keys == FILES && dir.executable
       && forall name | name in FILES :: dir.files[name].Bytes? && sha(dir.files[name].bytes) == m.files[name]
  }

  ghost predicate Stored(sha: Digest, s: State) {
    && (forall v | v in s.releases :: Complete(sha, v, s.releases[v]))
    && Managed(s, s.links.current) && Managed(s, s.links.previous)
    && (forall n | n in s.stagings :: n < s.next)
  }

  /** What the process has read matches its manifest. */
  predicate Reviewed(sha: Digest, manifest: Manifest, contents: map<string, string>) {
    && manifest.files.Keys == FILES
    && contents.Keys <= FILES
    && forall name | name in contents :: sha(contents[name]) == manifest.files[name]
  }

  predicate Prepares(g: Stage) {
    g.Reading? || g.Reviewing? || g.Making? || Stages(g)
  }

  predicate Stages(g: Stage) {
    g.Filling? || g.Tearing? || g.Marking? || g.Moving?
  }

  predicate SetsLinks(g: Stage) {
    g.Linking? || g.Replacing? || g.Unlinking?
  }

  /** The directory holds exactly the first `n` files as they should be, and perhaps a torn next one. */
  ghost predicate Holds(
    files: map<string, Content>, manifest: Manifest, contents: map<string, string>, n: nat, torn: bool)
    requires n <= |Order()|
  {
    && (torn ==> n < |Order()|)
    && (forall name :: name in files <==> name in Order()[..n] || (torn && name == Order()[n]))
    && (forall name | name in Order()[..n] :: files[name] == ContentOf(manifest, contents, name))
  }

  /** The staging directory holds what has been written so far. */
  ghost predicate Filled(s: State) {
    var p := s.process;
    && p.staging in s.stagings && p.written <= |Order()|
    && Holds(s.stagings[p.staging].files, p.manifest, p.contents, p.written, p.stage.Tearing?)
    && (p.stage.Marking? || p.stage.Moving? ==> p.written == |Order()|)
    && (p.stage.Moving? ==> s.stagings[p.staging].executable)
  }

  ghost predicate Careful(sha: Digest, s: State) {
    var p := s.process;
    && (Prepares(p.stage) ==> p.kind.Install? && Reviewed(sha, p.manifest, p.contents))
    && (Prepares(p.stage) && !p.stage.Reading? ==> p.contents.Keys == FILES)
    && (Stages(p.stage) ==> Filled(s))
    && (p.stage.Making? || Stages(p.stage) ==> Managed(s, p.former))
    && (SetsLinks(p.stage) ==> forall i | 0 <= i < |p.todo| :: p.todo[i].1 in s.releases)
  }

  ghost predicate Sound(sha: Digest, s: State) {
    Stored(sha, s) && Careful(sha, s)
  }

  lemma OrderIsEverything(name: string)
    ensures name in Order()[..|Order()|] <==> name in FILES + {MANIFEST}
  {
    assert Order()[..|Order()|] == Order();
  }

  lemma OneMore(n: nat, name: string)
    requires n < |Order()|
    ensures name in Order()[..n + 1] <==> name in Order()[..n] || name == Order()[n]
    ensures Order()[n] !in Order()[..n]
  {
    assert Order()[..n + 1] == Order()[..n] + [Order()[n]];
    forall i, j | 0 <= i < j < |Order()|
      ensures Order()[i] != Order()[j]
    {
      NamesDiffer();
    }
  }

  lemma NamesDiffer()
    ensures forall i, j | 0 <= i < j < |Order()| :: Order()[i] != Order()[j]
  {
    assert "bin/synara-server"[0] == 'b' && MANIFEST[0] == 'M';
    assert |"deploy/Caddyfile"| == 16 && |"deploy/manage.py"| == 16 && |"deploy/server.env"| == 17
        && |"deploy/synara-server.service"| == 28 && |"bin/synara-server"| == 17 && |MANIFEST| == 13;
    assert "deploy/Caddyfile"[7] == 'C' && "deploy/manage.py"[7] == 'm' && "deploy/server.env"[0] == 'd';
  }

  lemma StartKeeps(sha: Digest, s: State, e: Event)
    requires Sound(sha, s) && s.process.stage.Nobody? && e.Begin?
    ensures Sound(sha, Start(s, e))
  {
    hide Complete, Filled, Version;
  }

  lemma ReadKeeps(sha: Digest, s: State, e: Event)
    requires Sound(sha, s) && e.Read?
    ensures Sound(sha, ReadFile(sha, s, e))
  {
    hide Complete, Filled;
  }

  /** Ending a process leaves nothing to be careful about. */
  lemma ExitKeeps(sha: Digest, s: State, ending: Ending)
    requires Stored(sha, s)
    ensures Sound(sha, Exit(s, ending))
  {
    hide Complete, Filled, Reviewed;
  }

  /** The next file appears, torn, and then gets its content. */
  lemma TornFile(files: map<string, Content>, manifest: Manifest, contents: map<string, string>, n: nat)
    requires n < |Order()| && Holds(files, manifest, contents, n, false)
    ensures Holds(files[Order()[n] := Torn], manifest, contents, n, true)
  {
    OneMore(n, Order()[n]);
    hide Order;
  }

  lemma WholeFile(files: map<string, Content>, manifest: Manifest, contents: map<string, string>, n: nat)
    requires n < |Order()| && Holds(files, manifest, contents, n, true)
    ensures
      Holds(files[Order()[n] := ContentOf(manifest, contents, Order()[n])], manifest, contents, n + 1, false)
  {
    forall name
      ensures name in Order()[..n + 1] <==> name in Order()[..n] || name == Order()[n]
    {
      OneMore(n, name);
    }
    OneMore(n, Order()[n]);
    hide Order;
  }

  lemma PrepareKeeps(sha: Digest, s: State, ok: bool)
    requires Sound(sha, s)
    requires s.process.stage.Reading? || s.process.stage.Reviewing? || s.process.stage.Making?
    ensures Sound(sha, Prepare(s, ok))
  {
    hide Complete, Order;
  }

  lemma FillKeeps(sha: Digest, s: State, ok: bool)
    requires Sound(sha, s) && s.process.stage.Filling?
    ensures Sound(sha, Prepare(s, ok))
  {
    hide Complete, Order, Reviewed;
    var p := s.process;
    if p.written < |Order()| {
      TornFile(s.stagings[p.staging].files, p.manifest, p.contents, p.written);
    }
    hide Holds;
  }

  lemma WriteKeeps(sha: Digest, s: State, ok: bool)
    requires Sound(sha, s) && s.process.stage.Tearing?
    ensures Sound(sha, Write(s, ok))
  {
    hide Complete, Order, Reviewed;
    var p := s.process;
    if ok && p.written < |Order()| {
      WholeFile(s.stagings[p.staging].files, p.manifest, p.contents, p.written);
    }
    hide Holds;
  }

  lemma MarkKeeps(sha: Digest, s: State, ok: bool)
    requires Sound(sha, s) && s.process.stage.Marking?
    ensures Sound(sha, Publish(s, ok))
  {
    hide Complete, Order, Reviewed, Holds;
  }

  lemma StagedIsComplete(sha: Digest, s: State)
    requires Careful(sha, s) && s.process.stage.Moving?
    ensures Complete(sha, s.process.manifest.version, s.stagings[s.process.staging])
  {
    var dir := s.stagings[s.process.staging];
    forall name
      ensures name in dir.files <==> name in FILES + {MANIFEST}
    {
      OrderIsEverything(name);
    }
    assert MANIFEST !in FILES;
    forall name | name in FILES + {MANIFEST}
      ensures dir.files[name] == ContentOf(s.process.manifest, s.process.contents, name)
    {
      OrderIsEverything(name);
    }
    hide Order;
  }

  lemma Promoted(sha: Digest, s: State, version: string, dir: Dir, n: nat)
    requires Stored(sha, s) && Complete(sha, version, dir)
    ensures Stored(sha, s.(releases := s.releases[version := dir], stagings := s.stagings - {n}))
  {
    hide Complete;
  }

  /** What is stored does not depend on the process. */
  lemma SameStored(sha: Digest, s: State, t: State)
    requires Stored(sha, s)
    requires t.releases == s.releases && t.stagings == s.stagings && t.links == s.links && t.next == s.next
    ensures Stored(sha, t)
  {
    hide Complete;
  }

  lemma MoveStores(sha: Digest, s: State)
    requires Sound(sha, s) && s.process.stage.Moving?
    ensures Stored(sha, Publish(s, true))
  {
    StagedIsComplete(sha, s);
    var t, p := Publish(s, true), s.process;
    assert p.staging in s.stagings;
    hide Stored, Complete, Filled, Reviewed, InstallLinks;
    if p.manifest.version in s.releases {
      SameStored(sha, s, t);
    } else {
      Promoted(sha, s, p.manifest.version, s.stagings[p.staging], p.staging);
      SameStored(sha, s.(releases := t.releases, stagings := t.stagings), t);
    }
  }

  lemma MovedLinks(former: Option<string>, version: string, releases: map<string, Dir>, i: nat)
    requires i < |InstallLinks(former, version)| && version in releases && (former.Some? ==> former.value in releases)
    ensures InstallLinks(former, version)[i].1 in releases
  {}

  lemma MoveIsCareful(sha: Digest, s: State)
    requires s.process.stage.Moving? && s.process.staging in s.stagings && Managed(s, s.process.former)
    ensures Careful(sha, Publish(s, true))
  {
    hide Reviewed, InstallLinks;
    var t := Publish(s, true);
    if s.process.manifest.version !in s.releases {
      forall i | 0 <= i < |t.process.todo|
        ensures t.process.todo[i].1 in t.releases
      {
        MovedLinks(s.process.former, s.process.manifest.version, t.releases, i);
      }
    }
  }

  lemma MoveKeeps(sha: Digest, s: State, ok: bool)
    requires Sound(sha, s) && s.process.stage.Moving?
    ensures Sound(sha, Publish(s, ok))
  {
    if ok {
      hide Stored, Holds, Reviewed, Publish;
      MoveStores(sha, s);
      MoveIsCareful(sha, s);
    } else {
      hide Complete, Filled, Reviewed;
    }
  }

  lemma SetLinksKeeps(sha: Digest, s: State, ok: bool)
    requires Sound(sha, s) && SetsLinks(s.process.stage)
    ensures Sound(sha, SetLinks(s, ok))
  {
    hide Complete, Filled, Reviewed;
  }

  lemma CleaningKeeps(sha: Digest, s: State)
    requires Sound(sha, s)
    ensures Sound(sha, Exit(s.(stagings := s.stagings - {s.process.staging}), Failed))
  {
    hide Complete, Careful;
    ExitKeeps(sha, s.(stagings := s.stagings - {s.process.staging}), Failed);
  }

  lemma AdvanceKeeps(sha: Digest, s: State, ok: bool)
    requires Sound(sha, s)
    ensures Sound(sha, Advance(s, ok))
  {
    hide Prepare, Write, Publish, SetLinks, Sound;
    var g := s.process.stage;
    if g.Reading? || g.Reviewing? || g.Making? {
      PrepareKeeps(sha, s, ok);
    } else if g.Filling? {
      FillKeeps(sha, s, ok);
    } else if g.Tearing? {
      WriteKeeps(sha, s, ok);
    } else if g.Marking? {
      MarkKeeps(sha, s, ok);
    } else if g.Moving? {
      MoveKeeps(sha, s, ok);
    } else if SetsLinks(g) {
      SetLinksKeeps(sha, s, ok);
    } else if g.Cleaning? {
      CleaningKeeps(sha, s);
    }
  }

  lemma StepKeeps(sha: Digest, s: State, e: Event)
    requires Sound(sha, s)
    ensures Sound(sha, Step(sha, s, e))
  {
    hide Advance, Start, ReadFile, Exit, Careful, Complete;
    if e.Begin? && s.process.stage.Nobody? {
      StartKeeps(sha, s, e);
    } else if e.Read? {
      ReadKeeps(sha, s, e);
    } else if e.Go? {
      AdvanceKeeps(sha, s, e.ok);
    } else if e.Crash? {
      ExitKeeps(sha, s, Failed);
    }
  }

  lemma {:induction false} EveryRunIsSound(sha: Digest, start: State, es: seq<Event>)
    requires Sound(sha, start)
    ensures Sound(sha, Run(sha, start, es))
  {
    hide Step, Sound;
    if es != [] {
      EveryRunIsSound(sha, start, es[..|es| - 1]);
      StepKeeps(sha, Run(sha, start, es[..|es| - 1]), es[|es| - 1]);
    }
  }

  /** A prefix before anything was installed in it. */
  const EMPTY := State(map[], map[], Links(None, None), {}, NOBODY, 0, Failed)

  /** Every prefix is sound, whatever was ever done in it. */
  lemma EveryPrefixIsSound(sha: Digest, es: seq<Event>)
    ensures Sound(sha, EMPTY)
    ensures Sound(sha, Run(sha, EMPTY, es))
  {
    assert Sound(sha, EMPTY);
    EveryRunIsSound(sha, EMPTY, es);
    hide Run, Sound;
  }

  /** Whenever the process dies, each link that is set selects a complete release whose files have the
      digests its manifest states. */
  lemma LinksAreComplete(sha: Digest, start: State, es: seq<Event>)
    requires Sound(sha, start)
    ensures
      var s := Run(sha, start, es);
      && (s.links.current.Some? ==>
            var version := s.links.current.value;
            version in s.releases && Complete(sha, version, s.releases[version]))
      && (s.links.previous.Some? ==>
            var version := s.links.previous.value;
            version in s.releases && Complete(sha, version, s.releases[version]))
  {
    EveryRunIsSound(sha, start, es);
    hide Run, Complete;
  }

  lemma RunConcat(sha: Digest, start: State, es: seq<Event>, more: seq<Event>)
    requires more != []
    ensures Run(sha, start, es + more) == Step(sha, Run(sha, start, es + more[..|more| - 1]), more[|more| - 1])
  {
    hide Step;
    ConcatLast(es, more);
  }

  predicate Extends(s: State, t: State) {
    && (forall v | v in s.releases :: v in t.releases && t.releases[v] == s.releases[v])
    && (s.links.current.Some? ==> t.links.current.Some?)
    && (s.links.previous.Some? ==> t.links.previous.Some?)
  }

  lemma PrepareExtends(s: State, ok: bool)
    ensures Prepare(s, ok).releases == s.releases && Prepare(s, ok).links == s.links
  {
    hide Order, Managed;
  }

  lemma WriteExtends(s: State, ok: bool)
    ensures Write(s, ok).releases == s.releases && Write(s, ok).links == s.links
  {
    hide Order, ContentOf;
  }

  lemma PublishExtends(s: State, ok: bool)
    ensures Extends(s, Publish(s, ok))
  {
    hide InstallLinks;
  }

  lemma SetLinksExtends(s: State, ok: bool)
    ensures Extends(s, SetLinks(s, ok))
  {}

  lemma AdvanceExtends(s: State, ok: bool)
    ensures Extends(s, Advance(s, ok))
  {
    hide Prepare, Write, Publish, SetLinks;
    PrepareExtends(s, ok);
    WriteExtends(s, ok);
    PublishExtends(s, ok);
    SetLinksExtends(s, ok);
  }

  lemma StepExtends(sha: Digest, s: State, e: Event)
    ensures Extends(s, Step(sha, s, e))
  {
    if e.Go? {
      hide Advance, Extends;
      AdvanceExtends(s, e.ok);
    } else {
      hide Version;
    }
  }

  /** No release is ever altered or removed, and a link that is set stays set. */
  lemma {:induction false} ReleasesAreImmutable(sha: Digest, start: State, es: seq<Event>, more: seq<Event>)
    ensures Extends(Run(sha, start, es), Run(sha, start, es + more))
    decreases |more|
  {
    hide Step;
    if more == [] {
      assert es + more == es;
    } else {
      ReleasesAreImmutable(sha, start, es, more[..|more| - 1]);
      RunConcat(sha, start, es, more);
      hide Run;
      StepExtends(sha, Run(sha, start, es + more[..|more| - 1]), more[|more| - 1]);
    }
  }

  // ---------------------------------------------------------------- runs of one process

  /** One process from its start on, whatever it meets; it may be killed. */
  ghost predicate OneProcess(kind: Kind, es: seq<Event>) {
    es != [] && es[0].Begin? && es[0].kind == kind && forall i | 0 < i < |es| :: !es[i].Begin?
  }

  /** Where the links are while a rollback that began with `links` is under way, and after it: where they
      were, or exchanged, or both on the release that was the previous one. */
  predicate RollingBack(links: Links, s: State) {
    var p, half, whole := s.process, Links(links.previous, links.previous), Links(links.previous, links.current);
    if p.stage.Nobody? then
      (s.links == links || s.links == half || s.links == whole) && (s.last.Succeeded? ==> s.links == whole)
    else
      && p.kind.Rollback? && SetsLinks(p.stage) && links.current.Some? && links.previous.Some? && s.last.Running?
      && var both := [(Current, links.previous.value), (Previous, links.current.value)];
         || (p.todo == both && s.links == links)
         || (p.todo == both[1..] && s.links == half)
         || (p.todo == [] && s.links == whole)
  }

  lemma RollbackBegins(sha: Digest, s: State, e: Event)
    requires s.process.stage.Nobody? && e.Begin? && e.kind.Rollback?
    ensures RollingBack(s.links, Step(sha, s, e))
  {}

  lemma RollbackLinksUp(links: Links, s: State, ok: bool)
    requires RollingBack(links, s) && SetsLinks(s.process.stage)
    ensures RollingBack(links, SetLinks(s, ok))
  {}

  lemma RollbackGoesOn(sha: Digest, links: Links, s: State, e: Event)
    requires RollingBack(links, s) && !e.Begin?
    ensures RollingBack(links, Step(sha, s, e))
  {
    if e.Go? && SetsLinks(s.process.stage) {
      hide RollingBack, SetLinks;
      RollbackLinksUp(links, s, e.ok);
    } else {
      hide SetLinks, Prepare, Write, Publish;
    }
  }

  /** At every moment of a rollback, killed or not, the links are in one of three places. */
  lemma {:induction false} RollbackRuns(sha: Digest, start: State, es: seq<Event>)
    requires start.process.stage.Nobody? && OneProcess(Rollback, es)
    ensures RollingBack(start.links, Run(sha, start, es))
  {
    hide Step, RollingBack;
    if |es| == 1 {
      assert es[..0] == [];
      RollbackBegins(sha, start, es[0]);
    } else {
      RollbackRuns(sha, start, es[..|es| - 1]);
      RollbackGoesOn(sha, start.links, Run(sha, start, es[..|es| - 1]), es[|es| - 1]);
    }
  }

  ghost predicate Completes(sha: Digest, kind: Kind, start: State, es: seq<Event>) {
    && OneProcess(kind, es)
    && Run(sha, start, es).process.stage.Nobody? && Run(sha, start, es).last.Succeeded?
  }

  /** A completed rollback exchanges the links. */
  lemma RollbackSwaps(sha: Digest, start: State, es: seq<Event>)
    requires start.process.stage.Nobody? && Completes(sha, Rollback, start, es)
    ensures Run(sha, start, es).links == Links(start.links.previous, start.links.current)
  {
    RollbackRuns(sha, start, es);
    hide Run;
  }

  /** Two completed rollbacks restore both links. */
  lemma TwoRollbacksRestore(sha: Digest, start: State, es: seq<Event>, again: seq<Event>)
    requires start.process.stage.Nobody?
    requires Completes(sha, Rollback, start, es) && Completes(sha, Rollback, Run(sha, start, es), again)
    ensures Run(sha, Run(sha, start, es), again).links == start.links
  {
    RollbackSwaps(sha, start, es);
    RollbackSwaps(sha, Run(sha, start, es), again);
  }

  /** Where the links are while an installation of `version` that began with `links` is under way, and
      after it. */
  predicate Installing(links: Links, version: string, s: State) {
    var p := s.process;
    var half := if links.current.Some? then Links(links.current, links.current) else links;
    var whole := Links(Some(version), half.previous);
    if p.stage.Nobody? then
      (s.links == links || s.links == half || s.links == whole) && (s.last.Succeeded? ==> s.links == whole)
    else
      && p.kind.Install? && p.manifest.version == version && s.last.Running?
      && if SetsLinks(p.stage) then
           || (p.todo == InstallLinks(links.current, version) && s.links == links)
           || (p.todo == [(Current, version)] && s.links == half)
           || (p.todo == [] && s.links == whole)
         else s.links == links && (p.stage.Making? || Stages(p.stage) ==> p.former == links.current)
  }

  lemma InstallBegins(sha: Digest, s: State, e: Event)
    requires s.process.stage.Nobody? && e.Begin? && e.kind.Install?
    ensures Installing(s.links, e.manifest.version, Step(sha, s, e))
  {
    hide Version;
  }

  lemma InstallWrites(links: Links, version: string, s: State, ok: bool)
    requires Installing(links, version, s) && s.process.stage.Tearing?
    ensures Installing(links, version, Write(s, ok))
  {
    hide Order, InstallLinks, ContentOf;
  }

  lemma InstallPublishes(links: Links, version: string, s: State, ok: bool)
    requires Installing(links, version, s) && (s.process.stage.Marking? || s.process.stage.Moving?)
    ensures Installing(links, version, Publish(s, ok))
  {
    hide InstallLinks;
  }

  lemma InstallFills(links: Links, version: string, s: State, ok: bool)
    requires Installing(links, version, s)
    requires var g := s.process.stage; g.Reading? || g.Reviewing? || g.Making? || g.Filling?
    ensures Installing(links, version, Prepare(s, ok))
  {
    hide Order, InstallLinks;
  }

  lemma InstallPrepares(links: Links, version: string, s: State, ok: bool)
    requires Installing(links, version, s) && !SetsLinks(s.process.stage)
    ensures Installing(links, version, Advance(s, ok))
  {
    var g := s.process.stage;
    if g.Cleaning? || g.Nobody? {
      hide InstallLinks;
    } else {
      hide Installing, Prepare, Write, Publish;
      if g.Tearing? {
        InstallWrites(links, version, s, ok);
      } else if g.Marking? || g.Moving? {
        InstallPublishes(links, version, s, ok);
      } else {
        InstallFills(links, version, s, ok);
      }
    }
  }

  lemma InstallLinksUp(links: Links, version: string, s: State, ok: bool)
    requires Installing(links, version, s) && SetsLinks(s.process.stage)
    ensures Installing(links, version, SetLinks(s, ok))
  {}

  lemma InstallGoesOn(sha: Digest, links: Links, version: string, s: State, e: Event)
    requires Installing(links, version, s) && !e.Begin?
    ensures Installing(links, version, Step(sha, s, e))
  {
    if e.Go? {
      hide Installing;
      if SetsLinks(s.process.stage) {
        InstallLinksUp(links, version, s, e.ok);
      } else {
        InstallPrepares(links, version, s, e.ok);
      }
    } else {
      hide InstallLinks;
    }
  }

  /** At every moment of an installation, killed or not, the links are in one of three places. */
  lemma {:induction false} InstallRuns(sha: Digest, start: State, es: seq<Event>)
    requires start.process.stage.Nobody? && OneProcess(Install, es)
    ensures Installing(start.links, es[0].manifest.version, Run(sha, start, es))
  {
    hide Step, Installing;
    if |es| == 1 {
      assert es[..0] == [];
      InstallBegins(sha, start, es[0]);
    } else {
      InstallRuns(sha, start, es[..|es| - 1]);
      InstallGoesOn(sha, start.links, es[0].manifest.version, Run(sha, start, es[..|es| - 1]), es[|es| - 1]);
    }
  }

  /** A completed installation selects its own version, complete and verified, and keeps what was
      selected before as the previous release. */
  lemma InstallActivates(sha: Digest, start: State, es: seq<Event>)
    requires Sound(sha, start) && start.process.stage.Nobody? && Completes(sha, Install, start, es)
    ensures
      var s, version := Run(sha, start, es), es[0].manifest.version;
      && s.links.current == Some(version)
      && s.links.previous == (if start.links.current.Some? then start.links.current else start.links.previous)
      && version in s.releases && Complete(sha, version, s.releases[version])
  {
    InstallRuns(sha, start, es);
    LinksAreComplete(sha, start, es);
    hide Run;
  }

  /** Installing and then rolling back selects the release that was selected before. */
  lemma RollbackUndoesInstall(sha: Digest, start: State, es: seq<Event>, back: seq<Event>)
    requires Sound(sha, start) && start.process.stage.Nobody? && start.links.current.Some?
    requires Completes(sha, Install, start, es) && Completes(sha, Rollback, Run(sha, start, es), back)
    ensures Run(sha, Run(sha, start, es), back).links == Links(start.links.current, Some(es[0].manifest.version))
  {
    InstallActivates(sha, start, es);
    RollbackSwaps(sha, Run(sha, start, es), back);
    hide Run;
  }

  // ---------------------------------------------------------------- temporary links left behind

  /** The process has made its temporary link for `link` and not yet moved or removed it. */
  predicate HasTemp(p: Process, link: Link, pid: nat) {
    (p.stage.Replacing? || p.stage.Unlinking?) && p.pid == pid && p.todo != [] && p.todo[0].0 == link
  }

  /** Event `i` kills a process between making its temporary link and moving it. */
  ghost predicate LeavesAt(sha: Digest, start: State, es: seq<Event>, i: nat, link: Link, pid: nat) {
    i < |es| && es[i].Crash? && HasTemp(Run(sha, start, es[..i]).process, link, pid)
  }

  ghost predicate Leaves(sha: Digest, start: State, es: seq<Event>, link: Link, pid: nat) {
    exists i: nat :: LeavesAt(sha, start, es, i, link, pid)
  }

  lemma LeavesSnoc(sha: Digest, start: State, es: seq<Event>, link: Link, pid: nat)
    requires es != []
    ensures
      var init := es[..|es| - 1];
      Leaves(sha, start, es, link, pid)
      <==> Leaves(sha, start, init, link, pid)
           || (es[|es| - 1].Crash? && HasTemp(Run(sha, start, init).process, link, pid))
  {
    hide Run, HasTemp;
    var init := es[..|es| - 1];
    forall i: nat | i < |init|
      ensures LeavesAt(sha, start, es, i, link, pid) <==> LeavesAt(sha, start, init, i, link, pid)
    {
      assert es[..i] == init[..i];
    }
    if Leaves(sha, start, es, link, pid) {
      var i: nat :| LeavesAt(sha, start, es, i, link, pid);
      assert i < |init| ==> LeavesAt(sha, start, init, i, link, pid);
    }
    if Leaves(sha, start, init, link, pid) {
      var i: nat :| LeavesAt(sha, start, init, i, link, pid);
      assert LeavesAt(sha, start, es, i, link, pid);
    }
    assert LeavesAt(sha, start, es, |init|, link, pid)
      <==> es[|es| - 1].Crash? && HasTemp(Run(sha, start, init).process, link, pid);
  }

  /** A process removes only the temporary link it made, and makes one only where there is none. */
  lemma SetLinksTemps(s: State, ok: bool, link: Link, pid: nat)
    ensures
      var t := SetLinks(s, ok);
      && (HasTemp(t.process, link, pid) ==>
            if HasTemp(s.process, link, pid) then (link, pid) in t.temps <==> (link, pid) in s.temps
            else (link, pid) !in s.temps && (link, pid) in t.temps)
      && (!HasTemp(t.process, link, pid) && !HasTemp(s.process, link, pid) && SetsLinks(s.process.stage) ==>
            ((link, pid) in t.temps <==> (link, pid) in s.temps))
      && (!HasTemp(t.process, link, pid) && HasTemp(s.process, link, pid) ==> (link, pid) !in t.temps)
  {}

  lemma PrepareTemps(s: State, ok: bool)
    requires !SetsLinks(s.process.stage)
    ensures Prepare(s, ok).temps == s.temps && !Prepare(s, ok).process.stage.Replacing?
    ensures !Prepare(s, ok).process.stage.Unlinking?
  {
    hide Order, Managed;
  }

  lemma WriteTemps(s: State, ok: bool)
    ensures
      var t := Write(s, ok);
      t.temps == s.temps && (t.process.stage.Filling? || t.process.stage.Cleaning?)
  {
    hide Order, ContentOf;
  }

  lemma PublishTemps(s: State, ok: bool)
    ensures
      var g := Publish(s, ok).process.stage;
      Publish(s, ok).temps == s.temps && (g.Cleaning? || g.Moving? || g.Linking?)
  {
    hide InstallLinks;
  }

  /** Only setting links touches temporary links. */
  lemma OtherTemps(sha: Digest, s: State, e: Event)
    requires !e.Go? || !SetsLinks(s.process.stage)
    ensures
      var t := Step(sha, s, e);
      && t.temps == s.temps
      && (SetsLinks(s.process.stage) ==> t.process == s.process || (e.Crash? && t.process.stage.Nobody?))
      && (!SetsLinks(s.process.stage) ==> !t.process.stage.Replacing? && !t.process.stage.Unlinking?)
  {
    hide Version, SetLinks, Managed;
    if e.Go? {
      hide Prepare, Write, Publish;
      var g := s.process.stage;
      if g.Tearing? {
        WriteTemps(s, e.ok);
      } else if g.Marking? || g.Moving? {
        PublishTemps(s, e.ok);
      } else if !g.Nobody? && !g.Cleaning? {
        PrepareTemps(s, e.ok);
      }
    }
  }

  lemma StepTemps(sha: Digest, s: State, e: Event, link: Link, pid: nat, left: bool)
    requires (link, pid) in s.temps <==> HasTemp(s.process, link, pid) || left
    requires !(HasTemp(s.process, link, pid) && left)
    ensures
      var t := Step(sha, s, e);
      var still := left || (e.Crash? && HasTemp(s.process, link, pid));
      && ((link, pid) in t.temps <==> HasTemp(t.process, link, pid) || still)
      && !(HasTemp(t.process, link, pid) && still)
  {
    if e.Go? && SetsLinks(s.process.stage) {
      hide SetLinks;
      SetLinksTemps(s, e.ok, link, pid);
    } else {
      OtherTemps(sha, s, e);
      hide Advance, Start, ReadFile, Exit;
      assert e.Crash? && !s.process.stage.Nobody? ==> Step(sha, s, e) == Exit(s, Failed);
      ExitTemps(s, link, pid);
    }
  }

  lemma ExitTemps(s: State, link: Link, pid: nat)
    ensures !HasTemp(Exit(s, Failed).process, link, pid)
  {}

  /** A temporary link is there exactly when its process is at work with it, or when it was there at the
      start or a process was killed with it; and then no process is at work with it. */
  lemma {:induction false} TempsIff(sha: Digest, start: State, es: seq<Event>, link: Link, pid: nat)
    requires start.process.stage.Nobody?
    ensures
      var t := Run(sha, start, es);
      var left := (link, pid) in start.temps || Leaves(sha, start, es, link, pid);
      && ((link, pid) in t.temps <==> HasTemp(t.process, link, pid) || left)
      && !(HasTemp(t.process, link, pid) && left)
  {
    if es == [] {
      hide Step;
    } else {
      var init, e := es[..|es| - 1], es[|es| - 1];
      var s := Run(sha, start, init);
      TempsIff(sha, start, init, link, pid);
      LeavesSnoc(sha, start, es, link, pid);
      hide Leaves, Step, HasTemp;
      StepTemps(sha, s, e, link, pid, (link, pid) in start.temps || Leaves(sha, start, init, link, pid));
    }
  }

  predicate Wants(todo: seq<(Link, string)>, link: Link) {
    exists i :: 0 <= i < |todo| && todo[i].0 == link
  }

  function Selected(links: Links, link: Link): Option<string> {
    if link.Current? then links.current else links.previous
  }

  /** The operation has to set `link`: only an installation over nothing leaves `previous` alone. */
  predicate Needs(kind: Kind, links: Links, link: Link) {
    link.Current? || kind.Rollback? || links.current.Some?
  }

  /** A process that finds the temporary link for `link` taken never gets past it. */
  ghost predicate Blocked(s: State, link: Link, pid: nat, target: Option<string>, needs: bool) {
    && (link, pid) in s.temps && Selected(s.links, link) == target
    && var p := s.process;
       if p.stage.Nobody? then needs ==> !s.last.Succeeded?
       else
         && p.pid == pid
         && (SetsLinks(p.stage) ==>
               && (Wants(p.todo, link) <==> needs)
               && (p.todo != [] && p.todo[0].0 == link ==> p.stage.Linking?))
  }

  lemma BlockedBegins(sha: Digest, s: State, e: Event, link: Link)
    requires s.process.stage.Nobody? && e.Begin? && (link, e.pid) in s.temps
    ensures Blocked(Step(sha, s, e), link, e.pid, Selected(s.links, link), Needs(e.kind, s.links, link))
  {
    hide Version, Managed;
    if e.kind.Rollback? && Step(sha, s, e).process.stage.Linking? {
      var todo := Step(sha, s, e).process.todo;
      assert todo[0].0 == Current && todo[1].0 == Previous;
    }
  }

  lemma InstallWants(former: Option<string>, version: string, link: Link)
    ensures Wants(InstallLinks(former, version), link) <==> link.Current? || former.Some?
  {
    var todo := InstallLinks(former, version);
    assert todo[|todo| - 1].0 == Current;
    assert former.Some? ==> todo[0].0 == Previous;
  }

  lemma BlockedPublishes(s: State, ok: bool, link: Link, pid: nat, target: Option<string>, needs: bool)
    requires Blocked(s, link, pid, target, needs) && (s.process.stage.Marking? || s.process.stage.Moving?)
    requires needs <==> link.Current? || s.process.former.Some?
    ensures Blocked(Publish(s, ok), link, pid, target, needs)
  {
    InstallWants(s.process.former, s.process.manifest.version, link);
    hide InstallLinks, Wants;
  }

  lemma WantsRest(todo: seq<(Link, string)>, link: Link)
    requires todo != []
    ensures Wants(todo, link) <==> todo[0].0 == link || Wants(todo[1..], link)
  {
    if i :| 0 <= i < |todo| && todo[i].0 == link {
      assert i > 0 ==> todo[1..][i - 1].0 == link;
    }
    if i :| 0 <= i < |todo[1..]| && todo[1..][i].0 == link {
      assert todo[i + 1].0 == link;
    }
  }

  lemma BlockedLinksUp(s: State, ok: bool, link: Link, pid: nat, target: Option<string>, needs: bool)
    requires Blocked(s, link, pid, target, needs) && SetsLinks(s.process.stage)
    ensures Blocked(SetLinks(s, ok), link, pid, target, needs)
  {
    var todo := s.process.todo;
    if todo == [] {
      assert !Wants(todo, link);
    } else {
      WantsRest(todo, link);
      WantsAtOnce(todo[1..], link);
      hide Wants;
    }
  }

  lemma WantsAtOnce(todo: seq<(Link, string)>, link: Link)
    ensures todo != [] && todo[0].0 == link ==> Wants(todo, link)
  {}

  lemma PrepareKeepsPid(s: State, ok: bool)
    requires var g := s.process.stage; g.Reading? || g.Reviewing? || g.Making? || g.Filling?
    ensures
      var t := Prepare(s, ok);
      && (t.process.stage.Nobody? ==> t.last.Failed?)
      && (!t.process.stage.Nobody? ==> t.process.pid == s.process.pid && !SetsLinks(t.process.stage))
  {
    hide Order, Managed;
  }

  lemma WriteKeepsPid(s: State, ok: bool)
    ensures Write(s, ok).process.pid == s.process.pid
  {
    hide Order, ContentOf;
  }

  lemma BlockedPrepares(s: State, ok: bool, link: Link, pid: nat, target: Option<string>, needs: bool)
    requires Blocked(s, link, pid, target, needs) && !SetsLinks(s.process.stage)
    requires var p := s.process; p.stage.Marking? || p.stage.Moving? ==> (needs <==> link.Current? || p.former.Some?)
    ensures Blocked(Advance(s, ok), link, pid, target, needs)
  {
    var g := s.process.stage;
    if g.Marking? || g.Moving? {
      hide Blocked, Publish;
      BlockedPublishes(s, ok, link, pid, target, needs);
    } else if g.Tearing? {
      WriteKeepsPid(s, ok);
      WriteExtends(s, ok);
      WriteTemps(s, ok);
      hide Write, Wants;
    } else if g.Nobody? || g.Cleaning? {
      hide Wants;
    } else {
      PrepareKeepsPid(s, ok);
      PrepareExtends(s, ok);
      PrepareTemps(s, ok);
      hide Prepare, Wants;
    }
  }

  lemma BlockedGoesOn(sha: Digest, s: State, e: Event, link: Link, pid: nat, target: Option<string>, needs: bool)
    requires Blocked(s, link, pid, target, needs) && !e.Begin?
    requires var p := s.process; p.stage.Marking? || p.stage.Moving? ==> (needs <==> link.Current? || p.former.Some?)
    ensures Blocked(Step(sha, s, e), link, pid, target, needs)
  {
    if e.Go? {
      if SetsLinks(s.process.stage) {
        hide Blocked, SetLinks;
        BlockedLinksUp(s, e.ok, link, pid, target, needs);
      } else {
        hide Blocked, Advance;
        BlockedPrepares(s, e.ok, link, pid, target, needs);
      }
    } else {
      hide Wants;
    }
  }

  /** What an installation remembers of the links it began with, and that a rollback prepares nothing. */
  lemma FormerIsRemembered(sha: Digest, kind: Kind, start: State, es: seq<Event>)
    requires start.process.stage.Nobody? && OneProcess(kind, es)
    ensures
      var p := Run(sha, start, es).process;
      p.stage.Marking? || p.stage.Moving? ==> kind.Install? && p.former == start.links.current
  {
    if kind.Install? {
      InstallRuns(sha, start, es);
    } else {
      RollbackRuns(sha, start, es);
    }
    hide Run, InstallLinks;
  }

  lemma {:induction false} BlockedRuns(sha: Digest, kind: Kind, start: State, es: seq<Event>, link: Link)
    requires start.process.stage.Nobody? && OneProcess(kind, es) && (link, es[0].pid) in start.temps
    ensures
      Blocked(Run(sha, start, es), link, es[0].pid, Selected(start.links, link), Needs(kind, start.links, link))
  {
    hide Step, Blocked, Selected;
    if |es| == 1 {
      assert es[..0] == [];
      BlockedBegins(sha, start, es[0], link);
    } else {
      var init := es[..|es| - 1];
      BlockedRuns(sha, kind, start, init, link);
      FormerIsRemembered(sha, kind, start, init);
      BlockedGoesOn(sha, Run(sha, start, init), es[|es| - 1], link, es[0].pid,
        Selected(start.links, link), Needs(kind, start.links, link));
    }
  }

  /** A process killed between making a temporary link and moving it blocks every later process of the same
      number that has to set that link: it never succeeds, the link stays as it is, and so does the
      leftover. */
  lemma LeftoverBlocks(sha: Digest, start: State, es: seq<Event>, kind: Kind, later: seq<Event>, link: Link)
    requires start.process.stage.Nobody? && Run(sha, start, es).process.stage.Nobody?
    requires OneProcess(kind, later) && Leaves(sha, start, es, link, later[0].pid)
    ensures
      var s, t := Run(sha, start, es), Run(sha, Run(sha, start, es), later);
      && Selected(t.links, link) == Selected(s.links, link) && (link, later[0].pid) in t.temps
      && (Needs(kind, s.links, link) ==> !Completes(sha, kind, s, later))
  {
    TempsIff(sha, start, es, link, later[0].pid);
    BlockedRuns(sha, kind, Run(sha, start, es), later, link);
    hide Run, Leaves, Selected, Needs, Wants;
  }
}
