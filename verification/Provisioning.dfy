/**
  Repository provisioning of a Codebase: the PutProject write-ahead protocol, the two later handlers
  that push on top of it, and the controller loop that persists whatever status is left in memory.

  The persisted world is the Codebase status in the API server (Git and its resourceVersion) and the
  remote repository. Every call may fail, lose its answer or be the last thing the process does.
*/
module Provisioning {
  import opened Calls
  import WorkingCopy
  import RemoteRefs

  datatype Git = NotStarted | PushInProgress | Pushed | GitLabCIPushed | TemplatesPushed

  function Rank(g: Git): nat {
    match g
    case NotStarted => 0
    case PushInProgress => 1
    case Pushed => 2
    case GitLabCIPushed => 3
    case TemplatesPushed => 4
  }

  /** The fields of the Codebase (and of its GitServer) the handlers branch on: whether its strategy is
      import, the project that is generated or cloned for the other strategies, and whether the provider
      implements setting a default branch. */
  datatype Spec = Spec(
    imported: bool, project: WorkingCopy.Project, tekton: bool, gitLabCI: bool, putTemplates: bool,
    headSupported: bool)

  datatype Writer = Operator | Outsider

  /** What the later handlers add to the project: the GitLab CI configuration and the deploy templates. */
  datatype File = Config | Templates

  /** A commit, and whether its tree holds what the later handlers write. */
  datatype Commit = Commit(id: nat, config: bool, templates: bool) {
    predicate Holds(f: File) {
      if f.Config? then config else templates
    }

    /** The commit that adds a file on top of this one. */
    function Adding(f: File, next: nat): Commit {
      Commit(next, config || f.Config?, templates || f.Templates?)
    }
  }

  /** Some commit of a history holds the file, its tip does. */
  predicate Carries(commits: seq<Commit>, f: File) {
    exists i :: 0 <= i < |commits| && commits[i].Holds(f)
  }

  predicate TipHolds(commits: seq<Commit>, f: File) {
    commits != [] && commits[|commits| - 1].Holds(f)
  }

  /** Writing a file that the tip does not hold takes one commit on top of it; otherwise there is nothing to
      commit. */
  predicate ToppedUp(before: seq<Commit>, after: seq<Commit>, f: File) {
    if TipHolds(before, f) then after == before
    else
      && |after| == |before| + 1 && before <= after && TipHolds(after, f)
      && forall other :: other != f ==> (TipHolds(after, other) <==> TipHolds(before, other))
  }

  /** The number of commits that writing the files owed takes. */
  function Missing(commits: seq<Commit>, config: bool, templates: bool): nat {
    (if config && !TipHolds(commits, Config) then 1 else 0) +
    (if templates && !TipHolds(commits, Templates) then 1 else 0)
  }

  /** The history once the file is written and committed; `next` is the id of the commit, if there is one. */
  function WithFile(commits: seq<Commit>, f: File, next: nat): seq<Commit> {
    if TipHolds(commits, f) then commits
    else
      var tip := if commits == [] then Commit(0, false, false) else commits[|commits| - 1];
      commits + [tip.Adding(f, next)]
  }

  lemma WithFileIsRight(commits: seq<Commit>, f: File, next: nat)
    ensures var after := WithFile(commits, f, next);
      && commits <= after && ToppedUp(commits, after, f) && TipHolds(after, f)
      && forall other :: Carries(commits, other) || other == f ==> Carries(after, other)
  {
    CarriesOn(commits, WithFile(commits, f, next));
  }

  lemma CarriesOn(before: seq<Commit>, after: seq<Commit>)
    requires before <= after
    ensures forall f :: Carries(before, f) ==> Carries(after, f)
    ensures forall f :: TipHolds(after, f) ==> Carries(after, f)
  {
    forall f | Carries(before, f) ensures Carries(after, f) {
      var i :| 0 <= i < |before| && before[i].Holds(f);
      assert after[i].Holds(f);
    }
  }

  /** The default branch of the remote: who created it, and its commits from the root to the tip. */
  datatype Branch = Branch(creator: Writer, commits: seq<Commit>)

  /** The remote: whether the project exists, its default branch, the names of its other branches and of
      its tags, and the branch its HEAD names, which need not exist. */
  datatype Host = Host(project: bool, branch: Option<Branch>, others: set<string>, tags: set<string>, head: string)

  /** History variables: `headSet`: setting the default branch has succeeded once; `verified`: the current
      attempt has found the default branch absent; `misled`: another name was adopted for it; `losses`:
      pushes that replaced commits of the default branch; `races`: pushes to it by others while the
      operator held a working copy; `moves`: how often HEAD was moved. */
  datatype Past = Past(headSet: bool, verified: bool, misled: bool, losses: nat, races: nat, moves: nat)

  /** Everything that survives a crash. */
  datatype World = World(git: Git, version: nat, host: Host, past: Past)

  predicate Provisioned(spec: Spec) {
    !spec.imported
  }

  function StrategyOf(spec: Spec): WorkingCopy.Strategy {
    if spec.imported then WorkingCopy.Import else spec.project.Kind()
  }

  /** The default branch can be checked out in what is generated or cloned for the project. */
  predicate CanCheckOut(spec: Spec) {
    spec.project.Valid() && WorkingCopy.PushedHeads(spec.project).Some?
  }

  // ---------- what the remote shows ----------

  function Names(spec: Spec, h: Host): set<string> {
    (h.others - {spec.project.branch}) + if h.branch.Some? then {spec.project.branch} else {}
  }

  /** What the remote advertises; the ids do not matter here. */
  function Advertised(spec: Spec, h: Host): RemoteRefs.Advertisement {
    RemoteRefs.Advertisement(
      None,
      (map b | b in Names(spec, h) :: RemoteRefs.BranchRef(b) := "")
        + (map t | t in h.tags :: RemoteRefs.TagRef(t) := ""),
      map[])
  }

  /** A name other than that of a branch that resolves like one: the default branch is called like a tag,
      or like a full hash in a repository that is not empty. */
  predicate Shadowed(spec: Spec, h: Host) {
    spec.project.branch in h.tags ||
    (RemoteRefs.IsFullHash(spec.project.branch) && (Names(spec, h) != {} || h.tags != {}))
  }

  /** What the operator takes for the absence of the default branch. */
  predicate Absent(spec: Spec, h: Host) {
    h.branch.None? && !Shadowed(spec, h)
  }

  /** The default branch is missing, but it does not look so. */
  predicate Hidden(spec: Spec, h: Host) {
    h.branch.None? && Shadowed(spec, h)
  }

  lemma RefNames(a: string, b: string)
    ensures RemoteRefs.BranchRef(a) == RemoteRefs.BranchRef(b) ==> a == b
    ensures RemoteRefs.TagRef(a) == RemoteRefs.TagRef(b) ==> a == b
    ensures RemoteRefs.BranchRef(a) != RemoteRefs.TagRef(b)
  {
    assert RemoteRefs.BranchRef(a)[11..] == a && RemoteRefs.BranchRef(b)[11..] == b;
    assert RemoteRefs.TagRef(a)[10..] == a && RemoteRefs.TagRef(b)[10..] == b;
    assert RemoteRefs.BranchRef(a)[5] == 'h' && RemoteRefs.TagRef(b)[5] == 't';
  }

  lemma WhatIsAdvertised(spec: Spec, h: Host, name: string)
    ensures RemoteRefs.BranchRef(name) in Advertised(spec, h).refs <==> name in Names(spec, h)
    ensures RemoteRefs.TagRef(name) in Advertised(spec, h).refs <==> name in h.tags
    ensures Advertised(spec, h).refs == map[] <==> Names(spec, h) == {} && h.tags == {}
  {
    var refs := Advertised(spec, h).refs;
    forall other
      ensures RemoteRefs.BranchRef(name) == RemoteRefs.BranchRef(other) ==> name == other
      ensures RemoteRefs.TagRef(name) == RemoteRefs.TagRef(other) ==> name == other
      ensures RemoteRefs.BranchRef(name) != RemoteRefs.TagRef(other)
      ensures RemoteRefs.TagRef(name) != RemoteRefs.BranchRef(other)
    {
      RefNames(name, other);
      RefNames(other, name);
    }
    if n :| n in Names(spec, h) {
      assert RemoteRefs.BranchRef(n) in refs;
    } else if t :| t in h.tags {
      assert RemoteRefs.TagRef(t) in refs;
    }
  }

  /** The reference resolution the operator relies on finds nothing, in an empty repository or in one that
      is not, exactly when the default branch is absent and no other name hides that. */
  lemma AbsenceIsExact(spec: Spec, h: Host)
    requires spec.project.branch != ""
    ensures Absent(spec, h) <==>
      Advertised(spec, h).refs == map[] || RemoteRefs.Resolve(Advertised(spec, h), spec.project.branch).None?
  {
    WhatIsAdvertised(spec, h, spec.project.branch);
    RemoteRefs.ResolveIsExact(Advertised(spec, h), spec.project.branch);
  }

  /** HEAD names a branch that exists. */
  predicate HeadExists(spec: Spec, h: Host) {
    if h.head == spec.project.branch then h.branch.Some? else h.head in h.others
  }

  /** Without a work directory, the project can be cloned and its default branch checked out: HEAD has to
      name a branch, and a default branch that it does not name has to be new for create and to exist for import. */
  predicate CanPrepare(spec: Spec, h: Host) {
    && h.project && HeadExists(spec, h)
    && (h.head == spec.project.branch ||
        (if spec.imported then h.branch.Some? else spec.project.clone || h.branch.None?))
  }

  lemma CanPrepareIsExact(spec: Spec, h: Host)
    ensures CanPrepare(spec, h) <==>
      h.project && WorkingCopy.ClonesTo(Names(spec, h), h.head, spec.project.branch, StrategyOf(spec))
  {
  }

  // ---------- the protocol ----------

  /** From the verified absence to the end of that attempt, and as long as an intent is recorded, nobody
      but the operator creates the default branch. At any other time anybody may. */
  predicate Reserved(spec: Spec, w: World) {
    Provisioned(spec) && (w.past.verified || w.git != NotStarted)
  }

  predicate OwnedByOutsider(w: World) {
    w.host.branch.Some? && w.host.branch.value.creator == Outsider
  }

  /** What a Git status says of a history: the configuration, and the templates on top of it, have been
      committed to it. */
  predicate Content(spec: Spec, g: Git, commits: seq<Commit>) {
    && (g == GitLabCIPushed ==> Carries(commits, Config))
    && (g == TemplatesPushed ==> Carries(commits, Templates) && (spec.gitLabCI ==> Carries(commits, Config)))
  }

  predicate Delivers(spec: Spec, b: Option<Branch>, g: Git) {
    Rank(g) > Rank(Pushed) ==> b.Some? && Content(spec, g, b.value.commits)
  }

  /** A Git status may be believed: an intent means that a default branch can only be the operator's, and
      `pushed` or later that its set-up succeeded and that it is there, unless the operator was misled; what
      is said to be pushed on top of it is part of its history. */
  predicate Justified(spec: Spec, w: World, g: Git) {
    && Delivers(spec, w.host.branch, g)
    && (Provisioned(spec) ==>
      && (Rank(g) >= Rank(PushInProgress) ==> Reserved(spec, w) && !OwnedByOutsider(w) && CanCheckOut(spec))
      && (Rank(g) >= Rank(Pushed) ==>
            (w.host.branch.Some? || w.past.misled) && (w.past.headSet || !spec.headSupported)))
  }

  /** The protocol's invariant over the persisted world. */
  predicate Sound(spec: Spec, w: World) {
    && Justified(spec, w, w.git)
    && (w.host.branch.Some? ==> w.host.project)
    && (w.past.verified ==> Provisioned(spec) && CanCheckOut(spec) && !OwnedByOutsider(w))
    && (w.host.branch.Some? && w.host.branch.value.creator == Operator ==>
          Provisioned(spec) && Rank(w.git) >= Rank(PushInProgress))
    && (w.past.misled ==> Provisioned(spec) && !spec.headSupported && w.git != NotStarted)
  }

  /** What any stretch of attempts, outsiders' writes, failures and crashes may do to the world. */
  predicate Evolves(w: World, x: World) {
    && Rank(w.git) <= Rank(x.git)
    && w.version <= x.version
    && (w.host.project ==> x.host.project)
    && (w.past.headSet ==> x.past.headSet) && (w.past.misled ==> x.past.misled)
    && w.past.losses <= x.past.losses && w.past.races <= x.past.races && w.past.moves <= x.past.moves
    && (x.past.moves == w.past.moves ==> x.host.head == w.host.head)
    && (w.host.branch.Some? ==>
          && x.host.branch.Some?
          && x.host.branch.value.creator == w.host.branch.value.creator
          && (x.past.losses == w.past.losses ==> w.host.branch.value.commits <= x.host.branch.value.commits))
  }

  lemma EvolvesOn(w: World, x: World, y: World)
    requires Evolves(w, x) && Evolves(x, y)
    ensures Evolves(w, y)
  {
  }

  /** No commit is lost. */
  predicate Grows(w: World, x: World) {
    Evolves(w, x) && x.past.losses == w.past.losses
  }

  /** And nothing is adopted. */
  predicate Keeps(w: World, x: World) {
    Grows(w, x) && x.past.misled == w.past.misled
  }

  /** An intent without a recorded push is taken for a push that landed. */
  predicate Adopts(spec: Spec, w: World) {
    Provisioned(spec) && w.git == PushInProgress && !Absent(spec, w.host)
  }

  /** The situations in which an undisturbed attempt gives up in PutProject: a default branch, or a name
      that looks like it, of which it has no record; a default branch that it cannot check out; and a name
      that it adopted and cannot make the default branch. */
  predicate Refuses(spec: Spec, w: World) {
    Provisioned(spec) &&
    ((w.git == NotStarted && (!Absent(spec, w.host) || !CanCheckOut(spec)))
     || (w.git == PushInProgress && Hidden(spec, w.host) && spec.headSupported))
  }

  /** A later handler still has something to push. */
  predicate Owes(spec: Spec, g: Git) {
    OwesConfig(spec, g) || OwesTemplates(spec, g)
  }

  predicate OwesConfig(spec: Spec, g: Git) {
    spec.gitLabCI && Rank(g) < Rank(GitLabCIPushed)
  }

  predicate OwesTemplates(spec: Spec, g: Git) {
    spec.putTemplates && Rank(g) < Rank(TemplatesPushed)
  }

  /** PutProject leaves no work directory behind. */
  predicate NeedsClone(spec: Spec, w: World) {
    spec.imported || Rank(w.git) >= Rank(Pushed) || Adopts(spec, w)
  }

  /** The situation in which an undisturbed attempt gives up after PutProject: it has to clone for a later
      push, and that fails. Adopting does not help unless it makes HEAD name the default branch. */
  predicate Stuck(spec: Spec, w: World) {
    && NeedsClone(spec, w) && Owes(spec, w.git) && !CanPrepare(spec, w.host)
    && !(Adopts(spec, w) && spec.headSupported)
  }

  /** A clone of the remote cannot serve a later handler: the default branch is there, HEAD names another,
      and under the create strategy the checkout insists on creating it. */
  predicate Blocked(spec: Spec, w: World) {
    Provisioned(spec) && !spec.project.clone && w.host.branch.Some? && w.host.head != spec.project.branch
  }

  /** The exact condition, where HEAD names an existing branch and the default branch exists. */
  lemma WhenStuck(spec: Spec, w: World)
    requires w.host.branch.Some? && w.host.project && HeadExists(spec, w.host)
    requires NeedsClone(spec, w) && Owes(spec, w.git) && !(Adopts(spec, w) && spec.headSupported)
    ensures Stuck(spec, w) <==> !spec.imported && !spec.project.clone && w.host.head != spec.project.branch
  {
  }

  /** A world but for what comes and goes with every attempt. */
  function Essence(w: World): World {
    w.(version := 0, past := w.past.(verified := false))
  }

  /** The tip of the default branch holds the files owed. */
  predicate Committed(w: World, x: World, config: bool, templates: bool) {
    && (config || templates ==> x.host.branch.Some?)
    && (config ==> TipHolds(x.host.branch.value.commits, Config))
    && (templates ==> TipHolds(x.host.branch.value.commits, Templates))
  }

  /** On top of what was there, and with nothing else. */
  predicate Counted(w: World, x: World, config: bool, templates: bool) {
    w.host.branch.Some? ==>
      && x.host.branch.Some?
      && |x.host.branch.value.commits| ==
         |w.host.branch.value.commits| + Missing(w.host.branch.value.commits, config, templates)
  }

  /** The result an attempt owes: everything the specification asks for, reached from whatever the earlier
      attempts left behind, and nothing done twice. */
  predicate Finished(spec: Spec, w: World, x: World) {
    && Grows(w, x)
    && (Provisioned(spec) ==> Rank(x.git) >= Rank(Pushed))
    && (Provisioned(spec) ==> (x.host.branch.Some? || x.past.misled) && (x.past.headSet || !spec.headSupported))
    && (spec.putTemplates ==> x.git == TemplatesPushed)
    && (!spec.gitLabCI && !spec.putTemplates ==>
          x.git == if Provisioned(spec) && Rank(w.git) < Rank(Pushed) then Pushed else w.git)
    && (NeedsClone(spec, w) && !Owes(spec, w.git) ==> x.host.branch == w.host.branch)
    && Committed(w, x, OwesConfig(spec, w.git), OwesTemplates(spec, w.git))
    && (NeedsClone(spec, w) ==> Counted(w, x, OwesConfig(spec, w.git), OwesTemplates(spec, w.git)))
    && (w.git == TemplatesPushed ==> x == w)
  }

  /** What an undisturbed PutProject leaves: when it gives up, everything as it was; when there was
      nothing to generate, no work directory and the remote as it was, but for the HEAD it sets. */
  predicate Tried(spec: Spec, w: World, x: World, work: Option<Work>, r: Reply) {
    && (r == Ok <==> !Refuses(spec, w))
    && (r != Ok ==>
          r == Err && x.git == w.git && x.host.branch == w.host.branch && x.host.head == w.host.head)
    && (r == Ok && !NeedsClone(spec, w) ==>
          && work.Some? && x.host.branch.Some?
          && (!spec.headSupported && HeadExists(spec, w.host) ==> x.host.head == w.host.head))
    && (r == Ok && NeedsClone(spec, w) ==>
          && work.None?
          && x.host == if Adopts(spec, w) && spec.headSupported then w.host.(head := spec.project.branch) else w.host)
    && (r == Ok ==> x.git == if spec.imported || Rank(w.git) >= Rank(Pushed) then w.git else Pushed)
    && (spec.imported || Rank(w.git) >= Rank(Pushed) ==> x == w)
    && Grows(w, x)
  }

  /** What the later handlers make of that, undisturbed: they fail exactly when a push is owed for which
      they have to clone and cannot. */
  predicate Served(
    spec: Spec, config: bool, templates: bool, w: World, work: Option<Work>, x: World, r: Reply)
  {
    && (r == Ok <==> work.Some? || !(config || templates) || CanPrepare(spec, w.host))
    && (r != Ok ==> r == Err && x == w)
    && (r == Ok ==> Delivered(spec, config, templates, w, x))
    && (!(config || templates) ==> x.host.branch == w.host.branch)
  }

  predicate Delivered(spec: Spec, config: bool, templates: bool, w: World, x: World) {
    && Grows(w, x)
    && (spec.putTemplates ==> x.git == TemplatesPushed)
    && (!spec.gitLabCI && !spec.putTemplates ==> x.git == w.git)
    && (w.git == TemplatesPushed ==> x == w)
    && Committed(w, x, config, templates) && Counted(w, x, config, templates)
  }

  /** What PutGitLabCIConfig makes of it, undisturbed. A file that is in the work directory is not pushed
      again, nor is its push recorded. */
  predicate Configured(
    spec: Spec, w: World, work: Option<Work>, x: World, after: Option<Work>, r: Reply)
  {
    if OwesConfig(spec, w.git) then
      && (r == Ok <==> work.Some? || CanPrepare(spec, w.host))
      && (r != Ok ==> r == Err && x == w)
      && (r == Ok ==> after.Some? && x.host.branch.Some? && TipHolds(x.host.branch.value.commits, Config))
      && (r == Ok && work.Some? && TipHolds(work.value.commits, Config) ==> x == w && after == work)
      && (r == Ok && !(work.Some? && TipHolds(work.value.commits, Config)) ==>
            && Grows(w, x) && x.git == GitLabCIPushed
            && (w.host.branch.Some? ==>
                  ToppedUp(w.host.branch.value.commits, x.host.branch.value.commits, Config)))
    else
      r == Ok && x == w && after == work
  }

  lemma ConfiguredThenServed(
    spec: Spec, w: World, work: Option<Work>, m: World, after: Option<Work>, x: World, r: Reply)
    requires Configured(spec, w, work, m, after, Ok)
    requires Served(spec, false, OwesTemplates(spec, m.git), m, after, x, r)
    requires OwesConfig(spec, w.git) && r == Ok && OwesTemplates(spec, m.git) ==>
      ToppedUp(m.host.branch.value.commits, x.host.branch.value.commits, Templates)
    ensures Served(spec, OwesConfig(spec, w.git), OwesTemplates(spec, w.git), w, work, x, r)
  {
  }

  lemma Conclude(spec: Spec, w: World, m: World, work: Option<Work>, x: World, r: Reply)
    requires Justified(spec, m, m.git) && Justified(spec, x, x.git)
    requires Provisioned(spec) ==> Rank(m.git) >= Rank(Pushed)
    requires m.host.branch.Some? ==> m.host.project
    requires Tried(spec, w, m, work, Ok)
    requires Served(spec, OwesConfig(spec, m.git), OwesTemplates(spec, m.git), m, work, x, r)
    ensures Concluded(spec, w, x, r)
  {
  }

  /** How an undisturbed attempt ends: it refuses and leaves the remote alone, it is stuck but past
      PutProject, or it finishes. */
  predicate Concluded(spec: Spec, w: World, x: World, r: Reply) {
    if Refuses(spec, w) then
      r == Err && x.git == w.git && x.host.branch == w.host.branch && x.host.head == w.host.head
    else if Stuck(spec, w) then
      && r == Err && x.host.branch == w.host.branch && x.host.head == w.host.head
      && x.git == if Adopts(spec, w) then Pushed else w.git
    else
      r == Ok && Finished(spec, w, x)
  }

  /** A blocked clone is all that is left to push from. */
  predicate Wedged(spec: Spec, w: World) {
    Blocked(spec, w) && Owes(spec, w.git) && Rank(w.git) >= Rank(PushInProgress)
  }

  /** What others may do to the world while the operator waits: bump the object's version, change tags,
      HEAD and other branches, create the default branch unless it is reserved, or commit on top of it;
      `held` says that the operator holds a working copy. */
  predicate OutsidersStep(spec: Spec, held: bool, w: World, x: World) {
    && x == w.(
         version := x.version, host := x.host,
         past := w.past.(races := x.past.races, moves := x.past.moves))
    && w.version <= x.version
    && (w.host.project ==> x.host.project)
    && w.past.races <= x.past.races && (!held ==> x.past.races == w.past.races)
    && w.past.moves <= x.past.moves && (x.past.moves == w.past.moves ==> x.host.head == w.host.head)
    && (w.host.branch.None? && x.host.branch.Some? ==> !Reserved(spec, w) && OwnedByOutsider(x) && x.host.project)
    && (w.host.branch.Some? ==>
          && x.host.branch.Some?
          && x.host.branch.value.creator == w.host.branch.value.creator
          && w.host.branch.value.commits <= x.host.branch.value.commits
          && (held && x.past.races == w.past.races ==> x.host.branch == w.host.branch))
  }

  lemma OutsidersStepKeeps(spec: Spec, held: bool, w: World, x: World, g: Git)
    requires Sound(spec, w) && OutsidersStep(spec, held, w, x)
    ensures Sound(spec, x) && Keeps(w, x)
    ensures Justified(spec, w, g) ==> Justified(spec, x, g)
  {
    if w.host.branch.Some? {
      CarriesOn(w.host.branch.value.commits, x.host.branch.value.commits);
    }
  }

  /** The remote default branch after a push of `commits`. The tip is not replaced only when go-git can
      see that it is part of the working copy; otherwise it is replaced without a word. */
  function AfterPush(remote: Option<Branch>, commits: seq<Commit>): Branch {
    Branch(if remote.Some? then remote.value.creator else Operator, commits)
  }

  /** A push to an existing branch keeps its commits exactly when the working copy contains its tip. */
  predicate Contains(commits: seq<Commit>, remote: Option<Branch>) {
    remote.Some? ==> remote.value.commits <= commits
  }

  /** The work directory of an attempt: the commits of its default branch, and its branches. */
  datatype Work = Work(commits: seq<Commit>, heads: set<string>)

  /** The world once HEAD names the default branch. */
  function HeadSet(spec: Spec, w: World): World {
    w.(host := w.host.(head := spec.project.branch), past := w.past.(headSet := true, moves := w.past.moves + 1))
  }

  lemma HeadSetKeeps(spec: Spec, w: World, g: Git)
    requires Sound(spec, w)
    ensures Sound(spec, HeadSet(spec, w)) && Keeps(w, HeadSet(spec, w))
    ensures Justified(spec, w, g) ==> Justified(spec, HeadSet(spec, w), g)
  {
  }

  /** The world once a push has landed. The host may point a HEAD that names no branch at one that was
      pushed. */
  function Landed(spec: Spec, w: World, work: Work, pointed: string): World {
    var host := w.host.(branch := Some(AfterPush(w.host.branch, work.commits)), others := w.host.others + work.heads);
    var past := if Contains(work.commits, w.host.branch) then w.past else w.past.(losses := w.past.losses + 1);
    var x := w.(host := host, past := past);
    if !HeadExists(spec, x.host) && pointed in work.heads then
      x.(host := host.(head := pointed), past := past.(moves := past.moves + 1))
    else x
  }

  lemma LandedKeeps(spec: Spec, w: World, work: Work, pointed: string, g: Git)
    requires Sound(spec, w) && w.host.project
    requires w.host.branch.None? ==> Provisioned(spec) && Rank(w.git) >= Rank(PushInProgress)
    requires Content(spec, w.git, work.commits) && Content(spec, g, work.commits)
    ensures var x := Landed(spec, w, work, pointed);
      && Sound(spec, x) && Evolves(w, x)
      && (Justified(spec, w, g) ==> Justified(spec, x, g))
      && (HeadExists(spec, w.host) ==> x.host.head == w.host.head)
  {
  }

  /** What is pushed for a project: the tip is the one that WorkingCopy computes for the default branch, and
      a history the operator writes is one commit. */
  ghost predicate GeneratedFrom(spec: Spec, commits: seq<Commit>, first: nat) {
    var p := spec.project.(first := first);
    && p.Valid() && WorkingCopy.PushedHeads(p).Some?
    && commits != [] && commits[|commits| - 1].id == WorkingCopy.PushedHeads(p).value[p.branch]
    && (p.OwnHistory() ==> |commits| == 1 && commits[0].id == first)
  }

  ghost predicate Generated(spec: Spec, commits: seq<Commit>) {
    exists first :: GeneratedFrom(spec, commits, first)
  }

  /** A history made for the project. */
  method Generate(spec: Spec) returns (work: Work)
    requires CanCheckOut(spec)
    ensures Generated(spec, work.commits)
  {
    var first: nat, earlier: seq<Commit>, config: bool, templates: bool := *, *, *, *;
    var p := spec.project.(first := first);
    var heads := WorkingCopy.PushedHeads(p).value;
    WorkingCopy.PushedHeadsAreRight(p);
    var commits := (if p.OwnHistory() then [] else earlier) + [Commit(heads[p.branch], config, templates)];
    work := Work(commits, heads.Keys);
    assert GeneratedFrom(spec, commits, first);
  }

  method LooksAbsent(spec: Spec, h: Host) returns (absent: bool)
    requires spec.project.branch != ""
    ensures absent == Absent(spec, h)
  {
    var seen := Advertised(spec, h);
    absent := seen.refs == map[] || RemoteRefs.Resolve(seen, spec.project.branch).None?;
    AbsenceIsExact(spec, h);
  }

  /** The operator's copy is at least as advanced as the persisted status, and believable. */
  ghost predicate FreshCopy(spec: Spec, w: World, git: Git, version: nat, disturbed: bool) {
    && Rank(git) >= Rank(w.git)
    && Justified(spec, w, git)
    && version <= w.version
    && (!disturbed ==> version == w.version && git == w.git)
  }

  /** What holds throughout an attempt. A copy older than the persisted object may say anything;
      optimistic concurrency keeps it from being written. */
  ghost predicate RunningCopy(
    spec: Spec, w: World, git: Git, version: nat, startRaces: nat, disturbed: bool)
  {
    && Sound(spec, w)
    && version <= w.version
    && (version == w.version ==> FreshCopy(spec, w, git, version, disturbed))
    && startRaces <= w.past.races
    && (!disturbed ==> FreshCopy(spec, w, git, version, disturbed) && w.past.races == startRaces)
  }

  lemma OthersKeepCopy(
    spec: Spec, held: bool, w: World, x: World, git: Git, version: nat, startRaces: nat, disturbed: bool)
    requires Sound(spec, w) && OutsidersStep(spec, held, w, x)
    ensures FreshCopy(spec, w, git, version, disturbed) ==> FreshCopy(spec, x, git, version, true)
    ensures RunningCopy(spec, w, git, version, startRaces, disturbed) ==>
      RunningCopy(spec, x, git, version, startRaces, true)
  {
    OutsidersStepKeeps(spec, held, w, x, git);
  }

  class Provisioner {
    const spec: Spec

    // The API server and the remote.
    var world: World

    // Lost in a crash: the operator's copy of the Codebase, and the work directory of this attempt.
    var memGit: Git
    var memVersion: nat
    var workdir: Option<Work>

    // History variables: something other than success happened since the attempt began, and the number
    // of races up to that point.
    ghost var disturbed: bool
    ghost var startRaces: nat

    /** Somebody committed to the remote branch while this attempt held a working copy. */
    ghost predicate Raced()
      reads this
    {
      world.past.races > startRaces
    }

    ghost predicate Fresh()
      reads this
    {
      FreshCopy(spec, world, memGit, memVersion, disturbed)
    }

    ghost predicate Running()
      reads this
    {
      RunningCopy(spec, world, memGit, memVersion, startRaces, disturbed)
    }

    /** A work directory, when there is one and there was no race, holds exactly what the remote branch
        holds; only after a misled adoption can there be one without the other. */
    ghost predicate Synced()
      reads this
    {
      workdir.Some? ==>
        && world.host.project
        && (world.host.branch.None? ==> world.past.misled && Rank(world.git) >= Rank(Pushed))
        && (world.host.branch.Some? && !Raced() ==> world.host.branch.value.commits == workdir.value.commits)
        && Content(spec, world.git, workdir.value.commits)
    }

    constructor (
      spec: Spec, remote: Option<Branch>, others: set<string>, tags: set<string>, head: string)
      requires remote.Some? ==> remote.value.creator == Outsider
      ensures this.spec == spec && Sound(spec, world)
      ensures world == World(
        NotStarted, 0, Host(remote.Some?, remote, others, tags, head), Past(false, false, false, 0, 0, 0))
    {
      this.spec := spec;
      this.world := World(
        NotStarted, 0, Host(remote.Some?, remote, others, tags, head), Past(false, false, false, 0, 0, 0));
      this.memGit, this.memVersion, this.workdir := NotStarted, 0, None;
      this.disturbed, this.startRaces := false, 0;
    }

    /** Others may do anything to the world that OutsidersStep allows. */
    method Others()
      requires Sound(spec, world)
      modifies this`world, this`disturbed
      ensures Sound(spec, world) && OutsidersStep(spec, workdir.Some?, old(world), world)
      ensures Keeps(old(world), world)
      ensures (old(Running()) ==> Running()) && (old(Fresh()) ==> Fresh())
      ensures disturbed
    {
      var theirs: World := *;
      if !OutsidersStep(spec, workdir.Some?, world, theirs) {
        theirs := world;
      }
      OutsidersStepKeeps(spec, workdir.Some?, world, theirs, memGit);
      OthersKeepCopy(spec, workdir.Some?, world, theirs, memGit, memVersion, startRaces, disturbed);
      world, disturbed := theirs, true;
    }

    /** A call out of the operator: others act or not, and it ends in one of its ways. */
    method Call() returns (o: Outcome)
      requires Sound(spec, world)
      modifies this`world, this`disturbed
      ensures Sound(spec, world) && OutsidersStep(spec, workdir.Some?, old(world), world)
      ensures Keeps(old(world), world)
      ensures (old(Running()) ==> Running()) && (old(Fresh()) ==> Fresh())
      ensures old(disturbed) ==> disturbed
      ensures !disturbed ==> o == Done && world == old(world)
    {
      o := *;
      if * {
        Others();
      } else {
        OthersKeepCopy(spec, workdir.Some?, world, world, memGit, memVersion, startRaces, disturbed);
        disturbed := disturbed || o != Done;
      }
    }

    /** A call that reads, or writes nothing modelled here. */
    method Read() returns (r: Reply)
      requires Running()
      modifies this`world, this`disturbed
      ensures Running() && Keeps(old(world), world)
      ensures world.git == old(world.git) && (old(Fresh()) ==> Fresh())
      ensures old(Synced()) ==> Synced()
      ensures old(world.host.branch).None? && world.host.branch.Some? ==> world.host.branch.value.creator == Outsider
      ensures workdir.Some? && old(world.host.branch).Some? && !Raced() ==> world.host.branch == old(world.host.branch)
      ensures old(disturbed) ==> disturbed
      ensures !disturbed ==> r == Ok && world == old(world)
    {
      var o := Call();
      r := o.Seen();
    }

    /** The API server stores the status held in memory, unless the call did not get that far; only an
        answer tells the operator the new version. */
    method Persist(o: Outcome) returns (r: Reply)
      requires Sound(spec, world) && Justified(spec, world, memGit) && Rank(world.git) <= Rank(memGit)
      requires memVersion <= world.version && startRaces <= world.past.races
      requires (Raced() ==> disturbed) && (!disturbed ==> o == Done)
      modifies this`world, this`memVersion
      ensures world == if o.TookEffect() then old(world).(git := memGit, version := old(world.version) + 1)
                        else old(world)
      ensures memVersion == if o == Done then world.version else old(memVersion)
      ensures Fresh() && Running()
      ensures r == o.Seen()
    {
      if o.TookEffect() {
        world := world.(git := memGit, version := world.version + 1);
        if o == Done {
          memVersion := world.version;
        }
      }
      r := o.Seen();
    }

    /** client.Status().Update: refused when the object has moved on since it was read. */
    method UpdateStatus() returns (r: Reply)
      requires Running()
      modifies this`world, this`memVersion, this`disturbed
      ensures Running() && Keeps(old(world), world)
      ensures world.git == old(world.git) || (world.git == memGit && old(memVersion == world.version))
      ensures r == Ok ==> Fresh() && world.git == memGit
      ensures r != Ok ==> memVersion == old(memVersion)
      ensures old(Fresh()) ==> Fresh()
      ensures old(Synced() && world.git == memGit) ==> Synced()
      ensures workdir.Some? && old(world.host.branch).Some? && !Raced() ==> world.host.branch == old(world.host.branch)
      ensures old(disturbed) ==> disturbed
      ensures !disturbed ==> r == Ok && world == old(world).(version := world.version)
    {
      var o := Call();
      if memVersion != world.version {
        return if o.Seen() == Crashed then Crashed else Err;
      }
      r := Persist(o);
    }

    /** updateGitStatusWithPatch: a merge patch carries no version, so it is never refused; the copy
        in memory keeps the new status even when the patch fails. */
    method PatchGit(target: Git) returns (r: Reply)
      requires Running() && Fresh() && Rank(memGit) <= Rank(target)
      requires Justified(spec, world, target)
      modifies this`world, this`memGit, this`memVersion, this`disturbed
      ensures Running() && Fresh() && Keeps(old(world), world)
      ensures memGit == target
      ensures world.git == old(world.git) || world.git == target
      ensures r == Ok && old(world.git == memGit) ==> world.git == target
      ensures old(Synced()) && (workdir.Some? ==> Content(spec, target, workdir.value.commits)) ==> Synced()
      ensures old(world.host.branch).None? && Reserved(spec, old(world)) ==> world.host.branch.None?
      ensures workdir.Some? && old(world.host.branch).Some? && !Raced() ==> world.host.branch == old(world.host.branch)
      ensures old(disturbed) ==> disturbed
      ensures !disturbed ==> r == Ok && world == old(world).(git := target, version := world.version)
    {
      if memGit == target {
        return Ok;
      }
      memGit := target;
      var o := Call();
      OutsidersStepKeeps(spec, workdir.Some?, old(world), world, target);
      r := Persist(o);
    }

    /** remoteDefaultBranchAbsent: the name is resolved like any reference, and an empty or missing
        repository counts as absent. `met` is the remote as it was found. */
    method RemoteDefaultBranchAbsent() returns (absent: bool, r: Reply, ghost met: World)
      requires Running() && Fresh() && Provisioned(spec) && CanCheckOut(spec)
      modifies this`world, this`disturbed
      ensures Running() && Fresh() && Keeps(old(world), world)
      ensures world.git == old(world.git)
      ensures world == met.(past := met.past.(verified := world.past.verified)) && absent == Absent(spec, met.host)
      ensures r == Ok && absent ==> world.past.verified
      ensures workdir.Some? && old(world.host.branch).Some? && !Raced() ==> world.host.branch == old(world.host.branch)
      ensures old(disturbed) ==> disturbed
      ensures !disturbed ==>
        && r == Ok
        && world == old(world).(past := old(world.past).(verified := old(world.past.verified) || absent))
    {
      var o := Call();
      met := world;
      absent := LooksAbsent(spec, world.host);
      if o == Done && absent {
        world := world.(past := world.past.(verified := true));
      }
      r := o.Seen();
    }

    /** Looks for the project at the Git provider and creates it when it is missing. */
    method CreateRemoteProject() returns (r: Reply)
      requires Running() && Fresh()
      modifies this`world, this`disturbed
      ensures Running() && Fresh() && Keeps(old(world), world)
      ensures world.git == old(world.git)
      ensures r == Ok ==> world.host.project
      ensures workdir.Some? && old(world.host.branch).Some? && !Raced() ==> world.host.branch == old(world.host.branch)
      ensures old(disturbed) ==> disturbed
      ensures !disturbed ==> r == Ok && world == old(world).(host := old(world.host).(project := true))
    {
      r := Read();
      if r != Ok || world.host.project {
        return;
      }
      var o := Call();
      if o.TookEffect() {
        world := world.(host := world.host.(project := true));
      }
      r := o.Seen();
    }

    /** setDefaultBranch: a provider that does not support the call is not an error; one that does refuses
        a branch that does not exist. */
    method SetDefaultBranch() returns (r: Reply)
      requires Running() && Fresh()
      modifies this`world, this`disturbed
      ensures Running() && Fresh() && Keeps(old(world), world)
      ensures world.git == old(world.git)
      ensures r == Ok ==> (world.past.headSet && world.host.branch.Some?) || !spec.headSupported
      ensures old(world.host.branch).None? && Reserved(spec, old(world)) ==> world.host.branch.None?
      ensures old(Synced()) ==> Synced()
      ensures old(disturbed) ==> disturbed
      ensures !disturbed && !spec.headSupported ==> r == Ok && world == old(world)
      ensures !disturbed && spec.headSupported ==>
        if old(world.host.branch).None? then r == Err && world == old(world)
        else r == Ok && world == old(world).(host := old(world.host).(head := spec.project.branch), past := world.past)
    {
      var o := Call();
      r := o.Seen();
      if spec.headSupported {
        if world.host.branch.None? {
          return if r == Crashed then Crashed else Err;
        }
        if o.TookEffect() {
          SetHead();
        }
      }
    }

    /** The host's side of setDefaultBranch. */
    method SetHead()
      requires Running() && Fresh()
      modifies this`world
      ensures Running() && Fresh() && Keeps(old(world), world)
      ensures world == old(world).(host := old(world.host).(head := spec.project.branch), past := world.past)
      ensures world.past.headSet && world.past.races == old(world.past.races)
    {
      HeadSetKeeps(spec, world, memGit);
      world := HeadSet(spec, world);
    }

    /** A push of all branches. `met` is the default branch it found and `landed` whether it took effect:
        commits are lost exactly when it landed on a tip that the working copy does not contain. */
    method Push() returns (r: Reply, ghost met: Option<Branch>, ghost landed: bool)
      requires Running() && Fresh() && workdir.Some?
      requires world.host.branch.None? ==> Provisioned(spec) && Rank(world.git) >= Rank(PushInProgress)
      requires !Raced() ==> Contains(workdir.value.commits, world.host.branch)
      requires world.git == memGit && Content(spec, world.git, workdir.value.commits)
      modifies this`world, this`disturbed
      ensures Running() && Fresh() && Evolves(old(world), world)
      ensures world.git == old(world.git) && world.past.misled == old(world.past.misled)
      ensures old(world.host.branch).None? ==> met.None?
      ensures world.host.branch == if landed then Some(AfterPush(met, workdir.value.commits)) else met
      ensures world.past.losses ==
              old(world.past.losses) + if landed && !Contains(workdir.value.commits, met) then 1 else 0
      ensures !Raced() ==> world.past.losses == old(world.past.losses)
      ensures r == Ok ==> landed && Synced()
      ensures old(disturbed) ==> disturbed
      ensures !disturbed && HeadExists(spec, old(world.host)) ==> world.host.head == old(world.host.head)
      ensures !disturbed && old(world.host.project) ==>
        && r == Ok && Synced()
        && world == old(world).(host := world.host, past := world.past)
    {
      var o := Call();
      met, landed := world.host.branch, world.host.project && o.TookEffect();
      if !world.host.project {
        return if o.Seen() == Crashed then Crashed else Err, met, landed;
      }
      if o.TookEffect() {
        Land();
      }
      r := o.Seen();
    }

    /** The remote's side of a push. */
    method Land()
      requires Running() && Fresh() && workdir.Some? && world.host.project
      requires world.host.branch.None? ==> Provisioned(spec) && Rank(world.git) >= Rank(PushInProgress)
      requires world.git == memGit && Content(spec, world.git, workdir.value.commits)
      modifies this`world
      ensures Running() && Fresh() && Evolves(old(world), world)
      ensures world == old(world).(host := world.host, past := world.past)
      ensures world.host.project && world.past.misled == old(world.past.misled)
      ensures world.past.races == old(world.past.races)
      ensures world.host.branch == Some(AfterPush(old(world.host.branch), workdir.value.commits))
      ensures world.past.losses ==
              old(world.past.losses) + if Contains(workdir.value.commits, old(world.host.branch)) then 0 else 1
      ensures HeadExists(spec, old(world.host)) ==> world.host.head == old(world.host.head)
    {
      var pointed: string := *;
      LandedKeeps(spec, world, workdir.value, pointed, memGit);
      world := Landed(spec, world, workdir.value, pointed);
    }

    predicate SkipPutProject()
      reads this
    {
      !Provisioned(spec) || memGit in {Pushed, GitLabCIPushed, TemplatesPushed}
    }

    /** adoptPushedProject: an intent without a recorded push is resolved by looking at the remote, `met`.
        What is adopted is the operator's own branch, unless that is missing and another name hides it. */
    method AdoptPushedProject() returns (adopted: bool, r: Reply, ghost met: World)
      requires Running() && Fresh() && world.git == memGit && !SkipPutProject() && workdir.None?
      modifies this`world, this`memGit, this`memVersion, this`disturbed
      ensures Running() && Fresh() && Grows(old(world), world)
      ensures r == Ok ==> adopted == (old(memGit) == PushInProgress && !Absent(spec, met.host))
      ensures r == Ok && adopted ==>
        && world.git == memGit == Pushed
        && (met.host.branch.Some? ==> met.host.branch.value.creator == Operator)
        && (met.host.branch.None? <==> Hidden(spec, met.host)) && (Hidden(spec, met.host) ==> world.past.misled)
      ensures world.past.misled && !old(world.past.misled) ==> Hidden(spec, met.host) && !spec.headSupported
      ensures r == Ok && !adopted ==> memGit == old(memGit) && world.git == old(world.git)
      ensures r == Ok && old(world.host.branch).Some? && old(world.git) == PushInProgress ==> adopted
      ensures world.git == old(world.git) || Rank(world.git) <= Rank(Pushed)
      ensures memGit == old(memGit) || Rank(memGit) <= Rank(Pushed)
      ensures old(disturbed) ==> disturbed
      ensures !disturbed ==> met == old(world).(past := old(world.past).(verified := met.past.verified))
      ensures !disturbed && !Adopts(spec, old(world)) ==>
        r == Ok && !adopted && world == old(world).(past := old(world.past).(verified := world.past.verified))
      ensures !disturbed && Adopts(spec, old(world)) ==>
        if spec.headSupported && old(world.host.branch).None? then
          r == Err && world == old(world)
        else
          && r == Ok && adopted
          && world == old(world).(
               git := Pushed, version := world.version, past := world.past,
               host := if spec.headSupported then old(world.host).(head := spec.project.branch) else old(world.host))
    {
      met := world;
      if memGit != PushInProgress {
        return false, Ok, met;
      }
      var absent;
      absent, r, met := RemoteDefaultBranchAbsent();
      if r != Ok || absent {
        return false, r, met;
      }
      r := Adopt();
      adopted := r == Ok;
    }

    /** The second half of adoptPushedProject. */
    method Adopt() returns (r: Reply)
      requires Running() && Fresh() && world.git == memGit == PushInProgress && Provisioned(spec)
      modifies this`world, this`memGit, this`memVersion, this`disturbed
      ensures Running() && Fresh() && Grows(old(world), world)
      ensures r == Ok ==> world.git == memGit == Pushed
      ensures r == Ok && old(world.host.branch).None? ==> world.past.misled
      ensures world.past.misled && !old(world.past.misled) ==> old(world.host.branch).None? && !spec.headSupported
      ensures world.git in {PushInProgress, Pushed} && memGit in {PushInProgress, Pushed}
      ensures old(disturbed) ==> disturbed
      ensures !disturbed ==>
        if spec.headSupported && old(world.host.branch).None? then
          r == Err && world == old(world)
        else
          && r == Ok
          && world == old(world).(
               git := Pushed, version := world.version, past := world.past,
               host := if spec.headSupported then old(world.host).(head := spec.project.branch) else old(world.host))
    {
      r := SetDefaultBranch();
      if r != Ok {
        return;
      }
      if world.host.branch.None? {
        world := world.(past := world.past.(misled := true));
      }
      r := PatchGit(Pushed);
    }

    /** createProject: nothing is pushed before the remote default branch was seen absent and the
        intent to push was recorded. */
    method CreateProject() returns (r: Reply)
      requires Running() && Fresh() && world.git == memGit && !SkipPutProject() && workdir.Some? && CanCheckOut(spec)
      modifies this`world, this`memGit, this`memVersion, this`disturbed
      ensures Running() && Fresh() && Keeps(old(world), world)
      ensures old(world.host.branch).Some? ==> r != Ok
      ensures r == Ok ==>
        && world.git == memGit == PushInProgress && Justified(spec, world, Pushed) && Synced()
        && world.host.branch.Some?
      ensures world.git == old(world.git) || Rank(world.git) <= Rank(Pushed)
      ensures memGit == old(memGit) || Rank(memGit) <= Rank(Pushed)
      ensures old(disturbed) ==> disturbed
      ensures !disturbed && !spec.headSupported && HeadExists(spec, old(world.host)) ==>
        world.host.head == old(world.host.head)
      ensures !disturbed && !Absent(spec, old(world.host)) ==>
        r == Err && world == old(world).(host := old(world.host).(project := true)) && memGit == old(memGit)
      ensures !disturbed && Absent(spec, old(world.host)) ==> r == Ok
    {
      r := FindPlace();
      if r != Ok {
        return;
      }
      r := PushWithIntent();
    }

    /** The first half of createProject: the project exists, its default branch does not. */
    method FindPlace() returns (r: Reply)
      requires Running() && Fresh() && Provisioned(spec) && CanCheckOut(spec)
      modifies this`world, this`disturbed
      ensures Running() && Fresh() && Keeps(old(world), world)
      ensures world.git == old(world.git)
      ensures r == Ok ==> world.host.project && world.host.branch.None? && world.past.verified
      ensures old(disturbed) ==> disturbed
      ensures !disturbed ==>
        && r == (if Absent(spec, old(world.host)) then Ok else Err)
        && world == old(world).(host := old(world.host).(project := true), past := world.past)
        && (r != Ok ==> world.past == old(world.past))
    {
      r := CreateRemoteProject();
      if r != Ok {
        return;
      }
      var absent;
      ghost var met;
      absent, r, met := RemoteDefaultBranchAbsent();
      if r == Ok && !absent {
        r := Err;
      }
    }

    /** The second half of createProject: record the intent, push, set the default branch. */
    method PushWithIntent() returns (r: Reply)
      requires Running() && Fresh() && world.git == memGit && !SkipPutProject() && workdir.Some?
      requires world.host.branch.None? && world.past.verified
      modifies this`world, this`memGit, this`memVersion, this`disturbed
      ensures Running() && Fresh() && Keeps(old(world), world)
      ensures r == Ok ==>
        && world.git == memGit == PushInProgress && Justified(spec, world, Pushed) && Synced()
        && world.host.branch.Some?
      ensures world.git == old(world.git) || Rank(world.git) <= Rank(Pushed)
      ensures memGit == old(memGit) || Rank(memGit) <= Rank(Pushed)
      ensures old(disturbed) ==> disturbed
      ensures !disturbed && !spec.headSupported && HeadExists(spec, old(world.host)) ==>
        world.host.head == old(world.host.head)
      ensures !disturbed && old(world.host.project) ==> r == Ok
    {
      r := PatchGit(PushInProgress);
      if r != Ok {
        return;
      }
      r := PushProject();
      if r != Ok {
        return;
      }
      r := SetDefaultBranch();
    }

    /** pushProject: link the remote, then push everything generated for it. */
    method PushProject() returns (r: Reply)
      requires Running() && Fresh() && Provisioned(spec) && workdir.Some?
      requires world.host.branch.None? && world.git == memGit == PushInProgress
      modifies this`world, this`disturbed
      ensures Running() && Fresh() && Keeps(old(world), world)
      ensures world.git == old(world.git)
      ensures r == Ok ==> world.host.branch.Some? && Synced()
      ensures old(disturbed) ==> disturbed
      ensures !disturbed && HeadExists(spec, old(world.host)) ==> world.host.head == old(world.host.head)
      ensures !disturbed && old(world.host.project) ==> r == Ok && Synced()
    {
      r := Read();
      if r != Ok {
        return;
      }
      ghost var met, landed;
      r, met, landed := Push();
    }

    /** The rest of PutProject.ServeRequest once there is nothing to adopt. */
    method ProvisionFromScratch() returns (r: Reply)
      requires Running() && Fresh() && world.git == memGit && !SkipPutProject()
      modifies this`world, this`memGit, this`memVersion, this`workdir, this`disturbed
      ensures Running() && Keeps(old(world), world)
      ensures r == Ok ==> Fresh() && Synced() && world.git == memGit == Pushed && workdir.Some?
      ensures old(world.host.branch).Some? || !CanCheckOut(spec) ==> r != Ok
      ensures world.git == old(world.git) || Rank(world.git) <= Rank(Pushed)
      ensures memGit == old(memGit) || Rank(memGit) <= Rank(Pushed)
      ensures r == Ok && workdir.Some? ==> world.host.branch.Some?
      ensures old(disturbed) ==> disturbed
      ensures !disturbed && !spec.headSupported && HeadExists(spec, old(world.host)) ==>
        world.host.head == old(world.host.head)
      ensures !disturbed && Absent(spec, old(world.host)) && CanCheckOut(spec) ==>
        r == Ok && world.host.branch.Some? && Generated(spec, world.host.branch.value.commits)
      ensures !disturbed && (!Absent(spec, old(world.host)) || !CanCheckOut(spec)) ==>
        && r == Err && world.git == old(world.git)
        && world.host.branch == old(world.host.branch) && world.host.head == old(world.host.head)
    {
      r := PrepareProject();
      if r != Ok {
        return;
      }
      r := CreateProject();
      if r != Ok {
        return;
      }
      r := PatchGit(Pushed);
    }

    /** PutProject.ServeRequest. */
    method PutProject() returns (r: Reply)
      requires Running() && Fresh() && world.git == memGit && workdir.None?
      modifies this`world, this`memGit, this`memVersion, this`workdir, this`disturbed
      ensures Running() && Grows(old(world), world)
      ensures r == Ok ==>
        Fresh() && Synced() && world.git == memGit && (Provisioned(spec) ==> Rank(world.git) >= Rank(Pushed))
      ensures old(SkipPutProject()) ==> r == Ok && world == old(world) && memGit == old(memGit) && workdir.None?
      ensures r == Ok && !old(SkipPutProject()) ==> world.git == Pushed
      ensures Wedged(spec, old(world)) && world.past.moves == old(world.past.moves) ==>
        Wedged(spec, world) && Owes(spec, memGit) && (r == Ok ==> workdir.None?)
      ensures world.git == old(world.git) || Rank(world.git) <= Rank(Pushed)
      ensures memGit == old(memGit) || Rank(memGit) <= Rank(Pushed)
      ensures r == Ok && workdir.Some? ==> world.host.branch.Some?
      ensures old(disturbed) ==> disturbed
      ensures !disturbed ==> Tried(spec, Essence(old(world)), Essence(world), workdir, r)
    {
      if SkipPutProject() {
        return Ok;
      }
      r := Begin();
      if r != Ok {
        return;
      }
      assert !disturbed ==> Essence(world) == Essence(old(world));
      r := AdoptOrProvision();
    }

    /** The status write that opens PutProject, and the GitServer and its secret. */
    method Begin() returns (r: Reply)
      requires Running() && Fresh() && world.git == memGit && workdir.None?
      modifies this`world, this`memVersion, this`disturbed
      ensures Running() && Fresh() && Keeps(old(world), world)
      ensures world.git == old(world.git)
      ensures old(disturbed) ==> disturbed
      ensures !disturbed ==> r == Ok && world == old(world).(version := world.version)
    {
      r := UpdateStatus();
      if r != Ok {
        return;
      }
      r := Read();
    }

    /** The rest of PutProject.ServeRequest once the status write made sure that the copy is current. */
    method AdoptOrProvision() returns (r: Reply)
      requires Running() && Fresh() && world.git == memGit && !SkipPutProject() && workdir.None?
      modifies this`world, this`memGit, this`memVersion, this`workdir, this`disturbed
      ensures Running() && Grows(old(world), world)
      ensures r == Ok ==> Fresh() && Synced() && world.git == memGit == Pushed
      ensures r == Ok && old(world.host.branch).Some? ==> workdir.None?
      ensures world.git == old(world.git) || Rank(world.git) <= Rank(Pushed)
      ensures memGit == old(memGit) || Rank(memGit) <= Rank(Pushed)
      ensures r == Ok && workdir.Some? ==> world.host.branch.Some?
      ensures old(disturbed) ==> disturbed
      ensures !disturbed ==> Tried(spec, Essence(old(world)), Essence(world), workdir, r)
    {
      var adopted;
      ghost var met;
      adopted, r, met := AdoptPushedProject();
      if r != Ok || adopted {
        return;
      }
      assert !disturbed ==> Essence(world) == Essence(old(world)) && !NeedsClone(spec, Essence(old(world)));
      r := ProvisionFromScratch();
    }

    /** initialProjectProvisioning and checkoutBranch: every attempt generates a history of its own. */
    method PrepareProject() returns (r: Reply)
      requires Running() && Fresh()
      modifies this`world, this`workdir, this`disturbed
      ensures Running() && Fresh() && Keeps(old(world), world)
      ensures world.git == old(world.git)
      ensures r == Ok ==> CanCheckOut(spec) && workdir.Some? && Generated(spec, workdir.value.commits)
      ensures old(disturbed) ==> disturbed
      ensures !disturbed ==> r == (if CanCheckOut(spec) then Ok else Err) && world == old(world)
    {
      r := Read();
      if r != Ok {
        return;
      }
      if !CanCheckOut(spec) {
        workdir := Some(Work([], {}));
        return Err;
      }
      var generated := Generate(spec);
      workdir := Some(generated);
    }

    /** PrepareGitRepository: a work directory left by an earlier handler of the attempt is reused, with the
        default branch checked out; without one the remote is cloned and the default branch checked out. */
    method PrepareGitRepository() returns (r: Reply)
      requires Running() && Fresh() && Synced()
      requires Provisioned(spec) ==> Rank(world.git) >= Rank(Pushed)
      modifies this`world, this`workdir, this`disturbed
      ensures Running() && Fresh() && Synced() && Keeps(old(world), world)
      ensures world.git == old(world.git)
      ensures r == Ok ==> workdir.Some?
      ensures old(workdir).Some? ==> workdir == old(workdir)
      ensures r == Ok && old(workdir).None? && old(world.host.branch).Some? ==>
        old(world.host.branch).value.commits <= workdir.value.commits
      ensures old(workdir).None? && Blocked(spec, old(world)) && world.past.moves == old(world.past.moves) ==> r != Ok
      ensures old(disturbed) ==> disturbed
      ensures !disturbed ==>
        && world == old(world)
        && r == if old(workdir).Some? || CanPrepare(spec, world.host) then Ok else Err
    {
      r := Read();
      if r != Ok || workdir.Some? {
        return;
      }
      r := FillWorkdir();
    }

    /** The part of PrepareGitRepository that has no work directory. */
    method FillWorkdir() returns (r: Reply)
      requires Running() && Fresh() && workdir.None?
      requires Provisioned(spec) ==> Rank(world.git) >= Rank(Pushed)
      modifies this`world, this`workdir, this`disturbed
      ensures Running() && Fresh() && Synced() && Keeps(old(world), world)
      ensures world.git == old(world.git)
      ensures r == Ok ==> workdir.Some?
      ensures r == Ok && old(world.host.branch).Some? ==>
        old(world.host.branch).value.commits <= workdir.value.commits
      ensures Blocked(spec, old(world)) && world.past.moves == old(world.past.moves) ==> r != Ok
      ensures old(disturbed) ==> disturbed
      ensures !disturbed ==> world == old(world) && r == if CanPrepare(spec, world.host) then Ok else Err
    {
      r := Read();
      if r != Ok {
        return;
      }
      var clone := CloneRemote();
      if clone.None? {
        return Err;
      }
      workdir := clone;
    }

    /** A fresh clone of the remote with its default branch checked out. */
    method CloneRemote() returns (work: Option<Work>)
      requires Sound(spec, world)
      ensures work.Some? <==> CanPrepare(spec, world.host)
      ensures work.Some? && world.host.branch.Some? ==> work.value.commits == world.host.branch.value.commits
    {
      if !world.host.project {
        return None; // nothing to clone
      }
      var repository := new WorkingCopy.Repository();
      var tips := map n | n in Names(spec, world.host) :: 0; // whatever they are
      var ok := repository.CloneAndCheckOut(tips, world.host.head, spec.project.branch, StrategyOf(spec));
      CanPrepareIsExact(spec, world.host);
      if !ok {
        return None;
      }
      var history: seq<Commit> := *; // of the branch that HEAD names
      var commits := if world.host.branch.Some? then world.host.branch.value.commits else history;
      work := Some(Work(commits, Names(spec, world.host)));
    }

    /** Where the configuration is asked for, what is at hand for a later push holds it already. */
    ghost predicate HasConfig()
      reads this
    {
      spec.gitLabCI ==>
        if workdir.Some? then Carries(workdir.value.commits, Config)
        else world.host.branch.Some? && Carries(world.host.branch.value.commits, Config)
    }

    /** Commits a file to the default branch, if that changes anything, and pushes; the common part of
        PutGitLabCIConfig and PutDeployConfigs. */
    method PushOnTop(done: Git, f: File) returns (r: Reply)
      requires Running() && Fresh() && Synced() && world.git == memGit
      requires Provisioned(spec) ==> Rank(world.git) >= Rank(Pushed)
      requires Rank(world.git) < Rank(done)
      requires (done == GitLabCIPushed && f == Config) || (done == TemplatesPushed && f == Templates && HasConfig())
      modifies this`world, this`memGit, this`memVersion, this`workdir, this`disturbed
      ensures Running() && Fresh() && Evolves(old(world), world)
      ensures !Raced() ==> world.past.losses == old(world.past.losses)
      ensures r == Ok ==> Synced() && world.git == memGit == done && workdir.Some? && Carries(workdir.value.commits, f)
      ensures old(workdir).None? && Blocked(spec, old(world)) && world.past.moves == old(world.past.moves) ==>
        r != Ok && world.git == old(world.git) && memGit == old(memGit)
      ensures old(disturbed) ==> disturbed
      ensures !disturbed ==>
        && (r == Ok <==> old(workdir).Some? || CanPrepare(spec, old(world.host)))
        && (r != Ok ==> r == Err && world == old(world))
        && (r == Ok ==> world.host.branch.Some? && TipHolds(world.host.branch.value.commits, f))
        && (r == Ok && old(world.host.branch).Some? ==>
              ToppedUp(old(world.host.branch).value.commits, world.host.branch.value.commits, f))
    {
      r := PrepareGitRepository();
      if r != Ok {
        return;
      }
      if spec.gitLabCI && f == Templates && old(workdir).None? {
        CarriesOn(old(world.host.branch).value.commits, workdir.value.commits);
      }
      r := PushAndRecord(done, f);
    }

    /** The part of PushOnTop that has a work directory. */
    method PushAndRecord(done: Git, f: File) returns (r: Reply)
      requires Running() && Fresh() && Synced() && world.git == memGit && workdir.Some?
      requires Provisioned(spec) ==> Rank(world.git) >= Rank(Pushed)
      requires Rank(world.git) < Rank(done)
      requires (done == GitLabCIPushed && f == Config) || (done == TemplatesPushed && f == Templates && HasConfig())
      modifies this`world, this`memGit, this`memVersion, this`workdir, this`disturbed
      ensures Running() && Fresh() && Evolves(old(world), world)
      ensures !Raced() ==> world.past.losses == old(world.past.losses)
      ensures r == Ok ==> Synced() && world.git == memGit == done && workdir.Some? && Carries(workdir.value.commits, f)
      ensures old(disturbed) ==> disturbed
      ensures !disturbed ==>
        && r == Ok && world.host.branch.Some?
        && TipHolds(world.host.branch.value.commits, f)
        && ToppedUp(old(workdir).value.commits, world.host.branch.value.commits, f)
    {
      r := CommitAndPush(f);
      if r != Ok {
        return;
      }
      r := PatchGit(done);
    }

    /** Adds a file to the work directory, commits it if it was not there, and pushes: afterwards the remote
        branch is the work directory's, with the file at its tip. */
    method CommitAndPush(f: File) returns (r: Reply)
      requires Running() && Fresh() && Synced() && workdir.Some? && world.git == memGit
      modifies this`world, this`workdir, this`disturbed
      ensures Running() && Fresh() && Evolves(old(world), world)
      ensures !Raced() ==> world.past.losses == old(world.past.losses)
      ensures world.git == old(world.git)
      ensures r == Ok ==>
        && Synced() && workdir.Some? && world.host.branch.Some?
        && world.host.branch.value.commits == workdir.value.commits
        && ToppedUp(old(workdir).value.commits, workdir.value.commits, f) && TipHolds(workdir.value.commits, f)
        && forall other :: Carries(old(workdir).value.commits, other) || other == f ==>
             Carries(workdir.value.commits, other)
      ensures old(disturbed) ==> disturbed
      ensures !disturbed ==> r == Ok
    {
      r := Read(); // files are written
      if r != Ok {
        return;
      }
      var next: nat := *;
      workdir := Some(workdir.value.(commits := WithFile(workdir.value.commits, f, next)));
      WithFileIsRight(old(workdir).value.commits, f, next);
      assert !Raced() ==> Contains(workdir.value.commits, world.host.branch);
      ghost var met, landed;
      r, met, landed := Push();
    }

    /** Nobody moved HEAD away from where it keeps a clone from serving. */
    ghost predicate Halted(w: World, work: Option<Work>)
      reads this
    {
      work.None? && Blocked(spec, w) && world.past.moves == w.past.moves
    }

    /** PutGitLabCIConfig.ServeRequest; the file may already come with the generated project. */
    method PutGitLabCIConfig() returns (r: Reply)
      requires Running() && Fresh() && Synced() && world.git == memGit
      requires workdir.Some? ==> world.host.branch.Some?
      requires Provisioned(spec) ==> Rank(world.git) >= Rank(Pushed)
      modifies this`world, this`memGit, this`memVersion, this`workdir, this`disturbed
      ensures Running() && Fresh() && Evolves(old(world), world)
      ensures !Raced() ==> world.past.losses == old(world.past.losses)
      ensures r == Ok ==> Synced() && world.git == memGit && HasConfig()
      ensures !OwesConfig(spec, old(world.git)) ==>
        r == Ok && world == old(world) && workdir == old(workdir)
      ensures r == Ok && spec.gitLabCI && old(workdir).None? ==> Rank(world.git) >= Rank(GitLabCIPushed)
      ensures OwesConfig(spec, old(world.git)) && r == Ok ==> workdir.Some?
      ensures OwesConfig(spec, old(world.git)) && Halted(old(world), old(workdir)) ==>
        r != Ok && world.git == old(world.git) && memGit == old(memGit)
      ensures old(disturbed) ==> disturbed
      ensures !disturbed ==>
        Configured(spec, Essence(old(world)), old(workdir), Essence(world), workdir, r)
    {
      if !spec.gitLabCI || memGit == GitLabCIPushed || memGit == TemplatesPushed {
        return Ok;
      }
      if workdir.Some? && TipHolds(workdir.value.commits, Config) {
        CarriesOn(workdir.value.commits, workdir.value.commits);
        return Ok;
      }
      r := PushOnTop(GitLabCIPushed, Config);
    }

    /** What PutDeployConfigs and the rest make of it, undisturbed. */
    ghost predicate ServedTemplates(w: World, work: Option<Work>, r: Reply)
      reads this
    {
      && Served(spec, false, OwesTemplates(spec, w.git), Essence(w), work, Essence(world), r)
      && (r == Ok && OwesTemplates(spec, w.git) && w.host.branch.Some? ==>
            ToppedUp(w.host.branch.value.commits, world.host.branch.value.commits, Templates))
    }

    /** PutDeployConfigs.ServeRequest. */
    method PutDeployConfigs() returns (r: Reply)
      requires Running() && Fresh() && Synced() && world.git == memGit && HasConfig()
      requires Provisioned(spec) ==> Rank(world.git) >= Rank(Pushed)
      modifies this`world, this`memGit, this`memVersion, this`workdir, this`disturbed
      ensures Running() && Fresh() && Evolves(old(world), world)
      ensures !Raced() ==> world.past.losses == old(world.past.losses)
      ensures r == Ok ==> world.git == memGit && (spec.putTemplates ==> world.git == TemplatesPushed)
      ensures !OwesTemplates(spec, old(world.git)) ==> r == Ok && world == old(world)
      ensures OwesTemplates(spec, old(world.git)) && Halted(old(world), old(workdir)) ==>
        r != Ok && world.git == old(world.git) && memGit == old(memGit)
      ensures old(disturbed) ==> disturbed
      ensures !disturbed ==> ServedTemplates(old(world), old(workdir), r)
    {
      if !spec.putTemplates || memGit == TemplatesPushed {
        return Ok;
      }
      r := PushOnTop(TemplatesPushed, Templates);
    }

    /** PutWebHook.ServeRequest: a status write when a webhook had to be created. */
    method PutWebHook() returns (r: Reply)
      requires Running() && Fresh() && Synced() && world.git == memGit
      modifies this`world, this`memVersion, this`disturbed
      ensures Running() && Fresh() && Synced() && Keeps(old(world), world)
      ensures world.git == memGit == old(memGit)
      ensures old(world.host.branch).Some? && workdir.Some? && !Raced() ==> world.host.branch == old(world.host.branch)
      ensures old(disturbed) ==> disturbed
      ensures !disturbed ==> r == Ok && world == old(world).(version := world.version)
    {
      if !spec.tekton {
        return Ok;
      }
      r := Read();
      if r != Ok {
        return;
      }
      if * {
        r := UpdateStatus();
      }
    }

    /** The handlers of the default chain that follow PutProject. */
    method ServeAfterPutProject() returns (r: Reply)
      requires Running() && Fresh() && Synced() && world.git == memGit
      requires workdir.Some? ==> world.host.branch.Some?
      requires Provisioned(spec) ==> Rank(world.git) >= Rank(Pushed)
      modifies this`world, this`memGit, this`memVersion, this`workdir, this`disturbed
      ensures Running() && Evolves(old(world), world)
      ensures !Raced() ==> world.past.losses == old(world.past.losses)
      ensures r == Ok ==> Fresh() && world.git == memGit
      ensures Wedged(spec, old(world)) && old(workdir).None? && world.past.moves == old(world.past.moves) ==>
        r != Ok && Wedged(spec, world) && Owes(spec, memGit)
      ensures old(disturbed) ==> disturbed
      ensures !disturbed ==>
        Served(spec, OwesConfig(spec, old(world.git)), OwesTemplates(spec, old(world.git)),
               Essence(old(world)), old(workdir), Essence(world), r)
    {
      r := PutWebHook();
      if r != Ok {
        return;
      }
      assert !disturbed ==> Essence(world) == Essence(old(world));
      r := ServeConfigs();
    }

    /** PutGitLabCIConfig and what follows. */
    method ServeConfigs() returns (r: Reply)
      requires Running() && Fresh() && Synced() && world.git == memGit
      requires workdir.Some? ==> world.host.branch.Some?
      requires Provisioned(spec) ==> Rank(world.git) >= Rank(Pushed)
      modifies this`world, this`memGit, this`memVersion, this`workdir, this`disturbed
      ensures Running() && Evolves(old(world), world)
      ensures !Raced() ==> world.past.losses == old(world.past.losses)
      ensures r == Ok ==> Fresh() && world.git == memGit
      ensures Owes(spec, old(world.git)) && Halted(old(world), old(workdir)) ==>
        r != Ok && world.git == old(world.git) && memGit == old(memGit)
      ensures old(disturbed) ==> disturbed
      ensures !disturbed ==>
        Served(spec, OwesConfig(spec, old(world.git)), OwesTemplates(spec, old(world.git)),
               Essence(old(world)), old(workdir), Essence(world), r)
    {
      r := PutGitLabCIConfig();
      if r != Ok {
        return;
      }
      ghost var between := world;
      assert !OwesConfig(spec, old(world.git)) ==> world == old(world) && workdir == old(workdir);
      r := ServeTemplatesAfter(Essence(old(world)), old(workdir));
      EvolvesOn(old(world), between, world);
    }

    /** ServeTemplates, as the end of what PutGitLabCIConfig began with `before` and `begun`. */
    method ServeTemplatesAfter(ghost before: World, ghost begun: Option<Work>) returns (r: Reply)
      requires Running() && Fresh() && Synced() && world.git == memGit && HasConfig()
      requires Provisioned(spec) ==> Rank(world.git) >= Rank(Pushed)
      requires !disturbed ==> Configured(spec, before, begun, Essence(world), workdir, Ok)
      modifies this`world, this`memGit, this`memVersion, this`workdir, this`disturbed
      ensures Running() && Evolves(old(world), world)
      ensures !Raced() ==> world.past.losses == old(world.past.losses)
      ensures r == Ok ==> Fresh() && world.git == memGit
      ensures OwesTemplates(spec, old(world.git)) && Halted(old(world), old(workdir)) ==>
        r != Ok && world.git == old(world.git) && memGit == old(memGit)
      ensures old(disturbed) ==> disturbed
      ensures !disturbed ==>
        Served(spec, OwesConfig(spec, before.git), OwesTemplates(spec, before.git), before, begun, Essence(world), r)
    {
      ghost var configured, work := Essence(world), workdir;
      r := ServeTemplates();
      if !disturbed {
        ConfiguredThenServed(spec, before, begun, configured, work, Essence(world), r);
      }
    }

    /** PutDeployConfigs, PutDefaultCodeBaseBranch and Cleaner; the last two write nothing modelled here. */
    method ServeTemplates() returns (r: Reply)
      requires Running() && Fresh() && Synced() && world.git == memGit && HasConfig()
      requires Provisioned(spec) ==> Rank(world.git) >= Rank(Pushed)
      modifies this`world, this`memGit, this`memVersion, this`workdir, this`disturbed
      ensures Running() && Evolves(old(world), world)
      ensures !Raced() ==> world.past.losses == old(world.past.losses)
      ensures r == Ok ==> Fresh() && world.git == memGit
      ensures OwesTemplates(spec, old(world.git)) && Halted(old(world), old(workdir)) ==>
        r != Ok && world.git == old(world.git) && memGit == old(memGit)
      ensures old(disturbed) ==> disturbed
      ensures !disturbed ==> ServedTemplates(old(world), old(workdir), r)
    {
      r := PutDeployConfigs();
      if r != Ok {
        return;
      }
      ghost var put := world;
      r := Read();
      assert Grows(put, world) && world.git == put.git;
      assert !disturbed ==> r == Ok && world == put;
    }

    /** A copy that is not behind says what is persisted. */
    ghost predicate AsRead()
      reads this
    {
      memVersion == world.version ==> memGit == world.git
    }

    /** PutGitWebRepoUrl.ServeRequest: the status write here is what makes the copy a current one. */
    method PutGitWebRepoUrl() returns (r: Reply)
      requires Running() && workdir.None? && AsRead()
      modifies this`world, this`memVersion, this`disturbed
      ensures Running() && Keeps(old(world), world)
      ensures world.git == old(world.git)
      ensures r == Ok ==> Fresh() && world.git == memGit
      ensures r != Ok ==> AsRead()
      ensures old(disturbed) ==> disturbed
      ensures !disturbed ==> r == Ok && world == old(world).(version := world.version)
    {
      r := Read(); // the GitServer
      if r != Ok {
        return;
      }
      r := UpdateStatus();
    }

    /** The default chain: PutGitWebRepoUrl, PutProject and the rest. */
    method ServeChain() returns (r: Reply)
      requires Running() && workdir.None? && AsRead()
      modifies this`world, this`memGit, this`memVersion, this`workdir, this`disturbed
      ensures Running() && Evolves(old(world), world)
      ensures !Raced() ==> world.past.losses == old(world.past.losses)
      ensures r == Ok ==> Fresh() && world.git == memGit && (Provisioned(spec) ==> Rank(world.git) >= Rank(Pushed))
      ensures Wedged(spec, old(world)) && world.past.moves == old(world.past.moves) ==>
        r != Ok && Wedged(spec, world) && (memVersion == world.version ==> Owes(spec, memGit))
      ensures old(disturbed) ==> disturbed
      ensures !disturbed ==> Concluded(spec, Essence(old(world)), Essence(world), r)
    {
      r := PutGitWebRepoUrl();
      if r != Ok {
        return;
      }
      assert !disturbed ==> Essence(world) == Essence(old(world));
      r := ServeFromPutProject();
    }

    /** PutProject and the handlers after it. */
    method ServeFromPutProject() returns (r: Reply)
      requires Running() && Fresh() && world.git == memGit && workdir.None?
      modifies this`world, this`memGit, this`memVersion, this`workdir, this`disturbed
      ensures Running() && Evolves(old(world), world)
      ensures !Raced() ==> world.past.losses == old(world.past.losses)
      ensures r == Ok ==> Fresh() && world.git == memGit && (Provisioned(spec) ==> Rank(world.git) >= Rank(Pushed))
      ensures Wedged(spec, old(world)) && world.past.moves == old(world.past.moves) ==>
        r != Ok && Wedged(spec, world) && Owes(spec, memGit)
      ensures old(disturbed) ==> disturbed
      ensures !disturbed ==> Concluded(spec, Essence(old(world)), Essence(world), r)
    {
      r := PutProject();
      if r != Ok {
        return;
      }
      r := ServeTail(Essence(old(world)));
    }

    /** ServeAfterPutProject, as the end of an attempt that began with `before`. */
    method ServeTail(ghost before: World) returns (r: Reply)
      requires Running() && Fresh() && Synced() && world.git == memGit
      requires workdir.Some? ==> world.host.branch.Some?
      requires Provisioned(spec) ==> Rank(world.git) >= Rank(Pushed)
      requires !disturbed ==> Tried(spec, before, Essence(world), workdir, Ok)
      modifies this`world, this`memGit, this`memVersion, this`workdir, this`disturbed
      ensures Running() && Evolves(old(world), world)
      ensures !Raced() ==> world.past.losses == old(world.past.losses)
      ensures r == Ok ==> Fresh() && world.git == memGit
      ensures Wedged(spec, old(world)) && old(workdir).None? && world.past.moves == old(world.past.moves) ==>
        r != Ok && Wedged(spec, world) && Owes(spec, memGit)
      ensures old(disturbed) ==> disturbed
      ensures !disturbed ==> Concluded(spec, before, Essence(world), r)
    {
      ghost var tried, work := Essence(world), workdir;
      r := ServeAfterPutProject();
      if !disturbed {
        Conclude(spec, before, tried, work, Essence(world), r);
      }
    }

    /** The attempt starts from a copy that may be arbitrarily old, and without a work directory. */
    method ReadCodebase() returns (r: Reply)
      requires Sound(spec, world)
      modifies this
      ensures Sound(spec, world) && Keeps(old(world), world)
      ensures r == Ok ==> Running() && workdir.None? && AsRead()
      ensures world.git == old(world.git)
      ensures startRaces == old(world.past.races) && !Raced()
      ensures !disturbed ==> r == Ok && Fresh() && world == old(world).(past := old(world.past).(verified := false))
    {
      disturbed, startRaces, workdir := false, world.past.races, None;
      world := world.(past := world.past.(verified := false));
      var o := Call();
      memGit, memVersion := world.git, world.version;
      var stale: bool, oldGit: Git, oldVersion: nat := *, *, *;
      if stale && oldVersion < world.version {
        memGit, memVersion, disturbed := oldGit, oldVersion, true;
      }
      r := o.Seen();
    }

    /** Reconcile: read a copy, possibly an old one, run the chain, persist what is in memory. */
    method Reconcile() returns (r: Reply)
      requires Sound(spec, world)
      modifies this
      ensures Sound(spec, world) && Evolves(old(world), world)
      ensures world.past.races == old(world.past.races) ==> world.past.losses == old(world.past.losses)
      ensures r == Ok && Provisioned(spec) ==> Rank(world.git) >= Rank(Pushed)
      ensures Wedged(spec, old(world)) && world.past.moves == old(world.past.moves) ==> r != Ok && Wedged(spec, world)
      ensures !disturbed ==> Concluded(spec, Essence(old(world)), Essence(world), r)
    {
      r := ReadCodebase();
      if r != Ok {
        return;
      }
      assert !disturbed ==> Essence(world) == Essence(old(world));
      r := Attempt();
    }

    /** Reconcile, with the copy at hand. */
    method Attempt() returns (r: Reply)
      requires Running() && workdir.None? && AsRead()
      modifies this`world, this`memGit, this`memVersion, this`workdir, this`disturbed
      ensures Sound(spec, world) && Evolves(old(world), world)
      ensures !Raced() ==> world.past.losses == old(world.past.losses)
      ensures r == Ok && Provisioned(spec) ==> Rank(world.git) >= Rank(Pushed)
      ensures Wedged(spec, old(world)) && world.past.moves == old(world.past.moves) ==> r != Ok && Wedged(spec, world)
      ensures old(disturbed) ==> disturbed
      ensures !disturbed ==> Concluded(spec, Essence(old(world)), Essence(world), r)
    {
      r := ServeChain();
      if r == Crashed {
        return;
      }
      ghost var served := world;
      var saved := UpdateStatus(); // setFailureCount after an error, updateFinishStatus otherwise
      if r == Ok {
        r := saved;
      }
      assert !disturbed ==> Essence(world) == Essence(served);
    }

    /** Any number of attempts, each with its own failures, crash point, stale read and outsiders. */
    method Run(attempts: nat) returns (ghost ws: seq<World>)
      requires Sound(spec, world)
      modifies this
      ensures Sound(spec, world)
      ensures |ws| == attempts + 1 && ws[0] == old(world) && ws[attempts] == world
      ensures History(spec, ws)
    {
      ws := [world];
      for i := 0 to attempts
        invariant Sound(spec, world)
        invariant |ws| == i + 1 && ws[0] == old(world) && ws[i] == world
        invariant History(spec, ws)
      {
        var _ := Reconcile();
        ws := ws + [world];
      }
    }

    /** No wedge in PutProject, and exactly when there is one later: after any run whatsoever, one undisturbed
        attempt refuses and leaves the remote alone, or gets at least to `pushed`; and then it finishes
        exactly when it is not stuck. */
    method RunThenRetry(attempts: nat) returns (ghost before: World, r: Reply)
      requires Sound(spec, world) && Provisioned(spec)
      modifies this
      ensures Sound(spec, world) && Sound(spec, before) && Evolves(old(world), before)
      ensures !disturbed ==> Concluded(spec, Essence(before), Essence(world), r)
      ensures !disturbed && !Refuses(spec, before) ==> Rank(world.git) >= Rank(Pushed)
      ensures !disturbed && OwnedByOutsider(before) ==> r == Err && world.host.branch == before.host.branch
      ensures spec.project.Valid() && !(spec.project.clone && spec.project.empty) ==> CanCheckOut(spec)
    {
      if spec.project.Valid() {
        WorkingCopy.WhenHeadsArePushed(spec.project);
      }
      ghost var ws := Run(attempts);
      HistoryEvolves(spec, ws, 0, attempts);
      before := world;
      RefusalIsExact(spec, ws, attempts, attempts);
      r := Reconcile();
    }

    /** The wedge can be reached: the repository has another main branch, the host has no call to set it, and
        the process dies between PutProject and the next push. */
    method ReachWedge() returns (r: Reply)
      requires Sound(spec, world) && Provisioned(spec) && !spec.project.clone && !spec.headSupported
      requires Owes(spec, Pushed) && world.git == NotStarted && Absent(spec, world.host) && CanCheckOut(spec)
      requires world.host.head != spec.project.branch && world.host.head in world.host.others
      modifies this
      ensures !disturbed ==> Wedged(spec, world) && world.git == Pushed
    {
      r := ReadCodebase();
      if r != Ok {
        return;
      }
      r := PutGitWebRepoUrl();
      if r != Ok {
        return;
      }
      r := PutProject();
    }

    /** And it is one: no attempt succeeds any more, in whatever weather, until somebody moves HEAD. */
    method StayWedged(attempts: nat) returns (ghost ws: seq<World>, ghost rs: seq<Reply>)
      requires Sound(spec, world) && Wedged(spec, world)
      modifies this
      ensures |ws| == attempts + 1 && ws[0] == old(world) && ws[attempts] == world && History(spec, ws)
      ensures |rs| == attempts
      ensures world.past.moves == old(world.past.moves) ==> Wedged(spec, world) && forall r <- rs :: r != Ok
    {
      ws, rs := [world], [];
      for i := 0 to attempts
        invariant Sound(spec, world) && |ws| == i + 1 && ws[0] == old(world) && ws[i] == world
        invariant History(spec, ws) && old(world.past.moves) <= world.past.moves
        invariant |rs| == i
        invariant world.past.moves == old(world.past.moves) ==> Wedged(spec, world) && forall r <- rs :: r != Ok
      {
        var r := Reconcile();
        ws, rs := ws + [world], rs + [r];
      }
    }

    /** A tag that is called like the default branch, put up while an intent stands: the attempt that looks
        for an interrupted push adopts the tag, and `pushed` is recorded without a branch. */
    method AdoptTag() returns (r: Reply)
      requires Sound(spec, world) && Provisioned(spec) && !spec.headSupported && !Owes(spec, Pushed)
      requires world.git == PushInProgress && world.host.branch.None? && spec.project.branch in world.host.tags
      modifies this
      ensures !disturbed ==> r == Ok && world.git == Pushed && world.host.branch.None? && world.past.misled
    {
      r := Reconcile();
    }
  }

  ghost predicate History(spec: Spec, ws: seq<World>) {
    && (forall i :: 0 <= i < |ws| ==> Sound(spec, ws[i]))
    && (forall i, j :: 0 <= i && j == i + 1 && j < |ws| ==>
          Evolves(ws[i], ws[j]) && (ws[j].past.races == ws[i].past.races ==> ws[j].past.losses == ws[i].past.losses))
  }

  /** Between any two points of a run: Git never loses rank, and an existing default branch keeps its
      creator and, unless a push replaced some, every commit it had. */
  lemma {:induction false} HistoryEvolves(spec: Spec, ws: seq<World>, i: nat, j: nat)
    requires History(spec, ws) && i <= j < |ws|
    ensures Evolves(ws[i], ws[j])
    decreases j - i
  {
    if i < j {
      HistoryEvolves(spec, ws, i, j - 1);
      assert Evolves(ws[j - 1], ws[j]);
    }
  }

  /** No commit of the default branch is ever lost unless somebody committed to it while the operator held
      a working copy. */
  lemma {:induction false} CommitsAreKept(spec: Spec, ws: seq<World>, i: nat, j: nat)
    requires History(spec, ws) && i <= j < |ws|
    requires ws[j].past.races == ws[i].past.races && ws[i].host.branch.Some?
    ensures ws[j].host.branch.Some? && ws[i].host.branch.value.commits <= ws[j].host.branch.value.commits
    ensures ws[j].past.losses == ws[i].past.losses
    decreases j - i
  {
    if i < j {
      HistoryEvolves(spec, ws, i, j - 1);
      assert Evolves(ws[j - 1], ws[j]);
      CommitsAreKept(spec, ws, i, j - 1);
    }
  }

  /** With a race: of what others committed since the clone, a push keeps exactly what the working copy
      happens to have committed as well, and loses the rest without failing. */
  lemma RacedCommitsAreLost(creator: Writer, cloned: seq<Commit>, theirs: seq<Commit>, ours: seq<Commit>)
    ensures var remote, workdir := Some(Branch(creator, cloned + theirs)), cloned + ours;
      && (Contains(workdir, remote) <==> theirs <= ours)
      && (remote.value.commits <= AfterPush(remote, workdir).commits <==> theirs <= ours)
  {
    assert forall k :: 0 <= k < |theirs| ==> (cloned + theirs)[|cloned| + k] == theirs[k];
    assert forall k :: 0 <= k < |ours| ==> (cloned + ours)[|cloned| + k] == ours[k];
    if cloned + theirs <= cloned + ours {
      assert forall k :: 0 <= k < |theirs| ==> theirs[k] == ours[k];
    }
  }

  predicate CreatesBranch(w: World, x: World) {
    w.host.branch.None? && x.host.branch.Some?
  }

  /** The default branch comes into being at most once in a run, whoever creates it. */
  lemma CreatedAtMostOnce(spec: Spec, ws: seq<World>, i: nat, j: nat)
    requires History(spec, ws) && i < j && j + 1 < |ws|
    requires CreatesBranch(ws[i], ws[i + 1])
    ensures !CreatesBranch(ws[j], ws[j + 1])
  {
    HistoryEvolves(spec, ws, i + 1, j);
  }

  /** Adoption is sound: whenever an intent or more is recorded and the branch is there, at this point
      of the run or any later one, it is the operator's own push that put it there. From `pushed` on the
      branch is there and its set-up succeeded, unless another name was adopted for it, which a host that
      can set a default branch prevents. */
  lemma AdoptionIsSound(spec: Spec, ws: seq<World>, i: nat, j: nat)
    requires History(spec, ws) && i <= j < |ws| && Provisioned(spec)
    ensures Rank(ws[i].git) >= Rank(PushInProgress) && ws[j].host.branch.Some? ==>
      ws[j].host.branch.value.creator == Operator
    ensures Rank(ws[i].git) >= Rank(Pushed) ==>
      && (ws[j].past.headSet || !spec.headSupported)
      && (ws[j].host.branch.Some? || ws[j].past.misled)
    ensures ws[i].past.misled ==> !spec.headSupported
  {
    HistoryEvolves(spec, ws, i, j);
  }

  /** What an intent finds on the remote: the operator's own push, exactly unless the default branch is
      missing and a tag, or the digits of a full hash, are taken for it. */
  lemma AdoptionIsExact(spec: Spec, w: World)
    requires Sound(spec, w) && Adopts(spec, w)
    ensures w.host.branch.Some? && w.host.branch.value.creator == Operator <==> !Hidden(spec, w.host)
    ensures Hidden(spec, w.host) <==>
      w.host.branch.None? &&
      (spec.project.branch in w.host.tags ||
       (RemoteRefs.IsFullHash(spec.project.branch)
        && (w.host.others - {spec.project.branch} != {} || w.host.tags != {})))
  {
  }

  /** An attempt refuses exactly when an outsider created the branch, it cannot be checked out, or it is
      missing, something hides that, and either no intent was recorded or the host refuses to make what is
      missing its default branch. The first two verdicts never change. */
  lemma RefusalIsExact(spec: Spec, ws: seq<World>, i: nat, j: nat)
    requires History(spec, ws) && i <= j < |ws| && Provisioned(spec)
    ensures Refuses(spec, ws[j]) <==>
      || OwnedByOutsider(ws[j])
      || !CanCheckOut(spec)
      || (Hidden(spec, ws[j].host) &&
          (ws[j].git == NotStarted || (ws[j].git == PushInProgress && spec.headSupported)))
    ensures OwnedByOutsider(ws[i]) || !CanCheckOut(spec) ==> Refuses(spec, ws[j])
    ensures ws[i].host.branch.Some? && !OwnedByOutsider(ws[i]) && CanCheckOut(spec) ==> !Refuses(spec, ws[j])
  {
    HistoryEvolves(spec, ws, i, j);
  }
}
