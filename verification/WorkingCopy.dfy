/**
  The working copy on a branch-to-commit map: which branches a first push carries to the remote, from what
  PutProject makes of init or clone, and when a later handler can check out the default branch in a clone
  of the project's own remote.
*/
module WorkingCopy {
  import opened Calls

  type Commit = nat
  type Heads = map<string, Commit>

  /** The name go-git gives to HEAD when it initialises a repository. */
  const INIT_BRANCH := "master"

  /** What the handler reads of the Codebase; `source` and `sourceHead` are the repository it is
      generated from, and `first` is the commit made for a project with no history of its own. */
  datatype Project = Project(
    clone: bool, empty: bool, branch: string, copyFrom: string,
    source: Heads, sourceHead: string, first: Commit)
  {
    /** The default branch has a name, and there is something to clone where something is cloned. */
    predicate Valid() {
      branch != "" && (empty || sourceHead in source)
    }

    /** The strategy of a project that is not imported. */
    function Kind(): Strategy {
      if clone then Strategy.Clone else Create
    }

    predicate Copies() {
      copyFrom != "" && branch != copyFrom
    }

    /** The operator wrote the history itself, so it consists of one commit. */
    predicate OwnHistory() {
      !clone || empty
    }
  }

  /** The branches present once `name` is checked out of a cloned repository: a branch the source does
      not have starts at its default branch. */
  function WithBranch(source: Heads, sourceHead: string, name: string): Heads
    requires name in source || sourceHead in source
  {
    if name in source then source else source[name := source[sourceHead]]
  }

  /** The branches handed to the push, in closed form; None when the checkout is refused. */
  function PushedHeads(p: Project): Option<Heads>
    requires p.Valid()
  {
    if p.clone && p.empty && (if p.Copies() then p.copyFrom else p.branch) != INIT_BRANCH then
      None // nothing was cloned, so there is no origin to fetch the branch from
    else if p.OwnHistory() then
      if p.Copies() then Some(map[INIT_BRANCH := p.first, p.copyFrom := p.first, p.branch := p.first])
      else Some(map[p.branch := p.first])
    else if p.Copies() then
      var base := WithBranch(p.source, p.sourceHead, p.copyFrom);
      Some(base[p.branch := base[p.copyFrom]])
    else
      Some(WithBranch(p.source, p.sourceHead, p.branch))
  }

  datatype Strategy = Create | Clone | Import

  /** The branch can be checked out in a fresh clone of a remote with these branches: the remote's HEAD has
      to name one of them; nothing is left to do when that is the branch itself; otherwise create insists
      on a new branch, import on an existing one, and clone takes either. */
  predicate ClonesTo(names: set<string>, remoteHead: string, name: string, strategy: Strategy) {
    && remoteHead in names
    && (remoteHead == name ||
        match strategy
        case Create => name !in names
        case Clone => true
        case Import => name in names)
  }

  /** A local repository: its branches, the branch HEAD names (which need not exist yet), and the
      branches of its origin, if it has one. */
  class Repository {
    var branches: Heads
    var head: string
    var origin: Option<Heads>

    constructor ()
      ensures branches == map[] && head == INIT_BRANCH && origin == None
    {
      branches, head, origin := map[], INIT_BRANCH, None;
    }

    method Init()
      modifies this
      ensures branches == map[] && head == INIT_BRANCH && origin == None
    {
      branches, head, origin := map[], INIT_BRANCH, None;
    }

    method MakeCommit(c: Commit)
      modifies this
      ensures branches == old(branches)[head := c] && head == old(head) && origin == old(origin)
    {
      branches := branches[head := c];
    }

    /** A remote whose HEAD names no branch cannot be cloned. */
    method Clone(source: Heads, sourceHead: string) returns (ok: bool)
      modifies this
      ensures ok == (sourceHead in source)
      ensures ok ==> branches == source && head == sourceHead && origin == Some(source)
    {
      if sourceHead !in source {
        return false;
      }
      branches, head, origin := source, sourceHead, Some(source);
      ok := true;
    }

    /** Checkout: without `remote` the branch must be new. With it every branch of the origin is
        fetched over the local ones first, and only a branch still missing is created. A new branch
        starts at HEAD, which may not exist yet. */
    method Checkout(name: string, remote: bool) returns (ok: bool)
      modifies this
      ensures origin == old(origin)
      ensures !remote ==> ok == (name !in old(branches) && old(head) in old(branches))
      ensures !remote && ok ==> head == name && branches == old(branches)[name := old(branches)[old(head)]]
      ensures remote ==>
        ok == (old(origin).Some? && (name in old(branches) + origin.value || old(head) in old(branches) + origin.value))
      ensures remote && ok ==> head == name && branches == WithBranch(old(branches) + origin.value, old(head), name)
    {
      var create := true;
      if remote {
        if origin.None? {
          return false;
        }
        branches := branches + origin.value;
        create := name !in branches;
      }
      if create {
        if name in branches || head !in branches {
          return false;
        }
        branches := branches[name := branches[head]];
      }
      head := name;
      return true;
    }

    method RemoveBranch(name: string)
      modifies this`branches
      ensures branches == old(branches) - {name}
    {
      branches := branches - {name};
    }

    method CreateChildBranch(parent: string, child: string) returns (ok: bool)
      modifies this
      ensures origin == old(origin)
      ensures ok == (parent in old(branches) && child !in old(branches))
      ensures ok ==> head == child && branches == old(branches)[child := old(branches)[parent]]
    {
      if parent !in branches {
        return false;
      }
      head := parent;
      if child in branches {
        return false;
      }
      branches, head := branches[child := branches[parent]], child;
      return true;
    }

    /** CheckoutRemoteBranch: the branch has to exist once the origin is fetched. */
    method CheckoutRemoteBranch(name: string) returns (ok: bool)
      modifies this
      ensures origin == old(origin)
      ensures ok == (old(origin).Some? && name in old(branches) + origin.value)
      ensures ok ==> head == name && branches == old(branches) + origin.value
    {
      if origin.None? {
        return false;
      }
      branches := branches + origin.value;
      if name !in branches {
        return false;
      }
      head := name;
      ok := true;
    }

    /** CheckoutBranch: what becomes of a branch that is not the current one depends on the strategy. */
    method CheckoutBranch(name: string, strategy: Strategy) returns (ok: bool)
      modifies this
      ensures origin == old(origin)
      ensures old(head) !in old(branches) ==> !ok
      ensures old(head) in old(branches) && old(head) == name ==> ok && branches == old(branches) && head == name
      ensures old(head) in old(branches) && old(head) != name ==> ok == match strategy
        case Create => name !in old(branches)
        case Clone => old(origin).Some?
        case Import => old(origin).Some? && name in old(branches) + origin.value
      ensures ok ==> head == name
      ensures ok && old(head) != name ==> branches == match strategy
        case Create => old(branches)[name := old(branches)[old(head)]]
        case Clone => WithBranch(old(branches) + origin.value, old(head), name)
        case Import => old(branches) + origin.value
    {
      if head !in branches {
        return false;
      }
      if head == name {
        return true;
      }
      match strategy
      case Create =>
        ok := Checkout(name, false);
      case Clone =>
        ok := Checkout(name, true);
      case Import =>
        ok := CheckoutRemoteBranch(name);
    }

    /** The part of PrepareGitRepository that runs without a work directory: clone the project's own remote,
        then check out its default branch. */
    method CloneAndCheckOut(source: Heads, sourceHead: string, name: string, strategy: Strategy)
      returns (ok: bool)
      modifies this
      ensures ok == ClonesTo(source.Keys, sourceHead, name, strategy)
      ensures ok ==> head == name && branches == WithBranch(source, sourceHead, name)
    {
      ok := Clone(source, sourceHead);
      if !ok {
        return;
      }
      assert source + source == source;
      ok := CheckoutBranch(name, strategy);
    }

    /** initialProjectProvisioning: an empty project is initialised, another one cloned; the create
        strategy then squashes the history it cloned. */
    method Provision(p: Project)
      requires p.Valid()
      modifies this
      ensures p.OwnHistory() ==> branches == map[INIT_BRANCH := p.first] && head == INIT_BRANCH && origin == None
      ensures !p.OwnHistory() ==> branches == p.source && head == p.sourceHead && origin == Some(p.source)
    {
      if p.empty {
        Init();
        MakeCommit(p.first);
        return;
      }
      var _ := Clone(p.source, p.sourceHead);
      if !p.clone {
        Init();
        MakeCommit(p.first);
      }
    }

    /** PutProject.checkoutBranch, run on what Provision left. */
    method CheckoutDefault(p: Project) returns (ok: bool)
      requires p.Valid()
      requires p.OwnHistory() ==> branches == map[INIT_BRANCH := p.first] && head == INIT_BRANCH && origin == None
      requires !p.OwnHistory() ==> branches == p.source && head == p.sourceHead && origin == Some(p.source)
      modifies this
      ensures ok == PushedHeads(p).Some?
      ensures ok ==> branches == PushedHeads(p).value
    {
      assert !p.OwnHistory() ==> branches + origin.value == p.source;
      if p.Copies() {
        ok := CheckoutBranch(p.copyFrom, p.Kind());
        if ok {
          RemoveBranch(p.branch);
          ok := CreateChildBranch(p.copyFrom, p.branch);
        }
        return;
      }
      ok := CheckoutBranch(p.branch, p.Kind());
      if ok && p.OwnHistory() && p.branch != INIT_BRANCH {
        RemoveBranch(INIT_BRANCH);
      }
    }

    method PrepareHeads(p: Project) returns (ok: bool)
      requires p.Valid()
      modifies this
      ensures ok == PushedHeads(p).Some?
      ensures ok ==> branches == PushedHeads(p).value
    {
      Provision(p);
      ok := CheckoutDefault(p);
    }
  }

  /** What the push is for: the default branch is always among the pushed heads; a project whose
      history the operator wrote has that one commit on every head, and no other head unless another
      branch was to be copied; a copied branch has the default branch's tip; and a cloned project
      pushes every branch of its source, moving none but the default branch. */
  lemma PushedHeadsAreRight(p: Project)
    requires p.Valid() && PushedHeads(p).Some?
    ensures p.branch in PushedHeads(p).value
    ensures p.OwnHistory() && !p.Copies() ==> PushedHeads(p).value == map[p.branch := p.first]
    ensures p.OwnHistory() ==> forall b <- PushedHeads(p).value :: PushedHeads(p).value[b] == p.first
    ensures p.Copies() ==>
      && p.copyFrom in PushedHeads(p).value
      && PushedHeads(p).value[p.branch] == PushedHeads(p).value[p.copyFrom]
    ensures !p.OwnHistory() ==> forall b <- p.source ::
      && b in PushedHeads(p).value
      && (b != p.branch || !p.Copies() ==> PushedHeads(p).value[b] == p.source[b])
    ensures !p.OwnHistory() ==>
      && PushedHeads(p).value.Keys ==
           p.source.Keys + {p.branch} + (if p.Copies() then {p.copyFrom} else {})
      && (var wanted := if p.Copies() then p.copyFrom else p.branch;
          wanted !in p.source ==> PushedHeads(p).value[wanted] == p.source[p.sourceHead])
  {
  }

  /** The checkout succeeds for every create project, and for a cloned one unless it is declared empty
      and asks for a branch that `init` does not make. A stray init branch reaches the remote exactly
      when the operator's own history has a branch to copy and neither name is the init branch. */
  lemma WhenHeadsArePushed(p: Project)
    requires p.Valid()
    ensures !p.clone || !p.empty ==> PushedHeads(p).Some?
    ensures PushedHeads(p).Some? && p.OwnHistory() ==>
      ((exists b <- PushedHeads(p).value :: b != p.branch && b != p.copyFrom) <==>
         p.Copies() && INIT_BRANCH != p.branch && INIT_BRANCH != p.copyFrom)
  {
    if PushedHeads(p).Some? && p.OwnHistory() {
      assert p.Copies() ==> INIT_BRANCH in PushedHeads(p).value;
    }
  }

  // ---------- the other branches ----------

  type Histories = map<string, seq<Commit>>

  /** The branches of a remote after a push of every local branch; the ones that are not local stay. */
  function AfterPushAll(remote: Histories, local: Histories): Histories {
    remote + local
  }

  /** A push keeps the commits of a remote branch exactly when there is no local branch of that name, or
      the local one contains them; no other remote branch plays a role in that. */
  lemma WhenBranchIsKept(remote: Histories, local: Histories, b: string)
    requires b in remote
    ensures b in AfterPushAll(remote, local)
    ensures remote[b] <= AfterPushAll(remote, local)[b] <==> b !in local || remote[b] <= local[b]
  {
  }

  /** The branches of the remote, besides the default branch, that a first push carries a branch of its own
      for. The absence of the default branch, which is all that is checked before, says nothing of them. */
  function Touched(p: Project, names: set<string>): set<string>
    requires p.Valid() && PushedHeads(p).Some?
  {
    (PushedHeads(p).value.Keys - {p.branch}) * names
  }

  /** Only a project with its own history and no branch to copy can never touch another branch. */
  lemma WhatFirstPushTouches(p: Project, names: set<string>)
    requires p.Valid() && PushedHeads(p).Some?
    ensures Touched(p, names) ==
      ((if p.OwnHistory() then (if p.Copies() then {INIT_BRANCH, p.copyFrom} else {})
        else p.source.Keys + (if p.Copies() then {p.copyFrom} else {})) - {p.branch}) * names
  {
  }
}
