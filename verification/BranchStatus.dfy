/**
  The status of a CodebaseBranch under two writers. The reconciler writes whole objects, which the API
  server refuses when they are not based on the current version; the stale branch checker merge-patches
  the conditions at any moment, and is never refused.
*/
module BranchStatus {
  import opened Calls
  import RemoteRefs

  /** The conditions are opaque here: the reconciler must carry them, not read them. */
  type Conditions = seq<string>

  /** `created` is the git status branch-created. */
  datatype Status = Status(
    created: bool, history: seq<string>, build: Option<string>, lastBuild: Option<string>,
    failures: nat, conditions: Conditions)

  datatype Object = Object(version: nat, status: Status)

  /** What the chain reads of the CodebaseBranch and of its Codebase. */
  datatype Spec = Spec(
    branch: string, fromCommit: string, defaultBranch: string,
    version: Option<string>, semver: bool, available: bool)

  predicate NoRepeats(history: seq<string>) {
    forall i, j :: 0 <= i < j < |history| ==> history[i] != history[j]
  }

  // ---------- the status rewriters ----------

  /** setIntermediateSuccessFields and putGitBranchSetFailedFields of PutBranchInGit, and setFailedFields
      of CheckReferenceExists, rebuild the whole status but carry all of these fields. */
  function Carried(s: Status): Status {
    Status(s.created, s.history, s.build, s.lastBuild, s.failures, s.conditions)
  }

  /** setIntermediateSuccessFields of PutCodebaseImageStream, and setSuccessStatus: the failure count
      starts again. */
  function Succeeding(s: Status): Status {
    Status(s.created, s.history, s.build, s.lastBuild, 0, s.conditions)
  }

  /** setFailedFields of PutCodebaseImageStream also forgets the last successful build. */
  function ImageStreamFailed(s: Status): Status {
    Status(s.created, s.history, s.build, None, 0, s.conditions)
  }

  /** updateStatus: everything but the conditions comes from the reconciler's copy. */
  function Overwritten(current: Object, mine: Status): Object {
    current.(status := mine.(conditions := current.status.conditions))
  }

  // ---------- what one reconcile does to what it does not protect ----------

  /** The surroundings of one reconcile: what a cache that is behind returns for the object, and how four
      calls end unless they are refused: the write that records branch-created, the one that records a new
      version, the creation of the image stream, and the final updateStatus. While it is calm no other call
      fails and nobody else writes. */
  datatype Env = Env(
    calm: bool, cached: Option<Object>, claim: Outcome, append: Outcome, stream: Outcome, rewrite: Outcome)

  /** How a write that the API server refuses ends. */
  function Refused(o: Outcome): Outcome {
    if o.Seen() == Crashed then CrashBefore else Failed
  }

  /** A status but for the conditions. */
  datatype Kept = Kept(
    created: bool, history: seq<string>, build: Option<string>, lastBuild: Option<string>, failures: nat)

  function KeptOf(s: Status): Kept {
    Kept(s.created, s.history, s.build, s.lastBuild, s.failures)
  }

  /** There is a version to record, or one is missing. */
  predicate NewVersion(spec: Spec, history: seq<string>) {
    spec.semver && spec.version.Some? && spec.version.value !in history
  }

  predicate NoVersion(spec: Spec) {
    spec.semver && spec.version.None?
  }

  /** How a handler ended, and the persisted and the local status it left. */
  datatype End = End(reply: Reply, postponed: bool, stored: Kept, local: Kept)

  // Calm handlers, one by one. `stale` says that the local copy is behind, so that its writes are refused.

  function Initialised(spec: Spec, k: Kept): Kept {
    if spec.semver && k.build.None? then k.(build := Some("0")) else k
  }

  /** CheckReferenceExists and PutBranchInGit. */
  function BranchEnd(
    spec: Spec, stored: Kept, local: Kept, stale: bool, resolves: bool, canStart: bool, claim: Outcome): End
  {
    var created := local.(created := true);
    if local.created then End(Ok, false, stored, local)
    else if !resolves || stale then End(Err, false, stored, local)
    else if !spec.available then End(Err, true, local, local)
    else if !canStart then End(Err, false, local, local)
    else
      End(claim.Seen(), false, if claim.TookEffect() then created else local, if claim.Done? then created else local)
  }

  /** ProcessNewVersion. */
  function VersionEnd(spec: Spec, stored: Kept, local: Kept, stale: bool, append: Outcome): End {
    if NewVersion(spec, local.history) then
      var ended := if stale then Refused(append) else append;
      var next := local.(history := local.history + [spec.version.value], build := Some("0"), lastBuild := None);
      End(ended.Seen(), false, if ended.TookEffect() then next else stored, next)
    else End(if NoVersion(spec) then Err else Ok, false, stored, local)
  }

  /** PutCodebaseImageStream. */
  function StreamEnd(stored: Kept, local: Kept, stale: bool, stream: Outcome): End {
    var begun := local.(failures := 0);
    if stale then End(Err, false, stored, begun)
    else End(stream.Seen(), false, begun, if stream.Seen() == Err then begun.(lastBuild := None) else begun)
  }

  function ChainEnd(
    spec: Spec, stored: Kept, local: Kept, stale: bool, resolves: bool, canStart: bool, env: Env): End
  {
    var b := BranchEnd(spec, stored, local, stale, resolves, canStart, env.claim);
    if b.reply != Ok then b else RestEnd(spec, b.stored, b.local, stale, env)
  }

  function RestEnd(spec: Spec, stored: Kept, local: Kept, stale: bool, env: Env): End {
    var v := VersionEnd(spec, stored, local, stale, env.append);
    if v.reply != Ok then v else StreamEnd(v.stored, v.local, stale, env.stream)
  }

  /** setFailureCount or setSuccessStatus, and the final updateStatus. */
  function Recorded(e: End, rewrite: Outcome): Kept {
    if e.reply == Crashed || e.postponed || !rewrite.TookEffect() then e.stored
    else e.local.(failures := if e.reply == Ok then 0 else e.local.failures + 1)
  }

  /** What a calm reconcile of an object that has its labels and finalizer leaves persisted, from what was
      persisted before; `copy` is what the cache returned, if that was behind. */
  function CalmResult(
    spec: Spec, before: Kept, copy: Option<Kept>, resolves: bool, canStart: bool, env: Env): Kept
  {
    var read := if copy.Some? then copy.value else before;
    Recorded(ChainEnd(spec, before, Initialised(spec, read), copy.Some?, resolves, canStart, env), env.rewrite)
  }

  // ---------- what that means, field by field ----------

  /** A branch-created that was persisted before the reconcile, or by it, survives exactly unless the final
      write takes effect and puts back a copy that lacks it: an old one, or, when the answer to recording it
      did not come although the process lives on, the current one. */
  lemma WhenCreatedSurvives(
    spec: Spec, before: Kept, copy: Option<Kept>, resolves: bool, canStart: bool, env: Env)
    requires canStart ==> resolves
    requires before.created || (copy.None? && spec.available && canStart && env.claim.TookEffect())
    ensures CalmResult(spec, before, copy, resolves, canStart, env).created <==>
      || !env.rewrite.TookEffect()
      || (match copy
          case Some(c) => c.created
          case None => before.created || env.claim.Done? || env.claim.Seen() == Crashed)
  {
  }

  /** A persisted version survives exactly unless the copy is old and lacks it, and the final write takes
      effect; the latter does not happen when the process dies of recording another version before, and it
      does no harm when that is the version to be recorded. */
  lemma WhenVersionSurvives(
    spec: Spec, before: Kept, copy: Option<Kept>, resolves: bool, canStart: bool, env: Env, v: string)
    requires v in before.history
    ensures v in CalmResult(spec, before, copy, resolves, canStart, env).history <==>
      || copy.None? || v in copy.value.history || !env.rewrite.TookEffect()
      || (copy.value.created && NewVersion(spec, copy.value.history)
          && (spec.version == Some(v) || env.append.Seen() == Crashed))
  {
  }

  /** A new version is recorded, once the branch is, exactly when its own write takes effect, or fails
      and the final write carries it. With it, and never without it, the build number restarts and the last
      successful build is forgotten. */
  lemma WhenVersionIsRecorded(spec: Spec, before: Kept, resolves: bool, canStart: bool, env: Env)
    requires before.created && NewVersion(spec, before.history)
    ensures var r := CalmResult(spec, before, None, resolves, canStart, env);
      if env.append.TookEffect() || (env.append.Failed? && env.rewrite.TookEffect()) then
        r.history == before.history + [spec.version.value] && r.build == Some("0") && r.lastBuild == None
      else r.history == before.history && r.lastBuild == before.lastBuild
  {
  }

  /** From a current copy, the build number is kept, unless a version was recorded or semver had none; and
      the last successful build is kept, unless a version was recorded or the final write reports that the
      image stream could not be created. */
  lemma WhatBecomesOfBuild(spec: Spec, before: Kept, resolves: bool, canStart: bool, env: Env)
    requires canStart ==> resolves
    ensures var r := CalmResult(spec, before, None, resolves, canStart, env);
      && (r.history != before.history ==> r.build == Some("0") && r.lastBuild == None)
      && (r.history == before.history ==>
            r.build == before.build || (spec.semver && before.build.None? && r.build == Some("0")))
      && (r.history == before.history && before.lastBuild.Some? ==>
            (r.lastBuild == before.lastBuild <==> !StreamReportedMissing(spec, before, canStart, env)))
      && (r.history == before.history ==> r.lastBuild in {before.lastBuild, None})
  {
  }

  /** An old copy is put back as it is, but for what the reconcile did to it: a version to be recorded, a
      build number semver had none of, and the failure, counted from the image stream on anew. */
  lemma OldCopyIsPutBack(
    spec: Spec, before: Kept, c: Kept, resolves: bool, canStart: bool, env: Env)
    ensures var r := CalmResult(spec, before, Some(c), resolves, canStart, env);
      var appends := c.created && NewVersion(spec, c.history);
      if !env.rewrite.TookEffect() || (appends && env.append.Seen() == Crashed) then r == before
      else
        && r.created == c.created
        && r.history == (if appends then c.history + [spec.version.value] else c.history)
        && r.build == (if appends || (spec.semver && c.build.None?) then Some("0") else c.build)
        && r.lastBuild == (if appends then None else c.lastBuild)
        && r.failures == (if c.created && !appends && !NoVersion(spec) then 1 else c.failures + 1)
  {
  }

  /** The chain reaches the image stream, does not get it, and lives to say so. */
  predicate StreamReportedMissing(spec: Spec, before: Kept, canStart: bool, env: Env) {
    && (before.created || (spec.available && canStart && env.claim.Done?))
    && !NewVersion(spec, before.history) && !NoVersion(spec)
    && env.stream.Seen() == Err && env.rewrite.TookEffect()
  }

  /** A calm reconcile that reaches its end leaves exactly this, whether or not its final write arrives. */
  lemma SuccessIsRight(spec: Spec, before: Kept, resolves: bool, canStart: bool, env: Env)
    requires canStart ==> resolves
    requires before.created || (spec.available && canStart && env.claim.Done?)
    requires !NoVersion(spec) && env.stream.Done?
    requires NewVersion(spec, before.history) ==> env.append.Done?
    ensures var r := CalmResult(spec, before, None, resolves, canStart, env);
      && r.created && r.failures == 0
      && (if NewVersion(spec, before.history) then
            r.history == before.history + [spec.version.value] && r.build == Some("0") && r.lastBuild == None
          else
            && r.history == before.history && r.lastBuild == before.lastBuild
            && r.build == (if spec.semver && before.build.None? then Some("0") else before.build))
  {
  }

  /** A failure is counted: on top of those before, or as the first one when the chain had got as far as the
      image stream. */
  lemma FailuresAreCounted(spec: Spec, before: Kept, resolves: bool, canStart: bool, env: Env)
    requires canStart ==> resolves
    requires env.rewrite.TookEffect() && env.stream.Seen() != Crashed
    requires env.claim.Seen() != Crashed && env.append.Seen() != Crashed
    ensures var r := CalmResult(spec, before, None, resolves, canStart, env);
      if !before.created && !(canStart && spec.available && env.claim.Done?) then
        r.failures == if resolves && !spec.available then before.failures else before.failures + 1
      else if NoVersion(spec) || (NewVersion(spec, before.history) && !env.append.Done?) then
        r.failures == before.failures + 1
      else r.failures == if env.stream.Done? then 0 else 1
  {
  }

  // ---------- what holds in any weather ----------

  /** What a reconcile may not go below: branch-created, if it was there; versions; and, unless nothing is
      asked of them, the build number and the last successful build. */
  datatype Floor = Floor(
    created: bool, versions: seq<string>, builds: Option<(Option<string>, Option<string>)>)

  predicate Above(spec: Spec, floor: Floor, s: Status) {
    && (floor.created ==> s.created)
    && (forall v <- floor.versions :: v in s.history)
    && (floor.builds.Some? ==>
          && (s.build == floor.builds.value.0 || (spec.semver && s.build == Some("0")))
          && (s.lastBuild == floor.builds.value.1 || s.lastBuild == None))
  }

  function Shared(a: seq<string>, b: seq<string>): (c: seq<string>)
    ensures forall v :: v in c <==> v in a && v in b
  {
    if a == [] then [] else (if a[0] in b then [a[0]] else []) + Shared(a[1..], b)
  }

  class Reconciler {
    const spec: Spec
    const remote: RemoteRefs.Remote
    var stored: Object
    var local: Object
    /** The conditions as the checker last patched them, and the floor of the current reconcile. */
    ghost var lastPatch: Conditions
    ghost var floor: Floor

    /** What is persisted: the conditions are the checker's, branch-created is true of the remote, and no
        version is recorded twice. */
    ghost predicate Sound()
      reads this, remote
    {
      && stored.status.conditions == lastPatch
      && Believable(stored.status)
    }

    ghost predicate Believable(s: Status)
      reads this, remote
    {
      && (s.created ==> RemoteRefs.BranchRef(spec.branch) in remote.refs)
      && NoRepeats(s.history)
    }

    /** The local copy may be behind; when it is not, it has the current conditions. */
    ghost predicate Based(o: Object)
      reads this, remote
    {
      && o.version <= stored.version
      && (o.version == stored.version ==> o.status.conditions == stored.status.conditions)
      && Believable(o.status)
    }

    ghost predicate Inv()
      reads this, remote
    {
      Sound() && Based(local)
    }

    /** When the copy is not behind, it agrees with what is persisted. */
    ghost predicate Aligned()
      reads this
    {
      local.version == stored.version ==> KeptOf(local.status) == KeptOf(stored.status)
    }

    ghost predicate OnFloor()
      reads this
    {
      Above(spec, floor, stored.status) && Above(spec, floor, local.status)
    }

    /** The copy is behind. */
    predicate Stale()
      reads this
    {
      local.version < stored.version
    }

    /** A calm handler ended like this. */
    ghost predicate Ended(e: End, r: Reply)
      reads this
    {
      r == e.reply && KeptOf(stored.status) == e.stored && KeptOf(local.status) == e.local
    }

    constructor (spec: Spec, remote: RemoteRefs.Remote, conditions: Conditions)
      ensures this.spec == spec && this.remote == remote && Inv()
      ensures stored == local == Object(0, Status(false, [], None, None, 0, conditions))
    {
      this.spec, this.remote := spec, remote;
      this.stored := Object(0, Status(false, [], None, None, 0, conditions));
      this.local := Object(0, Status(false, [], None, None, 0, conditions));
      this.lastPatch := conditions;
      this.floor := Floor(false, [], None);
    }

    /** While a call is under way the checker may patch the conditions, and labels or the specification
        may be edited; each is a new version of the object. */
    method Call() returns (o: Outcome)
      requires Inv()
      modifies this`stored, this`lastPatch
      ensures Inv() && old(stored.version) <= stored.version && (old(Aligned()) ==> Aligned())
      ensures stored.status == old(stored.status).(conditions := lastPatch)
      ensures stored.version == old(stored.version) ==> stored == old(stored)
      ensures remote.calm ==> o == Done && stored == old(stored)
    {
      if remote.calm {
        return Done;
      }
      o := *;
      var patched: bool, edits: nat, conditions: Conditions := *, *, *;
      if patched {
        lastPatch := conditions;
        stored := stored.(version := stored.version + 1, status := stored.status.(conditions := conditions));
      }
      stored := stored.(version := stored.version + edits);
    }

    /** An older version a cache may still hold: it was sound when it was current, and what it claims
        about the remote stays true. */
    predicate Plausible(o: Object)
      reads this, remote
    {
      && o.version < stored.version
      && (o.status.created ==> RemoteRefs.BranchRef(spec.branch) in remote.refs)
      && NoRepeats(o.status.history)
    }

    /** client.Get through the cache: the current object or an old one. */
    method Get(cached: Option<Object>) returns (o: Object, r: Reply)
      requires Inv()
      modifies this`stored, this`lastPatch
      ensures Inv() && Based(o) && old(stored.version) <= stored.version && (old(Aligned()) ==> Aligned())
      ensures stored.status == old(stored.status).(conditions := lastPatch)
      ensures o == stored || (cached == Some(o) && o.version < stored.version)
      ensures remote.calm ==>
        && r == Ok && stored == old(stored)
        && o == if cached.Some? && Plausible(cached.value) then cached.value else stored
    {
      var outcome := Call();
      o, r := stored, outcome.Seen();
      if cached.Some? && Plausible(cached.value) {
        o := cached.value;
      }
    }

    /** The API server's side of client.Status().Update: refused when the object has moved on. */
    method Write(o: Object, outcome: Outcome) returns (after: Object, ended: Outcome)
      requires Inv() && Based(o)
      modifies this`stored
      ensures Sound() && Based(local) && Based(after)
      ensures ended == if o.version == old(stored.version) then outcome else Refused(outcome)
      ensures stored == if ended.TookEffect() then Object(old(stored.version) + 1, o.status) else old(stored)
      ensures after == if ended == Done then stored else o
    {
      after := o;
      if o.version != stored.version {
        return after, Refused(outcome);
      }
      if outcome.TookEffect() {
        stored := Object(stored.version + 1, o.status);
        if outcome == Done {
          after := stored;
        }
      }
      ended := outcome;
    }

    /** client.Status().Update of the local copy. */
    method UpdateStatus() returns (ended: Outcome)
      requires Inv()
      modifies this`stored, this`lastPatch, this`local
      ensures Inv() && old(stored.version) <= stored.version && local.status == old(local.status)
      ensures ended == Done ==> stored == local
      ensures ended != Done ==> local == old(local)
      ensures ended.TookEffect() ==> stored.status == local.status && old(local.version) == old(stored.version)
      ensures !ended.TookEffect() ==> stored.status == old(stored.status).(conditions := lastPatch)
      ensures remote.calm ==>
        && ended == (if old(local.version) == old(stored.version) then Done else Failed)
        && (ended == Failed ==> stored == old(stored))
    {
      var outcome := Call();
      local, ended := Write(local, outcome);
    }

    /** client.Update: the status is a subresource, so it is not written; the answer replaces the local
        copy, status included. */
    method UpdateObject() returns (r: Reply)
      requires Inv() && Aligned()
      modifies this`stored, this`lastPatch, this`local
      ensures Inv() && Aligned() && old(stored.version) <= stored.version
      ensures stored.status == old(stored.status).(conditions := lastPatch)
      ensures r == Ok ==> local == stored && old(local.version) == old(stored.version)
      ensures r != Ok ==> local == old(local)
      ensures KeptOf(local.status) == KeptOf(old(local.status))
      ensures remote.calm ==>
        && r == (if old(local.version) == old(stored.version) then Ok else Err)
        && (r == Err ==> stored == old(stored))
    {
      var outcome := Call();
      if local.version != stored.version {
        return if outcome.Seen() == Crashed then Crashed else Err;
      }
      if outcome.TookEffect() {
        stored := stored.(version := stored.version + 1);
        if outcome == Done {
          local := stored;
        }
      }
      r := outcome.Seen();
    }

    /** ReconcileCodebaseBranch.updateStatus: read the object again, replace its status by the local one
        but for the conditions, write it. */
    method WriteStatus(rewrite: Outcome) returns (r: Reply, rewrote: bool)
      requires Inv()
      modifies this`stored, this`lastPatch
      ensures Inv()
      ensures rewrote ==> stored.status == Overwritten(stored, local.status).status
      ensures !rewrote ==> stored.status == old(stored.status).(conditions := lastPatch)
      ensures r == Ok ==> rewrote
      ensures remote.calm ==> r == rewrite.Seen() && rewrote == rewrite.TookEffect()
    {
      var cached: Option<Object> := *;
      var current;
      current, r := Get(if remote.calm then None else cached);
      if r != Ok {
        return r, false;
      }
      var _ := Call();
      var written, ended;
      written, ended := Write(Overwritten(current, local.status), rewrite);
      r, rewrote := ended.Seen(), ended.TookEffect();
    }

    /** A read that can fail, of something other than the branch. */
    method Read() returns (r: Reply)
      requires Inv()
      modifies this`stored, this`lastPatch
      ensures Inv() && old(stored.version) <= stored.version && (old(Aligned()) ==> Aligned())
      ensures stored.status == old(stored.status).(conditions := lastPatch)
      ensures remote.calm ==> r == Ok && stored == old(stored)
    {
      var outcome := Call();
      r := outcome.Seen();
    }

    // ---------- the chain ----------

    function FromRef(): string {
      if spec.fromCommit == "" then spec.defaultBranch else spec.fromCommit
    }

    /** The check of the start reference passes. */
    predicate Resolves()
      reads remote
    {
      spec.fromCommit == "" || remote.Resolved(spec.fromCommit).Some?
    }

    predicate CanStart()
      reads remote
    {
      remote.CanStart(spec.branch, FromRef())
    }

    /** The branch, if it is new, points where its start reference does: what the specification asks for, or
        the default branch. */
    ghost predicate StartedAt(refs: map<string, RemoteRefs.Hash>, adv: RemoteRefs.Advertisement)
      reads this, remote
    {
      var b := RemoteRefs.BranchRef(spec.branch);
      && b in remote.refs
      && (b in refs ==> remote.refs[b] == refs[b])
      && (b !in refs ==>
            Some(remote.refs[b]) ==
            RemoteRefs.Resolve(adv, if spec.fromCommit == "" then spec.defaultBranch else spec.fromCommit))
    }

    /** CheckReferenceExists. */
    method CheckReferenceExists() returns (r: Reply)
      requires Inv()
      modifies this`stored, this`lastPatch, this`local, remote
      ensures Inv() && remote.Grew(old(remote.refs)) && remote.calm == old(remote.calm)
      ensures local == old(local) && old(stored.version) <= stored.version
      ensures stored.status == old(stored.status).(conditions := lastPatch)
      ensures r == Ok && !local.status.created && spec.fromCommit != "" ==> remote.Resolved(spec.fromCommit).Some?
      ensures local.status.created || spec.fromCommit == "" ==> r == Ok && stored == old(stored)
      ensures remote.calm ==>
        && stored == old(stored) && CanStart() == old(CanStart())
        && r == if local.status.created || old(Resolves()) then Ok else Err
    {
      if local.status.created || spec.fromCommit == "" {
        return Ok;
      }
      r := Read(); // the codebase, the Git server and its secret
      if r == Ok {
        var hash;
        hash, r := remote.ResolveRemoteReference(spec.fromCommit);
      }
      if r == Err {
        local := local.(status := Carried(local.status));
      }
    }

    /** PutBranchInGit: the status says branch-created only after the remote had the branch, and not when
        that status could not be written. `claim` is how that write ends unless it is refused. */
    method PutBranchInGit(claim: Outcome) returns (r: Reply, postponed: bool)
      requires Inv()
      modifies this`stored, this`lastPatch, this`local, remote
      ensures Inv() && remote.Grew(old(remote.refs)) && remote.calm == old(remote.calm)
      ensures old(OnFloor()) ==> OnFloor()
      ensures r == Ok ==> KeptOf(local.status) == KeptOf(old(local.status)).(created := true)
      ensures r == Ok && !old(local.status.created) ==> stored == local && spec.available && !old(Stale())
      ensures postponed ==> r == Err && !spec.available
      ensures r == Err ==> !local.status.created
      ensures old(local.status.created) ==> r == Ok && !postponed && local == old(local) && stored == old(stored)
      ensures remote.calm ==>
        var e := BranchEnd(spec, KeptOf(old(stored.status)), KeptOf(old(local.status)), old(Stale()), true,
                           old(CanStart()), claim);
        Ended(e, r) && postponed == e.postponed && (r == Ok ==> Stale() == old(Stale()))
      ensures remote.calm && r == Ok && !old(local.status.created) ==>
        StartedAt(old(remote.refs), old(remote.Advertised()))
    {
      postponed := false;
      if local.status.created {
        return Ok, false;
      }
      local := local.(status := Carried(local.status));
      var ended := UpdateStatus();
      if ended != Done {
        return ended.Seen(), false;
      }
      r, postponed := CreateBranch();
      if postponed || r == Crashed {
        return;
      }
      if r != Ok {
        local := local.(status := Carried(local.status));
        return;
      }
      r := RecordCreated(claim);
    }

    /** The middle of PutBranchInGit: read what is needed, create the branch on the remote. */
    method CreateBranch() returns (r: Reply, postponed: bool)
      requires Inv()
      modifies this`stored, this`lastPatch, remote
      ensures Inv() && remote.Grew(old(remote.refs)) && remote.calm == old(remote.calm)
      ensures stored.status == old(stored.status).(conditions := lastPatch) && old(stored.version) <= stored.version
      ensures r == Ok ==> spec.available && RemoteRefs.BranchRef(spec.branch) in remote.refs
      ensures postponed ==> r == Err && !spec.available
      ensures remote.calm ==>
        && stored == old(stored)
        && (r == Ok <==> spec.available && old(CanStart()))
        && r != Crashed && (postponed <==> !spec.available)
      ensures remote.calm && r == Ok ==> StartedAt(old(remote.refs), old(remote.Advertised()))
    {
      postponed := false;
      r := Read(); // the codebase
      if r == Ok && !spec.available {
        return Err, true;
      }
      if r == Ok {
        r := Read(); // the Git server and its secret
      }
      if r == Ok {
        ghost var sent, seen;
        r, sent, seen := remote.CreateRemoteBranch(spec.branch, FromRef());
      }
    }

    /** The end of PutBranchInGit: record branch-created, and clear it again when that may have failed. */
    method RecordCreated(claim: Outcome) returns (r: Reply)
      requires Inv() && !local.status.created
      requires RemoteRefs.BranchRef(spec.branch) in remote.refs
      modifies this`stored, this`lastPatch, this`local
      ensures Inv()
      ensures old(OnFloor()) ==> OnFloor()
      ensures KeptOf(local.status) == KeptOf(old(local.status)).(created := r == Ok)
      ensures r == Ok ==> stored == local && !old(Stale())
      ensures remote.calm && !old(Stale()) ==>
        && r == claim.Seen()
        && KeptOf(stored.status) == if claim.TookEffect() then KeptOf(old(local.status)).(created := true)
                                    else KeptOf(old(stored.status))
    {
      local := local.(status := local.status.(created := true));
      var _ := Call();
      var ended;
      local, ended := Write(local, claim);
      if ended != Done {
        local := local.(status := Carried(local.status.(created := false)));
      }
      r := ended.Seen();
    }

    /** ProcessNewVersion: a version not yet in the history is appended, and the build number restarts. */
    method ProcessNewVersion(append: Outcome) returns (r: Reply)
      requires Inv()
      modifies this`stored, this`lastPatch, this`local
      ensures Inv()
      ensures old(OnFloor()) ==> OnFloor()
      ensures r == Ok ==> !NoVersion(spec) && old(stored.version) <= stored.version
      ensures r == Ok && NewVersion(spec, old(local.status.history)) ==>
        && stored == local && !old(Stale())
        && local.status == old(local.status).(
             history := old(local.status.history) + [spec.version.value], build := Some("0"), lastBuild := None)
      ensures !NewVersion(spec, old(local.status.history)) ==> local == old(local)
      ensures remote.calm ==>
        && Ended(VersionEnd(spec, KeptOf(old(stored.status)), KeptOf(old(local.status)), old(Stale()), append), r)
        && (r == Ok ==> Stale() == old(Stale()))
    {
      r := Read();
      if r != Ok || !spec.semver {
        return;
      }
      if spec.version.None? {
        return Err;
      }
      if spec.version.value in local.status.history {
        return Ok;
      }
      r := AppendVersion(spec.version.value, append);
    }

    method AppendVersion(version: string, append: Outcome) returns (r: Reply)
      requires Inv() && spec.semver && version !in local.status.history
      modifies this`stored, this`lastPatch, this`local
      ensures Inv() && old(stored.version) <= stored.version
      ensures old(OnFloor()) ==> OnFloor()
      ensures r == Ok ==> stored == local && !old(Stale())
      ensures local.status == old(local.status).(
        history := old(local.status.history) + [version], build := Some("0"), lastBuild := None)
      ensures remote.calm ==>
        var ended := if old(Stale()) then Refused(append) else append;
        && r == ended.Seen()
        && KeptOf(stored.status) == if ended.TookEffect() then KeptOf(local.status) else KeptOf(old(stored.status))
    {
      local := local.(status := local.status.(
        history := local.status.history + [version], build := Some("0"), lastBuild := None));
      var _ := Call();
      var ended;
      local, ended := Write(local, append);
      r := ended.Seen();
    }

    /** PutCodebaseImageStream. */
    method PutCodebaseImageStream(stream: Outcome) returns (r: Reply)
      requires Inv()
      modifies this`stored, this`lastPatch, this`local
      ensures Inv()
      ensures old(OnFloor()) ==> OnFloor()
      ensures local.status.created == old(local.status.created) && local.status.history == old(local.status.history)
      ensures r == Ok ==>
        && !old(Stale())
        && KeptOf(local.status) == KeptOf(old(local.status)).(failures := 0)
        && KeptOf(stored.status) == KeptOf(local.status)
      ensures remote.calm ==>
        Ended(StreamEnd(KeptOf(old(stored.status)), KeptOf(old(local.status)), old(Stale()), stream), r)
    {
      local := local.(status := Succeeding(local.status));
      var ended := UpdateStatus();
      if ended != Done {
        return ended.Seen();
      }
      r := UpdateObject();
      if r != Ok {
        return;
      }
      r := Read(); // the codebase
      if r == Ok {
        var _ := Call();
        r := stream.Seen();
      }
      if r == Err {
        local := local.(status := ImageStreamFailed(local.status));
      }
    }

    /** What the fields are after the part of the chain that ends well. */
    ghost predicate Succeeded(k: Kept)
      reads this
    {
      && !NoVersion(spec)
      && local.status.created == k.created && local.status.failures == 0
      && (if NewVersion(spec, k.history) then
            && local.status.history == k.history + [spec.version.value]
            && local.status.build == Some("0") && local.status.lastBuild == None
          else
            local.status.history == k.history && local.status.build == k.build && local.status.lastBuild == k.lastBuild)
      && KeptOf(stored.status) == KeptOf(local.status)
    }

    /** The chain, in order. */
    method ServeChain(env: Env) returns (r: Reply, postponed: bool)
      requires Inv()
      modifies this`stored, this`lastPatch, this`local, remote
      ensures Inv() && remote.Grew(old(remote.refs)) && remote.calm == old(remote.calm)
      ensures old(OnFloor()) ==> OnFloor()
      ensures r == Ok ==> !old(Stale()) && local.status.created
      ensures r == Ok ==> Succeeded(KeptOf(old(local.status)).(created := true))
      ensures remote.calm ==>
        var e := ChainEnd(spec, KeptOf(old(stored.status)), KeptOf(old(local.status)), old(Stale()),
                          old(Resolves()), old(CanStart()), env);
        Ended(e, r) && postponed == e.postponed
    {
      postponed := false;
      r := CheckReferenceExists();
      if r != Ok {
        return;
      }
      r, postponed := PutBranchInGit(env.claim);
      if r != Ok {
        return;
      }
      r := ServeRest(env);
    }

    /** The part of the chain that runs once the branch is there. */
    method ServeRest(env: Env) returns (r: Reply)
      requires Inv()
      modifies this`stored, this`lastPatch, this`local
      ensures Inv()
      ensures old(OnFloor()) ==> OnFloor()
      ensures r == Ok ==> !old(Stale()) && Succeeded(KeptOf(old(local.status)))
      ensures remote.calm ==>
        Ended(RestEnd(spec, KeptOf(old(stored.status)), KeptOf(old(local.status)), old(Stale()), env), r)
    {
      r := ProcessNewVersion(env.append);
      if r != Ok {
        return;
      }
      r := PutCodebaseImageStream(env.stream);
    }

    // ---------- the controller ----------

    /** Removing the finalizer, with a bounded number of retries on conflict. */
    method ReleaseFinalizer() returns (r: Reply)
      requires Inv()
      modifies this`stored, this`lastPatch, this`local
      ensures Inv()
      ensures stored.status == old(stored.status).(conditions := lastPatch)
    {
      r := Err;
      for i := 0 to 5
        invariant Inv()
        invariant stored.status == old(stored.status).(conditions := lastPatch)
      {
        var cached: Option<Object> := *;
        local, r := Get(cached);
        if r == Ok {
          r := UpdateObject();
        }
        if r != Err {
          return;
        }
      }
    }

    /** What a finished reconcile leaves, from what was persisted before: the branch is recorded; a new
        version is, and then the build number restarts and the last successful build is forgotten; and
        otherwise both are as they were, but that semver starts at 0. */
    ghost predicate Fulfilled(before: Status)
      reads this
    {
      && stored.status.created && stored.status.failures == 0 && !NoVersion(spec)
      && (if NewVersion(spec, before.history) then
            && stored.status.history == before.history + [spec.version.value]
            && stored.status.build == Some("0") && stored.status.lastBuild == None
          else
            && stored.status.history == before.history && stored.status.lastBuild == before.lastBuild
            && stored.status.build == (if spec.semver && before.build.None? then Some("0") else before.build))
    }

    /** Reconcile. The flags say what the object already has; `finished` is set at the end of the full
        pass only. Deleting a branch never writes its status. In any weather, only a cached copy that lacks
        it can make a reconcile erase a recorded branch-created or a recorded version, or change a build
        number but to restart it; in calm, what is persisted afterwards is settled by the surroundings. */
    method Reconcile(pipelinesSet: bool, owned: bool, labelled: bool, finalizer: bool, terminating: bool, env: Env)
      returns (r: Reply, finished: bool)
      requires Inv()
      modifies this`stored, this`lastPatch, this`local, this`floor, remote
      ensures Inv() && remote.Grew(old(remote.refs))
      ensures old(stored.status.created) && (env.cached.Some? ==> env.cached.value.status.created) ==>
        stored.status.created
      ensures forall v <- old(stored.status.history) ::
        (env.cached.Some? ==> v in env.cached.value.status.history) ==> v in stored.status.history
      ensures env.cached.None? ==>
        && (stored.status.build == old(stored.status.build) || (spec.semver && stored.status.build == Some("0")))
        && stored.status.lastBuild in {old(stored.status.lastBuild), None}
      ensures finished ==> Fulfilled(old(stored.status)) && RemoteRefs.BranchRef(spec.branch) in remote.refs
      ensures terminating && pipelinesSet && owned ==>
        !finished && stored.status == old(stored.status).(conditions := lastPatch)
      ensures env.calm && pipelinesSet && owned && labelled && finalizer && !terminating ==>
        KeptOf(stored.status) ==
        CalmResult(spec, KeptOf(old(stored.status)), old(Cached(env.cached)), old(Resolves()), old(CanStart()), env)
    {
      finished := false;
      var gone;
      r, gone := Fetch(env);
      if gone && terminating {
        r := ReleaseFinalizer(); // the end of a cascade
      }
      if r != Ok || gone {
        return;
      }
      r, finished := HandleCopy(pipelinesSet, owned, labelled, finalizer, terminating, env);
    }

    /** The reads Reconcile begins with: the object, and the codebase, which may be gone. */
    method Fetch(env: Env) returns (r: Reply, gone: bool)
      requires Inv()
      modifies this`stored, this`lastPatch, this`local, this`floor, remote`calm
      ensures Inv() && remote.calm == env.calm
      ensures floor == old(FloorOf(env.cached)) && Above(spec, floor, stored.status)
      ensures r == Ok ==> Aligned() && OnFloor()
      ensures stored.status == old(stored.status).(conditions := lastPatch)
      ensures env.calm ==>
        && r == Ok && !gone && stored == old(stored)
        && Stale() == old(Cached(env.cached)).Some?
        && KeptOf(local.status) == match old(Cached(env.cached))
                                   case Some(k) => k
                                   case None => KeptOf(stored.status)
    {
      gone := false;
      floor := FloorOf(env.cached);
      remote.calm := env.calm;
      local, r := Get(env.cached);
      if r == Ok {
        r := Read();
        gone := *;
        gone := gone && r == Err;
      }
    }

    /** What is persisted, as far as the cached copy has it too. */
    ghost function FloorOf(cached: Option<Object>): (f: Floor)
      reads this
      ensures Above(spec, f, stored.status) && (cached.Some? ==> Above(spec, f, cached.value.status))
    {
      match cached
      case None => Floor(stored.status.created, stored.status.history,
                         Some((stored.status.build, stored.status.lastBuild)))
      case Some(o) =>
        Floor(stored.status.created && o.status.created, Shared(stored.status.history, o.status.history), None)
    }

    /** The rest of Reconcile, with the copy at hand. */
    method HandleCopy(
      pipelinesSet: bool, owned: bool, labelled: bool, finalizer: bool, terminating: bool, env: Env)
      returns (r: Reply, finished: bool)
      requires Inv() && Aligned() && OnFloor()
      modifies this`stored, this`lastPatch, this`local, remote
      ensures Inv() && remote.Grew(old(remote.refs))
      ensures Above(spec, floor, stored.status)
      ensures finished ==> Fulfilled(old(stored.status))
      ensures terminating && pipelinesSet && owned ==>
        !finished && stored.status == old(stored.status).(conditions := lastPatch)
      ensures old(remote.calm) && pipelinesSet && owned && labelled && finalizer && !terminating ==>
        Settled(KeptOf(old(stored.status)), KeptOf(old(local.status)), old(Stale()),
                old(Resolves()), old(CanStart()), env)
    {
      finished := false;
      if !pipelinesSet {
        r := UpdateObject();
        return;
      }
      if !owned {
        var rewrote;
        r, rewrote := WriteStatus(env.rewrite);
        return if r == Crashed then Crashed else Err, false;
      }
      if !labelled {
        r := UpdateObject(); // an error is only logged
        if r == Crashed {
          return;
        }
      }
      if terminating {
        r := ReleaseFinalizer();
        return;
      }
      if !finalizer {
        r := UpdateObject();
        if r != Ok {
          return;
        }
      }
      r, finished := ServeAndRecord(env);
    }

    /** A calm reconcile was settled by its surroundings. */
    ghost predicate Settled(before: Kept, read: Kept, stale: bool, resolves: bool, canStart: bool, env: Env)
      reads this
    {
      KeptOf(stored.status) ==
      Recorded(ChainEnd(spec, before, Initialised(spec, read), stale, resolves, canStart, env), env.rewrite)
    }

    /** What a cache that is behind returns, if there is one. */
    function Cached(cached: Option<Object>): Option<Kept>
      reads this, remote
    {
      if cached.Some? && Plausible(cached.value) then Some(KeptOf(cached.value.status)) else None
    }

    /** The chain, and what its result makes of the status. */
    method ServeAndRecord(env: Env) returns (r: Reply, finished: bool)
      requires Inv() && Aligned() && OnFloor()
      modifies this`stored, this`lastPatch, this`local, remote
      ensures Inv() && remote.Grew(old(remote.refs))
      ensures Above(spec, floor, stored.status)
      ensures finished ==> Fulfilled(old(stored.status))
      ensures old(remote.calm) ==>
        Settled(KeptOf(old(stored.status)), KeptOf(old(local.status)), old(Stale()),
                old(Resolves()), old(CanStart()), env)
    {
      finished := false;
      if spec.semver && local.status.build.None? {
        local := local.(status := local.status.(build := Some("0")));
      }
      var postponed;
      r, postponed := ServeChain(env);
      if r == Crashed || (r == Err && postponed) {
        return;
      }
      r, finished := RecordResult(r == Ok, env.rewrite);
    }

    /** setFailureCount or setSuccessStatus, and the write that follows. */
    method RecordResult(success: bool, rewrite: Outcome) returns (r: Reply, finished: bool)
      requires Inv()
      modifies this`stored, this`lastPatch, this`local
      ensures Inv()
      ensures old(OnFloor()) ==> Above(spec, floor, stored.status)
      ensures finished ==> success && KeptOf(stored.status) == KeptOf(old(local.status)).(failures := 0)
      ensures remote.calm ==>
        KeptOf(stored.status) ==
        if !rewrite.TookEffect() then KeptOf(old(stored.status))
        else KeptOf(old(local.status)).(failures := if success then 0 else old(local.status.failures) + 1)
    {
      finished := false;
      var rewrote;
      if !success {
        local := local.(status := local.status.(failures := local.status.failures + 1));
        r, rewrote := WriteStatus(rewrite);
        return if r == Crashed then Crashed else Err, false;
      }
      local := local.(status := Succeeding(local.status));
      r, rewrote := WriteStatus(rewrite);
      finished := r == Ok;
    }

    /** Any number of reconciles, with the checker patching at every turn. */
    method Run(reconciles: nat)
      requires Inv()
      modifies this`stored, this`lastPatch, this`local, this`floor, remote
      ensures Inv() && remote.Grew(old(remote.refs))
    {
      for i := 0 to reconciles
        invariant Inv() && remote.Grew(old(remote.refs))
      {
        var a: bool, b: bool, c: bool, d: bool, e: bool := *, *, *, *, *;
        var env: Env := *;
        var _, _ := Reconcile(a, b, c, d, e, env);
      }
    }

    // ---------- reconciles that erase what was persisted ----------

    /** The branch is created and recorded, the answer is lost, and the same reconcile erases the record:
        had its final write failed, it would have stayed. */
    method LostAnswerErasesCreated()
      requires Inv() && !stored.status.created && spec.available && Resolves() && CanStart()
      modifies this`stored, this`lastPatch, this`local, this`floor, remote
      ensures Inv() && !stored.status.created
      ensures CalmResult(spec, KeptOf(old(stored.status)), None, true, true,
                         Env(true, None, Lost, Done, Done, Failed)).created
    {
      var _, _ := Reconcile(true, true, true, true, false, Env(true, None, Lost, Done, Done, Done));
    }

    /** Without any failure, a reconcile from a cached copy of before branch-created erases the record. */
    method StaleReadErasesCreated(stale: Object)
      requires Inv() && stored.status.created && Plausible(stale) && !stale.status.created
      modifies this`stored, this`lastPatch, this`local, this`floor, remote
      ensures Inv() && !stored.status.created
    {
      var _, _ := Reconcile(true, true, true, true, false, Env(true, Some(stale), Done, Done, Done, Done));
    }

    /** Likewise a version that the cached copy does not have, unless it is the one to be recorded. */
    method StaleReadErasesVersion(stale: Object, v: string)
      requires Inv() && v in stored.status.history && Plausible(stale) && v !in stale.status.history
      requires spec.version != Some(v)
      modifies this`stored, this`lastPatch, this`local, this`floor, remote
      ensures Inv() && v !in stored.status.history
    {
      var _, _ := Reconcile(true, true, true, true, false, Env(true, Some(stale), Done, Done, Done, Done));
    }
  }

  // ---------- why carrying the conditions is enough ----------

  /** A write reaching the API server: the checker's patch, or a status update of an object that somebody
      prepared from a copy. */
  datatype Write = Patch(conditions: Conditions) | Update(prepared: Object)

  function Apply(o: Object, w: Write): Object {
    match w
    case Patch(c) => Object(o.version + 1, o.status.(conditions := c))
    case Update(p) => if p.version == o.version then Object(o.version + 1, p.status) else o
  }

  function Play(o: Object, ws: seq<Write>): Object {
    if ws == [] then o else Apply(Play(o, ws[..|ws| - 1]), ws[|ws| - 1])
  }

  function LastPatch(c: Conditions, ws: seq<Write>): Conditions {
    if ws == [] then c
    else if ws[|ws| - 1].Patch? then ws[|ws| - 1].conditions
    else LastPatch(c, ws[..|ws| - 1])
  }

  /** The k-th write was prepared from a copy read after some earlier write, however long ago, whose
      conditions it carries; the rest of its status is arbitrary. */
  ghost predicate CarriesWhatItRead(o: Object, ws: seq<Write>, k: nat)
    requires k < |ws|
  {
    ws[k].Update? ==>
      exists j :: 0 <= j <= k && (var read := Play(o, ws[..j]);
        ws[k].prepared.version == read.version && ws[k].prepared.status.conditions == read.status.conditions)
  }

  /** Every effective write moves the version, so equal versions mean equal objects. */
  lemma {:induction false} VersionsIdentify(o: Object, ws: seq<Write>, j: nat)
    requires j <= |ws|
    ensures Play(o, ws[..j]).version <= Play(o, ws).version
    ensures Play(o, ws[..j]).version == Play(o, ws).version ==> Play(o, ws[..j]) == Play(o, ws)
  {
    if j == |ws| {
      assert ws[..j] == ws;
    } else {
      var n := |ws| - 1;
      assert ws[..n][..j] == ws[..j];
      VersionsIdentify(o, ws[..n], j);
    }
  }

  /** Conditions have one owner: in every interleaving of patches with updates based on copies of any
      age, the persisted conditions are the last patched ones. */
  lemma {:induction false} ConditionsHaveOneOwner(o: Object, ws: seq<Write>)
    requires forall k :: 0 <= k < |ws| ==> CarriesWhatItRead(o, ws, k)
    ensures Play(o, ws).status.conditions == LastPatch(o.status.conditions, ws)
  {
    if ws != [] {
      var n := |ws| - 1;
      forall k | 0 <= k < n ensures CarriesWhatItRead(o, ws[..n], k) {
        assert CarriesWhatItRead(o, ws, k);
        assert forall j :: 0 <= j <= k ==> ws[..n][..j] == ws[..j];
      }
      ConditionsHaveOneOwner(o, ws[..n]);
      if ws[n].Update? {
        assert CarriesWhatItRead(o, ws, n);
        var j :| 0 <= j <= n && ws[n].prepared.version == Play(o, ws[..j]).version
                 && ws[n].prepared.status.conditions == Play(o, ws[..j]).status.conditions;
        assert ws[..n][..j] == ws[..j];
        VersionsIdentify(o, ws[..n], j);
      }
    }
  }
}
