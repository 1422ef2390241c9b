/** What the deploy queue guarantees over whole runs: it drains, keeps its order, and does not overlap. */
module DeployRuns {
  import opened Calls
  import opened DeployQueue

  // ---------- one reconcile ----------

  /** What a reconcile makes of a stage, from what the deploy's status is, what the controller can see and
      how its calls end. The deploy starts when it is failed; when it is pending and no run in sight is
      unfinished; or when it is queued, as are all others, no run in sight is unfinished and it is first by
      age and place. It ends when it is running and no run in sight is unfinished, or when it is completed or
      there is nothing to run. */
  lemma ReconcileIsRight(s: Stage, i: nat, w: Weather)
    requires UniqueNames(s.deploys) && i < |s.deploys|
    ensures var t, ds, d := Reconciled(s, i, w), s.deploys, s.deploys[i];
      var quiet := forall k :: 0 <= k < |s.runs| && k < 500 ==> s.runs[k].done;
      var queue := forall e <- ds :: e.status.InQueue?;
      var first := forall j :: 0 <= j < |ds| ==>
        d.created < ds[j].created || (d.created == ds[j].created && i <= j);
      // what it cannot see, and what it decides otherwise
      var blind := !d.status.Failed? && (!w.listRuns || (d.status.InQueue? && quiet && !w.listDeploys));
      var starts := !blind && (d.status.Failed? || (d.status.Pending? && quiet)
                               || (d.status.InQueue? && quiet && queue && first));
      var ends := !blind && (d.status.Completed? || (d.status.Running? && quiet)
                             || (starts && (w.resources.NoTemplates? || w.resources.NoLastTag?)));
      // what goes wrong
      var fails := blind || (starts && w.resources.Missing?)
        || (starts && w.resources.Ready? && !w.create.Done?) || (ends && w.delete.Failed?);
      && t.runs == s.runs + (if starts && w.resources.Ready? && !w.create.Failed?
                             then [PipelineRun(d.name, false, d.status.Failed?)] else [])
      && t.deploys ==
           if ends && !w.delete.Failed? then ds[..i] + ds[i + 1..]
           else if w.save.Failed? then ds
           else if fails then ds[i := d.(status := Status.Failed)]
           else if starts then ds[i := d.(status := Running)]
           else if d.status.Pending? then ds[i := d.(status := InQueue)]
           else ds
  {
    DecisionIsRight(s, i);
    QuietInSight(s.runs);
  }

  /** What a reconcile decides, if it can see what it needs. */
  lemma DecisionIsRight(s: Stage, i: nat)
    requires UniqueNames(s.deploys) && i < |s.deploys|
    ensures var ds, d := s.deploys, s.deploys[i];
      var quiet := forall k :: 0 <= k < |s.runs| && k < 500 ==> s.runs[k].done;
      var first := forall j :: 0 <= j < |ds| ==>
        d.created < ds[j].created || (d.created == ds[j].created && i <= j);
      && (Decide(s, i) == Start <==>
            || d.status.Failed? || (d.status.Pending? && quiet)
            || (d.status.InQueue? && quiet && (forall e <- ds :: e.status.InQueue?) && first))
      && (Decide(s, i) == Finish <==> d.status.Completed? || (d.status.Running? && quiet))
      && (Decide(s, i) == Enqueue <==> d.status.Pending? && !quiet)
  {
    QuietInSight(s.runs);
    FirstIsEligible(s.deploys, i);
  }

  lemma QuietInSight(runs: seq<PipelineRun>)
    ensures Quiet(runs) <==> forall k :: 0 <= k < |runs| && k < 500 ==> runs[k].done
  {
    assert forall k :: 0 <= k < |Seen(runs)| ==> Seen(runs)[k] == runs[k];
  }

  lemma FirstIsEligible(ds: seq<Deploy>, i: nat)
    requires UniqueNames(ds) && i < |ds|
    ensures Eligible(ds, ds[i].name) <==>
      forall j :: 0 <= j < |ds| ==> ds[i].created < ds[j].created || (ds[i].created == ds[j].created && i <= j)
  {
    if k: nat :| IsOldest(ds, k) && ds[k].name == ds[i].name {
      assert k == i;
    } else {
      assert !IsOldest(ds, i);
    }
  }

  /** Every failure shows: a deploy that was not failed is listed as failed afterwards exactly when a list
      call it needs failed, resources were missing, the creation of its run did not report success, or its
      deletion failed, and the status write arrived; when that write failed, it is listed as before. */
  lemma FailureIsListed(s: Stage, i: nat, w: Weather)
    requires UniqueNames(s.deploys) && i < |s.deploys| && !s.deploys[i].status.Failed?
    ensures var t, d := Reconciled(s, i, w).deploys, s.deploys[i];
      var launches := !Blind(s, i, w) && Decide(s, i) == Start;
      var ends := !Blind(s, i, w) &&
        (Decide(s, i) == Finish || (launches && w.resources in {NoTemplates, NoLastTag}));
      && (|t| == |s.deploys| && t[i].status.Failed? <==>
            && !w.save.Failed?
            && (|| Blind(s, i, w)
                || (launches && (w.resources.Missing? || (w.resources.Ready? && !w.create.Done?)))
                || (ends && w.delete.Failed?)))
      && (w.save.Failed? ==> t == s.deploys || (ends && !w.delete.Failed?))
  {
  }

  // ---------- draining ----------

  /** The number of status changes a deploy still has ahead of it, at most. */
  function Weight(st: Status): nat {
    match st
    case Failed => 3
    case Pending => 3
    case InQueue => 2
    case Running => 1
    case Completed => 1
  }

  function RankSum(ds: seq<Deploy>): nat {
    if ds == [] then 0 else RankSum(ds[..|ds| - 1]) + Weight(ds[|ds| - 1].status)
  }

  lemma {:induction false} RankSumSplits(a: seq<Deploy>, b: seq<Deploy>)
    ensures RankSum(a + b) == RankSum(a) + RankSum(b)
  {
    if b == [] {
      assert a + b == a;
    } else {
      assert (a + b)[..|a + b| - 1] == a + b[..|b| - 1];
      RankSumSplits(a, b[..|b| - 1]);
    }
  }

  lemma {:induction false} RankSumBound(ds: seq<Deploy>)
    ensures |ds| <= RankSum(ds) <= 3 * |ds|
  {
    if ds != [] {
      RankSumBound(ds[..|ds| - 1]);
    }
  }

  lemma RankSumAt(ds: seq<Deploy>, i: nat)
    requires i < |ds|
    ensures RankSum(ds) == RankSum(ds[..i]) + Weight(ds[i].status) + RankSum(ds[i + 1..])
  {
    assert RankSum([ds[i]]) == Weight(ds[i].status);
    assert ds == ds[..i] + [ds[i]] + ds[i + 1..];
    RankSumSplits(ds[..i] + [ds[i]], ds[i + 1..]);
    RankSumSplits(ds[..i], [ds[i]]);
  }

  lemma SavingLowersRank(s: Stage, i: nat, st: Status)
    requires i < |s.deploys| && Weight(st) < Weight(s.deploys[i].status)
    ensures var t := s.deploys[i := s.deploys[i].(status := st)];
      RankSum(t) < RankSum(s.deploys) && t != s.deploys
  {
    var t := s.deploys[i := s.deploys[i].(status := st)];
    RankSumAt(s.deploys, i);
    RankSumAt(t, i);
    assert t[..i] == s.deploys[..i] && t[i + 1..] == s.deploys[i + 1..];
  }

  lemma RemovingLowersRank(s: Stage, i: nat)
    requires i < |s.deploys|
    ensures var t := s.deploys[..i] + s.deploys[i + 1..];
      RankSum(t) < RankSum(s.deploys) && t != s.deploys
  {
    RankSumAt(s.deploys, i);
    RankSumSplits(s.deploys[..i], s.deploys[i + 1..]);
  }

  /** Without failures a reconcile lowers the rank sum exactly when it decides anything at all, and
      otherwise it leaves the stage alone. */
  lemma ReconcileLowersRank(s: Stage, i: nat, w: Weather)
    requires i < |s.deploys| && w.Clear()
    ensures var t := Reconciled(s, i, w);
      if Decide(s, i) == Wait then t == s else RankSum(t.deploys) < RankSum(s.deploys) && t.deploys != s.deploys
  {
    match Decide(s, i)
    case Wait =>
    case Finish =>
      RemovingLowersRank(s, i);
    case Enqueue =>
      SavingLowersRank(s, i, InQueue);
    case Start =>
      if w.resources.Ready? {
        SavingLowersRank(s, i, Running);
      } else {
        RemovingLowersRank(s, i);
      }
  }

  lemma {:induction false} OldestExists(ds: seq<Deploy>) returns (k: nat)
    requires ds != []
    ensures IsOldest(ds, k)
  {
    k := |ds| - 1;
    if |ds| > 1 {
      var j := OldestExists(ds[..|ds| - 1]);
      if ds[j].created <= ds[k].created {
        k := j;
      } else {
        assert forall m :: 0 <= m < k ==> ds[..k][m] == ds[m] && ds[k].created < ds[m].created;
      }
    }
  }

  /** When every run the controller sees has completed, some deploy can move: the queue never
      deadlocks. */
  lemma SomeDeployMoves(s: Stage) returns (i: nat)
    requires s.deploys != [] && Quiet(s.runs)
    ensures i < |s.deploys| && Decide(s, i) != Wait
  {
    if j :| 0 <= j < |s.deploys| && !s.deploys[j].status.InQueue? {
      i := j;
    } else {
      i := OldestExists(s.deploys);
      assert Eligible(s.deploys, s.deploys[i].name);
    }
  }

  /** Runs may only finish. */
  ghost predicate Completes(runs: seq<PipelineRun>, after: seq<PipelineRun>) {
    && |after| == |runs|
    && forall k :: 0 <= k < |runs| ==> after[k] == runs[k] || after[k] == runs[k].(done := true)
  }

  ghost predicate ClearStep(s: Stage, t: Stage) {
    exists i: nat, w: Weather :: i < |s.deploys| && w.Clear() && t == Reconciled(s, i, w)
  }

  /** A run without failures and without new deploys: reconciles in any order, and runs completing. */
  ghost predicate ClearRun(tr: seq<Stage>) {
    tr != [] && forall k, l :: 0 <= k && l == k + 1 && l < |tr| ==>
      ClearStep(tr[k], tr[l]) || (tr[l].deploys == tr[k].deploys && Completes(tr[k].runs, tr[l].runs))
  }

  /** The number of steps of a run that changed some deploy. */
  ghost function Effective(tr: seq<Stage>): nat {
    if |tr| <= 1 then 0
    else Effective(tr[..|tr| - 1]) + if tr[|tr| - 1].deploys != tr[|tr| - 2].deploys then 1 else 0
  }

  /** The rank sum pays for every effective step, so n deploys take at most 3n of them. */
  lemma {:induction false} EffectiveStepsAreBounded(tr: seq<Stage>)
    requires ClearRun(tr)
    ensures Effective(tr) + RankSum(tr[|tr| - 1].deploys) <= RankSum(tr[0].deploys) <= 3 * |tr[0].deploys|
  {
    RankSumBound(tr[0].deploys);
    var n := |tr| - 1;
    if n > 0 {
      EffectiveStepsAreBounded(tr[..n]);
      if ClearStep(tr[n - 1], tr[n]) {
        var i: nat, w: Weather :| i < |tr[n - 1].deploys| && w.Clear() && tr[n] == Reconciled(tr[n - 1], i, w);
        ReconcileLowersRank(tr[n - 1], i, w);
      }
    }
  }

  /** The stage once all its runs have completed. */
  function Quieted(s: Stage): Stage {
    s.(runs := seq(|s.runs|, k requires 0 <= k < |s.runs| => s.runs[k].(done := true)))
  }

  /** The queue drains: any stage can be brought to no deploys at all, with at most 3n effective steps,
      by letting runs complete and reconciling a deploy that can move. */
  lemma {:induction false} QueueDrains(s: Stage) returns (tr: seq<Stage>)
    ensures ClearRun(tr) && tr[0] == s && tr[|tr| - 1].deploys == []
    ensures Effective(tr) <= 3 * |s.deploys|
    decreases RankSum(s.deploys)
  {
    if s.deploys == [] {
      tr := [s];
    } else {
      var quiet := Quieted(s);
      var w := Weather(true, true, Ready, Done, Done, Done);
      var i := SomeDeployMoves(quiet);
      ReconcileLowersRank(quiet, i, w);
      var rest := QueueDrains(Reconciled(quiet, i, w));
      tr := [s, quiet] + rest;
      assert ClearStep(tr[1], tr[2]);
      assert forall k :: 2 <= k < |tr| ==> tr[k] == rest[k - 2];
    }
    EffectiveStepsAreBounded(tr);
  }

  /** When no deploy can move although every run the controller sees has completed, none is left. */
  lemma QuietAndStillIsEmpty(s: Stage)
    requires Quiet(s.runs) && forall i :: 0 <= i < |s.deploys| ==> Decide(s, i) == Wait
    ensures s.deploys == []
  {
    if s.deploys != [] {
      var i := SomeDeployMoves(s);
    }
  }

  /** An endless run without failures and without new deploys; moves(k) is the name of the deploy that step
      k reconciles, None when the step belongs to the runs. */
  ghost predicate EndlessRun(tr: nat -> Stage, moves: nat -> Option<string>) {
    forall k :: StepsAt(tr, moves, k)
  }

  ghost predicate StepsAt(tr: nat -> Stage, moves: nat -> Option<string>, k: nat) {
    && UniqueNames(tr(k).deploys)
    && match moves(k)
       case Some(name) => ServesClearly(tr(k), name, tr(k + 1))
       case None => tr(k + 1).deploys == tr(k).deploys && Completes(tr(k).runs, tr(k + 1).runs)
  }

  ghost predicate ServesClearly(s: Stage, name: string, t: Stage) {
    exists i: nat, w: Weather ::
      i < |s.deploys| && s.deploys[i].name == name && w.Clear() && t == Reconciled(s, i, w)
  }

  predicate Lists(s: Stage, name: string) {
    exists d <- s.deploys :: d.name == name
  }

  /** Fair: the runs complete again and again, and every deploy is reconciled again and again as long as
      it is listed. In between anything may happen in any order. */
  ghost predicate Fair(tr: nat -> Stage, moves: nat -> Option<string>) {
    && (forall k :: QuietLater(tr, k))
    && (forall k, name :: ServedLater(tr, moves, k, name))
  }

  ghost predicate QuietLater(tr: nat -> Stage, k: nat) {
    exists l: nat :: k <= l && Quiet(tr(l).runs)
  }

  ghost predicate ServedLater(tr: nat -> Stage, moves: nat -> Option<string>, k: nat, name: string) {
    exists l: nat :: k <= l && (moves(l) == Some(name) || !Lists(tr(l), name))
  }

  lemma StepLowersRank(s: Stage, name: string, t: Stage)
    requires ServesClearly(s, name, t)
    ensures RankSum(t.deploys) <= RankSum(s.deploys)
    ensures RankSum(t.deploys) == RankSum(s.deploys) ==> t == s
  {
    var i: nat, w: Weather :|
      i < |s.deploys| && s.deploys[i].name == name && w.Clear() && t == Reconciled(s, i, w);
    ReconcileLowersRank(s, i, w);
  }

  lemma OneStepStands(tr: nat -> Stage, moves: nat -> Option<string>, k: nat)
    requires EndlessRun(tr, moves)
    ensures RankSum(tr(k + 1).deploys) <= RankSum(tr(k).deploys)
    ensures RankSum(tr(k + 1).deploys) == RankSum(tr(k).deploys) ==>
      tr(k + 1).deploys == tr(k).deploys && (Quiet(tr(k).runs) ==> Quiet(tr(k + 1).runs))
  {
    assert StepsAt(tr, moves, k);
    match moves(k)
    case Some(name) =>
      StepLowersRank(tr(k), name, tr(k + 1));
    case None =>
      if Quiet(tr(k).runs) {
        CompletingStaysQuiet(tr(k).runs, tr(k + 1).runs);
      }
  }

  lemma CompletingStaysQuiet(runs: seq<PipelineRun>, after: seq<PipelineRun>)
    requires Completes(runs, after) && Quiet(runs)
    ensures Quiet(after)
  {
    forall k | 0 <= k < |Seen(after)| ensures Seen(after)[k].done {
      assert Seen(runs)[k].done;
    }
  }

  /** The rank sum never rises; as long as it stands still nothing changes but that runs complete. */
  lemma {:induction false} StandingStill(tr: nat -> Stage, moves: nat -> Option<string>, k: nat, l: nat)
    requires EndlessRun(tr, moves) && k <= l
    ensures RankSum(tr(l).deploys) <= RankSum(tr(k).deploys)
    ensures RankSum(tr(l).deploys) == RankSum(tr(k).deploys) ==>
      tr(l).deploys == tr(k).deploys && (Quiet(tr(k).runs) ==> Quiet(tr(l).runs))
    decreases l - k
  {
    if k < l {
      StandingStill(tr, moves, k, l - 1);
      OneStepStands(tr, moves, l - 1);
    }
  }

  /** A stage that is quiet and not empty gets an effective step in time. */
  lemma EventuallyLower(tr: nat -> Stage, moves: nat -> Option<string>, k: nat) returns (l: nat)
    requires EndlessRun(tr, moves) && Fair(tr, moves)
    requires Quiet(tr(k).runs) && tr(k).deploys != []
    ensures k <= l && RankSum(tr(l).deploys) < RankSum(tr(k).deploys)
  {
    var i := SomeDeployMoves(tr(k));
    var name := tr(k).deploys[i].name;
    assert ServedLater(tr, moves, k, name);
    l :| k <= l && (moves(l) == Some(name) || !Lists(tr(l), name));
    StandingStill(tr, moves, k, l);
    if RankSum(tr(l).deploys) == RankSum(tr(k).deploys) {
      assert tr(l).deploys[i] in tr(l).deploys;
      assert StepsAt(tr, moves, l);
      MoverLowersRank(tr(l), i, tr(l + 1));
      l := l + 1;
    }
  }

  lemma MoverLowersRank(s: Stage, i: nat, t: Stage)
    requires UniqueNames(s.deploys) && i < |s.deploys| && Decide(s, i) != Wait
    requires ServesClearly(s, s.deploys[i].name, t)
    ensures RankSum(t.deploys) < RankSum(s.deploys)
  {
    var j: nat, w: Weather :|
      j < |s.deploys| && s.deploys[j].name == s.deploys[i].name && w.Clear() && t == Reconciled(s, j, w);
    assert j == i;
    ReconcileLowersRank(s, i, w);
  }

  /** Every fair run drains the queue. */
  lemma {:induction false} FairRunsDrain(tr: nat -> Stage, moves: nat -> Option<string>, k: nat) returns (l: nat)
    requires EndlessRun(tr, moves) && Fair(tr, moves)
    ensures k <= l && forall m: nat :: l <= m ==> tr(m).deploys == []
    decreases RankSum(tr(k).deploys)
  {
    if tr(k).deploys == [] {
      l := k;
      forall m: nat | l <= m ensures tr(m).deploys == [] {
        StandingStill(tr, moves, k, m);
        RankSumBound(tr(m).deploys);
      }
    } else {
      assert QuietLater(tr, k);
      var q: nat :| k <= q && Quiet(tr(q).runs);
      StandingStill(tr, moves, k, q);
      if tr(q).deploys == [] {
        RankSumBound(tr(k).deploys);
        l := FairRunsDrain(tr, moves, q);
      } else {
        var p := EventuallyLower(tr, moves, q);
        l := FairRunsDrain(tr, moves, p);
      }
    }
  }

  // ---------- order ----------

  ghost predicate UniqueNames(ds: seq<Deploy>) {
    forall p, q :: 0 <= p < q < |ds| ==> ds[p].name != ds[q].name
  }

  /** Exactly one deploy of a nonempty list is eligible. */
  lemma OneIsEligible(ds: seq<Deploy>) returns (k: nat)
    requires ds != [] && UniqueNames(ds)
    ensures k < |ds| && forall j :: 0 <= j < |ds| ==> (Eligible(ds, ds[j].name) <==> j == k)
  {
    k := OldestExists(ds);
    forall j | 0 <= j < |ds| && j != k ensures !Eligible(ds, ds[j].name) {
      YoungerIsNotEligible(ds, k, j);
    }
  }

  /** Queue order: by creation time, and by position in the list among equals. */
  predicate Ahead(ds: seq<Deploy>, p: nat, q: nat)
    requires p < |ds| && q < |ds|
  {
    ds[p].created < ds[q].created || (ds[p].created == ds[q].created && p < q)
  }

  /** Nobody is eligible behind an older deploy, nor behind an equally old one listed before it. */
  lemma YoungerIsNotEligible(ds: seq<Deploy>, p: nat, q: nat)
    requires UniqueNames(ds) && p < |ds| && q < |ds| && Ahead(ds, p, q)
    ensures !Eligible(ds, ds[q].name)
  {
    assert !IsOldest(ds, q);
  }

  /** A step of a run without failures that may also receive new deploys and list them in any order. */
  ghost predicate ArrivalStep(s: Stage, t: Stage) {
    || ClearStep(s, t)
    || (UniqueNames(t.deploys) && forall d <- s.deploys :: d in t.deploys)
  }

  lemma RemovalKeepsOthers(ds: seq<Deploy>, i: nat, q: nat)
    requires UniqueNames(ds) && i < |ds| && q < |ds| && q != i
    ensures UniqueNames(ds[..i] + ds[i + 1..]) && ds[q] in ds[..i] + ds[i + 1..]
  {
    assert (ds[..i] + ds[i + 1..])[if q < i then q else q - 1] == ds[q];
  }

  lemma UpdateKeepsOthers(ds: seq<Deploy>, i: nat, st: Status, q: nat)
    requires UniqueNames(ds) && i < |ds| && q < |ds| && q != i
    ensures var t := ds[i := ds[i].(status := st)]; UniqueNames(t) && ds[q] in t
  {
    assert ds[i := ds[i].(status := st)][q] == ds[q];
  }

  /** A reconcile touches no deploy but its own, and introduces no name. */
  lemma OthersStay(s: Stage, i: nat, w: Weather, q: nat)
    requires UniqueNames(s.deploys) && i < |s.deploys| && q < |s.deploys| && q != i
    ensures var t := Reconciled(s, i, w); UniqueNames(t.deploys) && s.deploys[q] in t.deploys
  {
    RemovalKeepsOthers(s.deploys, i, q);
    forall st ensures var t := s.deploys[i := s.deploys[i].(status := st)]; UniqueNames(t) && s.deploys[q] in t {
      UpdateKeepsOthers(s.deploys, i, st, q);
    }
  }

  lemma ReconcileKeepsYounger(s: Stage, i: nat, w: Weather, p: nat, q: nat)
    requires UniqueNames(s.deploys) && i < |s.deploys| && w.Clear() && p < |s.deploys| && q < |s.deploys|
    requires s.deploys[q].status.InQueue? && Ahead(s.deploys, p, q)
    ensures var t := Reconciled(s, i, w); UniqueNames(t.deploys) && s.deploys[q] in t.deploys
  {
    if i == q {
      YoungerIsNotEligible(s.deploys, p, q);
    } else {
      OthersStay(s, i, w, q);
    }
  }

  /** a and b are both listed, a ahead of b. */
  ghost predicate QueuedBefore(ds: seq<Deploy>, a: Deploy, b: Deploy) {
    exists p: nat, q: nat :: p < |ds| && q < |ds| && ds[p] == a && ds[q] == b && Ahead(ds, p, q)
  }

  lemma YoungerStays(s: Stage, t: Stage, a: Deploy, b: Deploy)
    requires UniqueNames(s.deploys) && ArrivalStep(s, t)
    requires QueuedBefore(s.deploys, a, b) && b.status.InQueue?
    ensures UniqueNames(t.deploys) && b in t.deploys
  {
    var p: nat, q: nat :|
      p < |s.deploys| && q < |s.deploys| && s.deploys[p] == a && s.deploys[q] == b && Ahead(s.deploys, p, q);
    if ClearStep(s, t) {
      var i: nat, w: Weather :| i < |s.deploys| && w.Clear() && t == Reconciled(s, i, w);
      ReconcileKeepsYounger(s, i, w, p, q);
    }
  }

  /** First come, first served: of two deploys once in the queue together, the later does not leave it
      before the earlier has, however long the run and whatever arrives meanwhile. Between deploys of one
      age the order is that of the list, as long as the list keeps it. */
  lemma {:induction false} QueueKeepsOrder(tr: seq<Stage>, a: Deploy, b: Deploy) returns (k: nat)
    requires tr != [] && UniqueNames(tr[0].deploys)
    requires forall i, j :: 0 <= i && j == i + 1 && j < |tr| ==> ArrivalStep(tr[i], tr[j])
    requires a.status.InQueue? && b.status.InQueue? && a.created <= b.created
    requires a in tr[0].deploys && b in tr[0].deploys && b !in tr[|tr| - 1].deploys
    requires forall i :: 0 <= i < |tr| && a.created == b.created && a in tr[i].deploys && b in tr[i].deploys ==>
      QueuedBefore(tr[i].deploys, a, b)
    ensures 0 < k < |tr| - 1 && a !in tr[k].deploys
  {
    assert QueuedBefore(tr[0].deploys, a, b);
    YoungerStays(tr[0], tr[1], a, b);
    if a !in tr[1].deploys {
      k := 1;
    } else {
      var j := QueueKeepsOrder(tr[1..], a, b);
      k := j + 1;
    }
  }

  /** The guarantee is among queued deploys only: one with a queued deploy ahead of it starts exactly when
      it is failed, or when it is still pending and every run seen has completed. */
  lemma WhenQueueIsOvertaken(s: Stage, p: nat, q: nat)
    requires UniqueNames(s.deploys) && p < |s.deploys| && q < |s.deploys|
    requires s.deploys[p].status.InQueue? && Ahead(s.deploys, p, q)
    ensures Decide(s, q) == Start <==>
      s.deploys[q].status.Failed? || (s.deploys[q].status.Pending? && Quiet(s.runs))
  {
    YoungerIsNotEligible(s.deploys, p, q);
  }

  lemma PendingAndFailedOvertakeQueue()
    ensures var ds := [Deploy("old", 1, InQueue), Deploy("new", 2, Pending), Deploy("again", 3, Status.Failed)];
      var s := Stage(ds, []);
      Decide(s, 0) == Wait && Decide(s, 1) == Start && Decide(s, 2) == Start
  {
  }

  // ---------- overlap ----------

  /** Unfinished runs; with `all` false, only those not started by retrying a failed deploy. */
  function Unfinished(runs: seq<PipelineRun>, all: bool): nat {
    if runs == [] then 0
    else Unfinished(runs[..|runs| - 1], all) +
         if !runs[|runs| - 1].done && (all || !runs[|runs| - 1].retry) then 1 else 0
  }

  function Retries(runs: seq<PipelineRun>): nat {
    if runs == [] then 0 else Retries(runs[..|runs| - 1]) + if runs[|runs| - 1].retry then 1 else 0
  }

  lemma {:induction false} NoneUnfinished(runs: seq<PipelineRun>, all: bool)
    requires forall r <- runs :: r.done
    ensures Unfinished(runs, all) == 0
  {
    if runs != [] {
      NoneUnfinished(runs[..|runs| - 1], all);
    }
  }

  lemma {:induction false} CountsSplit(a: seq<PipelineRun>, b: seq<PipelineRun>)
    ensures Unfinished(a + b, false) == Unfinished(a, false) + Unfinished(b, false)
  {
    if b == [] {
      assert a + b == a;
    } else {
      assert (a + b)[..|a + b| - 1] == a + b[..|b| - 1];
      CountsSplit(a, b[..|b| - 1]);
    }
  }

  lemma {:induction false} RetriesAccountForTheRest(runs: seq<PipelineRun>)
    ensures Unfinished(runs, true) <= Unfinished(runs, false) + Retries(runs)
  {
    if runs != [] {
      RetriesAccountForTheRest(runs[..|runs| - 1]);
    }
  }

  lemma {:induction false} CompletingFinishes(runs: seq<PipelineRun>, after: seq<PipelineRun>)
    requires Completes(runs, after)
    ensures Unfinished(after, false) <= Unfinished(runs, false)
  {
    if runs != [] {
      CompletingFinishes(runs[..|runs| - 1], after[..|runs| - 1]);
    }
  }

  lemma MiddleAddsRuns(a: seq<PipelineRun>, b: seq<PipelineRun>, c: seq<PipelineRun>)
    ensures Unfinished(a + c, false) <= Unfinished(a + b + c, false)
  {
    CountsSplit(a + b, c);
    CountsSplit(a, b);
    CountsSplit(a, c);
  }

  ghost predicate Prunes(
    runs: seq<PipelineRun>, after: seq<PipelineRun>, a: seq<PipelineRun>, r: PipelineRun, b: seq<PipelineRun>)
  {
    runs == a + [r] + b && after == a + b
  }

  /** One step of the stage: a reconcile in any weather, or somebody else's doing: runs complete, a run
      is pruned, and deploys change in any way at all. Nobody else starts runs. */
  ghost predicate AnyStep(s: Stage, t: Stage) {
    || (exists i: nat, w: Weather :: i < |s.deploys| && t == Reconciled(s, i, w))
    || Completes(s.runs, t.runs)
    || (exists a, r, b :: Prunes(s.runs, t.runs, a, r, b))
  }

  lemma StepKeepsExclusion(s: Stage, t: Stage)
    requires AnyStep(s, t) && |s.runs| <= MAX_PIPELINE_RUNS
    requires Unfinished(s.runs, false) <= 1
    ensures Unfinished(t.runs, false) <= 1
  {
    if i: nat, w: Weather :| i < |s.deploys| && t == Reconciled(s, i, w) {
      if t.runs != s.runs {
        assert t.runs[..|t.runs| - 1] == s.runs;
        if !s.deploys[i].status.Failed? {
          NoneUnfinished(s.runs, false);
        }
      }
    } else if Completes(s.runs, t.runs) {
      CompletingFinishes(s.runs, t.runs);
    } else {
      var a, r, b :| Prunes(s.runs, t.runs, a, r, b);
      MiddleAddsRuns(a, [r], b);
    }
  }

  /** The exclusion bound, over any run with any failures, lost status writes included: at most one
      unfinished run was started by a deploy that was not being retried, so there are at most one more
      unfinished runs than retries. */
  lemma {:induction false} ExclusionBound(tr: seq<Stage>)
    requires tr != [] && Unfinished(tr[0].runs, false) <= 1
    requires forall k, l :: 0 <= k && l == k + 1 && l < |tr| ==> AnyStep(tr[k], tr[l])
    requires forall k :: 0 <= k < |tr| ==> |tr[k].runs| <= MAX_PIPELINE_RUNS
    ensures Unfinished(tr[|tr| - 1].runs, false) <= 1
    ensures Unfinished(tr[|tr| - 1].runs, true) <= 1 + Retries(tr[|tr| - 1].runs)
  {
    var n := |tr| - 1;
    if n > 0 {
      ExclusionBound(tr[..n]);
      StepKeepsExclusion(tr[n - 1], tr[n]);
    }
    RetriesAccountForTheRest(tr[n].runs);
  }

  /** Why the bound needs both its terms: a failed deploy starts its run without looking, and a list
      call sees no further than its limit. A deploy starts beside an unfinished run exactly when it is
      failed, or when it is free to start and every unfinished run lies beyond the limit. */
  lemma WhenRunsOverlap(s: Stage, i: nat)
    requires i < |s.deploys| && Decide(s, i) == Start
    ensures (exists r <- s.runs :: !r.done) <==>
      (exists k :: 0 <= k < |s.runs| && !s.runs[k].done
                   && (s.deploys[i].status.Failed? || k >= MAX_PIPELINE_RUNS))
  {
    if r :| r in s.runs && !r.done && !s.deploys[i].status.Failed? {
      var k :| 0 <= k < |s.runs| && s.runs[k] == r;
      if k < MAX_PIPELINE_RUNS {
        assert Seen(s.runs)[k] == r;
      }
    }
  }

  lemma FailedRetryOverlaps()
    ensures var s := Stage([Deploy("d", 1, Status.Failed)], [PipelineRun("c", false, false)]);
      var t := Reconciled(s, 0, Weather(true, true, Ready, Done, Done, Done));
      Unfinished(t.runs, true) == 2 && Unfinished(t.runs, false) == 1
  {
    var earlier := PipelineRun("c", false, false);
    var retried := PipelineRun("d", false, true);
    assert [earlier, retried][..1] == [earlier];
    assert [earlier][..0] == [];
  }

  // ---------- one run for each deploy ----------

  /** The reconcile starts a run of its deploy. */
  ghost predicate Launches(s: Stage, i: nat, w: Weather)
    requires i < |s.deploys|
  {
    !Blind(s, i, w) && Decide(s, i) == Start && w.resources.Ready? && !w.create.Failed?
  }

  /** A reconcile after which a deploy that has a run may start another: it starts the run but loses the
      answer or the status write, or it finds the deploy running and marks it failed, because the runs
      could not be listed or because the deletion of the completed deploy failed. */
  ghost predicate Slips(s: Stage, i: nat, w: Weather)
    requires i < |s.deploys|
  {
    if Launches(s, i, w) then w.create.Lost? || w.save.Failed?
    else
      && s.deploys[i].status in {Running, Completed} && !w.save.Failed?
      && (!w.listRuns || (Decide(s, i) == Finish && w.delete.Failed?))
  }

  /** What a reconcile leaves of a deploy that has a run: when it started one, the deploy is running
      exactly when both the answer and the status write arrived; when it found one running, the deploy is
      listed as failed exactly when the runs could not be listed or a due deletion failed. */
  lemma WhenStatusIsLost(s: Stage, i: nat, w: Weather)
    requires i < |s.deploys|
    ensures var t := Reconciled(s, i, w);
      && (Launches(s, i, w) ==>
            && |t.deploys| == |s.deploys|
            && (t.deploys[i].status.Running? <==> w.create.Done? && !w.save.Failed?))
      && (s.deploys[i].status.Running? ==>
            (|t.deploys| == |s.deploys| && t.deploys[i].status.Failed? <==>
             !w.save.Failed? && (!w.listRuns || (Quiet(s.runs) && w.delete.Failed?))))
  {
  }

  /** A deploy with a run starts a second one, as soon as the runs it sees have completed, exactly when
      the reconcile slipped; a failed one does not even wait for that. */
  lemma WhenDeployStartsAgain(s: Stage, i: nat, w: Weather)
    requires i < |s.deploys| && (Launches(s, i, w) || s.deploys[i].status.Running?)
    ensures var t := Reconciled(s, i, w);
      Slips(s, i, w) <==> |t.deploys| == |s.deploys| && Decide(Quieted(t), i) == Start
    ensures var t := Reconciled(s, i, w);
      |t.deploys| == |s.deploys| && t.deploys[i].status.Failed? ==> Decide(t, i) == Start
  {
    var t := Reconciled(s, i, w);
    assert Quiet(Quieted(t).runs);
    if |t.deploys| == |s.deploys| && t.deploys[i] == s.deploys[i] {
      assert t.deploys == s.deploys;
    }
  }

  /** A step of the stage: a reconcile of its i-th deploy, or anything else that happens to it. */
  datatype Move = Serve(i: nat, w: Weather) | Other

  /** The deploy of this name as it is listed; None when it is not. */
  function Find(ds: seq<Deploy>, name: string): (d: Option<Deploy>)
    ensures d.Some? ==> d.value in ds && d.value.name == name
    ensures d.None? ==> forall e <- ds :: e.name != name
  {
    if ds == [] then None
    else if ds[|ds| - 1].name == name then Some(ds[|ds| - 1])
    else Find(ds[..|ds| - 1], name)
  }

  /** Others may do anything to the runs and to the other deploys, and may remove this one. */
  ghost predicate Moves(s: Stage, m: Move, t: Stage, name: string) {
    && UniqueNames(s.deploys) && UniqueNames(t.deploys)
    && match m
       case Serve(i, w) => i < |s.deploys| && t == Reconciled(s, i, w)
       case Other => Find(t.deploys, name) in {None, Find(s.deploys, name)}
  }

  ghost predicate Serves(s: Stage, m: Move, name: string) {
    m.Serve? && m.i < |s.deploys| && s.deploys[m.i].name == name
  }

  function One(b: bool): nat { if b then 1 else 0 }

  /** The deploy may still start a run. */
  function Armed(s: Stage, name: string): bool {
    var d := Find(s.deploys, name);
    d.Some? && d.value.status in {Pending, InQueue, Status.Failed}
  }

  ghost predicate StartsRun(s: Stage, m: Move, name: string) {
    Serves(s, m, name) && Launches(s, m.i, m.w)
  }

  ghost predicate SlipsUp(s: Stage, m: Move, name: string) {
    Serves(s, m, name) && Slips(s, m.i, m.w)
  }

  /** The deploy goes without having started the run it was to start. */
  ghost predicate Withdrawn(s: Stage, m: Move, t: Stage, name: string) {
    Armed(s, name) && !Armed(t, name) && !StartsRun(s, m, name)
  }

  datatype Counted = RunsStarted | SlipUps | Withdrawals

  /** How many steps of a run are of a kind. */
  ghost function Count(tr: seq<Stage>, ms: seq<Move>, name: string, what: Counted): nat
    requires |tr| == |ms| + 1
  {
    if ms == [] then 0
    else
      var n := |ms| - 1;
      Count(tr[..n + 1], ms[..n], name, what) +
      One(match what
          case RunsStarted => StartsRun(tr[n], ms[n], name)
          case SlipUps => SlipsUp(tr[n], ms[n], name)
          case Withdrawals => Withdrawn(tr[n], ms[n], tr[n + 1], name))
  }

  lemma FindIsUnique(ds: seq<Deploy>, d: Deploy)
    requires UniqueNames(ds) && d in ds
    ensures Find(ds, d.name) == Some(d)
  {
  }

  lemma NoNewNames(s: Stage, i: nat, w: Weather)
    requires i < |s.deploys|
    ensures forall e <- Reconciled(s, i, w).deploys :: e in s.deploys || e.name == s.deploys[i].name
  {
    forall st
      ensures forall e <- s.deploys[i := s.deploys[i].(status := st)] :: e in s.deploys || e.name == s.deploys[i].name
    {
      var ds := s.deploys[i := s.deploys[i].(status := st)];
      assert forall k :: 0 <= k < |ds| && k != i ==> ds[k] == s.deploys[k];
    }
  }

  /** A reconcile of one deploy leaves what is listed of another as it was. */
  lemma OthersAreFoundAsBefore(s: Stage, i: nat, w: Weather, name: string)
    requires UniqueNames(s.deploys) && i < |s.deploys| && s.deploys[i].name != name
    requires UniqueNames(Reconciled(s, i, w).deploys)
    ensures Find(Reconciled(s, i, w).deploys, name) == Find(s.deploys, name)
  {
    var t := Reconciled(s, i, w).deploys;
    NoNewNames(s, i, w);
    match Find(s.deploys, name)
    case None =>
    case Some(d) =>
      var q: nat :| q < |s.deploys| && s.deploys[q] == d;
      OthersStay(s, i, w, q);
      FindIsUnique(t, d);
  }

  /** One step: what a deploy may still start pays for what it starts. */
  lemma StepBalances(s: Stage, m: Move, t: Stage, name: string)
    requires Moves(s, m, t, name)
    ensures One(StartsRun(s, m, name)) + One(Armed(t, name)) + One(Withdrawn(s, m, t, name)) ==
            One(Armed(s, name)) + One(SlipsUp(s, m, name))
  {
    if Serves(s, m, name) {
      FoundAfterwards(s, m.i, m.w);
    } else if m.Serve? {
      OthersAreFoundAsBefore(s, m.i, m.w, name);
    }
  }

  /** A reconcile changes the status of its deploy or removes it. */
  lemma TouchesOne(s: Stage, i: nat, w: Weather) returns (st: Status)
    requires i < |s.deploys|
    ensures Reconciled(s, i, w).deploys in
      {s.deploys[i := s.deploys[i].(status := st)], s.deploys[..i] + s.deploys[i + 1..]}
  {
    var t := Reconciled(s, i, w).deploys;
    st := if |t| == |s.deploys| then t[i].status else Pending;
    assert s.deploys[i := s.deploys[i].(status := s.deploys[i].status)] == s.deploys;
  }

  lemma FoundAfterwards(s: Stage, i: nat, w: Weather)
    requires UniqueNames(s.deploys) && i < |s.deploys|
    requires UniqueNames(Reconciled(s, i, w).deploys)
    ensures var d, t := s.deploys[i], Reconciled(s, i, w).deploys;
      && Find(s.deploys, d.name) == Some(d)
      && Find(t, d.name) == if |t| == |s.deploys| then Some(t[i]) else None
  {
    var t := Reconciled(s, i, w).deploys;
    var st := TouchesOne(s, i, w);
    FoundIn(s.deploys, i, st, t);
  }

  lemma FoundIn(ds: seq<Deploy>, i: nat, st: Status, t: seq<Deploy>)
    requires UniqueNames(ds) && UniqueNames(t) && i < |ds|
    requires t in {ds[i := ds[i].(status := st)], ds[..i] + ds[i + 1..]}
    ensures Find(ds, ds[i].name) == Some(ds[i])
    ensures Find(t, ds[i].name) == if |t| == |ds| then Some(t[i]) else None
  {
    FindIsUnique(ds, ds[i]);
    if |t| == |ds| {
      assert t[i].name == ds[i].name;
      FindIsUnique(t, t[i]);
    } else {
      forall k | 0 <= k < |t| ensures t[k].name != ds[i].name {
        assert t[k] == ds[if k < i then k else k + 1];
      }
    }
  }

  ghost predicate History(tr: seq<Stage>, ms: seq<Move>, name: string) {
    && |tr| == |ms| + 1
    && forall k, l :: 0 <= k && l == k + 1 && l < |tr| ==> Moves(tr[k], ms[k], tr[l], name)
  }

  /** The exact account of a deploy over any run, with any failures: the runs it started, one that it
      may still start and one that it was withdrawn from are one for its registration and one for every
      slip. */
  lemma {:induction false} RunsAreAccountedFor(tr: seq<Stage>, ms: seq<Move>, name: string)
    requires History(tr, ms, name)
    ensures Count(tr, ms, name, RunsStarted) + One(Armed(tr[|ms|], name)) + Count(tr, ms, name, Withdrawals) ==
            One(Armed(tr[0], name)) + Count(tr, ms, name, SlipUps)
  {
    var n := |ms| - 1;
    if n >= 0 {
      RunsAreAccountedFor(tr[..n + 1], ms[..n], name);
      StepBalances(tr[n], ms[n], tr[n + 1], name);
    }
  }

  /** So a deploy that is done, and was not withdrawn, has started at most one run exactly when no
      reconcile of it slipped. */
  lemma WhenOneRunIsStarted(tr: seq<Stage>, ms: seq<Move>, name: string)
    requires History(tr, ms, name)
    requires Armed(tr[0], name) && !Armed(tr[|ms|], name) && Count(tr, ms, name, Withdrawals) == 0
    ensures Count(tr, ms, name, RunsStarted) <= 1 <==> Count(tr, ms, name, SlipUps) == 0
    ensures Count(tr, ms, name, RunsStarted) == 1 + Count(tr, ms, name, SlipUps)
  {
    RunsAreAccountedFor(tr, ms, name);
  }

  /** The three ways to slip, each leading to a second run: the deletion of a completed deploy fails, the
      runs of a running one cannot be listed, the answer to the creation or the status write is lost. */
  lemma FailedDeleteRedeploys(d: Deploy, w: Weather)
    requires d.status.Running? && w.listRuns && w.delete.Failed? && !w.save.Failed?
    ensures var t := Reconciled(Stage([d], []), 0, w);
      |t.deploys| == 1 && t.deploys[0].status.Failed? && Decide(t, 0) == Start
  {
  }

  lemma FailedListRedeploys(d: Deploy, w: Weather)
    requires d.status.Running? && !w.listRuns && !w.save.Failed?
    ensures var own := PipelineRun(d.name, false, false);
      var t := Reconciled(Stage([d], [own]), 0, w);
      t.runs == [own] && |t.deploys| == 1 && t.deploys[0].status.Failed? && Decide(t, 0) == Start
  {
  }

  lemma LostWriteRedeploys(d: Deploy, w: Weather)
    requires d.status.Pending? && w.listRuns && w.resources.Ready?
    requires w.create.Lost? || (w.create.Done? && w.save.Failed?)
    ensures var t := Reconciled(Stage([d], []), 0, w);
      t.runs == [PipelineRun(d.name, false, false)] && |t.deploys| == 1 && Decide(Quieted(t), 0) == Start
  {
    WhenDeployStartsAgain(Stage([d], []), 0, w);
  }
}
