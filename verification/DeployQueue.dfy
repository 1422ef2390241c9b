/**
  The deployments of one stage: the CDStageDeploy controller, which serves one object at a time, and the
  PipelineRuns it starts. Theorems about whole runs are in DeployRuns.
*/
module DeployQueue {
  import opened Calls

  datatype Status = Pending | InQueue | Running | Failed | Completed

  datatype Deploy = Deploy(name: string, created: int, status: Status)

  /** `retry` records that the run was started for a deploy in failed status. */
  datatype PipelineRun = PipelineRun(owner: string, done: bool, retry: bool)

  /** The stage's deploys and runs, in the order the API server lists them. */
  datatype Stage = Stage(deploys: seq<Deploy>, runs: seq<PipelineRun>)

  const MAX_PIPELINE_RUNS := 500

  datatype Resources = Ready | NoTemplates | NoLastTag | Missing

  /** How the calls of one reconcile end. A crash needs no case of its own: it is the same as losing
      every write after it. */
  datatype Weather = Weather(
    listRuns: bool, listDeploys: bool, resources: Resources, create: Answer, delete: Answer, save: Answer)
  {
    /** No call fails. */
    predicate Clear() {
      listRuns && listDeploys && !resources.Missing? && create.Done? && delete.Done? && save.Done?
    }
  }

  // ---------- what the controller sees ----------

  /** The list call is limited, so only the first runs are seen. */
  function Seen(runs: seq<PipelineRun>): (r: seq<PipelineRun>) {
    if |runs| > MAX_PIPELINE_RUNS then runs[..MAX_PIPELINE_RUNS] else runs
  }

  predicate Quiet(runs: seq<PipelineRun>) {
    forall r <- Seen(runs) :: r.done
  }

  predicate AllQueued(deploys: seq<Deploy>) {
    forall d <- deploys :: d.status.InQueue?
  }

  /** k is the oldest deploy, the first in the list among equals. */
  predicate IsOldest(deploys: seq<Deploy>, k: nat) {
    && k < |deploys|
    && (forall j :: 0 <= j < k ==> deploys[k].created < deploys[j].created)
    && (forall j :: k <= j < |deploys| ==> deploys[k].created <= deploys[j].created)
  }

  ghost predicate Eligible(deploys: seq<Deploy>, name: string) {
    exists k: nat :: IsOldest(deploys, k) && deploys[k].name == name
  }

  // ---------- the transition function ----------

  datatype Decision = Start | Enqueue | Finish | Wait

  ghost function Decide(s: Stage, i: nat): Decision
    requires i < |s.deploys|
  {
    match s.deploys[i].status
    case Failed => Start
    case Pending => if Quiet(s.runs) then Start else Enqueue
    case InQueue =>
      if Quiet(s.runs) && AllQueued(s.deploys) && Eligible(s.deploys, s.deploys[i].name) then Start else Wait
    case Running => if Quiet(s.runs) then Finish else Wait
    case Completed => Finish
  }

  /** A list call the decision needs fails. */
  predicate Blind(s: Stage, i: nat, w: Weather)
    requires i < |s.deploys|
  {
    var st := s.deploys[i].status;
    !st.Failed? && (!w.listRuns || (st.InQueue? && Quiet(s.runs) && !w.listDeploys))
  }

  function Save(s: Stage, i: nat, status: Status, save: Answer): Stage
    requires i < |s.deploys|
  {
    if save.Failed? then s else s.(deploys := s.deploys[i := s.deploys[i].(status := status)])
  }

  /** Deletes the deploy; when that fails the error handler marks it failed. */
  function Remove(s: Stage, i: nat, w: Weather): Stage
    requires i < |s.deploys|
  {
    if w.delete.Failed? then Save(s, i, Status.Failed, w.save)
    else s.(deploys := s.deploys[..i] + s.deploys[i + 1..])
  }

  function Launch(s: Stage, i: nat, w: Weather): Stage
    requires i < |s.deploys|
  {
    var d := s.deploys[i];
    var started := s.(runs := s.runs + [PipelineRun(d.name, false, d.status.Failed?)]);
    match w.resources
    case Missing => Save(s, i, Status.Failed, w.save)
    case NoTemplates => Remove(s, i, w)
    case NoLastTag => Remove(s, i, w)
    case Ready =>
      match w.create
      case Done => Save(started, i, Running, w.save)
      case Lost => Save(started, i, Status.Failed, w.save)
      case Failed => Save(s, i, Status.Failed, w.save)
  }

  /** The stage after one reconcile of its i-th deploy. */
  ghost function Reconciled(s: Stage, i: nat, w: Weather): Stage
    requires i < |s.deploys|
  {
    if Blind(s, i, w) then Save(s, i, Status.Failed, w.save)
    else
      match Decide(s, i)
      case Start => Launch(s, i, w)
      case Enqueue => Save(s, i, InQueue, w.save)
      case Finish => Remove(s, i, w)
      case Wait => s
  }

  // ---------- the controller ----------

  class Controller {
    var deploys: seq<Deploy>
    var runs: seq<PipelineRun>

    constructor (s: Stage)
      ensures View() == s
    {
      deploys, runs := s.deploys, s.runs;
    }

    function View(): Stage
      reads this
    {
      Stage(deploys, runs)
    }

    static method AllPipelineRunsCompleted(items: seq<PipelineRun>) returns (all: bool)
      ensures all <==> forall r <- items :: r.done
    {
      for i := 0 to |items|
        invariant forall j :: 0 <= j < i ==> items[j].done
      {
        if !items[i].done {
          return false;
        }
      }
      return true;
    }

    static method AllDeploysInQueue(items: seq<Deploy>) returns (all: bool)
      ensures all <==> AllQueued(items)
    {
      for i := 0 to |items|
        invariant forall j :: 0 <= j < i ==> items[j].status.InQueue?
      {
        if !items[i].status.InQueue? {
          return false;
        }
      }
      return true;
    }

    /** isFirsCdStageDeployInQue: a later deploy takes over only when it is strictly older. */
    static method IsFirstInQueue(items: seq<Deploy>, name: string) returns (first: bool)
      ensures first <==> Eligible(items, name)
    {
      if |items| == 0 {
        return false;
      }
      var k := 0;
      for i := 0 to |items|
        invariant k < |items| && (0 < i ==> k < i) && (i == 0 ==> k == 0)
        invariant forall j :: 0 <= j < k ==> items[k].created < items[j].created
        invariant forall j :: k <= j < i ==> items[k].created <= items[j].created
      {
        if items[i].created < items[k].created {
          k := i;
        }
      }
      assert IsOldest(items, k);
      assert forall j: nat :: IsOldest(items, j) ==> j == k;
      first := items[k].name == name;
    }

    method ShouldStart(name: string, seen: seq<PipelineRun>, listDeploys: bool) returns (start: bool, ok: bool)
      ensures ok == ((forall r <- seen :: r.done) ==> listDeploys)
      ensures ok ==>
        (start <==> (forall r <- seen :: r.done) && AllQueued(deploys) && Eligible(deploys, name))
    {
      var quiet := AllPipelineRunsCompleted(seen);
      if !quiet {
        return false, true;
      }
      if !listDeploys {
        return false, false;
      }
      var all := AllDeploysInQueue(deploys);
      if !all {
        return false, true;
      }
      start := IsFirstInQueue(deploys, name);
      ok := true;
    }

    /** ResolveStatus.ServeRequest, on the status held in memory. An eligible queued deploy becomes
        pending here and is started by the next handler of the same reconcile. */
    method ResolveStatus(i: nat, w: Weather) returns (status: Status, ok: bool)
      requires i < |deploys|
      ensures ok == !Blind(View(), i, w)
      ensures ok ==> status == match Decide(View(), i)
        case Start => if deploys[i].status.Failed? then Status.Failed else Pending
        case Enqueue => InQueue
        case Finish => Completed
        case Wait => deploys[i].status
    {
      status, ok := deploys[i].status, true;
      if status == Status.Failed {
        return;
      }
      if !w.listRuns {
        return status, false;
      }
      var seen := Seen(runs);
      if status == Pending {
        var quiet := AllPipelineRunsCompleted(seen);
        if !quiet {
          status := InQueue;
        }
      } else if status == InQueue {
        var start;
        start, ok := ShouldStart(deploys[i].name, seen, w.listDeploys);
        if ok && start {
          status := Pending;
        }
      } else if status == Running {
        var quiet := AllPipelineRunsCompleted(seen);
        if quiet {
          status := Completed;
        }
      }
    }

    /** ProcessTriggerTemplate.ServeRequest: only pending and failed deploys start a run. */
    method ProcessTriggerTemplate(i: nat, status: Status, w: Weather) returns (next: Status, ok: bool)
      requires i < |deploys|
      modifies this`runs
      ensures status !in {Pending, Status.Failed} ==> ok && next == status && runs == old(runs)
      ensures status in {Pending, Status.Failed} ==>
        && ok == (!w.resources.Missing? && (w.resources.Ready? ==> w.create.Done?))
        && (ok ==> next == if w.resources.Ready? then Running else Completed)
        && runs == (if w.resources.Ready? && !w.create.Failed?
                    then old(runs) + [PipelineRun(deploys[i].name, false, deploys[i].status.Failed?)]
                    else old(runs))
    {
      next, ok := status, true;
      if status != Pending && status != Status.Failed {
        return;
      }
      match w.resources
      case Missing =>
        ok := false;
      case NoTemplates =>
        next := Completed;
      case NoLastTag =>
        next := Completed;
      case Ready =>
        if w.create != Outcome.Failed {
          runs := runs + [PipelineRun(deploys[i].name, false, deploys[i].status == Status.Failed)];
        }
        if w.create != Outcome.Done {
          ok := false;
        } else {
          next := Running;
        }
    }

    /** Reconcile of the i-th deploy: the three handlers in order, then the status write. Completed is
        never written, because a completed deploy is gone. */
    method Reconcile(i: nat, w: Weather)
      requires i < |deploys|
      modifies this
      ensures View() == Reconciled(old(View()), i, w)
    {
      var before := deploys[i].status;
      var status, ok := ResolveStatus(i, w);
      if ok {
        status, ok := ProcessTriggerTemplate(i, status, w);
      }
      var present := true;
      if ok && status == Completed {
        if w.delete != Outcome.Failed {
          deploys, present := deploys[..i] + deploys[i + 1..], false;
        }
        ok := w.delete == Outcome.Done;
      }
      if !ok {
        status := Status.Failed;
      }
      if present && (!ok || (status != before && status != Completed)) && w.save != Outcome.Failed {
        deploys := deploys[i := deploys[i].(status := status)];
      }
    }
  }
}
