/**
  Which deployment resources reference a Codebase or a CodebaseBranch: the branch usage index against a
  naive scan, the codebase finder, and the two delete webhooks built on them.
*/
module Usage {
  import opened Calls

  datatype CDPipeline = CDPipeline(
    name: string, deleting: bool,
    applications: seq<string>, toPromote: seq<string>, inputDockerStreams: seq<string>)

  datatype QualityGate = QualityGate(autotestName: Option<string>, branchName: Option<string>)

  datatype Stage = Stage(name: string, deleting: bool, cdPipeline: string, gates: seq<QualityGate>)

  /** What identifies a CodebaseBranch: its resource name, its codebase and its git branch. */
  datatype BranchId = BranchId(name: string, codebase: string, branch: string)

  /** A list call: the items, or that the kind is not installed, or any other failure. */
  datatype Listing<+T> = Items(items: seq<T>) | KindUnavailable | ListFailed

  /** One read of a namespace. */
  datatype Cluster = Cluster(
    pipelines: Listing<CDPipeline>, stages: Listing<Stage>, branches: Listing<BranchId>)

  const KIND_PIPELINE := "CDPipeline"
  const KIND_STAGE := "Stage"
  const FIELD_APPLICATIONS := "spec.applications"
  const FIELD_TO_PROMOTE := "spec.applicationsToPromote"
  const FIELD_STREAMS := "spec.inputDockerStreams"
  const FIELD_AUTOTEST := "spec.qualityGates.autotestName"

  datatype Reference = Reference(kind: string, name: string, field: string, reason: string, parent: string) {
    function Describe(): string {
      if kind == KIND_STAGE then
        KIND_STAGE + " " + name + " of " + KIND_PIPELINE + " " + parent + " (" + reason + ")"
      else kind + " " + name + " (" + reason + ")"
    }
  }

  function Join(refs: seq<Reference>): (s: string)
    ensures s == "" <==> refs == []
  {
    if refs == [] then ""
    else if |refs| == 1 then refs[0].Describe()
    else refs[0].Describe() + "; " + Join(refs[1..])
  }

  /** The references found, or None when usage could not be established. */
  type Finding = Option<seq<Reference>>

  // ---------- the shared, filtered reads ----------

  function LivePipelines(ps: seq<CDPipeline>): seq<CDPipeline> {
    if ps == [] then []
    else LivePipelines(ps[..|ps| - 1]) + if ps[|ps| - 1].deleting then [] else [ps[|ps| - 1]]
  }

  function LiveStages(ss: seq<Stage>): seq<Stage> {
    if ss == [] then []
    else LiveStages(ss[..|ss| - 1]) + if ss[|ss| - 1].deleting then [] else [ss[|ss| - 1]]
  }

  /** Without the kind there are no objects of it; any other failure leaves usage unknown. */
  function ActivePipelines(c: Cluster): Option<seq<CDPipeline>> {
    if c.pipelines.ListFailed? then None else Some(LivePipelines(Listed(c.pipelines)))
  }

  function ActiveGates(c: Cluster): Option<seq<AutotestGate>> {
    if c.stages.ListFailed? then None else Some(AllGates(LiveStages(Listed(c.stages))))
  }

  function Listed<T>(l: Listing<T>): seq<T> {
    if l.Items? then l.items else []
  }

  datatype AutotestGate = AutotestGate(ref: Reference, autotest: string, branch: string)

  function StageRef(s: Stage): Reference {
    Reference(KIND_STAGE, s.name, FIELD_AUTOTEST, "autotest quality gate", s.cdPipeline)
  }

  /** A manual gate names no autotest. */
  predicate IsManual(g: QualityGate) {
    g.autotestName.None? || g.autotestName.value == ""
  }

  function Gate(s: Stage, g: QualityGate): AutotestGate
    requires !IsManual(g)
  {
    AutotestGate(StageRef(s), g.autotestName.value, if g.branchName.Some? then g.branchName.value else "")
  }

  function GatesOf(s: Stage, gates: seq<QualityGate>): seq<AutotestGate> {
    if gates == [] then []
    else GatesOf(s, gates[..|gates| - 1]) +
         if IsManual(gates[|gates| - 1]) then [] else [Gate(s, gates[|gates| - 1])]
  }

  function AllGates(stages: seq<Stage>): seq<AutotestGate> {
    if stages == [] then []
    else AllGates(stages[..|stages| - 1]) + GatesOf(stages[|stages| - 1], stages[|stages| - 1].gates)
  }

  method ListActiveCDPipelines(c: Cluster) returns (r: Option<seq<CDPipeline>>)
    ensures r == ActivePipelines(c)
  {
    if c.pipelines.ListFailed? {
      return None;
    }
    var items := Listed(c.pipelines);
    var active := [];
    for i := 0 to |items|
      invariant active == LivePipelines(items[..i])
    {
      assert items[..i + 1][..i] == items[..i];
      if !items[i].deleting {
        active := active + [items[i]];
      }
    }
    assert items[..|items|] == items;
    r := Some(active);
  }

  method ListActiveStages(c: Cluster) returns (r: Option<seq<Stage>>)
    ensures r == if c.stages.ListFailed? then None else Some(LiveStages(Listed(c.stages)))
  {
    if c.stages.ListFailed? {
      return None;
    }
    var items := Listed(c.stages);
    var active := [];
    for i := 0 to |items|
      invariant active == LiveStages(items[..i])
    {
      assert items[..i + 1][..i] == items[..i];
      if !items[i].deleting {
        active := active + [items[i]];
      }
    }
    assert items[..|items|] == items;
    r := Some(active);
  }

  method FindAutotestGates(c: Cluster) returns (r: Option<seq<AutotestGate>>)
    ensures r == ActiveGates(c)
  {
    var listed := ListActiveStages(c);
    if listed.None? {
      return None;
    }
    var stages := listed.value;
    var gates := [];
    for i := 0 to |stages|
      invariant gates == AllGates(stages[..i])
    {
      var s := stages[i];
      assert stages[..i + 1][..i] == stages[..i];
      for j := 0 to |s.gates|
        invariant gates == AllGates(stages[..i]) + GatesOf(s, s.gates[..j])
      {
        assert s.gates[..j + 1][..j] == s.gates[..j];
        if !IsManual(s.gates[j]) {
          gates := gates + [Gate(s, s.gates[j])];
        }
      }
      assert s.gates[..|s.gates|] == s.gates;
    }
    assert stages[..|stages|] == stages;
    r := Some(gates);
  }

  // ---------- usage of a branch ----------

  function StreamRef(p: CDPipeline): Reference {
    Reference(KIND_PIPELINE, p.name, FIELD_STREAMS, "inputDockerStreams", "")
  }

  /** One reference for every pipeline that lists the branch, in list order. */
  function StreamRefs(ps: seq<CDPipeline>, name: string): seq<Reference> {
    if ps == [] then []
    else StreamRefs(ps[..|ps| - 1], name) +
         if name in ps[|ps| - 1].inputDockerStreams then [StreamRef(ps[|ps| - 1])] else []
  }

  /** One reference for every gate that runs the branch's autotest, in list order. */
  function GateRefs(gates: seq<AutotestGate>, codebase: string, branch: string): seq<Reference> {
    if gates == [] then []
    else GateRefs(gates[..|gates| - 1], codebase, branch) +
         if gates[|gates| - 1].autotest == codebase && gates[|gates| - 1].branch == branch
         then [gates[|gates| - 1].ref] else []
  }

  /** The naive scan of the active pipelines and stages. */
  function BranchUsage(c: Cluster, b: BranchId): Finding {
    match (ActivePipelines(c), ActiveGates(c))
    case (Some(ps), Some(gates)) => Some(StreamRefs(ps, b.name) + GateRefs(gates, b.codebase, b.branch))
    case (_, _) => None
  }

  function Lookup<K(==), V>(m: map<K, seq<V>>, k: K): seq<V> {
    if k in m then m[k] else []
  }

  /** BranchUsageIndex: the answers for every branch at once, from one read. */
  class BranchUsageIndex {
    var byStreamName: map<string, seq<Reference>>
    var byAutotest: map<(string, string), seq<Reference>>

    /** The index answers what the scan of these pipelines and gates answers. */
    ghost predicate Holds(ps: seq<CDPipeline>, gates: seq<AutotestGate>)
      reads this
    {
      && (forall n :: Lookup(byStreamName, n) == StreamRefs(ps, n))
      && (forall k :: Lookup(byAutotest, k) == GateRefs(gates, k.0, k.1))
    }

    constructor ()
      ensures Holds([], [])
    {
      byStreamName, byAutotest := map[], map[];
    }

    /** A pipeline listing the same stream twice is reported once. */
    method AddPipeline(p: CDPipeline)
      modifies this`byStreamName
      ensures forall n :: Lookup(byStreamName, n) == Lookup(old(byStreamName), n) +
                (if n in p.inputDockerStreams then [StreamRef(p)] else [])
    {
      var seen: set<string> := {};
      var streams := p.inputDockerStreams;
      for i := 0 to |streams|
        invariant forall n :: n in seen <==> n in streams[..i]
        invariant forall n :: Lookup(byStreamName, n) == Lookup(old(byStreamName), n) +
                    (if n in seen then [StreamRef(p)] else [])
      {
        var stream := streams[i];
        assert streams[..i + 1] == streams[..i] + [stream];
        if stream !in seen {
          seen := seen + {stream};
          byStreamName := byStreamName[stream := Lookup(byStreamName, stream) + [StreamRef(p)]];
        }
      }
      assert streams[..|streams|] == streams;
    }

    method AddGate(g: AutotestGate)
      modifies this`byAutotest
      ensures forall k :: Lookup(byAutotest, k) == Lookup(old(byAutotest), k) +
                (if k == (g.autotest, g.branch) then [g.ref] else [])
    {
      var key := (g.autotest, g.branch);
      byAutotest := byAutotest[key := Lookup(byAutotest, key) + [g.ref]];
    }

    /** Every reference to the branch: one for each pipeline that lists it, then one for each gate. */
    method Find(b: BranchId) returns (refs: seq<Reference>)
      ensures refs == Lookup(byStreamName, b.name) + Lookup(byAutotest, (b.codebase, b.branch))
      ensures forall ps, gates :: Holds(ps, gates) ==>
        refs == StreamRefs(ps, b.name) + GateRefs(gates, b.codebase, b.branch)
    {
      var pipelineRefs := Lookup(byStreamName, b.name);
      var gateRefs := Lookup(byAutotest, (b.codebase, b.branch));
      if |pipelineRefs| == 0 && |gateRefs| == 0 {
        refs := [];
      } else {
        refs := pipelineRefs + gateRefs;
      }
    }

    method AddPipelines(ps: seq<CDPipeline>)
      requires Holds([], [])
      modifies this`byStreamName
      ensures Holds(ps, [])
    {
      for i := 0 to |ps|
        invariant Holds(ps[..i], [])
      {
        assert ps[..i + 1][..i] == ps[..i];
        AddPipeline(ps[i]);
      }
      assert ps[..|ps|] == ps;
    }

    method AddGates(gates: seq<AutotestGate>, ghost ps: seq<CDPipeline>)
      requires Holds(ps, [])
      modifies this`byAutotest
      ensures Holds(ps, gates)
    {
      for i := 0 to |gates|
        invariant Holds(ps, gates[..i])
      {
        assert gates[..i + 1][..i] == gates[..i];
        AddGate(gates[i]);
      }
      assert gates[..|gates|] == gates;
    }
  }

  /** NewBranchUsageIndex: one read of the namespace, indexed for the questions about all branches. */
  method NewBranchUsageIndex(c: Cluster) returns (index: BranchUsageIndex, ok: bool)
    ensures fresh(index)
    ensures ok == (ActivePipelines(c).Some? && ActiveGates(c).Some?)
    ensures ok ==> index.Holds(ActivePipelines(c).value, ActiveGates(c).value)
  {
    index := new BranchUsageIndex();
    var ps := ListActiveCDPipelines(c);
    if ps.None? {
      return index, false;
    }
    index.AddPipelines(ps.value);
    var gates := FindAutotestGates(c);
    if gates.None? {
      return index, false;
    }
    index.AddGates(gates.value, ps.value);
    ok := true;
  }

  /** FindBranchUsage: the index built for a single question. */
  method FindBranchUsage(c: Cluster, b: BranchId) returns (r: Finding)
    ensures r == BranchUsage(c, b)
  {
    var index, ok := NewBranchUsageIndex(c);
    if !ok {
      return None;
    }
    var refs := index.Find(b);
    r := Some(refs);
  }

  // ---------- usage of a codebase ----------

  /** Why a pipeline blocks a codebase: it promotes or deploys it, or consumes one of its branches. */
  function MatchPipeline(p: CDPipeline, codebase: string, branchNames: set<string>): (r: Option<Reference>)
    ensures r.Some? <==>
      codebase in p.applications || codebase in p.toPromote || exists s <- p.inputDockerStreams :: s in branchNames
  {
    if codebase in p.applications then
      Some(Reference(KIND_PIPELINE, p.name, FIELD_APPLICATIONS, "applications", ""))
    else if codebase in p.toPromote then
      Some(Reference(KIND_PIPELINE, p.name, FIELD_TO_PROMOTE, "applicationsToPromote", ""))
    else
      match FirstIn(p.inputDockerStreams, branchNames)
      case Some(s) =>
        Some(Reference(KIND_PIPELINE, p.name, FIELD_STREAMS, "branch " + s + " in inputDockerStreams", ""))
      case None => None
  }

  function FirstIn(items: seq<string>, names: set<string>): (r: Option<string>)
    ensures r.Some? <==> exists s <- items :: s in names
    ensures r.Some? ==> r.value in items && r.value in names
  {
    if items == [] then None
    else if items[0] in names then Some(items[0])
    else FirstIn(items[1..], names)
  }

  function PipelineRefs(ps: seq<CDPipeline>, codebase: string, names: set<string>): seq<Reference> {
    if ps == [] then []
    else
      var last := MatchPipeline(ps[|ps| - 1], codebase, names);
      PipelineRefs(ps[..|ps| - 1], codebase, names) + if last.Some? then [last.value] else []
  }

  function AutotestRefs(gates: seq<AutotestGate>, codebase: string): seq<Reference> {
    if gates == [] then []
    else AutotestRefs(gates[..|gates| - 1], codebase) +
         if gates[|gates| - 1].autotest == codebase then [gates[|gates| - 1].ref] else []
  }

  /** The resource names of the codebase's branches. */
  function BranchNames(c: Cluster, codebase: string): Option<set<string>> {
    match c.branches
    case Items(bs) => Some(set b <- bs | b.codebase == codebase :: b.name)
    case KindUnavailable => Some({})
    case ListFailed => None
  }

  function CodebaseUsage(c: Cluster, codebase: string): Finding {
    match (ActivePipelines(c), BranchNames(c, codebase), ActiveGates(c))
    case (Some(ps), Some(names), Some(gates)) =>
      Some(PipelineRefs(ps, codebase, names) + AutotestRefs(gates, codebase))
    case (_, _, _) => None
  }

  method FindCodebaseUsage(c: Cluster, codebase: string) returns (r: Finding)
    ensures r == CodebaseUsage(c, codebase)
  {
    var listed := ListActiveCDPipelines(c);
    var names := BranchNames(c, codebase);
    if listed.None? || names.None? {
      return None;
    }
    var ps := listed.value;
    var refs := [];
    for i := 0 to |ps|
      invariant refs == PipelineRefs(ps[..i], codebase, names.value)
    {
      assert ps[..i + 1][..i] == ps[..i];
      var matched := MatchPipeline(ps[i], codebase, names.value);
      if matched.Some? {
        refs := refs + [matched.value];
      }
    }
    assert ps[..|ps|] == ps;
    var found := FindAutotestGates(c);
    if found.None? {
      return None;
    }
    var gates := found.value;
    var gateRefs := [];
    for i := 0 to |gates|
      invariant gateRefs == AutotestRefs(gates[..i], codebase)
    {
      assert gates[..i + 1][..i] == gates[..i];
      if gates[i].autotest == codebase {
        gateRefs := gateRefs + [gates[i].ref];
      }
    }
    assert gates[..|gates|] == gates;
    r := Some(refs + gateRefs);
  }

  // ---------- what the findings mean ----------

  /** A live pipeline consumes the branch, or a live stage runs it as an autotest. */
  predicate BranchInUse(c: Cluster, b: BranchId) {
    || (exists p <- Listed(c.pipelines) :: !p.deleting && b.name in p.inputDockerStreams)
    || (exists s <- Listed(c.stages), g <- s.gates :: !s.deleting && RunsAutotest(g, b))
  }

  predicate RunsAutotest(g: QualityGate, b: BranchId) {
    && !IsManual(g) && g.autotestName.value == b.codebase
    && b.branch == if g.branchName.Some? then g.branchName.value else ""
  }

  /** A live pipeline names the codebase or one of its branches, or a live stage runs it. */
  predicate CodebaseInUse(c: Cluster, codebase: string) {
    || (exists p <- Listed(c.pipelines) :: !p.deleting && Consumes(c, p, codebase))
    || (exists s <- Listed(c.stages), g <- s.gates ::
          !s.deleting && !IsManual(g) && g.autotestName.value == codebase)
  }

  predicate Consumes(c: Cluster, p: CDPipeline, codebase: string) {
    || codebase in p.applications
    || codebase in p.toPromote
    || exists b <- Listed(c.branches) :: b.codebase == codebase && b.name in p.inputDockerStreams
  }

  lemma {:induction false} StreamRefsEmpty(ps: seq<CDPipeline>, name: string)
    ensures StreamRefs(ps, name) == [] <==> forall p <- ps :: name !in p.inputDockerStreams
  {
    if ps != [] {
      StreamRefsEmpty(ps[..|ps| - 1], name);
      assert ps == ps[..|ps| - 1] + [ps[|ps| - 1]];
    }
  }

  lemma {:induction false} PipelineRefsEmpty(ps: seq<CDPipeline>, codebase: string, names: set<string>)
    ensures PipelineRefs(ps, codebase, names) == [] <==> forall p <- ps :: MatchPipeline(p, codebase, names).None?
  {
    if ps != [] {
      PipelineRefsEmpty(ps[..|ps| - 1], codebase, names);
      assert ps == ps[..|ps| - 1] + [ps[|ps| - 1]];
    }
  }

  lemma {:induction false} GateRefsEmpty(gates: seq<AutotestGate>, codebase: string, branch: string)
    ensures GateRefs(gates, codebase, branch) == [] <==>
      forall g <- gates :: !(g.autotest == codebase && g.branch == branch)
    ensures AutotestRefs(gates, codebase) == [] <==> forall g <- gates :: g.autotest != codebase
  {
    if gates != [] {
      GateRefsEmpty(gates[..|gates| - 1], codebase, branch);
      assert gates == gates[..|gates| - 1] + [gates[|gates| - 1]];
    }
  }

  lemma {:induction false} GatesOfMembers(s: Stage, gates: seq<QualityGate>)
    ensures forall a :: a in GatesOf(s, gates) <==> exists g <- gates :: !IsManual(g) && a == Gate(s, g)
  {
    if gates != [] {
      GatesOfMembers(s, gates[..|gates| - 1]);
      assert gates == gates[..|gates| - 1] + [gates[|gates| - 1]];
    }
  }

  lemma {:induction false} AllGatesMembers(stages: seq<Stage>)
    ensures forall a :: a in AllGates(stages) <==> exists s <- stages :: a in GatesOf(s, s.gates)
  {
    if stages != [] {
      AllGatesMembers(stages[..|stages| - 1]);
      assert stages == stages[..|stages| - 1] + [stages[|stages| - 1]];
    }
  }

  lemma {:induction false} LivePipelinesMembers(ps: seq<CDPipeline>)
    ensures forall p :: p in LivePipelines(ps) <==> p in ps && !p.deleting
  {
    if ps != [] {
      LivePipelinesMembers(ps[..|ps| - 1]);
      assert ps == ps[..|ps| - 1] + [ps[|ps| - 1]];
    }
  }

  lemma {:induction false} LiveStagesMembers(ss: seq<Stage>)
    ensures forall s :: s in LiveStages(ss) <==> s in ss && !s.deleting
  {
    if ss != [] {
      LiveStagesMembers(ss[..|ss| - 1]);
      assert ss == ss[..|ss| - 1] + [ss[|ss| - 1]];
    }
  }

  /** The active gates are those of the live stages that name an autotest. */
  lemma ActiveGateSource(c: Cluster, a: AutotestGate) returns (s: Stage, g: QualityGate)
    requires ActiveGates(c).Some? && a in ActiveGates(c).value
    ensures s in Listed(c.stages) && g in s.gates && !s.deleting && !IsManual(g) && a == Gate(s, g)
  {
    LiveStagesMembers(Listed(c.stages));
    AllGatesMembers(LiveStages(Listed(c.stages)));
    s :| s in LiveStages(Listed(c.stages)) && a in GatesOf(s, s.gates);
    GatesOfMembers(s, s.gates);
    g :| g in s.gates && !IsManual(g) && a == Gate(s, g);
  }

  lemma GateIsActive(c: Cluster, s: Stage, g: QualityGate)
    requires ActiveGates(c).Some? && s in Listed(c.stages) && g in s.gates && !s.deleting && !IsManual(g)
    ensures Gate(s, g) in ActiveGates(c).value
  {
    LiveStagesMembers(Listed(c.stages));
    AllGatesMembers(LiveStages(Listed(c.stages)));
    GatesOfMembers(s, s.gates);
  }

  /** The scan, and with it the index, comes back empty exactly for a branch no live resource uses. */
  lemma BranchUsageIsExact(c: Cluster, b: BranchId)
    requires BranchUsage(c, b).Some?
    ensures BranchUsage(c, b) == Some([]) <==> !BranchInUse(c, b)
  {
    LivePipelinesMembers(Listed(c.pipelines));
    StreamRefsEmpty(ActivePipelines(c).value, b.name);
    var gates := ActiveGates(c).value;
    GateRefsEmpty(gates, b.codebase, b.branch);
    assert BranchUsage(c, b).value == [] <==>
      StreamRefs(ActivePipelines(c).value, b.name) == [] && GateRefs(gates, b.codebase, b.branch) == [];
    if a :| a in gates && a.autotest == b.codebase && a.branch == b.branch {
      var s, g := ActiveGateSource(c, a);
      assert RunsAutotest(g, b);
    } else if s, g :| s in Listed(c.stages) && g in s.gates && !s.deleting && RunsAutotest(g, b) {
      GateIsActive(c, s, g);
      assert false;
    }
  }

  lemma MatchIsExact(c: Cluster, p: CDPipeline, codebase: string)
    requires BranchNames(c, codebase).Some?
    ensures MatchPipeline(p, codebase, BranchNames(c, codebase).value).Some? <==> Consumes(c, p, codebase)
  {
    var names := BranchNames(c, codebase).value;
    if b :| b in Listed(c.branches) && b.codebase == codebase && b.name in p.inputDockerStreams {
      assert b.name in names;
    }
  }

  lemma CodebaseUsageIsExact(c: Cluster, codebase: string)
    requires CodebaseUsage(c, codebase).Some?
    ensures CodebaseUsage(c, codebase) == Some([]) <==> !CodebaseInUse(c, codebase)
  {
    var names := BranchNames(c, codebase).value;
    var ps := ActivePipelines(c).value;
    var gates := ActiveGates(c).value;
    assert CodebaseUsage(c, codebase).value == [] <==>
      PipelineRefs(ps, codebase, names) == [] && AutotestRefs(gates, codebase) == [];
    LivePipelinesMembers(Listed(c.pipelines));
    PipelineRefsEmpty(ps, codebase, names);
    forall p ensures MatchPipeline(p, codebase, names).Some? <==> Consumes(c, p, codebase) {
      MatchIsExact(c, p, codebase);
    }
    GateRefsEmpty(gates, codebase, "");
    if a :| a in gates && a.autotest == codebase {
      var s, g := ActiveGateSource(c, a);
    } else if s, g :| s in Listed(c.stages) && g in s.gates && !s.deleting && !IsManual(g) &&
                      g.autotestName.value == codebase {
      GateIsActive(c, s, g);
      assert false;
    }
  }

  // ---------- one reference for each use, in list order ----------

  /** Strictly increasing positions below a bound. */
  predicate Positions(at: seq<nat>, n: nat) {
    && (forall k :: 0 <= k < |at| ==> at[k] < n)
    && forall k, l :: 0 <= k < l < |at| ==> at[k] < at[l]
  }

  /** What is reported of the items of a list, each on its own. */
  function Pick<T>(items: seq<T>, use: T -> Option<Reference>): seq<Reference> {
    if items == [] then []
    else
      var last := use(items[|items| - 1]);
      Pick(items[..|items| - 1], use) + if last.Some? then [last.value] else []
  }

  lemma {:induction false} PickInOrder<T>(items: seq<T>, use: T -> Option<Reference>) returns (at: seq<nat>)
    ensures Positions(at, |items|) && |Pick(items, use)| == |at|
    ensures forall i: nat :: i in at <==> i < |items| && use(items[i]).Some?
    ensures forall k :: 0 <= k < |at| ==> use(items[at[k]]) == Some(Pick(items, use)[k])
  {
    if items == [] {
      at := [];
    } else {
      var n := |items| - 1;
      at := PickInOrder(items[..n], use);
      if use(items[n]).Some? {
        at := at + [n];
      }
    }
  }

  function StreamUse(name: string): CDPipeline -> Option<Reference> {
    (p: CDPipeline) =>
      if !p.deleting && name in p.inputDockerStreams then
        Some(Reference("CDPipeline", p.name, "spec.inputDockerStreams", "inputDockerStreams", ""))
      else None
  }

  /** The references to a branch from pipelines, by position: one for every live pipeline that lists it, in
      list order, naming that pipeline and the field. */
  lemma {:induction false} StreamRefsInOrder(ps: seq<CDPipeline>, name: string) returns (at: seq<nat>)
    ensures var refs := StreamRefs(LivePipelines(ps), name);
      && |refs| == |at| && Positions(at, |ps|)
      && (forall i: nat :: i in at <==> i < |ps| && !ps[i].deleting && name in ps[i].inputDockerStreams)
      && (forall k :: 0 <= k < |at| ==>
            refs[k] == Reference("CDPipeline", ps[at[k]].name, "spec.inputDockerStreams", "inputDockerStreams", ""))
  {
    StreamRefsArePicked(ps, name);
    at := PickInOrder(ps, StreamUse(name));
    forall k | 0 <= k < |at|
      ensures Some(StreamRefs(LivePipelines(ps), name)[k]) == StreamUse(name)(ps[at[k]])
    {
    }
  }

  lemma {:induction false} StreamRefsArePicked(ps: seq<CDPipeline>, name: string)
    ensures StreamRefs(LivePipelines(ps), name) == Pick(ps, StreamUse(name))
  {
    if ps != [] {
      var n := |ps| - 1;
      StreamRefsArePicked(ps[..n], name);
      var live := LivePipelines(ps[..n]);
      assert (live + [ps[n]])[..|live|] == live;
      assert live + [] == live;
    }
  }

  function BlockingUse(codebase: string, names: set<string>): CDPipeline -> Option<Reference> {
    (p: CDPipeline) => if p.deleting then None else MatchPipeline(p, codebase, names)
  }

  /** Likewise the pipelines that block a codebase. */
  lemma PipelineRefsInOrder(ps: seq<CDPipeline>, codebase: string, names: set<string>)
    returns (at: seq<nat>)
    ensures var refs := PipelineRefs(LivePipelines(ps), codebase, names);
      && |refs| == |at| && Positions(at, |ps|)
      && (forall i: nat :: i in at <==> i < |ps| && !ps[i].deleting && MatchPipeline(ps[i], codebase, names).Some?)
      && (forall k :: 0 <= k < |at| ==> Some(refs[k]) == MatchPipeline(ps[at[k]], codebase, names))
  {
    PipelineRefsArePicked(ps, codebase, names);
    at := PickInOrder(ps, BlockingUse(codebase, names));
    forall k | 0 <= k < |at|
      ensures Some(PipelineRefs(LivePipelines(ps), codebase, names)[k]) == BlockingUse(codebase, names)(ps[at[k]])
    {
    }
  }

  lemma {:induction false} PipelineRefsArePicked(ps: seq<CDPipeline>, codebase: string, names: set<string>)
    ensures PipelineRefs(LivePipelines(ps), codebase, names) == Pick(ps, BlockingUse(codebase, names))
  {
    if ps != [] {
      var n := |ps| - 1;
      PipelineRefsArePicked(ps[..n], codebase, names);
      var live := LivePipelines(ps[..n]);
      assert (live + [ps[n]])[..|live|] == live;
      assert live + [] == live;
    }
  }

  /** The use a matching pipeline is reported for: its applications before those it promotes, and these
      before the first of its streams that is one of the codebase's. */
  lemma MatchNamesFirstUse(p: CDPipeline, codebase: string, names: set<string>)
    ensures var m := MatchPipeline(p, codebase, names);
      if codebase in p.applications then
        m == Some(Reference("CDPipeline", p.name, "spec.applications", "applications", ""))
      else if codebase in p.toPromote then
        m == Some(Reference("CDPipeline", p.name, "spec.applicationsToPromote", "applicationsToPromote", ""))
      else forall i :: 0 <= i < |p.inputDockerStreams| && p.inputDockerStreams[i] in names
                       && (forall j :: 0 <= j < i ==> p.inputDockerStreams[j] !in names) ==>
        m == Some(Reference("CDPipeline", p.name, "spec.inputDockerStreams",
                            "branch " + p.inputDockerStreams[i] + " in inputDockerStreams", ""))
  {
    FirstInIsFirst(p.inputDockerStreams, names);
  }

  lemma {:induction false} FirstInIsFirst(items: seq<string>, names: set<string>)
    ensures forall i :: 0 <= i < |items| && items[i] in names && (forall j :: 0 <= j < i ==> items[j] !in names) ==>
      FirstIn(items, names) == Some(items[i])
  {
    if items != [] && items[0] !in names {
      FirstInIsFirst(items[1..], names);
      forall i | 0 <= i < |items| && items[i] in names && (forall j :: 0 <= j < i ==> items[j] !in names)
        ensures FirstIn(items, names) == Some(items[i])
      {
        assert items[1..][i - 1] == items[i];
        assert forall j :: 0 <= j < i - 1 ==> items[1..][j] == items[j + 1];
      }
    }
  }

  /** The gate runs the autotest, of the branch if one is given. */
  predicate Runs(g: QualityGate, codebase: string, branch: Option<string>) {
    && g.autotestName.Some? && g.autotestName.value != "" && g.autotestName.value == codebase
    && (branch.Some? ==> branch.value == if g.branchName.Some? then g.branchName.value else "")
  }

  /** A gate where it stands. */
  datatype Placed = Placed(stage: Stage, gate: QualityGate)

  /** All gates of a list of stages, stage by stage. */
  function Gates(ss: seq<Stage>): seq<Placed> {
    if ss == [] then []
    else
      var s := ss[|ss| - 1];
      Gates(ss[..|ss| - 1]) + PlacedIn(s, s.gates)
  }

  function GateUse(codebase: string, branch: Option<string>): Placed -> Option<Reference> {
    (g: Placed) =>
      if !g.stage.deleting && Runs(g.gate, codebase, branch) then
        Some(Reference("Stage", g.stage.name, "spec.qualityGates.autotestName", "autotest quality gate",
                       g.stage.cdPipeline))
      else None
  }

  /** The gates of a list that run an autotest, of a branch or of any. */
  function RefsOf(gates: seq<AutotestGate>, codebase: string, branch: Option<string>): seq<Reference> {
    if branch.Some? then GateRefs(gates, codebase, branch.value) else AutotestRefs(gates, codebase)
  }

  lemma {:induction false} RefsOfSplit(
    a: seq<AutotestGate>, b: seq<AutotestGate>, codebase: string, branch: Option<string>)
    ensures RefsOf(a + b, codebase, branch) == RefsOf(a, codebase, branch) + RefsOf(b, codebase, branch)
  {
    if b == [] {
      assert a + b == a;
    } else {
      assert (a + b)[..|a + b| - 1] == a + b[..|b| - 1];
      RefsOfSplit(a, b[..|b| - 1], codebase, branch);
    }
  }

  lemma {:induction false} PickSplit<T>(a: seq<T>, b: seq<T>, use: T -> Option<Reference>)
    ensures Pick(a + b, use) == Pick(a, use) + Pick(b, use)
  {
    if b == [] {
      assert a + b == a;
    } else {
      assert (a + b)[..|a + b| - 1] == a + b[..|b| - 1];
      PickSplit(a, b[..|b| - 1], use);
    }
  }

  function PlacedIn(s: Stage, gates: seq<QualityGate>): seq<Placed> {
    seq(|gates|, k requires 0 <= k < |gates| => Placed(s, gates[k]))
  }

  lemma {:induction false} StageRefsArePicked(
    s: Stage, gates: seq<QualityGate>, codebase: string, branch: Option<string>)
    ensures Pick(PlacedIn(s, gates), GateUse(codebase, branch)) ==
      if s.deleting then [] else RefsOf(GatesOf(s, gates), codebase, branch)
  {
    if gates != [] {
      var n := |gates| - 1;
      StageRefsArePicked(s, gates[..n], codebase, branch);
      assert PlacedIn(s, gates)[..n] == PlacedIn(s, gates[..n]);
      var before := GatesOf(s, gates[..n]);
      assert before + [] == before;
      if !IsManual(gates[n]) {
        RefsOfSplit(before, [Gate(s, gates[n])], codebase, branch);
        OneGate(Gate(s, gates[n]), codebase, branch);
      }
    }
  }

  lemma OneGate(g: AutotestGate, codebase: string, branch: Option<string>)
    ensures RefsOf([g], codebase, branch) ==
      if g.autotest == codebase && (branch.Some? ==> g.branch == branch.value) then [g.ref] else []
  {
    assert [g][..0] == [];
    assert RefsOf([], codebase, branch) == [];
    if branch.Some? {
      assert GateRefs([g][..0], codebase, branch.value) == [];
    }
  }

  /** The references from stages are, in the order of the stages and of their gates, one for every gate of a
      live stage that runs the autotest, naming the stage and its pipeline; PickInOrder gives positions. */
  lemma {:induction false} GateRefsArePicked(ss: seq<Stage>, codebase: string, branch: Option<string>)
    ensures RefsOf(AllGates(LiveStages(ss)), codebase, branch) == Pick(Gates(ss), GateUse(codebase, branch))
  {
    if ss != [] {
      var n := |ss| - 1;
      GateRefsArePicked(ss[..n], codebase, branch);
      StageRefsArePicked(ss[n], ss[n].gates, codebase, branch);
      PickSplit(Gates(ss[..n]), PlacedIn(ss[n], ss[n].gates), GateUse(codebase, branch));
      var live := LiveStages(ss[..n]);
      assert live + [] == live;
      if !ss[n].deleting {
        assert (live + [ss[n]])[..|live|] == live;
        RefsOfSplit(AllGates(live), GatesOf(ss[n], ss[n].gates), codebase, branch);
      }
    }
  }

  /** What the finders answer, by position: first the pipelines, then the gates. */
  lemma BranchReferencesInOrder(c: Cluster, b: BranchId) returns (at: seq<nat>, gates: seq<nat>)
    requires BranchUsage(c, b).Some?
    ensures var refs, ps, gs := BranchUsage(c, b).value, Listed(c.pipelines), Gates(Listed(c.stages));
      && |refs| == |at| + |gates| && Positions(at, |ps|) && Positions(gates, |gs|)
      && (forall i: nat :: i in at <==> i < |ps| && !ps[i].deleting && b.name in ps[i].inputDockerStreams)
      && (forall i: nat :: i in gates <==>
            i < |gs| && !gs[i].stage.deleting && Runs(gs[i].gate, b.codebase, Some(b.branch)))
      && (forall k :: 0 <= k < |at| ==>
            refs[k] == Reference("CDPipeline", ps[at[k]].name, "spec.inputDockerStreams", "inputDockerStreams", ""))
      && (forall k :: 0 <= k < |gates| ==>
            refs[|at| + k] == Reference("Stage", gs[gates[k]].stage.name, "spec.qualityGates.autotestName",
                                        "autotest quality gate", gs[gates[k]].stage.cdPipeline))
  {
    at := StreamRefsInOrder(Listed(c.pipelines), b.name);
    var ss, use := Listed(c.stages), GateUse(b.codebase, Some(b.branch));
    GateRefsArePicked(ss, b.codebase, Some(b.branch));
    gates := PickInOrder(Gates(ss), use);
    forall k | 0 <= k < |gates|
      ensures Some(GateRefs(AllGates(LiveStages(ss)), b.codebase, b.branch)[k]) == use(Gates(ss)[gates[k]])
    {
    }
  }

  lemma NamesAreListed(c: Cluster, codebase: string)
    requires BranchNames(c, codebase).Some?
    ensures BranchNames(c, codebase).value == set b <- Listed(c.branches) | b.codebase == codebase :: b.name
  {
  }

  lemma CodebaseReferencesInOrder(c: Cluster, codebase: string) returns (at: seq<nat>, gates: seq<nat>)
    requires CodebaseUsage(c, codebase).Some?
    ensures var refs, ps, gs := CodebaseUsage(c, codebase).value, Listed(c.pipelines), Gates(Listed(c.stages));
      var names := set b <- Listed(c.branches) | b.codebase == codebase :: b.name;
      && |refs| == |at| + |gates| && Positions(at, |ps|) && Positions(gates, |gs|)
      && (forall i: nat :: i in at <==> i < |ps| && !ps[i].deleting && MatchPipeline(ps[i], codebase, names).Some?)
      && (forall i: nat :: i in gates <==>
            i < |gs| && !gs[i].stage.deleting && Runs(gs[i].gate, codebase, None))
      && (forall k :: 0 <= k < |at| ==> Some(refs[k]) == MatchPipeline(ps[at[k]], codebase, names))
      && (forall k :: 0 <= k < |gates| ==>
            refs[|at| + k] == Reference("Stage", gs[gates[k]].stage.name, "spec.qualityGates.autotestName",
                                        "autotest quality gate", gs[gates[k]].stage.cdPipeline))
  {
    var names := set b <- Listed(c.branches) | b.codebase == codebase :: b.name;
    NamesAreListed(c, codebase);
    at := PipelineRefsInOrder(Listed(c.pipelines), codebase, names);
    var ss, use := Listed(c.stages), GateUse(codebase, None);
    GateRefsArePicked(ss, codebase, None);
    gates := PickInOrder(Gates(ss), use);
    forall k | 0 <= k < |gates|
      ensures Some(AutotestRefs(AllGates(LiveStages(ss)), codebase)[k]) == use(Gates(ss)[gates[k]])
    {
    }
  }

  // ---------- the delete webhooks ----------

  datatype Admission = Allowed | Protected | Unverified | InUse(refs: seq<Reference>)

  /** What reading the codebase that owns a branch returned. */
  datatype Owner = Gone | Unreadable | Found(terminating: bool)

  function Verdict(usage: Finding): Admission {
    match usage
    case None => Unverified
    case Some(refs) => if refs == [] then Allowed else InUse(refs)
  }

  /** CodebaseBranchValidationWebhook.ValidateDelete: a branch whose codebase is gone or going is part
      of a cascade and passes unchecked. */
  function ValidateBranchDelete(c: Cluster, owner: Owner, protected: bool, b: BranchId): Admission {
    if protected then Protected
    else
      match owner
      case Gone => Allowed
      case Unreadable => Unverified
      case Found(terminating) => if terminating then Allowed else Verdict(BranchUsage(c, b))
  }

  /** CodebaseValidationWebhook.ValidateDelete. */
  function ValidateCodebaseDelete(c: Cluster, protected: bool, codebase: string): Admission {
    if protected then Protected else Verdict(CodebaseUsage(c, codebase))
  }

  /** Deleting a branch of a live codebase is admitted exactly when the usage could be established, the
      branch is unprotected and no live pipeline or stage uses it. */
  lemma BranchAdmissionIsExact(c: Cluster, protected: bool, b: BranchId)
    ensures ValidateBranchDelete(c, Found(false), protected, b) == Allowed <==>
      !protected && BranchUsage(c, b).Some? && !BranchInUse(c, b)
  {
    if BranchUsage(c, b).Some? {
      BranchUsageIsExact(c, b);
    }
  }

  /** Cascade soundness: a codebase whose deletion is admitted has no branch in use, so what the branch
      webhook then lets through unchecked would have been admitted by the check as well. */
  lemma CascadeIsSound(c: Cluster, codebase: string, b: BranchId)
    requires ValidateCodebaseDelete(c, false, codebase) == Allowed
    requires b in Listed(c.branches) && b.codebase == codebase
    ensures !BranchInUse(c, b) && BranchUsage(c, b) == Some([])
    ensures ValidateBranchDelete(c, Found(true), false, b) == ValidateBranchDelete(c, Found(false), false, b)
  {
    CodebaseUsageIsExact(c, codebase);
    BranchUsageIsExact(c, b);
    if p :| p in Listed(c.pipelines) && !p.deleting && b.name in p.inputDockerStreams {
      assert Consumes(c, p, codebase);
    }
  }

  /** Every answer of the branch webhook: a label protects against anything; what is left of a cascade
      passes; and otherwise what cannot be established, or is in use, is refused. */
  lemma BranchAnswersAreExact(c: Cluster, owner: Owner, protected: bool, b: BranchId)
    ensures var a := ValidateBranchDelete(c, owner, protected, b);
      var unknown := c.pipelines.ListFailed? || c.stages.ListFailed?;
      && (a == Protected <==> protected)
      && (a == Unverified <==> !protected && (owner == Unreadable || (owner == Found(false) && unknown)))
      && (a == Allowed <==>
            && !protected
            && (owner in {Gone, Found(true)} || (owner == Found(false) && !unknown && !BranchInUse(c, b))))
      && (a.InUse? ==> BranchInUse(c, b) && BranchUsage(c, b) == Some(a.refs))
  {
    if BranchUsage(c, b).Some? {
      BranchUsageIsExact(c, b);
    }
  }

  lemma CodebaseAnswersAreExact(c: Cluster, protected: bool, codebase: string)
    ensures var a := ValidateCodebaseDelete(c, protected, codebase);
      var unknown := c.pipelines.ListFailed? || c.stages.ListFailed? || c.branches.ListFailed?;
      && (a == Protected <==> protected)
      && (a == Unverified <==> !protected && unknown)
      && (a == Allowed <==> !protected && !unknown && !CodebaseInUse(c, codebase))
      && (a.InUse? ==> CodebaseInUse(c, codebase) && CodebaseUsage(c, codebase) == Some(a.refs))
  {
    if CodebaseUsage(c, codebase).Some? {
      CodebaseUsageIsExact(c, codebase);
    }
  }
}
