/**
  The stale-branch sweep: one listing of the branches, one usage snapshot, one remote listing per
  codebase, and for every eligible branch either a mark (condition and label) or a delete that the
  admission webhook checks again against live data.
*/
module StaleCheck {
  import opened Calls
  import opened Usage

  // ---------- marking ----------

  /** The three static texts of the Stale condition, the last with the resources that retain the branch. */
  datatype Message = ExistsInGit | NotFound | NotFoundButUsedBy(refs: string)

  /** The Stale condition: its status and reason (`missing`), message and observed generation. */
  datatype Condition = Condition(missing: bool, message: Message, generation: nat)

  const STALE := "true"

  datatype Event = BranchStale | StaleBranchRetained | BranchStaleResolved | StaleBranchDeleted

  /** A CodebaseBranch as persisted; `created` is the git status branch-created. */
  datatype Branch = Branch(
    id: BranchId, generation: nat, created: bool, terminating: bool, protected: bool,
    condition: Option<Condition>, staleLabel: Option<string>)
  {
    predicate IsStale() {
      condition.Some? && condition.value.missing
    }
  }

  datatype Verdict = Verdict(existsInGit: bool, retainedBy: string)

  /** The conditions under which a branch is handled: how its condition patch, label patch and delete
      call end, and what the webhook sees at the moment of the delete. */
  datatype Moment = Moment(patchCondition: Outcome, patchLabel: Outcome, delete: Outcome, live: Cluster, owner: Owner)
  {
    predicate NoFailure() {
      patchCondition.Done? && patchLabel.Done?
    }
  }

  function ConditionFor(b: Branch, v: Verdict): Condition {
    var message := if v.existsInGit then ExistsInGit
                   else if v.retainedBy == "" then NotFound else NotFoundButUsedBy(v.retainedBy);
    Condition(!v.existsInGit, message, b.generation)
  }

  /** The branch as marking leaves it. */
  function Marked(b: Branch, v: Verdict): Branch {
    b.(condition := Some(ConditionFor(b, v)), staleLabel := if v.existsInGit then None else Some(STALE))
  }

  function TransitionEvents(wasStale: bool, v: Verdict): seq<Event> {
    if !wasStale && !v.existsInGit then [if v.retainedBy != "" then StaleBranchRetained else BranchStale]
    else if wasStale && v.existsInGit then [BranchStaleResolved]
    else []
  }

  /** What handling one branch did: the persisted branch, the events emitted, the writes sent, and how it
      ended: well, with an error, or with the death of the process. */
  datatype Handled = Handled(branch: Branch, events: seq<Event>, writes: nat, reply: Reply)
  {
    predicate Succeeded() {
      reply == Ok
    }
  }

  /** A write is sent only where something would change. */
  function ConditionWrites(b: Branch, v: Verdict): nat {
    if b.condition == Some(ConditionFor(b, v)) then 0 else 1
  }

  function LabelWrites(b: Branch, v: Verdict): nat {
    if b.staleLabel == Marked(b, v).staleLabel then 0 else 1
  }

  function WithCondition(b: Branch, v: Verdict, a: Outcome): Branch {
    b.(condition := if a.TookEffect() then Some(ConditionFor(b, v)) else b.condition)
  }

  function WithLabel(b: Branch, v: Verdict, a: Outcome): Branch {
    b.(staleLabel := if a.TookEffect() then Marked(b, v).staleLabel else b.staleLabel)
  }

  /** MarkAction.Apply: condition, then label, then the event; an error stops it. */
  function ApplyMark(b: Branch, v: Verdict, m: Moment): Handled {
    var b1 := WithCondition(b, v, m.patchCondition);
    var b2 := WithLabel(b1, v, m.patchLabel);
    var n1 := ConditionWrites(b, v);
    var n2 := LabelWrites(b1, v);
    if n1 > 0 && !m.patchCondition.Done? then Handled(b1, [], n1, m.patchCondition.Seen())
    else if n2 > 0 && !m.patchLabel.Done? then Handled(b2, [], n1 + n2, m.patchLabel.Seen())
    else Handled(b2, TransitionEvents(b.IsStale(), v), n1 + n2, Ok)
  }

  /** CleanupAction.Apply: the event precedes the delete, which the API server submits to the webhook. */
  function ApplyCleanup(b: Branch, v: Verdict, m: Moment): Handled {
    if v.existsInGit || v.retainedBy != "" then ApplyMark(b, v, m)
    else
      var admitted := ValidateBranchDelete(m.live, m.owner, b.protected, b.id) == Allowed;
      var deleted := admitted && m.delete.TookEffect();
      var reply := if admitted || m.delete.Seen() == Crashed then m.delete.Seen() else Err;
      Handled(b.(terminating := b.terminating || deleted), [StaleBranchDeleted], 1, reply)
  }

  /** After a successful Apply the condition says exactly whether the branch is missing, for the current
      generation, and the label mirrors it; nothing else about the branch changes. */
  lemma MarkMirrorsVerdict(b: Branch, v: Verdict, m: Moment)
    ensures var h := ApplyMark(b, v, m);
      && (h.Succeeded() ==>
            && h.branch.IsStale() == !v.existsInGit
            && h.branch.staleLabel == (if h.branch.IsStale() then Some(STALE) else None)
            && h.branch.condition.value.generation == b.generation)
      && h.branch.(condition := b.condition, staleLabel := b.staleLabel) == b
      && (m.NoFailure() ==> h.Succeeded())
  {
  }

  /** The condition and the label a verdict asks for, what is written of them, and where a failure stops it:
      at the condition, with label and events untouched, or at the label, with the condition written. */
  lemma MarkStopsAtFailure(b: Branch, v: Verdict, m: Moment)
    ensures var h := ApplyMark(b, v, m);
      var message := if v.existsInGit then ExistsInGit
                     else if v.retainedBy == "" then NotFound else NotFoundButUsedBy(v.retainedBy);
      var condition := Some(Condition(!v.existsInGit, message, b.generation));
      var staleLabel := if v.existsInGit then None else Some("true");
      if b.condition != condition && !m.patchCondition.Done? then
        && h.reply == m.patchCondition.Seen() && h.events == [] && h.writes == 1
        && h.branch == if m.patchCondition.TookEffect() then b.(condition := condition) else b
      else if b.staleLabel != staleLabel && !m.patchLabel.Done? then
        && h.reply == m.patchLabel.Seen() && h.events == []
        && h.writes == (if b.condition == condition then 1 else 2)
        && h.branch == b.(
             condition := condition,
             staleLabel := if m.patchLabel.TookEffect() then staleLabel else b.staleLabel)
      else
        && h.reply == Ok && h.branch == b.(condition := condition, staleLabel := staleLabel)
        && h.writes == (if b.condition == condition then 0 else 1) + if b.staleLabel == staleLabel then 0 else 1
  {
  }

  /** A repeat with the same verdict and generation writes nothing and says nothing. */
  lemma RepeatIsSilent(b: Branch, v: Verdict, m: Moment, again: Moment)
    requires ApplyMark(b, v, m).Succeeded()
    ensures ApplyMark(ApplyMark(b, v, m).branch, v, again) == Handled(ApplyMark(b, v, m).branch, [], 0, Ok)
  {
  }

  /** The check turns the branch stale or not, and emits no event about it: the condition patch took
      effect, but its answer was lost, or the label needed a patch and that did not succeed. */
  predicate LosesEvent(b: Branch, v: Verdict, m: Moment) {
    && b.IsStale() == v.existsInGit
    && m.patchCondition.TookEffect()
    && (!m.patchCondition.Done? || (LabelWrites(b, v) > 0 && !m.patchLabel.Done?))
  }

  lemma WhenEventIsLost(b: Branch, v: Verdict, m: Moment)
    ensures var h := ApplyMark(b, v, m);
      LosesEvent(b, v, m) <==> h.branch.IsStale() != b.IsStale() && h.events == []
  {
  }

  /** A later check does not make up for it: the event of a transition is emitted at once or never. */
  lemma LostEventIsNotRepeated(b: Branch, v: Verdict, m: Moment, again: Moment)
    requires LosesEvent(b, v, m)
    ensures ApplyMark(ApplyMark(b, v, m).branch, v, again).events == []
  {
  }

  /** One check of a branch in a series: the verdict, the generation the branch has by then, and how the
      writes go. */
  datatype Occasion = Occasion(verdict: Verdict, generation: nat, m: Moment)

  function At(b: Branch, o: Occasion): Handled {
    ApplyMark(b.(generation := o.generation), o.verdict, o.m)
  }

  function EventsOver(b: Branch, checks: seq<Occasion>): seq<Event>
    decreases |checks|
  {
    if checks == [] then [] else At(b, checks[0]).events + EventsOver(At(b, checks[0]).branch, checks[1..])
  }

  predicate IsEntry(e: Event) {
    e in {BranchStale, StaleBranchRetained}
  }

  /** Entering and leaving staleness strictly alternate, starting from a state. */
  predicate Alternates(stale: bool, events: seq<Event>)
    decreases |events|
  {
    events != [] ==>
      && (if stale then events[0] == BranchStaleResolved else IsEntry(events[0]))
      && Alternates(!stale, events[1..])
  }

  predicate LosesAt(b: Branch, o: Occasion) {
    LosesEvent(b.(generation := o.generation), o.verdict, o.m)
  }

  /** Losses come in pairs: between one event and the next, and before the first, an even number of events
      is lost; `odd` says that one loss is still without its pair. */
  predicate LossesPairUp(b: Branch, checks: seq<Occasion>, odd: bool)
    decreases |checks|
  {
    checks != [] ==>
      && (At(b, checks[0]).events != [] ==> !odd)
      && LossesPairUp(At(b, checks[0]).branch, checks[1..], odd != LosesAt(b, checks[0]))
  }

  lemma {:induction false} AlternationIsExact(b: Branch, checks: seq<Occasion>, odd: bool)
    ensures Alternates(b.IsStale() != odd, EventsOver(b, checks)) <==> LossesPairUp(b, checks, odd)
    decreases |checks|
  {
    if checks != [] {
      var c := b.(generation := checks[0].generation);
      var h := At(b, checks[0]);
      WhenEventIsLost(c, checks[0].verdict, checks[0].m);
      AlternationIsExact(h.branch, checks[1..], odd != LosesAt(b, checks[0]));
      var rest := EventsOver(h.branch, checks[1..]);
      if h.events == [] {
        assert h.events + rest == rest;
      } else {
        assert (h.events + rest)[1..] == rest;
      }
    }
  }

  ghost predicate NothingLost(b: Branch, checks: seq<Occasion>)
    decreases |checks|
  {
    checks != [] ==> !LosesAt(b, checks[0]) && NothingLost(At(b, checks[0]).branch, checks[1..])
  }

  /** Over any series of checks, failing ones included, the events alternate when no check loses its
      event. */
  lemma {:induction false} EventsAlternate(b: Branch, checks: seq<Occasion>)
    requires NothingLost(b, checks)
    ensures LossesPairUp(b, checks, false) && Alternates(b.IsStale(), EventsOver(b, checks))
    decreases |checks|
  {
    if checks != [] {
      EventsAlternate(At(b, checks[0]).branch, checks[1..]);
    }
    AlternationIsExact(b, checks, false);
  }

  /** The smallest failing series: one event is lost, on entry or on leaving, and the next one has the same
      direction as the last. */
  lemma LostEventBreaksAlternation(b: Branch, v: Verdict, m: Moment, later: Moment)
    requires LosesEvent(b, v, m) && later.NoFailure()
    ensures var checks := [Occasion(v, b.generation, m), Occasion(Verdict(!v.existsInGit, ""), b.generation, later)];
      !Alternates(b.IsStale(), EventsOver(b, checks))
  {
    var other := Occasion(Verdict(!v.existsInGit, ""), b.generation, later);
    var checks := [Occasion(v, b.generation, m), other];
    assert b.(generation := b.generation) == b;
    assert checks[1..] == [other] && [other][1..] == [];
    var h := At(b, checks[0]);
    WhenEventIsLost(b, v, m);
    assert !LossesPairUp(h.branch, [other], true);
    AlternationIsExact(b, checks, false);
  }

  // ---------- one branch of a sweep ----------

  /** What checkCodebaseBranches reads before it looks at any branch. */
  datatype Facts = Facts(defaultBranch: string, auto: bool, remote: seq<string>)

  predicate EligibleForCheck(b: Branch, f: Facts) {
    !b.terminating && b.created && b.id.branch != f.defaultBranch
  }

  /** The usage index could be built. */
  predicate Known(c: Cluster) {
    ActivePipelines(c).Some? && ActiveGates(c).Some?
  }

  function VerdictFor(b: Branch, f: Facts, snapshot: Cluster): Verdict
    requires Known(snapshot)
  {
    var inGit := b.id.branch in f.remote;
    Verdict(inGit, if f.auto && !inGit then Join(BranchUsage(snapshot, b.id).value) else "")
  }

  /** What a sweep does with one branch. Nothing else in the sweep matters to it: not the order of the
      codebases, not the other branches, not another codebase's failure. */
  function Swept(b: Branch, facts: Option<Facts>, snapshot: Cluster, m: Moment): Handled
    requires Known(snapshot)
  {
    if facts.None? || !EligibleForCheck(b, facts.value) then Handled(b, [], 0, Ok)
    else
      var v := VerdictFor(b, facts.value, snapshot);
      if facts.value.auto then ApplyCleanup(b, v, m) else ApplyMark(b, v, m)
  }

  /** The branch says that it is in git: no stale condition, no label. */
  predicate SaysPresent(b: Branch) {
    b.condition == Some(Condition(false, ExistsInGit, b.generation)) && b.staleLabel == None
  }

  predicate SaysMissing(b: Branch, message: Message) {
    b.condition == Some(Condition(true, message, b.generation)) && b.staleLabel == Some("true")
  }

  /** What a sweep whose patches arrive makes of a branch. One whose codebase could not be read, that is
      going, was never created, or is the default branch, stays as it was, and nothing is said about it. Of
      any other, present in the remote listing, it is said that it is there. One that is missing is said to
      be missing, with what uses it where that keeps it from being deleted; the auto strategy deletes the
      rest, if the webhook lets it, and says nothing more about them. */
  lemma SweptIsRight(b: Branch, facts: Option<Facts>, snapshot: Cluster, m: Moment)
    requires Known(snapshot) && m.NoFailure()
    ensures var h := Swept(b, facts, snapshot, m);
      if facts.None? || b.terminating || !b.created || b.id.branch == facts.value.defaultBranch then
        h.branch == b && h.events == [] && h.writes == 0 && h.reply == Ok
      else if b.id.branch in facts.value.remote then
        && h.reply == Ok && SaysPresent(h.branch) && !h.branch.terminating
        && h.events == if b.condition.Some? && b.condition.value.missing then [BranchStaleResolved] else []
      else if !facts.value.auto then
        && h.reply == Ok && SaysMissing(h.branch, NotFound) && !h.branch.terminating
        && h.events == if b.condition.Some? && b.condition.value.missing then [] else [BranchStale]
      else if BranchInUse(snapshot, b.id) then
        && h.reply == Ok && !h.branch.terminating
        && SaysMissing(h.branch, NotFoundButUsedBy(Join(BranchUsage(snapshot, b.id).value)))
        && h.events == if b.condition.Some? && b.condition.value.missing then [] else [StaleBranchRetained]
      else
        && h.branch == b.(terminating := h.branch.terminating) && h.events == [StaleBranchDeleted]
        && (h.branch.terminating <==>
              m.delete.TookEffect() && ValidateBranchDelete(m.live, m.owner, b.protected, b.id) == Allowed)
  {
    BranchUsageIsExact(snapshot, b.id);
  }

  /** Deletion safety: a sweep removes a branch exactly when the branch was created in git, is not the
      default branch, was not going already, is missing from a successful remote listing, its codebase
      is under the auto strategy, no live resource of the snapshot used it, and the live check at the
      moment of the delete let it go. */
  lemma DeletionIsSafe(b: Branch, facts: Option<Facts>, snapshot: Cluster, m: Moment)
    requires Known(snapshot)
    ensures !b.terminating && Swept(b, facts, snapshot, m).branch.terminating <==>
      && facts.Some? && facts.value.auto
      && b.created && b.id.branch != facts.value.defaultBranch && !b.terminating
      && b.id.branch !in facts.value.remote
      && !BranchInUse(snapshot, b.id)
      && m.delete.TookEffect()
      && ValidateBranchDelete(m.live, m.owner, b.protected, b.id) == Allowed
  {
    BranchUsageIsExact(snapshot, b.id);
  }

  /** However stale the snapshot: while the codebase is live, the removed branch is used by no live
      resource at the moment its removal is admitted. */
  lemma DeletionIsSafeLive(b: Branch, facts: Option<Facts>, snapshot: Cluster, m: Moment)
    requires Known(snapshot)
    requires !b.terminating && Swept(b, facts, snapshot, m).branch.terminating
    requires m.owner == Found(false)
    ensures !BranchInUse(m.live, b.id) && !b.protected
  {
    DeletionIsSafe(b, facts, snapshot, m);
    BranchAdmissionIsExact(m.live, b.protected, b.id);
  }

  // ---------- the actions ----------

  datatype Record = Record(stored: Branch, events: seq<Event>, writes: nat)

  function After(w: Record, facts: Option<Facts>, snapshot: Cluster, m: Moment): Record
    requires Known(snapshot)
  {
    var h := Swept(w.stored, facts, snapshot, m);
    Record(h.branch, w.events + h.events, w.writes + h.writes)
  }

  /** A CodebaseBranch resource: what is persisted of it, the events recorded about it and the number of
      writes sent for it. */
  class Resource {
    const id: BranchId
    var stored: Branch
    var events: seq<Event>
    var writes: nat

    ghost predicate Valid()
      reads this
    {
      stored.id == id
    }

    function View(): Record
      reads this
    {
      Record(stored, events, writes)
    }

    constructor (b: Branch)
      ensures Valid() && stored == b && events == [] && writes == 0
    {
      id, stored, events, writes := b.id, b, [], 0;
    }

    /** updateStatusCondition: no write when the condition would not change. */
    method UpdateCondition(v: Verdict, a: Outcome) returns (reply: Reply)
      modifies this`stored, this`writes
      ensures writes == old(writes) + ConditionWrites(old(stored), v)
      ensures stored == WithCondition(old(stored), v, a)
      ensures reply == if ConditionWrites(old(stored), v) == 0 then Ok else a.Seen()
    {
      var condition := ConditionFor(stored, v);
      if stored.condition == Some(condition) {
        return Ok;
      }
      writes := writes + 1;
      if a.TookEffect() {
        stored := stored.(condition := Some(condition));
      }
      reply := a.Seen();
    }

    /** updateStaleLabel: no write when the label already mirrors the verdict. */
    method UpdateLabel(v: Verdict, a: Outcome) returns (reply: Reply)
      modifies this`stored, this`writes
      ensures writes == old(writes) + LabelWrites(old(stored), v)
      ensures stored == WithLabel(old(stored), v, a)
      ensures reply == if LabelWrites(old(stored), v) == 0 then Ok else a.Seen()
    {
      var upToDate :=
        (v.existsInGit && stored.staleLabel == None) || (!v.existsInGit && stored.staleLabel == Some(STALE));
      if upToDate {
        return Ok;
      }
      writes := writes + 1;
      if a.TookEffect() {
        stored := stored.(staleLabel := if v.existsInGit then None else Some(STALE));
      }
      reply := a.Seen();
    }

    method EmitTransition(wasStale: bool, v: Verdict)
      modifies this`events
      ensures events == old(events) + TransitionEvents(wasStale, v)
    {
      if !wasStale && !v.existsInGit {
        events := events + [if v.retainedBy != "" then StaleBranchRetained else BranchStale];
      } else if wasStale && v.existsInGit {
        events := events + [BranchStaleResolved];
      }
    }

    /** MarkAction.Apply. */
    method ApplyMarkAction(v: Verdict, m: Moment) returns (reply: Reply)
      modifies this
      ensures var h := ApplyMark(old(stored), v, m);
        && stored == h.branch && reply == h.reply
        && events == old(events) + h.events && writes == old(writes) + h.writes
    {
      var wasStale := stored.IsStale();
      reply := UpdateCondition(v, m.patchCondition);
      if reply != Ok {
        return;
      }
      reply := UpdateLabel(v, m.patchLabel);
      if reply != Ok {
        return;
      }
      EmitTransition(wasStale, v);
    }

    /** CleanupAction.Apply. */
    method ApplyCleanupAction(v: Verdict, m: Moment) returns (reply: Reply)
      requires Valid()
      modifies this
      ensures var h := ApplyCleanup(old(stored), v, m);
        && stored == h.branch && reply == h.reply
        && events == old(events) + h.events && writes == old(writes) + h.writes
    {
      if v.existsInGit || v.retainedBy != "" {
        reply := ApplyMarkAction(v, m);
        return;
      }
      events, writes := events + [StaleBranchDeleted], writes + 1;
      if ValidateBranchDelete(m.live, m.owner, stored.protected, id) != Allowed {
        return if m.delete.Seen() == Crashed then Crashed else Err;
      }
      if m.delete.TookEffect() {
        stored := stored.(terminating := true);
      }
      reply := m.delete.Seen();
    }

    /** Usage is asked for only when it decides between deleting and marking. */
    method FindVerdict(f: Facts, index: BranchUsageIndex, ghost snapshot: Cluster) returns (v: Verdict)
      requires Valid()
      requires Known(snapshot) && index.Holds(ActivePipelines(snapshot).value, ActiveGates(snapshot).value)
      ensures v == VerdictFor(stored, f, snapshot)
    {
      var inGit := id.branch in f.remote;
      v := Verdict(inGit, "");
      if f.auto && !inGit {
        var refs := index.Find(id);
        v := v.(retainedBy := Join(refs));
      }
    }

    /** One branch of checkCodebaseBranches; its error is logged and goes no further. */
    method Check(f: Facts, index: BranchUsageIndex, ghost snapshot: Cluster, m: Moment) returns (reply: Reply)
      requires Valid()
      requires Known(snapshot) && index.Holds(ActivePipelines(snapshot).value, ActiveGates(snapshot).value)
      modifies this
      ensures Valid() && View() == After(old(View()), Some(f), snapshot, m)
      ensures reply == Swept(old(stored), Some(f), snapshot, m).reply
    {
      if !EligibleForCheck(stored, f) {
        return Ok;
      }
      var v := FindVerdict(f, index, snapshot);
      if f.auto {
        reply := ApplyCleanupAction(v, m);
      } else {
        reply := ApplyMarkAction(v, m);
      }
    }
  }

  // ---------- the sweep ----------

  /** The branches of one codebase, in list order. */
  function OfCodebase(items: seq<Resource>, codebase: string): seq<Resource> {
    if items == [] then []
    else OfCodebase(items[..|items| - 1], codebase) +
         if items[|items| - 1].id.codebase == codebase then [items[|items| - 1]] else []
  }

  predicate Distinct(items: seq<Resource>) {
    forall i, j :: 0 <= i < j < |items| ==> items[i] != items[j]
  }

  predicate Before(items: seq<Resource>, a: Resource, b: Resource) {
    exists k, l :: 0 <= k < l < |items| && items[k] == a && items[l] == b
  }

  /** A group keeps the order of the list. */
  lemma {:induction false} BeforeStays(items: seq<Resource>, codebase: string)
    ensures forall i, j :: 0 <= i < j < |items| && items[i].id.codebase == items[j].id.codebase == codebase ==>
      Before(OfCodebase(items, codebase), items[i], items[j])
    ensures forall i :: 0 <= i < |items| && items[i].id.codebase == codebase ==>
      items[i] in OfCodebase(items, codebase)
  {
    if items != [] {
      var n := |items| - 1;
      var before, group := OfCodebase(items[..n], codebase), OfCodebase(items, codebase);
      BeforeStays(items[..n], codebase);
      forall i, j | 0 <= i < j < |items| && items[i].id.codebase == items[j].id.codebase == codebase
        ensures Before(group, items[i], items[j])
      {
        if j < n {
          assert Before(before, items[i], items[j]);
          var k, l :| 0 <= k < l < |before| && before[k] == items[i] && before[l] == items[j];
          assert group[k] == items[i] && group[l] == items[j];
        } else {
          assert items[..n][i] == items[i];
          var k :| 0 <= k < |before| && before[k] == items[i];
          assert group[k] == items[i] && group[|before|] == items[n];
        }
      }
    }
  }

  /** Every branch is in its own codebase's group, in no other, and once. */
  lemma {:induction false} GroupsPartition(items: seq<Resource>, codebase: string)
    ensures forall r <- items :: r in OfCodebase(items, codebase) <==> r.id.codebase == codebase
    ensures forall r <- OfCodebase(items, codebase) :: r in items
    ensures Distinct(items) ==> Distinct(OfCodebase(items, codebase))
    ensures forall i, j :: 0 <= i < j < |items| && items[i].id.codebase == items[j].id.codebase == codebase ==>
      Before(OfCodebase(items, codebase), items[i], items[j])
  {
    if items != [] {
      BeforeStays(items, codebase);
      GroupsPartition(items[..|items| - 1], codebase);
      assert items == items[..|items| - 1] + [items[|items| - 1]];
    }
  }

  /** The groups sweep builds; Lookup makes a codebase without branches an empty group. */
  method GroupByCodebase(items: seq<Resource>) returns (groups: map<string, seq<Resource>>)
    ensures forall c :: Lookup(groups, c) == OfCodebase(items, c)
    ensures groups.Keys == set r <- items :: r.id.codebase
  {
    groups := map[];
    for i := 0 to |items|
      invariant forall c :: Lookup(groups, c) == OfCodebase(items[..i], c)
      invariant groups.Keys == set r <- items[..i] :: r.id.codebase
    {
      assert items[..i + 1][..i] == items[..i];
      assert items[..i + 1] == items[..i] + [items[i]];
      var c := items[i].id.codebase;
      groups := groups[c := Lookup(groups, c) + [items[i]]];
    }
    assert items[..|items|] == items;
  }

  /** The process dies while the branch is handled. */
  predicate Dies(stored: Branch, facts: Option<Facts>, snapshot: Cluster, m: Moment)
    requires Known(snapshot)
  {
    Swept(stored, facts, snapshot, m).reply == Crashed
  }

  /** Where a branch starts, where handling it leads, and whether the process survives that. */
  datatype Course = Course(start: Record, goal: Record, dies: bool)

  function CourseOf(w: Record, facts: Option<Facts>, snapshot: Cluster, m: Moment): Course
    requires Known(snapshot)
  {
    Course(w, After(w, facts, snapshot, m), Dies(w.stored, facts, snapshot, m))
  }

  /** checkCodebaseBranches: when a read it depends on fails, no branch of the codebase is touched. An
      error of one branch does not keep the others from being handled; only the death of the process
      does. */
  method CheckCodebaseBranches(
    group: seq<Resource>, f: Option<Facts>, index: BranchUsageIndex, ghost snapshot: Cluster,
    moments: string -> Moment, ghost courses: map<Resource, Course>) returns (alive: bool)
    requires Distinct(group) && forall r <- group :: r.Valid()
    requires Known(snapshot) && index.Holds(ActivePipelines(snapshot).value, ActiveGates(snapshot).value)
    requires forall r <- group :: r in courses && courses[r] == CourseOf(r.View(), f, snapshot, moments(r.id.name))
    modifies group
    ensures forall r <- group :: r.Valid()
    ensures alive <==> forall r <- group :: !courses[r].dies
    ensures forall r <- group :: r.View() == courses[r].goal || (!alive && r.View() == courses[r].start)
  {
    if f.None? {
      assert forall r <- group :: r.events + [] == r.events;
      return true;
    }
    for i := 0 to |group|
      invariant forall j :: 0 <= j < i ==>
        group[j].Valid() && group[j].View() == courses[group[j]].goal && !courses[group[j]].dies
      invariant forall j :: i <= j < |group| ==> unchanged(group[j])
    {
      var r := group[i];
      assert courses[r] == CourseOf(r.View(), f, snapshot, moments(r.id.name));
      var reply := r.Check(f.value, index, snapshot, moments(r.id.name));
      if reply == Crashed {
        return false;
      }
    }
    alive := true;
  }

  /** sweep. The groups come out of a map, so in any order; `facts` is what reading each codebase and
      its remote returned (None when something failed), `moments` how each branch's own calls go. The
      outcome for every branch is a function of those alone, so no order and no other codebase's
      failure can change it; and every branch is handled exactly once. Only a crash leaves branches
      unhandled, and those it leaves as they were. */
  method Sweep(
    items: seq<Resource>, facts: string -> Option<Facts>, snapshot: Cluster, moments: string -> Moment)
    returns (alive: bool)
    requires Distinct(items) && forall r <- items :: r.Valid()
    modifies items
    ensures forall r <- items :: r.Valid()
    ensures Known(snapshot) ==> forall r <- items ::
      var h := Swept(old(r.stored), facts(r.id.codebase), snapshot, moments(r.id.name));
      || (r.stored == h.branch && r.events == old(r.events) + h.events && r.writes == old(r.writes) + h.writes)
      || (!alive && r.stored == old(r.stored) && r.events == old(r.events) && r.writes == old(r.writes))
    ensures Known(snapshot) ==>
      (alive <==> forall r <- items :: !Dies(old(r.stored), facts(r.id.codebase), snapshot, moments(r.id.name)))
    ensures !Known(snapshot) ==> alive && forall r <- items :: r.View() == old(r.View())
  {
    var index, ok := NewBranchUsageIndex(snapshot);
    if !ok {
      return true;
    }
    ghost var courses := map r | r in items ::
      CourseOf(r.View(), facts(r.id.codebase), snapshot, moments(r.id.name));
    alive := SweepGroups(items, facts, index, snapshot, moments, courses);
  }

  ghost predicate Courses(
    items: seq<Resource>, facts: string -> Option<Facts>, snapshot: Cluster, moments: string -> Moment,
    courses: map<Resource, Course>)
    requires Known(snapshot)
  {
    forall r <- items ::
      r in courses &&
      courses[r] == CourseOf(courses[r].start, facts(r.id.codebase), snapshot, moments(r.id.name))
  }

  /** The codebases still to do are untouched, the others are done, and nobody died of them. */
  ghost predicate Progress(items: seq<Resource>, courses: map<Resource, Course>, todo: set<string>)
    requires forall r <- items :: r in courses
    reads items
  {
    forall r <- items ::
      && r.Valid()
      && (r.id.codebase in todo ==> r.View() == courses[r].start)
      && (r.id.codebase !in todo ==> r.View() == courses[r].goal && !courses[r].dies)
  }

  /** The process has died of some branch; every branch is handled or untouched. */
  ghost predicate Stopped(items: seq<Resource>, courses: map<Resource, Course>)
    requires forall r <- items :: r in courses
    reads items
  {
    && (exists r <- items :: courses[r].dies)
    && forall r <- items :: r.Valid() && (r.View() == courses[r].goal || r.View() == courses[r].start)
  }

  method SweepGroups(
    items: seq<Resource>, facts: string -> Option<Facts>, index: BranchUsageIndex, ghost snapshot: Cluster,
    moments: string -> Moment, ghost courses: map<Resource, Course>) returns (alive: bool)
    requires Distinct(items)
    requires Known(snapshot) && index.Holds(ActivePipelines(snapshot).value, ActiveGates(snapshot).value)
    requires Courses(items, facts, snapshot, moments, courses)
    requires forall r <- items :: r.Valid() && r.View() == courses[r].start
    modifies items
    ensures if alive then Progress(items, courses, {}) else Stopped(items, courses)
  {
    var groups := GroupByCodebase(items);
    var todo := groups.Keys;
    while todo != {}
      invariant Progress(items, courses, todo)
      decreases todo
    {
      var c :| c in todo;
      alive := SweepGroup(items, c, Lookup(groups, c), facts, index, snapshot, moments, courses, todo);
      if !alive {
        return;
      }
      todo := todo - {c};
    }
    alive := true;
  }

  /** One iteration over the groups: the group's branches are handled, nothing else changes. */
  method SweepGroup(
    items: seq<Resource>, c: string, group: seq<Resource>, facts: string -> Option<Facts>,
    index: BranchUsageIndex, ghost snapshot: Cluster, moments: string -> Moment,
    ghost courses: map<Resource, Course>, ghost todo: set<string>) returns (alive: bool)
    requires Distinct(items) && group == OfCodebase(items, c)
    requires Known(snapshot) && index.Holds(ActivePipelines(snapshot).value, ActiveGates(snapshot).value)
    requires Courses(items, facts, snapshot, moments, courses)
    requires Progress(items, courses, todo) && c in todo
    modifies items
    ensures if alive then Progress(items, courses, todo - {c}) else Stopped(items, courses)
  {
    GroupsPartition(items, c);
    assert forall i :: 0 <= i < |group| ==> group[i] in items;
    alive := CheckCodebaseBranches(group, facts(c), index, snapshot, moments, courses);
  }
}
