# Verified model of the codebase operator

A Dafny model of the Kubernetes operator's decision logic, as step machines over what survives a crash:
the objects persisted in the API server and the contents of the remote repository. A call out of the
operator may succeed, fail without effect, take effect and lose its answer, or be the last thing the process
does (`Calls.Outcome`). A new attempt starts from what was persisted, possibly read through an old cache.

`dafny verify dfyconfig.toml` checks everything.

| module | what it is about |
|---|---|
| `Calls` | how a call out of the operator can end |
| `Provisioning` | the write-ahead protocol that creates a remote repository, the handlers that push on top of it, the controller loop around them |
| `WorkingCopy` | which branches, at which commits, the first push carries; when the default branch can be checked out in a clone |
| `DeployQueue`, `DeployRuns` | the CDStageDeploy scheduler: one reconcile, and whole runs |
| `Usage` | the branch usage index, the codebase usage finder, the delete webhooks |
| `StaleCheck` | the stale-branch sweep: marking, cleanup, grouping |
| `RemoteRefs` | resolving a ref from an advertisement, creating a branch with a create-only command |
| `BranchStatus` | a CodebaseBranch status with two concurrent writers |
| `AutoDeploy` | the payloads of automatic deployments |

Handlers that change fields in the source are methods of a class here. Each is proved against what it must
achieve or against a function of the old state; the theorems about whole runs are lemmas about that function,
or loop invariants over arbitrary many reconciles. `disturbed`, `startRaces`, the fields of `Past`,
`lastPatch` and `floor` are history variables, and `calm` is a property of the surroundings: no decision of the operator
reads them.

Assumptions about the surroundings:

- From the moment the operator has found the remote default branch absent to the end of that attempt, and as
  long as a push intent is recorded, nobody else creates that branch. At any other time anybody may create it.
  Nobody but the operator rewrites it, and nobody deletes it, but anybody may commit on top of it at any time.
- Others change tags, other branches and the remote's HEAD at any time and in any way; a host may also point a
  HEAD that names no branch at one that is pushed. A remote whose HEAD names no branch cannot be cloned, and a
  host that can set a default branch refuses one that does not exist.
- A push is atomic. Every provisioning attempt starts in an empty work directory.
- Objects are reconciled by one worker each, and deploys and runs are listed without a cache.
- On the remote, others create references and add commits at any time but do not move or delete references
  (`RemoteRefs`).
- During a sweep, pipelines, stages and codebases may be edited freely, the swept branches not.

Where the code does less than one might expect, the exact condition is proved, and a lemma or a method reaches
the failing input:

- A deploy in `failed` status starts a run without looking at the others, and the run list is cut off at 500
  (`DeployRuns.WhenRunsOverlap`, `FailedRetryOverlaps`).
- A deploy that runs its course starts one run, and one more for every reconcile of it that slips: the answer to
  creating its run or the status write after it is lost, or, while it is running, its runs cannot be listed or
  its deletion fails, and `failed` is then written (`WhenStatusIsLost`, `WhenDeployStartsAgain`,
  `WhenOneRunIsStarted`; inputs in `FailedDeleteRedeploys`, `FailedListRedeploys`, `LostWriteRedeploys`).
- A deploy starts past a queued one ahead of it exactly when it is `failed`, or `pending` with all seen runs
  complete (`WhenQueueIsOvertaken`, `PendingAndFailedOvertakeQueue`).
- A check loses its stale or resolved event exactly when the condition patch took effect and then its answer,
  or a needed label patch, did not succeed. Events alternate exactly when the lost ones pair up
  (`StaleCheck.WhenEventIsLost`, `AlternationIsExact`, `LostEventBreaksAlternation`).
- `updateStatus` protects only the conditions. A recorded `branch-created`, or a recorded version, is erased
  exactly when that final write takes effect with a copy that lacks it: an old copy from the cache, or, for
  `branch-created`, one it was cleared from because the answer to recording it did not come
  (`BranchStatus.WhenCreatedSurvives`, `WhenVersionSurvives`; reached by `LostAnswerErasesCreated`,
  `StaleReadErasesCreated`, `StaleReadErasesVersion`).
- A project can get stuck after PutProject: a later handler that has to clone the remote under the create
  strategy fails on every attempt when HEAD names another branch, because it insists on creating the default
  branch, which is there (`Provisioning.WhenStuck`; `ReachWedge`, `StayWedged`).
- The default branch is looked for as a reference of any kind. A tag of that name, or a name that is a full
  hash in a repository that is not empty, hides its absence: without a recorded intent the attempt refuses,
  with one it adopts what is not there, unless the host refuses to make it the default branch
  (`Provisioning.AbsenceIsExact`, `AdoptionIsExact`, `RefusalIsExact`; `AdoptTag`).
- A push of the later handlers loses what others committed between clone and push, except what the working
  copy has as well (`Provisioning.Provisioner.Push`, `RacedCommitsAreLost`). The first push loses nothing of
  the default branch. Other branches have no protection: any push replaces those that it carries a branch of
  the same name for (`WorkingCopy.WhenBranchIsKept`, `WhatFirstPushTouches`).
- A full hash resolves whether or not the server holds it, and then no branch can be created from it
  (`RemoteRefs.UnknownHashResolves`).
- With a branch to copy, the init branch reaches the remote as a stray head in exactly one family of projects,
  and an empty project under the clone strategy can be prepared only on the init branch
  (`WorkingCopy.WhenHeadsArePushed`).

## Model

| member | source | states |
|---|---|---|
| Provisioning.Provisioner.Run | controllers/codebase/codebase_controller.go:97-164 | Over any number of attempts, each with its own failed, lost or final call, stale read and outside writers, the persisted world stays sound: an intent means that the default branch can only be the operator's, `pushed` or later that its set-up is done and that it is there unless another name was adopted for it, and the later statuses that the configuration and the templates are in its history; and an attempt loses commits only when the count of outsiders' commits against a held working copy rises |
| Provisioning.Provisioner.RunThenRetry | controllers/codebase/service/chain/put_project.go:58-119 | After any such run, one undisturbed attempt refuses and leaves the remote alone, or reaches at least `pushed`; in the latter case it delivers everything the specification asks for, files at the tip of the default branch included and with no other commits, exactly when it is not stuck in a clone |
| Provisioning.Provisioner.PutProject | controllers/codebase/service/chain/put_project.go:58-135 | Success means at least `pushed` is persisted; a finished project is left untouched; an undisturbed attempt fails exactly when it has to refuse, and then changes nothing; no remote commit of the default branch is lost, races included |
| Provisioning.Provisioner.ProvisionFromScratch | controllers/codebase/service/chain/put_project.go:89-116 | An undisturbed generation succeeds iff the branch looks absent and can be checked out, and pushes a history whose tip is the one computed for the default branch, a single commit when the operator writes it |
| Provisioning.Provisioner.AdoptPushedProject | controllers/codebase/service/chain/put_project.go:241-287 | Adopts exactly when an intent is recorded and the name resolves on the remote; what is adopted is the operator's own branch, unless that is missing and another name hides it, which is recorded |
| Provisioning.Provisioner.CreateProject | controllers/codebase/service/chain/put_project.go:142-201 | A branch already on the remote keeps all its commits, and the call fails; undisturbed it succeeds iff nothing resolves under the name; success leaves the pushed branch, the intent and the default branch in place |
| Provisioning.Provisioner.RemoteDefaultBranchAbsent | controllers/codebase/service/chain/put_project.go:209-233 | The answer of the reference resolution, which is absence of the branch and of every name that hides it |
| Provisioning.AbsenceIsExact | controllers/codebase/service/chain/put_project.go:209-233 | The resolution finds nothing if and only if the branch is missing, no tag has its name, and it is not a full hash in a repository with references |
| Provisioning.Provisioner.SetDefaultBranch | controllers/codebase/service/chain/put_project.go:533-598 | On success HEAD names the branch, which exists, unless the provider does not support the call |
| Provisioning.Provisioner.Push | pkg/git/provider.go:288-327 | A push loses remote commits exactly when it lands on a tip that the working copy does not contain; a lost answer may still have pushed |
| Provisioning.Provisioner.PushProject | controllers/codebase/service/chain/put_project.go:317-352 | The first push, allowed only after verified absence and recorded intent, makes the work directory's history the remote default branch and can lose none of its commits |
| Provisioning.Provisioner.PatchGit | controllers/codebase/service/chain/common.go:68-95 | The copy in memory takes the new status even when the patch fails, and this stays believable for a later full write |
| Provisioning.Provisioner.PrepareGitRepository | controllers/codebase/service/chain/common.go:109-149 | A work directory is reused; without one an undisturbed call succeeds iff the remote can be cloned and the default branch checked out, and never while HEAD stays on another branch under the create strategy |
| Provisioning.CanPrepareIsExact | controllers/codebase/service/chain/common.go:122-144 | That condition is the one the clone and checkout on the branch map have |
| Provisioning.Provisioner.PutGitLabCIConfig | controllers/codebase/service/chain/put_gitlab_ci_config.go:32-82 | Never lowers the Git status, and loses remote commits only in a race; nothing happens when not owed; undisturbed it fails exactly when it has to clone and cannot, and otherwise the remote tip holds the file, by one commit on top of what was there unless it was there, which is not recorded as a push |
| Provisioning.Provisioner.PutDeployConfigs | controllers/codebase/service/chain/put_deploy_configs.go:28-125 | On success with templates requested the persisted status is the highest, and a second call changes nothing; undisturbed it fails exactly when it has to clone and cannot, and otherwise the remote tip holds the templates, by one commit on top of what was there unless they were there |
| Provisioning.Provisioner.CommitAndPush | controllers/codebase/service/chain/put_deploy_configs.go:80-107 | In any weather, success means that the remote branch is the work directory's: its former commits, the file at the tip, and at most the one commit that adds it |
| Provisioning.Provisioner.PutWebHook | controllers/codebase/service/chain/put_webhook.go:39-131 | The extra status write between the handlers keeps the persisted and the in-memory Git status equal |
| Provisioning.Provisioner.ServeChain | controllers/codebase/service/chain/factory.go:17-41 | The handler order keeps the protocol's invariant; an undisturbed chain refuses, is stuck after PutProject or delivers, each exactly on its condition |
| Provisioning.Provisioner.Reconcile | controllers/codebase/codebase_controller.go:97-208 | One attempt from an arbitrarily old copy, including the status write after a failure, keeps soundness and never lowers Git; a wedged one fails in any weather as long as HEAD is not moved |
| Provisioning.WhenStuck | controllers/codebase/service/chain/checkout_branch.go:32-67 | Where a later push is owed and PutProject leaves no work directory, an attempt gets stuck if and only if the strategy is create and HEAD names another branch |
| Provisioning.Provisioner.ReachWedge | controllers/codebase/service/chain/put_deploy_configs.go:53-74 | From every fresh project whose repository has another main branch on a host that cannot set it, a crash between PutProject and the next push leads into the wedge |
| Provisioning.Provisioner.StayWedged | controllers/codebase/service/chain/checkout_branch.go:32-45 | Any number of attempts in any weather fail and stay wedged until HEAD is moved |
| Provisioning.Provisioner.AdoptTag | controllers/codebase/service/chain/put_project.go:241-287 | A tag with the default branch's name makes an attempt persist `pushed` without a branch |
| Provisioning.HistoryEvolves | controllers/codebase/service/chain/put_project.go:158-201 | Between any two points of a run Git keeps its rank, and an existing default branch its creator and, unless a push replaced some, all its commits |
| Provisioning.CommitsAreKept | controllers/codebase/service/chain/put_project.go:176-186 | Over any stretch of a run in which nobody committed against a held working copy, no commit of the default branch is lost |
| Provisioning.RacedCommitsAreLost | controllers/codebase/service/chain/put_project.go:176-186 | What a push keeps of the commits others made since the clone: exactly when the working copy made the same ones |
| Provisioning.CreatedAtMostOnce | controllers/codebase/service/chain/put_project.go:164-194 | The remote default branch comes into being at most once in a run |
| Provisioning.AdoptionIsSound | controllers/codebase/service/chain/put_project.go:235-287 | A recorded intent together with a present branch, now or later, means the operator's own push created it; from `pushed` on it is there with its set-up done, unless another name was adopted, which takes a host that cannot set a default branch |
| Provisioning.AdoptionIsExact | controllers/codebase/service/chain/put_project.go:235-287 | What an intent finds is the operator's own push if and only if it is not a tag or a full hash that hides a missing branch |
| Provisioning.RefusalIsExact | controllers/codebase/service/chain/put_project.go:164-180 | Refusal happens if and only if an outsider created the branch, it cannot be checked out, or its absence is hidden and no intent is recorded or the host refuses; the first two are final |
| WorkingCopy.Repository.Checkout | pkg/git/provider.go:329-391 | When the checkout succeeds and the exact branch map it leaves |
| WorkingCopy.Repository.CheckoutBranch | controllers/codebase/service/chain/checkout_branch.go:15-70 | The strategy decides whether a branch that is not current has to be new, has to exist, or is fetched or created |
| WorkingCopy.Repository.CheckoutRemoteBranch | pkg/git/provider.go:615-662 | Succeeds iff the branch exists once the origin is fetched |
| WorkingCopy.Repository.CloneAndCheckOut | controllers/codebase/service/chain/common.go:122-144 | When a clone of the project's remote yields its default branch, and the exact branch map it leaves |
| WorkingCopy.Repository.CreateChildBranch | pkg/git/provider.go:531-567 | Refused for a missing parent or an existing child; otherwise the child is at the parent's tip |
| WorkingCopy.Repository.Provision | controllers/codebase/service/chain/put_project.go:629-733 | An empty or created project has one commit on the init branch and no origin; a cloned one its source's branches |
| WorkingCopy.Repository.PrepareHeads | controllers/codebase/service/chain/put_project.go:398-481 | The steps from init or clone to the push produce exactly `PushedHeads`, or fail exactly when it is None |
| WorkingCopy.PushedHeadsAreRight | controllers/codebase/service/chain/put_project.go:289-315 | The default branch is always pushed; own history is a single commit; a copied branch has the default branch's tip; cloned branches are not moved, a branch the source lacks starts at its default branch, and nothing else is pushed |
| WorkingCopy.WhenHeadsArePushed | controllers/codebase/service/chain/put_project.go:459-475 | Which projects always have heads to push, and exactly when a head other than the default and the copied branch is pushed |
| WorkingCopy.WhenBranchIsKept | pkg/git/provider.go:30-37 | A push of all branches keeps a remote branch's commits if and only if no local branch has its name or the local one contains them |
| WorkingCopy.WhatFirstPushTouches | controllers/codebase/service/chain/put_project.go:317-352 | Exactly which other branches of the remote the first push carries a branch for: none only for an own history without a branch to copy |
| DeployQueue.Controller.AllPipelineRunsCompleted | controllers/cdstagedeploy/chain/resolve_status.go:173-181 | True iff every listed run has completed |
| DeployQueue.Controller.AllDeploysInQueue | controllers/cdstagedeploy/chain/resolve_status.go:163-171 | True iff every deploy of the stage is queued |
| DeployQueue.Controller.IsFirstInQueue | controllers/cdstagedeploy/chain/resolve_status.go:183-197 | True iff the name is that of the oldest deploy, the first in the list among equals |
| DeployQueue.Controller.ShouldStart | controllers/cdstagedeploy/chain/resolve_status.go:121-161 | A queued deploy starts iff no seen run is unfinished, all are queued and it is the oldest |
| DeployQueue.Controller.ResolveStatus | controllers/cdstagedeploy/chain/resolve_status.go:27-91 | The status follows the scheduling decision, and an error occurs iff a list call it needs fails |
| DeployQueue.Controller.ProcessTriggerTemplate | controllers/cdstagedeploy/chain/process_trigger_template.go:37-145 | Only pending and failed deploys start a run, exactly one, and it remains when the answer was lost |
| DeployQueue.Controller.Reconcile | controllers/cdstagedeploy/cdstagedeploy_controller.go:87-127 | The whole reconcile, with every failure, refines the transition function |
| DeployRuns.ReconcileIsRight | controllers/cdstagedeploy/cdstagedeploy_controller.go:87-127 | For every status and every failure, the exact listing and the exact runs after a reconcile, from what is in sight and how the calls end |
| DeployRuns.DecisionIsRight | controllers/cdstagedeploy/chain/resolve_status.go:27-91 | Exactly when a deploy starts, ends or queues |
| DeployRuns.FailureIsListed | controllers/cdstagedeploy/cdstagedeploy_controller.go:103-120 | A deploy that was not failed is listed as failed if and only if a call of its reconcile failed and the status write arrived; it is listed as before when that write failed |
| DeployRuns.ReconcileLowersRank | controllers/cdstagedeploy/chain/resolve_status.go:27-91 | A failure-free reconcile strictly lowers the rank sum or leaves the stage unchanged |
| DeployRuns.SomeDeployMoves | controllers/cdstagedeploy/chain/resolve_status.go:121-161 | With deploys left and all seen runs complete, some deploy can move: no deadlock |
| DeployRuns.EffectiveStepsAreBounded | controllers/cdstagedeploy/chain/delete_cdstagedeploy.go:23-41 | In any failure-free run, n deploys allow at most 3n effective steps |
| DeployRuns.QueueDrains | controllers/cdstagedeploy/chain/resolve_status.go:27-91 | From any stage there is a failure-free run to no deploys, within that bound |
| DeployRuns.QuietAndStillIsEmpty | controllers/cdstagedeploy/chain/resolve_status.go:121-161 | A stage whose seen runs are complete and whose deploys all wait has no deploys |
| DeployRuns.FairRunsDrain | controllers/cdstagedeploy/cdstagedeploy_controller.go:87-127 | Every endless failure-free run in which runs complete and deploys are reconciled again and again ends up with no deploys for good |
| DeployRuns.OneIsEligible | controllers/cdstagedeploy/chain/resolve_status.go:183-197 | Of uniquely named deploys exactly one is eligible |
| DeployRuns.YoungerIsNotEligible | controllers/cdstagedeploy/chain/resolve_status.go:183-197 | Nobody behind an older, or an equally old and earlier listed, deploy is eligible |
| DeployRuns.QueueKeepsOrder | controllers/cdstagedeploy/chain/resolve_status.go:54-74 | Two deploys once queued together leave the queue in order, in any failure-free run with new arrivals |
| DeployRuns.WhenQueueIsOvertaken | controllers/cdstagedeploy/chain/resolve_status.go:30-74 | A deploy starts past a queued one ahead of it if and only if it is failed, or pending with all seen runs complete |
| DeployRuns.PendingAndFailedOvertakeQueue | controllers/cdstagedeploy/chain/resolve_status.go:30-45 | A stage in which both do |
| DeployRuns.StepKeepsExclusion | controllers/cdstagedeploy/chain/resolve_status.go:30-52 | A reconcile in any weather keeps at most one unfinished run that is not a retry |
| DeployRuns.ExclusionBound | controllers/cdstagedeploy/chain/process_trigger_template.go:90-103 | Over all runs, lost writes included, there are at most one more unfinished runs than retries of failed deploys |
| DeployRuns.WhenRunsOverlap | controllers/cdstagedeploy/chain/resolve_status.go:93-119 | A start beside an unfinished run happens if and only if the deploy is failed or every unfinished run lies past the list limit |
| DeployRuns.FailedRetryOverlaps | controllers/cdstagedeploy/chain/resolve_status.go:30-33 | A failed deploy's retry does overlap another run |
| DeployRuns.WhenStatusIsLost | controllers/cdstagedeploy/cdstagedeploy_controller.go:103-120 | A deploy that started a run is running iff both answers arrived; a running one is listed as failed iff the list call or a due deletion failed and the status write did not |
| DeployRuns.WhenDeployStartsAgain | controllers/cdstagedeploy/chain/process_trigger_template.go:90-105 | A deploy that has a run can start another after a reconcile if and only if that reconcile slipped |
| DeployRuns.StepBalances | controllers/cdstagedeploy/chain/process_trigger_template.go:37-108 | One step: runs started and readiness left balance readiness before and slips |
| DeployRuns.RunsAreAccountedFor | controllers/cdstagedeploy/chain/process_trigger_template.go:37-108 | Over any run with any failures, the exact number of runs a deploy starts |
| DeployRuns.WhenOneRunIsStarted | controllers/cdstagedeploy/cdstagedeploy_controller.go:87-127 | A finished deploy has started one run and one more for every slip, so at most one if and only if nothing slipped |
| DeployRuns.FailedDeleteRedeploys | controllers/cdstagedeploy/cdstagedeploy_controller.go:103-120 | A failed deletion of a completed deploy leads to a second deployment |
| DeployRuns.FailedListRedeploys | controllers/cdstagedeploy/chain/resolve_status.go:35-38 | A failed list call makes a running deploy start again beside its own unfinished run |
| DeployRuns.LostWriteRedeploys | controllers/cdstagedeploy/chain/process_trigger_template.go:90-103 | So does a creation or a status write whose answer is lost, once that run has completed |
| Usage.Join | pkg/deploymentusage/deploymentusage.go:62-70 | The text of references is empty exactly when there are none, which the sweep relies on |
| Usage.ListActiveCDPipelines | pkg/deploymentusage/deploymentusage.go:75-96 | The pipelines not being deleted, in order; a missing kind is no pipelines, another failure is an error |
| Usage.FindAutotestGates | pkg/deploymentusage/deploymentusage.go:113-170 | The non-manual gates of all live stages, in order |
| Usage.BranchUsageIndex.AddPipeline | pkg/codebasebranch/usage.go:65-83 | One reference per stream name however often it repeats, and no other entry changes |
| Usage.BranchUsageIndex.Find | pkg/codebasebranch/usage.go:92-108 | The answer of an index is the naive scan's, for every branch |
| Usage.NewBranchUsageIndex | pkg/codebasebranch/usage.go:37-63 | The index built represents the active pipelines and gates of one read, or fails when they cannot be listed |
| Usage.FindBranchUsage | pkg/codebasebranch/usage.go:114-125 | Index and scan agree on every cluster |
| Usage.MatchPipeline | pkg/codebase/usage.go:82-103 | A pipeline matches iff it promotes, deploys or consumes the codebase |
| Usage.MatchNamesFirstUse | pkg/codebase/usage.go:82-103 | The use reported is the first of applications, promotions and streams in their order |
| Usage.FindCodebaseUsage | pkg/codebase/usage.go:27-80 | The matching pipelines and gates in order, or an error when a list fails |
| Usage.BranchReferencesInOrder | pkg/codebasebranch/usage.go:37-108 | The references to a branch, by position: one for each live pipeline that lists it and then one for each gate of a live stage that runs it, in list order, each naming its resource and field |
| Usage.CodebaseReferencesInOrder | pkg/codebase/usage.go:27-80 | The same for a codebase |
| Usage.BranchUsageIsExact | pkg/codebasebranch/usage.go:92-125 | No reference is found if and only if no live pipeline or stage uses the branch |
| Usage.CodebaseUsageIsExact | pkg/codebase/usage.go:27-135 | The same for a codebase and all its branches |
| Usage.BranchAdmissionIsExact | pkg/webhook/codebasebranch_webhook.go:92-141 | Deleting a branch of a live codebase is admitted if and only if it is unprotected, usage is known, and nothing uses it |
| Usage.BranchAnswersAreExact | pkg/webhook/codebasebranch_webhook.go:92-141 | Each answer of the branch webhook, for every owner state, if and only if its condition holds |
| Usage.CodebaseAnswersAreExact | pkg/webhook/codebase_webhook.go:133-170 | Each answer of the codebase webhook likewise |
| Usage.CascadeIsSound | pkg/webhook/codebase_webhook.go:133-170 | An admitted codebase deletion has no branch in use, so the pass given to its branches changes no verdict |
| StaleCheck.Resource.UpdateCondition | controllers/codebasebranch/stalecheck/action.go:64-100 | No patch when the condition is up to date; otherwise one, whose outcome is the persisted condition |
| StaleCheck.Resource.UpdateLabel | controllers/codebasebranch/stalecheck/action.go:102-127 | The same for the label |
| StaleCheck.Resource.ApplyMarkAction | controllers/codebasebranch/stalecheck/action.go:48-62 | Condition, label and event in order, stopping at the first failure |
| StaleCheck.Resource.ApplyCleanupAction | controllers/codebasebranch/stalecheck/cleanup_action.go:33-51 | Deletes a missing unused branch if the webhook lets it, marks any other |
| StaleCheck.Resource.Check | controllers/codebasebranch/stalecheck/checker.go:146-204 | One branch of the sweep equals the per-branch function, through the index |
| StaleCheck.MarkMirrorsVerdict | controllers/codebasebranch/stalecheck/action.go:48-127 | After success the condition is true iff the branch is missing, the label mirrors it, and nothing else changed |
| StaleCheck.MarkStopsAtFailure | controllers/codebasebranch/stalecheck/action.go:48-127 | The condition with its message, the label and the writes for every verdict, and exactly what a failed patch leaves |
| StaleCheck.RepeatIsSilent | controllers/codebasebranch/stalecheck/action.go:86-112 | The same verdict again writes nothing and emits nothing |
| StaleCheck.WhenEventIsLost | controllers/codebasebranch/stalecheck/action.go:48-62 | A check changes staleness without an event if and only if the condition patch took effect and its answer, or a needed label patch, did not succeed |
| StaleCheck.AlternationIsExact | controllers/codebasebranch/stalecheck/action.go:129-151 | Over any series of checks with any failures, the events strictly alternate if and only if the lost ones pair up |
| StaleCheck.EventsAlternate | controllers/codebasebranch/stalecheck/action.go:129-151 | In particular they alternate when no check loses its event |
| StaleCheck.LostEventBreaksAlternation | controllers/codebasebranch/stalecheck/action.go:48-62 | Every single loss, on entry or on leaving, followed by a successful opposite check breaks the alternation |
| StaleCheck.SweptIsRight | controllers/codebasebranch/stalecheck/checker.go:119-204 | With patches that arrive: an unread or ineligible branch stays as it was; one in the remote listing ends unmarked; a missing one ends marked, with its use named where the auto strategy finds one, or is deleted; and the event of each case |
| StaleCheck.DeletionIsSafe | controllers/codebasebranch/stalecheck/checker.go:146-204 | A sweep deletes a branch if and only if all conditions for it hold, at the snapshot and again live |
| StaleCheck.DeletionIsSafeLive | pkg/webhook/codebasebranch_webhook.go:107-138 | However stale the snapshot, nothing uses the branch when its deletion is admitted |
| StaleCheck.GroupByCodebase | controllers/codebasebranch/stalecheck/checker.go:103-108 | The groups are the branches of each codebase in list order |
| StaleCheck.GroupsPartition | controllers/codebasebranch/stalecheck/checker.go:103-108 | Every branch is in exactly one group, once |
| StaleCheck.CheckCodebaseBranches | controllers/codebasebranch/stalecheck/checker.go:119-189 | A failed read leaves all the codebase's branches alone; otherwise each reaches its own outcome |
| StaleCheck.Sweep | controllers/codebasebranch/stalecheck/checker.go:83-117 | For every iteration order of the groups, each branch ends where its own codebase's facts and its own calls put it; only the death of the process leaves branches out, and those as they were; without an index nothing changes |
| RemoteRefs.EncodeDecode | pkg/git/transport.go:210-217 | Decoding and encoding hexadecimal text lower-cases it |
| RemoteRefs.DecodesToZero | pkg/git/transport.go:210-217 | Only all-zero digits decode to the zero id |
| RemoteRefs.AsHashIsExact | pkg/git/transport.go:210-217 | The full-hash test accepts exactly 40 hexadecimal digits not all zero |
| RemoteRefs.ResolveIsExact | pkg/git/transport.go:188-218 | Branch, else peeled tag, else tag, else the hash itself in lower case, else nothing |
| RemoteRefs.Remote.ResolveRemoteReference | pkg/git/transport.go:39-58 | Success returns the resolution of the ref on the remote as it is |
| RemoteRefs.Remote.CreateRemoteBranch | pkg/git/transport.go:72-131 | No existing reference moves whoever races; success means the branch exists; a branch this call created points where the start ref resolved at that moment; in calm it succeeds iff the ref resolves and the branch exists or the server holds the commit |
| RemoteRefs.UnknownHashResolves | pkg/git/transport.go:210-217 | A full hash unknown to the server resolves, and a branch can be created from it only if the branch exists |
| BranchStatus.Reconciler.CheckReferenceExists | controllers/codebasebranch/chain/check_reference.go:26-126 | A branch not yet created passes only if its start resolves on the remote; a failing check rewrites the status without touching the carried fields |
| BranchStatus.Reconciler.PutBranchInGit | controllers/codebasebranch/chain/put_branch_in_git/put_branch_in_git.go:27-169 | `branch-created` only for a branch on the remote, which starts at the given commit or the default branch; in memory it is kept exactly when the answer to recording it arrived; the other fields are carried |
| BranchStatus.Reconciler.ProcessNewVersion | controllers/codebasebranch/chain/process_new_version.go:20-82 | A new version is appended once and resets the build; a known one changes nothing |
| BranchStatus.Reconciler.PutCodebaseImageStream | controllers/codebasebranch/chain/put_codebase_image_stream/put_codebase_image_stream.go:29-248 | On success every field but the failure count is as before, persisted and in memory; in calm, failing drops the last successful build and nothing else |
| BranchStatus.Reconciler.WriteStatus | controllers/codebasebranch/codebasebranch_controller.go:235-256 | A status write keeps the conditions that are persisted |
| BranchStatus.Reconciler.Reconcile | controllers/codebasebranch/codebasebranch_controller.go:104-211 | One reconcile with checker patches between any two calls keeps the invariant; in any weather only a cached copy that lacks it can erase a recorded `branch-created` or version, or change a build number but to restart it; a finished one leaves the branch created, no failures, and history, build and last build as before but for a new version or a first build number; in calm, every field is settled by what was persisted, the cached copy and how four calls end |
| BranchStatus.Reconciler.Run | controllers/codebasebranch/codebasebranch_controller.go:104-256 | Over any number of reconciles the conditions are the checker's last, a persisted `branch-created` is true of the remote, no version is recorded twice, and no remote reference moves |
| BranchStatus.VersionsIdentify | controllers/codebasebranch/codebasebranch_controller.go:235-256 | Under optimistic concurrency equal versions mean equal objects |
| BranchStatus.ConditionsHaveOneOwner | controllers/codebasebranch/codebasebranch_controller.go:235-256 | In every interleaving of patches with updates of copies of any age, the conditions are the last patched ones |
| BranchStatus.WhenCreatedSurvives | controllers/codebasebranch/codebasebranch_controller.go:235-256 | A `branch-created` persisted before or during a calm reconcile survives if and only if the final write has no effect, or the copy read has it, or there was no old copy and the answer to recording it came or the process died |
| BranchStatus.WhenVersionSurvives | controllers/codebasebranch/codebasebranch_controller.go:235-256 | A persisted version survives if and only if there was no old copy, or that has it, or the final write has no effect or is not reached, or it is the version being recorded |
| BranchStatus.WhenVersionIsRecorded | controllers/codebasebranch/chain/process_new_version.go:47-82 | A new version ends up recorded if and only if its own write takes effect, or fails and the final write carries it |
| BranchStatus.WhatBecomesOfBuild | controllers/codebasebranch/codebasebranch_controller.go:167-196 | From a current copy the build number is kept unless a version is recorded or semver had none, and the last successful build unless a version is recorded or, if and only if, the image stream is reported missing |
| BranchStatus.SuccessIsRight | controllers/codebasebranch/codebasebranch_controller.go:213-233 | Every field a calm reconcile that reaches its end leaves |
| BranchStatus.FailuresAreCounted | controllers/codebasebranch/codebasebranch_controller.go:311-321 | The failure count after every way to end |
| BranchStatus.OldCopyIsPutBack | controllers/codebasebranch/codebasebranch_controller.go:235-256 | Every field a reconcile from an old copy leaves |
| BranchStatus.Reconciler.LostAnswerErasesCreated | controllers/codebasebranch/chain/put_branch_in_git/put_branch_in_git.go:106-113 | From every state in which the branch can be created, losing the answer to recording it makes the same reconcile erase the record |
| BranchStatus.Reconciler.StaleReadErasesCreated | controllers/codebasebranch/codebasebranch_controller.go:235-256 | Without any failure, a reconcile from a copy of before `branch-created` erases it |
| BranchStatus.Reconciler.StaleReadErasesVersion | controllers/codebasebranch/codebasebranch_controller.go:235-256 | Likewise a version that the copy lacks and that is not the one to be recorded |
| AutoDeploy.GetLastTag | pkg/codebaseimagestream/codebaseimagestream.go:15-38 | The first tag with the greatest creation time after the zero time, or an error iff there is none or it is unnamed |
| AutoDeploy.LatestIsUnique | pkg/codebaseimagestream/codebaseimagestream.go:15-38 | There is at most one latest tag |
| AutoDeploy.FindDigestByTagName | pkg/autodeploy/autodeploy.go:155-167 | The digest of the first tag of the name, or empty when there is none |
| AutoDeploy.GetAllLatest | pkg/autodeploy/autodeploy.go:44-78 | Succeeds iff every stream is readable, with exactly the streams' codebases, each with name and digest of the latest tag of its last stream; otherwise it reports the first stream's error |
| AutoDeploy.GetStable | pkg/autodeploy/autodeploy.go:80-139 | Succeeds iff every stream is readable; the triggered application has its own tag and digest whatever the annotations say, any other annotated application its annotated tag, and the applications are exactly these and the streams' codebases |
| AutoDeploy.ErrorIsFirst | pkg/autodeploy/autodeploy.go:101-126 | The error reported is the first unreadable stream's |
| AutoDeploy.StableIsRight | pkg/autodeploy/autodeploy.go:80-139 | Application by application: the tag by precedence, the digest the first non-empty one, and no other applications |
| AutoDeploy.StableTags | pkg/autodeploy/autodeploy.go:80-139 | The tag of every application: triggered, annotated, or the latest of its first stream |
| AutoDeploy.StableDigests | pkg/autodeploy/autodeploy.go:104-130 | The digest of a triggered or annotated application: the one it came with, or the first that its streams know for the tag |
| AutoDeploy.StableStreamDigests | pkg/autodeploy/autodeploy.go:104-130 | The digest of any other: that of its latest tag, or the first that later streams know for it |
| AutoDeploy.AllLatestIsRight | pkg/autodeploy/autodeploy.go:44-78 | Exactly the streams' codebases, each with the latest tag of its last stream |

## Left out

- The deletion flow of a Codebase and its jobs: sequential cleanup without a protocol.
- `setFinalizers`, `initLabels`, default values and owner references, beyond the object writes they cause.
- The difference between Gerrit and the other providers, except whether setting a default branch is supported.
- The webhook, ingress, Jira, Helm and template handlers, beyond the status writes the others depend on.
- The producer of CDStageDeploys (`putCDStageDeploy`): deploys arrive arbitrarily in the queue theorems.
- Deploys that wait for their deletion under a finalizer: a deleted deploy is gone at once.
- A `.gitlab-ci.yml` left in a work directory that survived a crash, which makes `PutGitLabCIConfig` skip its push.
- Provisioning.Provisioner.PushProject: the commits before the tip of a cloned project's default branch are arbitrary, because only its tip is computed in `WorkingCopy`.
- Provisioning.Provisioner.Push: the commits of the remote's other branches are not part of the world here, because what a push does to them is stated branch by branch in `WorkingCopy`.
- WorkingCopy.Repository.PrepareHeads: input and output failures are not modelled here, because they are failed calls in `Provisioning`; removing a missing branch is taken as having no effect, and tags are not modelled.
- StaleCheck.Sweep: does not model edits of the swept branches themselves by others during the sweep, because the listed copy and the persisted branch are one here.
- Aliasing between the slices `Find` returns and the index's own storage: sequences are values here.
- Timestamps, user names, human-readable messages and reasons, retry delays and their exponential growth.
- JSON, hashing and timestamp parsing; creation times are given already parsed, an unparseable one as zero.
- Case folding beyond ASCII, in which no hexadecimal digit takes part.
- The create and update webhooks, field indexes, namespaces and pagination beyond the limit of 500 runs.
