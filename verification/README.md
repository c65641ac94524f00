# Workshop operator: a verified model of its reconcile machine

The workshop operator keeps a training cluster in the state one Workshop resource asks for. A pass of `Reconcile` walks
an ordered list of create-if-absent, update-if-different, wait and delete steps; any API call can fail, the pass then
ends, and the next one starts again from the top. This project models that machine and proves what it keeps and what it
reaches over whole runs.

## How the model is built

- `World` is everything the operator talks to: stored objects by kind, namespace and name, the Workshop resource with its
  version, OLM's subscriptions and install plans, ready replicas, and a finite script. Each API call consumes one entry of
  the script, which says what users, OLM and the deployment controllers do just before the call, and whether the call is
  lost, or takes effect but is reported as an error. The history of calls is kept in `trail`.
- `Cluster.Client` is the API client, an object whose methods change that state. Every reconciler is a method on it, with
  the original's loops and early returns, and is proved equal to running a plan: a list of steps that stops at the first
  step that is not done (`Plans.Run`).
- The theorems are about plans, passes (`Reconcile.Pass`) and runs (`Runs.IsRun`). They hold for every script, every
  order in which lists and maps are iterated, and, where they do not say otherwise, every sequence of spec edits.
- What a pass installs and what a cleanup removes is written out key by key (`Inventory.Catalogue`,
  `Removal.RemovalOrder`), apart from the stages, and the stages are proved to make and take exactly that, in that order.
- `Calm` means that no call of the pass fails by accident. Numbers are written by a real decimal printer, and names built
  from it are proved injective.

## Where code and comments disagree

- `controllers/workshop_controller.go:119-127` says the finalizer stays when the cleanup fails. The cleanup result is
  discarded; `Finalizer.RemovedAfterFailedCleanup` shows it and `Finalizer.RemovedRegardless` says exactly when it goes.
- A user of whom a broken pass created only a part is not completed later: `Convergence.HalfCreatedStays` gives the exact
  condition. Such a user, once no longer wanted, makes every fault-free user stage fail: `Convergence.CalmStage`. One lost
  call does it: `Failures.HalfCreatedForever`.
- `deleteProject` starts removing at the user count, and goes on until a name is missing. With projects enabled it succeeds
  only if a name below the user count is missing, and with an empty staging name it may never end:
  `Scans.DeleteOutcome`, `Scans.HungWhen`, `Scans.HungExample`. After a complete pass the cleanup therefore fails there
  and leaves Nexus and Vault behind: `Orphans.LeftBehind`.
- The htpasswd secret is kept although it names other users when only the prefix changes:
  `Failures.StaleAfterPrefixChange`. `UserRuns.PassSecretExact` says exactly when the secret is right after a pass, and
  `Htpasswd.CountStandsIn` when counting is a valid test of a file for the prefix.
- The security context is copied only when it is missing, so the injector's account is never added to the one the server's
  stage has just made: `Contents.ContextCopied`.
- The bookbag scan asks for `bookbag-N` while the deployments are called `userN-bookbag`: `BookbagStage.NameNotScanned`.

## Model

| member | source | states |
|---|---|---|
| Text.UndecDec | common/usernamedistribution/deployment.go:78 | the decimal text of a number denotes that number |
| Text.NumberedInjective | controllers/gitops_reconciler.go:109-111 | two numbered names are equal exactly when the numbers are |
| Text.SplitJoin | controllers/gitops_reconciler.go:112-116 | splitting a separated list whose parts lack the separator gives the parts back |
| Text.CountLine | controllers/user_reconciler.go:164 | a newline-free text is counted line by line |
| Text.EscapeRoundTrip | common/usernamedistribution/deployment.go:27 | an escaped repository URL reads back as the bytes of the original, and every percent sign in it starts a well-formed escape |
| Text.StringInSlice | common/util/slice.go:3-10 | true exactly when the text is an element |
| Text.Contains | common/util/string.go:3-10 | true exactly when the text is an element |
| Text.IsIntersectMap | common/util/intersect.go:4-13 | true exactly when every entry of the first map reads the same in the second |
| Calls.Sync | controllers/gitops_reconciler.go:214-230 | create, or read back and update exactly when the comparison rule finds a difference; every error ends the pass |
| Calls.Clone | controllers/vault_reconciler.go:203-229 | an existing context is left alone, otherwise the source is copied with the user added once, and without a source the stage fails |
| Calls.ApproveInstallPlan | controllers/installplan.go:14-41 | one approval call equals the step Approve, with its requeue cases; what that achieves is in Approvals |
| Calls.GetDeploymentStatus | common/kubernetes/k8s_helpers.go:56-116 | the watch loop equals the step Await for every event stream; when that opens is in Replicas |
| Gates.GateExact | common/kubernetes/k8s_helpers.go:70-116 | the gate opens if and only if the call notes an observation of one ready replica, and changes nothing |
| Gates.ApproveSafe | controllers/installplan.go:14-41 | with OLM acting between the reads and the write, an approval keeps every approved plan justified |
| Gates.ApproveFollows | controllers/installplan.go:34-36 | an approval never reverts another one and touches nothing in the store |
| Plans.RunFollows | controllers/workshop_controller.go:147-238 | whatever a plan runs into, history grows, approvals stay, and under the finalizer all calls are made under it |
| Progress.RunPrefix | controllers/workshop_controller.go:147-238 | from a prefix of the plan, a run under any faults stops at a prefix that is no shorter, and a completed run has the whole plan |
| Progress.CalmStops | controllers/workshop_controller.go:155-236 | without faults a plan completes or waits at one of its gates |
| Progress.RunContent | controllers/gitops_reconciler.go:131-250 | what a completed run leaves under a key that one step sees to, by that step's update rule |
| Progress.OwnWriteSettles | controllers/gitops_reconciler.go:210-250 | every update-if-different test is false on what its own step wrote, or rewrites the same content |
| Progress.Fixpoint | controllers/workshop_controller.go:147-238 | after a completed run of a plan, another run of it leaves the store unchanged under any faults |
| Progress.RunBefore | controllers/project_reconciler.go:33-55 | an object only the second part of a plan makes is new only if the first part has ensured everything |
| Scans.ScanBound | controllers/project_reconciler.go:43-52 | the scan changes nothing and asks for at most the stored names, the failing calls, and one more |
| Scans.DeleteShape | controllers/project_reconciler.go:129-225 | under any faults deleteProject has removed all of the projects userId .. m-1 and a prefix of project m's objects in removal order, nothing else |
| Scans.EndsWithin | controllers/project_reconciler.go:133-155 | unless it hangs, the loop gives its answer within the stored names, the failing calls, and one more round |
| Scans.DeleteOutcome | controllers/project_reconciler.go:129-159 | for every store and fault script: the loop ends well exactly when projects are off or a name below userId is found missing, else fails, or never ends without a staging name |
| Scans.HungForever | controllers/project_reconciler.go:137-142 | where the model says Hung, no number of rounds ends the loop |
| Scans.HungWhen | controllers/project_reconciler.go:137-142 | for every store and fault script the loop never ends exactly when projects are enabled, the staging name is empty, and every name below userId is present or asked for by a failing call |
| ProjectStage.ReconcileProject | controllers/project_reconciler.go:30-59 | the loop equals its plan and ends within users + scanned names + failing calls + 1 rounds |
| ProjectStage.AddProject | controllers/project_reconciler.go:62-126 | the four objects of one user, in order |
| ProjectStage.DeleteProject | controllers/project_reconciler.go:129-159 | the loop equals DeleteFrom, and returns Hung where the original does not return |
| ProjectStage.DeleteProjectNamespace | controllers/project_reconciler.go:162-225 | the three role bindings go before the namespace, stopping at the first failure |
| ProjectStage.EveryUserServed | controllers/project_reconciler.go:33-55 | nothing is removed or changed under any faults; an enabled normal exit has every object of every user 1 .. n |
| ProjectStage.LoopValid | controllers/project_reconciler.go:33-55 | no project that is created is numbered among those only looked for |
| BookbagStage.ReconcileBookbag | controllers/bookbag_reconciler.go:35-62 | the loop equals its plan and ends within users + scanned names + failing calls + 1 rounds |
| BookbagStage.AddUpdateBookbag | controllers/bookbag_reconciler.go:64-153 | the eight objects of one user in order, the deployment updated when its environment differs |
| BookbagStage.NameNotScanned | controllers/bookbag_reconciler.go:48-75 | no deployment the stage creates has a name it scans for |
| BookbagStage.EveryUserServed | controllers/bookbag_reconciler.go:35-62 | nothing is removed under any faults; an enabled normal exit has every object of every user 1 .. n |
| PortalStage.BuildModuleUrls | common/usernamedistribution/deployment.go:30-40 | the text is the join of the guide entries in some iteration order of the map, or the default |
| PortalStage.OneEntryPerGuide | common/usernamedistribution/deployment.go:30-40 | for every order the text splits into exactly one entry per guide |
| PortalStage.OrderIndependent | common/usernamedistribution/deployment.go:30-40 | any two iteration orders give permutations of the same entries |
| PortalStage.ReconcilePortal | controllers/portal_reconciler.go:40-147 | redis, then the username distribution, equal to the plan for some guide order |
| PortalStage.DeletePortal | controllers/portal_reconciler.go:150-231 | the reverse removals, the portal deployment only if it is found |
| NexusStage.AddNexus | controllers/nexus_reconciler.go:53-121 | seven creations in order, then the readiness wait |
| NexusStage.DeleteNexus | controllers/nexus_reconciler.go:124-182 | the exact reverse removals |
| NexusStage.UndoExact | controllers/nexus_reconciler.go:53-182 | fault-free add and delete on a store without its objects give back the store |
| NexusStage.InterruptedTeardown | controllers/nexus_reconciler.go:124-182 | a teardown cut short by any fault leaves a prefix of the creation order |
| VaultStage.AddVaultServer | controllers/vault_reconciler.go:85-178 | the server's eight steps in order |
| VaultStage.AddVaultAgentInjector | controllers/vault_reconciler.go:181-278 | the injector's eight steps in order, sharing namespace and security context |
| VaultStage.DeleteVault | controllers/vault_reconciler.go:280-436 | server, injector, namespace, with the context dropped by whoever finds it |
| VaultStage.UndoExact | controllers/vault_reconciler.go:85-436 | given the privileged context, fault-free add and delete give back the store in spite of the shared objects |
| GitOpsStage.AddGitOps | controllers/gitops_reconciler.go:58-270 | the stage with its loop, which gathers policy, list and accounts, equals its plan |
| GitOpsStage.ManageClusterConfig | controllers/gitops_reconciler.go:272-303 | the cluster configuration with the gathered list, merged into what is stored |
| GitOpsStage.ListRoundTrip | controllers/gitops_reconciler.go:104-116 | the list splits into staging1 .. stagingN in order, and is empty for no users |
| GitOpsStage.AccountsContained | controllers/gitops_reconciler.go:130-230 | the accounts of m users are contained in those of n exactly when m is at most n |
| Policy.Records | controllers/gitops_reconciler.go:118-128 | the policy of n users splits into exactly 5n records |
| Policy.PolicyMeaning | controllers/gitops_reconciler.go:118-124 | for every request, the text allows it exactly when the subject is a user or that user's role and the request is among the user's own rights |
| Policy.Separation | controllers/gitops_reconciler.go:118-124 | no application and no repository matches the patterns of two users |
| Policy.OwnProjectOnly | controllers/gitops_reconciler.go:118 | a user reaches an application exactly when it lies in the user's own project |
| MeshStage.BuildLists | controllers/servicemesh_reconciler.go:118-141 | members are staging1 .. stagingN, what the comma list of the cluster configuration splits into; subjects are the users with Argo CD's controller in front when GitOps is on |
| MeshStage.AddServiceMesh | controllers/servicemesh_reconciler.go:88-210 | gate, then roll, bindings and control plane, each with its update rule |
| MeshStage.ReconcileServiceMesh | controllers/servicemesh_reconciler.go:60-85 | three operators before the mesh, when mesh or serverless is enabled |
| Htpasswd.FileRoundTrip | controllers/user_reconciler.go:138-147 | the names read from the file are the names it was built from |
| Htpasswd.CountStandsIn | controllers/user_reconciler.go:164-166 | the count equals the number of users exactly when the prefix occurs once in every line |
| Htpasswd.SecretStepSound | controllers/user_reconciler.go:149-177 | a sound secret stays sound under any faults, and without faults ends up naming exactly the wanted users |
| Htpasswd.SecretKeptExactly | controllers/user_reconciler.go:155-176 | any existing secret is replaced exactly when the count differs |
| Htpasswd.SecretNamesWhen | controllers/user_reconciler.go:149-177 | a fault-free step leaves the wanted names exactly when there was no secret, the count differed, or the old file named them already |
| Failures.StaleAfterPrefixChange | controllers/user_reconciler.go:164-166 | a concrete prefix change after which a whole fault-free pass replaces the user and keeps a secret naming the old one |
| Failures.HalfCreatedForever | controllers/user_reconciler.go:49-58 | a concrete lost call after which the next fault-free stage leaves the user half created and a later one that no longer wants it fails |
| Scans.HungExample | controllers/project_reconciler.go:137-142 | two users, no staging name and a namespace called 1 keep the loop going forever |
| UserStage.ReconcileUser | controllers/user_reconciler.go:36-75 | list, removals, additions, secret, for some list order and some map orders |
| UserStage.AddUser | controllers/user_reconciler.go:78-122 | the five calls in order, the binding naming the user |
| UserStage.DeleteOpenshiftUser | controllers/user_reconciler.go:206-245 | the five calls in reverse order of creation |
| UserStage.CreateUserHtpasswd | controllers/user_reconciler.go:124-180 | the file for some iteration order, then create or count-and-replace |
| UserStage.DeleteUsers | controllers/user_reconciler.go:183-203 | every listed user, then the secret |
| Accounts.LinkInjective | common/user/user.go:13-98 | the keys of different users and of the secret never coincide |
| Accounts.StageChained | controllers/user_reconciler.go:36-75 | under faults at any call, each user's objects stay a prefix of User, RoleBinding, Identity, Mapping |
| Accounts.DeleteChained | controllers/user_reconciler.go:183-203 | so they do while all users are removed |
| Convergence.CalmStage | controllers/user_reconciler.go:36-75 | a fault-free stage succeeds exactly when every stale listed user is complete, and then its effect on every user is exact |
| Convergence.HalfCreatedStays | controllers/user_reconciler.go:49-70 | a wanted user is complete afterwards exactly when it was complete or not listed before |
| Convergence.Converges | controllers/user_reconciler.go:36-75 | from a consistent state without strangers: labelled users are the wanted ones, each complete, nothing for anyone else |
| Convergence.StageSecret | controllers/user_reconciler.go:124-180 | the whole stage keeps the secret sound under any faults |
| Convergence.StageSecretExact | controllers/user_reconciler.go:124-180 | a fault-free stage that succeeds leaves the wanted names exactly when the file was missing, miscounted, or right before |
| Convergence.StageFixpoint | controllers/user_reconciler.go:36-75 | after a fault-free stage that succeeds, a second one changes nothing, with other orders and other salted hashes, half-created users and strangers or not |
| Reconcile.ReconcileWorkshop | controllers/workshop_controller.go:69-239 | the whole pass, for possible choices, equals Pass |
| Reconcile.HandleDelete | controllers/workshop_controller.go:247-305 | the removals in order, for whatever order the users are listed in |
| Reconcile.AddFinalizer | controllers/finalizer.go:20-31 | the finalizer is added under the version the pass has read |
| Reconcile.BuildMain | controllers/workshop_controller.go:155-236 | the stages in order with their early returns |
| Finalizer.PassCreatesArmed | controllers/workshop_controller.go:140-146 | every create of a pass is made while the stored Workshop carries the finalizer |
| Finalizer.RemovedOnlyAfterMark | controllers/workshop_controller.go:114-137 | a pass after which the finalizer is gone had read the mark and called handleDelete |
| Finalizer.MarkedPassTakes | controllers/workshop_controller.go:114-137 | a pass that read the mark creates nothing and never puts the finalizer back |
| Finalizer.RemovedRegardless | controllers/workshop_controller.go:127-134 | however the cleanup ended, the finalizer goes exactly when nobody has touched the Workshop meanwhile and the update is not lost |
| Finalizer.RemovedAfterFailedCleanup | controllers/workshop_controller.go:127 | a concrete failed cleanup after which the Workshop disappears |
| MainFacts.MainFine | controllers/workshop_controller.go:155-236 | every step behind the user stage builds, and none sees to an object of the user stage |
| MainFacts.UserStageAvoids | controllers/user_reconciler.go:36-75 | the user stage touches nothing but its own objects |
| MainFacts.MainDistinct | controllers/workshop_controller.go:155-236 | no two different steps of a pass update the same object |
| MainFacts.LateFrom | controllers/gitops_reconciler.go:84-270 | objects behind a gate are made by the gated stage only |
| Runs.RunMonotone | controllers/installplan.go:34-36 | over every run history grows and approvals stay |
| Runs.CreatesUnderFinalizer | controllers/workshop_controller.go:114-146 | over every run, with deletion interleaved, every create ever made was made under the finalizer |
| Runs.FinalizerGoesOnceMarked | controllers/workshop_controller.go:114-137 | whenever the finalizer disappears in a run, that pass had read the mark |
| Runs.AfterTheMark | controllers/workshop_controller.go:115-137 | from the mark on nothing is created, and a finalizer that is gone does not come back |
| Runs.ApprovalsJustified | controllers/installplan.go:14-41 | over runs interleaved with OLM, every approved plan was referenced by a pinned subscription before and lists the pinned version |
| Runs.MainPinned | controllers/servicemesh_reconciler.go:101-104 | the approvals of a pass are those its spec pins |
| GateRuns.BehindTheGate | controllers/gitops_reconciler.go:77-94 | over every run, objects behind a readiness wait exist only after the approval returned without error and one ready replica was observed |
| GateRuns.ServerGated | controllers/gitops_reconciler.go:252-267 | the cluster configuration is made only after one ready replica of the Argo CD server was observed behind the operator's gate |
| GateRuns.MeshGated | controllers/servicemesh_reconciler.go:101-116 | the mesh stage keeps that order for its own objects |
| GateRuns.FinalizeShrinks | controllers/workshop_controller.go:247-305 | deletion adds nothing to the store |
| Resume.CrashAndResume | controllers/workshop_controller.go:147-238 | over runs with a fixed spec and any faults, the objects present are those of a prefix that never shrinks, whole after a completed pass |
| Resume.EndAlike | controllers/workshop_controller.go:147-238 | any number of failed passes before a completed one makes no difference to which objects there are |
| CleanPass.Completes | controllers/workshop_controller.go:147-238 | a fault-free pass gets past the users exactly when every stale user is complete, then completes or waits at a gate; without waiting stages it completes exactly then |
| Resume.PassFixpoint | controllers/workshop_controller.go:147-238 | a fault-free pass after a complete fault-free one with the same spec and guide order changes no object, from any users a run can leave |
| Counts.ThreeRules | controllers/servicemesh_reconciler.go:151-207 | over completed passes with counts n1 .. nk: with GitOps on, accounts of the maximum and policy of nk; with the mesh on, jaeger-users and member roll of nk, mesh-users of n1; each whether the other is on or off |
| Counts.AccountsOfPeak | controllers/gitops_reconciler.go:210-230 | the accounts are those of the largest count of the run |
| Counts.ConfigLists | controllers/gitops_reconciler.go:272-303 | the cluster configuration lists the namespaces of the last completed pass, whatever was stored before |
| Counts.ComponentsAgree | controllers/gitops_reconciler.go:108-187 | namespaces, AppProjects, mesh members and split cluster configuration agree id by id for 1 .. users |
| Counts.RolesStayPlaced | controllers/gitops_reconciler.go:155-162 | over runs under any faults, an Argo CD role lies only in a namespace the project stage has ensured |
| UserRuns.ChainsOverRuns | controllers/user_reconciler.go:78-245 | over every run with faults, deletion and spec changes, no companion object exists without its user |
| UserRuns.UsersConverge | controllers/user_reconciler.go:36-75 | over fault-free passes with any prefixes and counts, the labelled users are the wanted ones, each complete, after every pass |
| UserRuns.SecretOverRuns | controllers/user_reconciler.go:124-180 | with one prefix, the secret stays sound over every run of counts and faults |
| UserRuns.SecretExact | controllers/user_reconciler.go:124-180 | the next fault-free pass that can remove its stale users leaves a secret naming exactly prefix1 .. prefixN |
| UserRuns.PassSecretExact | controllers/user_reconciler.go:124-180 | with any change of prefix, exactly when such a pass leaves the wanted names in the secret |
| Orphans.TeardownStops | controllers/workshop_controller.go:251-272 | with projects on and the namespaces there, handleDelete fails at the projects under any faults and never touches Nexus or Vault |
| Orphans.LeftBehind | controllers/workshop_controller.go:115-137 | deleting a Workshop after a complete pass with projects on leaves every Nexus and Vault object as it is, also when the finalizer goes |
| Replicas.GateOpens | common/kubernetes/k8s_helpers.go:56-116 | for every script and event stream: the gate opens if and only if the watch can be opened and some look, behind looks that all find the deployment, reports one ready replica or the event behind it does |
| Replicas.QuietGate | common/kubernetes/k8s_helpers.go:75-116 | with nobody else acting, it opens exactly when the stored count is one or the stream reports one |
| Replicas.ObservationsTrue | common/kubernetes/k8s_helpers.go:75-107 | every observation noted is the count stored at the Get right before it, zero if that failed or found nothing, or the count of a modification in the stream |
| Approvals.ApprovalHolds | controllers/installplan.go:14-41 | whatever fails and whoever interferes: an approval that returns without error found the subscription not waiting, or left the plan it refers to in place, and approved if it lists the version |
| Approvals.QuietApproval | controllers/installplan.go:14-41 | with nobody else acting: exactly when it succeeds, and that its whole effect is to approve the plan that lists the version |
| Bindings.BindingsOverRuns | common/user/user.go:26-47 | over every run with faults, deletion and spec changes, a store whose role bindings name the right subjects stays one: in the infra namespace the user each is named after, and the users' project, bookbag and Argo CD bindings theirs |
| Bindings.PassServesUser | controllers/user_reconciler.go:78-122 | after a fault-free pass past the users, every wanted user that was not listed has all four objects; new ones carry the label and bind exactly that user |
| Convergence.UnlistedStage | controllers/user_reconciler.go:45-74 | a list call that fails counts as an empty list: nobody is removed, every wanted user is completed |
| Htpasswd.FileLines | controllers/user_reconciler.go:138-147 | the file has one line per user, name and hash, and nothing behind |
| UserRuns.PassWritesSecret | controllers/user_reconciler.go:124-180 | a fault-free pass that finds the secret missing or miscounted writes it anew, one line per wanted user with the hash of this pass |
| Text.CountFirst | controllers/user_reconciler.go:164 | counting takes the first occurrence and goes on behind it |
| Text.CountNone | controllers/user_reconciler.go:164 | and ends when there is none |
| Scans.ScanStops | controllers/project_reconciler.go:43-52 | for every store and fault script, the name at which the scan ends: the first that a call that does not fail reports missing |
| Inventory.MainMade | controllers/workshop_controller.go:155-236 | the plan of a pass makes exactly the objects of the catalogue, written out key by key per component, in that order |
| Installed.CompletedInstalls | controllers/workshop_controller.go:155-236 | after a completed pass exactly the objects that were there before and those of the catalogue are there |
| Installed.ComponentsInstalled | controllers/nexus_reconciler.go:40-50 | every object of every component that is switched on, and of the portal always, is there after a completed pass |
| Installed.AddsOnlyListed | controllers/workshop_controller.go:155-236 | under any faults a pass adds nothing that the catalogue of its spec does not list, and unless it deletes removes nothing |
| Installed.SwitchedOff | controllers/vault_reconciler.go:66-82 | under any faults a pass adds no object of a component its spec leaves out |
| Installed.InOrder | controllers/workshop_controller.go:155-236 | under any faults, when an object is new after a pass, everything the catalogue lists before it is there |
| Installed.NexusDid | controllers/nexus_reconciler.go:114-117 | a completed pass with Nexus has seen one ready replica of it |
| Installed.GitOpsDid | controllers/gitops_reconciler.go:77-86 | a completed pass with GitOps has cleared the subscription and seen operator and server ready |
| Installed.MeshDid | controllers/servicemesh_reconciler.go:60-116 | a completed pass with the mesh has cleared all four subscriptions and seen the operator ready |
| Installed.ForeignsDid | controllers/workshop_controller.go:185-234 | a completed pass has called every foreign stage and got its answer |
| Installed.ScansDid | controllers/project_reconciler.go:43-52 | a completed pass has looked for projects and bookbags of users that are no more, up to a missing one; if nothing failed, up to the first |
| Installed.ConsoleDid | controllers/workshop_controller.go:97-108 | a pass that builds has found the console route |
| Contents.PortalContents | common/usernamedistribution/deployment.go:22-110 | after a completed pass the portal's environment, item by item, with one entry per guide and the five parameters in each, or the default page |
| PortalStage.FiveParameters | common/usernamedistribution/deployment.go:24-28 | the query string splits into its five parameters, and the escaped repository reads back |
| Contents.BookbagContents | common/bookbag/bookbag.go:23-170 | after a completed pass every user's terminal environment, item by item, with variables that read back as the settings |
| BookbagStage.VarsReadBack | common/bookbag/bookbag.go:23-36 | with settings free of quotes the JSON text reads back as exactly its twelve fields |
| Contents.UserGitOps | controllers/gitops_reconciler.go:131-187 | after a completed pass every user's AppProject and manager binding have the right destination and subject |
| Contents.AccountsHaveUsers | controllers/gitops_reconciler.go:128-230 | after a completed pass every user may log in |
| Contents.ConfigExact | controllers/gitops_reconciler.go:272-303 | after a completed pass the cluster configuration is what was stored, overlaid with exactly the four wanted entries |
| Contents.MeshContents | controllers/servicemesh_reconciler.go:118-207 | after a completed pass jaeger-users has user1 .. userN in order, behind Argo CD's controller exactly when GitOps is on, and the roll the users' projects |
| Contents.MeshUsersContents | controllers/servicemesh_reconciler.go:172-179 | mesh-users has the same subjects when it is new, and is left alone otherwise |
| Contents.ContextCopied | controllers/vault_reconciler.go:112-140 | a completed pass that makes Vault's security context has copied the privileged one, its users in order and the server's account once |
| Finalizer.PassKeepsOthers | controllers/finalizer.go:20-31 | whatever fails and whoever interferes, a pass neither adds nor removes a finalizer but the operator's own |
| Runs.OthersOverRuns | controllers/workshop_controller.go:127-146 | so does every run |
| Runs.BuildsArmed | controllers/workshop_controller.go:141-146 | a pass that builds ends under the finalizers that were there, with the operator's own behind them if it was missing |
| Installed.ForeignsFirst | controllers/workshop_controller.go:182-234 | under any faults, when an object of GitOps, the mesh or Vault is new, the foreign stages in front of it have been called and answered in that pass |
| UserOrder.RemovedBeforeAdded | controllers/user_reconciler.go:50-68 | under any faults, when any object is new after the user stage, every listed user that is not wanted is gone with all four objects |
| UserOrder.SecretLast | controllers/user_reconciler.go:50-71 | under any faults, when the stage has touched the secret, every wanted user that was not listed is complete and every listed one that is not wanted is gone |
| Deletion.DeletionExact | controllers/workshop_controller.go:251-304 | a fault-free cleanup ends well exactly when the objects it removes without looking are all there and projects are off or a name below the user count is missing; then no labelled user, secret, portal, redis, Nexus or Vault object is left and everything else is as it was |
| Deletion.PassDeletes | controllers/workshop_controller.go:115-137 | the same for a pass that deletes |
| Removal.TakenAltogether | controllers/workshop_controller.go:251-304 | the cleanup takes exactly the objects of the removal order, written out key by key, in that order |
| Removal.TornInOrder | controllers/workshop_controller.go:251-304 | under any faults, an object of the removal order is taken only after everything before it is gone, but for the portal's deployment and Vault's security context, which go only if a look finds them |
| Removal.TornOnly | controllers/workshop_controller.go:251-304 | under any faults the cleanup takes nothing but those objects and projects numbered from the user count on |
| Removal.TornDid | controllers/workshop_controller.go:263-302 | a cleanup that ends well has called every foreign part and got its answer |
| Removal.PassTakesOnly | controllers/workshop_controller.go:115-137 | the same for a pass that deletes |

## Left out

- Gitea, pipelines, CodeReady, serverless and cert-manager stages, and the teardown of bookbag, GitOps and service mesh: each
  is one foreign call that succeeds or fails and leaves the modelled objects alone. The same holds for reading the console
  route; a host name that does not match its pattern crashes the original.
- HTTP traffic, resource constructors, role rule tables, labels other than the operator's own on users, owner references,
  and everything in an object that the operator never compares.
- The htpasswd command and bcrypt: an arbitrary function from a name to the rest of its line, which may differ from pass to
  pass. Passwords in `argocd-secret`, an object that is only ever created, are not modelled.
- Real cluster effects beyond the store: garbage collection, asynchronous namespace termination, a create refused because
  its namespace is missing, API defaulting. A Secret's StringData does read back empty.
- Outside writers on the stored objects: others act on the Workshop, on OLM's state and on replicas only.
- The UID copied into an Identity, which a failed Get leaves empty.
- A watch that cannot be opened makes the original crash; in the model it ends the pass. An event stream that goes on after
  an error event is covered as well as one that ends there.
- `reflect.DeepEqual` tells a nil slice from an empty one; the model's sequences do not, which matters for a member roll
  without users.
- Resume.PassFixpoint: needs the same guide order in both passes, because the environment of the portal contains it.
- Counts.RolesStayPlaced: needs projects enabled wherever GitOps is, as the GitOps stage itself ensures no namespace.
