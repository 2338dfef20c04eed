# Verification of the Gerrit operator

A Dafny model of the operator's reconcilers and of the algorithms they rest on, with machine-checked proofs about
every run. `dafny verify dfyconfig.toml` checks the whole project.

## How the model is built

**The world is scripted.** `Cluster` holds one custom resource on a versioned API server, the Gerrit server behind
it, and a script of turns. Every remote call of the operator consumes one turn: first other clients take the turn's
steps (edit the spec, add finalizers, drop any but the operator's own, delete, write the status, run the two calls of
the project syncer), then the call works or fails, a read may be answered from an older state of the object, and a
look at the deployment may find it not ready. A failed call changes
nothing. A script that ends in the middle of a reconcile is an operator that is killed there. A theorem that
quantifies over worlds therefore quantifies over all interleavings, failures, conflicts, stale reads and restarts.
A main-resource update takes everything but the status from the caller and decodes the server's copy back into the
caller's object; a status update takes only the status; a stale version is a conflict.

**Functions on values, and the source's own form.** The reconcilers are functions on the world (`Helper`,
`Controllers`, `StatusRetry`, `Bootstrap`, `Exposure`, `Installation`, `Syncer`), about which the theorems are
stated. `Runtime` and the modules whose names end in `Methods` give the same operations in the imperative form of
the source: an API client and an in-memory object whose fields are changed step by step, the retry loop, a component
service that acts on secrets, deployment and accounts in place, loops that fill indexes and append to lists. Each of
these methods is proved to leave exactly the state that its function describes, so the theorems hold of them.
`EnvMerge`, `SshPort`, `AccessRights`, `OpenSshKey`, `ConfigMapCommit` and `BackOff` hold loop code proved against
specification functions, and the laws of those functions.

**Bookkeeping.** `Book` records events (a reconcile begins, a cleanup returned without error, a finalizer was
released, and by which object), committed status writes, pushes, lost status writes and failed directory removals,
and two flags: that an object was deleted before it had a change id or an owner (`ownerlessDelete`), and that a read
was answered by a state whose phase or availability the server no longer showed (`misread`). The operator never reads
it.

**Assumptions of single theorems** are spelled out in their `requires`: for example that nobody else writes the
status (`NoThirdWriter`, `SoleWriter`), that the object is not created anew (`OneIncarnation`), that there is one pod
(`OnePod`). Where a law needs one, the exact condition is proved too: `StaleReads` says when a stale read does harm,
`ForgottenPush` shows that the push bound needs its hypothesis, `SilentGiveUp` and `GroupRuns` say what ready stands
for, and the `OrderMatters` lemmas what an order changes.

Points where the code does not do what one would expect, kept as they are:
- `errors.Wrap(nil, ...)` is nil, so `Configure` gives up without an error on a wrong number of pods or a bad status
  code (`GivingUpSilently`); the reconcile then goes on to `ready` (`SilentGiveUp.ReadyWithoutGroups`,
  `SilentGiveUp.ReadyDespiteServerError`).
- `Configure` looks up two of the four groups. When both exist the other two are never created
  (`GroupRuns.GroupsFrozen`), so a set-up interrupted after two or three groups stays that way; interrupted after one,
  Configure fails from then on, because that group exists already (`Bootstrap.CalmEnsureGroups`).
- After a conflict the retry loop applies a mutation chosen for the old copy to the object it reads again; from a stale
  copy this can take a ready instance back to configuring (`StaleReads.StaleReadIsApplied`).
- A merge request deleted while a foreign finalizer holds it, before it has an owner, is pushed again
  (`ForgottenPush.BoundIsExceeded`).
- The ArgoCD account gets the password drawn in the same run even when an older one is stored
  (`Exposure.ExposeArgoFacts` gives the exact condition); the CI account gets the stored one.
- A merge request with an empty owner name is documented to use the first Gerrit of the namespace, but the git
  client is looked up under exactly the given name (`CalmRuns.ChangeNeedsExactOwner`).
- Every reconcile of a deleted member, project or access object creates it on the server again before cleaning up.

## Model

| member | source | states |
|---|---|---|
| `FinalizerSafety.CleanedBeforeReleased` | controllers/helper/helper.go:238-268 | In every run of the four reconcilers, with any interference but a client stripping the operator's own finalizer, stale reads, failures and kills: each time the object loses its finalizer, or leaves the server with it, a cleanup function returned without error earlier in the same reconcile, and at that moment the member, project or rules are absent or the recorded change is not NEW. For a merge request without a recorded change id the last part says nothing; `ChangeCount.ChangesLeft` bounds the changes left then. |
| `FinalizerSafety.NoSilentDeparture` | controllers/helper/helper.go:238-268 | An object that carried its finalizer and no longer does, or is gone, left a release of this very object (by uid) in the log: nothing escapes the previous theorem. |
| `FinalizerSafety.ReconcileSound` | controllers/helper/helper.go:238-268 | One reconcile of any of the four kinds keeps the log safe and guarded objects guarded unless a release was logged. |
| `FinalizerSafety.RemovalTidies` | controllers/gerritgroupmember/controller.go:146-154 | When a removal on the Gerrit server succeeds, nothing of what the object stands for is left; that nothing else goes is `Bystanders.ReconcileSpares`. |
| `Bystanders.ReconcileSpares` | controllers/helper/helper.go:238-268 | One reconcile of any of the four kinds, in every world with any interference and failures: members, projects, rules (with the label of their permission), parents and changes other than the ones the copy stands for, and at most one freshly pushed change, are as before. While the object is not being deleted nothing goes away; no change ever goes away, and only NEW ones are abandoned. Only a merge request whose copy shows no change id pushes. |
| `Bystanders.NeverTouched` | controllers/helper/helper.go:238-268 | Over every run of the four reconcilers: an item on the server that no state of the object stands for, and whose id no call drew, is as it was at the start. |
| `Bystanders.RemovalSpares` | controllers/gerritproject/controller.go:163-171 | Each of the three removals takes away the named member, project or listed rules only. |
| `FinalizerSafety.AbandonFine` | controllers/merge_request/controller.go:392-412 | When abandoning returns without error, the change that the server had recorded is not NEW any more. |
| `Effects.SuccessMeansServed` | controllers/gerritprojectaccess/controller.go:135-163 | In every world with any interference: when the attempt of any of the four reconcilers succeeds on an object that is not being deleted, the server is at that moment as the object asks: member present, project with its description and parent, every listed rule with its first-listed value and the parent set, or the merge request's status showing its change as it is. |
| `Effects.EnsureProjectServes` | controllers/gerritproject/controller.go:122-153 | Create or update leaves the project with the description and the parent of the spec, whichever of the two it was. |
| `Effects.GrantServes` | controllers/gerritprojectaccess/controller.go:141-149 | Add and update both leave every listed rule with its first-listed value. |
| `Effects.FailedProjectKeepsParent` | pkg/client/gerrit/project.go:42-92 | In every world: a failed update may have changed the description but never the parent, and a failed creation leaves no project. |
| `StatusMeaning.StoredStatusIsHonest` | controllers/gerritproject/controller.go:90-120 | In every world with any interference, for all four kinds: when a reconcile stores "OK" (for a merge request: any value but "error"), every call it made worked and, unless the object is being deleted, the server is as the object asks at that moment; otherwise it stores "error". |
| `UsedTurns.AttemptTried` | controllers/helper/helper.go:207-268 | An attempt succeeds only if every call it made worked. |
| `AccessRuns.CreatedAfterFirstSuccess` | controllers/gerritprojectaccess/controller.go:100-115 | Over every run with failures, kills and stale reads: the stored status says created if and only if some reconcile of the run stored a success. |
| `AccessRuns.FirstAddsThenUpdates` | controllers/gerritprojectaccess/controller.go:141-149 | Over every run: the first success adds the rights, every later one updates them; the two are told apart by the label of each permission, which is given exactly. |
| `Owners.EnsureOwnerSettles` | controllers/helper/helper.go:207-236 | In every world: getting the Gerrit client leaves the owner references as they were, or, if there were none, one reference to the Gerrit of the lower-cased owner name, or to the first Gerrit if no name is given; either way the first Gerrit reference names one that exists. |
| `Owners.InstanceFacts` | controllers/helper/helper.go:156-183 | There is a Gerrit to settle on if and only if the lookup finds one. |
| `Helper.UpdateFacts` | controllers/merge_request/controller.go:218-231 | A main-resource update brings back the status the server has under that version, whatever status the caller's copy shows, so a status computed before it would be lost. |
| `Helper.CurrentFacts` | controllers/helper/helper.go:207-236 | A copy that is still current agrees with the stored object in identity, spec, status and deletion mark. |
| `MergeBound.PushBound` | controllers/merge_request/controller.go:163-290 | From a fresh merge request, over any run with stale reads, failures and kills: pushes are at most 1 + lost status writes + failed directory removals, unless the object was marked for deletion while it had neither a change id nor an owner. |
| `MergeBound.RunBounded` | controllers/merge_request/controller.go:163-290 | The invariant behind it: at most one change id was ever recorded, it is never lost again, and every unrecorded push is accounted for, unless such a deletion happened. |
| `ChangeCount.ChangesLeft` | controllers/merge_request/controller.go:236-290 | Over the same runs, on a Gerrit without changes: the changes that are NEW number at most 1 + lost status writes + failed directory removals, and one less once a change has been abandoned. |
| `ChangeCount.RunCounts` | controllers/merge_request/controller.go:236-290 | Over every run no more changes become known than are pushed. |
| `MergeBound.RecordedIdIsStable` | controllers/merge_request/controller.go:196-234 | Once the server shows a non-empty change id, it shows that id for as long as the object exists. |
| `MergeBound.PushThenRemoveCarries` | controllers/merge_request/controller.go:251-256 | When the push or the deferred removal of its clone fails, the copy is as before and every push is accounted for; on success exactly one push is still open and the copy shows its id. |
| `CalmRuns.QuietCreateChange` | controllers/merge_request/controller.go:236-290 | When calls work, creating a change takes eight calls for a branch and nine for a config map, and leaves exactly one more push and a NEW change with the fresh id. |
| `ForgottenPush.ReconcileForgets` | controllers/merge_request/controller.go:196-234 | Why the bound excludes that deletion, for every deleted merge request without change id and owner, whatever finalizers hold it: every call works, nothing is lost, and yet after the reconcile there is one more push and no change id on the server, because adding the owner reference discarded it. |
| `ForgottenPush.ReconcileRepeats` | controllers/merge_request/controller.go:196-234 | The next reconcile of that object pushes a second time, again with no lost write and no failed removal, when connecting for the cleanup fails once. |
| `ForgottenPush.UnrecordedPushesTwice` | controllers/merge_request/controller.go:196-234 | The converse of the bound, from every world with such an object: two reconciles push twice and lose nothing. |
| `ForgottenPush.BoundIsExceeded` | controllers/merge_request/controller.go:163-290 | A run from a fresh merge request (a foreign finalizer, a deletion, two reconciles) whose pushes exceed the bound. |
| `CalmRuns.ChangeNeedsExactOwner` | pkg/service/gerrit/git_client.go:19-39 | With all calls working, a change is created if and only if a Gerrit of exactly the given owner name exists. |
| `CalmRuns.QuietFirstOwner` | controllers/helper/helper.go:207-236 | Setting the first owner reference stores it, and puts the server's status in place of the caller's. |
| `CalmRuns.QuietReconcileAddsMember` | controllers/gerritgroupmember/controller.go:86-144 | When calls work, one reconcile leaves the member in the group, the object owned, guarded beside whatever finalizers it had, status OK and failure count 0, whether it was owned or guarded before or not. |
| `CalmRuns.QuietReconcileRemovesMember` | controllers/gerritgroupmember/controller.go:86-154 | When calls work, one reconcile of the deleted object removes the member from the group and the own finalizer, and the object from the server unless a foreign finalizer holds it; owned or not. |
| `CalmRuns.MemberComesAndGoes` | controllers/gerritgroupmember/controller.go:86-154 | The two as one run: reconciled, deleted by a user, reconciled again, neither object nor member is left. |
| `CalmServing.QuietReconcileServesProject` | controllers/gerritproject/controller.go:90-161 | When calls work, one reconcile of a live project leaves it with the description and parent of the spec, the object owned and guarded, value OK, and the branches as they were. |
| `CalmServing.QuietReconcileRemovesProject` | controllers/gerritproject/controller.go:122-171 | One of a deleted project removes it, and only it, and lets the object go. |
| `CalmServing.QuietReconcileServesAccess` | controllers/gerritprojectaccess/controller.go:85-163 | When calls work and Gerrit knows the project, one reconcile grants every listed rule, sets the parent, and stores OK and created. |
| `CalmServing.QuietReconcileRemovesAccess` | controllers/gerritprojectaccess/controller.go:135-175 | One of a deleted object removes every listed rule and lets the object go. |
| `CalmServing.QuietReconcileUnknownProject` | controllers/gerritprojectaccess/controller.go:135-163 | If Gerrit does not know the project, nothing changes on the server and the status says error. |
| `CalmMerge.QuietReconcileCreatesChange` | controllers/merge_request/controller.go:163-290 | When calls work, one reconcile of a live merge request without a change, with a branch or files and a Gerrit of exactly the given name, pushes once: the new change is NEW on Gerrit, its id and value are stored, the finalizer is in place, nothing else changed. |
| `CalmMerge.QuietReconcileRefusesEmpty` | controllers/merge_request/controller.go:199-205 | Without branch and files nothing is pushed and the status says error. |
| `CalmMerge.QuietReconcileNeedsGerrit` | pkg/service/gerrit/git_client.go:19-39 | Nor without a Gerrit of exactly the given name. |
| `CalmMerge.QuietReconcileShowsChange` | controllers/merge_request/controller.go:211-234 | With a recorded change nothing is pushed, and the stored value is Gerrit's status of that change. |
| `CalmMerge.QuietReconcileAbandons` | controllers/merge_request/controller.go:392-412 | One reconcile of a deleted merge request abandons its change if it is NEW and lets the object go. |
| `CalmMerge.ChangeComesAndGoes` | controllers/merge_request/controller.go:163-290 | The whole life as one run: created, deleted by a user, reconciled again; one push, its change abandoned, the object gone. |
| `StatusRace.NoWriteIsLost` | controllers/gerritproject/syncer.go:90-117 | Syncer and project reconciler interleaved call by call, with stale reads and failures: the stored branches are always the last successful syncer write and the stored value the last successful reconciler write. |
| `StatusRace.ReconcileShows` | controllers/gerritproject/controller.go:90-120 | One project reconcile keeps that. |
| `FailureStreak.StoredCountIsTheStreak` | controllers/gerritgroupmember/controller.go:86-127 | In every run in which status writes succeed, the stored failure count is the number of failed attempts since the last success. |
| `StatusRetry.AttemptFacts` | controllers/gerrit/gerrit_controller.go:286-298 | One attempt commits the server's object with only the mutation applied, or commits nothing and, after a conflict, goes on with a genuine copy. |
| `StatusRetry.RetryLosesNothing` | controllers/gerrit/gerrit_controller.go:286-304 | Whatever others write between attempts: success commits exactly one write, the stored object of that instant with only the mutation applied; an error commits nothing. |
| `StatusRetry.RetryStops` | controllers/gerrit/gerrit_controller.go:286-304 | The loop uses at most two calls per attempt. |
| `StatusRetry.FiveConflictsOrDone` | controllers/gerrit/gerrit_controller.go:286-304 | While calls work and the object is there, the loop gives up only after five conflicts. |
| `RetryRuns.EveryCommitIsOneMutation` | controllers/gerrit/gerrit_controller.go:98-304 | Over every run of the installation, even with stale reads, each committed status is the stored one with a single field set: no concurrent status write is ever undone. |
| `PhaseSafety.RunsAreSound` | controllers/gerrit/gerrit_controller.go:117-250 | With a single status writer, over every run in which no read is answered by a state whose phase or availability the server no longer shows (older states that agree are fine): each status write takes one edge of the phase machine (or makes a ready instance available), the stored phase never falls below where it was, and Available is true only together with ready. |
| `PhaseSafety.BodyStays` | controllers/gerrit/gerrit_controller.go:117-250 | However one reconcile ends, its writes were legal; if it goes through, the instance is ready and available. |
| `PhaseSafety.RetryStays` | controllers/gerrit/gerrit_controller.go:286-304 | The retry loop re-applies its mutation to the phase it was chosen for. |
| `PhaseSafety.ReadyIsNeverLeft` | controllers/gerrit/gerrit_controller.go:117-250 | A ready instance stays ready in every such continuation. |
| `Waiting.ReconcileWaits` | controllers/gerrit/gerrit_controller.go:139-192 | Whatever the script and the read: a reconcile that cannot find the deployment ready leaves the platform alone and writes nothing but the phases installing and created; one that can find it ready only once writes no phase past configuring, never Available, and touches no account but the admin's. |
| `Waiting.EarlyCopyWaits` | controllers/gerrit/gerrit_controller.go:117-137 | The same, ready or not, when the copy read is not installed yet. |
| `Waiting.QuietEarlyReconcile` | controllers/gerrit/gerrit_controller.go:117-137 | When calls work such a reconcile ends at created. |
| `Waiting.AdvancedMeansFoundUp` | controllers/gerrit/gerrit_controller.go:139-192 | Over every run with a single status writer, any failures, kills and stale reads: a phase past created that was not there at the start, or Available newly true, means that some reconcile could find the deployment ready. |
| `StaleReads.FirstWriteFollowsTheCopy` | controllers/gerrit/gerrit_controller.go:98-304 | Whatever the read is answered with, in every world with any interference and failures: the first status a reconcile commits is the stored one with the phase after the copy's in it (from a ready copy: with Available set). |
| `StaleReads.FirstWriteIsLegalIff` | controllers/gerrit/gerrit_controller.go:98-304 | That write is an edge of the phase machine if and only if the stored phase has the same next phase as the copy's, and it goes back if and only if the copy's next phase ranks below the stored one. |
| `StaleReads.StaleReadIsApplied` | controllers/gerrit/gerrit_controller.go:286-304 | One stale read with everything else in order, for every old state and every stored one: from a copy before exposing the write does land on the stored object, through the conflict; from a later copy nothing is written. |
| `StaleReads.StaleReadGoesBackIff` | controllers/gerrit/gerrit_controller.go:286-304 | So the stored phase goes back exactly when the copy is from before exposing and its next phase ranks below the stored one. |
| `Convergence.ThreeReconcilesComplete` | controllers/gerrit/gerrit_controller.go:98-256 | From every recognised phase, with one ready pod, calls that work, a fixed positive node port, the instance's container first, a listener in its environment (if any) that parses, and none or all of the groups, three reconciles reach ready and available with the port settled, all groups present, the CI account on its stored password (if it was not on another one before), each of the two service accounts in its groups, their secrets stored, and the annotations of the object pointing to them. |
| `Convergence.ReconcileConverges` | controllers/gerrit/gerrit_controller.go:98-256 | Every such reconcile, under the same conditions on pods, port, container, listener and groups, lowers the measure (phases left plus one pending patch) until it is zero. |
| `Convergence.WorksConverge` | controllers/gerrit/gerrit_controller.go:98-256 | As many reconciles as the measure says are enough, and the result is stable under further ones. |
| `Convergence.QuietExpose` | pkg/service/gerrit/gerrit.go:289-415 | When calls work, exposing leaves the four annotations with the names of the secrets, and the Keycloak annotation and secret if Keycloak is enabled; that secret is there afterwards if and only if it is enabled or was there before. |
| `SilentGiveUp.ReadyIff` | controllers/gerrit/gerrit_controller.go:143-250 | Undisturbed, from created on, however Configure ends: afterwards the instance is ready and available if and only if it was before, or Configure stopped neither with a patch nor with an error and the admin's key pair is stored. |
| `SilentGiveUp.QuietReadyIff` | controllers/gerrit/gerrit_controller.go:143-250 | The same in terms of what one can look up first, for any groups: with one pod it becomes ready if and only if both looked-up groups exist or none of the four does; with another number if and only if the key pair is stored. The groups afterwards are given exactly. |
| `SilentGiveUp.ReadyWithoutGroups` | pkg/service/gerrit/gerrit.go:169-172 | From no groups: ready and available if and only if there is one pod, or the key pair is stored, or it was before; all groups exist if and only if there is one pod, and otherwise none does. |
| `SilentGiveUp.SilentIff` | pkg/service/gerrit/gerrit.go:169-199 | When calls work and no patch is due, Configure gives up without an error if and only if there is not one pod, or a credential check is answered by a bad code; the groups are then as before. |
| `SilentGiveUp.ReadyDespiteBadAnswer` | pkg/service/gerrit/gerrit.go:185-199 | With one pod and a bad answer to the credential check the instance becomes ready and available, and no group is created. |
| `SilentGiveUp.ReadyDespiteServerError` | pkg/service/gerrit/gerrit.go:185-199 | The same read off platform and script alone: both secrets stored, every call working, and a status code from 400 to 505 other than 401 as the one answer to the check. |
| `GroupRuns.PastConfiguring` | controllers/gerrit/gerrit_controller.go:143-250 | Over every run with any failures, kills, stale reads and interference, while there is one pod and no bad code: once this operator moved the phase past configuring the two looked-up groups exist, and all four exist if and only if no reconcile of the run found both looked-up groups without the other two. |
| `GroupRuns.GroupsFrozen` | pkg/service/gerrit/gerrit.go:235-284 | Once the two looked-up groups exist no run creates another one, whatever fails. |
| `GroupRuns.InterruptedSetup` | pkg/service/gerrit/gerrit.go:255-276 | How that comes about: from no groups, when the third or fourth creation fails, no later run completes the groups; a failure of the first or second leaves a state that Configure does not take for complete. |
| `Bootstrap.ConfigureFacts` | pkg/service/gerrit/gerrit.go:101-286 | Every return of Configure under any failures: existing secrets, other accounts and groups are kept; going through (no bad codes) means both looked-up groups exist, and bootstrapped with all four unless one of the others was missing beside them; a return without patch and without error that did not go through is due to the pod count or a bad code. |
| `Bootstrap.ConfiguredStaysPut` | pkg/service/gerrit/gerrit.go:101-286 | On a configured installation Configure sends no command and changes only service ports, whatever calls fail. |
| `Bootstrap.BootstrapIsIdempotent` | pkg/service/gerrit/gerrit.go:101-286 | An unpatched return without error leaves the REST client on the stored admin password and all four groups present, and a second run issues no password change, group creation or patch under any failures. |
| `Bootstrap.CalmConfigure` | pkg/service/gerrit/gerrit.go:101-286 | When calls work, from any groups: Configure patches exactly when the port is pending; otherwise with one pod it goes through exactly when both looked-up groups exist or none of the four does, and fails else; with another number of pods it gives up silently with everything but secrets and ports unchanged. |
| `Bootstrap.ConfigurePatches` | pkg/service/gerrit/gerrit.go:607-623 | A patch happens only while the port is unsettled and settles it; nothing unsettles it again. |
| `Bootstrap.PatchedAtMostOnce` | pkg/service/gerrit/gerrit.go:607-623 | For a fixed positive node port the deployment is patched at most once over any number of runs with any failures, and never when the port is settled. |
| `Bootstrap.SyncPortFacts` | pkg/service/gerrit/gerrit.go:130-157 | Syncing the port keeps the node port, touches only ports, containers and the command log, goes on only when settled, and never patches a settled deployment. |
| `Bootstrap.LoginFacts` | pkg/service/gerrit/gerrit.go:164-215 | Going on after login means one pod, a stored key pair and a REST client that is authorised with the stored password. |
| `Bootstrap.CheckLoginFacts` | pkg/service/gerrit/gerrit.go:179-215 | A client that is already authorised changes nothing; a silent stop needs a bad code. |
| `Bootstrap.AdminIsTouchedLast` | pkg/service/gerrit/gerrit.go:184-215 | Commands are sent only if the stored password is refused, and the admin is set up anew only if the default one is refused as well. |
| `Bootstrap.EnsureGroupsFacts` | pkg/service/gerrit/gerrit.go:219-284 | Going through leaves both looked-up groups, and all four if and only if it did not find both without the others; when both are there nothing is sent. |
| `Bootstrap.CalmEnsureGroups` | pkg/service/gerrit/gerrit.go:219-284 | When calls work: through if and only if both looked-up groups exist or none of the four does, the groups afterwards are exactly those before with the ones created up to the first that existed, and it takes six calls, or sixteen with creation and the set-up of All-Projects. |
| `Bootstrap.CreateGroupsFacts` | pkg/service/gerrit/gerrit.go:255-276 | Creation only adds groups, and adds all of them when it goes through. |
| `Bootstrap.CreateSecretFacts` | pkg/service/platform/k8s/k8s.go:272-305 | Create-if-absent: an existing secret is left as it is, every other field too. |
| `Exposure.ExposeCiFacts` | pkg/service/gerrit/gerrit.go:306-368 | Keeps all stored secrets and the CI account on its stored password; when it goes through and Gerrit answers for itself, the account exists. |
| `Exposure.ExposeArgoFacts` | pkg/service/gerrit/gerrit.go:642-702 | A newly created ArgoCD account has the stored password if and only if no password was stored before the run (or the draw repeated it). |
| `Exposure.ExposeArgoGrants` | pkg/service/gerrit/gerrit.go:642-702 | The only membership it adds is argocd in ReadOnly; when it goes through with no bad codes that one is there if the group exists, and so is the account; only its two secrets are added. |
| `Exposure.ExposeCiGrants` | pkg/service/gerrit/gerrit.go:306-368 | The only memberships it adds are edp-ci in Project Bootstrappers and in Administrators; when it goes through with no bad codes each is there whose group exists; only its two secrets are added. |
| `Exposure.ExposeAccountsFacts` | pkg/service/gerrit/gerrit.go:306-380 | Both together: none of the three memberships is missing whose group exists, no other is added, and all four secrets are stored. |
| `Exposure.CreateUserFacts` | pkg/client/gerrit/gerrit.go:188-215 | Existing accounts keep their passwords; at most the one account is added, with the given password. |
| `Exposure.AddUserFacts` | pkg/client/gerrit/gerrit.go:217-243 | Memberships are only added, and every existing listed group gets the user when it goes through. |
| `CiCredentials.CredentialsStayConsistent` | pkg/service/gerrit/gerrit.go:306-355 | Over every run of the installation, with failures, kills and interference: no stored secret ever changes, and the CI account never gets away from its stored password. |
| `CiCredentials.CiAccountMatchesSecret` | pkg/service/gerrit/gerrit.go:306-355 | Starting without a CI account: whenever it exists, its password is the stored one. |
| `CiCredentials.OnlyServiceAccountsJoin` | pkg/service/gerrit/gerrit.go:355-366 | Over every run with any failures: the only memberships ever added are edp-ci in Project Bootstrappers and Administrators and argocd in ReadOnly, and none is taken away. |
| `DrawnSecrets.SecretsAreDrawn` | pkg/service/gerrit/gerrit.go:115-126 | Over every run with any failures: every secret the operator creates holds a text drawn in that run. |
| `Syncer.SuccessfulTickReflects` | controllers/gerritproject/syncer.go:34-117 | A successful pass leaves every listed project with a resource of that Spec.Name whose branches equal the listed refs, and it creates nothing exactly when every project is in the index. |
| `Syncer.SecondTickCreatesNothing` | controllers/gerritproject/syncer.go:34-146 | After a successful pass, whatever was added since, a further pass on the same projects creates nothing under any failures; when all calls work it succeeds if and only if every project has an owned resource. |
| `Syncer.SyncEachFacts` | controllers/gerritproject/syncer.go:58-88 | The loop over the projects: reflected, indexed or named, and creations exactly for projects outside the index. |
| `Syncer.SyncEachLeavesOthers` | controllers/gerritproject/syncer.go:58-88 | Projects that are not in the loop keep their resources as they are. |
| `Syncer.IndexedIsLastOwned` | controllers/gerritproject/syncer.go:148-160 | The index holds the last owned resource of each project, and nothing for a project without one. |
| `Syncer.NothingToCreate` | controllers/gerritproject/syncer.go:69-80 | When every project is indexed or its name is in use, nothing is created, and success means all are indexed. |
| `Syncer.VisibleFacts` | pkg/client/gerrit/project.go:104-132 | The listing is the projects without All-Projects and All-Users, each once. |
| `SyncerMethods.FilterGerritProjectsByGerrit` | controllers/gerritproject/syncer.go:148-160 | The map built by the two loops has exactly the last-match entries. |
| `SyncerMethods.KeepVisible` | pkg/client/gerrit/project.go:117-131 | The loop that drops the two internal projects. |
| `SyncerMethods.ProjectSyncer.CreateGerritProject` | controllers/gerritproject/syncer.go:119-146 | Adds one unowned resource under the lower-cased name, or fails when the name is taken. |
| `SyncerMethods.ProjectSyncer.SyncProjectBranches` | controllers/gerritproject/syncer.go:90-117 | Rebuilds the branch list by appending and writes it into the resource read in between; a change since the read is a conflict. |
| `SyncerMethods.ProjectSyncer.SyncGerritInstance` | controllers/gerritproject/syncer.go:58-88 | Creates what the index of the snapshot lacks, then syncs the branches, project by project, stopping at the first error (`SyncEach`). |
| `SyncerMethods.ProjectSyncer.SyncBackendProjectsTick` | controllers/gerritproject/syncer.go:34-56 | A whole pass for one Gerrit: list, snapshot, connect, list the projects, sync each (`SyncTick`). |
| `AccessRights.GenerateSetAccessRequest` | pkg/client/gerrit/project_access.go:69-101 | The in-place construction yields exactly `Built`. |
| `AccessRights.BuiltIsFirstWins` | pkg/client/gerrit/project_access.go:69-101 | (ref, permission, group) is in the request if and only if some entry has it, with the values of the first such entry and the label of the first entry of (ref, permission). |
| `AccessRights.BuiltHasNoEmptyPart` | pkg/client/gerrit/project_access.go:69-101 | The request has no section without permissions and no permission without rules. |
| `AccessRights.BuiltOfConcat` | pkg/client/gerrit/project_access.go:69-101 | The request of l + m is the left-biased merge of the requests of l and m. |
| `AccessRights.OrderIsIrrelevant` | pkg/client/gerrit/project_access.go:69-101 | Reordering, or repeating entries of, a list whose entries agree changes nothing. |
| `AccessRights.OrderMatters` | pkg/client/gerrit/project_access.go:69-101 | The condition is exact: entries that disagree make two reorderings build different requests. |
| `AccessRights.AfterAddLookups` | pkg/client/gerrit/project_access.go:39-47 | Add sets the first-listed value of every listed rule and leaves every other rule. |
| `AccessRights.AfterDeleteLookups` | pkg/client/gerrit/project_access.go:59-67 | Delete removes exactly the listed rules. |
| `AccessRights.DeleteLeavesNone` | pkg/client/gerrit/project_access.go:59-67 | After a delete none of the listed rules is left. |
| `AccessRights.DeleteUndoesAdd` | pkg/client/gerrit/project_access.go:39-67 | On a well-formed backend, delete after add restores it if and only if it held none of the listed rules. |
| `AccessRights.AfterUpdateLookups` | pkg/client/gerrit/project_access.go:49-57 | Update sets exactly the first-listed values and leaves every other rule untouched. |
| `AccessRights.AfterUpdateLabel` | pkg/client/gerrit/project_access.go:49-57 | Which label a permission has after an update. |
| `AccessRights.UpdateIsIdempotent` | pkg/client/gerrit/project_access.go:49-57 | Updating twice with the same list is updating once. |
| `EnvMerge.UpdateEnv` | pkg/service/platform/helper/helper.go:74-100 | The two loops compute exactly `Merged`. |
| `EnvMerge.FindEnv` | pkg/service/platform/helper/helper.go:102-110 | First-match search. |
| `EnvMerge.IsStringInSlice` | pkg/service/helpers/helpers.go:89-97 | Membership, both ways. |
| `EnvMerge.SelectContainer` | pkg/service/platform/helper/helper.go:64-72 | The first container of the name, or none exactly when no container has it. |
| `EnvMerge.LookupInMerged` | pkg/service/platform/helper/helper.go:74-110 | Lookup in the merge is lookup in the new list, falling back to the old, also with duplicate names. |
| `EnvMerge.MergedIsAssociative` | pkg/service/platform/helper/helper.go:74-110 | UpdateEnv(UpdateEnv(a, b), c) and UpdateEnv(a, UpdateEnv(b, c)) are the same list, for all lists. |
| `EnvMerge.MergedIsIdempotent` | pkg/service/platform/helper/helper.go:74-110 | Merging the same list again changes nothing. |
| `SshPort.GetDeploymentSshPort` | pkg/service/platform/k8s/k8s.go:157-187 | The scan over the environment of container 0 is `DeploymentPort`. |
| `SshPort.GetServicePort` | pkg/service/gerrit/gerrit.go:592-605 | The node port of the first port named ssh. |
| `SshPort.UpdatePort` | pkg/service/platform/k8s/k8s.go:386-397 | In place: exactly the named ports get port and target port; everything else stays. |
| `SshPort.ListenAddressReadBack` | pkg/service/gerrit/gerrit.go:607-614 | What `*:%d` is read back as, for every int32: the port itself when positive, the magnitude when negative, a parse error for the least value. |
| `SshPort.ListenerWins` | pkg/service/platform/k8s/k8s.go:157-187 | After merging the listener variable the read-back finds it, whatever the environment held. |
| `SshPort.PatchedAt` | pkg/service/platform/k8s/k8s.go:86-118 | A patch changes the environment of the first container of the name and nothing else. |
| `SshPort.OnePatchSettles` | pkg/service/gerrit/gerrit.go:607-623 | When the named container is container 0, one patch settles the loop if and only if the node port is positive. |
| `SshPort.PatchElsewhereIsNeverSeen` | pkg/service/platform/k8s/k8s.go:86-118 | When it is not container 0, the read-back never changes. |
| `SshPort.UpdateKeepsServicePort` | pkg/service/platform/k8s/k8s.go:386-397 | Whatever is written, the node port that is read afterwards is the same. |
| `SshPort.UpdatedPortsSettled` | pkg/service/platform/k8s/k8s.go:386-397 | Writing the same port twice is writing it once; other ports are untouched. |
| `OpenSshKey.MarshalEd25519PrivateKey` | pkg/service/helpers/helpers.go:136-214 | The encoder's output is the PROTOCOL.key encoding of the key, and the decoder returns that key from it. |
| `OpenSshKey.MakePadding` | pkg/service/helpers/helpers.go:189-196 | The loop writes 1, 2, 3, ... into the fresh slice. |
| `OpenSshKey.DecodeEncode` | pkg/service/helpers/helpers.go:136-214 | For all check values and all byte strings whose lengths fit their uint32 fields, decoding the encoding returns the same type, public key, private key and comment, and the check integers agree. |
| `OpenSshKey.EncodeDecode` | pkg/service/helpers/helpers.go:136-214 | The format is canonical: whatever the strict decoder accepts is the encoding of what it returns. |
| `OpenSshKey.HandWrittenPrefix` | pkg/service/helpers/helpers.go:198-208 | The hand-written prefix with a public key is the blob of section 4 of RFC 8709 if and only if the key has 32 bytes. |
| `OpenSshKey.PadUnique` | pkg/service/helpers/helpers.go:186-191 | The pad length is the only one below a block that fills the last block. |
| `ConfigMapCommit.CommitFiles` | controllers/merge_request/controller.go:292-341 | The loop succeeds if and only if every entry decodes and every file operation works; the tree and the list of added paths are those of the entries before the first failure, in its order. |
| `ConfigMapCommit.SetFileContents` | pkg/client/git/client.go:49-67 | Writes one file and leaves all others; an error leaves all files. |
| `ConfigMapCommit.RemoveFile` | pkg/client/git/client.go:69-83 | Removes one file; reports a change if and only if the tree changed; absence is no error, anything else is. |
| `ConfigMapCommit.ProcessedAll` | controllers/merge_request/controller.go:307-331 | The entries before the first failure are all of them if and only if none fails, in the given order. |
| `ConfigMapCommit.EveryDifferenceIsStaged` | controllers/merge_request/controller.go:305-331 | In every order and with any duplicates, each file that differs from the checkout is staged. |
| `ConfigMapCommit.FileOfEntry` | controllers/merge_request/controller.go:305-331 | A file ends as its entry says, or as it was. |
| `ConfigMapCommit.StagedExactly` | controllers/merge_request/controller.go:305-331 | A path is staged if and only if an entry writes it or removes it while the checkout has it. |
| `ConfigMapCommit.OrderIsIrrelevant` | controllers/merge_request/controller.go:305-331 | All iteration orders of entries that agree give the same tree and the same staged paths. |
| `ConfigMapCommit.OrderMatters` | controllers/merge_request/controller.go:305-331 | Entries that disagree on a file give different trees in two of the orders. |
| `BackOff.GetTimeout` | controllers/helper/status.go:38-46 | The delay lies in (0, 1h] for every int64 count. |
| `BackOff.CapExactly` | controllers/helper/status.go:38-46 | The delay is one hour if and only if the count is at least 8 or at most -22. |
| `BackOff.TimeoutMonotone` | controllers/helper/status.go:38-46 | More failures never shorten the delay. |
| `ControllerMethods.SetFailureCount` | controllers/helper/status.go:29-36 | Returns the delay of the old count and raises the count by one, wrapping. |
| `ControllerMethods.SetSuccessStatus` | controllers/helper/status.go:48-51 | Sets OK and resets the count, nothing else. |
| `ControllerMethods.ReconcileMember` | controllers/gerritgroupmember/controller.go:86-127 | Leaves exactly the world of `Reconcile(w, Member)`. |
| `ControllerMethods.TryToReconcileMember` | controllers/gerritgroupmember/controller.go:129-144 | Outcome, world and copy are those of `MemberTry`. |
| `ControllerMethods.ReconcileProject` | controllers/gerritproject/controller.go:90-120 | Leaves exactly the world of `Reconcile(w, Project)`. |
| `ControllerMethods.TryToReconcileProject` | controllers/gerritproject/controller.go:122-161 | Outcome, world and copy are those of `ProjectTry`: create or update first, then the finalizer protocol. |
| `ControllerMethods.CreateOrUpdateProject` | pkg/client/gerrit/project.go:42-92 | The two requests of an update can fail apart. |
| `ControllerMethods.ReconcileAccess` | controllers/gerritprojectaccess/controller.go:85-115 | Leaves exactly the world of `Reconcile(w, Access)`. |
| `ControllerMethods.TryToReconcileAccess` | controllers/gerritprojectaccess/controller.go:135-163 | Outcome, world and copy are those of `AccessTry`. |
| `ControllerMethods.AddOrUpdateRights` | controllers/gerritprojectaccess/controller.go:141-149 | Adds before the status says created, updates afterwards, and does nothing for an empty list. |
| `ControllerMethods.PrepareAccessInfo` | controllers/gerritprojectaccess/controller.go:117-133 | Entry by entry, in order. |
| `ControllerMethods.ReconcileMergeRequest` | controllers/merge_request/controller.go:163-194 | Leaves exactly the world of `Reconcile(w, MergeRequest)`. |
| `ControllerMethods.TryReconcileMerge` | controllers/merge_request/controller.go:196-234 | Outcome, world and copy are those of `MergeTry`, with the status restored after the finalizer protocol. |
| `ControllerMethods.CreateNewChange` | controllers/merge_request/controller.go:236-290 | The status of a new change, or none: also when the deferred removal fails. |
| `ControllerMethods.GetChangeStatus` | controllers/merge_request/controller.go:372-384 | The server's status of the recorded change. |
| `HelperMethods.TryToDelete` | controllers/helper/helper.go:238-268 | Outcome, world and copy are those of `Helper.TryToDelete`. |
| `HelperMethods.GetGerritClient` | controllers/helper/helper.go:207-236 | Outcome, world and copy are those of `Helper.EnsureOwner`. |
| `HelperMethods.GetInstanceOwner` | controllers/helper/helper.go:125-144 | Finds the Gerrit named by the first owner reference of kind Gerrit. |
| `HelperMethods.GetGerritInstance` | controllers/helper/helper.go:156-183 | The first Gerrit without an owner name, else the one of the lower-cased name. |
| `HelperMethods.GetGerritOwner` | controllers/helper/helper.go:146-154 | The first owner reference of kind Gerrit. |
| `HelperMethods.SetOwnerReference` | controllers/helper/helper.go:93-108 | Replaces the owner references by one of the given kind. |
| `HelperMethods.ContainsString` | controllers/helper/helper.go:185-193 | Membership, both ways. |
| `HelperMethods.RemoveString` | controllers/helper/helper.go:195-205 | All occurrences are removed, every other string stays. |
| `HelperMethods.AbandonChange` | controllers/merge_request/controller.go:392-412 | The deletion function of the merge request. |
| `HelperMethods.RemoveFromBackend` | controllers/gerritprojectaccess/controller.go:165-175 | The deletion functions of the other three kinds (`Bystanders.RemovalSpares` says what they spare). |
| `InstallationMethods.UpdateWithRetry` | controllers/gerrit/gerrit_controller.go:286-304 | Mutate, write, refresh on conflict, at most five times: outcome, world and copy are those of `UpdateStatusWithRetry`. |
| `InstallationMethods.ReconcileGerrit` | controllers/gerrit/gerrit_controller.go:98-256 | Leaves exactly the world and platform of `Installation.Reconcile`. |
| `InstallationMethods.AdvancePhase` | controllers/gerrit/gerrit_controller.go:258-270 | Writes the next phase exactly in the given phases. |
| `InstallationMethods.UpdateAvailableStatus` | controllers/gerrit/gerrit_controller.go:272-281 | Writes only when the value changes. |
| `InstallationMethods.ConfigureGerrit` | controllers/gerrit/gerrit_controller.go:165-182 | Goes on after a success and after a silent give-up, returns after a patch or an error. |
| `InstallationMethods.ExposeConfiguration` | pkg/service/gerrit/gerrit.go:289-415 | Accounts, annotations, update, and with Keycloak a second secret and update. |
| `ServiceMethods.ComponentService.Configure` | pkg/service/gerrit/gerrit.go:101-286 | Exit, platform and turns are those of `Bootstrap.Configure`. |
| `ServiceMethods.ComponentService.CreateSecret` | pkg/service/platform/k8s/k8s.go:272-305 | An existing secret is left alone, a missing one is created, a failed call changes nothing (`Bootstrap.CreateSecret`). |
| `ServiceMethods.ComponentService.PatchDeploymentEnv` | pkg/service/platform/k8s/k8s.go:86-118 | Selects the container, merges the environment, patches. |
| `ServiceMethods.ComponentService.UpdateService` | pkg/service/platform/k8s/k8s.go:346-358 | Runs the in-place port update on the fetched ports. |
| `ServiceMethods.ComponentService.GetDeploymentSSHPort` | pkg/service/platform/k8s/k8s.go:157-187 | Reads the port back or fails on an unparsable one. |
| `ServiceMethods.ComponentService.SyncPorts` | pkg/service/gerrit/gerrit.go:130-157 | Reads both ports, writes the service, and patches exactly when they differ or none is configured (`Bootstrap.SyncPort`). |
| `ServiceMethods.ComponentService.CreateSSHKeyPairs` | pkg/service/gerrit/gerrit.go:534-562 | Keeps an existing key pair, else stores a fresh one. |
| `ServiceMethods.ComponentService.LogIn` | pkg/service/gerrit/gerrit.go:164-217 | Stored password first, then the default one with the admin set up again; gives up silently on the pod count or a bad code (`Bootstrap.Login`). |
| `ServiceMethods.ComponentService.SetGerritAdminUserPassword` | pkg/service/gerrit/gerrit.go:564-590 | Sets the account's password, then the client's. |
| `ServiceMethods.ComponentService.SetUpGroups` | pkg/service/gerrit/gerrit.go:219-284 | Looks up two groups and creates all four when one of them is missing (`Bootstrap.EnsureGroups`). |
| `ServiceMethods.ComponentService.AddGroup` | pkg/client/gerrit/group.go:102-130 | Fails on an error answer and on an existing group. |
| `ServiceMethods.ComponentService.LookUpGroup` | pkg/client/gerrit/gerrit.go:85-111 | 404 without a listed group, else the server's answer. |
| `ServiceMethods.ComponentService.CreateUser` | pkg/client/gerrit/gerrit.go:188-215 | Creates the account only on a 404. |
| `ServiceMethods.ComponentService.AddUserToGroups` | pkg/client/gerrit/gerrit.go:217-243 | The loop skips missing groups. |
| `ServiceMethods.ComponentService.ExposeCiUser` | pkg/service/gerrit/gerrit.go:306-368 | The account is created with the stored password, which may be older than this run (`Exposure.ExposeCi`). |
| `ServiceMethods.ComponentService.ExposeArgoCD` | pkg/service/gerrit/gerrit.go:642-702 | The account is created with the password drawn in this run, whatever is stored (`Exposure.ExposeArgo`). |

## Left out

- JSON and HTTP decoding, templates, URL escaping, the URL found in the push message, slugs (a function parameter), error texts (one constant text), timestamps, requeue delays other than the back-off formula, logging.
- Calls that report a failure but took effect, and the deferred clean-up inside the git client's push: a failed call changes nothing.
- Key generation and random texts: taken from the turns. Key texts are taken to be parsable; only a missing key secret makes opening the ssh client fail.
- Floating point: powers of e are exact reals, and the conversion of a value outside int64 gives some number above the cap or not positive.
- The strategic merge of a patch on the API server beyond its effect on the first container of the name; an empty list of variables.
- Endpoint look-ups of an operator running outside the cluster; a service or deployment that does not exist.
- The status fields of all kinds are one record, of which each kind uses its own; fields of specs that no modelled branch reads are dropped. Watch predicates that skip status-only events are not modelled: reconciles may happen at any time.
- Secrets are reduced to one payload each; consistency of ArgoCD's and the CI bot's ssh keys across failed runs does not hold and is not stated.
- Convergence to all groups from some of them: `SilentGiveUp.QuietReadyIff` gives what one reconcile does from any groups.
- Clients that strip the operator's own finalizer, or a deletion that bypasses finalizers.
- Several Gerrit instances in one pass of the syncer (they share one cached REST client), and the three retries of a tick.
- Replication configuration, OpenShift, Helm charts, CRD manifests, group and deployment objects without a finalizer protocol: wiring or easy members.
- AccessRights.AfterAddLookups: Gerrit's "add" is taken to replace the value of a rule that exists already; how Gerrit merges two rules for one group is not modelled.
- InstallationMethods.ConfigureGerrit: the controller's branch for a user-not-found error is left out; only tests construct that error, Configure never returns it.
- HelperMethods.SetOwnerReference: the API version and the controller and blocking flags of the reference are dropped.
- ConfigMapCommit.SetFileContents: a write that fails half-way leaves the file as it was; the clone is removed after an error.
- ControllerMethods.PrepareAccessInfo: references and request entries are one type, so the field-by-field copy is the identity.
- Bootstrap.PatchedAtMostOnce: counts patches that took effect; patch attempts that fail may repeat.
- ServiceMethods.ComponentService.CreateSecret: nobody else creates or deletes secrets between its two calls.
