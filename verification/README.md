# Verified model of the k8sgpt-operator remediation pipeline

The operator lets a language model propose changes to Kubernetes objects. What may happen to the cluster is decided by
deterministic code: a policy gate over JSON trees, an executor that sends a version-tested patch, and a state machine on
`Mutation` objects around both. This project models that code in Dafny and proves what it guarantees, together with the
four stateful pieces beside it: the store of findings with its notifications, the connection cache, the resolution of a
finding to its workload, and the circuit breaker and image check of the analysis loop.

`dafny verify dfyconfig.toml` checks everything.

## How it is organised

| file | models |
|---|---|
| `Strings`, `Gvk`, `Pointer`, `Json` | Go strings, group/version/kind, JSON Pointers (RFC 6901), JSON trees and equality up to null against absent |
| `Diff`, `Gate`, `GateProofs` | `gate.go`: the structural diff, the patch (RFC 6902), the policies and the decision |
| `GateFields` | the same decision, and every table of paths, told on the plain fields of the objects |
| `ImageProposal` | `image_proposal.go`: the compact image selection, and `FromConfig` |
| `Rollout` | `targetReady`: the rollout test of a patched Deployment |
| `Pipeline` | the API server, the Mutations and any number of reconcile passes as one state machine |
| `PipelineInvariant`, `PipelineCommit`, `PipelineSafety` | the invariant, what a successful patch proves, and that every step of every party keeps it |
| `PipelineTheorems`, `PipelineContinuation` | the guarantees over all runs, and exactly when a Mutation can still commit |
| `PipelineResolution`, `PipelineFields` | what a Successful phase rests on, and what a commit changes, told on the plain fields |
| `PipelineScenarios`, `PipelineCompleteness`, `PipelineExample` | what can happen, the end-to-end outcome of an undisturbed answer, and runs from the empty cluster that show both |
| `Reconciler`, `Remediation` | the reconcile pass and the creation loop in the source's own imperative form, shown to be runs of the machine |
| `Results`, `ResultsProofs`, `ResultsNotifications` | the Result store with passes that fail midway, its convergence, and when findings are sent |
| `ConnectionCache` | `clientFor` and `closeClientFor` |
| `Selectors`, `Ownership`, `Eligibility` | selectors, the ownership walk, and the conversion of findings to targets |
| `CircuitBreaker`, `ImageUri` | the AI circuit breaker, and the image URI parser with the staleness test |

The state machine of `Pipeline` makes every source of nondeterminism a parameter of an action. A read may return any
version the server ever held, third parties may store, delete and re-create targets and delete Mutations at any time, a
reply may be lost after the write, and a pass may die between any two of its calls. `After(run)` is defined for every
sequence of actions, so a statement about `After(run)` holds in every interleaving. What is assumed of the API server is
in `MayStore` and `FreshVersion`: a resource version is not reused for a key, a UID is never reused, a write that changes
nothing stores nothing, and a stored write differs from what was sent only in `resourceVersion`, `generation` and
`managedFields`. An update of a Mutation is a compare-and-swap on its own version, because its resource has no status
subresource (config/crd/bases/core.k8sgpt.ai_mutations.yaml:176).

## Where the code and its documentation part ways

- **Aborted does not always mean not applied.** When the patch commits but the status update is lost, the retry sees
  another resource version and aborts; a run from the empty cluster does it (`PipelineExample.SomeRunAbortsAfterItsCommit`).
  The note of the status tells: a Mutation aborted for any other reason than a changed UID or resource version has
  committed nothing and never will (`PipelineTheorems.AbortedOnMeritNeverCommits`).
- **Neither an end phase nor its deletion stops a Mutation.** The pass that removes the last finalizer goes on with the
  phase switch and can still patch (`PipelineExample.SomeRunCommitsAfterItsEnd`), and a pass on a stale cache can still
  read a revision in progress. What stops it, exactly, is the target: once a revision with an allowed proposal was stored,
  the Mutation can still commit as long as the target is the version of the snapshot, and no longer
  (`PipelineContinuation.CanCommitIffCurrent`).
- **A new finding is sent twice.** The status written at creation is dropped by the status subresource
  (config/crd/bases/core.k8sgpt.ai_results.yaml:131-132), so the second pass takes the finding for an update
  (`ResultsNotifications.SentInPassIff`).
- **A sink configured by its secret alone never falls silent**, because the empty endpoint cannot be remembered (same lemma).
- **A change can go unannounced for ever.** A pass updates the entry, with the new hash and the old endpoint, and announces
  it later. If it dies in between, every later pass takes the entry for unchanged and already sent
  (`ResultsNotifications.SilentChangeIsNeverSent`, from the empty store). After any history a finding is sent by some
  later successful pass unless its entry is taken for unchanged and there was news of the entry, and that news either
  reached the sink or slipped in this way or by way of a torn update (`ResultsNotifications.NotificationsIff`).
- **A torn update is never repaired.** The specification of a Result and its content hash are written by two calls. If the
  second one fails or the process dies in between, the entry holds new content under the hash of the old, and once the
  analysis goes back to the old content every later pass takes the entry for unchanged
  (`ResultsProofs.TornUpdateIsNeverRepaired`, from the empty store). After any history of whole passes, passes that failed
  midway and deletions, a finding's Result agrees with it after a successful pass exactly when this is not its case
  (`ResultsProofs.PassConvergesIff`). A hand-edited specification under an intact hash stays in the same way
  (`ResultsProofs.EditedSpecIsNotRepaired`).
- **Distinct findings can share one Result**, because dashes and slashes are dropped from names (`Results.NamesCollide`).
- **A selector with a leading slash** resolves a kind but enables it only when another entry of the list selects it too
  (`Selectors.ResolvedIsEnabledIff`, `Selectors.SlashResolvesButDoesNotEnable`).
- **A version left to default never settles.** Every pass writes `latest` back through Sync, judges it stale, and updates
  it to an empty tag, which the next pass overwrites again (`ImageUri.DefaultVersionAlternates`). An image settles exactly
  when a version is asked for and the image can be read back (`ImageUri.SettledIff`).
- **The breaker opens on the failure after the one that exceeds the retries**: at `MaxRetries + 2` failures in a row.

## Model

| member | source | states |
|---|---|---|
| Pointer.UnescapeOfEscape | internal/controller/remediation/policy/gate.go:379-381 | decoding by section 4 of RFC 6901 undoes the escaping of every key, so escaping is injective |
| Pointer.EscapeHidesSlash | internal/controller/remediation/policy/gate.go:379-381 | an escaped key never holds a raw separator |
| Pointer.ParseOfRender | internal/controller/remediation/policy/gate.go:341-362 | the pointer calculated for a tree location is read back to exactly that location |
| Pointer.TextualPrefixIsAncestor | internal/controller/remediation/policy/gate.go:296 | the textual test of a path against a prefix is exactly the ancestor-or-self test on tree locations |
| Json.EqvIffSameCanon | internal/controller/remediation/policy/gate.go:342-362 | two trees are equal up to null against absent exactly when their forms without nulls coincide |
| Diff.Diff | internal/controller/remediation/policy/gate.go:325-371 | the changes are the edits between the two trees, each at the pointer of its location below the given path |
| Diff.DiffMaps | internal/controller/remediation/policy/gate.go:326-346 | the loop over the sorted union of the keys yields the edits of all keys in that order |
| Diff.DiffLists | internal/controller/remediation/policy/gate.go:347-366 | the loop to the longer length yields the edits of all indices, a missing element standing for null |
| Diff.DiffEmptyIffSameCanon | internal/controller/remediation/policy/gate.go:325-371 | there is no edit exactly when the trees are equal up to null against absent |
| Diff.EditsRecord | internal/controller/remediation/policy/gate.go:367-370 | every edit carries the values found at its location in both trees, and they really differ |
| Diff.EditsCover | internal/controller/remediation/policy/gate.go:325-371 | nothing else differs: at every location no edit lies above or below, the trees are equal up to null against absent |
| Diff.DiffPatches | internal/controller/remediation/policy/gate.go:170-183 | when no edit is an addition, applying all replacements yields the new tree up to null against absent |
| Diff.DiffApart | internal/controller/remediation/policy/gate.go:325-371 | no edited location equals another or lies above it |
| Diff.ReplaceCommutes | internal/controller/remediation/policy/gate.go:182 | replacements at independent locations commute, failures included |
| Diff.OrderDoesNotMatter | internal/controller/remediation/policy/gate.go:170-183 | the operations of one decision give the same tree in every order |
| Diff.PatchIsEdits | internal/controller/remediation/policy/gate.go:170-183 | a patch engine that reads the pointers applies exactly the edits they were printed from |
| Gate.Normalize | internal/controller/remediation/policy/gate.go:307-316 | the copy is the object without status and the seven bookkeeping fields |
| Gate.AnnotationAllowedPaths | internal/controller/remediation/policy/gate.go:189-199 | the allowlist is the set of trimmed entries that start with a slash |
| Gate.IsRiskyAmong | internal/controller/remediation/policy/gate.go:287-305 | a path is risky exactly when some listed prefix covers it and is not exempted for images |
| Gate.JudgeChange | internal/controller/remediation/policy/gate.go:170-181 | a change is refused for the first of: high risk, not allowlisted, addition or removal; and for nothing else |
| Gate.CollectPatch | internal/controller/remediation/policy/gate.go:170-183 | the first refusal in order, or one replacement per change |
| Gate.JudgeChanges | internal/controller/remediation/policy/gate.go:156-186 | the decision on the changes with the limit, its default and its sign |
| Gate.SelectPolicy | internal/controller/remediation/policy/gate.go:139-147 | the registered policy, else the live object's own allowlist, else none |
| Gate.CalculateChanges | internal/controller/remediation/policy/gate.go:152-154 | the changes between the two normalised objects |
| Gate.Evaluate | internal/controller/remediation/policy/gate.go:126-187 | the whole decision, every rejection in the source's order |
| GateProofs.NormalizedApply | internal/controller/remediation/policy/gate.go:152-154 | applying admitted operations to the stored object and normalising commute |
| GateProofs.AdmittedIff | internal/controller/remediation/policy/gate.go:126-187 | a proposal is allowed exactly when the live object is the version of the snapshot and the proposal's target, a policy exists, it is no owned Pod, and there is at least one edit, no more than the limit, none risky, unlisted, an addition or a removal |
| GateProofs.AdmittedPatchIsTheProposal | internal/controller/remediation/policy/gate.go:152-186 | the admitted patch applies to the live object, each operation hits an existing non-null location, and outside status and bookkeeping the outcome is the proposal |
| GateProofs.AdmittedPatchIsEffective | internal/controller/remediation/policy/gate.go:156-158 | an admitted patch always changes the object, beyond null against absent |
| GateProofs.AdmittedPatchKeepsPermissions | internal/controller/remediation/policy/gate.go:139-176 | for a named object, owner references, finalizers, annotations, labels, status, bookkeeping and identity survive, so the next proposal meets the same policy |
| GateProofs.ImagePathLanguage | internal/controller/remediation/policy/gate.go:270-285 | the image test accepts exactly prefix, one or more digits, and the image suffix, overlaps included |
| GateProofs.ImagePathsAreNotHighRisk | internal/controller/remediation/policy/gate.go:287-305 | no path a registered image policy accepts is ever classed as high risk |
| GateProofs.RegisteredPolicyChangesOneImage | internal/controller/remediation/policy/gate.go:159-183 | under a registered policy an allowed decision replaces exactly one existing container image of the kind's own pod specification, and every other location, list length and key set stays |
| GateProofs.ReportedPathsAreIndependent | internal/controller/remediation/policy/gate.go:325-371 | the reported paths are pairwise distinct and none is an ancestor of another |
| GateFields.AllowedOnFields | internal/controller/remediation/policy/gate.go:126-187 | admission on the plain fields: the live object carries the UID and resource version of the snapshot, both non-empty, and the same identity, the proposal claims no other, a policy exists, and the number and kind of the edits are permitted |
| GateFields.FirstMismatch | internal/controller/remediation/policy/gate.go:224-256 | which field differs first decides the reason: UID, then resource version, then identity, then the identity of the proposal |
| GateFields.KindOfGroup | internal/controller/remediation/policy/gate.go:139 | an API version "group/version" gives that group and version |
| GateFields.KindOfCore | internal/controller/remediation/policy/gate.go:139 | an API version without a slash is of the core group |
| GateFields.NormalizedIs | internal/controller/remediation/policy/gate.go:307-316 | left out are the status and the seven named metadata fields, and nothing else |
| GateFields.OwnedPodIsNeverAllowed | internal/controller/remediation/policy/gate.go:148-150 | for a v1 Pod with a non-empty list of owner references, of any length, nothing is allowed, whatever is proposed |
| GateFields.UnownedIsNotRefusedAsOwned | internal/controller/remediation/policy/gate.go:148-150 | with the field absent or the list empty, ownership is never the reason |
| GateFields.RegisteredIff | internal/controller/remediation/policy/gate.go:79-111 | the seven registered kinds |
| GateFields.RegisteredPaths | internal/controller/remediation/policy/gate.go:258-285 | each registered kind permits exactly the images in the two container lists of its own pod specification, as locations |
| GateFields.HighRiskIff | internal/controller/remediation/policy/gate.go:287-305 | high risk are, as locations, the metadata lists, the status, five fields of either pod specification, and anything in their container lists that is not called image |
| GateFields.AllowlistIs | internal/controller/remediation/policy/gate.go:189-199 | a path is in the allowlist of an object exactly when it starts with a slash and is a trimmed part between commas of the annotation |
| GateFields.NothingAllowlisted | internal/controller/remediation/policy/gate.go:189-199 | without annotations the allowlist is empty |
| GateFields.MalformedAnnotationsAllowNothing | internal/controller/remediation/policy/gate.go:190 | one annotation that is neither a string nor null leaves the allowlist empty |
| GateFields.FirstRefusalIs | internal/controller/remediation/policy/gate.go:170-183 | a refusal is that of the first change that is refused, and there is none exactly when no change is |
| GateFields.ReplacementsAre | internal/controller/remediation/policy/gate.go:182 | the patch has one replacement for each change, at its path and with its new value, in order |
| ImageProposal.Unstructured.SetContainerImage | internal/controller/mutation/image_proposal.go:51-69 | it succeeds exactly when one of the six lists holds a map of that name; then the first such entry, in order of lists and indices, has the new image, and every location apart from it is as it was; otherwise nothing changes |
| ImageProposal.ImageSelectionProposal | internal/controller/mutation/image_proposal.go:22-49 | a full manifest passes through, a well-formed selection of a container that is there becomes the origin with the image of the first container of that name, anything else is refused |
| ImageProposal.FromConfigOfOwnIdentity | internal/controller/util/from_config.go:33-35 | forcing an object's own name and namespace onto it changes nothing |
| ImageProposal.OtherContainersStay | internal/controller/mutation/image_proposal.go:57-68 | in all six lists, every container of another name is unchanged in the object that was written |
| ImageProposal.ProposalMeans | internal/controller/mutation/image_proposal.go:22-49 | a manifest is the proposal itself; otherwise there is one exactly for a selection of one line whose container is in one of the six lists, and it differs from the origin in the image of the first container of that name |
| ImageProposal.FromConfigForces | internal/controller/util/from_config.go:33-35 | name and namespace of the reference replace those of the configuration, an empty one removes the field, and nothing else changes |
| ImageProposal.CompactProposalIsJudgedExactly | internal/controller/mutation/image_proposal.go:37-69 | the gate admits a compact proposal exactly when the chosen container is in the kind's own lists with another non-null image, with exactly that replacement; an equal image is rejected as no change |
| PipelineSafety.StepOk | internal/controller/mutation/mutation_controller.go:78-222 | every action of every party keeps the invariant and forgets nothing |
| PipelineSafety.ReachableOk | internal/controller/mutation/mutation_controller.go:78-222 | the invariant holds after every run |
| PipelineCommit.SnapshotIdentifies | internal/controller/conversions/to_eligible_resource.go:140-158 | the origin snapshot keeps UID, resource version and identity of the object it was taken from |
| PipelineCommit.MatchingOrigin | internal/controller/remediation/policy/gate.go:224-235 | a stored version that matches a snapshot is the very version the snapshot was taken from |
| PipelineCommit.TestedVersion | internal/controller/conversions/object_to_execution.go:46-50 | the patch applies only to the tested resource version and then does what follows the test |
| PipelineCommit.PatchHitsJudgedVersion | internal/controller/conversions/object_to_execution.go:46-63 | when the patch succeeds, the stored object is the one the gate judged, and the patch changes it |
| PipelineTheorems.EveryCommitIsExact | internal/controller/conversions/object_to_execution.go:28-63 | in every run each commit happened on the exact version of its Mutation's snapshot and stored the approved patch of it, for a proposal that Mutation held in progress |
| PipelineTheorems.ControllerStepsRespectOtherWriters | internal/controller/conversions/object_to_execution.go:46-63 | in every run a step of the controller changes no target, or replaces one whose current version is the snapshot: no concurrent write is overwritten |
| PipelineTheorems.OneCommitPerVersion | internal/controller/conversions/object_to_execution.go:41-72 | each version of a target is committed on at most once |
| PipelineTheorems.SharedSnapshotCommitsOnce | internal/controller/conversions/object_to_execution.go:41-72 | two Mutations whose snapshots name the same UID and resource version never both commit |
| PipelineTheorems.AtMostOneCommitEach | internal/controller/conversions/object_to_execution.go:41-72 | no Mutation commits twice, over any run with crashes, lost replies, retries and stale reads |
| PipelineTheorems.AbortedOnMeritNeverCommits | internal/controller/conversions/object_to_execution.go:41-86 | over all runs, a Mutation ever aborted for another reason than a changed UID or resource version has committed nothing, now or later |
| PipelineTheorems.StoredPhasesMeanWhatTheySay | internal/controller/conversions/object_to_execution.go:64-86 | not started means no commit; completed, pending and successful mean exactly one commit, approved, applied, with its paths recorded; aborted means rejected and not recorded as applied, with no commit unless the note is a changed UID or resource version; and a successful Deployment was stored, under the UID of the snapshot, in a version that had rolled out |
| PipelineTheorems.PhasesOnlyMoveForward | internal/controller/mutation/mutation_controller.go:108-221 | over any run the stored phases of a Mutation only move forward, none returns, and there are at most four changes |
| PipelineTheorems.FinalPhasesAbsorb | internal/controller/mutation/mutation_controller.go:207-221 | no other phase of a Mutation is stored after Successful or Aborted |
| PipelineResolution.SuccessfulWasResolved | internal/controller/mutation/mutation_controller.go:249-285 | over all runs, a revision is stored as Successful only after a pass on that very Mutation looked, in phase Completed or Pending, found its target ready and did not find its Result |
| PipelineFields.EveryCommitChangesOneValue | internal/controller/conversions/object_to_execution.go:41-63 | over all runs, every commit replaces exactly one value that is not null by another, on a path that is not of high risk, and its decision reports exactly that change |
| PipelineFields.NewMutationRefers | internal/controller/k8sgpt/calculate_remediation_step.go:70-76 | a new Mutation refers to the kind, namespace and name of the object it was created for |
| PipelineFields.ProposedIs | internal/controller/mutation/mutation_controller.go:183-204 | a stored configuration with a kind is proposed under the name and namespace referred to |
| PipelineContinuation.PatchedCanBeStored | internal/controller/conversions/object_to_execution.go:61-63 | whatever else the server holds, the patched object can be stored in place of the judged one under any version new to its key |
| PipelineContinuation.PastStays | internal/controller/conversions/object_to_execution.go:46-63 | a version of a target that was replaced or deleted is never current again, whoever acts |
| PipelineContinuation.CanCommitIffCurrent | internal/controller/mutation/mutation_controller.go:94-206 | after any run, with a stored revision in progress whose proposal the gate allows on its snapshot, some continuation commits for the Mutation exactly when its target is still the version of the snapshot, whatever the stored phase, whether or not it is being deleted, and whether or not it still exists |
| PipelineScenarios.LaterVersionIsRejected | internal/controller/remediation/policy/gate.go:228-230 | after its commit a Mutation is rejected on every other version of the target |
| PipelineScenarios.LostReplyEndsAborted | internal/controller/conversions/object_to_execution.go:61-72 | from every state about to patch for a current Mutation, losing the reply and retrying leaves the target patched and the Mutation Aborted |
| PipelineScenarios.DeletedMutationStillCommits | internal/controller/mutation/mutation_controller.go:94-108 | the pass that releases a deleted Mutation goes on to patch, and its outcome can never be recorded |
| PipelineCompleteness.SnapshotJudgedAlike | internal/controller/conversions/to_eligible_resource.go:140-141 | dropping managedFields from origin and proposal changes neither the decision nor the edits |
| PipelineCompleteness.CompactAllowed | internal/controller/mutation/image_proposal.go:37-69 | the gate allows an improving compact answer built on the snapshot, and the patch is the one image |
| PipelineCompleteness.UndisturbedAnswerIsCarriedOut | internal/controller/mutation/mutation_controller.go:109-206 | a well-formed answer that improves a container of the kind's own specification, carried through undisturbed, ends with exactly that image replaced and a Completed Mutation that says so |
| PipelineExample.OutcomeCanBeStored | internal/controller/conversions/object_to_execution.go:61-63 | whatever the server holds, it can store the improved object under any version new to its key, so the end-to-end statement always has an outcome |
| PipelineExample.SomeRunCompletes | internal/controller/conversions/object_to_execution.go:64-73 | a run from the empty cluster ends with a Completed Mutation |
| PipelineExample.SomeRunAbortsAfterItsCommit | internal/controller/conversions/object_to_execution.go:61-72 | a run from the empty cluster ends with an Aborted Mutation that has made one persistent patch |
| PipelineExample.SomeRunCommitsAfterItsEnd | internal/controller/mutation/mutation_controller.go:94-108 | after a run from the empty cluster a deleted Mutation is gone and has committed nothing, and a continuation commits for it |
| Rollout.CheckDeployment | internal/controller/mutation/mutation_controller.go:304-323 | an error for another UID or a malformed number, otherwise whether the generation is observed and enough replicas are available |
| Rollout.DeploymentReadyIff | internal/controller/mutation/mutation_controller.go:307-323 | on the fields: ready exactly when the observed generation is not behind the generation and there are as many available replicas as specified, one when none are |
| Rollout.MalformedIsAnError | internal/controller/mutation/mutation_controller.go:307-321 | anything but a whole number where one is read is an error |
| Rollout.OtherTargets | internal/controller/mutation/mutation_controller.go:290-306 | a Deployment that is gone or carries another UID than the snapshot is an error, and a target that is no Deployment is ready untested |
| Reconciler.TargetReady | internal/controller/mutation/mutation_controller.go:290-323 | a target that is no Deployment is ready without a read; a Deployment is read under the referenced name and tested |
| Reconciler.ApiServer.NowIsAfter | internal/controller/mutation/mutation_controller.go:78-222 | whatever the passes and the others did to the server, it is in the state the pipeline reaches by that run |
| Reconciler.ApiServer.Interfere | internal/controller/mutation/mutation_controller.go:78-222 | whatever others do between two calls is added to the run as it is and does not move this pass |
| Reconciler.ApiServer.Update | internal/controller/mutation/mutation_controller.go:102-105 | an update succeeds exactly on the current version, and an unchanged one stores nothing |
| Reconciler.ApiServer.PatchTarget | internal/controller/conversions/object_to_execution.go:61-63 | the server applies the operations to what it holds now, or refuses and changes nothing |
| Reconciler.WithoutFinalizerKeepsOthers | internal/controller/mutation/mutation_controller.go:224-232 | every occurrence of the finalizer goes, every other stays as often as it was |
| Reconciler.RemoveFinalizer | internal/controller/mutation/mutation_controller.go:224-232 | the loop leaves the other finalizers in order |
| Reconciler.Release | internal/controller/mutation/mutation_controller.go:94-106 | the finalizer of a deleted Mutation is removed by a compare-and-swap, the pass goes on with the revision written, and ends exactly when the write is refused; without need nothing is written |
| Reconciler.Ask | internal/controller/mutation/mutation_controller.go:109-174 | what is recorded is the proposal of the answer in progress, or the refusal of an invalid one, field by field |
| Reconciler.DoesResultExist | internal/controller/mutation/mutation_controller.go:249-285 | what is recorded is Successful exactly when the rollout test held on the version read and the lookup did not find the Result, Pending otherwise; nothing but phase, note and version changes, and errors record nothing |
| Reconciler.DecisionPaths | internal/controller/conversions/object_to_execution.go:88-94 | the paths of the changes, in order |
| Reconciler.RejectMutation | internal/controller/conversions/object_to_execution.go:76-86 | the refused Mutation: Aborted, rejected, the first reason, the paths |
| Reconciler.CompleteMutation | internal/controller/conversions/object_to_execution.go:64-69 | the executed Mutation: Completed, approved, applied, the paths |
| Reconciler.Validate | internal/controller/conversions/object_to_execution.go:58-60 | the dry run succeeds exactly when admission and the server, which tests the resource version, accept the patch; a failed one changes nothing and ends the pass |
| Reconciler.Commit | internal/controller/conversions/object_to_execution.go:61-63 | the one call is the tested patch of the judged version; the server holds its outcome and the record of it exactly when it accepts the operations, and the pass goes on exactly when the reply arrives as well |
| Reconciler.Execute | internal/controller/conversions/object_to_execution.go:25-74 | besides what others do the pass only judges, tries, patches and writes its status, and what is recorded is the approval or the refusal of the version that was read |
| Reconciler.Dispatch | internal/controller/mutation/mutation_controller.go:108-222 | each phase does only what is its own, and what is recorded is the revision its answers determine; nothing is recorded in a final phase |
| Reconciler.Reconcile | internal/controller/mutation/mutation_controller.go:78-222 | the run grows by what others do, in order and no more, and by calls of the kinds of its phase; each of its own calls leaves the targets alone or replaces the version of the snapshot; a recorded outcome is the one the answers determine, is stored, and means what its phase says |
| Remediation.CreateMutations | internal/controller/k8sgpt/calculate_remediation_step.go:58-94 | only wanted Mutations are created and nothing else is touched: existing Mutations and targets stay, each new Mutation holds the snapshot of the version read, and on success every wanted name exists |
| Remediation.NewMutationIs | internal/controller/k8sgpt/calculate_remediation_step.go:58-79 | the new Mutation field by field: under its finalizer, not started, referring to the object by namespace and name, holding it without managedFields |
| Results.MapResults | pkg/resources/results.go:69-97 | the desired Results by name, with the labels and the backend of the resource |
| Results.MappedIsLast | pkg/resources/results.go:75-95 | of several findings with one name the last decides, and no other name appears |
| Results.MappedAre | pkg/resources/results.go:69-112 | on the fields: each desired Result bears the specification, labels and backend of the last finding with that name, and every finding has one |
| Results.SameContentIff | pkg/resources/results.go:28-67 | two specifications hash alike exactly when kind, name, parent, target and the texts of the errors agree |
| Results.NamesCollide | pkg/resources/results.go:76-77 | dropping dashes and slashes makes distinct findings share a Result |
| Results.Notify | internal/controller/k8sgpt/resultStatus_step.go:101-112 | when a Result is emitted, and what its webhook field becomes |
| Results.ResultStore.CleanUpStaleResults | internal/controller/k8sgpt/analysis_step.go:187-215 | the selected Results whose names the analysis no longer gives are deleted, all of them unless a call fails |
| Results.ResultStore.CreateOrUpdateResult | pkg/resources/results.go:114-170 | create without status, historical on equal hash and labels, update of specification and then status otherwise, with exactly what is left when a call fails at any point; no other entry changes |
| Results.ResultStore.ProcessRawResults | internal/controller/k8sgpt/analysis_step.go:217-254 | every desired Result is created or updated once, in whatever order, until a call fails, with at most one torn update |
| Results.ResultStore.ProcessLatestResults | internal/controller/k8sgpt/resultStatus_step.go:94-118 | exactly the selected Results that are due are sent, and their statuses are written, unless a call fails |
| Results.ResultStore.Pass | internal/controller/k8sgpt/analysis_step.go:71-94 | a successful pass of both steps is a function of the store; a failed one leaves the store it has come to, and enough accepted calls make it succeed |
| ResultsProofs.DishonestIffTorn | pkg/resources/results.go:152-166 | after any history from the empty store, an entry holds the hash of other content exactly when an update of it was torn and nothing has written its content or hash, or deleted it, since |
| ResultsProofs.PassConvergesIff | internal/controller/k8sgpt/analysis_step.go:187-254 | after any history of whole passes, passes that failed midway and deletions by any number of resources, a successful pass leaves exactly the names of the analysis, touches nothing unrelated, and each Result agrees with its finding exactly when it is not taken for unchanged after a torn update |
| ResultsProofs.OtherResourcesStay | internal/controller/k8sgpt/analysis_step.go:187-254 | a pass neither changes, deletes nor sends what another K8sGPT resource labelled, one of another name or another namespace, unless a finding of its own has that very key |
| ResultsProofs.UntornHistoryConverges | internal/controller/k8sgpt/analysis_step.go:187-254 | passes that failed anywhere but between the two writes of an update are made good by the next successful one |
| ResultsProofs.MisledForEver | pkg/resources/results.go:142-151 | an entry that misleads one pass misleads every later pass over the same findings |
| ResultsProofs.TornUpdateIsNeverRepaired | pkg/resources/results.go:142-166 | from the empty store, an update torn between two findings of one name and a return to the first leave an entry no number of successful passes repairs |
| ResultsProofs.UpsertAgreesIff | pkg/resources/results.go:142-151 | an entry agrees afterwards exactly when it was not taken for unchanged under a hash of other content |
| ResultsProofs.EditedSpecIsNotRepaired | pkg/resources/results.go:142-151 | an edited specification under an intact status is not repaired |
| ResultsNotifications.SentInPassIff | internal/controller/k8sgpt/resultStatus_step.go:101-115 | exactly in which error-free passes over constant findings and configuration a finding is sent; with an endpoint in the first two at most |
| ResultsNotifications.ChangeIsAlwaysSent | pkg/resources/results.go:154-167 | a pass that succeeds sends every finding whose hashed content or labels differ from its stored entry |
| ResultsNotifications.NotedIffNews | internal/controller/k8sgpt/resultStatus_step.go:94-118 | after any history with passes that failed midway, an entry carries an endpoint exactly when there was news of it, sent or slipped, and nothing since has touched its hash, labels or endpoint |
| ResultsNotifications.NotificationsIff | internal/controller/k8sgpt/resultStatus_step.go:94-118 | after any such history and with an endpoint, a finding is sent by some later successful pass exactly unless its entry is taken for unchanged and the last news of it was told or slipped; never both |
| ResultsNotifications.ToldAgrees | pkg/resources/results.go:142-151 | what was told of an entry that is taken for unchanged had the very content and labels of the finding |
| ResultsNotifications.UninterruptedTells | internal/controller/k8sgpt/resultStatus_step.go:94-118 | without passes that fail nothing slips |
| ResultsNotifications.SilentChangeIsNeverSent | internal/controller/k8sgpt/resultStatus_step.go:94-105 | from the empty store, a pass that dies between the update of a settled finding and its announcement leaves a change that no later pass sends and no earlier one sent |
| ConnectionCache.K8sGPTReconciler.ClientFor | internal/controller/k8sgpt/k8sgpt_controller.go:102-128 | the connection is reused for an unchanged address, otherwise closed and dialled anew; other keys are untouched |
| ConnectionCache.K8sGPTReconciler.CloseClientFor | internal/controller/k8sgpt/k8sgpt_controller.go:132-146 | the key is forgotten and its connection closed, and a missing key is left alone |
| ConnectionCache.K8sGPTReconciler.OpenIsCached | internal/controller/k8sgpt/k8sgpt_controller.go:74-83 | there are as many open connections as cached keys |
| ConnectionCache.HeldIffLastDialled | internal/controller/k8sgpt/k8sgpt_controller.go:102-146 | a key is held with an address exactly when some call asked for it and could have dialled it, and no later call for the key closed it or asked for another address |
| ConnectionCache.Serve | internal/controller/k8sgpt/k8sgpt_controller.go:102-146 | after any sequence of calls with dial failures, every connection ever dialled is cached and open or closed exactly once, and each key is cached with exactly the address last dialled for it |
| Selectors.AutoRemediationResourceEnabled | internal/controller/conversions/to_eligible_resource.go:25-39 | enabled exactly when some trimmed selector is the kind, group and kind, or API version and kind |
| Selectors.SelectsByKind | internal/controller/conversions/to_eligible_resource.go:29-37 | a selector without a slash selects exactly the kinds of that name |
| Selectors.SelectsByPair | internal/controller/conversions/to_eligible_resource.go:29-37 | a selector of two parts selects exactly the kind of that group, or of that version of the core group |
| Selectors.SelectsByTriple | internal/controller/conversions/to_eligible_resource.go:29-37 | a selector of three parts selects exactly that group, version and kind |
| Selectors.TrimmedIs | internal/controller/conversions/to_eligible_resource.go:30 | trimming keeps exactly what stands between the white space at both ends |
| Selectors.ConfiguredLegacyGVK | internal/controller/conversions/to_eligible_resource.go:92-107 | the one GVK the list offers for a kind, if it offers one only |
| Selectors.TripleIsQualified | internal/controller/conversions/to_eligible_resource.go:109-132 | three parts are group, version and kind, unless the kind is empty |
| Selectors.PairIsQualified | internal/controller/conversions/to_eligible_resource.go:115-120 | two parts are version and kind of the core group exactly when the first starts with a v and goes on and the kind is not empty |
| Selectors.NothingElseIsQualified | internal/controller/conversions/to_eligible_resource.go:121-123 | one part, or more than three, are no qualified selector |
| Selectors.ApiVersionParses | internal/controller/conversions/to_eligible_resource.go:55 | one part is a version of the core group, two are group and version, more are an error |
| Selectors.LegacyIffExactlyOne | internal/controller/conversions/to_eligible_resource.go:92-107 | a kind resolves exactly when one entry of the list qualifies, and to what that entry parses to |
| Selectors.OrderDoesNotMatter | internal/controller/conversions/to_eligible_resource.go:25-107 | neither resolution nor permission depends on the order of the selectors |
| Selectors.PrintsBackIff | internal/controller/conversions/to_eligible_resource.go:109-132 | a fully qualified selector prints back to itself exactly when it has no leading slash |
| Selectors.ResolvedIsEnabledIff | internal/controller/conversions/to_eligible_resource.go:65-72 | for every list, the GVK it resolves is enabled exactly when its qualifying entry has no leading slash or another entry selects it |
| Selectors.SlashResolvesButDoesNotEnable | internal/controller/conversions/to_eligible_resource.go:109-132 | alone in the list, a selector of version and kind with a leading slash resolves the kind and does not enable it |
| Ownership.ControllerOwner | internal/controller/conversions/to_eligible_resource.go:193-200 | the first owner marked as controller |
| Ownership.ResolveOwningWorkload | internal/controller/conversions/to_eligible_resource.go:166-191 | the first enabled controller ancestor within eight hops, the original Pod if the chain ends before, an error otherwise |
| Ownership.ResolutionIsUnique | internal/controller/conversions/to_eligible_resource.go:166-191 | over any graph, cycles included, that description allows one answer only |
| Ownership.EnabledOwnerIsAnswered | internal/controller/conversions/to_eligible_resource.go:177-188 | a chain of at most eight owners, each the first one marked as controller in the object before, by the name and kind of its reference and what its API version parses to, only the last of them enabled: its last node is the answer |
| Ownership.AnswerHasChain | internal/controller/conversions/to_eligible_resource.go:166-191 | every answer but the Pod itself is the end of such a chain |
| Ownership.UncontrolledIsAnswered | internal/controller/conversions/to_eligible_resource.go:177-180 | the Pod itself is the answer for a chain that ends, with none enabled, at an object nothing controls |
| Ownership.AnswerIsLedTo | internal/controller/conversions/to_eligible_resource.go:166-191 | there is an answer only in these two ways |
| Ownership.PodOfReplicaSet | internal/controller/conversions/to_eligible_resource.go:185-188 | one hop: a Pod controlled by an enabled ReplicaSet is answered with the name in that reference |
| Ownership.NeverAnIntermediateOwner | internal/controller/conversions/to_eligible_resource.go:166-191 | the namespace never changes, and an owner is answered only when it is enabled |
| Eligibility.LegacyNameIff | internal/controller/conversions/to_eligible_resource.go:62-71 | a legacy name is read as namespace and name exactly when both are non-empty and free of slashes |
| Eligibility.TargetIgnoresOrder | internal/controller/conversions/to_eligible_resource.go:50-90 | target resolution is independent of the order of the selectors |
| Eligibility.ExactReferenceYields | internal/controller/conversions/to_eligible_resource.go:50-60 | an exact reference to another kind than v1 Pod yields exactly the snapshot of the object under that kind, namespace and name, when the kind is enabled and UID and version agree where given |
| Eligibility.MalformedReferenceYieldsNothing | internal/controller/conversions/to_eligible_resource.go:52-58 | a reference that lacks a part or whose API version does not parse yields nothing |
| Eligibility.PodReferenceYields | internal/controller/conversions/to_eligible_resource.go:205-242 | a reference to a Pod yields the workload its owner references resolve to, and UID and version of the reference are compared only when that is a Pod |
| Eligibility.LegacyPodYields | internal/controller/conversions/to_eligible_resource.go:76-81 | without a selector of its own, a Pod finding "ns/name" yields what an exact reference to that v1 Pod yields |
| Eligibility.LegacyDeploymentYields | internal/controller/conversions/to_eligible_resource.go:82-86 | without a selector of its own, a Deployment finding "ns/name" yields exactly that apps/v1 Deployment, when enabled |
| Eligibility.LegacyYieldsNothing | internal/controller/conversions/to_eligible_resource.go:87-89 | no other legacy finding without a selector of its own yields anything |
| Eligibility.LegacySelectorYields | internal/controller/conversions/to_eligible_resource.go:66-75 | with one qualifying selector a legacy finding yields exactly the object of that kind, in its namespace or in none |
| Eligibility.OwnerReferenceFields | internal/controller/conversions/to_eligible_resource.go:177 | the walk reads API version, kind, name and the controller mark of each owner reference |
| Eligibility.OwnersAre | internal/controller/conversions/to_eligible_resource.go:172-176 | the walk reads exactly the objects of the Pod's namespace, by kind and name |
| Eligibility.Convert | internal/controller/conversions/to_eligible_resource.go:207-242 | one finding yields exactly the resource it leads to, or nothing |
| Eligibility.ResultsToEligibleResources | internal/controller/conversions/to_eligible_resource.go:205-244 | exactly the resources some finding leads to are eligible |
| Eligibility.EligibleIsAuthorised | internal/controller/conversions/to_eligible_resource.go:205-244 | an eligible resource is enabled, present, in the finding's namespace, and the object an exact reference names unless it is an owner of it |
| CircuitBreaker.AnalysisStep.HandleAIFailureBackoff | internal/controller/k8sgpt/analysis_step.go:137-146 | the two globals after a failure, with the back-off on or off |
| CircuitBreaker.AnalysisStep.Execute | internal/controller/k8sgpt/analysis_step.go:52-68 | each analysis keeps the two globals in step with the trace of outcomes |
| CircuitBreaker.Analyse | internal/controller/k8sgpt/analysis_step.go:52-146 | requests are blocked exactly when the trace has had two more failures in a row than the retries; until then the counter is the current run of failures |
| CircuitBreaker.BlockedStaysBlocked | internal/controller/k8sgpt/analysis_step.go:137-146 | once blocked, no later outcome unblocks |
| CircuitBreaker.RunStartsSomewhere | internal/controller/k8sgpt/analysis_step.go:52-146 | a trace has had so many failures in a row exactly when from some outcome on that many failed |
| ImageUri.ParsedPrintsBack | internal/controller/k8sgpt/preAnalysis_step.go:129-164 | a URI with a tag is rebuilt from its parts; one without lost at most a trailing colon |
| ImageUri.PrintedParsesBackIff | internal/controller/k8sgpt/preAnalysis_step.go:129-164 | a written image is read back exactly when its name has no colon and, without a slash, its version has none |
| ImageUri.Deployment.Sync | pkg/resources/k8sgpt.go:801-829 | the stored image becomes the one GetDeployment asks for, latest for an empty version |
| ImageUri.Deployment.Reconcile | internal/controller/k8sgpt/preAnalysis_step.go:36-45 | one pass from the read through Sync to the check: the analysis is reached exactly when the image read is not stale, and the update gets through only when Sync found nothing to do |
| ImageUri.DeployedIsStaleIff | pkg/resources/k8sgpt.go:309-313 | Sync's own image is judged stale exactly when the version is left to default or the image is not readable |
| ImageUri.SettledIff | internal/controller/k8sgpt/configure_step.go:71-86 | an image is left alone by a pass that reaches the analysis exactly when a version is asked for, the image is readable, and it is that image |
| ImageUri.VersionSettlesAfterOnePass | internal/controller/k8sgpt/configure_step.go:71-86 | with a version, every image is the wanted one after one pass |
| ImageUri.DefaultVersionAlternates | internal/controller/k8sgpt/preAnalysis_step.go:114-126 | without a version the image alternates for ever between the default tag and an empty one |

## Left out

- Mutating admission and defaulting: a stored write is taken to be what was sent, up to the server's own stamps. Access to one object through several API versions is not modelled either.
- Manual edits of Mutation objects by users; deletion of Mutations is modelled.
- The status update for the answer `{null}`: without a status subresource it fails and has no effect, so the pass only waits.
- Whether a number was written with a decimal point: a whole number counts as an integer wherever an integer is read.
- YAML and JSON text: configurations and responses are decoded trees, a response with its two readings as a manifest and as a selection. Numbers are values that have left their textual form.
- Message texts, conditions and timestamps: a reason is a datatype, the time of application a flag.
- SHA-256 and JSON hashing: the content hash is the hashed tuple itself. mutationName is an input of the creation loop.
- Deduplication of eligible resources before the creation loop, the similarity score, metrics, events, logging and requeue intervals.
- Writers that conflict with a pass over Results. A pass may fail or die at any of its calls; what a failed pass had sent is stated as a part of what was due, not exactly.
- GetAnnotations is taken as in apimachinery v0.33: null values count as empty, another non-string value drops all annotations.
- The interval between dialling and use of a connection, and the mutex around the cache: each call on the cache is one atomic step.
- Deployment assembly, RBAC, remote cache, integrations and the HTTP sinks: configuration without properties that span functions.
