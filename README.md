# oot-operator orchestration core, modelled in Dafny

The oot-operator is a Kubernetes operator that loads out-of-tree kernel modules on the
cluster's nodes. A `Module` resource has four parts:

- a node selector;
- a list of kernel mappings, each naming the container image to run for a kernel version;
- an optional build configuration;
- an optional signing configuration.

For every kernel that runs on a selected node, the operator does three things:

- It finds the mapping for that kernel.
- It runs the image pipeline: a Kaniko *build* job, then a *sign* job. Each stage is skipped
  once its output image is already in the registry.
- It keeps one DaemonSet per kernel that runs the module image on the matching nodes.

A separate reconciler deletes DaemonSets that still have no node to run on a minute after
they were created.

This project models the decision procedures of that core and proves what they promise:

- the stage state machine that finds a job by its labels before creating one, in its three
  generations;
- the exact job specifications that the build and sign stages construct (arguments,
  volumes, mounts, metadata);
- the desired-state rewrite of a DaemonSet and the per-kernel DaemonSet index;
- the outline of the module reconcile and its event filters;
- the DaemonSet garbage-collection rule.

The cluster is modelled as follows:

- The cluster's job store and DaemonSet store are classes whose sequence fields the methods
  reassign.
- Failures of the store are boolean fields.
- The registry probe, the clock, generated names and the helpers whose code is not shown are
  parameters.

Layout:

- `common.dfy`, `api.dfy`, `kube.dfy`, `build_result.dfy`: labels, the Module API types, Job
  and Pod parts, and stage results.
- `jobs.dfy`, `correlation.dfy`: the job store, job lookup by labels, and the
  find-before-create step shared by every generation.
- `builder.dfy`, `signer.dfy`, `stages.dfy`, `manager.dfy`: the stage-aware job manager
  (`internal/jobmanager/job`).
- `legacy_build.dfy`, `legacy_build_job.dfy`, `legacy_signer.dfy`: the older build-only job
  manager (`controllers/build`) and the older signer (`internal/build/job`).
- `daemonset_store.dfy`, `daemonsets.dfy`, `module_reconciler.dfy`,
  `daemonset_reconciler.dfy`: DaemonSets, the module reconcile and the garbage collector.

Two behaviours of the code are easy to misread, and the model follows the code in both:

- A job whose status counters match none of succeeded, active or failed is an **error**
  (`UnknownJobStatus`). It is not treated as "in progress".
- `Sync` does not consult `ShouldRun`. The caller must do that. For the sign stage the model
  makes the gap explicit with `Stages.CanQuery`: the signing section must be present, or the
  Go code dereferences nil. For the build stage, `ShouldRun` does not protect the code as
  written either: it can still dereference a nil `km.Build` or `km.Sign` (see "## Findings").
  The build stage's Sync in this model runs the corrected queries instead.

The generations also differ on one point. A job that has already succeeded gives
`{Completed, requeue=false}` in `internal/jobmanager/job/manager.go`, but
`{Completed, requeue=true}` in `controllers/build/job.go` and
`controllers/build/job/syncer.go`. `Correlation.JobStatusOutcome` takes that flag as a
parameter.

## Model

| member | source | states |
|---|---|---|
| Common.SplitJoinRoundTrip | internal/jobmanager/job/signer.go:72 | Splitting the `":"`-joined list of files to sign gives back the list, provided it is non-empty and no file name contains `':'`. |
| Jobs.Filter | internal/jobmanager/job/manager.go:57-64 | The listed jobs are exactly the stored jobs in the namespace whose labels include the selector. |
| Jobs.LookupJobCardinality | internal/jobmanager/job/manager.go:54-73 | getJob reports no matching job iff no job matches. It reports an ambiguity iff two distinct stored jobs match. A found job is the unique match. |
| Jobs.GetJob | internal/jobmanager/job/manager.go:54-73 | The method's result equals the lookup specification over the store: a failed list, none, several, or the one job. |
| Correlation.StageLabelsExact | internal/jobmanager/job/manager.go:37-43 | The stage labels have exactly three keys: module name, target kernel and build stage, with those values. |
| Correlation.StageLabelsSelectExactlyTheirTriple | internal/jobmanager/job/manager.go:37-43 | One stage label set selects another iff the module, kernel and stage are the same. |
| Correlation.JobStatusPrecedence | internal/jobmanager/job/manager.go:130-139 | Succeeded==1 gives Completed (with the generation's requeue flag). Otherwise active==1 gives InProgress with requeue. Every other status is an error, failed and unknown alike. |
| Correlation.CorrelateCreatesOnlyWhenNoneMatch | internal/jobmanager/job/manager.go:107-126 | The store grows, by exactly the made job, only when the list succeeded and no job matched and MakeJob and Create succeeded. Otherwise the store is unchanged. |
| Correlation.CorrelateOutcomes | internal/jobmanager/job/manager.go:105-126 | Each branch of the step. A failed list is ListFailed. With no matching job: a MakeJob error is MakeJobFailed, a Create error is CreateFailed, and otherwise the made job is appended and the result is {Created, true}. Two matches are an ambiguity error. One match reports that job's status. Only the create branch changes the store. |
| Correlation.CorrelateKeepsAtMostOne | internal/jobmanager/job/manager.go:107-126 | If at most one job matched before, at most one matches after. |
| Correlation.CorrelateIdempotent | internal/jobmanager/job/manager.go:107-139 | A second step with the same inputs leaves the store as the first left it. After a Created outcome, the second step reports the status of the job the first created. |
| Builder.PullOptions | internal/jobmanager/job/builder.go:40-42 | Corrected version. On a mapping with its own build section, it returns that section's pull options, as the code as written does. Only when the section is absent does it use the relevant build's options; on that input the code as written dereferences nil. |
| Builder.ModuleLevelBuildOutsidePullOptionsAsWritten | internal/jobmanager/job/builder.go:32-42 | With only a module-level build, ShouldRun holds but the as-written PullOptions' precondition (a mapping-level build) fails. The corrected PullOptions answers with the relevant build's options. |
| Builder.OutputImage | internal/jobmanager/job/builder.go:44-53 | Corrected version. Whenever a sign configuration is present, it agrees with the code as written. |
| Builder.OutputImagePreference | internal/jobmanager/job/builder.go:44-53 | A non-empty unsigned image is chosen first, then a non-empty container image. The result is an error iff both are empty. A result is never empty. |
| Builder.BuildOnlyMappingOutsideOutputImageAsWritten | internal/jobmanager/job/builder.go:32-53 | A mapping with a build and no sign configuration passes ShouldRun but lies outside the as-written GetOutputImage's precondition. The corrected version returns its container image. |
| Builder.BuildArgFlags | internal/jobmanager/job/builder.go:72-74 | There are two arguments per build argument, in order: `--build-arg` then `Name=Value`. |
| Builder.InsecureFlagsExact | internal/jobmanager/job/builder.go:76-90 | Each of the four insecure flags is present iff its option is set. There are no other flags. |
| Builder.BuildJobFailure | internal/jobmanager/job/builder.go:56-63 | MakeJob fails iff GetOutputImage fails or the owner reference cannot be set. Each failure gives its own error. |
| Builder.BuildJobIdentity | internal/jobmanager/job/builder.go:123-150 | The job has GenerateName `<module>-build-`, the module's namespace, the Build stage labels, the module as controller, one completion, restart OnFailure and one kaniko container. |
| Builder.BuildJobArgs | internal/jobmanager/job/builder.go:65-90 | The arguments are `--destination <image>`, then the overridden build arguments, then the insecure flags. The KERNEL_VERSION override is requested. |
| Builder.BuildVolumesMatchMounts | internal/jobmanager/job/builder.go:92-121 | Volumes and mounts pair up by name, one for one, in order. They are the dockerfile, then the pull secret iff set, then one per build secret. Every mount is read-only. |
| Builder.BuildJobDeliversDockerfile | internal/jobmanager/job/builder.go:92-133 | The Dockerfile annotation is the build's Dockerfile. The dockerfile volume projects that annotation and is mounted at `/workspace`. |
| Builder.BuildJobMountsPullSecret | internal/jobmanager/job/builder.go:159-192 | With a pull secret, its `.dockerconfigjson` key is mounted as `/kaniko/.docker/config.json` from a `secret-<name>` volume. |
| Builder.BuildJobMountsBuildSecrets | internal/jobmanager/job/builder.go:194-233 | Build secret i is the `secret-<name>` volume, mounted read-only at `/run/secrets/<name>`. |
| Builder.MakeBuildSecretVolumes | internal/jobmanager/job/builder.go:194-212 | The loop builds exactly one secret volume per build secret, in order. |
| Builder.MakeBuildSecretVolumeMounts | internal/jobmanager/job/builder.go:214-229 | The loop builds exactly one read-only mount per build secret, in order. |
| Builder.AppendBuildArgFlags | internal/jobmanager/job/builder.go:72-74 | The loop appends the build-argument flags after the given prefix. |
| Builder.AppendInsecureFlags | internal/jobmanager/job/builder.go:76-90 | The flags are appended in the fixed order pull-insecure, skip-TLS-pull, insecure, skip-TLS. |
| Builder.MakeKanikoArgs | internal/jobmanager/job/builder.go:65-90 | The imperative argument construction equals the argument specification. |
| Builder.MakeVolumes | internal/jobmanager/job/builder.go:92-121 | The imperative volume and mount construction equals the volume and mount specifications. |
| Builder.Builder.MakeJob | internal/jobmanager/job/builder.go:56-157 | The builder's MakeJob returns exactly the specified build job or its error. |
| Signer.PullOptions | internal/jobmanager/job/signer.go:40-42 | The pull options are those of the sign configuration. |
| Signer.OutputImagePreference | internal/jobmanager/job/signer.go:44-53 | A non-empty signed image is chosen first, then a non-empty container image. The result is an error iff both are empty. |
| Signer.SignArgsLayout | internal/jobmanager/job/signer.go:66-72 | There are exactly 12 arguments: `-signedimage`, `-unsignedimage`, `-pullsecret`, `-key`, `-cert`, `-filestosign`, each followed by its value. The `-filestosign` value is the `":"`-join of the files, and it splits back at `':'` into a non-empty list whose names contain no colon. |
| Signer.SignJobFailure | internal/jobmanager/job/signer.go:56-64 | MakeJob fails iff the output image is missing or the owner reference fails. |
| Signer.SignJobIdentity | internal/jobmanager/job/signer.go:90-116 | The job has GenerateName `<module>-sign-`, the module's namespace, the Sign stage labels, the module as controller, one completion, restart OnFailure and one `signimage` container with the sign arguments. |
| Signer.SignJobMountsSigningFiles | internal/jobmanager/job/signer.go:126-151 | `/signingkey/key.priv` and `/signingcert/public.der` are mount paths plus item paths of the key and cert volumes. |
| Signer.SignJobMountsPullSecret | internal/jobmanager/job/signer.go:155-188 | `/docker_config/config.json` is mounted iff a pull secret is set, from that secret's `.dockerconfigjson`. |
| Signer.SignVolumesMatchMounts | internal/jobmanager/job/signer.go:75-88 | Volumes are [pull?, key, cert] and mounts are [pull?, cert, key]. There are 3 of each with a pull secret and 2 without. The name multisets are equal. |
| Signer.SignVolumeNamesDistinct | internal/jobmanager/job/signer.go:78-88 | With the `secret-` naming, the volume names are pairwise distinct iff the secrets' names are. |
| Signer.VolumeNameInjective | internal/jobmanager/job/signer.go:191-193 | `secret-<name>` determines the name. |
| Signer.StagesChainThroughUnsignedImage | internal/jobmanager/job/signer.go:44-72 | A non-empty unsigned image is both the build stage's output and the sign stage's input. |
| Signer.Signer.MakeJob | internal/jobmanager/job/signer.go:56-123 | The signer's MakeJob returns exactly the specified sign job or its error. |
| Stages.ShouldRunGuardsQueries | internal/jobmanager/job/manager.go:49-51 | Whenever ShouldRun holds, the modelled PullOptions and GetOutputImage can be called. For the sign stage that holds in both directions. For the build stage the modelled queries are the corrected, total ones; the queries as written are not guarded by ShouldRun. |
| Stages.BuildQueriesAsWritten | internal/jobmanager/job/builder.go:40-53 | The build stage's pull options equal `km.Build.Pull` whenever the mapping has a build section. Its output image equals the as-written GetOutputImage whenever the mapping has a signing section. |
| Stages.JobForCorrelates | internal/jobmanager/job/manager.go:113-125 | A made job carries its stage's labels in the module's namespace, so the stage lookup selects it. It fails exactly as its stage's MakeJob does. |
| Stages.StagesDoNotShareJobs | internal/jobmanager/job/manager.go:37-43 | A build job never matches the sign lookup, and a sign job never matches the build lookup. |
| Stages.MakeJob | internal/jobmanager/job/job.go:10-16 | Dispatching through the stage returns that stage's job. |
| Manager.AuthFor | internal/jobmanager/job/manager.go:78-86 | Registry credentials are used iff the module names a pull secret, and they come from that secret in the module's namespace. |
| Manager.SyncOutcomes | internal/jobmanager/job/manager.go:88-103 | An output-image error comes before any probe. A probe error is an error. An image that is present gives {Completed, false}. In all three cases the store is unchanged. |
| Manager.SyncCreatesOnlyWhenNoneMatch | internal/jobmanager/job/manager.go:105-126 | Sync changes the store only by appending the made job, and only when it reaches MakeJob (image absent, no matching job) and reports {Created, true}. Otherwise the store is unchanged. |
| Manager.SyncCreatesWhenNoneMatch | internal/jobmanager/job/manager.go:105-126 | The converse: once Sync reaches MakeJob, it appends the made job and returns {Created, true}, unless MakeJob fails (MakeJobFailed) or Create fails (CreateFailed). In those two cases the store is unchanged. |
| Manager.SyncKeepsAtMostOne | internal/jobmanager/job/manager.go:107-126 | If at most one stage job existed before Sync, at most one exists after. |
| Manager.SyncIdempotent | internal/jobmanager/job/manager.go:107-139 | A second Sync with the image still absent finds the job created by the first and creates none. |
| Manager.SyncLeavesOtherStagesAlone | internal/jobmanager/job/manager.go:54-60 | Sync never changes how many jobs another stage's lookup matches. |
| Manager.JobManager.GetJob | internal/jobmanager/job/manager.go:54-73 | The lookup uses the stage labels in the module's namespace. |
| Manager.JobManager.Sync | internal/jobmanager/job/manager.go:75-140 | The result and the new job store are those of the Sync specification. |
| LegacyBuild.JobLabelsExact | controllers/build/job.go:39-44 | There are exactly two labels, module name and target kernel. They select every stage job of the same module and kernel. |
| LegacyBuild.KanikoJobShape | controllers/build/job.go:67-136 | The arguments are `--destination`, the image, `--build-arg`, `KERNEL_VERSION=<kernel>`, then `--insecure-pull` iff pull is insecure, then `--insecure` iff push is insecure. The job has the GetJobLabels labels, the manager's namespace, GenerateName `<module>-build-`, one completion, restart OnFailure, one container, one dockerfile volume mounted read-only at `/workspace`, and the Dockerfile annotation. The only failure is the owner reference. |
| LegacyBuild.BuilderGeneralisesKanikoJob | controllers/build/job.go:67-136 | Without secrets, TLS skipping or signing, the stage-aware builder's job has the legacy arguments and volumes. |
| LegacyBuild.ClassifyExact | controllers/build/job.go:145-160 | A 404 means absent. A manifest means present. Any other answer, including a bad reference, is a probe error. |
| LegacyBuild.SyncFindBeforeCreate | controllers/build/job.go:163-209 | Sync creates only when no job matches. A second Sync finds the created job. A found job that has succeeded gives {Completed, true}. |
| LegacyBuild.SyncCreatesWhenNoneMatch | controllers/build/job.go:163-209 | The converse: when the image is absent, the list succeeds and no job matches, Sync creates the made job and returns {Created, true}, unless MakeJob fails (MakeJobFailed) or Create fails (CreateFailed). In those two cases the store is unchanged. |
| LegacyBuild.JobManager.GetJob | controllers/build/job.go:46-65 | The lookup uses the two labels in the manager's namespace. |
| LegacyBuild.JobManager.MakeJob | controllers/build/job.go:67-136 | The method returns the specified Kaniko job. |
| LegacyBuild.JobManager.IsImageAvailable | controllers/build/job.go:138-161 | The outcome is the classification of the registry's answer. |
| LegacyBuild.JobManager.Sync | controllers/build/job.go:163-209 | The result and the new store are those of the legacy Sync specification. |
| LegacyBuildJob.Maker.MakeJob | controllers/build/job/maker.go:30-99 | The maker's job is the Kaniko job in the maker's namespace. |
| LegacyBuildJob.SplitNamespacesRecreate | controllers/build/job/syncer.go:41-94 | If the maker's namespace differs from the lookup namespace, a second Sync does not find the first job and creates another. |
| LegacyBuildJob.JobManager.GetJob | controllers/build/job/syncer.go:41-60 | The lookup uses Labels in the syncer's namespace. |
| LegacyBuildJob.JobManager.Sync | controllers/build/job/syncer.go:62-108 | The result and the new store are those of the legacy Sync specification, with the job made by the maker. |
| LegacySigner.SignJobContents | internal/build/job/signer.go:32-94 | `-signedimage` is the caller's image, with no fallback. The arguments are exactly SignArgs of the caller's image, the unsigned image and the files, with 12 entries. The volumes are exactly SignVolumes [pull?, key, cert] and the mounts exactly SignMounts [pull?, cert, key]. There is one container, the signer image. The job has GenerateName `<module>-sign-`, the module's namespace, one completion and restart OnFailure. The only failure is the owner reference. |
| LegacySigner.StageSignerRefinesSignJob | internal/build/job/signer.go:32-94 | With the stage labels and `secret-` naming, the older signer's job equals the stage-aware signer's job for the same signed image. |
| LegacySigner.Maker.PullOptions | internal/build/job/signer.go:28-30 | The pull options are those of the sign configuration. |
| LegacySigner.Maker.MakeJob | internal/build/job/signer.go:32-94 | The method returns the specified older sign job. |
| DaemonSetStore.ListOwned | controllers/daemonset_test.go:128-221 | The list holds exactly the stored DaemonSets in the namespace that carry the module-name label with the module's name as its value. A DaemonSet without the label is never listed. |
| DaemonSetStore.Find | controllers/daemonset_reconciler.go:29-31 | Get finds a DaemonSet with the key iff one is stored. |
| DaemonSetStore.Replace | controllers/module_reconciler_test.go:197-240 | A patch replaces the DaemonSets with the key, position by position, and keeps the rest. |
| DaemonSetStore.Remove | controllers/daemonset_reconciler.go:33-36 | A delete keeps exactly the DaemonSets without the key. |
| DaemonSetStore.Store.List | controllers/daemonset_test.go:128-221 | The list fails iff the store's read fails. Otherwise it returns the module's DaemonSets. |
| DaemonSetStore.Store.Get | controllers/daemonset_reconciler.go:29-31 | Get returns a read error, not-found, or the stored DaemonSet with the key. |
| DaemonSets.UpsertOwnerProperties | controllers/daemonset_test.go:91-98 | Setting the owner adds the module's reference, keeps the other owners, grows by at most one, and is idempotent. |
| DaemonSets.DesiredContents | controllers/daemonset_test.go:53-125 | The labels, selector and pod-template labels are the module name plus the kernel. The containers are exactly one, named after the driver, with the image and no arguments or mounts. The node selector is the module's selector plus the kernel label. |
| DaemonSets.DesiredSchedulesOnKernel | controllers/daemonset_test.go:111-114 | A node matches the node selector iff the module selects it and its kernel label is the kernel. |
| DaemonSets.DesiredIdempotent | controllers/daemonset_test.go:120-124 | Applying the desired state twice equals applying it once. |
| DaemonSets.ByKernelOkIffDistinct | controllers/daemonset_test.go:145-221 | The index succeeds iff no two listed DaemonSets have the same kernel label. |
| DaemonSets.ByKernelIndex | controllers/daemonset_test.go:181-221 | The index's keys are exactly the listed kernels. Each maps to its DaemonSet. |
| DaemonSets.ByKernelErrorPersists | controllers/daemonset_test.go:145-179 | Once a duplicate kernel is seen, more DaemonSets do not clear the error. |
| DaemonSets.DaemonSetCreator.SetAsDesired | controllers/daemonset_test.go:29-125 | A nil DaemonSet, an empty image, an empty kernel or an owner-reference failure is an error. Otherwise the DaemonSet becomes the desired state. |
| DaemonSets.DaemonSetCreator.ModuleDaemonSetsByKernelVersion | controllers/daemonset_test.go:128-221 | The method returns a list error, or the kernel index of the module's DaemonSets. The index is empty when there are none. |
| ModuleReconciler.MatchingKernels | controllers/module_reconciler_test.go:77-152 | The kernels are reported without duplicates. |
| ModuleReconciler.MatchingKernelsExact | controllers/module_reconciler_test.go:41-75 | A kernel is reported iff some selected node runs it. None is reported iff no node is selected. |
| ModuleReconciler.CollectKernels | controllers/module_reconciler_test.go:41-152 | The loop over the nodes collects exactly the kernels of the selected nodes, each once (the kernel specification proved by MatchingKernelsExact). |
| ModuleReconciler.NodeAcceptsExact | controllers/module_reconciler_test.go:281-354 | Creations pass and deletions do not. An update passes iff the new node has the kernel label. |
| ModuleReconciler.DesiredIsOwned | controllers/module_reconciler_test.go:245-278 | The owned-object filter accepts the DaemonSets the reconciler writes, and rejects one without the module label. |
| ModuleReconciler.ModuleReconciler.KernelStepCallOrder | controllers/module_reconciler_test.go:137-141 | A kernel's calls are always a prefix of: find the mapping, sync the build iff the mapping has one, list the DaemonSets, set the desired state. DaemonSets change only after the whole sequence. A missing mapping, or a build that fails or is not complete, changes nothing. The build branch is inferred; see "## Left out". |
| ModuleReconciler.ModuleReconciler.DaemonSetStepOutcome | controllers/module_reconciler_test.go:77-240 | The DaemonSet step succeeds iff the list succeeds, the kernel index is unambiguous, SetAsDesired accepts and the write succeeds. A failed step changes no DaemonSet. |
| ModuleReconciler.ModuleReconciler.WriteDesiredOutcome | controllers/module_reconciler_test.go:77-240 | The write half succeeds iff SetAsDesired accepts and the write succeeds, and then returns the build's requeue flag. A failure changes no DaemonSet. The calls are always: list the DaemonSets, then set the desired state. |
| ModuleReconciler.ModuleReconciler.DaemonSetStepCreatesOnce | controllers/module_reconciler_test.go:130-151 | A kernel without a DaemonSet, on a successful step, gets exactly one new DaemonSet: the desired state, with name prefix `<module>-`. |
| ModuleReconciler.ModuleReconciler.WriteDesiredCreates | controllers/module_reconciler_test.go:130-151 | Given an index without the kernel, a successful write appends exactly the desired DaemonSet with name prefix `<module>-`. |
| ModuleReconciler.CreatedIsIndexed | controllers/module_reconciler_test.go:147-151 | After the create, the kernel index maps the kernel to the new DaemonSet and keeps the other kernels. |
| ModuleReconciler.ModuleReconciler.DaemonSetStepPatchesExisting | controllers/module_reconciler_test.go:197-240 | A kernel with a DaemonSet, on a successful step, has it patched to the desired state. No DaemonSet is added and every DaemonSet under another key is unchanged. |
| ModuleReconciler.ModuleReconciler.WriteDesiredPatches | controllers/module_reconciler_test.go:197-240 | Given an index holding the kernel's DaemonSet, a successful write patches that DaemonSet to the desired state and leaves the others alone. |
| ModuleReconciler.PatchedIsFound | controllers/module_reconciler_test.go:197-240 | After the patch, the store has the same size and the patched DaemonSet is found by its key. |
| ModuleReconciler.ModuleReconciler.ReconcileDaemonSet | controllers/module_reconciler_test.go:77-240 | The method's result, calls and store are those of the create-or-patch specification. |
| ModuleReconciler.ModuleReconciler.ReconcileKernel | controllers/module_reconciler_test.go:77-152 | The method's result, calls and store are those of the per-kernel specification. |
| ModuleReconciler.ModuleReconciler.NoMatchingNodeIsNoOp | controllers/module_reconciler_test.go:41-75 | With no selected node there are no calls and no store change, and the result is Ok with no requeue. |
| ModuleReconciler.ModuleReconciler.ReconcileKernels | controllers/module_reconciler_test.go:77-241 | The loop reconciles the kernels in order. Its result, calls and store are those of the pass specification, which stops at the first error. |
| ModuleReconciler.ModuleReconciler.Reconcile | controllers/module_reconciler_test.go:41-241 | Reconcile runs the per-kernel step for each matching kernel in order and stops at the first error. |
| DaemonSetReconciler.GcStepDeletesIffUnschedulable | controllers/daemonset_reconciler.go:29-38 | The reconciler deletes exactly when the DaemonSet is read, is more than a minute old and has no desired pods. It then removes only that key. Read, not-found and delete failures are errors and change nothing. |
| DaemonSetReconciler.GcStepOnlyRemoves | controllers/daemonset_reconciler.go:33-36 | The store never grows. Any change removes the requested key. |
| DaemonSetReconciler.GraceIsStrict | controllers/daemonset_reconciler.go:33 | At exactly one minute the DaemonSet is kept. One nanosecond later it is deleted. |
| DaemonSetReconciler.FilterAcceptsOwned | controllers/daemonset_reconciler.go:53-55 | The filter rejects iff the module label is missing or empty. It accepts every DaemonSet the module reconciler owns. |
| DaemonSetReconciler.DaemonSetReconciler.Reconcile | controllers/daemonset_reconciler.go:24-39 | The error and the new store are those of the collection specification. |

## Left out

- The registry transport (`registry.ImageExists`, `crane`, keychains) is a function-typed
  `Registry` or `Remote` parameter. Only its outcomes are modelled: present, absent or error.
  For the legacy probe, the classification of the answer is modelled.
- `build.Helper.GetRelevantBuild` and `ApplyBuildArgOverrides` are uninterpreted fields of
  `Builder.Helper`. Forcing `KERNEL_VERSION` is not assumed; only the call is stated.
- `controllerutil.SetControllerReference` is a boolean `registersModule`: true means it
  succeeds. The two-argument `labels` of `internal/build/job/signer.go` and its
  `volumeNameFromSecretRef` are function parameters.
- `FindMappingForKernel` and the build stage's Sync are function parameters of the module
  reconciler (`KernelMapper`, `BuildSync`).
- Fetching the Module and the Node list for a request is left out. The module reconcile
  receives them as arguments.
- Generated names are a `NameGenerator` parameter applied when a DaemonSet is created.
- The DaemonSet generator itself (`SetAsDesired`, `ModuleDaemonSetsByKernelVersion`) is not
  part of this model's source. Its behaviour is taken from `controllers/daemonset_test.go`.
- DaemonSets.DaemonSetCreator.SetAsDesired: the order of the nil, empty-image, empty-kernel
  and owner-reference checks, and the empty-kernel check itself, are inferred from the
  tests. The tests pin only one failing input per case.
- ModuleReconciler.NodeAcceptsExact: a label update that removes the kernel label from a node
  is not pinned by the tests. The model rejects it, as it does every update whose new node
  lacks the label.
- ModuleReconciler.DesiredIsOwned: the owned-object filter is stated for the objects the
  reconciler writes. The create, update and delete events are not distinguished.
- `TargetKernelLabel` and the kernel label of nodes are stand-in constants. Their string
  values are not part of this model.
- ModuleReconciler.ModuleReconciler.DaemonSetStepCreatesOnce: states the DaemonSets after
  a successful step. When the step fails is stated by DaemonSetStepOutcome, and the index
  after the create by ModuleReconciler.CreatedIsIndexed.
- The pull-secret helpers of `internal/jobmanager/job/builder.go` and
  `internal/jobmanager/job/signer.go` return nil for a nil secret. Their callers never pass
  nil, so that branch is left out.
- DaemonSetReconciler.GraceIsStrict: time is an integer count of nanoseconds. The precision
  of `metav1.Time` (seconds when serialised) is not modelled.
- Pod security contexts, logging, status conditions, `SetupWithManager` wiring,
  `node_kernel_reconciler`, `hack/` and the Module CRD's generated code are left out. They
  take no decision in the core.
- Some Go panics on nil pointers are preconditions rather than modelled crashes: the signing
  section for the sign stage (`Stages.CanQuery`, `Stages.CanMake`), and `km.build.Some?` for
  the legacy build managers.
- Stages.PullOptions, Stages.OutputImage, Manager.SyncStep: on the build stage, the model
  runs the corrected `Builder.PullOptions` and `Builder.OutputImage`. On the two inputs
  recorded under "## Findings" (no mapping-level build section; no signing section), the
  code as written panics. The model's Sync instead probes and builds as the code evidently
  intends. On every other input the queries agree with the code as written
  (`Stages.BuildQueriesAsWritten`).
- ModuleReconciler.ModuleReconciler.KernelStepCallOrder, ModuleReconciler.ModuleReconciler.Pass:
  the module reconciler's implementation is not part of this model's source, and its tests
  use only mappings without a build section. Four parts of the per-kernel step are
  therefore inferred, not pinned:
  - the build is synced exactly when the mapping has its own build section;
  - a build error ends the pass;
  - a build that is not complete skips the DaemonSet and returns its requeue flag;
  - a kernel for which the mapping lookup finds nothing is skipped. An error from
    `FindMappingForKernel` is not distinguished from "no mapping".
  Two further choices are the model's own. `ModuleDaemonSetsByKernelVersion` is called once
  per kernel, not once per pass. Kernels are handled in the order their nodes are listed,
  although the code may iterate a set of kernels; since the first error stops the pass,
  that order decides which later kernels are reached. The tests have one node and one
  kernel, so they pin neither choice.

## Findings

| source | as written | input that shows it | evidently intended | confidence | as-written member | corrected member |
|---|---|---|---|---|---|---|
| internal/jobmanager/job/builder.go:44-53 | GetOutputImage reads `km.Sign.UnsignedImage` without checking `km.Sign` | a kernel mapping with `Build` set, `Sign` nil and a container image; ShouldRun holds, so Sync calls GetOutputImage and dereferences nil | fall back to the container image when there is no sign configuration | high, not executed | Builder.OutputImageAsWritten (shown by Builder.BuildOnlyMappingOutsideOutputImageAsWritten) | Builder.OutputImage (proved by Builder.OutputImagePreference) |
| internal/jobmanager/job/builder.go:40-42 | PullOptions returns `km.Build.Pull` | a Module with a module-level `Build` and a mapping without one; ShouldRun holds through the module-level build, then `km.Build` is nil | when the mapping has no build section, the pull options of the relevant (module-level) build, the one MakeJob builds from; otherwise `km.Build.Pull` as written | high, not executed | Builder.PullOptionsAsWritten (shown by Builder.ModuleLevelBuildOutsidePullOptionsAsWritten) | Builder.PullOptions |
