# JuiceFS CSI driver: a verified model

The JuiceFS CSI driver serves volumes on a node through *mount pods*: one pod runs the FUSE client, and many app pods
bind-mount from it. This project models the parts of the driver in which a wrong step loses data or leaks mounts, and
proves what those parts keep.

| part | modules |
|---|---|
| the references of a mount pod: annotations, JSON Patches, delayed delete | `MountPod`, `PodOps`, `PodMount`, `RefHistory`, `DelayedDelete` |
| publishers, unpublishers and reconcilers of a node, interleaved call by call under the striped locks | `Protocol`, `ProtocolInvariant`, `ProtocolSafety`, `ProtocolTheorems`, `ProtocolRecreate`, `ProtocolStages`, `ProtocolLosses`, `ProtocolStamps`, `ProtocolStalls`, `ProtocolAtomicity`, `PodLocks`, `TargetPath` |
| sidecar injection, folded over any number of claims | `PodVolumes`, `Sidecar`, `SidecarNames`, `SidecarSafety`, `SidecarTheorems`, `SidecarMeaning`, `PodFiles` |
| the mount table: parsing, device references, grouping, re-binding, unmounting | `MountInfo`, `ProcessMount`, `TargetTable`, `Recover` |
| commands, words, options, paths | `MountCommand`, `Escape`, `FormatOptions`, `GoPath`, `SubPath`, `CacheDirs` |
| the dashboard's index | `TimeIndex` |
| shared helpers | `Strings`, `Seqs`, `Wrappers` |

`dafny verify dfyconfig.toml` checks everything.

**The protocol.** A `World` holds the pods the API server stores, the table of the 1024 striped locks and, for every
actor, a program counter with the snapshots it still uses. Every API call is one atomic step that may fail; pods may be
deleted from outside at any moment; a reconciler may start from any version of a pod the server ever stored, however
old, and with any list of app pods. JSON Patch `remove` and `replace` follow RFC 6902 (sections 4.2, 4.3 and 5): a
patch applies as a whole or not at all. Under this, every write turns out to change the reference set of its pod as one
atomic set operation would (`WritesAreAtomic`), and what an actor does under its lock amounts to one operation on the
pod, whoever acts in between (`PublishIsAtomic`, `UnpublishIsAtomic`, `CheckIsAtomic`, `BringingBackIsAtomic`). Lock
waits form no cycle (`NoLockCycle`), the deletes of unpublishing and of the reconciler's check only hit pods without
references, and it is settled for every job of the reconciler whether bringing a pod back can lose a reference
(`OwnLossIff`, `LaterLossIff`).

**Where the code does less than one would expect.** These are stated as results, with the exact condition:

- Bringing a pod back always stores what the handler fetched (`RecreateKeepsFetched`), but a publication that lands
  after the fetch can be lost. To the incarnation the run was started with, exactly when it was started with that
  incarnation in error and still alive, and its check has a way to the handler other than deleting the pod
  (`OwnLossIff`; the safe half is `RecreateLosesNothing`). To a later incarnation of the same name, exactly when the run
  can get to its handler at all, also when it was started with its pod deleted (`LaterLossIff`). The losing runs are
  `RecreateCanLose` and `RecreateCanLoseNext`.
- `createOrAddRef` waits, under the lock, until a terminating pod is gone, while the run that could take the finalizer
  off needs the same lock first (`PublisherCanStall`, for every job of the reconciler with a well-formed snapshot).
  Without a failed call the wait can end exactly when the pod is gone or not terminating, or its finalizer is off, or a
  run of the pod is already past its check (`LeavesIff`; otherwise it outlasts every run, `StallLasts`). In the code the
  publisher's deadline of 60 seconds makes its call fail. The wait of `podDeletedHandler`, which has no deadline of its
  own, can stall in the same way (`HandlerCanStall`).
- A stale snapshot without references is not compared with the server before the delete-at stamp is given
  (`StaleStampIff`); a run can stamp a pod with references exactly when its snapshot shows the pod alive, without
  references, with a delay and without a stamp (`StampsReferencedIff`). Bringing a pod back is the only other way to a
  stamp beside references, by creation from a fetched pod that has both (`RecreateCopiesStamp`) or by a merge with a
  stamped one (`MergeMeetsStamp`); `BesideIff` has the condition for each.
- An environment variable named `encrypt_rsa_key` or `initconfig` replaces the setting's own value in the secret, and
  so in the file that the commands read (`RsaFileIs`, `InitFileIs`).
- A target under a later mount is taken for that mount's device by the process-mode unmount: other devices lose a mount
  exactly when the device on top is another one with two mounts (`OtherDevicesUntouchedIff`, with the tables of
  `CoveredTargetTakesOther`), and the target's own device is freed as promised exactly when nothing covers the target or
  the device does not have two mounts (`DeviceFreedIff`).
- A word that `EscapeBashStr` quoted survives `QuoteForShell` exactly when it has no parenthesis (`QuotedTwiceIff`;
  `ParenthesisIsBackslashed` shows `f(`), and the mount path is found again in the printed command exactly when it
  needed no quoting (`MountPathRoundTripIff`; `DollarPathIsLost` has a path with "$").
- The last `subdir=` option decides exactly when its value has no further "="; otherwise the one before it does
  (`LastSubdirDecidesIff`, `WinnerIff`), and when all have one, the sub-path alone is left (`SubdirWithEqualsIsLost`).
- An index entry that cannot be looked up ends the walk of `addIndex`, because `container/list` clears the links of a
  removed element; the order survives exactly when the rest of the list is newer (`AddKeepsOrderIff`).
- An empty `cache-dir=` as the only cache directory is removed from the options in place, without shortening them: the
  last option is then there once more, exactly when it is another option than the one removed, and a volume is mounted
  at an empty path (`EmptyCacheDir`). The mounted paths agree with the last option exactly as `PathsAgreeIff` says.
- An app that uses the sidecars' names can end up with two containers of one name (`ReservedNamesCollide`); an injection
  keeps the pod well-formed exactly under `NamesFree` (`InjectionWellFormedIff`).
- A shared volume of the sidecars, `jfs-dir` or `updatedb`, is the app's own volume of that name if it has one; the
  sidecars see what the builder meant exactly when that one has the builders' source
  (`SidecarsSeeTheirVolumesIff`; `OwnJfsDirIsShown` has an app with an empty dir of that name).

Two comments promise something else than the code does, and the model follows the code. pkg/util/security/escape.go:28
gives `$'$\'$a'\'` as the quoted form of `$'a'`; the code yields `$'$\'a\''`. By its name and comment,
`umountTargetUntilRemain` (pkg/controller/pod_driver.go:616-650) unmounts until few enough mounts are left; it unmounts
at most once and then waits for its deadline.

## Model

| member | source | states |
|---|---|---|
| PodLocks.Stripe | pkg/config/config.go:141-148 | every pod name selects one of the 1024 mutexes |
| PodLocks.HashOfA | pkg/config/config.go:141-148 | the hash is 32-bit FNV-1a: its test vector for "a" |
| ProtocolSafety.StepKeeps | pkg/controller/pod_driver.go:129-205 | the inductive invariant: what each program counter relies on survives every step of every actor and of the environment |
| ProtocolSafety.ReachableInv | pkg/controller/pod_driver.go:129-205 | hence it holds in every reachable world |
| ProtocolTheorems.NoTwoStripes | pkg/config/config.go:141-148 | no actor ever holds two stripes |
| ProtocolTheorems.MutualExclusion | pkg/config/config.go:141-148 | two actors inside the lock work on different stripes, hence on different pods |
| ProtocolTheorems.BusyCanMove | pkg/juicefs/juicefs.go:644-648 | an actor that waits for no lock has a step of its own that gets it on, exactly unless it polls for a pod that is still terminating |
| ProtocolTheorems.NoLockCycle | pkg/config/config.go:141-148 | no cycle of lock waits, also among pods that share a stripe: whoever blocks a waiting actor waits for no lock, and can get on exactly unless it polls for a terminating pod |
| ProtocolStalls.LeavesIff | pkg/juicefs/mount/pod_mount.go:327-334 | in every reachable world, a publisher or handler that polls under the lock can get on without a failed call exactly when the pod is gone or not terminating, its finalizer is off, or a run of the pod is past the lock and about to take it off |
| ProtocolStalls.StallLasts | pkg/controller/pod_driver.go:348-355 | otherwise, after every run in which no call of that actor fails, it still polls and the pod is still stored, terminating and with its finalizer |
| ProtocolStalls.PublisherCanStall | pkg/controller/pod_driver.go:129-132 | this happens, for every job with a well-formed snapshot: the publisher holds the lock that the run of the pod waits for |
| ProtocolStalls.HandlerCanStall | pkg/controller/pod_driver.go:340-355 | and for every such job that gets to its handler: the handler polls for a next incarnation that was deleted while it was without the lock |
| ProtocolTheorems.DeletesOnlyIdlePods | pkg/juicefs/mount/pod_mount.go:172-213 | in every interleaving, `JUmount` and `checkAnnotations` delete a pod only when the server stores no reference for it at that moment; when they do delete one, `UnpublishDoes` and `CheckDoes` say |
| ProtocolTheorems.UnpublisherStampsOnlyIdlePods | pkg/util/util.go:308-336 | an unpublisher gives a delete-at stamp only to a pod without references |
| ProtocolTheorems.WritesAreAtomic | pkg/util/pod.go:181-219 | refinement: each action changes the reference set of its pod as one permitted atomic operation (create, add, remove, prune, merge) and no other pod, so within one incarnation no update of another actor is lost; a creation may start with any set |
| ProtocolTheorems.PruneEffect | pkg/controller/pod_driver.go:135-151 | a prune takes out the snapshot's references with unlisted app pods and nothing else |
| ProtocolTheorems.PruneAllOrNothing | pkg/controller/pod_driver.go:155-170 | a prune from a stale snapshot does nothing, or the counts agreed and every key was there and exactly those keys go |
| ProtocolTheorems.ConflictEndsRun | pkg/controller/pod_driver.go:155-166 | over every run: once inside its check with keys to remove and another number of references stored than it saw, it never patches, stamps, deletes or gets to its handler |
| ProtocolTheorems.ReferenceSurvives | pkg/controller/pod_driver.go:135-170 | a stored reference goes only with its pod, by its own unpublisher, or by a reconciler that saw it and misses its app pod |
| ProtocolTheorems.ReferencePersists | pkg/util/pod.go:181-219 | over whole runs, a reference stays as long as no such action hits it |
| ProtocolRecreate.RecreateKeepsFetched | pkg/controller/pod_driver.go:316-415 | whatever the run was started with: after the handler's write the pod has exactly the fetched references and those of the pod it found |
| ProtocolRecreate.RecreateLosesNothing | pkg/controller/pod_driver.go:316-415 | when the fetched incarnation is that of the snapshot, and it was deleted before the run or must be deleted by its check, the write stores all references the vanished incarnation had at its end |
| ProtocolRecreate.PublishKeepsOthers | pkg/juicefs/mount/pod_mount.go:307-385 | a successful publication adds its target and drops nothing |
| ProtocolRecreate.FetchedIsTooLargeAtMost | pkg/juicefs/mount/pod_mount.go:447-478 | in the same case, since terminating pods refuse references, the handler's snapshot covers the old incarnation at every moment |
| ProtocolRecreate.HandlerThenPublisher | pkg/controller/pod_driver.go:316-415 | if the handler wins the race, in the end the pod has the fetched references and the new target, and in the same case all the old incarnation had |
| ProtocolRecreate.PublisherThenHandler | pkg/juicefs/mount/pod_mount.go:327-383 | the same if the publisher wins |
| ProtocolAtomicity.PublishIsAtomic | pkg/juicefs/mount/pod_mount.go:327-385 | over every run from getting the lock to its release, in which no call of the publisher fails and others act as they like: the pod is as after one addition, or one creation if there was none or it was going; only a deletion from outside can make it give up |
| ProtocolAtomicity.PublishDoes | pkg/juicefs/mount/pod_mount.go:447-478 | hence, unless deleted from outside, the pod is stored, live and references the target, the other references and annotations of a live pod are kept and its stamp is gone |
| ProtocolAtomicity.UnpublishIsAtomic | pkg/juicefs/juicefs.go:644-668 | likewise, an unpublisher leaves the pod as after one removal and one retirement |
| ProtocolAtomicity.UnpublishDoes | pkg/juicefs/mount/pod_mount.go:130-213 | hence its reference is gone and no other; the pod is deleted exactly when no reference is left and no delay is set, the delay or the stamp cannot be decoded, or the stamp is not in the future; it is stamped exactly when none is left, a delay is set and there was no stamp; nothing else changes |
| ProtocolAtomicity.CheckIsAtomic | pkg/controller/pod_driver.go:129-205 | likewise, `checkAnnotations` leaves the pod as after one call of it on the run's snapshot, and the run goes on exactly when that call succeeds |
| ProtocolAtomicity.CheckDoes | pkg/controller/pod_driver.go:135-203 | hence it takes out the snapshot's dead references or is refused, and deletes the pod exactly when it is not refused, the snapshot shows no live reference and its delay is over, and no reference is left stored |
| ProtocolAtomicity.BringingBackIsAtomic | pkg/controller/pod_driver.go:340-415 | likewise, a handler merges the fetched references into the live pod it found, or creates the pod with all annotations it fetched, the delay included |
| ProtocolLosses.RecreateCanLose | pkg/controller/pod_driver.go:85-108 | for every job that `OwnLossIff` admits and every two free targets: a run that loses a publication to the incarnation it was started with |
| ProtocolLosses.RecreateCanLoseNext | pkg/controller/pod_driver.go:85-108 | for every job that gets to its handler: a run that loses a publication to the next incarnation |
| ProtocolLosses.OwnLossIff | pkg/controller/pod_driver.go:85-108 | for every job: a reachable run loses a reference of its own incarnation exactly when started in error with the pod alive and not bound to delete it |
| ProtocolLosses.LaterLossIff | pkg/controller/pod_driver.go:276-415 | for every job: it loses one of another incarnation exactly when it can get to its handler |
| ProtocolStamps.StampBesideReferences | pkg/controller/pod_driver.go:171-177 | such a stamp is stored beside the references |
| ProtocolStamps.RunStampsLatePod | pkg/controller/pod_driver.go:129-205 | a run that stamps a pod a publisher has added to meanwhile |
| ProtocolStamps.StampsReferencedIff | pkg/controller/pod_driver.go:129-205 | for every job: a reachable run stamps a pod with references exactly when its snapshot is live, without references, with a delay and unstamped |
| ProtocolStamps.BesideIff | pkg/controller/pod_driver.go:171-177 | for every action in every reachable world: a pod comes to have a stamp and references exactly by the check's stamp on a pod with references, by the handler's creation from a fetched pod with both, or by its merge with a stamped pod when either has references |
| ProtocolStamps.RecreateCopiesStamp | pkg/controller/pod_driver.go:356-386 | the second is reachable, for every job that can stamp a referenced pod and was started in error |
| ProtocolStamps.MergeMeetsStamp | pkg/controller/pod_driver.go:403-415 | the third is reachable, for every job with live references that gets to its handler |
| MountPod.NeverDelaysIff | pkg/util/util.go:308-336 | whatever the time, the verdict is to delete exactly when no delay is set, or it or its stamp cannot be decoded |
| MountPod.VerdictIs | pkg/util/util.go:308-336 | the verdict is to delete exactly when no delay is set, or it cannot be decoded and there is no stamp, or the stamp cannot be decoded or is not in the future; it is to stamp exactly for a delay without a stamp, with the end of the delay cut off to seconds |
| MountPod.LiveByUid | pkg/controller/pod_driver.go:137-149 | the reference of a target is live exactly when the app pod in its path is listed, and dead exactly when it is not |
| MountPod.RefsAre | pkg/util/pod.go:221-229 | a target is referenced exactly when its own key has it as value |
| TargetPath.PodUidIff | pkg/controller/mountinfo.go:235-247 | a target has an app pod exactly when it is the element before its only CSI directory, below the root |
| TargetPath.PVNameIff | pkg/controller/mountinfo.go:249-261 | a target has a volume exactly when it is the element behind its only CSI directory |
| TargetPath.TargetParts | pkg/controller/mountinfo.go:235-261 | the two parts of every target as the kubelet makes it, empty ones included |
| PodOps.RetireEffect | pkg/juicefs/mount/pod_mount.go:172-213 | on the annotations: an idle pod is terminating afterwards exactly when its delay is over, and stamped exactly when a delay is set without a stamp; a pod with references stays |
| PodOps.PruneRefusedIff | pkg/controller/pod_driver.go:155-170 | a prune is refused exactly when there is something to remove and the numbers of references differ or a key is missing |
| PodOps.PruneStoredEffect | pkg/controller/pod_driver.go:155-170 | else the snapshot's dead references go, and all else but the stamp stays |
| PodOps.CheckDeletes | pkg/controller/pod_driver.go:171-203 | on any snapshot, stale or not: exactly when the check deletes the pod |
| PodOps.CheckFails | pkg/controller/pod_driver.go:155-203 | and exactly when it ends with an error |
| PodOps.CheckEffect | pkg/controller/pod_driver.go:129-205 | on the stored pod: exactly the references of listed app pods remain; it is deleted exactly when none remains and its delay is over; the stamp is given, taken off or kept exactly as stated |
| MountPod.PatchRemoveAllOrNothing | pkg/util/pod.go:181-200 | a list of JSON Patch removes applies exactly when no key repeats and all are there, and removes exactly those |
| PodMount.ApiServer.ReplaceAnnotations | pkg/util/pod.go:202-219 | the whole annotation map is replaced, or nothing changes |
| PodMount.ApiServer.RemoveAnnotations | pkg/util/pod.go:181-200 | all listed keys go when they are distinct and there, or nothing changes |
| PodMount.ApiServer.AddDeleteAt | pkg/util/pod.go:162-179 | a merge patch that sets the stamp and nothing else |
| PodMount.GetRef | pkg/juicefs/mount/pod_mount.go:626-634 | the number of distinct references among the annotations |
| PodMount.PodMounter.AddRefOfMount | pkg/juicefs/mount/pod_mount.go:447-478 | adds the reference and drops the stamp on a live pod; fails without effect otherwise; with a reliable server it succeeds exactly for live pods |
| PodMount.PodMounter.CreateOrAddRef | pkg/juicefs/mount/pod_mount.go:307-385 | adds the reference to a live pod, or creates the pod when it is missing or goes while the method waits |
| PodMount.PodMounter.RemoveRef | pkg/juicefs/mount/pod_mount.go:130-169 | takes the one reference away and leaves all else; a missing pod is fine |
| PodMount.PodMounter.GetMountRef | pkg/juicefs/mount/pod_mount.go:92-102 | the stored number of references, 0 for a missing pod |
| PodMount.PodMounter.RetireOnce | pkg/juicefs/mount/pod_mount.go:174-211 | one attempt of the retry loop, on the pod as it is stored now |
| PodMount.PodMounter.JUmount | pkg/juicefs/mount/pod_mount.go:172-213 | retires a pod without references: it is terminating afterwards exactly when its delay is over, else stamped or left waiting; others stay |
| PodMount.PodMounter.FindMountPod | pkg/juicefs/juicefs.go:608-642 | the first candidate that carries the target's key, the exactly named pod first; none exactly when no candidate carries it |
| PodMount.PodMounter.Unmount | pkg/juicefs/juicefs.go:608-668 | the choice and the rest composed: without a candidate nothing changes, otherwise only the chosen pod does |
| PodMount.PodMounter.JfsUnmount | pkg/juicefs/juicefs.go:644-668 | removal and retirement composed: a live pod is terminating afterwards exactly when the target was its only reference and its delay is over; an error leaves at most the removal done |
| PodMount.PodDriver.Inspect | pkg/controller/pod_driver.go:135-154 | collects exactly the dead references (and the stamp beside live ones) and counts the live ones |
| PodMount.PodDriver.PruneKeysOf | pkg/controller/pod_driver.go:155-170 | prunes exactly when counts agree and all keys are there, else changes nothing |
| PodMount.PodDriver.RetireUnlessReferenced | pkg/controller/pod_driver.go:171-203 | stamps by the snapshot, deletes only after looking at the stored references |
| PodMount.PodDriver.CheckAnnotations | pkg/controller/pod_driver.go:129-205 | both halves composed, with the exact condition of success on a reliable server, and for a current snapshot which references remain and when the pod is deleted |
| RefHistory.Conservation | pkg/juicefs/mount/pod_mount.go:447-478 | after any adds and removes the references are exactly the targets added and not removed since; repeats count once |
| RefHistory.OthersUntouched | pkg/util/pod.go:181-219 | annotations other than references and the stamp never change |
| DelayedDelete.PruneCurrent | pkg/controller/pod_driver.go:135-170 | with a current snapshot exactly the references with listed app pods remain |
| DelayedDelete.RunValid | pkg/controller/pod_driver.go:171-177 | the stamp, the time without references and the configured delay stay consistent over every run |
| DelayedDelete.StampOnlyWhileIdle | pkg/juicefs/mount/pod_mount.go:467-471 | over every run, a stamp exists only without references, and a publication erases it |
| DelayedDelete.DeletedOnlyAfterDelay | pkg/util/util.go:294-336 | a pod with delay d is deleted only after it had no reference for d, up to the truncation to a second |
| DelayedDelete.DeletedOnceDelayIsOver | pkg/util/util.go:330-336 | over every run: a pod that was stamped d ago and has had no reference since is deleted by the next check or unpublication |
| DelayedDelete.IdleIsStamped | pkg/util/util.go:315-329 | an idle pod with a delay and without a stamp is stamped by the next check or unpublication, at that time |
| DelayedDelete.CheckDeletesIff | pkg/controller/pod_driver.go:171-203 | the reconciler deletes exactly when no live reference is left and the delay is absent, undecodable or over |
| DelayedDelete.PruneOfAllIsComplete | pkg/controller/pod_driver.go:155-170 | comparing counts suffices: pruning all of a stale snapshot's references leaves none |
| DelayedDelete.StaleStampIff | pkg/controller/pod_driver.go:171-177 | the exact case in which a stale snapshot stamps a pod with references |
| PodVolumes.GenJuiceVolumes | pkg/juicefs/mount/builder/common.go:282-346 | one volume and one mount for the RSA key, the init config and each config |
| PodVolumes.GenPodVolumes | pkg/juicefs/mount/builder/pod.go:211-250 | the shared directory and, unless immutable, updatedb.conf |
| PodVolumes.GenCacheDirVolumes | pkg/juicefs/mount/builder/pod.go:98-184 | host directories, claims, the empty dir and inline volumes, each with its mount |
| PodVolumes.GenPortableCacheVolumes | pkg/juicefs/mount/builder/serverless.go:166-221 | the same without host directories |
| PodVolumes.GenHostPathVolumes | pkg/juicefs/mount/builder/pod.go:186-208 | one volume and one mount per host path |
| PodVolumes.GenServerlessVolumes | pkg/juicefs/mount/builder/serverless.go:121-164 | the shared directory and the check script |
| PodVolumes.NewMountPod | pkg/juicefs/mount/builder/pod.go:44-76 | all parts in the builder's order, volumes and mounts one to one |
| PodVolumes.NewMountSidecar | pkg/juicefs/mount/builder/container.go:49-55 | the container sidecar adds the check script; the serverless one leaves out host paths |
| PodVolumes.RoleNameInjective | pkg/juicefs/mount/builder/pod.go:99-184 | the printed volume names of different roles and indices differ |
| PodVolumes.VolumeNamesDiffer | pkg/juicefs/mount/builder/pod.go:44-76 | all volumes of a mount pod, and of a sidecar, have distinct names |
| PodFiles.MountPodMounts | pkg/juicefs/mount/builder/pod.go:44-76 | which source a mount pod mounts at which path, exactly, without the slots |
| PodFiles.SidecarMounts | pkg/juicefs/mount/builder/container.go:49-55 | the same for both kinds of sidecars |
| PodFiles.RsaFileIs | pkg/juicefs/mount/builder/common.go:291-310 | in every mount pod and sidecar, `/root/.rsa/rsa-key.pem` shows the setting's key, or the environment variable of that name |
| PodFiles.InitFileIs | pkg/juicefs/mount/builder/common.go:311-327 | likewise the init config below `/etc/juicefs` |
| PodFiles.CommandsNameFiles | pkg/juicefs/mount/builder/common.go:133-178 | the commands name these very files: the init command copies the config and formats with the key, the enterprise edition mounts with it |
| PodFiles.AppSeesTheMount | pkg/juicefs/mount/builder/container.go:99-107 | the volume of a claim is the directory of the host that its first sidecar mounts on below `/jfs` |
| Sidecar.Deduplicate | pkg/webhook/handler/mutate/sidecar.go:143-171 | renames the mount container and the clashing volumes together with the mount found for each |
| Sidecar.RenameOne | pkg/webhook/handler/mutate/sidecar.go:152-168 | one volume: renamed exactly when its name is taken and not shared, together with its mount |
| Sidecar.InjectVolume | pkg/webhook/handler/mutate/sidecar.go:213-246 | rewrites the claim's volumes to the host mount in place and appends the others, skipping shared ones that exist |
| Sidecar.MutateOne | pkg/webhook/handler/mutate/sidecar.go:69-141 | one sidecar into a copy; refused exactly without settings or below 1 GiB |
| Sidecar.Mutate | pkg/webhook/handler/mutate/sidecar.go:58-67 | the fold over all pairs; one refused pair refuses all; the original pod is not changed |
| SidecarNames.RenamedInjective | pkg/webhook/handler/mutate/sidecar.go:150-169 | renamed volumes of different sidecars never share a name |
| SidecarSafety.NewContainerName | pkg/webhook/handler/mutate/sidecar.go:144-149 | the renaming loop ends with a name no container has |
| SidecarSafety.NewMounts | pkg/webhook/handler/mutate/sidecar.go:151-169 | volumes and mounts are renamed alike |
| SidecarSafety.VolumesDistinctIff | pkg/webhook/handler/mutate/sidecar.go:150-169 | the volume names stay distinct exactly when the new names of the clashing volumes are free |
| SidecarSafety.VolumesStayDistinct | pkg/webhook/handler/mutate/sidecar.go:213-246 | kept and added volumes have distinct names after every step |
| SidecarTheorems.InjectionWellFormedIff | pkg/webhook/handler/mutate/sidecar.go:143-171 | whatever names the app uses: one injection keeps the pod well-formed exactly when the mount container's new name is free and so is the new name of each clashing volume |
| SidecarTheorems.SidecarsKeepPodWellFormed | pkg/webhook/handler/mutate/sidecar.go:58-67 | for any number of pairs and both builders: container names and volume names stay distinct, every mount has a volume, the app's containers are an unchanged suffix |
| SidecarTheorems.AppKeepsItsVolumes | pkg/webhook/handler/mutate/sidecar.go:227-246 | the app's volumes keep name and place; only volumes of the pairs' claims change source; foreign labels stay |
| SidecarTheorems.RewrittenIs | pkg/juicefs/mount/builder/container.go:99-107 | a claim's volume shows the mount of the first pair with that claim; all else stays |
| SidecarMeaning.SidecarsKeepTheirVolumes | pkg/webhook/handler/mutate/sidecar.go:143-171 | renaming keeps the meaning for every app: in the final pod each mount of each sidecar is at its path and names the shared volume, or a volume with the builder's source (but for claims rewritten later) |
| SidecarMeaning.SharedVolumeIff | pkg/webhook/handler/mutate/sidecar.go:219-226 | a used shared volume has the builders' source in the end exactly when the app has none of that name or one that ends up with it |
| SidecarMeaning.SidecarsSeeTheirVolumesIff | pkg/webhook/handler/mutate/sidecar.go:143-246 | all mounts of all sidecars show what the builder made for them exactly when that holds for each shared name in use |
| SidecarMeaning.OwnJfsDirIsShown | pkg/webhook/handler/mutate/sidecar.go:219-226 | for an app with an empty dir called like the shared directory, the sidecar does not show what the builder meant |
| SidecarTheorems.ReservedNamesCollide | pkg/webhook/handler/mutate/sidecar.go:144-149 | without the naming assumption a collision happens |
| MountInfo.ParseMountInfo | pkg/util/util.go:137-187 | the whole table, or nothing at the first bad line; no field access is out of range |
| MountInfo.ParseLine | pkg/util/util.go:149-183 | one line; optional fields end at "-"; at least ten fields and three behind the separator |
| MountInfo.LineParsesIff | pkg/util/util.go:149-183 | exactly which lines are understood |
| MountInfo.ParseLinesIff | pkg/util/util.go:137-187 | the table is refused exactly when some line is not empty and not understood, else it has one entry for each other line |
| MountInfo.ParsePrinted | pkg/util/util.go:137-187 | parsing a printed table gives it back, for any number of entries and optional fields |
| ProcessMount.SearchMountPoints | pkg/util/util.go:189-230 | the other mount points of the device on top of a path |
| ProcessMount.SearchIs | pkg/util/util.go:189-230 | exactly which mount points are found, on the fields, and when the search fails |
| ProcessMount.WithinIff | pkg/util/util.go:203 | a clean path is within another one exactly when that one's elements come first in it |
| ProcessMount.ProcessMounter.Unmount | pkg/juicefs/mount/process_mount.go:314-316 | takes the topmost mount of a mount point away, or nothing; it can always fail for a mount hidden under a later one |
| ProcessMount.ProcessMounter.GetMountRef | pkg/juicefs/mount/process_mount.go:233-269 | their number, 0 for what is not mounted |
| ProcessMount.ProcessMounter.JUmount | pkg/juicefs/mount/process_mount.go:278-328 | unmounts the target, and the single remaining mount with it |
| ProcessMount.SearchCounts | pkg/util/util.go:189-230 | the search finds one less than the mounts of the device on top |
| ProcessMount.UnmountTakes | pkg/juicefs/mount/process_mount.go:311-326 | for every mounted target, covered or not: it goes, and with it the other mount of the device on top if there is exactly one |
| ProcessMount.UnmountConserves | pkg/juicefs/mount/process_mount.go:317-326 | a target on top goes alone or with the last mount of its device; the device is free exactly when it had at most two mounts; other devices keep all theirs |
| ProcessMount.DeviceFreedIff | pkg/juicefs/mount/process_mount.go:311-326 | for every mounted target: "free exactly when at most two mounts" holds exactly when nothing covers the target or its device does not have two mounts |
| ProcessMount.OtherDevicesUntouchedIff | pkg/juicefs/mount/process_mount.go:311-326 | other devices keep all theirs exactly when the device on top is the target's or does not have two mounts |
| ProcessMount.CoveredTargetTakesOther | pkg/util/util.go:189-230 | for any devices and names, a table with a root mount in which a mount of another device goes along when the unmounts succeed |
| TargetTable.ResolveTargetItem | pkg/controller/mountinfo.go:115-155 | the grouping loop computes the specification `Group` |
| TargetTable.GroupIs | pkg/controller/mountinfo.go:115-155 | one record per distinct matching mount point, with its number of mounts, inconsistent exactly when two roots differ |
| TargetTable.NormalRootIff | pkg/controller/mountinfo.go:133-134 | the root that is compared is what stands between the slashes around it, and the mark of a deleted directory does not count |
| TargetTable.SubPathPrefixIs | pkg/controller/mountinfo.go:77-110 | where the sub-paths of a target are looked for, and which targets are not resolved |
| TargetTable.CountsAddUp | pkg/controller/mountinfo.go:115-155 | the counts sum up to the number of matching entries |
| TargetTable.GroupShowsFirst | pkg/controller/mountinfo.go:115-155 | a record shows the root of the first mount of its mount point |
| TargetTable.ResolveTarget | pkg/controller/mountinfo.go:77-113 | the record of the target with the root and number of its mounts, those of its sub-paths, and the state of its app pod |
| Recover.NodeMounts.UmountTargetUntilRemain | pkg/controller/pod_driver.go:617-650 | succeeds exactly below the limit; otherwise unmounts at most once and fails |
| Recover.NodeMounts.UmountTarget | pkg/controller/pod_driver.go:605-614 | as many attempts as the record counts |
| Recover.NodeMounts.RecoverTarget | pkg/controller/pod_driver.go:545-602 | one round: the table afterwards, for every status and outcome |
| Recover.RoundBounds | pkg/controller/pod_driver.go:565-597 | at most one mount more and only below five; at most one less and only from five on; other mount points untouched |
| Recover.RoundAddsIff | pkg/controller/pod_driver.go:565-597 | exactly when a round adds and when it removes a mount, stated on the target, the table and the outcomes |
| Recover.RoundBinds | pkg/controller/pod_driver.go:582-597 | the mount that is added is on top, at the target, and that of the volume's directory or of the sub-path in it |
| Recover.CleaningEmptiesTarget | pkg/controller/pod_driver.go:547-556 | a deleted pod's target loses all its mounts |
| Recover.StackStaysBounded | pkg/controller/pod_driver.go:42-45 | over any rounds a target never exceeds the larger of its first count and 5, nor falls below the smaller of its first count and 4 |
| Recover.StackSettles | pkg/controller/pod_driver.go:565-597 | repeated repair of one target settles at four or five mounts |
| TimeIndex.TimeOrderedIndexes.AddIndex | pkg/dashboard/index.go:71-96 | the walk from the back with its four ways out |
| TimeIndex.TimeOrderedIndexes.RemoveIndex | pkg/dashboard/index.go:98-107 | removes the first occurrence only |
| TimeIndex.TimeOrderedIndexes.Debug | pkg/dashboard/index.go:109-117 | the names in list order |
| TimeIndex.AddedInOrder | pkg/dashboard/index.go:71-96 | a listed resource changes nothing; another goes in between the older and the not older entries |
| TimeIndex.AddKeepsOrderIff | pkg/dashboard/index.go:79-95 | with failing lookups allowed, the order and the distinct UIDs survive exactly under a condition on the unseen part |
| TimeIndex.RemovedKeeps | pkg/dashboard/index.go:98-107 | a removal keeps the order and takes away that one name |
| TimeIndex.StaleEntryBreaksOrder | pkg/dashboard/index.go:79-85 | a concrete list that a failing lookup breaks |
| TimeIndex.IndexStaysOrdered | pkg/dashboard/index.go:71-107 | over any run of appearing, vanishing, adding and removing: ascending times, no repeated UID, and exactly the names added and not removed |
| Escape.ContainsOne | pkg/util/security/escape.go:38-49 | true exactly when a listed character occurs |
| Escape.TwoPassesAreOneMap | pkg/util/security/escape.go:33-34 | the two replacement passes equal one map per character |
| Escape.EscapeRoundTrip | pkg/util/security/escape.go:29-36 | ANSI-C decoding (Bash Reference Manual, section 3.1.2.4) gives the word back, and only the last character closes the quote |
| Escape.QuotedIff | pkg/util/security/escape.go:23-36 | a word is quoted exactly when it has one of the eight characters, and else left as it is |
| Escape.QuotedTwiceIff | pkg/util/util.go:338-346 | the second quoting keeps the word exactly when it has no parenthesis |
| Escape.ParenthesisIsBackslashed | pkg/util/util.go:338-346 | for the word `f(`: the doubly quoted word decodes to another one, with a backslash before the parenthesis |
| GoPath.RootedIs | pkg/juicefs/mount/builder/common.go:180-194 | a path rooted at "/" is its cleaned elements, and no ".." is left in them |
| GoPath.NoStepBack | pkg/juicefs/mount/builder/common.go:180-194 | a path without ".." is walked as it is |
| GoPath.StepBack | pkg/juicefs/mount/builder/common.go:180-194 | a ".." takes the element before it away |
| GoPath.StepBackFirst | pkg/juicefs/mount/builder/common.go:180-194 | at the start, ".." is left out at the root and kept otherwise |
| GoPath.CleanIsNormal | pkg/juicefs/mount/builder/common.go:180-194 | elements joined by single slashes are clean already |
| SubPath.JfsSetting.GetQuotaPath | pkg/juicefs/mount/builder/common.go:180-194 | the last single-"=" subdir, rooted, joined with the sub-path |
| SubPath.JfsSetting.OverwriteSubdirWithSubPath | pkg/juicefs/mount/builder/common.go:196-215 | rewrites the options in place: the others in order, then one subdir |
| SubPath.MountAndQuotaAgree | pkg/juicefs/mount/builder/common.go:180-215 | exactly one subdir option is left, and it names the directory that got the quota: the one reached by walking the deciding value and then the sub-path from the root |
| SubPath.SubPathComesLast | pkg/juicefs/mount/builder/common.go:180-215 | a sub-path without ".." makes up the last elements of that directory |
| SubPath.OthersConcat | pkg/juicefs/mount/builder/common.go:200-213 | all other options are kept, in order |
| SubPath.LastSubdirDecidesIff | pkg/juicefs/mount/builder/common.go:180-215 | for every option list: the last subdir option decides exactly when its value has no further "="; otherwise mount and quota are as without it |
| SubPath.WinnerIff | pkg/juicefs/mount/builder/common.go:180-215 | which subdir option decides: the last one whose value has no further "=" |
| SubPath.SubdirWithEqualsIsLost | pkg/juicefs/mount/builder/common.go:180-215 | when every subdir value has a further "=", mount and quota name the sub-path alone |
| FormatOptions.ParseFormatOptions | pkg/config/setting.go:473-496 | the loop computes the specification `Parse` |
| FormatOptions.ParseFailsIff | pkg/config/setting.go:478-480 | refused exactly when some piece has a key and an empty value |
| FormatOptions.ParseWritten | pkg/config/setting.go:473-496 | the comma-joined text of clean pairs parses back, values with "=" included |
| FormatOptions.RepresentFormatOptions | pkg/config/setting.go:498-508 | one escaped option per pair, in order |
| FormatOptions.StripFormatOptions | pkg/config/setting.go:510-529 | the same with stripped values replaced by variables |
| FormatOptions.FormsDifferIff | pkg/config/setting.go:498-529 | the two forms differ exactly at stripped keys with a value |
| FormatOptions.OptionsSay | pkg/config/setting.go:498-529 | what each option says: "--", the key, and "=" with the value or a reference to the variable of that name |
| FormatOptions.LoosePiece | pkg/config/setting.go:473-496 | white space around a piece, its key and its value does not count |
| MountCommand.ParsePrinted | pkg/util/util.go:279-292 | what the parser finds in a printed command, for both editions and any init command, whether or not the path was quoted |
| MountCommand.CommandIs | pkg/juicefs/mount/builder/common.go:133-162 | the printed command word by word: client, source, mount path, `-o` and the options |
| MountCommand.OptionsAre | pkg/juicefs/mount/builder/common.go:139-157 | all options of the user are among them in order, with exactly what each edition adds |
| MountCommand.OptionsReachCommand | pkg/juicefs/mount/builder/common.go:149-158 | the last word stands for a text that splits into exactly these options, unless they have parentheses or commas |
| MountCommand.PodCommandLines | pkg/juicefs/mount/builder/pod.go:48-54 | the pod runs all lines of the init command and then the mount command |
| MountCommand.MountPathRoundTripIff | pkg/juicefs/mount/builder/common.go:133-178 | printer and parser undo each other exactly when the path needs no quoting |
| MountCommand.DollarPathIsLost | pkg/util/util.go:279-292 | for every mount path whose name starts with "$", the driver does not find the path of the pod it built |
| CacheDirs.ParseSetting | pkg/config/setting.go:172-270 | the parsed cache part, errors included, with the options array edited in place |
| CacheDirs.TakeCacheDir | pkg/config/setting.go:241-253 | takes the first well-formed cache-dir option out, shifting the array |
| CacheDirs.RemoveAt | pkg/config/setting.go:249 | the in-place removal: entries move up and the last one stays doubled |
| CacheDirs.ParseClaims | pkg/config/setting.go:172-189 | a claim and a path per non-empty name, numbered by its place in the list |
| CacheDirs.ParseInlines | pkg/config/setting.go:220-237 | a volume and a path per listed driver |
| CacheDirs.ClaimsListed | pkg/config/setting.go:172-189 | a comma-joined list with white space around it lists exactly these claims |
| CacheDirs.ClaimsAre | pkg/config/setting.go:172-189 | claim by claim: the name and the directory, numbered by its place; empty names are skipped |
| CacheDirs.EmptyDirIs | pkg/config/setting.go:190-219 | medium and size of an empty dir, given as "medium" or "medium:size" |
| CacheDirs.OptionDirsAre | pkg/config/setting.go:241-253 | the first `cache-dir=a:b` gives exactly these directories, for any number of them |
| CacheDirs.OptionsRewritten | pkg/config/setting.go:241-260 | only the first option of that kind is taken out, all others stay in order, and the rebuilt one is put at the end |
| CacheDirs.MemoryLeftOut | pkg/config/setting.go:265-270 | "memory" is not mounted, every other entry as often as it is listed |
| CacheDirs.DirsSplit | pkg/config/setting.go:255-260 | splitting the rebuilt value gives the assembled list back |
| CacheDirs.CacheDirsAgree | pkg/juicefs/mount/builder/pod.go:99-184 | the mounted paths are, as a multiset, those of the rebuilt option minus "memory" |
| CacheDirs.NoCacheDirs | pkg/config/setting.go:261-264 | without directories the default one is mounted and the options stay |
| CacheDirs.EmptyCacheDir | pkg/config/setting.go:241-259 | an empty cache-dir= alone: it goes and the last entry stays behind; exactly when the last option gets one more, exactly when nothing changes; an empty path is mounted |
| CacheDirs.PathsAgreeIff | pkg/config/setting.go:238-270 | for all options and contexts: exactly when the mounted paths are those the last option lists |

## Left out

- The recreation of pods by `podErrorHandler` and `podPendingHandler` (pkg/controller/pod_driver.go:208-270, 422-481): it starts from a snapshot taken before the lock, so the no-loss claim does not hold there, and it deletes pods that have references.
- Deleting the mount pod's secret, unmounting and cleaning its mount point, and cleaning caches: side effects that the references do not depend on.
- At most one mount pod per volume and node: `genMountPodName` chooses a name outside the lock. In `Protocol` an unpublisher may name any pod; `PodMount.PodMounter.Unmount` models how it picks one.
- References equal live targets at all times: a reference removed from a terminating pod can come back with the pod until the next prune.
- SHA-256 in `GetReferenceKey`: abstract and injective. Durations and time stamps are kept decoded, in UTC.
- PodMount.PodMounter.CreateOrAddRef: while it polls, a deleted pod may go but nobody else creates one, since the class runs alone; the interleaved form is `Protocol`.
- PodMount.PodMounter.RemoveRef: the repeated unmounting and the clean-up of the target before it, which may fail first.
- PodLocks.Stripe: pod names are ASCII, and `int` has 64 bits (with 32, `int(h.Sum32())` can be negative); no property depends on how names spread over the stripes.
- ProtocolTheorems.NoLockCycle: fairness and the polling deadlines are not modelled, so no progress over time is claimed.
- Finalizers taken off elsewhere (pkg/controller/mount_controller.go:90, pkg/controller/pod_driver.go:221 and 435): only `podDeletedHandler` does it here.
- ProcessMount.ProcessMounter.Unmount: a mount hidden under a later mount of a parent directory can normally not be unmounted by its path; here that may fail or succeed.
- TargetTable.ResolveTarget: the status that `os.Stat` gives the records.
- DelayedDelete.DeletedOnlyAfterDelay: for current snapshots and UTC; `StaleStampIff` tells what a stale one can do.
- The order in which Go visits a map: annotations are visited in any order, and configs come as a sequence in any order.
- Sidecar.MutateOne: reading the secret, creating the secret per claim, annotations (the two builders give none), the VCI and CCI builders, init containers, and the container's command, probes and resources are not modelled; `OverwriteVolumeMounts` does nothing in the two builders.
- SidecarTheorems.SidecarsKeepPodWellFormed: for the fold, assumes that the app uses no container or volume name starting with `jfs-mount`; `InjectionWellFormedIff` has the exact condition for one step.
- Retries of `ConsistentRead`, and symbolic links and relative paths in `searchMountPoints`: paths are absolute and resolved.
- Mounts below an unmounted target (`umount -l` detaches them too) and the propagation of mounts between namespaces.
- PodFiles.RsaFileIs: only the items of the setting's own secret count; what a user mounts at the same place, file modes, the sub-path of the check script's mount and mount propagation are not modelled.
- PodFiles.CommandsNameFiles: for a volume name without a slash, which is what the volume names of JuiceFS are.
- ProtocolAtomicity.PublishIsAtomic: for runs in which no own call fails; what failing calls leave is stated step by step (`WritesAreAtomic`).
- Recover.StackStaysBounded: no claim that unmounting goes on until the limit is reached; the loop cannot do that.
- That a sub-path record belongs to the target's own volume: the prefix has no trailing slash, so volumes whose names share a prefix match as well.
- `BindTarget`, format and auth commands, metrics ports, resource quantities and JSON: a size limit and a list of inline volumes are parsed outside the model, which takes whether that succeeded.
- CacheDirs.ParseSetting: the options array has no spare capacity, which the caller could not see anyway.
- TimeIndex.TimeOrderedIndexes.AddIndex: the list is a sequence, not linked elements; the read-write mutex makes each call one step.
- kubelet and API clients, gRPC, time-outs and back-off: every call may fail.
