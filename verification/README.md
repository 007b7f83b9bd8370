# VolumeResize operator: a verified model

The operator shrinks the volumes of a StatefulSet. For each replica and volume it
creates a smaller temporary claim, takes the StatefulSet and the pod down, lets a
migrator pod copy the data, moves the original claim name to the new volume and
recreates the StatefulSet. A pass makes about twenty API calls, none of them
atomic with another; the process may stop between any two, any call may fail or
lose its answer, and the next pass knows only what the API server stores.

## How it is modelled

`Protocol` holds the cluster as a value, the moves of its environment (binder,
kubelet, StatefulSet controller, application, migrator, user) and the operator's
API calls, each with the guard under which the operator issues it. A run is a
sequence of allowed moves and calls from a fresh resource. A crash needs no step
of its own: it only means that later calls come from a later pass.

`Api.Cluster` is the API server a pass talks to, and keeps the writes the pass asked
for, in order. A script says for each call
whether it is answered, refused, or carried out with its answer lost, and what
the environment does before the operator goes on; when the script ends, the
process has crashed. A pass is fault-free (`smooth`) if every call was answered,
no deadline passed, no claim outlived a 60-poll wait, and no migrator it relied
on failed or vanished; only the cluster class decides this.

`Resource.VolumeResize` is the object in memory, edited in place. `Pvc`,
`StatefulSets`, `Migrator`, `Validation`, `Updates`, `Syncing`, `Handlers` and
`Controller` follow the files of the operator, method by method. Every method
keeps `Cluster.Valid()`: whatever the script, the calls made so far are a run. So
each theorem about runs is a theorem about these methods, with faults and crashes
anywhere.

`Safety`, `Placement`, `Custody`, `Stages` and `Marks` prove the invariants of
runs, `Rely` what a pass may rely on between two calls, `Theorems`, `History`,
`Conservation` and `Recovery` the results. `Script` writes runs down, stretch by
stretch, for `Example` and `Overwrite`, which show what the results leave open.

Claims, pods and volumes carry structured keys. `Names` proves that the printed
names keep those keys apart.

### Hypotheses

Some claims hold only outside certain windows. The history of a run records,
where it matters, whether the hypothesis held; no branch of the operator reads
these flags, and theorems name the ones they need. Each flag is set by the state
at one call, so it can be read off the log.

- `h1`: the temporary claim is gone when its volume is released. The 60-poll wait
  (`pvc.go:166-179`) may end without that.
- `h2`: no pass went on without having seen its migrator succeed
  (`volumeresize_controller.go:322-334` falls through when the pod cannot be read
  again or its phase is Unknown).
- `h3`: no migrator pod of a unit was left when its temporary claim was created
  (`History.HeldIsLogged`). The deletion of the pod at line 337 is not waited for and
  its error only logged; a pass that stops between the deletion of the temporary
  claim (`pvc.go:161`) and the record of the swap (line 349) may leave the finished
  pod, and the next pass, which creates the temporary claim anew, would take the old
  success for its own. A cleanup that succeeds gives h3 on a real server, which
  removes a finished pod at once when it is deleted; in the model the pod may stay.
- `h4`: the cursor never moved on while the annotation said "deleted" beside a
  live StatefulSet (`History.StaleIsLogged`). `History.FaultWindow` shows the one
  way to lose it: the StatefulSet is recreated at line 377, and before the update
  of line 386 clears the annotation, a later pass moves the cursor on.
- `h6`: each temporary claim was created while every original claim held the
  volume it names (`History.HeldIsLogged`). `Theorems.HandOver` shows that this is
  exactly when the new claim cannot be given a volume that another claim names.
- `rolledOut`: at the start every replica has all its claims, bound. Without it a
  claim that is created late can take the volume a recreated claim names
  (`Example.LatestDataUnrolled`).

`Sound` is all of the above. A fault-free pass asks two things of the environment,
both read off the state at its begin: `ClaimsReady`, the temporary claim at the
cursor, if any, bound or of a class that waits for its first consumer, and every
original claim holding its volume; and
`TempsClear`, the temporary claim at the cursor alive or no migrator pod of that unit
left. The methods prove that such a pass keeps all five flags and that `TempsClear`
holds again after it, so in a series of passes it is asked of the first one only,
for what a crash may have left.

The window between lines 353 and 377 needs no flag. A pass that begins there finds
its unit recorded and no StatefulSet; the history keeps the units for which that
happened (`bare`), and `History.CompletedHasStatefulSet` says for every run that
phase Completed comes with the StatefulSet exactly if the last unit is not one of
them. `History.CompletedOutsideWindow` is the case that no pass begins in the window.

The size check reads replica 0 only, so statements about totals ask for equal
sizes across replicas.

### Where the code differs from its documentation

- README.md:22 of the repository promises automatic rollback on failure. The code
  stops at phase Failed. What holds instead is `Theorems.BothVolumesKept` and
  `Theorems.StatefulSetRecoverable`: everything needed for a rollback is there.
- The status edits at `volumeresize_controller.go:259-264` do not survive line 291,
  whose answer carries the stored status; the model drops them there too.
- A recorded unit is passed over without a look at the StatefulSet (lines
  187-208), so phase Completed does not imply that it exists. The exact condition
  is `History.CompletedHasStatefulSet`; `History.BareSince` traces the bad case to a
  pass that stored the record and did not recreate the StatefulSet after it,
  `History.BareEnds` continues every such state to phase Completed, and
  `Example.CompletedWithoutStatefulSet` is a run with every hypothesis true.
- The operator never waits for the recreated claim to be bound, so the next
  temporary claim can be given the volume that claim names. There are two ways to
  get there: the path of lines 187-208, which goes on to the next unit at once, and
  a stop between `pvc.go:229` and line 353, after which the next pass creates a
  temporary claim of the same unit. The exact condition is `Theorems.HandOver`;
  `Overwrite.Overwrites` goes on from every such creation, where the unit at the
  cursor has its own volume, to a run in which another unit's data is replaced, and
  `Overwrite.LatestDataOverwritten` is such a run on the first path, with every
  hypothesis but `h6` true. The first volumes
  survive there too, as `Theorems.FirstVolumesSurvive` says for every run.
- The wait for the pod to come back (lines 389-402) is a single look. The pass that
  does not find it Running comes back after five seconds, and that pass finds the unit
  recorded and goes on without a look at the pod (`Syncing.FinishUnit`,
  `Syncing.HandleSyncing`).
- The migrator of one unit can have the name of an application pod
  (`Names.MigratorAppCollision` says exactly when).

## Model

| member | source | states |
|---|---|---|
| Names.OriginalNameInjective | internal/controller/pvc.go:35-37 | For one StatefulSet, an original claim name determines volume and replica, for all strings and all replicas. |
| Names.TempNameInjective | internal/controller/pvc.go:41-43 | The same for temporary claim names. |
| Names.OriginalTempDisjoint | internal/controller/pvc.go:35-43 | No temporary claim name is an original claim name of any volume or replica. |
| Names.MigratorNameInjective | internal/controller/migrator.go:161-163 | For one resource, a migrator pod name determines volume and replica. |
| Names.MigratorAppCollision | internal/controller/migrator.go:161-163 | A migrator and an application pod share a name exactly if the StatefulSet is called like the migrator up to the hyphen before the volume name, or up to one inside it, and the rest of the volume name is the number of the pod. |
| Names.NoCollision | internal/controller/migrator.go:161-163 | A StatefulSet whose name does not start with the migrators' prefix collides with no migrator, for all volumes and replicas. |
| Names.MigratorAppCollisionExample | internal/controller/statefulset.go:58-60 | Such a collision exists. |
| Names.DecimalIsNumber | internal/controller/pvc.go:36 | The number printed is the one its digits stand for, without a leading zero. |
| Names.NumberIsDecimal | internal/controller/pvc.go:36 | Every string of digits without a leading zero is the printing of its number. |
| Names.ClaimNamesPod | internal/controller/statefulset.go:58-60 | A claim's name is its volume, a hyphen and the name of the pod it belongs to, whose last part stands for the replica. |
| Types.ClaimNameInjective | internal/controller/pvc.go:35-43 | Two claim keys with the same printed name are the same key, originals and temporaries together. |
| Types.LabelsTellUnit | internal/controller/pvc.go:82-86 | The three labels determine the resource and the unit, and the resource's selector finds them. |
| Enumeration.NextIsSuccessor | internal/controller/volumeresize_controller.go:525-555 | The cursor's next unit is the immediate successor in migration order; there is none exactly after the last unit. |
| Enumeration.CursorWalksUnits | internal/controller/volumeresize_controller.go:525-555 | From element k of the status list the cursor goes to element k + 1, and from the last one it stops. |
| Enumeration.WalkEnumerates | internal/controller/volumeresize_controller.go:525-555 | After k steps from the first unit the cursor is at replica k / V, volume k % V, and it is done after exactly R * V steps. |
| Enumeration.WalkEnds | internal/controller/volumeresize_controller.go:525-555 | The cursor's walk ends exactly if the volumes have different names; with two of one name it goes round at replica 0 for ever. |
| Enumeration.UnitsAt | internal/controller/volumeresize_controller.go:155-163 | Element k of the list built by the nested loops is (k / V, volumes[k % V]). |
| Enumeration.UnitsDistinct | internal/controller/volumeresize_controller.go:155-163 | Each unit occurs once in the list. |
| Resource.VolumeResize.UpdateVolumeStatus | internal/controller/volumeresize_controller.go:505-514 | Exactly the first entry of the unit gets the phase. |
| Resource.UpdateVolumeStatusInList | internal/controller/volumeresize_controller.go:516-523 | Every entry of the unit is updated, no other. |
| Resource.VolumeResize.GetNextVolumeReplica | internal/controller/volumeresize_controller.go:525-555 | The loops compute the successor function whose properties are proved in Enumeration. |
| Resource.VolumeResize.AppendPending | internal/controller/volumeresize_controller.go:155-163 | The nested loops append one pending entry for each unit, in migration order. |
| Resource.VolumeResize.RecordNames | internal/controller/volumeresize_controller.go:260-264 | The three names are filled in for every entry of the unit, no other. |
| Resource.VolumeResize.Load | internal/controller/volumeresize_controller.go:291-293 | The object becomes the server's answer, status and metadata. |
| Resource.WithPhaseSame | internal/controller/volumeresize_controller.go:505-514 | With distinct keys a phase edit keeps all keys and all other entries, and the unit is completed afterwards exactly if that phase was set. |
| Resource.UpdatedInSame | internal/controller/volumeresize_controller.go:516-523 | An edit that keeps key and phase changes no other entry and not whether the unit is completed. |
| Resource.MaxReplicaOfUnits | internal/controller/volumeresize_controller.go:541-548 | The largest replica found in the full list is the last replica of the StatefulSet. |
| Rewriting.RewriteTouchesOnlyTargets | internal/controller/volumeresize_controller.go:364-375 | The rewrite changes size and optional class of exactly the targeted templates, to their own target's values; all other templates and fields stay. |
| Rewriting.RewriteIdempotent | internal/controller/volumeresize_controller.go:364-375 | Rewriting twice is rewriting once. |
| Validation.ValidateStatefulSetExists | internal/controller/validation.go:39-49 | A valid answer is the StatefulSet as it was read; without faults it is valid exactly if there is one. |
| Validation.ValidateVolumeTargets | internal/controller/validation.go:52-68 | Valid exactly if every target names a volumeClaimTemplate. |
| Validation.ValidateSizeReduction | internal/controller/validation.go:71-99 | Valid only if replica 0 has the claim and it requests strictly more; without faults, exactly then. |
| Validation.ValidatePDBAllowsDisruption | internal/controller/validation.go:102-138 | Valid only if no well-formed budget whose matchLabels are among the pods' labels has no disruption left; any such budget makes it invalid, and without faults nothing else does. |
| Validation.SelectsIsInclusion | internal/controller/validation.go:120-128 | A budget selects pods exactly if its matchLabels, key and value, are among their labels. |
| Validation.SelectsMore | internal/controller/validation.go:120-128 | More pod labels never unselect, and empty matchLabels select all pods. |
| StatefulSets.BackupSTSToConfigMap | internal/controller/statefulset.go:102-144 | Success leaves a backup: an older one unchanged, otherwise the StatefulSet that was read. Without faults the one call is the creation of a missing backup. |
| StatefulSets.DeleteSTSOrphan | internal/controller/statefulset.go:42-55 | Success means there is no StatefulSet; it is issued only with a backup in place and a unit still to be migrated, and no pod goes. |
| StatefulSets.GetSTSFromBackupConfigMap | internal/controller/statefulset.go:147-166 | Success returns the backup; without faults it succeeds whenever there is one. |
| StatefulSets.ResizeTemplates | internal/controller/volumeresize_controller.go:364-375 | The nested loops, editing the templates in place, apply every target to every template. |
| StatefulSets.Resized | internal/controller/volumeresize_controller.go:364-375 | What is recreated is the rewrite of the backup. |
| StatefulSets.RecreateSTS | internal/controller/statefulset.go:169-193 | Success means the rewritten backup lives, "already exists" that the StatefulSet is the one before, any other answer one of the two. |
| StatefulSets.DeletePodOf | internal/controller/statefulset.go:63-77 | Success without a StatefulSet means the pod is gone or going, for good. The deletion is asked for in every pass that gets there, and stands in the log if the pod was there. |
| StatefulSets.WaitForPodTermination | internal/controller/statefulset.go:80-94 | Success without a StatefulSet means the pod is gone and nothing can start it again. A pod that is gone ends the wait at the next read, a passed deadline at once. |
| Migrator.CreateMigratorPod | internal/controller/migrator.go:101-119 | The migrator of the unit, with exactly its two claims, is created only while no pod of the replica can run. Without faults it is created exactly if it was not there. |
| Migrator.WaitForMigrationComplete | internal/controller/migrator.go:122-142 | Success means the migrator is finished and, with every hypothesis, the temporary claim's volume holds the latest data and nothing can change either side, or there is no temporary claim left and the swap will refuse. A finished or missing migrator ends the wait at the next read, a passed deadline at once. |
| Migrator.SucceededReady | internal/controller/migrator.go:122-135 | A Succeeded migrator of the unit at the cursor means, with every hypothesis, a copy of the latest data that is ready for the swap, as long as its temporary claim is there. |
| Migrator.CleanupMigratorPod | internal/controller/migrator.go:145-158 | Success means the migrator is gone or going; the copy stays ready either way. The deletion is always asked for. |
| Pvc.CreateTempPVC | internal/controller/pvc.go:56-104 | The temporary claim is the one found, or a new one of the new size, of the target's class or else the original's, labelled with resource, replica and volume; without faults it is created exactly if there was none. No other claim changes, h6 stays if every original claim holds its volume, and h3 if no migrator pod of the unit is left or the claim is there to stay. |
| Pvc.SetRetainOnPV | internal/controller/pvc.go:107-124 | Success means the volume is retained; without faults it succeeds for the volume that stands for a unit. On success without faults the update was asked for exactly if the volume was not retained. |
| Pvc.WaitGone | internal/controller/pvc.go:166-179 | Either the claim is gone and stays gone, or exactly 60 reads were made, or an error is returned; only the environment acted meanwhile. |
| Pvc.ProtectCopy | internal/controller/pvc.go:131-158 | Success means the temporary claim was there and names a volume, which is retained now, is no first volume, and is still a ready copy. |
| Pvc.RetainCopy | internal/controller/pvc.go:149-158 | A ready copy whose volume was retained is staged: it survives the deletion of its claim. Without faults this succeeds for the volume of a living temporary claim. |
| Pvc.FreeVolume | internal/controller/pvc.go:160-188 | Success means that volume has no claimRef and, with every hypothesis, is a copy nobody can bind, write or destroy. |
| Pvc.DropOriginal | internal/controller/pvc.go:190-209 | Success leaves the released copy free for the unit, and, without faults and StatefulSet, the original name free for good. |
| Pvc.MoveName | internal/controller/pvc.go:190-232 | Success means the original name belongs to a claim for that volume. |
| Pvc.ReplacePVC | internal/controller/pvc.go:127-235 | Success is an atomic swap: the original name has the temporary claim's volume and class, the new size and the old labels, the temporary claim is gone under h1, and every other living claim is as before. An error reports how far it got, with what is then kept. Without faults and StatefulSet, and with both claims alive, it succeeds. A fault-free swap makes exactly five calls: retain, delete the temporary claim, release, delete the original claim, create the new one. |
| Pvc.SwapTrue | internal/controller/pvc.go:211-232 | A finished swap is what a Completed entry promises: the new size, the target's class if one is given, a retained volume. |
| Pvc.FailedSwapKeepsBoth | internal/controller/pvc.go:149-193 | An error at any step leaves both volumes; the original claim is untouched unless its own deletion was reached, the copy's volume is retained from before anything is deleted. |
| Updates.Update | internal/controller/volumeresize_controller.go:291-293 | Only metadata is stored, and the object in memory becomes the server's, with the stored status. |
| Updates.UpdateStatus | internal/controller/volumeresize_controller.go:346-349 | Only the status is stored, as a legal step of the status machine. |
| Updates.SetFailed | internal/controller/volumeresize_controller.go:492-503 | The stored phase is Failed or the status is as before; the cluster is untouched. |
| Syncing.IsRecorded | internal/controller/volumeresize_controller.go:187-189 | True exactly if the unit is recorded as completed. |
| Syncing.FindTarget | internal/controller/volumeresize_controller.go:210-217 | The unit's target; the zero value exactly if there is none. |
| Syncing.PrepareTemp | internal/controller/volumeresize_controller.go:228-250 | The pass goes on only if the temporary claim, as found or created, is bound or of a class that binds late, without faults exactly then. A fault-free wait leaves a temporary claim that was not there before; where the pass goes on the claim is there to stay, if it was not on its way out. |
| Syncing.AwaitTemp | internal/controller/volumeresize_controller.go:228-250 | The pass goes on only if the temporary claim is bound or of a class that binds late; without faults exactly then, and otherwise it comes back after five seconds, still at the unit. No other claim changes. |
| Syncing.PrepareClaims | internal/controller/volumeresize_controller.go:221-256 | Going on means the volumes behind the unit are retained. Without the original claim a fault-free pass ends Failed; with it, it goes on beside a living temporary claim or has created that claim; wherever it stops it is Failed or at the same unit. |
| Syncing.RetainOld | internal/controller/volumeresize_controller.go:248-256 | Going on means the first volume, and under all hypotheses the volume that stands for the unit, is retained; an original claim that names no volume fails the pass; with every hypothesis a fault-free pass goes on. |
| Syncing.PrepareUnit | internal/controller/volumeresize_controller.go:210-264 | As PrepareClaims, with the target found among the volumes. Going on means the entry in memory is Syncing with its three names, the old volume being the one the original claim names. Without faults the calls so far are the creation of the temporary claim and the Retain update, each where needed. |
| Syncing.NoteNames | internal/controller/volumeresize_controller.go:258-264 | In memory only, the current entry becomes Syncing with the three names. |
| Syncing.NamesStored | internal/controller/volumeresize_controller.go:258-355 | Where the annotation was set already, the unit's entry is stored Completed with the names of its two claims and of its old volume; where the StatefulSet is deleted in the same pass it is stored without them; no other entry changes. |
| Syncing.RecordDeletion | internal/controller/volumeresize_controller.go:283-299 | What is stored afterwards is the resource with both annotations and the backup name; its entries are the stored ones, the edit in memory is lost. Without faults these are exactly the two updates. |
| Syncing.TakeDownStatefulSet | internal/controller/volumeresize_controller.go:266-301 | Going on means there is no StatefulSet, if the annotation was right or h4 holds. With the annotation set it touches nothing and makes no call; without faults its calls are backup, if missing, deletion and the two updates. |
| Syncing.ClearPod | internal/controller/volumeresize_controller.go:303-313 | Going on means, under h4, that no pod of the replica runs or can start. A fault-free pass asks for the deletion of the pod, and the deletion is in the log if the pod was there; a wait that fails comes back after five seconds. |
| Syncing.Migrate | internal/controller/volumeresize_controller.go:315-334 | Going on means a ready copy, or a fall-through that is recorded; without faults it is the former. |
| Syncing.AfterFailedWait | internal/controller/volumeresize_controller.go:322-334 | What the read found decides: a pod that runs or waits is waited for, ten seconds later, a Failed one fails the resource, a Succeeded one lets the pass go on; where the pod is missing, Unknown or cannot be read it goes on with the fall-through on record. |
| Syncing.RunMigrator | internal/controller/volumeresize_controller.go:315-341 | A fault-free pass creates the migrator if it was not there, asks for its deletion when it is done, and leaves it gone or going. |
| Syncing.CopyUnit | internal/controller/volumeresize_controller.go:266-340 | Going on means a copy ready for the swap, no claim changed. A fault-free pass goes on and keeps all flags; its calls are the take-down, the deletion of the pod, the creation of a missing migrator and its deletion, in this order. |
| Syncing.MarkUnit | internal/controller/volumeresize_controller.go:505-514 | The first entry of the unit has the phase, and against the stored list only this entry differs. |
| Syncing.RecordCompletion | internal/controller/volumeresize_controller.go:349-355 | The stored status becomes the one in memory with the unit completed, which is allowed because the swap is finished; the cursor stays. |
| Syncing.SwapClaims | internal/controller/volumeresize_controller.go:341-347 | Going on means the swap is finished and may be recorded, and that there was a copy; a fault-free pass that stops is Failed, and with both claims alive it goes on. |
| Syncing.SwapAndRecord | internal/controller/volumeresize_controller.go:344-355 | Going on means the swap is done and stored as completed, and that there was a copy; without faults, given both claims, it goes on, and otherwise ends Failed. |
| Syncing.CopyAndSwap | internal/controller/volumeresize_controller.go:258-355 | Going on means the unit is recorded and only its two claims have changed. A fault-free pass keeps all flags; it goes on if both claims are alive, stops if the original is missing, and if it stops it is Failed. |
| Syncing.MigrateUnit | internal/controller/volumeresize_controller.go:210-355 | Going on means the unit is recorded, and under all hypotheses no StatefulSet exists yet; no claim but the unit's two has changed, and the cursor stays. Without the original claim a fault-free pass ends Failed or where it began. What is stored is stated in full, entries included. A fault-free pass makes exactly the calls of the migration, in order. |
| Syncing.RestoreStatefulSet | internal/controller/volumeresize_controller.go:357-381 | Going on means the StatefulSet that was there lives, or, if there was none, the rewritten backup; a fault leaves one of the two states. Without faults it makes one call, the creation of the rewritten backup. |
| Syncing.BringBack | internal/controller/volumeresize_controller.go:357-403 | Whatever fails, the StatefulSet is the one before or what the recreation makes of it. A pass goes on only if it saw the pod of the replica Running, at a point of the run after it began, with the unit recorded and the StatefulSet back, the one that was there or the rewritten backup; then the annotation is cleared. Without faults, given a backup, it goes on exactly then, and otherwise comes back after five seconds. |
| Syncing.ClearMark | internal/controller/volumeresize_controller.go:384-388 | Success clears the annotation and keeps everything else that is stored. |
| Syncing.Advance | internal/controller/volumeresize_controller.go:401-427 | It is called only beside a StatefulSet or in a pass that began without one. Without faults the stored cursor is the successor, which has no migrator pod yet, or the phase is Completed after the last unit. An immediate requeue means the cursor was stored. |
| Syncing.FinishUnit | internal/controller/volumeresize_controller.go:351-427 | Whatever fails, the cursor leaves the unit only after its replica's pod was seen Running beside a StatefulSet, and all flags stay. Without faults, given a backup, it leaves the unit exactly if the pod was seen Running; the StatefulSet lives, the annotation is right. |
| Syncing.ProcessUnit | internal/controller/volumeresize_controller.go:210-427 | Only the unit's two claims change, and whatever fails the cursor moves only if a StatefulSet lives. A fault-free pass leaves the unit further on: temporary claim created, swap recorded with the StatefulSet back, or cursor moved; without the original claim it ends Failed or where it began. The cursor leaves the unit only after the pod was seen Running. With every hypothesis a fault-free pass that takes the unit all the way makes exactly these calls, in order: temporary claim, Retain, backup, deletion and its two notes, pod, migrator, migrator's deletion, the five of the swap, record, recreation, clearing, next cursor. A pass that rests has stored phase Failed. |
| Syncing.HandleSyncing | internal/controller/volumeresize_controller.go:180-428 | The stored cursor is never nil here. At a unit that is not recorded the pass does what ProcessUnit promises; at a recorded one, whatever fails, it leaves the StatefulSet alone, which lives unless the pass began without it. A pass that rests has stored phase Failed, one that comes back at once has moved the cursor, and one that moves it off an unrecorded unit has seen the pod Running. |
| Handlers.HandlePending | internal/controller/volumeresize_controller.go:104-115 | Without faults the stored phase is Validating; nothing else changes. The pass comes back at once only if that was stored. |
| Handlers.ValidateSizes | internal/controller/volumeresize_controller.go:133-139 | Passing means every target shrinks replica 0's claim at the end of the reads, and, once rolled out, its first size. |
| Handlers.Validate | internal/controller/volumeresize_controller.go:121-146 | Passing means all four checks hold at its end although the cluster moved between the reads; without faults, checks that hold at its begin are passed. |
| Handlers.StartSync | internal/controller/volumeresize_controller.go:148-174 | What is stored is the full list, pending, with the first unit at the cursor, which has no migrator pod yet. |
| Handlers.HandleValidating | internal/controller/volumeresize_controller.go:118-175 | Phase Syncing is stored only if the gate holds; without faults a resource that meets it gets there with the first unit at the cursor, any other is Failed. It rests only at Failed and comes back at once only at Syncing. |
| Handlers.SweepClaims | internal/controller/volumeresize_controller.go:453-463 | Only temporary claims are deleted; without faults every one is gone or going. If the list was answered, each is asked for, whatever becomes of the others, unless the process crashes. |
| Handlers.SweepPods | internal/controller/volumeresize_controller.go:465-475 | Only migrators are deleted; without faults every one is gone or going. If the list was answered, each is asked for, whatever becomes of the others, unless the process crashes. |
| Handlers.HandleDeletion | internal/controller/volumeresize_controller.go:449-485 | Every living original claim stays; without faults no temporary claim and no migrator is left alive when the finalizer goes, and the resource is gone. Whatever fails in the sweep, the last thing asked for is the removal of the finalizer, unless the process crashes. |
| Controller.Route | internal/controller/volumeresize_controller.go:84-100 | The branch for Replacing is dead; every other branch keeps Retain policies, makes the progress stated for Reconcile, and rests only in a terminal phase; a terminal phase changes nothing. |
| Controller.AddFinalizer | internal/controller/volumeresize_controller.go:75-82 | The finalizer is stored, status and annotation stay. |
| Controller.Reconcile | internal/controller/volumeresize_controller.go:58-101 | Whatever fails, the calls made are a run. A fault-free pass lowers the number of passes still needed and keeps all five flags; without the original claim it ends Failed or where it began, and Failed if the claim is gone; at a recorded unit it only moves the cursor; at phase Failed it rests. It rests without a requeue only if the resource is gone or in a terminal phase; a fault-free pass reports no error while the resource is there, and leaves a resource that was marked for deletion gone, with every temporary claim and migrator gone or going; the cursor leaves an unrecorded unit only after the pod was seen Running. |
| Controller.Operate | internal/controller/volumeresize_controller.go:58-101 | n fault-free passes lower the number of passes still needed by n, with any moves of the environment between them; the claims are to be ready at each begin, and only the first pass must not find a migrator pod without its temporary claim. |
| Safety.SafeRun | internal/controller/volumeresize_controller.go:58-503 | With no hypothesis: first volumes kept, StatefulSet recoverable, labels separate what is owned, cursor and list agree, Completed entries are true. |
| Placement.PlacedRun | internal/controller/volumeresize_controller.go:221-349 | Under rolledOut and h4 an original claim is missing only at the cursor while no pod can run; under h1 there is one temporary claim, at the cursor; under h2 and h4 an unfinished migrator is alone. Every temporary claim has the new size, and the target's class if one is given. |
| Custody.KeptRun | internal/controller/volumeresize_controller.go:252-388 | Under all hypotheses every unit has a home volume with the latest data, named by its claim or retained; a migrator that may still write, or whose temporary claim is there, is alone with its replica, reads the home of the unit at the cursor and writes apart from every home; once it succeeded, its target holds the latest data; a temporary claim waits for a volume only while every original claim holds its own. |
| Stages.StagingRun | internal/controller/volumeresize_controller.go:118-175 | Before the gate the claims are the first ones at their first size; a missing original has a retained copy; only deletion starts a sweep. |
| Marks.MarksRun | internal/controller/volumeresize_controller.go:186-301 | In every run: no annotation and no migrator before the gate and a finalizer after it; under h4 the annotation is right wherever it is read; no migrator pod of a unit exists before the cursor reached it; a unit that a pass found recorded without a StatefulSet stays recorded, has none while it is at the cursor, and if it is the last one decides whether there is one in the end. |
| Rely.MoveRelied | internal/controller/pvc.go:127-235 | Between two calls no move of the environment takes away what the operator relies on: a ready, staged or released copy stays one, absence of pods and names stays, an original claim neither loses its volume nor comes back by itself. |
| Theorems.FirstVolumesSurvive | internal/controller/volumeresize_controller.go:252-256 | No loss, with no hypothesis: at every point of every run the volume first bound to an original claim exists, is held by that claim alone, is retained or still named by it, and is no temporary claim's and no migrator's target. |
| Theorems.FirstVolumesUntouched | internal/controller/pvc.go:149-193 | Its content changes only by a write of the application. |
| Theorems.BothVolumesKept | internal/controller/pvc.go:190-232 | While an original claim is missing, its first volume and a different volume with the copy both exist, retained; under all hypotheses so does the latest data. |
| Theorems.LatestIsLastWrite | internal/controller/volumeresize_controller.go:252-388 | The reference content of a unit is the last application write in the log. |
| Theorems.LatestData | internal/controller/volumeresize_controller.go:252-388 | Under all hypotheses the cluster refines a map from units to last writes: behind the original claim while it exists, otherwise on a retained volume. None of the hypotheses speaks of what the environment does later: h3 and h6 are conditions on the state in which a temporary claim is created. |
| Theorems.NothingHandedOver | internal/controller/pvc.go:183-229 | Under all hypotheses no binding ever gives a claim a volume that another claim names. |
| Theorems.HandOver | internal/controller/volumeresize_controller.go:228-231 | A temporary claim that may be created at a point of such a run can be given a volume that another claim names exactly if, at that point, some original claim does not hold the volume it names. |
| Overwrite.Overwrites | internal/controller/volumeresize_controller.go:228-231 | The converse for the data: wherever such a claim may be created while some original claim does not hold its volume, and the unit has its own bound claim, the run can go on, with every hypothesis but h6, so that any data whatever replaces the last write of another unit behind its original name. |
| Theorems.StatefulSetRecoverable | internal/controller/volumeresize_controller.go:267-301 | At every point the first StatefulSet lives or the backup holds it; what lives is the first one or its one rewrite, however many units were done. |
| Theorems.OnlyTheRewriteLives | internal/controller/volumeresize_controller.go:357-381 | Once the StatefulSet was recreated for the first time, at every later point there is none or the rewrite of the first one. |
| Theorems.BackupWrittenOnce | internal/controller/statefulset.go:102-144 | Once written the backup never changes and never goes. |
| Theorems.CursorSplitsTheList | internal/controller/volumeresize_controller.go:187-208 | The keys are always the full enumeration; entries before the cursor's rank are completed, entries after it pending. |
| Theorems.CursorStepByStep | internal/controller/volumeresize_controller.go:525-555 | No action takes the cursor's rank back or more than one further, and it ends only after rank R * V - 1, in phase Completed. |
| Theorems.EveryUnitVisited | internal/controller/volumeresize_controller.go:525-555 | Every unit up to the cursor, and in phase Completed every unit of the list, was at the cursor at some point of the run. |
| Theorems.CursorInOrder | internal/controller/volumeresize_controller.go:525-555 | Between two points with a cursor there is always one, and its rank never falls: the units are visited in the order of the list. |
| Theorems.VisitedOnce | internal/controller/volumeresize_controller.go:525-555 | If the cursor is at the same unit at two points, it was there all the time between them: no unit is visited twice. |
| Theorems.GateLasts | internal/controller/volumeresize_controller.go:210-217 | Whenever there is a cursor its volume is a target, all targets are templates, and all shrink the first claim of replica 0; the zero-valued target is never used. |
| Theorems.ReplacingUnreachable | internal/controller/volumeresize_controller.go:91-92 | Phase Replacing is never stored. |
| Theorems.TerminalIsFinal | internal/controller/volumeresize_controller.go:93-95 | A terminal status is the same at every later point of the run. |
| Theorems.ResourceNotRevived | internal/controller/volumeresize_controller.go:61-68 | A resource that is gone stays gone. |
| Theorems.CompletedStaysTrue | internal/controller/volumeresize_controller.go:336-349 | A unit once recorded as completed stays so, and at every later point its original name requests the new size, and the target's class if one is given, and names a retained volume. |
| Theorems.CompletedMeansAll | internal/controller/volumeresize_controller.go:408-420 | Phase Completed means that for every replica of every target. |
| Theorems.MutualExclusion | internal/controller/volumeresize_controller.go:267-334 | Under h2 and h4, while a migrator is unfinished there is no StatefulSet and no application pod of its replica. |
| History.ExclusionOutsideWindow | internal/controller/volumeresize_controller.go:267-388 | The same from the log alone: under h2, if each recreation of the StatefulSet is followed by the clearing of the annotation before the cursor moves on. |
| Theorems.SweepsOnlyItsOwn | internal/controller/volumeresize_controller.go:453-475 | In every run the deletion handler deletes temporary claims and migrators only. |
| History.StaleIsLogged | internal/controller/volumeresize_controller.go:267-301 | h4 holds exactly if no action of the log moved the cursor while the annotation said "deleted" beside a live StatefulSet. |
| History.FaultWindow | internal/controller/volumeresize_controller.go:377-388 | h4 is lost only where the StatefulSet was recreated and the cursor then moved on before the annotation was cleared, with no move and no clearing between the two. |
| History.HeldIsLogged | internal/controller/volumeresize_controller.go:228-231 | h6 holds exactly if every temporary claim in the log was created while each original claim held the volume it names, and h3 exactly if each was created while no migrator pod of its unit was left. |
| History.CompletedHasStatefulSet | internal/controller/volumeresize_controller.go:187-208 | In every run, with any faults and crashes, phase Completed comes with the StatefulSet exactly if no pass began at the recorded last unit and found none. |
| History.BareSince | internal/controller/volumeresize_controller.go:353-381 | Wherever a recorded unit is at the cursor without a StatefulSet, some earlier action recorded it, and since then the StatefulSet was not recreated. |
| History.CompletedOutsideWindow | internal/controller/volumeresize_controller.go:353-381 | If no pass begins between the record of a unit and the next recreation of the StatefulSet, phase Completed comes with the StatefulSet. |
| History.BareEnds | internal/controller/volumeresize_controller.go:187-208 | From every such state at the last unit the next pass can store phase Completed without the StatefulSet, all claims and volumes as they are. |
| Conservation.StorageBounded | internal/controller/pvc.go:56-104 | Under h1, rolled out, with equal sizes across replicas, at every point of every run the targeted claims and temporary claims together never request more than at the start plus one new size, and there is at most one temporary claim. |
| Conservation.WithinRun | internal/controller/pvc.go:211-232 | Rolled out, with equal sizes across replicas, no targeted original claim ever requests more than it did first, whoever created it, the StatefulSet controller included. |
| Conservation.GatingRun | internal/controller/volumeresize_controller.go:118-175 | In every run: once rolled out, a resource that does not shrink its volumes has no temporary claim and never loses h4; where h4 is lost or the annotation is set, only the rewrite lives; under h1 a Completed resource has no temporary claim. |
| Conservation.StorageAtCompletion | internal/controller/pvc.go:211-232 | Under h1, rolled out, with equal sizes across replicas, at Completed the total is replicas times the new sizes, strictly below the start, also for a resource that is marked for deletion. |
| Recovery.FreshIsGoing | internal/controller/volumeresize_controller.go:118-175 | A fresh resource that meets the checks needs at most 3 + 3 * R * V passes. |
| Recovery.RunToCompletion | internal/controller/volumeresize_controller.go:58-115 | That many fault-free passes, each finding its temporary claim bound or of a class that binds late and the original claims holding their volumes, the first one no migrator pod without its temporary claim, end in phase Completed with the StatefulSet back. |
| Recovery.CursorCases | internal/controller/volumeresize_controller.go:177-226 | Wherever a run stops at a unit that is not recorded, with every hypothesis, it is in the state of RecoverUnit or in that of AbandonUnit, according to whether the original claim is alive. |
| Recovery.RecoverUnit | internal/controller/volumeresize_controller.go:222-355 | From any crash, if the original claim of the unit at the cursor is there, three fault-free passes, each finding its claims ready as for RunToCompletion, the first one no migrator pod without its temporary claim, record it as completed, with the latest data behind its name. |
| Recovery.AbandonUnit | internal/controller/volumeresize_controller.go:222-226 | From a crash at which the original claim is missing, gone or still terminating: over any number of passes, whatever fails, two different volumes stay retained; fault-free passes end Failed if the claim was gone at the start, and otherwise, as long as original claims hold their volumes and no migrator pod is left without its temporary claim, end Failed or in the same state. |
| Recovery.FinishRecorded | internal/controller/volumeresize_controller.go:187-208 | A fault-free pass at the last recorded unit stores Completed, and the StatefulSet exists afterwards exactly if it did before. |
| Script.Migrates | internal/controller/volumeresize_controller.go:222-355 | From every state of a run in which a unit with its first volume is at the cursor, nothing of its migration begun, beside a live StatefulSet and no backup, the run can go on to the record of the unit; what it leaves is stated in full. |
| Example.CanEndBare | internal/controller/volumeresize_controller.go:187-208 | From every such state at the last unit, whatever the cluster, the run can end in phase Completed, data moved, without the StatefulSet, every hypothesis kept. |
| Example.CompletedWithoutStatefulSet | internal/controller/volumeresize_controller.go:187-208 | A run with every hypothesis true ends in phase Completed, data moved, and no StatefulSet: it was deleted for the last unit, and the last pass began without it. |
| Example.LatestDataUnrolled | internal/controller/volumeresize_controller.go:357-381 | A run with every flag true whose second replica was not rolled out at the start: its claim, created once the StatefulSet is back, takes the first unit's new volume, and that unit's data is overwritten. LatestData needs the complete roll-out. |
| Overwrite.LatestDataOverwritten | internal/controller/volumeresize_controller.go:187-208 | A run with every hypothesis but h6 in which a unit's original name leads to another unit's data. |

## Left out

- Theorems.LatestData: says nothing about a run that loses a hypothesis; whether such a run loses data depends on what the environment does in the open window. For h6 Theorems.HandOver gives the exact condition and Overwrite.Overwrites the loss; for the roll-out Example.LatestDataUnrolled is a run.
- Theorems.MutualExclusion: asks for h2 and h4 and holds without h1.
- Recovery.RunToCompletion: assumes that claims bind between passes, pods terminate and migrators succeed within their waits; the script of a fault-free pass says so.
- Recovery.AbandonUnit: says nothing of when a terminating claim goes; that is the environment's.
- Names.MigratorAppCollision: the model keeps migrator and application pods apart by key, so the colliding names are excluded there.
- handleReplacing (volumeresize_controller.go:432-445): shown unreachable instead.
- Duplicate volume names and zero replicas: the start state of runs excludes them; on the former the cursor never ends (Enumeration.WalkEnds), for the latter there is nothing to do.
- The asynchronous end of an orphan deletion: the StatefulSet is gone when the call is carried out.
- Resource versions: a conflict is one of the errors a call may return; a write that a real server would refuse may also succeed here.
- Client caching, leader election and concurrent operators: one pass at a time, each read current.
- Moves of other actors: they edit none of these objects, except that the user may delete the resource and the cluster acts on its own claims, volumes and pods. Disruption budgets and storage classes do not change.
- matchExpressions of a budget's selector: the code ignores them, and so does the model.
- Access modes, annotations other than the two the code reads, pod fields other than the claims, messages, timestamps, logs.
- rclone: a Succeeded migrator has copied the source, any other may leave anything in the destination.
- The content of the backup as JSON: encoding and decoding are the identity.
- Deadlines and sleeps: each round of a wait asks the script whether the deadline has passed.
- Quantity syntax and int32 replica numbers: both are natural numbers; the cursor adds one only below the largest replica, so nothing wraps.
- The command-line tool under cmd/volmig, manifests and scripts.
