/**
  The cluster as the operator sees it, and everything that can happen to it:
  moves of the environment (binder, kubelet, StatefulSet controller, application,
  migrator, user) and single API calls of the operator.

  A crash needs no transition of its own. It only ends a pass, so a run with
  crashes is a run in which later calls come from a later pass; every statement
  about runs therefore covers a crash between any two calls.
 */
module Protocol {
  import opened Types
  import opened Enumeration
  import opened Rewriting

  // What was there when the resource was created.
  //  sts0   the StatefulSet, if any
  //  first  the volume first bound to each original claim
  //  size0  the size each original claim first requested
  //  rolledOut  every replica has all its claims, and every claim is bound
  datatype Origin = Origin(
    sts0: Option<Sts>, first: map<Unit, PvName>, size0: map<Unit, nat>, rolledOut: bool)

  // History that no branch of the operator reads.
  //  home    the volume that stands for a unit: the first one, then each replacement
  //  latest  what the application last wrote to a unit
  //  staged  the copy a unit is about to be moved to
  //  names   every volume name used so far
  //  swept   the deletion handler has begun
  //  bare    the units a pass found recorded as completed, without a StatefulSet
  // The other five say whether a hypothesis has held so far:
  //  h1  a temporary claim is gone when its volume is released (deletes take effect)
  //  h2  no pass went on without seeing its migrator succeed
  //  h3  no migrator pod of a unit was left when its temporary claim was created
  //  h4  the cursor never moved on while the annotation said "deleted" beside a
  //      live StatefulSet
  //  h6  each temporary claim was created while every original claim held the
  //      volume it names
  datatype Book = Book(
    home: map<Unit, PvName>, latest: map<Unit, Data>, staged: map<Unit, PvName>, names: set<PvName>,
    swept: bool, h1: bool, h2: bool, h3: bool, h4: bool, h6: bool, bare: set<Unit>)

  datatype World = World(
    spec: Spec, claims: map<ClaimKey, Claim>, pvs: map<PvName, Pv>, pods: map<PodKey, Pod>,
    sts: Option<Sts>, backup: Option<Sts>, vr: Option<Vr>, past: Origin, book: Book)

  datatype Move =
    | Bind(claim: ClaimKey, pv: PvName, policy: Policy)
    | ClaimGone(claim: ClaimKey)
    | PodGone(pod: PodKey)
    | PodStart(pod: PodKey)
    | PodTurn(pod: PodKey, phase: PodPhase)
    | StsPod(replica: nat)
    | AppWrite(unit: Unit, data: Data)
    | MigWrite(unit: Unit, data: Data)
    | MigDone(unit: Unit)
    | UserDelete

  datatype Call =
    | PutMeta(finalizer: bool, stsDeleted: bool, stsBackup: Option<string>)
    | PutStatus(status: Status)
    | CreateClaim(key: ClaimKey, claim: Claim)
    | DeleteClaim(key: ClaimKey)
    | SweepClaim(key: ClaimKey)
    | RetainPv(pv: PvName)
    | ReleasePv(unit: Unit, pv: PvName)
    | CreateBackup(sts: Sts)
    | DeleteSts
    | CreateSts(sts: Sts)
    | CreatePod(unit: Unit, body: Pod)
    | DeletePod(pod: PodKey)
    | SweepPod(pod: PodKey)
    // Two control points rather than calls: the begin of a pass, and going on
    // although the migrator was not seen to succeed.
    | BeginPass
    | FallThrough(unit: Unit)

  datatype Action = Env(move: Move) | Op(call: Call)

  /** The environment */

  // A started container may still write, also while its node is unreachable.
  predicate Live(p: Pod) {
    p.phase == PodRunning || p.phase == PodUnknown
  }

  predicate Finished(p: Pod) {
    p.phase == PodSucceeded || p.phase == PodFailed
  }

  predicate CanMove(w: World, m: Move) {
    match m
    case Bind(k, n, _) =>
      // A claim binds to a fresh volume, to a volume without claimRef, or to
      // the volume it names if that has no claimRef.
      k in w.claims &&
      if w.claims[k].pv == None then (if n in w.pvs then w.pvs[n].claimRef == None else n !in w.book.names)
      else w.claims[k].pv == Some(n) && n in w.pvs && w.pvs[n].claimRef == None
    case ClaimGone(k) => k in w.claims && w.claims[k].terminating
    case PodGone(p) => p in w.pods
    case PodStart(p) =>
      p in w.pods && w.pods[p].phase == PodPending && !w.pods[p].terminating &&
      forall k :: k in w.pods[p].claims ==>
        k in w.claims && w.claims[k].bound && w.claims[k].pv.Some? && !w.claims[k].terminating
    case PodTurn(p, phase) =>
      p in w.pods && !Finished(w.pods[p]) &&
      (phase == PodFailed || phase == PodUnknown || (phase == PodRunning && w.pods[p].phase == PodUnknown))
    case StsPod(r) => w.sts.Some? && r < Replicas(w.sts.value) && App(r) !in w.pods
    case AppWrite(u, _) =>
      App(u.replica) in w.pods && Live(w.pods[App(u.replica)]) && Orig(u) in w.pods[App(u.replica)].mounts &&
      w.pods[App(u.replica)].mounts[Orig(u)] in w.pvs
    case MigWrite(u, _) =>
      Mig(u) in w.pods && Live(w.pods[Mig(u)]) && Temp(u) in w.pods[Mig(u)].mounts &&
      w.pods[Mig(u)].mounts[Temp(u)] in w.pvs
    case MigDone(u) =>
      Mig(u) in w.pods && Live(w.pods[Mig(u)]) &&
      Orig(u) in w.pods[Mig(u)].mounts && Temp(u) in w.pods[Mig(u)].mounts &&
      w.pods[Mig(u)].mounts[Orig(u)] in w.pvs && w.pods[Mig(u)].mounts[Temp(u)] in w.pvs
    case UserDelete => w.vr.Some?
  }

  function Written(pvs: map<PvName, Pv>, n: PvName, d: Data): map<PvName, Pv>
    requires n in pvs
  {
    pvs[n := pvs[n].(data := d)]
  }

  // The claims of one replica's pod.
  function PodClaims(s: Sts, r: nat): set<ClaimKey> {
    set t | t in s.templates :: Orig(Unit(r, t.name))
  }

  function TemplateNamed(s: Sts, name: string): Template
    requires exists t :: t in s.templates && t.name == name
  {
    FirstTemplate(s.templates, name)
  }

  function FirstTemplate(ts: seq<Template>, name: string): (t: Template)
    requires exists t :: t in ts && t.name == name
    ensures t in ts && t.name == name
  {
    if ts[0].name == name then ts[0] else FirstTemplate(ts[1..], name)
  }

  function MissingClaims(w: World, s: Sts, r: nat): map<ClaimKey, Claim> {
    map k | k in PodClaims(s, r) && k !in w.claims ::
      var t := TemplateNamed(s, k.unit.volume);
      Claim(t.size, t.storageClass, None, false, t.labels, false)
  }

  // The volumes left once a claim is gone: those it held, unless retained, go with it.
  function Reclaimed(pvs: map<PvName, Pv>, k: ClaimKey): map<PvName, Pv> {
    map n | n in pvs && !(pvs[n].claimRef == Some(k) && pvs[n].policy == Delete) :: pvs[n]
  }

  function Moved(w: World, m: Move): World
    requires CanMove(w, m)
  {
    match m
    case Bind(k, n, policy) =>
      w.(claims := w.claims[k := w.claims[k].(pv := Some(n), bound := true)],
         pvs := w.pvs[n := if n in w.pvs then w.pvs[n].(claimRef := Some(k)) else Pv(policy, Some(k), "")],
         book := w.book.(names := w.book.names + {n}))
    case ClaimGone(k) => w.(claims := w.claims - {k}, pvs := Reclaimed(w.pvs, k))
    case PodGone(p) => w.(pods := w.pods - {p})
    case PodStart(p) =>
      var pod := w.pods[p];
      w.(pods := w.pods[p := pod.(phase := PodRunning, mounts := map k | k in pod.claims :: w.claims[k].pv.value)])
    case PodTurn(p, phase) => w.(pods := w.pods[p := w.pods[p].(phase := phase)])
    case StsPod(r) =>
      var s := w.sts.value;
      w.(claims := w.claims + MissingClaims(w, s, r),
         pods := w.pods[App(r) := Pod(PodPending, PodClaims(s, r), map[], s.podLabels, false)])
    case AppWrite(u, d) =>
      w.(pvs := Written(w.pvs, w.pods[App(u.replica)].mounts[Orig(u)], d),
         book := w.book.(latest := w.book.latest[u := d]))
    case MigWrite(u, d) => w.(pvs := Written(w.pvs, w.pods[Mig(u)].mounts[Temp(u)], d))
    case MigDone(u) =>
      var pod := w.pods[Mig(u)];
      w.(pvs := Written(w.pvs, pod.mounts[Temp(u)], w.pvs[pod.mounts[Orig(u)]].data),
         pods := w.pods[Mig(u) := pod.(phase := PodSucceeded)])
    case UserDelete =>
      w.(vr := if w.vr.value.finalizer then Some(w.vr.value.(deleting := true)) else None)
  }

  /** The operator's calls, on the objects they find */

  predicate CanCall(w: World, c: Call) {
    match c
    case PutMeta(_, _, _) => w.vr.Some?
    case PutStatus(_) => w.vr.Some?
    case CreateClaim(k, _) => k !in w.claims
    case DeleteClaim(k) => k in w.claims
    case SweepClaim(k) => k in w.claims
    case RetainPv(n) => n in w.pvs
    case ReleasePv(_, n) => n in w.pvs
    case CreateBackup(_) => w.backup == None
    case DeleteSts => w.sts.Some?
    case CreateSts(_) => w.sts == None
    case CreatePod(u, _) => Mig(u) !in w.pods
    case DeletePod(p) => p in w.pods
    case SweepPod(p) => p in w.pods
    case BeginPass => true
    case FallThrough(_) => true
  }

  // The annotation says "deleted" only when the StatefulSet is gone.
  predicate Consistent(w: World) {
    w.vr.Some? && w.vr.value.stsDeleted ==> w.sts == None
  }

  predicate CursorMoves(s: Status, t: Status) {
    Cursor(t).Some? && Cursor(t) != Cursor(s)
  }

  // Every original claim holds the volume it names.
  predicate AllHeld(claims: map<ClaimKey, Claim>, pvs: map<PvName, Pv>) {
    forall k :: k in claims && k.Orig? ==>
      claims[k].pv.Some? && claims[k].pv.value in pvs && pvs[claims[k].pv.value].claimRef == Some(k)
  }

  // The stored cursor's unit is recorded as completed.
  predicate AtCompleted(w: World) {
    && w.vr.Some? && w.vr.value.finalizer && !w.book.swept
    && w.vr.value.status.phase == Syncing
    && Cursor(w.vr.value.status).Some?
    && CompletedAt(w.vr.value.status.volumeStatuses, Cursor(w.vr.value.status).value)
  }

  function Called(w: World, c: Call): World
    requires CanCall(w, c)
  {
    match c
    case PutMeta(finalizer, stsDeleted, stsBackup) =>
      var v := w.vr.value;
      w.(vr := if !finalizer && v.deleting then None
               else Some(v.(finalizer := finalizer, stsDeleted := stsDeleted, stsBackup := stsBackup)),
         book := w.book.(swept := w.book.swept || !finalizer))
    case PutStatus(st) =>
      w.(vr := Some(w.vr.value.(status := st)),
         book := w.book.(h4 := w.book.h4 && (CursorMoves(w.vr.value.status, st) ==> Consistent(w))))
    case CreateClaim(k, c) =>
      w.(claims := w.claims[k := c],
         book := w.book.(home := if k.Orig? && k.unit in w.book.home && c.pv.Some?
                                 then w.book.home[k.unit := c.pv.value] else w.book.home,
                         h3 := w.book.h3 && (k.Temp? ==> Mig(k.unit) !in w.pods),
                         h6 := w.book.h6 && (k.Temp? ==> AllHeld(w.claims, w.pvs))))
    case DeleteClaim(k) => w.(claims := w.claims[k := w.claims[k].(terminating := true)])
    case SweepClaim(k) =>
      w.(claims := w.claims[k := w.claims[k].(terminating := true)], book := w.book.(swept := true))
    case RetainPv(n) => w.(pvs := w.pvs[n := w.pvs[n].(policy := Retain)])
    case ReleasePv(u, n) =>
      w.(pvs := w.pvs[n := w.pvs[n].(claimRef := None)],
         book := w.book.(staged := w.book.staged[u := n], h1 := w.book.h1 && Temp(u) !in w.claims))
    case CreateBackup(s) => w.(backup := Some(s))
    case DeleteSts => w.(sts := None)
    case CreateSts(s) => w.(sts := Some(s))
    case CreatePod(u, pod) => w.(pods := w.pods[Mig(u) := pod])
    case DeletePod(p) => w.(pods := w.pods[p := w.pods[p].(terminating := true)])
    case SweepPod(p) => w.(pods := w.pods[p := w.pods[p].(terminating := true)], book := w.book.(swept := true))
    case BeginPass =>
      if AtCompleted(w) && w.sts == None
      then w.(book := w.book.(bare := w.book.bare + {Cursor(w.vr.value.status).value})) else w
    case FallThrough(u) => w.(book := w.book.(h2 := false))
  }

  /** Facts about a world */

  ghost predicate Retained(w: World, n: PvName) {
    n in w.pvs && w.pvs[n].policy == Retain
  }

  // No pod of that replica runs, and nothing can start one.
  ghost predicate Quiet(w: World, r: nat) {
    w.sts == None && App(r) !in w.pods
  }

  ghost predicate NoMig(w: World, u: Unit) {
    Mig(u) !in w.pods
  }

  ghost predicate Done(w: World, u: Unit) {
    Mig(u) in w.pods ==> Finished(w.pods[Mig(u)])
  }

  ghost predicate NoTemp(w: World, u: Unit) {
    Temp(u) !in w.claims
  }

  // The original claim is gone or on its way out.
  ghost predicate AbsentIn(claims: map<ClaimKey, Claim>, u: Unit) {
    Orig(u) in claims ==> claims[Orig(u)].terminating
  }

  ghost predicate Absent(w: World, u: Unit) {
    AbsentIn(w.claims, u)
  }

  ghost predicate NotHome(w: World, n: PvName) {
    forall u :: u in w.book.home ==> w.book.home[u] != n
  }

  // The original claim of u is bound to the volume that stands for u.
  ghost predicate HomeHeld(w: World, u: Unit) {
    u in w.book.home && w.book.home[u] in w.pvs && w.pvs[w.book.home[u]].claimRef == Some(Orig(u))
  }

  ghost predicate NotFirst(w: World, n: PvName) {
    forall u :: u in w.past.first ==> w.past.first[u] != n
  }

  // The resource is at this unit and has not recorded it as completed.
  ghost predicate AtCursorIn(st: Status, u: Unit) {
    Cursor(st) == Some(u) && !CompletedAt(st.volumeStatuses, u)
  }

  ghost predicate AtCursor(w: World, u: Unit) {
    w.vr.Some? && AtCursorIn(w.vr.value.status, u)
  }

  // A Syncing pass may work on this unit.
  ghost predicate Active(w: World, u: Unit) {
    AtCursor(w, u) && w.vr.value.finalizer && w.vr.value.status.phase == Syncing && !w.book.swept
  }

  // A Syncing pass is at a unit that is not yet recorded as completed.
  ghost predicate Working(w: World) {
    w.vr.Some? && Cursor(w.vr.value.status).Some? && Active(w, Cursor(w.vr.value.status).value)
  }

  // A claim as its target asks for it: the new size, and the class if one is given.
  ghost predicate AsTargeted(spec: Spec, u: Unit, c: Claim) {
    && IsTarget(spec.volumes, u.volume)
    && var t := TargetOf(spec.volumes, u.volume);
       c.size == t.newSize && (t.storageClass.Some? ==> c.storageClass == t.storageClass)
  }

  // What a Completed entry promises: the original name requests the new size, and the
  // class if one is given, and names a retained volume.
  ghost predicate TruthIn(spec: Spec, claims: map<ClaimKey, Claim>, pvs: map<PvName, Pv>, u: Unit) {
    && Orig(u) in claims
    && var c := claims[Orig(u)];
       && !c.terminating && AsTargeted(spec, u, c)
       && c.pv.Some? && c.pv.value in pvs && pvs[c.pv.value].policy == Retain
  }

  ghost predicate Truth(w: World, u: Unit) {
    TruthIn(w.spec, w.claims, w.pvs, u)
  }

  ghost predicate Sound(w: World) {
    w.past.rolledOut && w.book.h1 && w.book.h2 && w.book.h3 && w.book.h4 && w.book.h6
  }

  // Volume m of the temporary claim, as long as it exists, holds a finished copy of
  // u, and nothing can change either side.
  ghost predicate Ready(w: World, u: Unit, m: PvName) {
    && Active(w, u) && Quiet(w, u.replica) && Done(w, u) && HomeHeld(w, u) && !Absent(w, u)
    && NotHome(w, m) && m in w.book.names && u in w.book.latest
    && (Temp(u) in w.claims ==> w.claims[Temp(u)].pv == Some(m))
    && (m in w.pvs ==> w.pvs[m].claimRef == Some(Temp(u)) && w.pvs[m].data == w.book.latest[u])
  }

  // The same once that volume is retained, also when the temporary claim is gone.
  ghost predicate Staged(w: World, u: Unit, m: PvName) {
    && Active(w, u) && Quiet(w, u.replica) && Done(w, u) && HomeHeld(w, u)
    && Retained(w, m) && NotHome(w, m) && u in w.book.latest && w.pvs[m].data == w.book.latest[u]
    && (w.pvs[m].claimRef == Some(Temp(u)) || (w.pvs[m].claimRef == None && NoTemp(w, u)))
  }

  /** What the operator obeys: the condition under which it issues each call */

  ghost predicate HasTemplate(s: Sts, name: string) {
    exists t :: t in s.templates && t.name == name
  }

  ghost predicate TargetsOk(spec: Spec, past: Origin) {
    past.sts0.Some? && forall v :: v in spec.volumes ==> HasTemplate(past.sts0.value, v.name)
  }

  ghost predicate Shrinks(spec: Spec, past: Origin) {
    forall v :: v in spec.volumes ==> Unit(0, v.name) in past.size0 && v.newSize < past.size0[Unit(0, v.name)]
  }

  ghost predicate Launch(w: World, st: Status) {
    && TargetsOk(w.spec, w.past)
    && (w.past.rolledOut ==> Shrinks(w.spec, w.past))
    && st.phase == Syncing
    && |w.spec.volumes| > 0
    && Keys(st.volumeStatuses) == Units(w.spec.volumes, Replicas(w.past.sts0.value))
    && (forall i :: 0 <= i < |st.volumeStatuses| ==> st.volumeStatuses[i].phase == VPending)
    && Cursor(st) == Some(Unit(0, w.spec.volumes[0].name))
  }

  // Only the entry of u differs, and keys stay.
  ghost predicate SameExceptAt(a: seq<VolumeStatus>, b: seq<VolumeStatus>, u: Unit) {
    && |a| == |b|
    && forall i :: 0 <= i < |a| ==> Key(a[i]) == Key(b[i]) && (Key(a[i]) != u ==> a[i] == b[i])
  }

  // What holds when a unit is first recorded as completed.
  ghost predicate Finish(w: World, u: Unit) {
    && Truth(w, u)
    && (w.book.h1 ==> NoTemp(w, u))
    && (w.book.h2 && w.book.h4 ==> Done(w, u))
  }

  ghost predicate SyncStep(w: World, s: Status, t: Status) {
    && w.past.sts0.Some? && Replicas(w.past.sts0.value) > 0 && |w.spec.volumes| > 0
    && Cursor(s).Some?
    && var u := Cursor(s).value;
       && SameExceptAt(s.volumeStatuses, t.volumeStatuses, u)
       && (CompletedAt(s.volumeStatuses, u) ==> CompletedAt(t.volumeStatuses, u))
       && (CompletedAt(t.volumeStatuses, u) && !CompletedAt(s.volumeStatuses, u) ==> Finish(w, u))
       && (|| ((t.phase == Syncing || t.phase == Failed) && Cursor(t) == Some(u))
           || (&& CompletedAt(s.volumeStatuses, u) && (w.sts.Some? || u in w.book.bare)
               && match Next(w.spec.volumes, Replicas(w.past.sts0.value) - 1, u)
                  case Some(n) => t.phase == Syncing && Cursor(t) == Some(n)
                  case None => t.phase == Completed && Cursor(t) == None))
  }

  ghost predicate StatusStep(w: World, s: Status, t: Status) {
    match s.phase
    case PhaseEmpty => t.phase == Validating && t.volumeStatuses == [] && Cursor(t) == None
    case Pending => t.phase == Validating && t.volumeStatuses == [] && Cursor(t) == None
    case Validating => (t.phase == Failed && t.volumeStatuses == [] && Cursor(t) == None) || Launch(w, t)
    case Syncing => SyncStep(w, s, t)
    case _ => false
  }

  // The resource is gone or marked for deletion.
  ghost predicate Ending(w: World) {
    w.vr.Some? ==> w.vr.value.deleting
  }

  ghost predicate Guard(w: World, c: Call) {
    CanCall(w, c) &&
    match c
    case PutMeta(finalizer, stsDeleted, _) =>
      && (finalizer || w.vr.value.deleting)
      && (stsDeleted && !w.vr.value.stsDeleted ==> w.sts == None && Working(w))
    case PutStatus(st) => w.vr.value.finalizer && !w.book.swept && StatusStep(w, w.vr.value.status, st)
    case CreateClaim(k, claim) =>
      && Active(w, k.unit)
      && AsTargeted(w.spec, k.unit, claim)
      && !claim.terminating && !claim.bound
      && (k.Temp? ==> Owned(w.spec, claim.labels) && claim.pv == None)
      && (k.Orig? ==>
            && !Owned(w.spec, claim.labels) && claim.pv.Some?
            && Retained(w, claim.pv.value) && NotFirst(w, claim.pv.value)
            && (Sound(w) ==> Staged(w, k.unit, claim.pv.value) && w.pvs[claim.pv.value].claimRef == None))
    case DeleteClaim(k) =>
      && Active(w, k.unit) && (Sound(w) ==> Done(w, k.unit))
      && (k.Orig? ==>
            && (k.unit in w.past.first ==> Retained(w, w.past.first[k.unit]))
            && k.unit in w.book.staged && Retained(w, w.book.staged[k.unit])
            && (w.past.rolledOut && w.book.h4 ==> Quiet(w, k.unit.replica))
            && (Sound(w) ==> HomeHeld(w, k.unit) && Retained(w, w.book.home[k.unit]) && NoTemp(w, k.unit)))
    case SweepClaim(k) => Owned(w.spec, w.claims[k].labels) && Ending(w)
    case RetainPv(_) => true
    case ReleasePv(u, n) =>
      && Active(w, u) && Retained(w, n) && NotFirst(w, n)
      && (Sound(w) ==> Staged(w, u, n))
    case CreateBackup(s) => w.sts == Some(s) && Working(w)
    case DeleteSts => w.backup.Some? && Working(w)
    case CreateSts(s) =>
      && w.backup.Some? && s == Rewrite(w.backup.value, w.spec.volumes)
      && AtCompleted(w) && Cursor(w.vr.value.status).value !in w.book.bare
    case CreatePod(u, pod) =>
      && Active(w, u)
      && pod == Pod(PodPending, {Orig(u), Temp(u)}, map[], MigrationLabels(w.spec, u), false)
      && (w.book.h4 ==> Quiet(w, u.replica))
    case DeletePod(_) => true
    case SweepPod(p) => Owned(w.spec, w.pods[p].labels) && Ending(w)
    case BeginPass => true
    case FallThrough(_) => true
  }

  /** Runs */

  ghost predicate FreshSts(w: World) {
    && w.sts == w.past.sts0 && w.backup == None
    && (w.sts.Some? ==>
          && Replicas(w.sts.value) > 0 && !Owned(w.spec, w.sts.value.podLabels)
          && forall t :: t in w.sts.value.templates ==> !Owned(w.spec, t.labels))
  }

  ghost predicate FreshResource(w: World) {
    && DistinctNames(w.spec.volumes) && |w.spec.volumes| > 0
    && (w.vr.Some? ==>
          && !w.vr.value.stsDeleted
          && (w.vr.value.status.phase == PhaseEmpty || w.vr.value.status.phase == Pending)
          && w.vr.value.status.volumeStatuses == [] && Cursor(w.vr.value.status) == None)
  }

  // No temporary claim, no claim on its way out, and claims and volumes refer to
  // each other.
  ghost predicate FreshClaims(w: World) {
    && (forall k :: k in w.claims ==>
          && k.Orig? && !w.claims[k].terminating && !Owned(w.spec, w.claims[k].labels)
          && k.unit in w.past.size0 && w.past.size0[k.unit] == w.claims[k].size
          && (w.claims[k].pv.Some? ==>
                w.claims[k].pv.value in w.pvs && w.pvs[w.claims[k].pv.value].claimRef == Some(k)
                && k.unit in w.past.first))
    && (forall u :: u in w.past.first ==>
          Orig(u) in w.claims && w.claims[Orig(u)].pv == Some(w.past.first[u]) && w.past.first[u] in w.pvs)
  }

  // No migrator; application pods mount what their claims name.
  ghost predicate FreshPods(w: World) {
    forall p :: p in w.pods ==>
      && p.App? && !Owned(w.spec, w.pods[p].labels)
      && (forall k :: k in w.pods[p].claims ==> k.Orig? && k.unit.replica == p.replica)
      && w.pods[p].mounts.Keys <= w.pods[p].claims
      && (forall k :: k in w.pods[p].mounts ==> k in w.claims && w.claims[k].pv == Some(w.pods[p].mounts[k]))
  }

  ghost predicate FreshBook(w: World) {
    && w.pvs.Keys <= w.book.names
    && w.book.home == w.past.first && w.book.staged == map[] && !w.book.swept && w.book.bare == {}
    && w.book.h1 && w.book.h2 && w.book.h3 && w.book.h4 && w.book.h6
    && (forall u :: u in w.past.first && w.past.first[u] in w.pvs ==>
          u in w.book.latest && w.book.latest[u] == w.pvs[w.past.first[u]].data)
  }

  ghost predicate RolledOut(w: World) {
    && w.sts.Some?
    && (forall r, t :: 0 <= r < Replicas(w.sts.value) && t in w.sts.value.templates ==> Unit(r, t.name) in w.past.first)
    && (forall k :: k in w.claims ==> k.unit in w.past.first)
  }

  // A fresh resource on a consistent cluster, no label or backup of the resource
  // in use.
  ghost predicate Start(w: World) {
    && FreshSts(w) && FreshResource(w) && FreshClaims(w) && FreshPods(w) && FreshBook(w)
    && (w.past.rolledOut ==> RolledOut(w))
  }

  ghost predicate Allowed(w: World, a: Action) {
    match a
    case Env(m) => CanMove(w, m)
    case Op(c) => Guard(w, c)
  }

  ghost function Acted(w: World, a: Action): World {
    if !Allowed(w, a) then w
    else
      match a
      case Env(m) => Moved(w, m)
      case Op(c) => Called(w, c)
  }

  ghost function Exec(w0: World, log: seq<Action>): World {
    if log == [] then w0 else Acted(Exec(w0, log[..|log| - 1]), log[|log| - 1])
  }

  ghost predicate Legal(w0: World, log: seq<Action>) {
    log == [] || (Legal(w0, log[..|log| - 1]) && Allowed(Exec(w0, log[..|log| - 1]), log[|log| - 1]))
  }

  // The log is a run from a start world to w: each action is allowed where it happens.
  ghost predicate Run(w0: World, log: seq<Action>, w: World) {
    Start(w0) && Legal(w0, log) && Exec(w0, log) == w
  }

  lemma RunExtends(w0: World, log: seq<Action>, w: World, a: Action)
    requires Run(w0, log, w) && Allowed(w, a)
    ensures Run(w0, log + [a], Acted(w, a))
  {
    var l := log + [a];
    assert l[..|l| - 1] == log && l[|l| - 1] == a;
  }
}
