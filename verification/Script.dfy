/**
  Writing runs down: what a run can go on with, stretch by stretch, from any world
  in which a unit is at the cursor. The changes of each stretch are stated in full.
 */
module Script {
  import opened Types
  import opened Enumeration
  import opened Protocol

  lemma ByMove(w0: World, log: seq<Action>, w: World, m: Move)
    requires Run(w0, log, w) && CanMove(w, m)
    ensures Run(w0, log + [Env(m)], Moved(w, m))
  {
    hide Run, CanMove, Moved;
    RunExtends(w0, log, w, Env(m));
  }

  lemma ByCall(w0: World, log: seq<Action>, w: World, c: Call)
    requires Run(w0, log, w) && Guard(w, c)
    ensures CanCall(w, c) && Run(w0, log + [Op(c)], Called(w, c))
  {
    assert CanCall(w, c);
    hide Run, Guard, CanCall, Called;
    RunExtends(w0, log, w, Op(c));
  }

  // Both claims of u are there, bound, and name these volumes.
  ghost predicate Paired(w: World, u: Unit, o: PvName, m: PvName) {
    && Orig(u) in w.claims && Temp(u) in w.claims
    && w.claims[Orig(u)].bound && w.claims[Orig(u)].pv == Some(o) && !w.claims[Orig(u)].terminating
    && w.claims[Temp(u)].bound && w.claims[Temp(u)].pv == Some(m) && !w.claims[Temp(u)].terminating
  }

  // The unit at the cursor has its first volume, with the latest data; the hypotheses
  // on the operator's own faults hold.
  ghost predicate Movable(w: World, u: Unit, o: PvName) {
    && Active(w, u) && IsTarget(w.spec.volumes, u.volume)
    && w.past.sts0.Some? && Replicas(w.past.sts0.value) > 0
    && w.book.h1 && w.book.h2 && w.book.h3 && w.book.h4
    && Orig(u) in w.claims && !w.claims[Orig(u)].terminating && w.claims[Orig(u)].pv == Some(o)
    && w.claims[Orig(u)].bound && !Owned(w.spec, w.claims[Orig(u)].labels)
    && o in w.pvs && w.pvs[o].claimRef == Some(Orig(u))
    && (forall n :: n in w.pvs && w.pvs[n].claimRef == Some(Orig(u)) ==> n == o)
    && u in w.past.first && w.past.first[u] == o && u in w.book.home && w.book.home[u] == o
    && u in w.book.latest && w.book.latest[u] == w.pvs[o].data
  }

  ghost predicate Unused(w: World, m: PvName) {
    m !in w.book.names && m !in w.pvs && NotHome(w, m) && NotFirst(w, m)
  }

  // The migration of u has left nothing yet.
  ghost predicate Unbegun(w: World, u: Unit) {
    && Temp(u) !in w.claims && Mig(u) !in w.pods
    && forall n :: n in w.pvs ==> w.pvs[n].claimRef != Some(Temp(u))
  }

  // A temporary claim as the operator creates it.
  ghost predicate Blank(spec: Spec, u: Unit, temp: Claim) {
    && AsTargeted(spec, u, temp) && temp.pv == None && !temp.bound && !temp.terminating && Owned(spec, temp.labels)
  }

  /** The start */

  // A pending resource that may be launched is.
  lemma Launches(w0: World, log: seq<Action>, w: World, st: Status) returns (more: seq<Action>)
    requires Run(w0, log, w) && w.vr.Some? && w.vr.value.finalizer && !w.vr.value.stsDeleted && !w.book.swept
    requires w.vr.value.status.phase == Pending && Launch(w, st)
    ensures log <= more && Run(w0, more, w.(vr := Some(w.vr.value.(status := st))))
  {
    hide Run, Launch;
    var early := Status(Validating, [], None, "", "");
    ByCall(w0, log, w, PutStatus(early));
    var w1 := Called(w, PutStatus(early));
    assert Launch(w1, st) by { LaunchSame(w, w1, st); }
    ByCall(w0, log + [Op(PutStatus(early))], w1, PutStatus(st));
    more := log + [Op(PutStatus(early))] + [Op(PutStatus(st))];
    assert Called(w1, PutStatus(st)) == w.(vr := Some(w.vr.value.(status := st)));
  }

  lemma LaunchSame(w: World, w': World, st: Status)
    requires Launch(w, st) && w'.spec == w.spec && w'.past == w.past
    ensures Launch(w', st)
  {
    hide TargetsOk, Shrinks, Units;
  }

  /** The claims */

  // The temporary claim is created and bound, the old volume is retained.
  ghost function Provided(w: World, u: Unit, o: PvName, m: PvName, temp: Claim): World
    requires o in w.pvs
  {
    w.(claims := w.claims[Temp(u) := temp.(pv := Some(m), bound := true)],
       pvs := w.pvs[m := Pv(Delete, Some(Temp(u)), "")][o := w.pvs[o].(policy := Retain)],
       book := w.book.(names := w.book.names + {m}, h6 := w.book.h6 && AllHeld(w.claims, w.pvs)))
  }

  lemma Provides(w0: World, log: seq<Action>, w: World, u: Unit, o: PvName, m: PvName, temp: Claim)
    returns (more: seq<Action>)
    requires Run(w0, log, w) && Movable(w, u, o) && Unused(w, m) && Unbegun(w, u)
    requires Blank(w.spec, u, temp)
    ensures log <= more && Run(w0, more, Provided(w, u, o, m, temp))
  {
    hide Run, AllHeld, Active, Owned;
    var a, b, c := Op(CreateClaim(Temp(u), temp)), Env(Bind(Temp(u), m, Delete)), Op(RetainPv(o));
    ByCall(w0, log, w, a.call);
    var w1 := Called(w, a.call);
    ByMove(w0, log + [a], w1, b.move);
    var w2 := Moved(w1, b.move);
    ByCall(w0, log + [a] + [b], w2, c.call);
    more := log + [a] + [b] + [c];
    assert w2.claims == w.claims[Temp(u) := temp.(pv := Some(m), bound := true)];
    assert Called(w2, c.call) == Provided(w, u, o, m, temp);
  }

  /** The StatefulSet and the pod */

  // Backup and orphan deletion, unless done, and the pod of the replica goes.
  ghost function TakenDown(w: World, r: nat): World {
    w.(sts := None, backup := if w.sts.Some? && w.backup == None then w.sts else w.backup, pods := w.pods - {App(r)})
  }

  lemma TakesDown(w0: World, log: seq<Action>, w: World, u: Unit) returns (more: seq<Action>)
    requires Run(w0, log, w) && Active(w, u)
    ensures log <= more && Run(w0, more, TakenDown(w, u.replica))
  {
    AtWorkNow(w, u);
    hide Run, Active, Working, Guard;
    more := BacksUp(w0, log, w);
    var w1, p := w.(sts := None, backup := if w.sts.Some? && w.backup == None then w.sts else w.backup), App(u.replica);
    if p in w.pods {
      ByMove(w0, more, w1, PodGone(p));
      more := more + [Env(PodGone(p))];
    } else {
      assert w.pods - {p} == w.pods;
    }
  }

  lemma BacksUp(w0: World, log: seq<Action>, w: World) returns (more: seq<Action>)
    requires Run(w0, log, w) && Working(w)
    ensures log <= more
    ensures Run(w0, more, w.(sts := None, backup := if w.sts.Some? && w.backup == None then w.sts else w.backup))
  {
    hide Run, Working;
    more := log;
    if w.sts.Some? {
      var w1 := w;
      if w.backup == None {
        ByCall(w0, log, w, CreateBackup(w.sts.value));
        more, w1 := log + [Op(CreateBackup(w.sts.value))], Called(w, CreateBackup(w.sts.value));
      }
      StillWorking(w, w1);
      ByCall(w0, more, w1, DeleteSts);
      more := more + [Op(DeleteSts)];
    }
  }

  lemma AtWorkNow(w: World, u: Unit)
    requires Active(w, u)
    ensures Working(w)
  {
    hide CompletedAt;
  }

  lemma StillWorking(w: World, w': World)
    requires Working(w) && w'.vr == w.vr && w'.book.swept == w.book.swept
    ensures Working(w')
  {
    hide CompletedAt;
  }

  // The deletion is noted.
  function NotedOn(v: Vr, backup: string): Vr {
    v.(stsDeleted := true, stsBackup := Some(backup), status := v.status.(backupName := backup))
  }

  lemma Notes(w0: World, log: seq<Action>, w: World, u: Unit, o: PvName, backup: string) returns (more: seq<Action>)
    requires Run(w0, log, w) && Movable(w, u, o) && |w.spec.volumes| > 0 && w.sts == None
    ensures log <= more && Run(w0, more, w.(vr := Some(NotedOn(w.vr.value, backup))))
  {
    hide Run, CompletedAt;
    var v := w.vr.value;
    var a, b := PutMeta(true, true, Some(backup)), PutStatus(v.status.(backupName := backup));
    ByCall(w0, log, w, a);
    var w1 := Called(w, a);
    ByCall(w0, log + [Op(a)], w1, b);
    more := log + [Op(a)] + [Op(b)];
    assert Called(w1, b) == w.(vr := Some(NotedOn(v, backup)));
  }

  /** The copy */

  ghost function Started(w: World, u: Unit, o: PvName, m: PvName): Pod {
    Pod(PodRunning, {Orig(u), Temp(u)}, map[Orig(u) := o, Temp(u) := m], MigrationLabels(w.spec, u), false)
  }

  lemma Starts(w0: World, log: seq<Action>, w: World, u: Unit, o: PvName, m: PvName) returns (more: seq<Action>)
    requires Run(w0, log, w) && Active(w, u) && Paired(w, u, o, m)
    requires Quiet(w, u.replica) && Mig(u) !in w.pods
    ensures log <= more && Run(w0, more, w.(pods := w.pods[Mig(u) := Started(w, u, o, m)]))
  {
    hide Run, Active;
    var pod := Pod(PodPending, {Orig(u), Temp(u)}, map[], MigrationLabels(w.spec, u), false);
    ByCall(w0, log, w, CreatePod(u, pod));
    var w1 := Called(w, CreatePod(u, pod));
    ByMove(w0, log + [Op(CreatePod(u, pod))], w1, PodStart(Mig(u)));
    more := log + [Op(CreatePod(u, pod))] + [Env(PodStart(Mig(u)))];
    assert (map k | k in pod.claims :: w1.claims[k].pv.value) == map[Orig(u) := o, Temp(u) := m];
    assert Moved(w1, PodStart(Mig(u))).pods == w.pods[Mig(u) := Started(w, u, o, m)];
  }

  lemma Copies(w0: World, log: seq<Action>, w: World, u: Unit, o: PvName, m: PvName) returns (more: seq<Action>)
    requires Run(w0, log, w) && Active(w, u) && Paired(w, u, o, m) && o in w.pvs && m in w.pvs
    requires Quiet(w, u.replica) && Mig(u) !in w.pods
    ensures log <= more && Run(w0, more, w.(pvs := Written(w.pvs, m, w.pvs[o].data)))
  {
    CopiedIs(w, u, o, m);
    hide *;
    more := Starts(w0, log, w, u, o, m);
    var w1 := w.(pods := w.pods[Mig(u) := Started(w, u, o, m)]);
    ByMove(w0, more, w1, MigDone(u));
    more := CleansUp(w0, more + [Env(MigDone(u))], Moved(w1, MigDone(u)), u);
  }

  lemma CopiedIs(w: World, u: Unit, o: PvName, m: PvName)
    requires o in w.pvs && m in w.pvs && Mig(u) !in w.pods
    ensures var w1 := w.(pods := w.pods[Mig(u) := Started(w, u, o, m)]);
            && CanMove(w1, MigDone(u))
            && var w2 := Moved(w1, MigDone(u));
               && Mig(u) in w2.pods
               && w2.(pods := w2.pods - {Mig(u)}) == w.(pvs := Written(w.pvs, m, w.pvs[o].data))
  {
    var w2 := Moved(w.(pods := w.pods[Mig(u) := Started(w, u, o, m)]), MigDone(u));
    assert w2.pods - {Mig(u)} == w.pods;
  }

  lemma CleansUp(w0: World, log: seq<Action>, w: World, u: Unit) returns (more: seq<Action>)
    requires Run(w0, log, w) && Mig(u) in w.pods
    ensures log <= more && Run(w0, more, w.(pods := w.pods - {Mig(u)}))
  {
    hide Run;
    ByCall(w0, log, w, DeletePod(Mig(u)));
    var w1 := Called(w, DeletePod(Mig(u)));
    ByMove(w0, log + [Op(DeletePod(Mig(u)))], w1, PodGone(Mig(u)));
    more := log + [Op(DeletePod(Mig(u)))] + [Env(PodGone(Mig(u)))];
    assert w1.pods - {Mig(u)} == w.pods - {Mig(u)};
  }

  /** The swap */

  // The copy is retained and released, its claim is gone.
  ghost function Freed(w: World, u: Unit, m: PvName): World
    requires m in w.pvs
  {
    w.(claims := w.claims - {Temp(u)}, pvs := w.pvs[m := Pv(Retain, None, w.pvs[m].data)],
       book := w.book.(staged := w.book.staged[u := m]))
  }

  // The copy of u on m is ready.
  ghost predicate Copied(w: World, u: Unit, m: PvName) {
    && Quiet(w, u.replica) && Mig(u) !in w.pods
    && Temp(u) in w.claims && w.claims[Temp(u)].pv == Some(m) && !w.claims[Temp(u)].terminating
    && m in w.pvs && w.pvs[m].claimRef == Some(Temp(u)) && NotHome(w, m) && NotFirst(w, m)
    && (forall n :: n in w.pvs && w.pvs[n].claimRef == Some(Temp(u)) ==> n == m)
    && u in w.book.latest && w.pvs[m].data == w.book.latest[u]
  }

  // The same before the release.
  ghost function Dropped(w: World, u: Unit, m: PvName): World
    requires m in w.pvs
  {
    w.(claims := w.claims - {Temp(u)}, pvs := w.pvs[m := w.pvs[m].(policy := Retain)])
  }

  lemma Drops(w0: World, log: seq<Action>, w: World, u: Unit, m: PvName) returns (more: seq<Action>)
    requires Run(w0, log, w) && Active(w, u) && Copied(w, u, m)
    ensures log <= more && Run(w0, more, Dropped(w, u, m))
  {
    MayDropTemp(w, u, m);
    DroppedIs(w, u, m);
    hide *;
    ByCall(w0, log, w, RetainPv(m));
    var w1 := Called(w, RetainPv(m));
    ByCall(w0, log + [Op(RetainPv(m))], w1, DeleteClaim(Temp(u)));
    var w2 := Called(w1, DeleteClaim(Temp(u)));
    ByMove(w0, log + [Op(RetainPv(m))] + [Op(DeleteClaim(Temp(u)))], w2, ClaimGone(Temp(u)));
    more := log + [Op(RetainPv(m))] + [Op(DeleteClaim(Temp(u)))] + [Env(ClaimGone(Temp(u)))];
  }

  lemma DroppedIs(w: World, u: Unit, m: PvName)
    requires Copied(w, u, m)
    ensures Guard(w, RetainPv(m)) && CanCall(w, RetainPv(m))
    ensures var w1 := Called(w, RetainPv(m));
            && CanCall(w1, DeleteClaim(Temp(u)))
            && var w2 := Called(w1, DeleteClaim(Temp(u)));
               CanMove(w2, ClaimGone(Temp(u))) && Moved(w2, ClaimGone(Temp(u))) == Dropped(w, u, m)
  {
    hide Quiet, NotHome, NotFirst;
    var w1 := Called(w, RetainPv(m));
    var w3 := Moved(Called(w1, DeleteClaim(Temp(u))), ClaimGone(Temp(u)));
    assert w3.pvs == w1.pvs;
    assert w3.claims == w.claims - {Temp(u)};
  }

  lemma Frees(w0: World, log: seq<Action>, w: World, u: Unit, o: PvName, m: PvName) returns (more: seq<Action>)
    requires Run(w0, log, w) && Movable(w, u, o) && Copied(w, u, m)
    ensures log <= more && Run(w0, more, Freed(w, u, m))
  {
    hide Run, Guard, Copied, Movable, Active;
    CopiedThere(w, u, o, m);
    ActiveHere(w, u, o);
    var drop := Drops(w0, log, w, u, m);
    MayReleaseHere(w, u, o, m);
    ByCall(w0, drop, Dropped(w, u, m), ReleasePv(u, m));
    ReleasedIs(w, u, m);
    more := drop + [Op(ReleasePv(u, m))];
  }

  lemma MayDropTemp(w: World, u: Unit, m: PvName)
    requires Active(w, u) && Copied(w, u, m)
    ensures Guard(Called(w, RetainPv(m)), DeleteClaim(Temp(u)))
  {
    hide CompletedAt, NotHome, NotFirst, Sound;
  }

  lemma MayReleaseHere(w: World, u: Unit, o: PvName, m: PvName)
    requires Movable(w, u, o) && Copied(w, u, m)
    ensures Guard(Dropped(w, u, m), ReleasePv(u, m))
  {
    hide CompletedAt, Owned;
  }

  lemma ReleasedIs(w: World, u: Unit, m: PvName)
    requires Copied(w, u, m) && CanCall(Dropped(w, u, m), ReleasePv(u, m))
    ensures Called(Dropped(w, u, m), ReleasePv(u, m)) == Freed(w, u, m)
  {
    hide Quiet, NotHome, NotFirst;
  }

  // The original name stands for the copy.
  ghost function Renamed(w: World, u: Unit, m: PvName, claim: Claim): World {
    w.(claims := w.claims[Orig(u) := claim], book := w.book.(home := w.book.home[u := m]))
  }

  // The copy is free for u to take.
  ghost predicate Free(w: World, u: Unit, o: PvName, m: PvName) {
    && Quiet(w, u.replica) && Mig(u) !in w.pods && Temp(u) !in w.claims
    && Retained(w, o) && Retained(w, m) && w.pvs[m].claimRef == None && NotHome(w, m) && NotFirst(w, m)
    && u in w.book.staged && w.book.staged[u] == m && u in w.book.latest && w.pvs[m].data == w.book.latest[u]
  }

  ghost predicate Anew(spec: Spec, u: Unit, m: PvName, claim: Claim) {
    && AsTargeted(spec, u, claim) && claim.pv == Some(m)
    && !claim.bound && !claim.terminating && !Owned(spec, claim.labels)
  }

  lemma Renames(w0: World, log: seq<Action>, w: World, u: Unit, o: PvName, m: PvName, claim: Claim)
    returns (more: seq<Action>)
    requires Run(w0, log, w) && Movable(w, u, o) && Free(w, u, o, m) && Anew(w.spec, u, m, claim)
    ensures log <= more && Run(w0, more, Renamed(w, u, m, claim))
  {
    hide Run, AtCursor, Owned, NotHome, NotFirst, Quiet;
    ByCall(w0, log, w, DeleteClaim(Orig(u)));
    var w1 := Called(w, DeleteClaim(Orig(u)));
    ByMove(w0, log + [Op(DeleteClaim(Orig(u)))], w1, ClaimGone(Orig(u)));
    var w2 := Moved(w1, ClaimGone(Orig(u)));
    assert w2.pvs == w.pvs;
    MayTakeName(w, w2, u, o, m, claim);
    ByCall(w0, log + [Op(DeleteClaim(Orig(u)))] + [Env(ClaimGone(Orig(u)))], w2, CreateClaim(Orig(u), claim));
    more := log + [Op(DeleteClaim(Orig(u)))] + [Env(ClaimGone(Orig(u)))] + [Op(CreateClaim(Orig(u), claim))];
    assert Called(w2, CreateClaim(Orig(u), claim)).claims == Renamed(w, u, m, claim).claims;
  }

  lemma MayTakeName(w: World, w': World, u: Unit, o: PvName, m: PvName, claim: Claim)
    requires Movable(w, u, o) && Free(w, u, o, m) && Anew(w.spec, u, m, claim)
    requires w' == w.(claims := w.claims - {Orig(u)})
    ensures Guard(w', CreateClaim(Orig(u), claim))
  {
    hide CompletedAt, Owned;
  }

  /** The record */

  ghost function Recorded(w: World, list: seq<VolumeStatus>): World
    requires w.vr.Some?
  {
    w.(vr := Some(w.vr.value.(status := w.vr.value.status.(volumeStatuses := list))))
  }

  // The entry of u becomes Completed.
  ghost predicate Completes(w: World, u: Unit, list: seq<VolumeStatus>) {
    w.vr.Some? && SameExceptAt(w.vr.value.status.volumeStatuses, list, u) && CompletedAt(list, u)
  }

  lemma Records(w0: World, log: seq<Action>, w: World, u: Unit, list: seq<VolumeStatus>) returns (more: seq<Action>)
    requires Run(w0, log, w) && Active(w, u) && Finish(w, u) && Completes(w, u, list)
    requires w.past.sts0.Some? && Replicas(w.past.sts0.value) > 0 && |w.spec.volumes| > 0
    ensures log <= more && Run(w0, more, Recorded(w, list))
  {
    hide Run, Finish, SameExceptAt, CompletedAt, Next;
    var c := PutStatus(w.vr.value.status.(volumeStatuses := list));
    ByCall(w0, log, w, c);
    more := log + [Op(c)];
    assert Called(w, c) == Recorded(w, list);
  }

  // What the migration of u from volume o to the fresh volume m leaves.
  ghost function Migrated(
    w: World, u: Unit, o: PvName, m: PvName, backup: string, list: seq<VolumeStatus>, claim: Claim): World
    requires o in w.pvs && w.vr.Some?
  {
    var v := NotedOn(w.vr.value, backup);
    w.(claims := w.claims[Orig(u) := claim],
       pvs := w.pvs[o := w.pvs[o].(policy := Retain)][m := Pv(Retain, None, w.pvs[o].data)],
       pods := w.pods - {App(u.replica)}, sts := None, backup := w.sts,
       vr := Some(v.(status := v.status.(volumeStatuses := list))),
       book := w.book.(home := w.book.home[u := m], staged := w.book.staged[u := m],
                       names := w.book.names + {m}, h6 := w.book.h6 && AllHeld(w.claims, w.pvs)))
  }

  // The world before the copy.
  ghost function Poised(w: World, u: Unit, o: PvName, m: PvName, backup: string, temp: Claim): World
    requires o in w.pvs && w.vr.Some?
  {
    TakenDown(Provided(w, u, o, m, temp), u.replica).(vr := Some(NotedOn(w.vr.value, backup)))
  }

  lemma MovableKept(w: World, w': World, u: Unit, o: PvName)
    requires Movable(w, u, o) && w'.spec == w.spec && w'.past == w.past && w'.book.swept == w.book.swept
    requires w'.vr.Some? && w'.vr.value.finalizer
    requires w'.vr.value.status.(backupName := "") == w.vr.value.status.(backupName := "")
    requires w'.book.h1 && w'.book.h2 && w'.book.h3 && w'.book.h4
    requires Orig(u) in w'.claims && w'.claims[Orig(u)] == w.claims[Orig(u)]
    requires o in w'.pvs && w'.pvs[o].(policy := w.pvs[o].policy) == w.pvs[o]
    requires forall n :: n in w'.pvs && w'.pvs[n].claimRef == Some(Orig(u)) ==>
               n in w.pvs && w.pvs[n].claimRef == Some(Orig(u))
    requires w'.book.home == w.book.home && w'.book.latest == w.book.latest
    ensures Movable(w', u, o)
  {
    hide CompletedAt, Owned;
  }

  lemma Poises(
    w0: World, log: seq<Action>, w: World, u: Unit, o: PvName, m: PvName, backup: string, temp: Claim)
    returns (more: seq<Action>)
    requires Run(w0, log, w) && Movable(w, u, o) && Unused(w, m) && Unbegun(w, u)
    requires Blank(w.spec, u, temp) && |w.spec.volumes| > 0
    ensures log <= more && Run(w0, more, Poised(w, u, o, m, backup, temp))
    ensures Movable(Poised(w, u, o, m, backup, temp), u, o)
  {
    hide Run, Movable, Blank, AllHeld;
    OldThere(w, u, o, m);
    more := Provides(w0, log, w, u, o, m, temp);
    var w1 := Provided(w, u, o, m, temp);
    MovableKept(w, w1, u, o);
    ActiveHere(w1, u, o);
    more := TakesDown(w0, more, w1, u);
    var w2 := TakenDown(w1, u.replica);
    MovableKept(w1, w2, u, o);
    more := Notes(w0, more, w2, u, o, backup);
    MovableKept(w2, Poised(w, u, o, m, backup, temp), u, o);
  }

  lemma OldThere(w: World, u: Unit, o: PvName, m: PvName)
    requires Movable(w, u, o) && Unused(w, m)
    ensures o in w.pvs && m != o && w.vr.Some? && w.vr.value.finalizer && Orig(u) in w.claims
    ensures w.book.h1 && w.book.h2 && w.book.h3 && w.book.h4
  {
    hide CompletedAt, Owned;
  }

  lemma ActiveHere(w: World, u: Unit, o: PvName)
    requires Movable(w, u, o)
    ensures Active(w, u)
  {
  }

  lemma PoisedToCopy(w: World, u: Unit, o: PvName, m: PvName, backup: string, temp: Claim)
    requires Movable(w, u, o) && Unused(w, m) && Unbegun(w, u) && Blank(w.spec, u, temp)
    ensures var p := Poised(w, u, o, m, backup, temp);
            && Paired(p, u, o, m) && Quiet(p, u.replica) && Mig(u) !in p.pods && p.sts == None
            && o in p.pvs && m in p.pvs && Copied(p.(pvs := Written(p.pvs, m, p.pvs[o].data)), u, m)
            && Retained(p, o)
  {
    hide Active, Owned, AllHeld, TargetOf, IsTarget;
  }

  lemma CopiedToTake(w: World, u: Unit, o: PvName, m: PvName)
    requires Movable(w, u, o) && Copied(w, u, m) && Retained(w, o)
    ensures o != m && Movable(Freed(w, u, m), u, o) && Free(Freed(w, u, m), u, o, m)
  {
    hide CompletedAt, Owned;
  }

  lemma TakenToRecord(w: World, u: Unit, o: PvName, m: PvName, claim: Claim)
    requires Movable(w, u, o) && Free(w, u, o, m) && Anew(w.spec, u, m, claim)
    ensures Active(Renamed(w, u, m, claim), u) && Finish(Renamed(w, u, m, claim), u)
  {
    hide CompletedAt, Owned;
  }

  ghost function Ended(w: World, u: Unit, m: PvName, list: seq<VolumeStatus>, claim: Claim): World
    requires m in w.pvs && w.vr.Some?
  {
    Recorded(Renamed(Freed(w, u, m), u, m, claim), list)
  }

  // From the copy to the record.
  lemma Ends(
    w0: World, log: seq<Action>, w: World, u: Unit, o: PvName, m: PvName, list: seq<VolumeStatus>, claim: Claim)
    returns (more: seq<Action>)
    requires Run(w0, log, w) && Movable(w, u, o) && Copied(w, u, m) && Retained(w, o) && |w.spec.volumes| > 0
    requires Completes(w, u, list) && Anew(w.spec, u, m, claim)
    ensures m in w.pvs && w.vr.Some?
    ensures log <= more && Run(w0, more, Ended(w, u, m, list, claim))
  {
    hide Run, Movable, Copied, Anew, Completes, Retained, Free, Finish, Active;
    CopiedThere(w, u, o, m);
    more := Frees(w0, log, w, u, o, m);
    CopiedToTake(w, u, o, m);
    var w1 := Freed(w, u, m);
    more := Renames(w0, more, w1, u, o, m, claim);
    TakenToRecord(w1, u, o, m, claim);
    CompletesStill(w, Renamed(w1, u, m, claim), u, list);
    more := Records(w0, more, Renamed(w1, u, m, claim), u, list);
  }

  lemma CopiedThere(w: World, u: Unit, o: PvName, m: PvName)
    requires Movable(w, u, o) && Copied(w, u, m)
    ensures m in w.pvs && w.vr.Some? && w.past.sts0.Some? && Replicas(w.past.sts0.value) > 0
  {
    hide CompletedAt, Owned;
  }

  lemma CompletesStill(w: World, w': World, u: Unit, list: seq<VolumeStatus>)
    requires Completes(w, u, list) && w'.vr.Some?
    requires w'.vr.value.status.volumeStatuses == w.vr.value.status.volumeStatuses
    ensures Completes(w', u, list)
  {
    hide SameExceptAt, CompletedAt;
  }

  lemma MigratedIs(
    w: World, u: Unit, o: PvName, m: PvName, backup: string, temp: Claim, list: seq<VolumeStatus>, claim: Claim)
    requires o in w.pvs && w.vr.Some? && m != o && Temp(u) !in w.claims && w.sts.Some? && w.backup == None
    ensures var p := Poised(w, u, o, m, backup, temp);
            && o in p.pvs && m in p.pvs && p.spec == w.spec && p.vr.Some?
            && p.vr.value.status.volumeStatuses == w.vr.value.status.volumeStatuses
            && var c := p.(pvs := Written(p.pvs, m, p.pvs[o].data));
               Ended(c, u, m, list, claim) == Migrated(w, u, o, m, backup, list, claim)
  {
    var p := Poised(w, u, o, m, backup, temp);
    var c := p.(pvs := Written(p.pvs, m, p.pvs[o].data));
    var e, f := Ended(c, u, m, list, claim), Migrated(w, u, o, m, backup, list, claim);
    assert e.claims == f.claims && e.pvs == f.pvs;
    hide AllHeld;
  }

  // The operator migrates a unit.
  lemma Migrates(
    w0: World, log: seq<Action>, w: World, u: Unit, o: PvName, m: PvName, backup: string, temp: Claim,
    list: seq<VolumeStatus>, claim: Claim) returns (more: seq<Action>)
    requires Run(w0, log, w) && Movable(w, u, o) && Unused(w, m) && Unbegun(w, u) && Blank(w.spec, u, temp)
    requires w.sts.Some? && w.backup == None && |w.spec.volumes| > 0
    requires Completes(w, u, list) && Anew(w.spec, u, m, claim)
    ensures o in w.pvs && w.vr.Some?
    ensures log <= more && Run(w0, more, Migrated(w, u, o, m, backup, list, claim))
  {
    hide *;
    OldThere(w, u, o, m);
    assert Temp(u) !in w.claims by { UnbegunTemp(w, u); }
    var p := Poised(w, u, o, m, backup, temp);
    more := Poises(w0, log, w, u, o, m, backup, temp);
    PoisedToCopy(w, u, o, m, backup, temp);
    MigratedIs(w, u, o, m, backup, temp, list, claim);
    var c := p.(pvs := Written(p.pvs, m, p.pvs[o].data));
    ActiveHere(p, u, o);
    more := Copies(w0, more, p, u, o, m);
    CopyKeeps(p, c, u, o, m);
    CompletesStill(w, c, u, list);
    more := Ends(w0, more, c, u, o, m, list, claim);
  }

  lemma UnbegunTemp(w: World, u: Unit)
    requires Unbegun(w, u)
    ensures Temp(u) !in w.claims
  {
  }

  lemma CopyKeeps(w: World, w': World, u: Unit, o: PvName, m: PvName)
    requires Movable(w, u, o) && o in w.pvs && m in w.pvs && m != o && Retained(w, o)
    requires w' == w.(pvs := Written(w.pvs, m, w.pvs[o].data))
    ensures Movable(w', u, o) && Retained(w', o) && w'.spec == w.spec
  {
    hide CompletedAt, Owned;
  }

  // The next pass finds u recorded and goes on to the unit x.
  ghost function PassedOver(w: World, u: Unit, x: Unit): World
    requires w.vr.Some?
  {
    var v := w.vr.value;
    w.(vr := Some(v.(status := v.status.(currentReplica := Some(x.replica), currentVolume := x.volume))),
       book := w.book.(bare := w.book.bare + {u}))
  }

  lemma PassesOver(w0: World, log: seq<Action>, w: World, u: Unit, x: Unit) returns (more: seq<Action>)
    requires Run(w0, log, w) && AtCompleted(w) && w.sts == None && Cursor(w.vr.value.status) == Some(u)
    requires w.past.sts0.Some? && Replicas(w.past.sts0.value) > 0 && |w.spec.volumes| > 0
    requires Next(w.spec.volumes, Replicas(w.past.sts0.value) - 1, u) == Some(x)
    ensures log <= more && Run(w0, more, PassedOver(w, u, x))
  {
    hide Run, CompletedAt, Next, Finish;
    var st := w.vr.value.status.(currentReplica := Some(x.replica), currentVolume := x.volume);
    ByCall(w0, log, w, BeginPass);
    ByCall(w0, log + [Op(BeginPass)], Called(w, BeginPass), PutStatus(st));
    more := log + [Op(BeginPass)] + [Op(PutStatus(st))];
  }

  /** A late replica */

  // A replica without claim and pod, while a volume is free.
  ghost predicate Missing(w: World, x: Unit, n: PvName, t: Template) {
    && w.sts.Some? && w.sts.value.templates == [t] && t.name == x.volume && x.replica < Replicas(w.sts.value)
    && Orig(x) !in w.claims && App(x.replica) !in w.pods && n in w.pvs && w.pvs[n].claimRef == None
  }

  lemma RollsOut(w: World, x: Unit, n: PvName, t: Template)
    requires Missing(w, x, n, t)
    ensures CanMove(w, StsPod(x.replica))
    ensures Moved(w, StsPod(x.replica)) ==
              w.(claims := w.claims[Orig(x) := Claim(t.size, t.storageClass, None, false, t.labels, false)],
                 pods := w.pods[App(x.replica) := Pod(PodPending, {Orig(x)}, map[], w.sts.value.podLabels, false)])
  {
    var s := w.sts.value;
    assert PodClaims(s, x.replica) == {Orig(x)} by { assert t in s.templates; }
    assert TemplateNamed(s, x.volume) == t;
    assert MissingClaims(w, s, x.replica) == map[Orig(x) := Claim(t.size, t.storageClass, None, false, t.labels, false)];
    hide PodClaims, MissingClaims;
  }

  // The claim has its volume, the pod waits.
  ghost function Waiting(w: World, x: Unit, n: PvName, t: Template): World
    requires n in w.pvs && w.sts.Some?
  {
    w.(claims := w.claims[Orig(x) := Claim(t.size, t.storageClass, Some(n), true, t.labels, false)],
       pvs := w.pvs[n := w.pvs[n].(claimRef := Some(Orig(x)))],
       pods := w.pods[App(x.replica) := Pod(PodPending, {Orig(x)}, map[], w.sts.value.podLabels, false)],
       book := w.book.(names := w.book.names + {n}))
  }

  lemma Waits(w0: World, log: seq<Action>, w: World, x: Unit, n: PvName, t: Template) returns (more: seq<Action>)
    requires Run(w0, log, w) && Missing(w, x, n, t)
    ensures log <= more && Run(w0, more, Waiting(w, x, n, t))
  {
    RollsOut(w, x, n, t);
    hide Run, PodClaims, MissingClaims;
    var o, a := StsPod(x.replica), Bind(Orig(x), n, Retain);
    ByMove(w0, log, w, o);
    var w1 := Moved(w, o);
    ByMove(w0, log + [Env(o)], w1, a);
    more := log + [Env(o)] + [Env(a)];
    assert Moved(w1, a).claims == Waiting(w, x, n, t).claims;
  }

  ghost function Running(w: World, x: Unit, n: PvName, labels: Labels): World {
    w.(pods := w.pods[App(x.replica) := Pod(PodRunning, {Orig(x)}, map[Orig(x) := n], labels, false)])
  }

  ghost function AppWrote(w: World, x: Unit, n: PvName, d: Data): World
    requires n in w.pvs
  {
    w.(pvs := w.pvs[n := w.pvs[n].(data := d)], book := w.book.(latest := w.book.latest[x := d]))
  }

  lemma Mounts(w0: World, log: seq<Action>, w: World, x: Unit, n: PvName, labels: Labels) returns (more: seq<Action>)
    requires Run(w0, log, w) && App(x.replica) in w.pods
    requires w.pods[App(x.replica)] == Pod(PodPending, {Orig(x)}, map[], labels, false)
    requires Orig(x) in w.claims && w.claims[Orig(x)].pv == Some(n) && w.claims[Orig(x)].bound
    requires !w.claims[Orig(x)].terminating
    ensures log <= more && Run(w0, more, Running(w, x, n, labels))
  {
    hide Run;
    ByMove(w0, log, w, PodStart(App(x.replica)));
    var pod := w.pods[App(x.replica)];
    assert (map k | k in pod.claims :: w.claims[k].pv.value) == map[Orig(x) := n];
    more := log + [Env(PodStart(App(x.replica)))];
  }

  lemma Writes(w0: World, log: seq<Action>, w: World, x: Unit, n: PvName, d: Data) returns (more: seq<Action>)
    requires Run(w0, log, w) && n in w.pvs && App(x.replica) in w.pods
    requires w.pods[App(x.replica)].phase == PodRunning
    requires Orig(x) in w.pods[App(x.replica)].mounts && w.pods[App(x.replica)].mounts[Orig(x)] == n
    ensures log <= more && Run(w0, more, AppWrote(w, x, n, d))
  {
    hide Run;
    ByMove(w0, log, w, AppWrite(x, d));
    more := log + [Env(AppWrite(x, d))];
  }

  ghost function Taken(w: World, x: Unit, n: PvName, t: Template, d: Data): World
    requires n in w.pvs && w.sts.Some?
  {
    AppWrote(Running(Waiting(w, x, n, t), x, n, w.sts.value.podLabels), x, n, d)
  }

  // The replica gets its claim and its pod, and the application writes to the volume
  // that was free.
  lemma Takes(w0: World, log: seq<Action>, w: World, x: Unit, n: PvName, t: Template, d: Data)
    returns (more: seq<Action>)
    requires Run(w0, log, w) && Missing(w, x, n, t)
    ensures log <= more && Run(w0, more, Taken(w, x, n, t, d))
  {
    hide Run;
    more := Waits(w0, log, w, x, n, t);
    more := Mounts(w0, more, Waiting(w, x, n, t), x, n, w.sts.value.podLabels);
    more := Writes(w0, more, Running(Waiting(w, x, n, t), x, n, w.sts.value.podLabels), x, n, d);
  }
}
