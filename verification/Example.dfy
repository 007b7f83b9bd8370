/**
  Runs that show what the statements about all runs leave open. On one volume: every
  hypothesis holds, but the process stops after the swap is recorded and before the
  StatefulSet is recreated, and the next pass completes the resource without it; and
  what happens to the data if the replicas were not all rolled out at the start.
 */
module Example {
  import opened Types
  import opened Enumeration
  import opened Rewriting
  import opened Protocol
  import opened History
  import opened Script

  // Wherever the last unit is about to be migrated, the run can end Completed, with
  // the data moved, and without the StatefulSet.
  lemma CanEndBare(
    w0: World, log: seq<Action>, w: World, u: Unit, o: PvName, m: PvName, backup: string, temp: Claim,
    list: seq<VolumeStatus>, claim: Claim) returns (more: seq<Action>, w': World, i: nat)
    requires Run(w0, log, w) && Movable(w, u, o) && Unused(w, m) && Unbegun(w, u) && Blank(w.spec, u, temp)
    requires w.sts.Some? && w.backup == None && |w.spec.volumes| > 0 && !w.vr.value.deleting
    requires Completes(w, u, list) && Anew(w.spec, u, m, claim)
    requires w.past.sts0.Some? && Replicas(w.past.sts0.value) > 0
    requires u == LastUnit(w.spec.volumes, Replicas(w.past.sts0.value))
    ensures log <= more && Run(w0, more, w') && (AllHeld(w.claims, w.pvs) && Sound(w) ==> Sound(w'))
    ensures w'.vr.Some? && w'.vr.value.status.phase == Completed && w'.sts == None
    ensures i < |more| && BeginsBare(w0, more, i, u)
    ensures Orig(u) in w'.claims && w'.claims[Orig(u)] == claim
    ensures w'.book.latest == w.book.latest && m in w'.pvs && u in w.book.latest && w'.pvs[m].data == w.book.latest[u]
  {
    more := Migrates(w0, log, w, u, o, m, backup, temp, list, claim);
    MigratedBare(w, u, o, m, backup, list, claim);
    w' := Migrated(w, u, o, m, backup, list, claim);
    hide Run, Movable, Unused, Unbegun, Blank, Completes, Anew, Bare, LastUnit, AllHeld, Sound, BeginsBare, Migrated;
    i := |more|;
    more, w' := BareEnds(w0, more, w', u);
  }

  lemma MigratedBare(
    w: World, u: Unit, o: PvName, m: PvName, backup: string, list: seq<VolumeStatus>, claim: Claim)
    requires Movable(w, u, o) && Completes(w, u, list)
    ensures var w' := Migrated(w, u, o, m, backup, list, claim);
            && Bare(w', u) && w'.spec == w.spec && w'.past == w.past
            && w'.vr.value.deleting == w.vr.value.deleting
            && (AllHeld(w.claims, w.pvs) && Sound(w) ==> Sound(w'))
            && Orig(u) in w'.claims && w'.claims[Orig(u)] == claim
            && w'.book.latest == w.book.latest
            && m in w'.pvs && u in w.book.latest && w'.pvs[m].data == w.book.latest[u]
  {
    hide SameExceptAt, CompletedAt, AllHeld;
  }

  const SPEC := Spec("vr", "db", [Target("data", 5, None)])
  const U := Unit(0, "data")
  const V := Unit(1, "data")
  const OLD := Claim(10, None, Some("pv0"), true, map[], false)
  const NEW := Claim(5, None, Some("pv1"), false, map[], false)
  const BACKUP := "vr-sts-backup"

  function Templates(size: nat): seq<Template> { [Template("data", size, None, map[])] }

  // A fresh resource; only the first replica has its claim.
  function Start0(replicas: nat): World {
    World(SPEC, map[Orig(U) := OLD], map["pv0" := Pv(Delete, Some(Orig(U)), "x")], map[],
      Some(Sts(Some(replicas), Templates(10), map[], "")), None,
      Some(Vr(true, false, false, None, Status(Pending, [], None, "", ""))),
      Origin(Some(Sts(Some(replicas), Templates(10), map[], "")), map[U := "pv0"], map[U := 10], replicas == 1),
      Book(map[U := "pv0"], map[U := "x"], map[], {"pv0"}, false, true, true, true, true, true, {}))
  }

  function Entry(u: Unit, p: VolumePhase): VolumeStatus { VolumeStatus(u.volume, u.replica, p, "", "", "") }

  // The entries of both units, or of the first one, which has this phase.
  function Entries(replicas: nat, p: VolumePhase): seq<VolumeStatus> {
    if replicas == 1 then [Entry(U, p)] else [Entry(U, p), Entry(V, VPending)]
  }

  function Launched(replicas: nat): World {
    Start0(replicas).(vr := Some(Vr(true, false, false, None,
      Status(Syncing, Entries(replicas, VPending), Some(0), "data", ""))))
  }

  // The first unit is recorded, the StatefulSet not yet back.
  ghost function Moved0(replicas: nat): World {
    Migrated(Launched(replicas), U, "pv0", "pv1", BACKUP, Entries(replicas, VCompleted), NEW)
  }

  function Temp0(): Claim { Claim(5, None, None, false, MigrationLabels(SPEC, U), false) }

  lemma Starts0(replicas: nat)
    requires replicas == 1 || replicas == 2
    ensures Start(Start0(replicas))
  {
  }

  lemma UnitsHere(replicas: nat, p: VolumePhase)
    requires replicas == 1 || replicas == 2
    ensures Keys(Entries(replicas, p)) == Units(SPEC.volumes, replicas)
  {
    assert Units(SPEC.volumes, 1) == Units(SPEC.volumes, 0) + Row(SPEC.volumes, 0);
    assert Units(SPEC.volumes, 2) == Units(SPEC.volumes, 1) + Row(SPEC.volumes, 1);
  }

  lemma MayLaunch0(replicas: nat)
    requires replicas == 1 || replicas == 2
    ensures Launch(Start0(replicas), Launched(replicas).vr.value.status)
  {
    UnitsHere(replicas, VPending);
    var w := Start0(replicas);
    assert Templates(10)[0] in w.past.sts0.value.templates && Templates(10)[0].name == "data";
    hide Units;
  }

  lemma Launches0(replicas: nat) returns (log: seq<Action>)
    requires replicas == 1 || replicas == 2
    ensures Run(Start0(replicas), log, Launched(replicas))
  {
    Starts0(replicas);
    MayLaunch0(replicas);
    var w := Start0(replicas);
    assert Run(w, [], w) by { hide Start; }
    hide Run, Start, Launch, Entries;
    log := Launches(w, [], w, Launched(replicas).vr.value.status);
  }

  lemma Recordable0(replicas: nat)
    requires replicas == 1 || replicas == 2
    ensures Completes(Launched(replicas), U, Entries(replicas, VCompleted))
    ensures !CompletedAt(Entries(replicas, VPending), U)
  {
    assert Key(Entries(replicas, VCompleted)[0]) == U;
  }

  lemma Movable0(replicas: nat)
    requires replicas == 1 || replicas == 2
    ensures Movable(Launched(replicas), U, "pv0")
  {
    Recordable0(replicas);
    hide CompletedAt, Entries;
  }

  lemma Ready0(replicas: nat)
    requires replicas == 1 || replicas == 2
    ensures var w := Launched(replicas);
            && Movable(w, U, "pv0") && Unused(w, "pv1") && Unbegun(w, U) && Blank(SPEC, U, Temp0())
            && Completes(w, U, Entries(replicas, VCompleted)) && Anew(SPEC, U, "pv1", NEW)
            && AllHeld(w.claims, w.pvs)
  {
    Movable0(replicas);
    Recordable0(replicas);
    hide Completes, Entries, Movable;
  }

  // Every hypothesis holds, the data is behind the original name, phase is
  // Completed, and there is no StatefulSet.
  lemma CompletedWithoutStatefulSet() returns (log: seq<Action>, w: World, i: nat)
    ensures Run(Start0(1), log, w) && Sound(w)
    ensures w.vr.Some? && w.vr.value.status.phase == Completed && w.sts == None
    ensures Orig(U) in w.claims && w.claims[Orig(U)] == NEW
    ensures i < |log| && BeginsBare(Start0(1), log, i, U)
    ensures "pv1" in w.pvs && w.pvs["pv1"].data == Start0(1).book.latest[U]
  {
    log := Launches0(1);
    Ready0(1);
    var v := Launched(1);
    assert Sound(v) && !v.vr.value.deleting && U == LastUnit(SPEC.volumes, 1);
    hide Run, Movable, Unused, Unbegun, Blank, Completes, Anew, AllHeld, Sound, LastUnit, BeginsBare;
    log, w, i := CanEndBare(Start0(1), log, v, U, "pv0", "pv1", BACKUP, Temp0(), Entries(1, VCompleted), NEW);
  }

  // The second replica is not rolled out. The StatefulSet is back, and its controller
  // creates the claim and the pod of that replica.
  function Back0(): World {
    World(SPEC, map[Orig(U) := NEW],
      map["pv0" := Pv(Retain, Some(Orig(U)), "x"), "pv1" := Pv(Retain, None, "x")], map[],
      Some(Sts(Some(2), Templates(5), map[], "")), Some(Sts(Some(2), Templates(10), map[], "")),
      Some(Vr(true, false, true, Some(BACKUP), Status(Syncing, Entries(2, VCompleted), Some(0), "data", BACKUP))),
      Origin(Some(Sts(Some(2), Templates(10), map[], "")), map[U := "pv0"], map[U := 10], false),
      Book(map[U := "pv1"], map[U := "x"], map[U := "pv1"], {"pv0", "pv1"}, false, true, true, true, true, true, {}))
  }

  lemma Rewritten0()
    ensures Rewrite(Back0().backup.value, SPEC.volumes) == Back0().sts.value
  {
    var r := Rewrite(Back0().backup.value, SPEC.volumes);
    assert |r.templates| == 1 && r.templates[0] == Templates(5)[0];
    assert r.templates == Templates(5);
  }

  lemma MayReturn0()
    ensures Guard(Moved0(2), CreateSts(Back0().sts.value))
    ensures Called(Moved0(2), CreateSts(Back0().sts.value)) == Back0()
  {
    MovedIs0();
    Rewritten0();
    hide CompletedAt, Entries, Rewrite, Moved0;
  }

  // The world when the first unit is recorded.
  lemma MovedIs0()
    ensures Moved0(2) == Back0().(sts := None)
    ensures CompletedAt(Entries(2, VCompleted), U)
  {
    Ready0(2);
    Recordable0(2);
    hide CompletedAt, Entries;
  }

  // Every hypothesis but the complete roll-out holds, and the data of a unit that had
  // its claim at the start is overwritten.
  lemma LatestDataUnrolled() returns (log: seq<Action>, w: World)
    ensures Run(Start0(2), log, w) && !w.past.rolledOut
    ensures w.book.h1 && w.book.h2 && w.book.h3 && w.book.h4 && w.book.h6
    ensures U in w.past.first && Orig(U) in w.claims && w.claims[Orig(U)].pv == Some("pv1") && "pv1" in w.pvs
    ensures U in w.book.latest && w.pvs["pv1"].data != w.book.latest[U]
  {
    log := Launches0(2);
    log := Migrates0(log);
    MayReturn0();
    ByCall(Start0(2), log, Moved0(2), CreateSts(Back0().sts.value)) by { hide Run, Moved0, Guard, Called; }
    log := log + [Op(CreateSts(Back0().sts.value))];
    hide *;
    Overwritten0();
    log := Takes(Start0(2), log, Back0(), V, "pv1", Templates(5)[0], "z");
    w := Taken(Back0(), V, "pv1", Templates(5)[0], "z");
  }

  lemma Overwritten0()
    ensures Missing(Back0(), V, "pv1", Templates(5)[0])
    ensures "pv1" in Back0().pvs && Back0().sts.Some?
    ensures var w := Taken(Back0(), V, "pv1", Templates(5)[0], "z");
            && !w.past.rolledOut && w.book.h1 && w.book.h2 && w.book.h3 && w.book.h4 && w.book.h6
            && U in w.past.first && Orig(U) in w.claims && w.claims[Orig(U)].pv == Some("pv1") && "pv1" in w.pvs
            && U in w.book.latest && w.pvs["pv1"].data != w.book.latest[U]
  {
    hide Entries;
  }

  lemma Migrates0(before: seq<Action>) returns (log: seq<Action>)
    requires Run(Start0(2), before, Launched(2))
    ensures Run(Start0(2), log, Moved0(2))
  {
    Ready0(2);
    var v := Launched(2);
    assert v.past.sts0.Some?;
    hide Run, Movable, Unused, Unbegun, Blank, Completes, Anew, AllHeld, Migrated, Entries;
    log := Migrates(Start0(2), before, v, U, "pv0", "pv1", BACKUP, Temp0(), Entries(2, VCompleted), NEW);
  }
}
