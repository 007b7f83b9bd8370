/**
  What h6 excludes. The operator does not wait for the recreated claim to be bound, so
  the volume it names, free until then, can be handed to the temporary claim of the
  next unit, whose migrator then writes to it. All other hypotheses hold.
 */
module Overwrite {
  import opened Types
  import opened Enumeration
  import opened Protocol
  import opened Safety
  import opened Placement
  import opened Custody
  import opened Rely
  import opened Theorems
  import opened Script

  // The volume n of another unit's claim holds whatever the migrator of u wrote.
  ghost predicate Lost(w: World, w': World, x: Unit, n: PvName, d: Data) {
    && Orig(x) in w.claims && w.claims[Orig(x)].pv == Some(n)
    && Orig(x) in w'.claims && w'.claims[Orig(x)] == w.claims[Orig(x)] && n in w'.pvs && w'.pvs[n].data == d
    && w'.past == w.past && x in w.past.first && x in w.book.latest && w'.book.latest == w.book.latest
  }

  // The hypotheses but h6.
  ghost predicate Otherwise(w: World) {
    w.past.rolledOut && w.book.h1 && w.book.h2 && w.book.h3 && w.book.h4
  }

  // Where some original claim does not hold its volume when the temporary claim of u
  // is created, and u has its own, the run can go on so that any data replaces that
  // of another unit, behind its original name.
  lemma Overwrites(w0: World, log: seq<Action>, w: World, u: Unit, claim: Claim, d: Data)
    returns (more: seq<Action>, w': World, x: Unit, n: PvName)
    requires Run(w0, log, w) && Sound(w) && Guard(w, CreateClaim(Temp(u), claim)) && !AllHeld(w.claims, w.pvs)
    requires Orig(u) in w.claims && w.claims[Orig(u)].bound && !w.claims[Orig(u)].terminating
    ensures log <= more && Run(w0, more, w') && Otherwise(w') && x != u && Lost(w, w', x, n, d)
  {
    hide *;
    InvRun(w0, log, w);
    var k, o;
    k, n := FreeVolumeNamed(w);
    x := k.unit;
    o := FreeIsOther(w, u, x, n, claim);
    more := Hands(w0, log, w, u, claim, n);
    var v := Handed(w, u, claim, n);
    HandedActive(w, u, claim, n);
    more := TakesDown(w0, more, v, u);
    Facing(w, u, claim, o, n);
    var p := TakenDown(v, u.replica);
    more := Starts(w0, more, p, u, o, n);
    LostMeans(w, u, claim, o, x, n, d);
    ByMove(w0, more, Writing(w, u, claim, o, n), MigWrite(u, d));
    more := more + [Env(MigWrite(u, d))];
    w' := Moved(Writing(w, u, claim, o, n), MigWrite(u, d));
  }

  // The temporary claim takes the volume.
  ghost function Handed(w: World, u: Unit, claim: Claim, n: PvName): World
    requires n in w.pvs
  {
    w.(claims := w.claims[Temp(u) := claim.(pv := Some(n), bound := true)],
       pvs := w.pvs[n := w.pvs[n].(claimRef := Some(Temp(u)))], pods := w.pods - {Mig(u)},
       book := w.book.(names := w.book.names + {n}, h6 := false))
  }

  lemma Hands(w0: World, log: seq<Action>, w: World, u: Unit, claim: Claim, n: PvName) returns (more: seq<Action>)
    requires Run(w0, log, w) && Guard(w, CreateClaim(Temp(u), claim)) && !AllHeld(w.claims, w.pvs)
    requires n in w.pvs && w.pvs[n].claimRef == None && w.book.h3
    ensures log <= more && Run(w0, more, Handed(w, u, claim, n))
  {
    hide Run, Guard, AllHeld;
    var w1 := w.(pods := w.pods - {Mig(u)});
    more := log;
    if Mig(u) in w.pods {
      ByMove(w0, log, w, PodGone(Mig(u)));
      more := log + [Env(PodGone(Mig(u)))];
    } else {
      assert w.pods - {Mig(u)} == w.pods;
    }
    HandsNow(w, w1, u, claim, n);
    var c := CreateClaim(Temp(u), claim);
    ByCall(w0, more, w1, c);
    ByMove(w0, more + [Op(c)], Called(w1, c), Bind(Temp(u), n, Retain));
    more := more + [Op(c)] + [Env(Bind(Temp(u), n, Retain))];
  }

  lemma HandsNow(w: World, w': World, u: Unit, claim: Claim, n: PvName)
    requires Guard(w, CreateClaim(Temp(u), claim)) && !AllHeld(w.claims, w.pvs)
    requires n in w.pvs && w.pvs[n].claimRef == None && w.book.h3
    requires w' == w.(pods := w.pods - {Mig(u)})
    ensures Guard(w', CreateClaim(Temp(u), claim))
    ensures var c := Called(w', CreateClaim(Temp(u), claim));
            CanMove(c, Bind(Temp(u), n, Retain)) && Moved(c, Bind(Temp(u), n, Retain)) == Handed(w, u, claim, n)
  {
    SameActive(w, w', u);
    hide AllHeld, Active, Owned, Sound, TargetOf, IsTarget;
    var c := Called(w', CreateClaim(Temp(u), claim));
    assert Moved(c, Bind(Temp(u), n, Retain)).claims == Handed(w, u, claim, n).claims;
  }

  lemma SameActive(w: World, w': World, u: Unit)
    requires Active(w, u) && w'.vr == w.vr && w'.book.swept == w.book.swept
    ensures Active(w', u)
  {
    hide CompletedAt;
  }

  // A free volume is named by another unit's claim; a bound claim has its own.
  lemma FreeIsOther(w: World, u: Unit, x: Unit, n: PvName, claim: Claim) returns (o: PvName)
    requires Inv(w) && Sound(w) && Guard(w, CreateClaim(Temp(u), claim))
    requires Orig(u) in w.claims && w.claims[Orig(u)].bound && !w.claims[Orig(u)].terminating
    requires Orig(x) in w.claims && w.claims[Orig(x)].pv == Some(n) && n in w.pvs && w.pvs[n].claimRef == None
    ensures x != u && x in w.past.first && x in w.book.latest && w.claims[Orig(u)].pv == Some(o) && Active(w, u)
    ensures w.book.h3 && !claim.terminating
  {
    assert Active(w, u) by { hide Inv, Sound; }
    assert !claim.terminating by { hide Inv, Sound; }
    assert Known(w.past, w.claims);
    hide Safe, SoleTemp, Excluded, Crewed, MigAt, GapQuiet, GapAtCursor, Backed, Sized, Full, HomeRetained;
    hide HomeInjective, TempRef, HeldForTemps, Active, Guard;
    o := w.book.home[u];
  }

  lemma HandedActive(w: World, u: Unit, claim: Claim, n: PvName)
    requires Active(w, u) && n in w.pvs
    ensures Active(Handed(w, u, claim, n), u)
  {
    SameActive(w, Handed(w, u, claim, n), u);
  }

  // The migrator may start, on the unit's own claim and the handed volume.
  lemma Facing(w: World, u: Unit, claim: Claim, o: PvName, n: PvName)
    requires Active(w, u) && n in w.pvs && !claim.terminating
    requires Orig(u) in w.claims && w.claims[Orig(u)].bound && !w.claims[Orig(u)].terminating
    requires w.claims[Orig(u)].pv == Some(o)
    ensures var p := TakenDown(Handed(w, u, claim, n), u.replica);
            Active(p, u) && Paired(p, u, o, n) && Quiet(p, u.replica) && Mig(u) !in p.pods
  {
    SameActive(w, TakenDown(Handed(w, u, claim, n), u.replica), u);
    hide Active;
  }

  // It runs, and writes.
  ghost function Writing(w: World, u: Unit, claim: Claim, o: PvName, n: PvName): World
    requires n in w.pvs
  {
    var p := TakenDown(Handed(w, u, claim, n), u.replica);
    p.(pods := p.pods[Mig(u) := Started(p, u, o, n)])
  }

  lemma LostMeans(w: World, u: Unit, claim: Claim, o: PvName, x: Unit, n: PvName, d: Data)
    requires Sound(w) && x != u && x in w.past.first && x in w.book.latest && n in w.pvs
    requires Orig(x) in w.claims && w.claims[Orig(x)].pv == Some(n)
    ensures var r := Writing(w, u, claim, o, n);
            && (var p := TakenDown(Handed(w, u, claim, n), u.replica);
                r == p.(pods := p.pods[Mig(u) := Started(p, u, o, n)]))
            && CanMove(r, MigWrite(u, d)) && Otherwise(Moved(r, MigWrite(u, d)))
            && Lost(w, Moved(r, MigWrite(u, d)), x, n, d)
  {
  }

  /** Such a run */

  const SPEC := Spec("vr", "db", [Target("a", 5, None), Target("b", 5, None)])
  const U := Unit(0, "a")
  const V := Unit(0, "b")
  const A := Claim(10, None, Some("pa"), true, map[], false)
  const B := Claim(10, None, Some("pb"), true, map[], false)
  const NEW := Claim(5, None, Some("pn"), false, map[], false)
  const STS := Sts(Some(1), [Template("a", 10, None, map[]), Template("b", 10, None, map[])], map[], "")
  const BACKUP := "vr-sts-backup"

  // A fresh resource for both volumes of one replica.
  function Start0(): World {
    World(SPEC, map[Orig(U) := A, Orig(V) := B],
      map["pa" := Pv(Delete, Some(Orig(U)), "x"), "pb" := Pv(Delete, Some(Orig(V)), "y")], map[], Some(STS), None,
      Some(Vr(true, false, false, None, Status(Pending, [], None, "", ""))),
      Origin(Some(STS), map[U := "pa", V := "pb"], map[U := 10, V := 10], true),
      Book(map[U := "pa", V := "pb"], map[U := "x", V := "y"], map[], {"pa", "pb"}, false,
        true, true, true, true, true, {}))
  }

  function Entries(p: VolumePhase): seq<VolumeStatus> {
    [VolumeStatus("a", 0, p, "", "", ""), VolumeStatus("b", 0, VPending, "", "", "")]
  }

  function Launched(): World {
    Start0().(vr := Some(Vr(true, false, false, None, Status(Syncing, Entries(VPending), Some(0), "a", ""))))
  }

  function TempOf(u: Unit): Claim { Claim(5, None, None, false, MigrationLabels(SPEC, u), false) }

  // a is migrated, and the process stops.
  ghost function Halfway(): World {
    Migrated(Launched(), U, "pa", "pn", BACKUP, Entries(VCompleted), NEW)
  }

  // The next pass passes a over and goes on to b.
  ghost function Further(): World { PassedOver(Halfway(), U, V) }

  lemma Starts0()
    ensures Start(Start0())
  {
    StartsClaims0();
    StartsBook0();
    StartsSts0();
    hide FreshClaims, FreshBook, FreshSts, RolledOut;
  }

  lemma StartsClaims0()
    ensures FreshClaims(Start0())
  {
    hide Owned;
    assert !Owned(SPEC, map[]) by { LabelsEmpty(SPEC); }
  }

  lemma LabelsEmpty(spec: Spec)
    ensures !Owned(spec, map[])
  {
  }

  lemma StartsBook0()
    ensures FreshBook(Start0())
  {
  }

  lemma StartsSts0()
    ensures FreshSts(Start0()) && RolledOut(Start0())
  {
  }

  lemma Recorded0()
    ensures AtCompleted(Halfway()) && Cursor(Halfway().vr.value.status) == Some(U)
    ensures Next(SPEC.volumes, 0, U) == Some(V)
  {
    Recordable0();
    hide CompletedAt, Entries;
  }

  lemma MayLaunch0()
    ensures Launch(Start0(), Launched().vr.value.status)
  {
    assert Units(SPEC.volumes, 1) == Units(SPEC.volumes, 0) + Row(SPEC.volumes, 0);
    assert Keys(Entries(VPending)) == Units(SPEC.volumes, 1);
    assert STS.templates[0].name == "a" && STS.templates[1].name == "b";
    assert forall t :: t in STS.templates ==> t == STS.templates[0] || t == STS.templates[1];
    hide Units;
  }

  lemma Recordable0()
    ensures Completes(Launched(), U, Entries(VCompleted)) && !CompletedAt(Entries(VPending), U)
    ensures CompletedAt(Entries(VCompleted), U) && !CompletedAt(Entries(VCompleted), V)
  {
    assert Key(Entries(VCompleted)[0]) == U;
  }

  lemma Movable0()
    ensures Movable(Launched(), U, "pa")
  {
    Recordable0();
    hide CompletedAt, Entries;
  }

  lemma Ready0()
    ensures var w := Launched();
            && Movable(w, U, "pa") && Unused(w, "pn") && Unbegun(w, U) && Blank(SPEC, U, TempOf(U))
            && Completes(w, U, Entries(VCompleted)) && Anew(SPEC, U, "pn", NEW) && AllHeld(w.claims, w.pvs)
  {
    Movable0();
    Recordable0();
    hide Completes, Entries, Movable;
  }

  // Where the run stands: a's claim does not hold its volume, b's is about to be copied.
  lemma Exposed0()
    ensures Sound(Further()) && Guard(Further(), CreateClaim(Temp(V), TempOf(V)))
    ensures !AllHeld(Further().claims, Further().pvs)
    ensures Orig(V) in Further().claims && Further().claims[Orig(V)] == B
  {
    SoundStill0();
    NotHeld0();
    Recordable0();
    hide CompletedAt, Entries, Sound, AllHeld;
  }

  lemma NotHeld0()
    ensures !AllHeld(Further().claims, Further().pvs)
  {
    hide Entries;
    assert Further().claims[Orig(U)].pv == Some("pn") && Further().pvs["pn"].claimRef == None;
  }

  lemma SoundStill0()
    ensures Sound(Further())
  {
    Ready0();
    hide AllHeld, Entries, Completes;
  }

  lemma UpToA0() returns (log: seq<Action>)
    ensures Run(Start0(), log, Launched())
  {
    Starts0();
    MayLaunch0();
    var w := Start0();
    assert Run(w, [], w) by { hide Start; }
    hide Run, Start, Launch, Entries;
    log := Launches(w, [], w, Launched().vr.value.status);
  }

  lemma UpToB0() returns (log: seq<Action>)
    ensures Run(Start0(), log, Further())
  {
    log := UpToA0();
    Ready0();
    Recorded0();
    var w, v := Start0(), Launched();
    assert v.past.sts0.Some?;
    hide Run, Entries, Movable, Unused, Unbegun, Blank, Completes, Anew, AllHeld, AtCompleted, Next, Owned;
    log := Migrates(w, log, v, U, "pa", "pn", BACKUP, TempOf(U), Entries(VCompleted), NEW);
    log := PassesOver(w, log, Halfway(), U, V);
  }

  // Every hypothesis but h6 holds, and a's name leads to b's data.
  lemma LatestDataOverwritten() returns (log: seq<Action>, w: World)
    ensures Run(Start0(), log, w) && w.past.rolledOut && w.book.h1 && w.book.h2 && w.book.h3 && w.book.h4
    ensures Orig(U) in w.claims && w.claims[Orig(U)].pv == Some("pn") && "pn" in w.pvs && U in w.book.latest
    ensures w.pvs["pn"].data != w.book.latest[U] && V in w.book.latest && w.pvs["pn"].data == w.book.latest[V]
  {
    var x, n;
    log := UpToB0();
    Exposed0();
    hide Run, Sound, Guard, AllHeld;
    log, w, x, n := Overwrites(Start0(), log, Further(), V, TempOf(V), "y");
    hide Entries;
    assert x == U;
  }
}
