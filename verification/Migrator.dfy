/**
  The migrator pod: it mounts the original and the temporary claim of one unit
  and copies one to the other (migrator.go).
 */
module Migrator {
  import opened Types
  import opened Protocol
  import opened Safety
  import opened Placement
  import opened Custody
  import opened Rely
  import opened Api
  import opened Work

  function BuildMigratorPod(spec: Spec, u: Unit): Pod {
    Pod(PodPending, {Orig(u), Temp(u)}, map[], MigrationLabels(spec, u), false)
  }

  // A migrator that is not there is created.
  ghost function Creation(w: World, spec: Spec, u: Unit): seq<Call> {
    if Mig(u) in w.pods then [] else [CreatePod(u, BuildMigratorPod(spec, u))]
  }

  // The migrator of u, found or created.
  method CreateMigratorPod(c: Cluster, spec: Spec, u: Unit) returns (e: Reply)
    requires c.Valid() && spec == c.w.spec && Active(c.w, u) && (c.w.book.h4 ==> Quiet(c.w, u.replica))
    modifies c
    ensures c.Valid() && Frame(old(c.w), c.w, {}) && SameHomes(old(c.w), c.w)
    ensures SameFlags(old(c.w), c.w)
    ensures c.w.sts == old(c.w).sts && (c.w.book.h4 ==> Quiet(c.w, u.replica))
    ensures e == Ok ==> u in c.had
    ensures c.smooth ==> old(c.smooth) && e == Ok
    ensures c.smooth ==> c.asks == old(c.asks) + Creation(old(c.w), spec, u)
  {
    hide Run, Relied, Frame, SameHomes, Called, CanCall, Effect, Active, Quiet;
    ghost var w0 := c.w;
    var existing;
    e, existing := c.GetPod(Mig(u));
    ghost var w1 := c.w;
    FrameRelied(w0, w1);
    FrameMeans(w0, w1, {});
    QuietRelied(w0, w1, u);
    if e == Ok || e != NotFound {
      return;
    }
    FrameActive(w0, w1, {}, u);
    MayCreatePod(w1, u);
    e := c.Issue(CreatePod(u, BuildMigratorPod(spec, u)));
    PodCreated(w1, u, BuildMigratorPod(spec, u), e, c.w);
    FrameTransitive(w0, w1, c.w, {}, {}, {});
    SameHomesTransitive(w0, w1, c.w);
  }

  lemma QuietRelied(w: World, w': World, u: Unit)
    requires Relied(w, w')
    ensures Quiet(w, u.replica) ==> Quiet(w', u.replica)
    ensures Done(w, u) ==> Done(w', u)
    ensures NoMig(w, u) ==> NoMig(w', u)
    ensures w'.sts == w.sts
  {
    hide KeepsClaims, KeepsCopies, Quiet, Done, NoMig, MigGoing, AppGoing, MigLost;
  }

  lemma MayCreatePod(w: World, u: Unit)
    requires Active(w, u) && (w.book.h4 ==> Quiet(w, u.replica))
    ensures CanCall(w, CreatePod(u, BuildMigratorPod(w.spec, u))) ==> Guard(w, CreatePod(u, BuildMigratorPod(w.spec, u)))
  {
  }

  lemma PodCreated(w: World, u: Unit, pod: Pod, e: Reply, w': World)
    requires NoMig(w, u) && Effect(w, CreatePod(u, pod), e, w')
    ensures Frame(w, w', {}) && SameHomes(w, w') && SameFlags(w, w') && w'.sts == w.sts
    ensures Quiet(w, u.replica) ==> Quiet(w', u.replica)
    ensures w'.book.h4 ==> w.book.h4
    ensures e != AlreadyExists && e != NotFound
  {
    FrameEffect(w, CreatePod(u, pod), e, w');
    FrameMeans(w, w', {});
    hide Relied, Frame;
    var w1 := Called(w, CreatePod(u, pod));
    assert Quiet(w, u.replica) ==> Quiet(w1, u.replica);
    if Relied(w, w') {
      QuietRelied(w, w', u);
    } else {
      QuietRelied(w1, w', u);
    }
  }

  // Waits until the migrator is seen to succeed; copy is the volume that then
  // holds the copy, if the temporary claim is still there.
  method WaitForMigrationComplete(c: Cluster, u: Unit) returns (e: Reply, ghost copy: Option<PvName>)
    requires c.Valid() && Active(c.w, u) && u in c.had
    modifies c
    ensures c.Valid() && Relied(old(c.w), c.w)
    ensures e == Ok ==> Done(c.w, u) && ReadyIf(c.w, u, copy)
    ensures c.smooth ==> old(c.smooth) && e == Ok
    ensures c.asks == old(c.asks)
    ensures Done(old(c.w), u) ==> |old(c.script)| <= |c.script| + 2
    ensures old(c.Expires()) ==> e != Ok && c.w == old(c.w)
    ensures c.crashed ==> e != Ok
  {
    hide Run, Relied, Active, Done, ReadyIf, Inv;
    copy := None;
    RelyReflexive(c.w);
    while true
      invariant c.Valid() && Relied(old(c.w), c.w) && u in c.had && c.asks == old(c.asks)
      invariant c.smooth ==> old(c.smooth)
      invariant Done(old(c.w), u) ==> Done(c.w, u) && |c.script| == |old(c.script)|
      invariant old(c.Expires()) ==> c.Expires() && c.w == old(c.w)
      decreases |c.script|
    {
      var over := c.Deadline();
      if over {
        return OtherError, copy;
      }
      ghost var w1 := c.w;
      InvRun(c.start, c.log, w1);
      var pod;
      e, pod := c.GetPod(Mig(u));
      RelyTransitive(old(c.w), w1, c.w);
      assert Done(w1, u) && e == Ok ==> Finished(pod.value) by { FinishedRead(w1, u); }
      if e != Ok {
        if e == NotFound {
          LostStays(w1, c.w, u);
          c.LoseMigrator(u);
        }
        return;
      }
      match pod.value.phase {
        case PodSucceeded =>
          copy := CopyOf(w1, u);
          SucceededStays(old(c.w), w1, c.w, u, copy);
          return;
        case PodFailed =>
          LostStays(w1, c.w, u);
          c.LoseMigrator(u);
          return OtherError, copy;
        case PodPending =>
        case PodRunning =>
        case PodUnknown =>
      }
    }
  }

  lemma FinishedRead(w: World, u: Unit)
    ensures Done(w, u) && Mig(u) in w.pods ==> Finished(w.pods[Mig(u)])
  {
  }

  lemma LostStays(w: World, w': World, u: Unit)
    requires Relied(w, w') && MigLost(w, u)
    ensures MigLost(w', u)
  {
    hide KeepsClaims, KeepsCopies, MigLost, Quiet, Done, NoMig, MigGoing, AppGoing;
  }

  ghost function CopyOf(w: World, u: Unit): Option<PvName> {
    if Temp(u) in w.claims then w.claims[Temp(u)].pv else None
  }

  // A migrator seen to succeed leaves a ready copy, unless its temporary claim is gone.
  lemma SucceededReady(w: World, u: Unit)
    requires Inv(w) && Active(w, u) && Mig(u) in w.pods && w.pods[Mig(u)].phase == PodSucceeded
    ensures Done(w, u) && ReadyIf(w, u, CopyOf(w, u))
  {
    hide Inv, Sound, Active, Quiet, Ready, MigKept, TempRef;
    if Sound(w) && Temp(u) in w.claims {
      SucceededKept(w, u);
      SucceededMeans(w, u);
    }
  }

  lemma SucceededMeans(w: World, u: Unit)
    requires Safe(w) && Sound(w) && Active(w, u) && Quiet(w, u.replica) && Temp(u) in w.claims
    requires Mig(u) in w.pods && w.pods[Mig(u)].phase == PodSucceeded
    requires MigKept(w.book.home, w.book.latest, w.claims, w.pvs, w.book.swept, u, w.pods[Mig(u)])
    requires TempRef(w.book.home, w.claims, w.pvs)
    ensures CopyOf(w, u).Some? && Ready(w, u, CopyOf(w, u).value)
  {
    NamesUsed(w, w.pods[Mig(u)].mounts[Temp(u)]) by { hide TempRef, Safe; }
    hide Safe, AtCursorIn;
  }

  lemma SucceededKept(w: World, u: Unit)
    requires Inv(w) && Sound(w) && Active(w, u) && Temp(u) in w.claims
    requires Mig(u) in w.pods && w.pods[Mig(u)].phase == PodSucceeded
    ensures Safe(w) && Quiet(w, u.replica)
    ensures MigKept(w.book.home, w.book.latest, w.claims, w.pvs, w.book.swept, u, w.pods[Mig(u)])
    ensures TempRef(w.book.home, w.claims, w.pvs)
  {
    assert InPlay(w.claims, w.pods[Mig(u)], u);
    hide Safe, Placed, SoleTemp, Excluded, MigAt, AtCursorIn, TempRef, MigKept, Sound;
  }

  lemma SucceededStays(w0: World, w: World, w': World, u: Unit, copy: Option<PvName>)
    requires Active(w0, u) && Relied(w0, w) && Relied(w, w') && Inv(w)
    requires Mig(u) in w.pods && w.pods[Mig(u)].phase == PodSucceeded && copy == CopyOf(w, u)
    ensures Done(w', u) && ReadyIf(w', u, copy)
  {
    FrameRelied(w0, w);
    FrameActive(w0, w, {}, u);
    SucceededReady(w, u);
    QuietRelied(w, w', u);
    ReadyRelied(w, w', u, copy);
    hide Relied, Active, ReadyIf, Frame, SameHomes;
  }

  method CleanupMigratorPod(c: Cluster, u: Unit, ghost copy: Option<PvName>) returns (e: Reply)
    requires c.Valid()
    modifies c
    ensures c.Valid() && Storage(old(c.w), c.w, {}) && SameHomes(old(c.w), c.w)
    ensures SameFlags(old(c.w), c.w)
    ensures ReadyIf(old(c.w), u, copy) ==> ReadyIf(c.w, u, copy)
    ensures e == Ok ==> MigGoing(c.w, u)
    ensures c.smooth ==> old(c.smooth) && e == Ok
    ensures c.asks == if c.crashed then old(c.asks) else old(c.asks) + [DeletePod(Mig(u))]
  {
    hide Run, Relied, Storage, Called, CanCall, Effect, ReadyIf, SameHomes, MigGoing;
    ghost var w0 := c.w;
    MayCleanUp(w0, u);
    e := c.Issue(DeletePod(Mig(u)));
    StorageEffect(w0, DeletePod(Mig(u)), e, c.w);
    CleanedUp(w0, u, copy, e, c.w);
    if e == Ok || e == NotFound {
      MigratorEnding(w0, u, e, c.w);
    }
    if e == NotFound {
      e := Ok;
    }
  }

  lemma MigratorEnding(w: World, u: Unit, e: Reply, w': World)
    requires Effect(w, DeletePod(Mig(u)), e, w') && (e == Ok || e == NotFound)
    ensures MigGoing(w', u)
  {
    hide KeepsClaims, KeepsCopies, Quiet, Done, NoMig, AppGoing, MigLost;
    assert Mig(u) !in w.pods ==> MigGoing(w, u);
    assert e == Ok ==> MigGoing(Called(w, DeletePod(Mig(u))), u);
  }

  lemma MayCleanUp(w: World, u: Unit)
    ensures CanCall(w, DeletePod(Mig(u))) ==> Guard(w, DeletePod(Mig(u)))
  {
  }

  lemma CleanedReady(w: World, u: Unit, copy: Option<PvName>, w': World)
    requires Mig(u) in w.pods && Relied(Called(w, DeletePod(Mig(u))), w')
    ensures ReadyIf(w, u, copy) ==> ReadyIf(w', u, copy)
  {
    hide Relied, ReadyIf, Called;
    if ReadyIf(w, u, copy) {
      CleanupKeepsReady(w, u, copy);
      ReadyRelied(Called(w, DeletePod(Mig(u))), w', u, copy);
    }
  }

  lemma CleanedUp(w: World, u: Unit, copy: Option<PvName>, e: Reply, w': World)
    requires Effect(w, DeletePod(Mig(u)), e, w')
    ensures SameHomes(w, w') && (ReadyIf(w, u, copy) ==> ReadyIf(w', u, copy))
  {
    StorageEffect(w, DeletePod(Mig(u)), e, w') by { hide Relied, Storage, ReadyIf, Called; }
    hide Relied, ReadyIf, Called, Storage, SameFlags;
    if Relied(w, w') {
      ReadyRelied(w, w', u, copy);
    } else {
      hide SameHomes;
      CleanedReady(w, u, copy, w');
    }
  }
}
