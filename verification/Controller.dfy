/**
  The reconcile loop (volumeresize_controller.go:56-101), and the operator as a
  series of passes between which the cluster goes on.
 */
module Controller {
  import opened Types
  import opened Protocol
  import opened Safety
  import opened Stages
  import opened Marks
  import opened Rely
  import opened Api
  import opened Work
  import opened Resource
  import opened Updates
  import opened Syncing
  import opened Handlers
  import opened Progress

  // The pass was fault-free, and the resource is not deleted.
  ghost predicate Clean(smooth: bool, w: World) {
    smooth && Undeleted(w)
  }

  // The original claim of the unit at the cursor is gone for good.
  ghost predicate Stuck(w: World) {
    && InPhase(w, Syncing) && Cursor(w.vr.value.status).Some?
    && var u := Cursor(w.vr.value.status).value;
       !CompletedAt(w.vr.value.status.volumeStatuses, u) && NameFree(w, u)
  }

  // The original claim of the unit at the cursor is missing: gone, or on its way out.
  ghost predicate Lacking(w: World, u: Unit) {
    && InPhase(w, Syncing) && Cursor(w.vr.value.status) == Some(u)
    && !CompletedAt(w.vr.value.status.volumeStatuses, u) && MissingIf(w, u)
  }

  lemma LackingRelied(w: World, w': World)
    requires Relied(w, w')
    ensures forall u :: Lacking(w, u) ==> Lacking(w', u)
    ensures Consistent(w) ==> Consistent(w')
    ensures Began(w) ==> Began(w')
    ensures InPhase(w, Failed) ==> InPhase(w', Failed)
  {
    hide KeepsPods, KeepsClaims, ReadyIf, StagedIf, LooseIf, MissingIf, Held, CompletedAt;
  }

  // The stored resource is the one that was read.
  lemma ReadHolds(w: World, w': World, v: Vr)
    requires Staging(w) && Relied(w, w') && w.vr == Some(v) && !v.deleting && v.finalizer
    ensures Holds(w', v)
  {
    hide KeepsPods, KeepsClaims, KeepsCopies, Pristine, Doubled;
  }

  lemma ReadEnding(w: World, w': World, v: Vr)
    requires Relied(w, w') && w.vr == Some(v) && v.deleting
    ensures Ending(w')
  {
    hide KeepsPods, KeepsClaims, KeepsCopies;
  }

  lemma StuckRelied(w: World, w': World)
    requires Relied(w, w') && Stuck(w)
    ensures Stuck(w')
  {
    hide KeepsPods, KeepsCopies, NameFree, CompletedAt, NoTemp, TempGoing, Retained;
  }

  // A pass that finds its unit recorded only moves the cursor.
  ghost predicate OnlyAdvanced(w: World, w': World) {
    AtCompleted(w) ==> Advanced(w', Cursor(w.vr.value.status).value) && w'.sts == w.sts
  }

  lemma AdvancedRelied(w: World, w': World, w'': World)
    requires Relied(w, w') && OnlyAdvanced(w', w'')
    ensures OnlyAdvanced(w, w'')
  {
    hide KeepsPods, KeepsClaims, KeepsCopies, CompletedAt, Advanced;
  }

  // The finalizer is stored before anything else.
  method AddFinalizer(c: Cluster, vr: VolumeResize) returns (r: Result)
    requires c.Valid() && !vr.finalizer && (c.w.vr.Some? ==> c.w.vr.value.stsDeleted == vr.stsDeleted)
    modifies c, vr
    ensures c.Valid() && Span(old(c.w), c.w, {}) && SameFlags(old(c.w), c.w) && c.w.sts == old(c.w).sts
    ensures c.smooth ==> old(c.smooth)
    ensures c.smooth && c.w.vr.Some? ==>
              && old(c.w).vr.Some? && c.w.vr.value.stsDeleted == old(vr.stsDeleted)
              && c.w.vr.value.finalizer && c.w.vr.value.status == old(c.w).vr.value.status
    ensures r == Requeue || r == Error
    ensures r == Requeue && c.w.vr.Some? ==> c.w.vr.value.finalizer
    ensures c.smooth && c.w.vr.Some? ==> r == Requeue
    ensures SameCursor(old(c.w), c.w)
  {
    hide Run, Effect, Answer, Span, SameHomes, KeepsPods;
    ghost var w0 := c.w;
    vr.finalizer := true;
    ghost var d := vr.Value();
    assert w0.vr.Some? ==> Guard(w0, MetaCall(d));
    hide Guard;
    var e := Update(c, vr);
    ResourceEffect(w0, MetaCall(d), e, c.w);
    FinalizerStored(w0, d, e, c.w);
    r := if e == Ok then Requeue else Error;
  }

  lemma FinalizerStored(w: World, d: Vr, e: Reply, w': World)
    requires d.finalizer && Effect(w, MetaCall(d), e, w')
    ensures e == NotFound ==> w'.vr == None
    ensures e == Ok && w'.vr.Some? ==>
              && w.vr.Some? && w'.vr.value.stsDeleted == d.stsDeleted
              && w'.vr.value.finalizer && w'.vr.value.status == w.vr.value.status
  {
    hide KeepsPods, KeepsClaims, KeepsCopies;
  }

  // Nothing is left to do: the resource is gone, or in a terminal phase.
  ghost predicate AtRest(w: World) {
    w.vr.Some? ==> w.vr.value.status.phase == Completed || w.vr.value.status.phase == Failed
  }

  // A unit that is to be migrated is at the cursor and no longer there.
  ghost predicate LeftUnit(w: World, w': World, u: Unit) {
    && w.vr.Some? && Unrecorded(w.vr.value.status) && Cursor(w.vr.value.status) == Some(u)
    && MovedFrom(w', u)
  }

  // What a pass over a stored resource brings about.
  ghost predicate Routed(w: World, w': World, smooth: bool, r: Result, pdbs: seq<Pdb>, late: set<string>) {
    && (Undeleted(w') ==> Undeleted(w)) && RetainedKept(w, w')
    && (smooth && Consistent(w) && Held(w) && TempsClear(w) ==> SameFlags(w, w'))
    && (smooth && Sound(w') ==> forall u :: Lacking(w, u) ==> LeftMissing(w', u))
    && (Clean(smooth, w') && Going(w, pdbs) && ClaimsReady(w, late) && TempsClear(w) ==> Nearer(w, w', pdbs))
    && (smooth && Stuck(w) ==> HasFailed(w'))
    && (smooth ==> OnlyAdvanced(w, w') && r != Error)
    && (r == NoRequeue ==> AtRest(w'))
  }

  // The phase decides. Replacing never occurs.
  method Route(c: Cluster, vr: VolumeResize, ghost v: Vr) returns (r: Result, ghost i: nat)
    requires c.Valid() && Holds(c.w, v) && vr.Value() == v && vr.spec == c.w.spec && Began(c.w)
    modifies c, vr
    ensures c.Valid() && (c.smooth ==> old(c.smooth))
    ensures Routed(old(c.w), c.w, c.smooth, r, c.pdbs, c.lateClasses)
    ensures forall u :: LeftUnit(old(c.w), c.w, u) ==> i <= |c.log| && BackUp(c.Past(i), u)
    ensures InPhase(old(c.w), Completed) || InPhase(old(c.w), Failed) ==> r == NoRequeue && c.w == old(c.w)
  {
    hide Run, Inv, Safe, Span, Staging, Gate, Routed, Nearer, InPhase, Holds, Began, BackUp, LeftUnit, SameMark;
    hide HasFailed, SameFlags, Going, Ends, NoMig;
    i := 0;
    ghost var w0 := c.w;
    InvRun(c.start, c.log, w0);
    SafeOf(w0);
    StagingRun(c.start, c.log, w0);
    HeldPhase(w0, v);
    NotSyncing(w0, v.status.phase);
    match vr.phase {
      case PhaseEmpty =>
        r := HandlePending(c, vr, v);
        RoutedEarly(w0, c.w, c.smooth, r, c.pdbs, c.lateClasses);
      case Pending =>
        r := HandlePending(c, vr, v);
        RoutedEarly(w0, c.w, c.smooth, r, c.pdbs, c.lateClasses);
      case Validating =>
        r := HandleValidating(c, vr, v);
        RoutedGate(w0, c.w, c.smooth, r, c.pdbs, c.lateClasses);
      case Syncing =>
        r, i := RouteSyncing(c, vr, v);
      case Replacing =>
        NeverReplacing(w0);
        assert false;
      case Completed =>
        r := NoRequeue;
        RoutedRest(w0, c.smooth, c.pdbs, c.lateClasses);
      case Failed =>
        r := NoRequeue;
        RoutedRest(w0, c.smooth, c.pdbs, c.lateClasses);
    }
  }

  // Outside phase Syncing there is little to show.
  lemma RoutedOther(w: World, w': World, smooth: bool, r: Result, pdbs: seq<Pdb>, late: set<string>, p: Phase)
    requires InPhase(w, p) && p != Syncing
    requires (Undeleted(w') ==> Undeleted(w)) && RetainedKept(w, w') && SameFlags(w, w')
    requires Clean(smooth, w') && Going(w, pdbs) ==> Nearer(w, w', pdbs)
    requires (smooth ==> r != Error) && (r == NoRequeue ==> AtRest(w'))
    ensures Routed(w, w', smooth, r, pdbs, late)
  {
    hide Undeleted, RetainedKept, SameFlags, Clean, Going, Nearer, AtRest, CompletedAt, NameFree, MissingIf, Sound;
    hide Advanced, LeftMissing, HasFailed, Consistent, Held, TempsClear, ClaimsReady;
  }

  lemma RoutedEarly(w: World, w': World, smooth: bool, r: Result, pdbs: seq<Pdb>, late: set<string>)
    requires Staging(w) && (InPhase(w, PhaseEmpty) || InPhase(w, Pending))
    requires Span(w, w', {}) && SameFlags(w, w') && w'.sts == w.sts
    requires r == Requeue || r == Error
    requires smooth ==> InPhase(w', Validating) && SameMark(w, w') && r == Requeue
    ensures Routed(w, w', smooth, r, pdbs, late)
  {
    PassedEarly(w, w', pdbs);
    hide Staging, Span, Routed, Going, Nearer, InPhase, RetainedKept, SameFlags, SameMark;
    RoutedOther(w, w', smooth, r, pdbs, late, if InPhase(w, Pending) then Pending else PhaseEmpty);
  }

  lemma RoutedGate(w: World, w': World, smooth: bool, r: Result, pdbs: seq<Pdb>, late: set<string>)
    requires Safe(w) && Staging(w) && InPhase(w, Validating)
    requires Span(w, w', {}) && SameFlags(w, w') && w'.sts == w.sts
    requires smooth && Gate(w, pdbs) ==>
               && SameMark(w, w') && InPhase(w', Syncing) && |w'.spec.volumes| > 0
               && Cursor(w'.vr.value.status) == Some(Unit(0, w'.spec.volumes[0].name))
               && NoMig(w', Unit(0, w'.spec.volumes[0].name))
    requires (smooth ==> r != Error) && (r == NoRequeue ==> HasFailed(w'))
    ensures Routed(w, w', smooth, r, pdbs, late)
  {
    PassedGate(w, w', smooth, pdbs);
    FailedRests(w');
    hide Staging, Span, Routed, Going, Nearer, InPhase, RetainedKept, SameFlags, SameMark, Gate, Safe, AtRest;
    RoutedOther(w, w', smooth, r, pdbs, late, Validating);
  }

  lemma RoutedRest(w: World, smooth: bool, pdbs: seq<Pdb>, late: set<string>)
    requires InPhase(w, Completed) || InPhase(w, Failed)
    ensures Routed(w, w, smooth, NoRequeue, pdbs, late)
  {
    var p := if InPhase(w, Completed) then Completed else Failed;
    Rested(w, pdbs);
    NotSyncing(w, p);
    FlagsIdle(w);
    hide Routed, Going, Nearer, InPhase, RetainedKept, SameFlags, AtRest;
    RoutedOther(w, w, smooth, NoRequeue, pdbs, late, p);
  }

  // Only a resource that is Syncing has a unit to leave.
  lemma NotSyncing(w: World, p: Phase)
    requires InPhase(w, p)
    ensures p != Syncing ==> forall w', u :: !LeftUnit(w, w', u)
    ensures p == Completed || p == Failed ==> AtRest(w)
    ensures forall q :: InPhase(w, q) ==> q == p
  {
    hide CompletedAt, MovedFrom;
  }

  lemma FailedRests(w: World)
    ensures HasFailed(w) ==> AtRest(w)
  {
  }

  method RouteSyncing(c: Cluster, vr: VolumeResize, ghost v: Vr) returns (r: Result, ghost i: nat)
    requires c.Valid() && Holds(c.w, v) && vr.Value() == v && vr.spec == c.w.spec && Began(c.w)
    requires v.status.phase == Syncing
    modifies c, vr
    ensures c.Valid() && (c.smooth ==> old(c.smooth))
    ensures Routed(old(c.w), c.w, c.smooth, r, c.pdbs, c.lateClasses)
    ensures forall u :: LeftUnit(old(c.w), c.w, u) ==> i <= |c.log| && BackUp(c.Past(i), u)
  {
    hide Run, Inv, Safe, Span, Sound, Undeleted, Going, ClaimsReady, Nearer, CompletedAt, SameFlags, BackUp;
    hide NameFree, Progressed, Advanced, MissingIf, HasFailed, LeftMissing, Held, Began, MovedFrom, TempReady;
    hide Stuck, Lacking, OnlyAdvanced, LeftUnit, RetainedKept, Consistent, TempsClear, Clean, Alive, AtRest;
    ghost var w0 := c.w;
    InvRun(c.start, c.log, w0);
    SafeOf(w0);
    r, i := HandleSyncing(c, vr, v);
    InvRun(c.start, c.log, c.w);
    SafeOf(c.w);
    PassedSync(w0, c.w, v, c.smooth, c.pdbs, c.lateClasses);
    SyncLeft(w0, c.w, v, c.smooth);
    FailedRests(c.w);
  }

  // What a Syncing pass says of the unit it found.
  lemma SyncLeft(w: World, w': World, v: Vr, smooth: bool)
    requires Holds(w, v) && v.status.phase == Syncing && Cursor(v.status).Some?
    requires smooth && CompletedAt(v.status.volumeStatuses, Cursor(v.status).value) ==>
               Advanced(w', Cursor(v.status).value) && w'.sts == w.sts
    ensures smooth ==> OnlyAdvanced(w, w')
    ensures forall u :: LeftUnit(w, w', u) ==>
              && u == Cursor(v.status).value && !CompletedAt(v.status.volumeStatuses, u) && MovedFrom(w', u)
  {
    hide CompletedAt, Advanced, MovedFrom;
  }

  lemma PassedEarly(w: World, w': World, pdbs: seq<Pdb>)
    requires Staging(w) && (InPhase(w, PhaseEmpty) || InPhase(w, Pending))
    requires Span(w, w', {}) && SameFlags(w, w') && w'.sts == w.sts
    ensures Going(w, pdbs) && InPhase(w', Validating) && SameMark(w, w') && Undeleted(w') ==> Nearer(w, w', pdbs)
    ensures !Stuck(w) && (Undeleted(w') ==> Undeleted(w)) && RetainedKept(w, w') && forall u :: !Lacking(w, u)
  {
    SpanWorld(w, w', {});
    hide Staging, Going, Span, Nearer;
    if Going(w, pdbs) && InPhase(w', Validating) && SameMark(w, w') && Undeleted(w') {
      EarlyNearer(w, w', pdbs);
    }
  }

  lemma PassedGate(w: World, w': World, smooth: bool, pdbs: seq<Pdb>)
    requires Safe(w) && Staging(w) && InPhase(w, Validating)
    requires Span(w, w', {}) && SameFlags(w, w') && w'.sts == w.sts
    requires smooth && Gate(w, pdbs) ==>
               && SameMark(w, w') && InPhase(w', Syncing) && |w'.spec.volumes| > 0
               && Cursor(w'.vr.value.status) == Some(Unit(0, w'.spec.volumes[0].name))
               && NoMig(w', Unit(0, w'.spec.volumes[0].name))
    ensures Clean(smooth, w') && Going(w, pdbs) ==> Nearer(w, w', pdbs)
    ensures !Stuck(w) && (Undeleted(w') ==> Undeleted(w)) && RetainedKept(w, w') && forall u :: !Lacking(w, u)
  {
    SpanWorld(w, w', {});
    hide Safe, Staging, Going, Span, Nearer, Gate, Sound;
    if Clean(smooth, w') && Going(w, pdbs) {
      GateOpen(w, pdbs);
      LaunchNearer(w, w', pdbs);
    }
  }

  lemma PassedSync(w: World, w': World, v: Vr, smooth: bool, pdbs: seq<Pdb>, late: set<string>)
    requires Inv(w) && Safe(w) && Safe(w') && Holds(w, v) && v.status.phase == Syncing && Cursor(v.status).Some?
    requires var u := Cursor(v.status).value; Span(w, w', {Temp(u), Orig(u)})
    requires var u := Cursor(v.status).value;
             smooth && CompletedAt(v.status.volumeStatuses, u) ==>
               Advanced(w', u) && w'.sts == w.sts && (Consistent(w) ==> Consistent(w'))
    requires smooth && Consistent(w) && Held(w) && TempsClear(w) ==> SameFlags(w, w')
    requires var u := Cursor(v.status).value;
             smooth && !CompletedAt(v.status.volumeStatuses, u) && NameFree(w, u) ==> HasFailed(w')
    requires var u := Cursor(v.status).value;
             smooth && Sound(w') && !CompletedAt(v.status.volumeStatuses, u) && MissingIf(w, u) ==> LeftMissing(w', u)
    requires var u := Cursor(v.status).value;
             (smooth && Sound(w') && !CompletedAt(v.status.volumeStatuses, u) && Alive(w, Orig(u))
              && TempReady(w, late, u)) ==> Progressed(w, w', u)
    ensures Clean(smooth, w') && Going(w, pdbs) && ClaimsReady(w, late) && TempsClear(w) ==> Nearer(w, w', pdbs)
    ensures smooth && Stuck(w) ==> HasFailed(w')
    ensures smooth && Sound(w') ==> forall u :: Lacking(w, u) ==> LeftMissing(w', u)
    ensures (Undeleted(w') ==> Undeleted(w)) && RetainedKept(w, w')
  {
    var u := Cursor(v.status).value;
    assert AtUnit(w, v, u) && (ClaimsReady(w, late) ==> TempReady(w, late, u) && AllHeld(w.claims, w.pvs)) by {
      hide Inv, Safe, Span;
    }
    SpanWorld(w, w', {Temp(u), Orig(u)}) by { hide Inv, Safe, Span; }
    hide Inv, Safe, Span, Sound, Undeleted, Going, ClaimsReady, TempReady, Nearer, CompletedAt, NameFree;
    hide Progressed, Advanced, Alive, AtUnit, Consistent, HasFailed, LeftMissing, MissingIf, AllHeld;
    if Clean(smooth, w') && Going(w, pdbs) && ClaimsReady(w, late) && TempsClear(w) {
      GoingAt(w, v, u, pdbs);
      assert Stable(w) by { SoundStable(w); }
      SpanWorld(w, w', {Temp(u), Orig(u)});
      SoundAgain(w, w');
      SyncNearer(w, w', v, u, pdbs);
    }
  }

  lemma SoundStable(w: World)
    requires Sound(w)
    ensures Stable(w)
  {
  }

  lemma NeverReplacing(w: World)
    requires Safe(w)
    ensures !InPhase(w, Replacing)
  {
    hide Recoverable, FirstKept, TempsAside, MountsAside, ClaimsLabelled, PodsLabelled, TemplatesLabelled;
    hide PodShape, Truthful, Listed, Ordered;
  }

  // A terminal phase needs no pass.
  lemma Rested(w: World, pdbs: seq<Pdb>)
    requires InPhase(w, Completed) || InPhase(w, Failed)
    ensures Going(w, pdbs) ==> Nearer(w, w, pdbs)
    ensures !Stuck(w) && RetainedKept(w, w) && forall u :: !Lacking(w, u)
  {
    hide Gate;
  }

  // One pass.
  method Reconcile(c: Cluster) returns (r: Result)
    requires c.Valid() && Began(c.w)
    modifies c
    ensures c.Valid() && (c.smooth ==> old(c.smooth)) && RetainedKept(old(c.w), c.w)
    ensures c.smooth && Undeleted(c.w) && Consistent(old(c.w)) && Held(old(c.w)) && TempsClear(old(c.w)) ==>
              SameFlags(old(c.w), c.w)
    ensures c.smooth && Undeleted(c.w) && Sound(c.w) ==> forall u :: Lacking(old(c.w), u) ==> LeftMissing(c.w, u)
    ensures c.smooth && Undeleted(c.w) && InPhase(old(c.w), Failed) ==> InPhase(c.w, Failed)
    ensures c.w.spec == old(c.w).spec && c.w.past == old(c.w).past
    ensures (&& Clean(c.smooth, c.w) && Going(old(c.w), c.pdbs) && ClaimsReady(old(c.w), c.lateClasses)
             && TempsClear(old(c.w))) ==> Nearer(old(c.w), c.w, c.pdbs)
    ensures c.smooth && Undeleted(old(c.w)) && Stuck(old(c.w)) ==> HasFailed(c.w)
    ensures c.smooth && Undeleted(old(c.w)) ==> OnlyAdvanced(old(c.w), c.w)
    ensures forall u :: LeftUnit(old(c.w), c.w, u) ==> exists i :: 0 <= i <= |c.log| && BackUp(c.Past(i), u)
    ensures r == NoRequeue ==> AtRest(c.w)
    ensures c.smooth && c.w.vr.Some? ==> r != Error
    ensures c.smooth && Undeleted(c.w) && (InPhase(old(c.w), Completed) || InPhase(old(c.w), Failed)) ==> r == NoRequeue
    ensures c.smooth && old(c.w).vr.Some? && Ending(old(c.w)) ==>
              c.w.vr == None && forall u :: TempGoing(c.w, u) && MigGoing(c.w, u)
  {
    hide Run, Relied, Inv, Safe, Span, Sound, Going, ClaimsReady, Nearer, Staging, Holds, Clean, Clearing, Stuck;
    hide Lacking, LeftMissing, HasFailed, Began, Held, Consistent, InPhase, BackUp, LeftUnit, TempGoing, MigGoing, AtRest;
    ghost var w0 := c.w;
    StagingRun(c.start, c.log, w0);
    var e, got := c.GetVr();
    ghost var w1 := c.w;
    ReliedRetained(w0, w1);
    LackingRelied(w0, w1);
    HeldRelied(w0, w1);
    StorageRelied(w0, w1);
    StillAtUnit(w0, w1);
    if e == NotFound {
      Unread(w0, w1, c.smooth, c.pdbs);
      return NoRequeue;
    }
    if e != Ok {
      Unsmooth(c.smooth, w1);
      return Error;
    }
    StagingRun(c.start, c.log, w1);
    var v := got.value;
    var vr := new VolumeResize(c.w.spec, v);
    if v.deleting {
      ReadEnding(w0, w1, v);
      r := HandleDeletion(c, vr);
      ClearingEnds(w1, c.w, c.smooth);
      ClearingAtUnit(w0, w1, c.w);
      NothingLeft(c.w);
      return;
    }
    if !v.finalizer {
      r := AddFinalizer(c, vr);
      FinalizerAtUnit(w0, w1, c.w);
      PassedFinalizer(w0, w1, c.w, v, c.smooth, c.pdbs);
      return;
    }
    ReadHolds(w0, w1, v);
    ghost var i;
    r, i := Route(c, vr, v);
    LeftSince(w0, w1, c.w);
    PhasesRelied(w0, w1);
    PassedRoute(w0, w1, c.w, v, c.smooth, c.pdbs, c.lateClasses);
    if c.smooth {
      AdvancedRelied(w0, w1, c.w);
    }
  }

  // Nothing but the sync handler moves the cursor.
  lemma StillAtUnit(w: World, w': World)
    requires Relied(w, w')
    ensures forall u :: !LeftUnit(w, w', u)
    ensures w.vr == None ==> AtRest(w')
    ensures w.vr.Some? && Ending(w) ==> w.vr.value.deleting
    ensures Undeleted(w') ==> Undeleted(w)
  {
    hide KeepsPods, KeepsClaims, KeepsCopies, CompletedAt;
  }

  lemma ClearingAtUnit(w0: World, w: World, w': World)
    requires Relied(w0, w) && Clearing(w, w')
    ensures forall u :: !LeftUnit(w0, w', u)
  {
    hide KeepsPods, KeepsClaims, KeepsCopies, CompletedAt, RetainedKept, TempGoing, MigGoing;
  }

  lemma FinalizerAtUnit(w0: World, w: World, w': World)
    requires Relied(w0, w) && SameCursor(w, w')
    ensures forall u :: !LeftUnit(w0, w', u)
  {
    hide KeepsPods, KeepsClaims, KeepsCopies, CompletedAt;
  }

  lemma NothingLeft(w: World)
    ensures w.vr == None ==> AtRest(w)
  {
  }

  lemma LeftSince(w0: World, w: World, w': World)
    requires Relied(w0, w)
    ensures forall u :: LeftUnit(w0, w', u) && w.vr.Some? ==> LeftUnit(w, w', u)
    ensures w0.vr.Some? && w0.vr.value.finalizer ==> w.vr.Some?
  {
    hide KeepsPods, KeepsClaims, KeepsCopies, CompletedAt;
  }

  lemma PhasesRelied(w: World, w': World)
    requires Relied(w, w')
    ensures forall p :: InPhase(w, p) ==> InPhase(w', p)
  {
    hide KeepsPods, KeepsClaims, KeepsCopies;
  }

  lemma Unread(w: World, w': World, smooth: bool, pdbs: seq<Pdb>)
    requires Relied(w, w') && w.vr == None
    ensures !Clean(smooth, w') && !Undeleted(w') && !Stuck(w)
  {
    hide KeepsPods, KeepsClaims, KeepsCopies;
  }

  lemma ReliedRetained(w: World, w': World)
    requires Relied(w, w')
    ensures RetainedKept(w, w')
  {
    hide Quieter, KeepsPods, KeepsCopies;
  }

  lemma Unsmooth(smooth: bool, w: World)
    ensures !smooth ==> !Clean(smooth, w)
  {
  }

  lemma ClearingEnds(w: World, w': World, smooth: bool)
    requires Ending(w) && Clearing(w, w')
    ensures !Clean(smooth, w') && !Undeleted(w') && RetainedKept(w, w')
  {
    hide Sound, SameMark;
  }

  lemma PassedFinalizer(w0: World, w: World, w': World, v: Vr, smooth: bool, pdbs: seq<Pdb>)
    requires Staging(w0) && Staging(w) && Relied(w0, w) && w0.vr == Some(v) && !v.finalizer
    requires Span(w, w', {}) && SameFlags(w, w') && w'.sts == w.sts
    requires smooth && w'.vr.Some? ==>
               && w.vr.Some? && w'.vr.value.stsDeleted == v.stsDeleted
               && w'.vr.value.finalizer && w'.vr.value.status == w.vr.value.status
    ensures Clean(smooth, w') && Going(w0, pdbs) ==> Nearer(w0, w', pdbs)
    ensures !Stuck(w0) && RetainedKept(w, w')
    ensures (forall u :: !Lacking(w0, u)) && forall p :: !InPhase(w0, p)
  {
    SpanWorld(w, w', {});
    hide Staging, Span, Gate, Steps, Sound, CompletedAt, Alive;
    if Clean(smooth, w') && Going(w0, pdbs) {
      GoingRelied(w0, w, pdbs, {});
      assert w.vr == w0.vr by { hide KeepsPods, KeepsClaims, KeepsCopies; }
      hide Relied;
      EarlyNearer(w, w', pdbs);
    }
  }

  lemma PassedRoute(w0: World, w: World, w': World, v: Vr, smooth: bool, pdbs: seq<Pdb>, late: set<string>)
    requires Staging(w0) && Relied(w0, w) && w0.vr == Some(v) && (Undeleted(w') ==> Undeleted(w))
    requires Clean(smooth, w') && Going(w, pdbs) && ClaimsReady(w, late) && TempsClear(w) ==> Nearer(w, w', pdbs)
    requires smooth && Stuck(w) ==> HasFailed(w')
    ensures Clean(smooth, w') && Going(w0, pdbs) && ClaimsReady(w0, late) && TempsClear(w0) ==> Nearer(w0, w', pdbs)
    ensures smooth && Stuck(w0) ==> HasFailed(w')
  {
    hide Staging, Relied, Going, Steps, Sound, ClaimsReady, Stuck, HasFailed;
    if Clean(smooth, w') && Going(w0, pdbs) {
      GoingRelied(w0, w, pdbs, late);
    }
    if Stuck(w0) {
      StuckRelied(w0, w);
    }
  }

  /** Passes in a row */

  // What happens between two passes, and the script of the next one.
  datatype Round = Round(between: seq<Move>, ticks: seq<Tick>)

  lemma BareFixed(w: World, w': World)
    requires SameButBare(w, w')
    ensures w'.spec == w.spec && w'.past == w.past && w'.sts == w.sts && RetainedKept(w, w')
    ensures Sound(w') <==> Sound(w)
  {
  }

  // Runs the passes. All of them are fine if each was clean and found the temporary
  // claim at the cursor bound and every original claim holding its volume, and the
  // first one found no migrator pod left without its temporary claim.
  method Operate(c: Cluster, rounds: seq<Round>) returns (ghost fine: bool)
    requires c.Valid()
    modifies c
    ensures c.Valid()
    ensures fine && Going(old(c.w), c.pdbs) ==>
              Going(c.w, c.pdbs) && (Steps(c.w) + |rounds| <= Steps(old(c.w)) || Steps(c.w) == 0)
    ensures fine && Going(old(c.w), c.pdbs) && Back(old(c.w)) ==> Back(c.w)
    ensures c.w.spec == old(c.w).spec && c.w.past == old(c.w).past
  {
    hide Run, Relied, Going, Back, Steps, ClaimsReady, Clean, Staging, Undeleted, Began, Called, SameButBare;
    hide TempsClear;
    ghost var w0 := c.w;
    fine := true;
    for i := 0 to |rounds|
      invariant c.Valid() && c.w.spec == w0.spec && c.w.past == w0.past
      invariant fine && Going(w0, c.pdbs) ==>
                  Going(c.w, c.pdbs) && (Steps(c.w) + i <= Steps(w0) || Steps(c.w) == 0) && (Back(w0) ==> Back(c.w))
      invariant fine && Going(w0, c.pdbs) && i > 0 ==> TempsClear(c.w)
    {
      ghost var w1 := c.w;
      StagingRun(c.start, c.log, w1);
      c.Settle(rounds[i].between);
      ghost var w2 := c.w;
      c.Begin(rounds[i].ticks);
      ghost var w3 := c.w;
      BareApart(w2, w3, c.pdbs, c.lateClasses);
      BareFixed(w2, w3);
      var r := Reconcile(c);
      fine := fine && Undeleted(w2) && ClaimsReady(w2, c.lateClasses) && (i == 0 ==> TempsClear(w2));
      fine := fine && Clean(c.smooth, c.w);
      if fine && Going(w0, c.pdbs) {
        GoingRelied(w1, w2, c.pdbs, c.lateClasses);
        NearerSteps(w3, c.w, c.pdbs);
      }
    }
  }

  lemma NearerSteps(w: World, w': World, pdbs: seq<Pdb>)
    requires Nearer(w, w', pdbs)
    ensures Going(w', pdbs) && (Steps(w') < Steps(w) || Steps(w') == 0) && (Back(w) ==> Back(w'))
    ensures TempsClear(w')
  {
    hide Going, Steps, Back, TempsClear;
  }
}
