/**
  The handlers of the other phases: pending, validating, and deletion
  (volumeresize_controller.go:103-175, 449-502).
 */
module Handlers {
  import opened Types
  import opened Enumeration
  import opened Rewriting
  import opened Protocol
  import opened Safety
  import opened Placement
  import opened Stages
  import opened Marks
  import opened Rely
  import opened Api
  import opened Work
  import opened Resource
  import opened Updates
  import opened StatefulSets
  import opened Validation
  import opened Syncing

  /** Pending */

  lemma MayValidate(w: World, v: Vr, st: Status)
    requires Safe(w) && Holds(w, v) && (v.status.phase == PhaseEmpty || v.status.phase == Pending)
    requires st == v.status.(phase := Validating, volumeStatuses := [])
    ensures w.vr.Some? && Guard(w, PutStatus(st))
  {
    hide Recoverable, FirstKept, TempsAside, MountsAside, ClaimsLabelled, PodsLabelled, TemplatesLabelled;
    hide PodShape, Truthful, Listed, Ordered;
  }

  // The stored resource is in this phase and has its finalizer.
  ghost predicate InPhase(w: World, p: Phase) {
    w.vr.Some? && w.vr.value.finalizer && w.vr.value.status.phase == p
  }

  // The stored annotation is the same in both worlds.
  ghost predicate SameMark(w: World, w': World) {
    w.vr.Some? && w'.vr.Some? && w'.vr.value.stsDeleted == w.vr.value.stsDeleted
  }

  method HandlePending(c: Cluster, vr: VolumeResize, ghost v: Vr) returns (r: Result)
    requires c.Valid() && Holds(c.w, v) && vr.Value() == v
    requires v.status.phase == PhaseEmpty || v.status.phase == Pending
    modifies c, vr
    ensures c.Valid() && Span(old(c.w), c.w, {}) && c.w.sts == old(c.w).sts
    ensures SameFlags(old(c.w), c.w)
    ensures c.smooth ==> old(c.smooth) && InPhase(c.w, Validating) && SameMark(old(c.w), c.w)
    ensures r == Requeue || r == Error
    ensures r == Requeue ==> InPhase(c.w, Validating)
    ensures c.smooth ==> r == Requeue
  {
    hide Run, Inv, Safe, Effect, Answer, Guard, Holds, Span, SameHomes, KeepsPods;
    ghost var w0 := c.w;
    vr.volumeStatuses := [];
    vr.phase := Validating;
    ghost var st := vr.StatusValue();
    InvRun(c.start, c.log, w0);
    SafeOf(w0);
    MayValidate(w0, v, st);
    CursorRests(w0, v, st);
    var e := UpdateStatus(c, vr);
    ResourceEffect(w0, PutStatus(st), e, c.w);
    StatusHeld(w0, v, st, e, v, c.w);
    if e != Ok {
      return Error;
    }
    HeldPhase(w0, v);
    HeldPhase(c.w, v.(status := st));
    r := Requeue;
  }

  lemma CursorRests(w: World, v: Vr, st: Status)
    requires Holds(w, v) && Cursor(st) == Cursor(v.status)
    ensures Faithful(w, PutStatus(st))
  {
  }

  lemma HeldPhase(w: World, v: Vr)
    requires Holds(w, v)
    ensures InPhase(w, v.status.phase) && w.vr.value.status == v.status && w.vr.value.stsDeleted == v.stsDeleted
  {
  }

  /** Validating */

  // What the checks establish.
  ghost predicate Gate(w: World, pdbs: seq<Pdb>) {
    && w.sts.Some?
    && (forall t :: t in w.spec.volumes ==> HasTemplate(w.sts.value, t.name) && ShrinksFirst(w, t))
    && BudgetsAllow(pdbs, w.sts.value.podLabels)
  }

  // The target is below the first size of replica 0.
  ghost predicate BelowFirst(past: Origin, t: Target) {
    Unit(0, t.name) in past.size0 && t.newSize < past.size0[Unit(0, t.name)]
  }

  ghost predicate Validated(w: World, v: Vr) {
    Holds(w, v) && v.status.phase == Validating
  }

  lemma ValidatedRelied(w: World, w': World, v: Vr)
    requires Validated(w, v) && Relied(w, w')
    ensures Validated(w', v) && w'.sts == w.sts && w'.spec == w.spec && w'.past == w.past
  {
    hide KeepsPods, KeepsClaims, KeepsCopies;
  }

  lemma ValidatedMark(w: World, w': World, v: Vr)
    requires Validated(w, v) && Validated(w', v)
    ensures SameMark(w, w')
  {
  }

  // Before the gate no claim is being deleted, so a claim that was read stays.
  lemma ShrinkStays(w: World, w': World, v: Vr, t: Target)
    requires Staging(w) && Validated(w, v) && Relied(w, w') && ShrinksFirst(w, t)
    ensures ShrinksFirst(w', t) && (w.past.rolledOut ==> BelowFirst(w.past, t))
  {
    AliveRelied(w, w', Orig(Unit(0, t.name)));
    hide Relied, Doubled, Full;
  }

  // The sizes of all targets, one read after the other.
  method ValidateSizes(c: Cluster, spec: Spec, ghost v: Vr) returns (valid: bool)
    requires c.Valid() && spec == c.w.spec && Validated(c.w, v)
    modifies c
    ensures c.Valid() && Relied(old(c.w), c.w)
    ensures valid ==> forall t :: t in spec.volumes ==> ShrinksFirst(c.w, t)
    ensures valid && c.w.past.rolledOut ==> forall t :: t in spec.volumes ==> BelowFirst(c.w.past, t)
    ensures c.smooth ==> old(c.smooth)
    ensures c.smooth && (forall t :: t in spec.volumes ==> ShrinksFirst(old(c.w), t)) ==> valid
  {
    hide Run, Relied, Staging, ShrinksFirst, Validated, BelowFirst;
    ghost var w0 := c.w;
    RelyReflexive(w0);
    StagingRun(c.start, c.log, w0);
    for i := 0 to |spec.volumes|
      invariant c.Valid() && Relied(w0, c.w) && Validated(c.w, v) && c.w.past == w0.past
      invariant c.smooth ==> old(c.smooth)
      invariant forall j :: 0 <= j < i ==> ShrinksFirst(c.w, spec.volumes[j])
      invariant c.w.past.rolledOut ==> forall j :: 0 <= j < i ==> BelowFirst(c.w.past, spec.volumes[j])
    {
      ghost var w1 := c.w;
      StagingRun(c.start, c.log, w1);
      valid := ValidateSizeReduction(c, spec.volumes[i]);
      ValidatedRelied(w1, c.w, v);
      forall j | 0 <= j < i
        ensures ShrinksFirst(c.w, spec.volumes[j])
      {
        ShrinkStays(w1, c.w, v, spec.volumes[j]);
      }
      if ShrinksFirst(w0, spec.volumes[i]) {
        ShrinkStays(w0, w1, v, spec.volumes[i]);
      }
      RelyTransitive(w0, w1, c.w);
      if !valid {
        assert spec.volumes[i] in spec.volumes;
        return;
      }
      ShrinkStays(w1, c.w, v, spec.volumes[i]);
    }
    valid := true;
  }

  lemma RewriteNames(s: Sts, volumes: seq<Target>, name: string)
    ensures HasTemplate(Rewrite(s, volumes), name) ==> HasTemplate(s, name)
  {
    var r := Rewrite(s, volumes);
    if HasTemplate(r, name) {
      var i :| 0 <= i < |r.templates| && r.templates[i].name == name;
      assert s.templates[i] in s.templates && s.templates[i].name == name;
    }
  }

  // The StatefulSet that was read has the templates and replicas of the first one.
  lemma FirstStatefulSet(w: World)
    requires Safe(w) && w.sts.Some?
    ensures w.past.sts0.Some? && Replicas(w.past.sts0.value) == Replicas(w.sts.value) > 0
    ensures forall n :: HasTemplate(w.sts.value, n) ==> HasTemplate(w.past.sts0.value, n)
  {
    hide FirstKept, TempsAside, MountsAside, ClaimsLabelled, PodsLabelled, TemplatesLabelled, PodShape;
    hide CursorOk, Truthful, HasTemplate;
    forall n | HasTemplate(w.sts.value, n)
      ensures HasTemplate(w.past.sts0.value, n)
    {
      RewriteNames(w.past.sts0.value, w.spec.volumes, n);
    }
  }

  lemma MayLaunch(w: World, v: Vr, sts: Sts, st: Status)
    requires Safe(w) && Validated(w, v) && w.sts == Some(sts)
    requires forall t :: t in w.spec.volumes ==> HasTemplate(sts, t.name)
    requires w.past.rolledOut ==> forall t :: t in w.spec.volumes ==> BelowFirst(w.past, t)
    requires |w.spec.volumes| > 0 && st.phase == Syncing && Cursor(st) == Some(Unit(0, w.spec.volumes[0].name))
    requires st.volumeStatuses == PendingEntries(Units(w.spec.volumes, Replicas(sts)))
    ensures w.vr.Some? && Guard(w, PutStatus(st))
  {
    FirstStatefulSet(w);
    PendingKeys(Units(w.spec.volumes, Replicas(sts)));
    hide Safe, Units, HasTemplate;
  }

  // Before the gate the resource has no annotation.
  lemma Unmarked(w: World, v: Vr)
    requires Noted(w) && Validated(w, v)
    ensures Consistent(w)
  {
    hide Unrecorded;
  }

  // Nor is there a migrator.
  lemma Unmanned(w: World, v: Vr, u: Unit)
    requires Behind(w) && Validated(w, v)
    ensures NoMig(w, u)
  {
  }

  lemma BeforeGateEmpty(w: World, v: Vr)
    requires Safe(w) && Validated(w, v)
    ensures v.status.volumeStatuses == [] && Cursor(v.status) == None && |w.spec.volumes| > 0
  {
    hide Recoverable, FirstKept, TempsAside, MountsAside, ClaimsLabelled, PodsLabelled, TemplatesLabelled;
    hide PodShape, Truthful, Listed, Ordered;
  }

  lemma MayFailValidation(w: World, v: Vr)
    requires Safe(w) && Validated(w, v)
    ensures w.vr.Some? && Guard(w, PutStatus(v.status.(phase := Failed)))
  {
    BeforeGateEmpty(w, v);
    hide Safe;
  }

  // setFailed, called while validating.
  method Reject(c: Cluster, vr: VolumeResize, ghost v: Vr) returns (r: Result)
    requires c.Valid() && Validated(c.w, v) && vr.Value() == v
    modifies c, vr
    ensures c.Valid() && Span(old(c.w), c.w, {}) && c.w.sts == old(c.w).sts
    ensures SameFlags(old(c.w), c.w)
    ensures !InPhase(c.w, Syncing)
    ensures c.smooth ==> old(c.smooth) && InPhase(c.w, Failed)
    ensures r == NoRequeue || r == Error
    ensures Ends(r, c.w) && (c.smooth ==> r == NoRequeue)
  {
    hide Run, Inv, Safe, Guard, Span, SameHomes, Effect, Answer, KeepsPods;
    ghost var w0 := c.w;
    InvRun(c.start, c.log, w0);
    SafeOf(w0);
    MayFailValidation(w0, v);
    r := SetFailed(c, vr);
  }

  // Before the gate, and across the update that passes it, what was read stays.
  lemma ShrinkKept(w: World, w': World, v: Vr, t: Target)
    requires Staging(w) && Validated(w, v) && Span(w, w', {}) && ShrinksFirst(w, t)
    ensures ShrinksFirst(w', t)
  {
    SpanWorld(w, w', {});
    hide Span, Doubled, Full, FirstClaims;
    assert Alive(w, Orig(Unit(0, t.name)));
  }

  // The list of pending entries, the first unit, and the phase are stored.
  method StartSync(c: Cluster, vr: VolumeResize, sts: Sts, ghost v: Vr) returns (r: Result)
    requires c.Valid() && Validated(c.w, v) && vr.Value() == v && vr.spec == c.w.spec && c.w.sts == Some(sts)
    requires forall t :: t in vr.spec.volumes ==> HasTemplate(sts, t.name) && ShrinksFirst(c.w, t)
    requires c.w.past.rolledOut ==> forall t :: t in vr.spec.volumes ==> BelowFirst(c.w.past, t)
    modifies c, vr
    ensures c.Valid() && Span(old(c.w), c.w, {}) && c.w.sts == old(c.w).sts
    ensures SameFlags(old(c.w), c.w)
    ensures forall t :: t in vr.spec.volumes ==> ShrinksFirst(c.w, t)
    ensures r == Requeue || r == Error
    ensures r == Requeue ==> InPhase(c.w, Syncing)
    ensures c.smooth ==>
              && old(c.smooth) && InPhase(c.w, Syncing) && |c.w.spec.volumes| > 0 && SameMark(old(c.w), c.w)
              && r == Requeue
    ensures c.smooth && |c.w.spec.volumes| > 0 ==>
              var first := Unit(0, c.w.spec.volumes[0].name);
              Cursor(c.w.vr.value.status) == Some(first) && NoMig(c.w, first)
  {
    hide Run, Inv, Safe, Effect, Answer, Guard, Span, SameHomes, KeepsPods, HasTemplate, BelowFirst, ShrinksFirst;
    hide Staging, Units, Noted, Passed, Behind, NoMig;
    ghost var w0 := c.w;
    InvRun(c.start, c.log, w0);
    SafeOf(w0);
    StagingRun(c.start, c.log, w0);
    BeforeGateEmpty(w0, v);
    var replicas := 1;
    if sts.replicas.Some? {
      replicas := sts.replicas.value;
    }
    vr.AppendPending(replicas);
    assert vr.volumeStatuses == PendingEntries(Units(vr.spec.volumes, replicas));
    vr.phase := Syncing;
    vr.currentReplica := Some(0);
    vr.currentVolume := vr.spec.volumes[0].name;
    ghost var st := vr.StatusValue();
    MayLaunch(w0, v, sts, st);
    MarksRun(c.start, c.log, w0);
    Unmarked(w0, v);
    Unmanned(w0, v, Unit(0, w0.spec.volumes[0].name));
    var e := UpdateStatus(c, vr);
    ResourceEffect(w0, PutStatus(st), e, c.w);
    SpanWorld(w0, c.w, {});
    StatusHeld(w0, v, st, e, v, c.w);
    PodsNoMig(w0, c.w, Unit(0, w0.spec.volumes[0].name));
    forall t | t in vr.spec.volumes
      ensures ShrinksFirst(c.w, t)
    {
      ShrinkKept(w0, c.w, v, t);
    }
    if e != Ok {
      return Error;
    }
    HeldPhase(w0, v);
    HeldPhase(c.w, v.(status := st));
    r := Requeue;
  }

  lemma FrameFromRelied(w: World, w': World)
    requires Relied(w, w')
    ensures Span(w, w', {}) && w'.sts == w.sts && SameFlags(w, w')
  {
    FrameRelied(w, w');
    FrameSpan(w, w', {});
    ReliedSts(w, w');
  }

  // The four checks, in order; the first one that fails ends them.
  method Validate(c: Cluster, spec: Spec, ghost v: Vr) returns (valid: bool, sts: Option<Sts>)
    requires c.Valid() && spec == c.w.spec && Validated(c.w, v)
    modifies c
    ensures c.Valid() && Relied(old(c.w), c.w)
    ensures valid ==> sts.Some? && c.w.sts == sts && BudgetsAllow(c.pdbs, sts.value.podLabels)
    ensures valid ==> forall t :: t in spec.volumes ==> HasTemplate(sts.value, t.name) && ShrinksFirst(c.w, t)
    ensures valid && c.w.past.rolledOut ==> forall t :: t in spec.volumes ==> BelowFirst(c.w.past, t)
    ensures c.smooth ==> old(c.smooth) && (Gate(old(c.w), c.pdbs) ==> valid)
  {
    hide Run, Inv, Safe, Relied, HasTemplate, ShrinksFirst, Validated, BelowFirst, Staging, BudgetsAllow;
    ghost var w0 := c.w;
    StagingRun(c.start, c.log, w0);
    valid, sts := ValidateStatefulSetExists(c);
    ghost var w1 := c.w;
    ValidatedRelied(w0, w1, v);
    forall t | t in spec.volumes && ShrinksFirst(w0, t)
      ensures ShrinksFirst(w1, t)
    {
      ShrinkStays(w0, w1, v, t);
    }
    if !valid {
      return;
    }
    valid := ValidateVolumeTargets(sts.value, spec.volumes);
    if !valid {
      return;
    }
    valid := ValidateSizes(c, spec, v);
    ghost var w2 := c.w;
    ValidatedRelied(w1, w2, v);
    RelyTransitive(w0, w1, w2);
    if !valid {
      return;
    }
    StagingRun(c.start, c.log, w2);
    valid := ValidatePDBAllowsDisruption(c, sts.value);
    ValidatedRelied(w2, c.w, v);
    RelyTransitive(w0, w2, c.w);
    forall t | t in spec.volumes
      ensures ShrinksFirst(c.w, t)
    {
      ShrinkStays(w2, c.w, v, t);
    }
  }

  method HandleValidating(c: Cluster, vr: VolumeResize, ghost v: Vr) returns (r: Result)
    requires c.Valid() && Validated(c.w, v) && vr.Value() == v && vr.spec == c.w.spec
    modifies c, vr
    ensures c.Valid() && Span(old(c.w), c.w, {}) && c.w.sts == old(c.w).sts
    ensures SameFlags(old(c.w), c.w)
    ensures InPhase(c.w, Syncing) ==> Gate(c.w, c.pdbs)
    ensures r == NoRequeue || r == Requeue || r == Error
    ensures (r == NoRequeue ==> HasFailed(c.w)) && (r == Requeue ==> InPhase(c.w, Syncing))
    ensures c.smooth ==> old(c.smooth) && (InPhase(c.w, Syncing) || InPhase(c.w, Failed)) && r != Error
    ensures c.smooth && Gate(old(c.w), c.pdbs) ==>
              InPhase(c.w, Syncing) && |c.w.spec.volumes| > 0 && SameMark(old(c.w), c.w)
    ensures c.smooth && Gate(old(c.w), c.pdbs) && |c.w.spec.volumes| > 0 ==>
              var first := Unit(0, c.w.spec.volumes[0].name);
              Cursor(c.w.vr.value.status) == Some(first) && NoMig(c.w, first)
  {
    hide Run, Relied, Span, HasTemplate, ShrinksFirst, Validated, BelowFirst, InPhase, BudgetsAllow;
    ghost var w0 := c.w;
    var valid, sts := Validate(c, vr.spec, v);
    ghost var w1 := c.w;
    ValidatedRelied(w0, w1, v);
    ValidatedMark(w0, w1, v);
    FrameFromRelied(w0, w1);
    if !valid {
      r := Reject(c, vr, v);
    } else {
      r := StartSync(c, vr, sts.value, v);
    }
    SpanTransitive(w0, w1, c.w, {}, {}, {});
    SpanWorld(w1, c.w, {});
  }

  /** Deletion */

  // What the clean-up of a deleted resource keeps: every living original claim,
  // and what is already on its way out.
  ghost predicate Clearing(w: World, w': World) {
    && w'.spec == w.spec && (Ending(w) ==> Ending(w')) && RetainedKept(w, w')
    && (w'.vr.Some? ==> SameMark(w, w') && w'.vr.value.status == w.vr.value.status)
    && (forall k: ClaimKey :: k.Orig? && Alive(w, k) ==> Alive(w', k) && SameClaim(w.claims[k], w'.claims[k]))
    && (forall u :: TempGoing(w, u) ==> TempGoing(w', u))
    && (forall u :: MigGoing(w, u) ==> MigGoing(w', u))
  }

  predicate IsClearing(c: Call) {
    (c.SweepClaim? && c.key.Temp?) || (c.SweepPod? && c.pod.Mig?) || (c.PutMeta? && !c.finalizer)
  }

  lemma ClearingTransitive(w: World, w': World, w'': World)
    requires Clearing(w, w') && Clearing(w', w'')
    ensures Clearing(w, w'')
  {
    hide Ending, TempGoing, MigGoing, AppGoing, MigLost;
  }

  lemma ClearingRelied(w: World, w': World)
    requires Relied(w, w')
    ensures Clearing(w, w')
  {
    hide KeepsCopies, TempGoing, MigGoing, AppGoing, MigLost, Quiet, Done, NoMig, NoTemp, NameFree, Retained;
  }

  lemma ClearingCalled(w: World, c: Call)
    requires IsClearing(c) && CanCall(w, c) && Ending(w)
    ensures Clearing(w, Called(w, c))
    ensures c.SweepClaim? ==> TempGoing(Called(w, c), c.key.unit)
    ensures c.SweepPod? ==> MigGoing(Called(w, c), c.pod.unit)
  {
  }

  lemma ClearingEffect(w: World, c: Call, e: Reply, w': World)
    requires IsClearing(c) && Effect(w, c, e, w') && Ending(w)
    ensures Clearing(w, w')
    ensures (e == Ok || e == NotFound) && c.SweepClaim? ==> TempGoing(w', c.key.unit)
    ensures (e == Ok || e == NotFound) && c.SweepPod? ==> MigGoing(w', c.pod.unit)
  {
    assert !CanCall(w, c) && c.SweepClaim? ==> TempGoing(w, c.key.unit);
    assert !CanCall(w, c) && c.SweepPod? ==> MigGoing(w, c.pod.unit);
    hide CanCall, Called, Relied, Clearing;
    if CanCall(w, c) && Relied(Called(w, c), w') {
      ClearingCalled(w, c);
      ClearingRelied(Called(w, c), w');
      ClearingTransitive(w, Called(w, c), w');
    } else {
      ClearingRelied(w, w');
    }
    ClearingGoing(w, w');
    if CanCall(w, c) && Relied(Called(w, c), w') {
      ClearingGoing(Called(w, c), w');
    }
  }

  lemma ClearingGoing(w: World, w': World)
    requires Clearing(w, w')
    ensures forall u :: TempGoing(w, u) ==> TempGoing(w', u)
    ensures forall u :: MigGoing(w, u) ==> MigGoing(w', u)
  {
    hide TempGoing, MigGoing, AppGoing, MigLost;
  }

  lemma MaySweep(w: World, c: Call)
    requires Safe(w) && Ending(w) && IsClearing(c) && !c.PutMeta? && CanCall(w, c)
    ensures Guard(w, c)
  {
    hide SpecOk, Recoverable, FirstKept, TempsAside, MountsAside, TemplatesLabelled, PodShape, CursorOk;
    hide Truthful, Owned;
  }

  // The label selects exactly the temporary claims and the migrators.
  lemma Labelled(w: World)
    requires Safe(w)
    ensures forall k :: k in w.claims ==> (Owned(w.spec, w.claims[k].labels) <==> k.Temp?)
    ensures forall p :: p in w.pods ==> (Owned(w.spec, w.pods[p].labels) <==> p.Mig?)
  {
    hide SpecOk, Recoverable, FirstKept, TempsAside, MountsAside, TemplatesLabelled, PodShape, CursorOk;
    hide Truthful, Owned;
  }

  // One deletion of a sweep.
  method Sweep(c: Cluster, call: Call)
    requires c.Valid() && Ending(c.w) && IsClearing(call) && !call.PutMeta?
    modifies c
    ensures c.Valid() && Clearing(old(c.w), c.w) && (old(c.crashed) ==> c.crashed)
    ensures c.asks == if c.crashed then old(c.asks) else old(c.asks) + [call]
    ensures c.smooth ==> old(c.smooth)
    ensures c.smooth && call.SweepClaim? ==> TempGoing(c.w, call.key.unit)
    ensures c.smooth && call.SweepPod? ==> MigGoing(c.w, call.pod.unit)
  {
    hide Run, Inv, Safe, Clearing, Called, CanCall, Guard, Effect, Ending, TempGoing, MigGoing, Relied;
    ghost var w0 := c.w;
    InvRun(c.start, c.log, w0);
    SafeOf(w0);
    if CanCall(w0, call) {
      MaySweep(w0, call);
    }
    var e := c.Issue(call);
    ClearingEffect(w0, call, e, c.w);
  }

  method SweepClaims(c: Cluster)
    requires c.Valid() && Ending(c.w)
    modifies c
    ensures c.Valid() && Clearing(old(c.w), c.w)
    ensures c.smooth ==> old(c.smooth) && forall u :: TempGoing(c.w, u)
    ensures old(c.Answers()) && !c.crashed ==> forall u :: Temp(u) in old(c.w).claims ==> SweepClaim(Temp(u)) in c.asks
  {
    hide Run, Inv, Safe, Relied, Clearing, Called, CanCall, Guard, Effect, Ending, TempGoing, Owned;
    ghost var w0 := c.w;
    InvRun(c.start, c.log, w0);
    SafeOf(w0);
    Labelled(w0);
    var e, items := c.ListClaims();
    ClearingRelied(w0, c.w);
    if e != Ok {
      return;
    }
    ListedGoing(w0, c.w, items);
    ghost var listed := items;
    while items != {}
      invariant c.Valid() && Clearing(w0, c.w) && (c.smooth ==> old(c.smooth))
      invariant forall k :: k in items ==> k.Temp?
      invariant c.smooth ==> forall u :: TempGoing(c.w, u) || Temp(u) in items
      invariant !c.crashed ==> forall k :: k in listed ==> k in items || SweepClaim(k) in c.asks
      decreases |items|
    {
      var k :| k in items;
      ghost var w1 := c.w;
      StillEnding(w0, w1);
      Sweep(c, SweepClaim(k));
      ClearingTransitive(w0, w1, c.w);
      ClearingGoing(w1, c.w);
      items := items - {k};
    }
  }

  lemma StillEnding(w: World, w': World)
    requires Ending(w) && Clearing(w, w')
    ensures Ending(w')
  {
    hide Ending;
  }

  lemma ListedGoing(w: World, w': World, items: set<ClaimKey>)
    requires Relied(w, w') && items == set k | k in w.claims && Owned(w.spec, w.claims[k].labels)
    requires forall k :: k in w.claims ==> (Owned(w.spec, w.claims[k].labels) <==> k.Temp?)
    ensures forall u :: TempGoing(w', u) || Temp(u) in items
  {
    forall u | Temp(u) !in items
      ensures TempGoing(w', u)
    {
      assert TempGoing(w, u);
    }
    hide Quieter, KeepsPods, KeepsCopies, Owned;
  }

  method SweepPods(c: Cluster)
    requires c.Valid() && Ending(c.w)
    modifies c
    ensures c.Valid() && Clearing(old(c.w), c.w)
    ensures c.smooth ==> old(c.smooth) && forall u :: MigGoing(c.w, u)
    ensures old(c.Answers()) && !c.crashed ==> forall u :: Mig(u) in old(c.w).pods ==> SweepPod(Mig(u)) in c.asks
  {
    hide Run, Inv, Safe, Relied, Clearing, Called, CanCall, Guard, Effect, Ending, MigGoing, AppGoing, MigLost, Owned;
    ghost var w0 := c.w;
    InvRun(c.start, c.log, w0);
    SafeOf(w0);
    Labelled(w0);
    var e, items := c.ListPods();
    ClearingRelied(w0, c.w);
    if e != Ok {
      return;
    }
    ListedPodsGoing(w0, c.w, items);
    ghost var listed := items;
    while items != {}
      invariant c.Valid() && Clearing(w0, c.w) && (c.smooth ==> old(c.smooth))
      invariant forall p :: p in items ==> p.Mig?
      invariant c.smooth ==> forall u :: MigGoing(c.w, u) || Mig(u) in items
      invariant !c.crashed ==> forall p :: p in listed ==> p in items || SweepPod(p) in c.asks
      decreases |items|
    {
      var p :| p in items;
      ghost var w1 := c.w;
      StillEnding(w0, w1);
      Sweep(c, SweepPod(p));
      ClearingTransitive(w0, w1, c.w);
      ClearingGoing(w1, c.w);
      items := items - {p};
    }
  }

  lemma ListedPodsGoing(w: World, w': World, items: set<PodKey>)
    requires Relied(w, w') && items == set p | p in w.pods && Owned(w.spec, w.pods[p].labels)
    requires forall p :: p in w.pods ==> (Owned(w.spec, w.pods[p].labels) <==> p.Mig?)
    ensures forall u :: MigGoing(w', u) || Mig(u) in items
  {
    forall u | Mig(u) !in items
      ensures MigGoing(w', u)
    {
      assert MigGoing(w, u);
    }
    hide Quieter, KeepsClaims, KeepsCopies, Owned;
  }

  // The temporary claims and the migrators go, then the finalizer.
  method HandleDeletion(c: Cluster, vr: VolumeResize) returns (r: Result)
    requires c.Valid() && Ending(c.w) && (c.w.vr.Some? ==> c.w.vr.value.stsDeleted == vr.stsDeleted)
    modifies c, vr
    ensures c.Valid() && Clearing(old(c.w), c.w)
    ensures c.smooth ==> old(c.smooth) && c.w.vr == None
    ensures r == NoRequeue || r == Error
    ensures r == NoRequeue ==> c.w.vr == None
    ensures !c.crashed ==>
              && c.asks != []
              && c.asks[|c.asks| - 1] == PutMeta(false, old(vr.stsDeleted), old(vr.stsBackup))
    ensures c.smooth ==> forall u :: TempGoing(c.w, u) && MigGoing(c.w, u)
  {
    hide Run, Inv, Safe, Relied, Clearing, Called, CanCall, Guard, Effect, Answer, TempGoing, MigGoing, AppGoing;
    hide MigLost, Owned;
    ghost var w0 := c.w;
    SweepClaims(c);
    ghost var w1 := c.w;
    StillEnding(w0, w1);
    SweepPods(c);
    ghost var w2 := c.w;
    ClearingTransitive(w0, w1, w2);
    ClearingGoing(w1, w2);
    StillEnding(w0, w2);
    vr.finalizer := false;
    ghost var d := vr.Value();
    MayLetGo(w0, w2, d);
    var e := Update(c, vr);
    ClearingEffect(w2, MetaCall(d), e, c.w);
    ClearingTransitive(w0, w2, c.w);
    ClearingGoing(w2, c.w);
    FinalizerGone(w2, d, e, c.w);
    r := if e == Ok then NoRequeue else Error;
  }

  // The finalizer may go once the resource is marked for deletion.
  lemma MayLetGo(w0: World, w: World, d: Vr)
    requires Clearing(w0, w) && Ending(w) && !d.finalizer
    requires w0.vr.Some? ==> w0.vr.value.stsDeleted == d.stsDeleted
    ensures w.vr.Some? ==> Guard(w, MetaCall(d))
  {
    hide RetainedKept, TempGoing, MigGoing, SameClaim;
  }

  lemma FinalizerGone(w: World, d: Vr, e: Reply, w': World)
    requires Ending(w) && !d.finalizer && Effect(w, MetaCall(d), e, w')
    ensures e == Ok || e == NotFound ==> w'.vr == None
  {
    hide KeepsPods, KeepsClaims, KeepsCopies;
  }
}
