/**
  One pass over the unit at the cursor (volumeresize_controller.go:177-428), in
  the order of the handler. v is the resource as stored; the object in memory
  may differ from it in the entry of the unit.
 */
module Syncing {
  import opened Types
  import opened Enumeration
  import opened Rewriting
  import opened Protocol
  import opened Safety
  import opened Placement
  import opened Custody
  import opened Rely
  import opened Marks
  import opened Api
  import opened Work
  import opened Resource
  import opened Updates
  import opened Pvc
  import opened StatefulSets
  import opened Migrator
  import Names

  // d is v with the entry of u edited, not its being completed or not.
  ghost predicate Drafted(v: Vr, d: Vr, u: Unit) {
    && d.(deleting := v.deleting, status := d.status.(volumeStatuses := v.status.volumeStatuses)) == v
    && SameExceptAt(v.status.volumeStatuses, d.status.volumeStatuses, u)
    && (CompletedAt(v.status.volumeStatuses, u) <==> CompletedAt(d.status.volumeStatuses, u))
  }

  // The stored resource v is syncing u.
  ghost predicate AtUnit(w: World, v: Vr, u: Unit) {
    Holds(w, v) && v.status.phase == Syncing && Cursor(v.status) == Some(u)
  }

  ghost predicate AtWork(w: World, v: Vr, u: Unit) {
    AtUnit(w, v, u) && !CompletedAt(v.status.volumeStatuses, u)
  }

  ghost predicate Settled(w: World, v: Vr, u: Unit) {
    AtUnit(w, v, u) && CompletedAt(v.status.volumeStatuses, u)
  }

  lemma AtWorkActive(w: World, v: Vr, u: Unit)
    requires AtWork(w, v, u)
    ensures Active(w, u)
  {
    hide CompletedAt;
  }

  lemma SettledCompleted(w: World, v: Vr, u: Unit)
    requires Settled(w, v, u)
    ensures AtCompleted(w) && Cursor(w.vr.value.status) == Some(u)
  {
    hide CompletedAt;
  }

  lemma FrameAtUnit(w: World, w': World, changed: set<ClaimKey>, v: Vr, u: Unit)
    requires Frame(w, w', changed) && AtUnit(w, v, u)
    ensures AtUnit(w', v, u)
  {
    hide Later, OthersKept, NoNewTemps;
  }

  // What the invariants say about the unit at the cursor.
  lemma UnitFacts(w: World, v: Vr, u: Unit)
    requires Safe(w) && AtUnit(w, v, u)
    ensures w.past.sts0.Some? && Replicas(w.past.sts0.value) > 0 && |w.spec.volumes| > 0 && DistinctNames(w.spec.volumes)
    ensures IsTarget(w.spec.volumes, u.volume) && IsUnit(w.spec.volumes, Replicas(w.past.sts0.value), u)
    ensures Keys(v.status.volumeStatuses) == Units(w.spec.volumes, Replicas(w.past.sts0.value))
  {
    hide Recoverable, FirstKept, TempsAside, MountsAside, ClaimsLabelled, PodsLabelled, TemplatesLabelled;
    hide PodShape, Truthful, Ordered, TargetsOk, Shrinks;
  }

  // The sync handler may store any edit of the current entry, or fail.
  lemma MayStore(w: World, v: Vr, st: Status, u: Unit)
    requires Safe(w) && AtUnit(w, v, u)
    requires SameExceptAt(v.status.volumeStatuses, st.volumeStatuses, u) && Cursor(st) == Some(u)
    requires st.phase == Syncing || st.phase == Failed
    requires CompletedAt(v.status.volumeStatuses, u) ==> CompletedAt(st.volumeStatuses, u)
    requires CompletedAt(st.volumeStatuses, u) && !CompletedAt(v.status.volumeStatuses, u) ==> Finish(w, u)
    ensures w.vr.Some? && Guard(w, PutStatus(st))
  {
    UnitFacts(w, v, u);
    hide Safe, Finish, CompletedAt, SameExceptAt, Next;
  }

  // setFailed, called while syncing.
  method FailUnit(c: Cluster, vr: VolumeResize, ghost v: Vr, ghost u: Unit) returns (r: Result)
    requires c.Valid() && AtUnit(c.w, v, u) && Drafted(v, vr.Value(), u)
    modifies c, vr
    ensures c.Valid() && Span(old(c.w), c.w, {}) && SameHomes(old(c.w), c.w)
    ensures SameFlags(old(c.w), c.w) && SameCursor(old(c.w), c.w)
    ensures c.w.sts == old(c.w).sts && c.w.backup == old(c.w).backup
    ensures c.smooth ==> old(c.smooth) && HasFailed(c.w)
    ensures r == NoRequeue || r == Error
    ensures Ends(r, c.w) && (c.smooth ==> r == NoRequeue)
  {
    hide Run, Inv, Safe, Guard, Span, SameHomes, CompletedAt, SameExceptAt;
    InvRun(c.start, c.log, c.w);
    SafeOf(c.w);
    MayStore(c.w, v, vr.StatusValue().(phase := Failed), u);
    r := SetFailed(c, vr);
  }

  // A pass that stops at its unit fails the resource, waits, or reports an error; it
  // does not rest before it has stored phase Failed.
  ghost predicate Ends(r: Result, w: World) {
    r != Requeue && (r == NoRequeue ==> HasFailed(w))
  }

  ghost predicate HasFailed(w: World) {
    w.vr.Some? && w.vr.value.status.phase == Failed
  }

  lemma SafeOf(w: World)
    requires Inv(w)
    ensures Safe(w)
  {
  }

  /** Lines 187-208 and 210-217: the loops at the head of the handler */

  method IsRecorded(vr: VolumeResize, u: Unit) returns (recorded: bool)
    ensures recorded <==> CompletedAt(vr.volumeStatuses, u)
  {
    for i := 0 to |vr.volumeStatuses|
      invariant forall j :: 0 <= j < i ==> !(Key(vr.volumeStatuses[j]) == u && vr.volumeStatuses[j].phase == VCompleted)
    {
      var vs := vr.volumeStatuses[i];
      if vs.volumeName == u.volume && vs.replica == u.replica && vs.phase == VCompleted {
        assert Key(vr.volumeStatuses[i]) == u;
        return true;
      }
    }
    recorded := false;
  }

  // The target of that name, or the zero value.
  method FindTarget(volumes: seq<Target>, name: string) returns (vol: Target)
    ensures IsTarget(volumes, name) ==> vol == TargetOf(volumes, name)
    ensures !IsTarget(volumes, name) ==> vol == Target("", 0, None)
  {
    vol := Target("", 0, None);
    for i := 0 to |volumes|
      invariant vol == Target("", 0, None)
      invariant forall j :: 0 <= j < i ==> volumes[j].name != name
    {
      if volumes[i].name == name {
        assert IndexOf(volumes, name) == i;
        return volumes[i];
      }
    }
  }

  /** Lines 221-256: the two claims and the old volume */

  // The class waits for a first consumer, the migrator, before it binds.
  ghost predicate Late(late: set<string>, storageClass: Option<string>) {
    storageClass.Some? && storageClass.value != "" && storageClass.value in late
  }

  // The pass need not wait for this claim.
  ghost predicate Bindable(late: set<string>, claim: Claim) {
    claim.bound || Late(late, claim.storageClass)
  }

  // The temporary claim, if there is one, is bound or of a class that binds late, and
  // not being deleted.
  ghost predicate TempReady(w: World, late: set<string>, u: Unit) {
    Temp(u) in w.claims ==> !w.claims[Temp(u)].terminating && Bindable(late, w.claims[Temp(u)])
  }

  // The temporary claim a pass reads, or creates if there is none.
  ghost predicate TempGot(w: World, spec: Spec, u: Unit, vol: Target, original: Claim, temp: Claim) {
    if Temp(u) in w.claims then temp == w.claims[Temp(u)] else NewTemp(spec, u, vol, original, temp)
  }

  ghost function TempCalls(w: World, u: Unit, temp: Claim): seq<Call> {
    if Temp(u) in w.claims then [] else [CreateClaim(Temp(u), temp)]
  }

  lemma HomeRead(w: World, u: Unit)
    requires Inv(w) && Active(w, u) && Orig(u) in w.claims
    ensures Sound(w) ==> w.claims[Orig(u)].pv.Some?
  {
    ActiveUnit(w, u);
    hide SpecOk, Recoverable, TempsAside, MountsAside, ClaimsLabelled, PodsLabelled, TemplatesLabelled;
    hide PodShape, CursorOk, Truthful;
    hide SoleTemp, Excluded, Crewed, MigAt, HomeRetained, HomeInjective, HomeRef, TempRef, HomeData, Known;
    hide GapQuiet, GapAtCursor, Backed, Sized;
  }

  // Storage work leaves the resource at its unit.
  lemma StorageAtWork(w: World, w': World, changed: set<ClaimKey>, v: Vr, u: Unit)
    requires Storage(w, w', changed)
    ensures AtWork(w, v, u) ==> AtWork(w', v, u)
    ensures Settled(w, v, u) ==> Settled(w', v, u)
    ensures Span(w, w', changed) && w'.sts == w.sts
  {
    StorageFrame(w, w', changed);
    FrameSpan(w, w', changed);
    if AtUnit(w, v, u) {
      FrameAtUnit(w, w', changed, v, u);
    }
    hide Frame, Storage, Span, AtUnit;
  }

  lemma StorageFrame(w: World, w': World, changed: set<ClaimKey>)
    requires Storage(w, w', changed)
    ensures Frame(w, w', changed)
  {
    hide Frame, KeepsPods;
  }

  // Creates or finds the temporary claim and waits for it to be bound, unless
  // its storage class binds late.
  method PrepareTemp(c: Cluster, spec: Spec, u: Unit, vol: Target, original: Claim)
    returns (e: Reply, ready: bool, ghost got: Claim)
    requires c.Valid() && spec == c.w.spec && Active(c.w, u)
    requires IsTarget(spec.volumes, u.volume) && vol == TargetOf(spec.volumes, u.volume)
    modifies c
    ensures c.Valid() && Storage(old(c.w), c.w, {Temp(u)}) && SameHomes(old(c.w), c.w)
    ensures Held(old(c.w)) && TempClear(old(c.w), u) ==> SameFlags(old(c.w), c.w)
    ensures c.smooth ==> old(c.smooth) && e == Ok
    ensures e == Ok ==> TempGot(old(c.w), spec, u, vol, original, got) && (ready ==> Bindable(c.lateClasses, got))
    ensures c.smooth ==> (ready <==> Bindable(c.lateClasses, got))
    ensures c.smooth ==> c.asks == old(c.asks) + TempCalls(old(c.w), u, got)
    ensures c.smooth && TempReady(old(c.w), c.lateClasses, u) ==> Alive(c.w, Temp(u)) && (!ready ==> NoTemp(old(c.w), u))
  {
    hide Run, Inv, Safe, Active, Storage, SameHomes, Relied, IsTarget, TargetOf, Held, TempClear, SameFlags;
    hide NewTemp;
    ghost var w0 := c.w;
    var temp;
    got := original;
    e, temp := CreateTempPVC(c, spec, u, vol, original);
    ghost var w1 := c.w;
    if e != Ok {
      ready := false;
      return;
    }
    got := temp.value;
    var waitForBinding := true;
    if temp.value.storageClass.Some? && temp.value.storageClass.value != "" {
      var err, late := c.GetBindingMode(temp.value.storageClass.value);
      StorageRelied(w1, c.w);
      AliveRelied(w1, c.w, Temp(u));
      StorageTransitive(w0, w1, c.w, {Temp(u)}, {}, {Temp(u)});
      SameHomesTransitive(w0, w1, c.w);
      SameFlagsTransitive(w0, w1, c.w);
      if err == Ok && late {
        waitForBinding := false;
      }
    }
    ready := !waitForBinding || temp.value.bound;
    NewUnbound(w0, spec, u, vol, original, got);
  }

  lemma NewUnbound(w: World, spec: Spec, u: Unit, vol: Target, original: Claim, temp: Claim)
    requires TempGot(w, spec, u, vol, original, temp)
    ensures NoTemp(w, u) ==> !temp.bound && !temp.terminating
    ensures Temp(u) in w.claims ==> temp == w.claims[Temp(u)]
  {
  }

  // How a stretch of a pass that stays on the resource v ends: it goes on at
  // the unit, or the pass stops with a result.
  ghost predicate Stretch(w0: World, w: World, changed: set<ClaimKey>) {
    Span(w0, w, changed) && SameHomes(w0, w) && SameCursor(w0, w)
  }

  lemma StorageStretch(w: World, w': World, changed: set<ClaimKey>)
    requires Storage(w, w', changed) && SameHomes(w, w')
    ensures Stretch(w, w', changed)
  {
    StorageFrame(w, w', changed);
    FrameSpan(w, w', changed);
    FrameCursor(w, w', changed);
    hide Frame, Storage, Span, SameHomes, SameCursor;
  }

  lemma FrameCursor(w: World, w': World, changed: set<ClaimKey>)
    requires Frame(w, w', changed)
    ensures SameCursor(w, w')
  {
    hide Later, OthersKept, NoNewTemps, NoneReturned;
  }

  lemma StretchTransitive(w: World, w': World, w'': World, a: set<ClaimKey>, b: set<ClaimKey>, changed: set<ClaimKey>)
    requires Stretch(w, w', a) && Stretch(w', w'', b) && a <= changed && b <= changed
    ensures Stretch(w, w'', changed)
  {
    SpanTransitive(w, w', w'', a, b, changed);
    hide Span;
  }

  lemma StretchMeans(w: World, w': World, changed: set<ClaimKey>)
    requires Stretch(w, w', changed)
    ensures w'.spec == w.spec && w'.past == w.past && w'.book.home == w.book.home && (Sound(w') ==> Sound(w))
    ensures (w'.book.h1 ==> w.book.h1) && (w'.book.h2 ==> w.book.h2) && (w'.book.h4 ==> w.book.h4)
    ensures forall u :: OldSafe(w, u) ==> OldSafe(w', u)
    ensures forall k :: Alive(w, k) && k !in changed ==> Alive(w', k)
    ensures forall u :: MissingIf(w, u) && Orig(u) !in changed ==> MissingIf(w', u)
  {
    hide Retained, Sound, Undeleted, MissingIf;
  }

  lemma StretchSound(w: World, w': World, changed: set<ClaimKey>)
    requires Stretch(w, w', changed)
    ensures Sound(w') ==> Sound(w)
  {
    hide RetainedKept, Sound, Undeleted, OthersKept, NoNewTemps, NoneReturned;
  }

  // The temporary claim is there and may be bound, or the pass stops to wait for it.
  method AwaitTemp(c: Cluster, vr: VolumeResize, u: Unit, vol: Target, original: Claim, ghost v: Vr)
    returns (stop: Option<Result>, ghost got: Claim)
    requires c.Valid() && vr.spec == c.w.spec && AtWork(c.w, v, u) && Drafted(v, vr.Value(), u)
    requires IsTarget(vr.spec.volumes, u.volume) && vol == TargetOf(vr.spec.volumes, u.volume)
    modifies c, vr
    ensures c.Valid() && Stretch(old(c.w), c.w, {Temp(u)}) && c.w.sts == old(c.w).sts
    ensures Held(old(c.w)) && TempClear(old(c.w), u) ==> SameFlags(old(c.w), c.w)
    ensures stop == None ==> AtWork(c.w, v, u) && vr.Value() == old(vr.Value())
    ensures stop == None ==> Storage(old(c.w), c.w, {Temp(u)}) && SameHomes(old(c.w), c.w)
    ensures stop.Some? ==> Ends(stop.value, c.w)
    ensures c.smooth ==> old(c.smooth) && AtWork(c.w, v, u)
    ensures stop == None ==> TempGot(old(c.w), vr.spec, u, vol, original, got) && Bindable(c.lateClasses, got)
    ensures c.smooth ==> TempGot(old(c.w), vr.spec, u, vol, original, got)
    ensures c.smooth ==> stop == if Bindable(c.lateClasses, got) then None else Some(RequeueAfter(5))
    ensures c.smooth ==> c.asks == old(c.asks) + TempCalls(old(c.w), u, got)
    ensures c.smooth && TempReady(old(c.w), c.lateClasses, u) ==>
              Alive(c.w, Temp(u)) && (stop.Some? ==> NoTemp(old(c.w), u))
  {
    hide Run, Active, Storage, SameHomes, IsTarget, TargetOf, Drafted, AtUnit, AtWork, Stretch;
    hide CompletedAt, TempReady, Span, Held, TempClear, Alive, NoTemp, SameFlags, TempGot, TempCalls, Bindable;
    ghost var w0 := c.w;
    AtWorkActive(w0, v, u);
    var e, ready;
    e, ready, got := PrepareTemp(c, vr.spec, u, vol, original);
    ghost var w1 := c.w;
    StorageAtWork(w0, w1, {Temp(u)}, v, u);
    StorageStretch(w0, w1, {Temp(u)});
    if e != Ok {
      var r := FailWork(c, vr, v, u);
      StretchTransitive(w0, w1, c.w, {Temp(u)}, {}, {Temp(u)});
      SameFlagsTransitive(w0, w1, c.w);
      return Some(r), got;
    }
    stop := if ready then None else Some(RequeueAfter(5));
  }

  // The calls up to here: the temporary claim, the Retain policy of the old volume.
  ghost predicate Preparing(u: Unit, oldPv: PvName, calls: seq<Call>) {
    exists temp, keep :: PreparingCalls(u, temp, oldPv, keep) == calls
  }

  ghost function PreparingCalls(u: Unit, temp: Option<Claim>, oldPv: PvName, keep: bool): seq<Call> {
    (if temp.Some? then [CreateClaim(Temp(u), temp.value)] else []) + (if keep then [RetainPv(oldPv)] else [])
  }

  lemma PreparingMade(w: World, u: Unit, temp: Claim, oldPv: PvName, calls: seq<Call>)
    requires calls == [] || calls == [RetainPv(oldPv)]
    ensures Preparing(u, oldPv, TempCalls(w, u, temp) + calls)
  {
    var made := if Temp(u) in w.claims then None else Some(temp);
    assert PreparingCalls(u, made, oldPv, calls != []) == TempCalls(w, u, temp) + calls;
  }

  // The same from the claim that was read.
  method PrepareCopy(c: Cluster, vr: VolumeResize, u: Unit, vol: Target, original: Claim, ghost v: Vr)
    returns (stop: Option<Result>, oldPv: PvName, ghost calls: seq<Call>)
    requires c.Valid() && vr.spec == c.w.spec && AtWork(c.w, v, u) && Drafted(v, vr.Value(), u)
    requires IsTarget(vr.spec.volumes, u.volume) && vol == TargetOf(vr.spec.volumes, u.volume)
    requires OldClaim(c.w, u, original)
    modifies c, vr
    ensures c.Valid() && Stretch(old(c.w), c.w, {Temp(u)}) && c.w.sts == old(c.w).sts
    ensures Held(old(c.w)) && TempClear(old(c.w), u) ==> SameFlags(old(c.w), c.w)
    ensures stop == None ==> AtWork(c.w, v, u) && OldSafe(c.w, u) && vr.Value() == old(vr.Value())
    ensures stop == None ==> original.pv == Some(oldPv)
    ensures stop.Some? ==> Ends(stop.value, c.w)
    ensures c.smooth ==> old(c.smooth) && (stop.Some? ==> stop.value != Error && (HasFailed(c.w) || AtWork(c.w, v, u)))
    ensures c.smooth && stop == None ==> c.asks == old(c.asks) + calls && Preparing(u, oldPv, calls)
    ensures c.smooth && stop == None && TempReady(old(c.w), c.lateClasses, u) ==> Alive(c.w, Temp(u))
    ensures c.smooth && Sound(c.w) && TempReady(old(c.w), c.lateClasses, u) && stop.Some? ==>
              AtWork(c.w, v, u) && NoTemp(old(c.w), u) && Alive(c.w, Temp(u))
  {
    hide Run, Storage, SameHomes, IsTarget, TargetOf, Drafted, AtUnit, AtWork, Stretch, OldClaim, OldSafe;
    hide CompletedAt, Sound, TempReady, Span, Held, HasFailed, TempClear, SameFlags, NoTemp;
    hide TempCalls, TempGot, Bindable, Preparing;
    oldPv, calls := "", [];
    ghost var w0, got := c.w, original;
    stop, got := AwaitTemp(c, vr, u, vol, original, v);
    ghost var w1 := c.w;
    if stop.Some? {
      return;
    }
    OldClaimKept(w0, w1, {Temp(u)}, u, original);
    stop, oldPv, calls := RetainOld(c, vr, u, original, v);
    StretchTransitive(w0, w1, c.w, {Temp(u)}, {}, {Temp(u)});
    SameFlagsTransitive(w0, w1, c.w);
    StretchAlive(w1, c.w, Temp(u));
    PreparingMade(w0, u, got, oldPv, calls);
    calls := TempCalls(w0, u, got) + calls;
  }

  // Both claims exist, the temporary one may be bound, the old volume is retained.
  method PrepareClaims(c: Cluster, vr: VolumeResize, u: Unit, vol: Target, ghost v: Vr)
    returns (stop: Option<Result>, oldPv: PvName, ghost calls: seq<Call>)
    requires c.Valid() && vr.spec == c.w.spec && AtWork(c.w, v, u) && Drafted(v, vr.Value(), u)
    requires IsTarget(vr.spec.volumes, u.volume) && vol == TargetOf(vr.spec.volumes, u.volume)
    modifies c, vr
    ensures c.Valid() && Stretch(old(c.w), c.w, {Temp(u)}) && c.w.sts == old(c.w).sts
    ensures Held(old(c.w)) && TempClear(old(c.w), u) ==> SameFlags(old(c.w), c.w)
    ensures stop == None ==> AtWork(c.w, v, u) && OldSafe(c.w, u) && vr.Value() == old(vr.Value())
    ensures stop == None ==> Orig(u) in old(c.w).claims && old(c.w).claims[Orig(u)].pv == Some(oldPv)
    ensures stop.Some? ==> Ends(stop.value, c.w)
    ensures c.smooth ==> old(c.smooth) && (stop.Some? ==> stop.value != Error)
    ensures c.smooth && stop == None ==> c.asks == old(c.asks) + calls && Preparing(u, oldPv, calls)
    ensures c.smooth && stop == None && TempReady(old(c.w), c.lateClasses, u) ==> Alive(c.w, Temp(u))
    ensures c.smooth && NameFree(old(c.w), u) ==> stop.Some? && HasFailed(c.w)
    ensures c.smooth && stop.Some? ==> HasFailed(c.w) || AtWork(c.w, v, u)
    ensures c.smooth && Sound(c.w) && Alive(old(c.w), Orig(u)) && TempReady(old(c.w), c.lateClasses, u) && stop.Some? ==>
              AtWork(c.w, v, u) && NoTemp(old(c.w), u) && Alive(c.w, Temp(u))
  {
    hide Run, Inv, Storage, SameHomes, Relied, IsTarget, TargetOf, Drafted, AtUnit, AtWork, Stretch, OldClaim, OldSafe;
    hide CompletedAt, Sound, NameFree, TempReady, Span, Held, HasFailed, MissingIf, TempClear, SameFlags, NoTemp;
    hide TempCalls, TempGot, Bindable, Preparing, Ends, Retained, AsTargeted, NewTemp, Effect;
    oldPv, calls := "", [];
    ghost var w0 := c.w;
    InvRun(c.start, c.log, w0);
    var e, original := c.GetClaim(Orig(u));
    ghost var w1 := c.w;
    ClaimsRead(w0, w1, v, u, c.lateClasses);
    if e != Ok {
      var r := FailWork(c, vr, v, u);
      StretchTransitive(w0, w1, c.w, {}, {}, {Temp(u)});
      SameFlagsTransitive(w0, w1, c.w);
      return Some(r), oldPv, calls;
    }
    OriginalTaken(w0, u);
    OldClaimRead(w0, v, u);
    OldClaimKept(w0, w1, {}, u, original.value);
    stop, oldPv, calls := PrepareCopy(c, vr, u, vol, original.value, v);
    StretchTransitive(w0, w1, c.w, {}, {Temp(u)}, {Temp(u)});
    SameFlagsTransitive(w0, w1, c.w);
  }

  lemma StretchAlive(w: World, w': World, k: ClaimKey)
    requires Stretch(w, w', {})
    ensures Alive(w, k) ==> Alive(w', k)
  {
    hide Later;
  }

  // What a pass knows of the claim it read: the volume it names is the unit's.
  ghost predicate OldClaim(w: World, u: Unit, original: Claim) {
    if original.pv.Some? then OldPv(w, u, original.pv.value) else !Sound(w)
  }

  lemma OldClaimRead(w: World, v: Vr, u: Unit)
    requires Inv(w) && AtWork(w, v, u) && Orig(u) in w.claims
    ensures OldClaim(w, u, w.claims[Orig(u)])
  {
    AtWorkActive(w, v, u);
    hide Inv, Active, AtWork, Sound, OldPv;
    HomeRead(w, u);
    if w.claims[Orig(u)].pv.Some? {
      OldPvRead(w, u);
    }
  }

  lemma OldClaimKept(w: World, w': World, changed: set<ClaimKey>, u: Unit, original: Claim)
    requires OldClaim(w, u, original) && Storage(w, w', changed) && SameHomes(w, w')
    ensures OldClaim(w', u, original)
  {
    StorageMeans(w, w', changed);
    if original.pv.Some? {
      OldPvStorage(w, w', changed, u, original.pv.value);
    }
    hide Storage, SameHomes, Sound, OldPv;
  }

  // The claim was read, and the world went on.
  lemma ClaimsRead(w: World, w': World, v: Vr, u: Unit, late: set<string>)
    requires AtWork(w, v, u) && Relied(w, w')
    ensures AtWork(w', v, u) && Stretch(w, w', {}) && Storage(w, w', {}) && SameHomes(w, w') && SameFlags(w, w')
    ensures w'.spec == w.spec && w'.sts == w.sts
    ensures (Held(w) ==> Held(w')) && (TempClear(w, u) ==> TempClear(w', u))
    ensures TempReady(w, late, u) ==> TempReady(w', late, u) && (NoTemp(w', u) ==> NoTemp(w, u))
    ensures Alive(w, Orig(u)) ==> Orig(u) in w.claims
  {
    StorageRelied(w, w');
    HeldRelied(w, w');
    ClearRelied(w, w', u);
    ReadyTempRelied(w, w', late, u);
    StorageAtWork(w, w', {}, v, u);
    StorageStretch(w, w', {});
    hide Relied, Storage, SameHomes, SameFlags, Stretch, AtWork, Held, TempClear, TempReady;
  }

  // Lines 248-256: the volume of the original claim is retained.
  method RetainOld(c: Cluster, vr: VolumeResize, u: Unit, original: Claim, ghost v: Vr)
    returns (stop: Option<Result>, oldPv: PvName, ghost calls: seq<Call>)
    requires c.Valid() && AtWork(c.w, v, u) && Drafted(v, vr.Value(), u) && OldClaim(c.w, u, original)
    modifies c, vr
    ensures c.Valid() && Stretch(old(c.w), c.w, {}) && SameFlags(old(c.w), c.w) && c.w.sts == old(c.w).sts
    ensures stop == None ==> AtWork(c.w, v, u) && OldSafe(c.w, u) && vr.Value() == old(vr.Value())
    ensures stop == None ==> original.pv == Some(oldPv)
    ensures stop.Some? ==> Ends(stop.value, c.w)
    ensures c.smooth ==> old(c.smooth) && (stop.Some? ==> HasFailed(c.w) && stop == Some(NoRequeue))
    ensures c.smooth && Sound(c.w) ==> stop == None
    ensures calls == [] || calls == [RetainPv(oldPv)]
    ensures c.smooth && stop == None ==> c.asks == old(c.asks) + calls
    ensures c.smooth && stop == None && !Retained(old(c.w), oldPv) ==> calls != []
  {
    hide Run, Storage, SameHomes, Drafted, AtUnit, AtWork, Stretch, OldPv, OldSafe, CompletedAt, Sound, Span;
    hide HasFailed, SameFlags, Retained;
    oldPv, calls := "", [];
    ghost var w0 := c.w;
    if original.pv == None {
      var r := FailWork(c, vr, v, u);
      StretchSound(w0, c.w, {});
      return Some(r), oldPv, calls;
    }
    oldPv := original.pv.value;
    calls := if Retained(w0, oldPv) then [] else [RetainPv(oldPv)];
    var e := SetRetainOnPV(c, oldPv, u);
    ghost var w1 := c.w;
    StorageAtWork(w0, w1, {}, v, u);
    StorageStretch(w0, w1, {});
    OldPvStorage(w0, w1, {}, u, oldPv);
    OldPvHome(w0, w1, u, oldPv);
    if e != Ok {
      var r := FailWork(c, vr, v, u);
      StretchSound(w1, c.w, {});
      StretchTransitive(w0, w1, c.w, {}, {}, {});
      SameFlagsTransitive(w0, w1, c.w);
      return Some(r), oldPv, calls;
    }
    OldPvRetained(w1, u, oldPv);
    stop := None;
  }

  lemma OriginalTaken(w: World, u: Unit)
    requires Orig(u) in w.claims
    ensures !NameFree(w, u)
  {
  }

  lemma ReadyTempRelied(w: World, w': World, late: set<string>, u: Unit)
    requires Relied(w, w')
    ensures TempReady(w, late, u) ==> TempReady(w', late, u) && (NoTemp(w', u) ==> NoTemp(w, u))
  {
    hide Quieter, KeepsPods, KeepsCopies;
    assert NoTemp(w, u) ==> NoTemp(w', u);
  }

  lemma OldPvStorage(w: World, w': World, changed: set<ClaimKey>, u: Unit, n: PvName)
    requires OldPv(w, u, n) && Storage(w, w', changed) && SameHomes(w, w')
    ensures OldPv(w', u, n)
  {
    StorageOnward(w, w', changed);
    OldPvKept(w, w', u, n);
  }

  lemma OldPvHome(w: World, w': World, u: Unit, n: PvName)
    requires OldPv(w, u, n) && Storage(w, w', {}) && SameHomes(w, w')
    ensures Sound(w') ==> u in w.book.home && w.book.home[u] == n
  {
    StorageMeans(w, w', {});
    hide Storage, Retained;
  }

  // setFailed while the unit is not yet done.
  method FailWork(c: Cluster, vr: VolumeResize, ghost v: Vr, ghost u: Unit) returns (r: Result)
    requires c.Valid() && AtWork(c.w, v, u) && Drafted(v, vr.Value(), u)
    modifies c, vr
    ensures c.Valid() && Stretch(old(c.w), c.w, {})
    ensures SameFlags(old(c.w), c.w)
    ensures c.w.sts == old(c.w).sts && c.w.backup == old(c.w).backup
    ensures c.smooth ==> old(c.smooth) && HasFailed(c.w) && r == NoRequeue
    ensures Ends(r, c.w) && (r == NoRequeue || r == Error)
  {
    hide Run, Drafted, AtUnit, Span, SameHomes;
    r := FailUnit(c, vr, v, u);
  }

  /** Lines 258-301: backup and orphan deletion of the StatefulSet */

  lemma FrameStretch(w: World, w': World, changed: set<ClaimKey>)
    requires Frame(w, w', changed) && SameHomes(w, w')
    ensures Stretch(w, w', changed)
  {
    FrameSpan(w, w', changed);
    FrameCursor(w, w', changed);
    hide Frame, Span, SameHomes, SameCursor;
  }

  lemma FrameAtWork(w: World, w': World, changed: set<ClaimKey>, v: Vr, u: Unit)
    requires Frame(w, w', changed)
    ensures AtWork(w, v, u) ==> AtWork(w', v, u)
    ensures Settled(w, v, u) ==> Settled(w', v, u)
  {
    if AtUnit(w, v, u) {
      FrameAtUnit(w, w', changed, v, u);
    }
    hide Frame, AtUnit;
  }

  lemma StretchIdle(w: World)
    ensures Stretch(w, w, {})
  {
    FrameIdle(w);
    FrameSpan(w, w, {});
    hide Span, Frame;
  }

  // The resource once the deletion of the StatefulSet is noted.
  function NotedDeleted(v: Vr, backup: string): Vr {
    v.(stsDeleted := true, stsBackup := Some(backup), status := v.status.(backupName := backup))
  }

  ghost function NotingCalls(v: Vr): seq<Call> {
    [PutMeta(v.finalizer, v.stsDeleted, v.stsBackup), PutStatus(v.status)]
  }

  // The two updates after the deletion. The first one drops the entry edited in
  // memory: it is the stored status that gets the backup name.
  method RecordDeletion(c: Cluster, vr: VolumeResize, ghost v: Vr, ghost u: Unit) returns (e: Reply, ghost v': Vr)
    requires c.Valid() && AtWork(c.w, v, u) && Drafted(v, vr.Value(), u) && c.w.sts == None
    modifies c, vr
    ensures c.Valid() && Stretch(old(c.w), c.w, {}) && c.w.sts == old(c.w).sts && c.w.backup == old(c.w).backup
    ensures SameFlags(old(c.w), c.w)
    ensures e == Ok ==> AtUnit(c.w, v', u) && Drafted(v', vr.Value(), u)
    ensures e == Ok ==> v' == NotedDeleted(v, Names.BackupName(vr.spec.vrName))
    ensures e == Ok ==> vr.volumeStatuses == v.status.volumeStatuses
    ensures c.smooth ==> old(c.smooth) && e == Ok
    ensures c.smooth ==> c.asks == old(c.asks) + NotingCalls(v')
  {
    hide Run, Inv, Safe, Effect, Answer, Guard, Holds, SameExceptAt, CompletedAt, Span, SameHomes, KeepsPods;
    hide SameFlags, SameCursor;
    var backupName := Names.BackupName(vr.spec.vrName);
    vr.stsDeleted, vr.stsBackup := true, Some(backupName);
    ghost var w0, d := c.w, vr.Value();
    MayNote(w0, v, d, u);
    e := Update(c, vr);
    ghost var w1 := c.w;
    ResourceEffect(w0, MetaCall(d), e, w1);
    MetaHeld(w0, v, d, e, w1);
    v' := v.(stsDeleted := true, stsBackup := Some(backupName));
    if e != Ok {
      return;
    }
    assert vr.Value().(deleting := v.deleting) == v';
    MarkedAtUnit(w1, v, v', u);
    e, v' := NoteBackup(c, vr, v', u, backupName);
    StretchTransitive(w0, w1, c.w, {}, {}, {});
    SameFlagsTransitive(w0, w1, c.w);
  }

  lemma MarkedAtUnit(w: World, v: Vr, v': Vr, u: Unit)
    requires Holds(w, v') && v' == v.(stsDeleted := v'.stsDeleted, stsBackup := v'.stsBackup)
    requires v.status.phase == Syncing && Cursor(v.status) == Some(u)
    ensures AtUnit(w, v', u)
  {
  }

  // The stored status, which memory holds since the update before, gets the name.
  method NoteBackup(c: Cluster, vr: VolumeResize, ghost v: Vr, ghost u: Unit, backupName: string)
    returns (e: Reply, ghost v': Vr)
    requires c.Valid() && AtUnit(c.w, v, u) && vr.Value().(deleting := v.deleting) == v
    modifies c, vr
    ensures c.Valid() && Stretch(old(c.w), c.w, {}) && c.w.sts == old(c.w).sts && c.w.backup == old(c.w).backup
    ensures SameFlags(old(c.w), c.w)
    ensures v' == v.(status := v.status.(backupName := backupName))
    ensures e == Ok ==> AtUnit(c.w, v', u) && Drafted(v', vr.Value(), u)
    ensures e == Ok ==> vr.volumeStatuses == v.status.volumeStatuses
    ensures c.smooth ==> old(c.smooth) && e == Ok && c.asks == old(c.asks) + [PutStatus(v'.status)]
  {
    hide Run, Inv, Safe, Effect, Answer, Guard, Holds, SameExceptAt, CompletedAt, Span, SameHomes, KeepsPods;
    hide SameFlags, SameCursor;
    ghost var w0 := c.w;
    vr.backupName := backupName;
    ghost var st := vr.StatusValue();
    InvRun(c.start, c.log, w0);
    SafeOf(w0);
    MayStoreSame(w0, v, st, u);
    CursorStands(w0, v, u, st);
    ghost var d := vr.Value();
    e := UpdateStatus(c, vr);
    ResourceEffect(w0, PutStatus(st), e, c.w);
    StatusHeld(w0, v, st, e, d, c.w);
    v' := v.(status := st);
    if e == Ok {
      DraftedSame(v', vr.Value(), u);
    }
  }

  // The annotation may be set once the StatefulSet is gone.
  lemma MayNote(w: World, v: Vr, d: Vr, u: Unit)
    requires AtWork(w, v, u) && w.sts == None && d.finalizer == v.finalizer
    ensures w.vr.Some? && v.finalizer && Guard(w, MetaCall(d))
  {
    AtWorkActive(w, v, u);
    hide CompletedAt;
  }

  // A status write that keeps the unit is no move of the cursor.
  lemma CursorStands(w: World, v: Vr, u: Unit, st: Status)
    requires AtUnit(w, v, u) && Cursor(st) == Some(u)
    ensures Faithful(w, PutStatus(st)) && CursorKept(w, PutStatus(st))
  {
  }

  lemma UnitStored(w: World, v: Vr, u: Unit)
    requires AtUnit(w, v, u)
    ensures w.vr.Some? && v.finalizer
  {
  }

  lemma MayStoreSame(w: World, v: Vr, st: Status, u: Unit)
    requires Safe(w) && AtUnit(w, v, u)
    requires st.volumeStatuses == v.status.volumeStatuses && Cursor(st) == Some(u) && st.phase == Syncing
    ensures w.vr.Some? && Guard(w, PutStatus(st))
  {
    MayStore(w, v, st, u);
  }

  lemma DraftedSame(v: Vr, d: Vr, u: Unit)
    requires d.(deleting := v.deleting) == v
    ensures Drafted(v, d, u)
  {
  }

  // The backup to be made, if there is none yet.
  ghost function NewBackup(w: World): Option<Sts> {
    if w.backup.Some? then None else w.sts
  }

  // Backup, orphan deletion, and the two updates that note it.
  ghost function DownCalls(backup: Option<Sts>, v: Vr): seq<Call> {
    (if backup.Some? then [CreateBackup(backup.value)] else []) + [DeleteSts] + NotingCalls(v)
  }

  // The StatefulSet that was read is backed up and deleted, and that is noted.
  method TakeDownLiving(c: Cluster, vr: VolumeResize, u: Unit, sts: Sts, ghost v: Vr)
    returns (stop: Option<Result>, ghost v': Vr)
    requires c.Valid() && AtWork(c.w, v, u) && Drafted(v, vr.Value(), u) && c.w.sts == Some(sts)
    modifies c, vr
    ensures c.Valid() && Stretch(old(c.w), c.w, {}) && SameFlags(old(c.w), c.w)
    ensures stop == None ==> AtWork(c.w, v', u) && Drafted(v', vr.Value(), u) && c.w.sts == None
    ensures stop == None ==> v' == NotedDeleted(v, Names.BackupName(vr.spec.vrName))
    ensures stop == None ==> vr.volumeStatuses == v.status.volumeStatuses
    ensures stop.Some? ==> Ends(stop.value, c.w)
    ensures c.smooth ==> old(c.smooth) && stop == None
    ensures c.smooth ==> c.asks == old(c.asks) + DownCalls(NewBackup(old(c.w)), v')
  {
    hide Run, Frame, SameHomes, Drafted, AtUnit, Stretch, CompletedAt, SameFlags, Active, Later;
    v' := v;
    ghost var w0 := c.w;
    AtWorkActive(w0, v, u);
    var e := BackupSTSToConfigMap(c, sts, u);
    ghost var w1 := c.w;
    FrameAtWork(w0, w1, {}, v, u);
    FrameStretch(w0, w1, {});
    if e != Ok {
      var r := FailWork(c, vr, v, u);
      StretchTransitive(w0, w1, c.w, {}, {}, {});
      SameFlagsTransitive(w0, w1, c.w);
      return Some(r), v';
    }
    AtWorkActive(w1, v, u);
    e := DeleteSTSOrphan(c, u);
    ghost var w2 := c.w;
    FrameAtWork(w1, w2, {}, v, u);
    FrameStretch(w1, w2, {});
    StretchTransitive(w0, w1, w2, {}, {}, {});
    SameFlagsTransitive(w0, w1, w2);
    if e != Ok {
      var r := FailWork(c, vr, v, u);
      StretchTransitive(w0, w2, c.w, {}, {}, {});
      SameFlagsTransitive(w0, w2, c.w);
      return Some(r), v';
    }
    e, v' := RecordDeletion(c, vr, v, u);
    StretchTransitive(w0, w2, c.w, {}, {}, {});
    SameFlagsTransitive(w0, w2, c.w);
    stop := if e == Ok then None else Some(Error);
  }

  // Unless it is marked as deleted, the StatefulSet is backed up and deleted.
  method TakeDownStatefulSet(c: Cluster, vr: VolumeResize, u: Unit, ghost v: Vr)
    returns (stop: Option<Result>, ghost v': Vr)
    requires c.Valid() && AtWork(c.w, v, u) && Drafted(v, vr.Value(), u)
    modifies c, vr
    ensures c.Valid() && Stretch(old(c.w), c.w, {})
    ensures SameFlags(old(c.w), c.w)
    ensures stop == None ==> AtWork(c.w, v', u) && Drafted(v', vr.Value(), u)
    ensures stop.Some? ==> Ends(stop.value, c.w)
    ensures c.smooth ==> old(c.smooth) && stop == None
    ensures old(vr.stsDeleted) ==> stop == None && v' == v && c.w == old(c.w)
    ensures stop == None ==>
              vr.volumeStatuses == if v' == v then old(vr.volumeStatuses) else v.status.volumeStatuses
    ensures stop == None && v' != v ==> !v.stsDeleted && v'.stsDeleted && old(c.w).sts.Some?
    ensures c.smooth ==> c.asks == old(c.asks) + if v' == v then [] else DownCalls(NewBackup(old(c.w)), v')
    ensures stop == None && (old(vr.stsDeleted) ==> old(c.w).sts == None) ==> c.w.sts == None
    ensures stop == None && c.w.book.h4 ==> c.w.sts == None
    ensures stop == None ==> v' == v || v' == NotedDeleted(v, Names.BackupName(vr.spec.vrName))
    ensures stop == None && !old(vr.stsDeleted) && old(c.w).sts.Some? ==> v' != v || v.stsDeleted
  {
    hide Run, Relied, Frame, SameHomes, Drafted, Stretch, AtWork, Noted, Passed, Behind, SameFlags, DownCalls;
    v' := v;
    ghost var w0 := c.w;
    StretchIdle(w0);
    FlagsIdle(w0);
    MarksRun(c.start, c.log, w0);
    MarkTrusted(w0, v, vr.Value(), u);
    stop := None;
    if !vr.stsDeleted {
      var e, sts := c.GetSts();
      ghost var w1 := c.w;
      StsRead(w0, w1, v, u);
      if e != Ok && e != NotFound {
        return Some(Error), v';
      }
      if e == Ok {
        stop, v' := TakeDownLiving(c, vr, u, sts.value, v);
        StretchTransitive(w0, w1, c.w, {}, {}, {});
        SameFlagsTransitive(w0, w1, c.w);
      }
    }
  }

  lemma FlagsIdle(w: World)
    ensures SameFlags(w, w)
  {
  }

  // The StatefulSet was read, and the world went on.
  lemma StsRead(w: World, w': World, v: Vr, u: Unit)
    requires AtWork(w, v, u) && Relied(w, w')
    ensures AtWork(w', v, u) && Stretch(w, w', {}) && SameFlags(w, w')
    ensures w'.sts == w.sts && w'.backup == w.backup && (w'.book.h4 ==> w.book.h4)
  {
    FrameRelied(w, w');
    ReliedSts(w, w');
    FrameAtWork(w, w', {}, v, u);
    FrameStretch(w, w', {});
    hide Relied, Frame, Stretch, AtWork, SameHomes;
  }

  // Under h4 the annotation in memory tells the truth while the unit is not done.
  lemma MarkTrusted(w: World, v: Vr, d: Vr, u: Unit)
    requires Noted(w) && AtWork(w, v, u) && Drafted(v, d, u)
    ensures w.book.h4 && d.stsDeleted ==> w.sts == None
    ensures d.stsDeleted == v.stsDeleted
  {
    hide SameExceptAt, CompletedAt;
  }

  /** Lines 303-315: the pod of the replica */

  // With no StatefulSet the pod, once gone, stays gone.
  method ClearPod(c: Cluster, u: Unit, ghost v: Vr) returns (stop: Option<Result>)
    requires c.Valid() && AtWork(c.w, v, u) && (c.w.book.h4 ==> c.w.sts == None)
    modifies c
    ensures c.Valid() && Stretch(old(c.w), c.w, {})
    ensures stop == None ==> AtWork(c.w, v, u) && (c.w.book.h4 ==> Quiet(c.w, u.replica))
    ensures stop.Some? ==> stop == Some(RequeueAfter(5))
    ensures c.smooth ==> old(c.smooth) && stop == None
    ensures SameFlags(old(c.w), c.w)
    ensures c.smooth ==> c.asks == old(c.asks) + [DeletePod(App(u.replica))]
    ensures old(c.log) <= c.log
    ensures c.smooth && App(u.replica) in old(c.w).pods ==> Op(DeletePod(App(u.replica))) in c.log[|old(c.log)|..]
  {
    hide Run, Relied, Storage, SameHomes, AtUnit, AtWork, Stretch, CompletedAt, Quiet, Sound;
    ghost var w0, before := c.w, c.log;
    var e := DeletePodOf(c, u.replica);
    ghost var w1, made := c.w, c.log;
    StorageAtWork(w0, w1, {}, v, u);
    StorageStretch(w0, w1, {});
    StorageMeans(w0, w1, {});
    e := WaitForPodTermination(c, u.replica);
    StorageRelied(w1, c.w);
    StorageAtWork(w1, c.w, {}, v, u);
    StorageStretch(w1, c.w, {});
    StorageMeans(w1, c.w, {});
    StretchTransitive(w0, w1, c.w, {}, {}, {});
    LogGrows(before, made, c.log, Op(DeletePod(App(u.replica))));
    stop := if e == Ok then None else Some(RequeueAfter(5));
  }

  lemma LogGrows(a: seq<Action>, b: seq<Action>, c: seq<Action>, x: Action)
    requires a <= b <= c
    ensures x in b[|a|..] ==> x in c[|a|..]
  {
    assert b[|a|..] <= c[|a|..];
  }

  lemma MayMark(w: World, u: Unit)
    ensures Guard(w, FallThrough(u)) && CanCall(w, FallThrough(u))
  {
  }

  lemma MarkIdle(w: World, u: Unit)
    ensures Storage(w, Called(w, FallThrough(u)), {}) && SameHomes(w, Called(w, FallThrough(u)))
  {
    assert CanCall(w, FallThrough(u));
    StorageCalled(w, FallThrough(u));
    CalledHomes(w, FallThrough(u));
    hide Storage;
  }

  /** Lines 317-342: the copy */

  // What the swap needs, and what completing the unit needs of the migrator.
  ghost predicate Copied(w: World, u: Unit, copy: Option<PvName>) {
    && ReadyIf(w, u, copy)
    && (w.book.h4 ==> Quiet(w, u.replica))
    && (w.book.h2 && w.book.h4 ==> Done(w, u))
  }

  // The migrator ran. Going on without having seen it succeed is recorded.
  method Migrate(c: Cluster, vr: VolumeResize, u: Unit, ghost v: Vr)
    returns (stop: Option<Result>, ghost copy: Option<PvName>)
    requires c.Valid() && vr.spec == c.w.spec && AtWork(c.w, v, u) && Drafted(v, vr.Value(), u)
    requires c.w.book.h4 ==> Quiet(c.w, u.replica)
    modifies c, vr
    ensures c.Valid() && Stretch(old(c.w), c.w, {})
    ensures stop == None ==> AtWork(c.w, v, u) && Copied(c.w, u, copy) && vr.Value() == old(vr.Value())
    ensures stop.Some? ==> Ends(stop.value, c.w)
    ensures c.smooth ==> old(c.smooth) && stop == None
    ensures c.smooth ==> SameFlags(old(c.w), c.w)
    ensures c.smooth ==> c.asks == old(c.asks) + Creation(old(c.w), vr.spec, u)
  {
    hide Run, Relied, Storage, Frame, SameHomes, AtUnit, AtWork, Stretch, CompletedAt, Called, CanCall, Quiet;
    hide Done, Drafted;
    hide ReadyIf, Active;
    copy := None;
    ghost var w0 := c.w;
    AtWorkActive(w0, v, u);
    var e := CreateMigratorPod(c, vr.spec, u);
    ghost var w1 := c.w;
    FrameAtWork(w0, w1, {}, v, u);
    FrameStretch(w0, w1, {});
    if e != Ok {
      var r := FailWork(c, vr, v, u);
      StretchTransitive(w0, w1, c.w, {}, {}, {});
      return Some(r), copy;
    }
    AtWorkActive(w1, v, u);
    e, copy := WaitForMigrationComplete(c, u);
    ghost var w2 := c.w;
    StorageRelied(w1, w2);
    StorageAtWork(w1, w2, {}, v, u);
    StorageStretch(w1, w2, {});
    StorageMeans(w1, w2, {});
    StretchTransitive(w0, w1, w2, {}, {}, {});
    QuietRelied(w1, w2, u);
    if e != Ok {
      ghost var seen;
      stop, copy, seen := AfterFailedWait(c, vr, u, v);
      StretchTransitive(w0, w2, c.w, {}, {}, {});
    } else {
      stop := None;
    }
  }

  ghost function PhaseOf(w: World, u: Unit): Option<PodPhase> {
    if Mig(u) in w.pods then Some(w.pods[Mig(u)].phase) else None
  }

  // The migrator was not seen to succeed in time: the pod is read once more. A pod
  // that runs, waits or failed stops the pass. Otherwise the pass goes on, and
  // unless this read saw the migrator succeed, that is recorded.
  method AfterFailedWait(c: Cluster, vr: VolumeResize, u: Unit, ghost v: Vr)
    returns (stop: Option<Result>, ghost copy: Option<PvName>, ghost seen: bool)
    requires c.Valid() && AtWork(c.w, v, u) && Drafted(v, vr.Value(), u) && !c.smooth
    requires c.w.book.h4 ==> Quiet(c.w, u.replica)
    modifies c, vr
    ensures c.Valid() && Stretch(old(c.w), c.w, {}) && !c.smooth
    ensures stop == None ==> AtWork(c.w, v, u) && Copied(c.w, u, copy) && vr.Value() == old(vr.Value())
    ensures seen ==> Mig(u) in old(c.w).pods && old(c.w).pods[Mig(u)].phase == PodSucceeded
    ensures stop == None && !seen ==> !c.w.book.h2
    ensures stop.Some? ==> Ends(stop.value, c.w)
    ensures old(c.Answers()) ==>
              match PhaseOf(old(c.w), u)
              case Some(PodRunning) => stop == Some(RequeueAfter(10)) && Relied(old(c.w), c.w)
              case Some(PodPending) => stop == Some(RequeueAfter(10)) && Relied(old(c.w), c.w)
              case Some(PodFailed) => stop == Some(NoRequeue) || stop == Some(Error)
              case Some(PodSucceeded) => stop == None && seen
              case _ => stop == None && !seen
    ensures !old(c.Answers()) ==> if c.crashed then stop == Some(Error) else stop == None && !seen
  {
    hide Run, Inv, Relied, Storage, SameHomes, AtUnit, AtWork, Stretch, CompletedAt, Called, CanCall, Quiet, Done;
    hide Drafted, Active, ReadyIf;
    copy, seen := None, false;
    ghost var w0 := c.w;
    InvRun(c.start, c.log, w0);
    var e, pod := c.GetPod(Mig(u));
    ghost var w1 := c.w;
    StorageRelied(w0, w1);
    StorageAtWork(w0, w1, {}, v, u);
    StorageStretch(w0, w1, {});
    StorageMeans(w0, w1, {});
    QuietRelied(w0, w1, u);
    if e == Ok {
      if pod.value.phase == PodRunning || pod.value.phase == PodPending {
        return Some(RequeueAfter(10)), copy, seen;
      }
      if pod.value.phase == PodFailed {
        var r := FailWork(c, vr, v, u);
        StretchTransitive(w0, w1, c.w, {}, {}, {});
        return Some(r), copy, seen;
      }
    }
    stop := None;
    if e == Ok && pod.value.phase == PodSucceeded {
      copy, seen := CopyOf(w0, u), true;
      AtWorkActive(w0, v, u);
      RelyReflexive(w0);
      SucceededStays(w0, w0, w1, u, copy);
      return;
    }
    if c.crashed {
      return Some(Error), copy, seen;
    }
    NoteFallThrough(c, u, v, copy);
    StretchTransitive(w0, w1, c.w, {}, {}, {});
  }

  // The pass goes on although the migrator was not seen to succeed.
  method NoteFallThrough(c: Cluster, u: Unit, ghost v: Vr, ghost copy: Option<PvName>)
    requires c.Valid() && AtWork(c.w, v, u) && (c.w.book.h4 ==> Quiet(c.w, u.replica))
    modifies c`w, c`log, c`had
    ensures c.Valid() && Stretch(old(c.w), c.w, {}) && !c.w.book.h2
    ensures AtWork(c.w, v, u) && Copied(c.w, u, copy)
  {
    hide Run, Storage, SameHomes, AtWork, Stretch, Called, CanCall, Quiet, Done, ReadyIf, Guard;
    ghost var w0 := c.w;
    MayMark(w0, u);
    c.Commit(FallThrough(u));
    FellThrough(w0, u, copy);
    StorageAtWork(w0, c.w, {}, v, u);
    StorageStretch(w0, c.w, {});
    StorageMeans(w0, c.w, {});
  }

  lemma FellThrough(w: World, u: Unit, copy: Option<PvName>)
    ensures var w' := Called(w, FallThrough(u));
            && Storage(w, w', {}) && SameHomes(w, w') && !w'.book.h2 && !Sound(w') && ReadyIf(w', u, copy)
            && (Quiet(w, u.replica) ==> Quiet(w', u.replica))
  {
    MarkIdle(w, u);
  }

  /** Lines 341-349: the swap, and the record of it */

  lemma MaySwap(w: World, v: Vr, u: Unit, copy: Option<PvName>)
    requires Safe(w) && AtWork(w, v, u) && OldSafe(w, u) && Copied(w, u, copy)
    ensures CanSwap(w, u, copy)
  {
    AtWorkActive(w, v, u);
    UnitFacts(w, v, u);
    hide Safe, AtUnit, Active, OldSafe, ReadyIf, Quiet, IsUnit, IsTarget, Units;
  }

  // Recording a finished swap is allowed: the entry will be true.
  lemma MayComplete(w: World, v: Vr, d: Status, u: Unit)
    requires Safe(w) && AtWork(w, v, u) && Finish(w, u)
    requires d == v.status.(volumeStatuses := d.volumeStatuses)
    requires SameExceptAt(v.status.volumeStatuses, d.volumeStatuses, u)
    requires CompletedAt(d.volumeStatuses, u)
    ensures w.vr.Some? && Guard(w, PutStatus(d))
  {
    hide Safe, Finish, CompletedAt, SameExceptAt;
    MayStore(w, v, d, u);
  }

  lemma SwapFinishes(w0: World, w: World, u: Unit, copy: Option<PvName>, step: Swap)
    requires Copied(w0, u, copy) && Interrupted(w0, w, u, step) && step == Swapped
    requires Storage(w0, w, {Temp(u), Orig(u)})
    requires w.book.h1 ==> NoTemp(w, u)
    ensures Finish(w, u)
  {
    SwapTrue(w0, w, u);
    StorageMeans(w0, w, {Temp(u), Orig(u)});
    StorageDone(w0, w, {Temp(u), Orig(u)}, u);
    hide Truth, NoTemp, Sound, Storage, Done;
  }

  lemma StorageDone(w: World, w': World, changed: set<ClaimKey>, u: Unit)
    requires Storage(w, w', changed)
    ensures Done(w, u) ==> Done(w', u)
  {
    hide Frame, Done;
  }

  // The entries edited in memory are those stored, but for the entry of u.
  lemma DraftedPhase(v: Vr, d: Vr, u: Unit, p: VolumePhase, d': Vr, volumes: seq<Target>, replicas: nat)
    requires Drafted(v, d, u) && Keys(v.status.volumeStatuses) == Units(volumes, replicas)
    requires DistinctNames(volumes) && IsUnit(volumes, replicas, u)
    requires d' == d.(status := d.status.(volumeStatuses := WithPhase(d.status.volumeStatuses, u, p)))
    ensures SameExceptAt(v.status.volumeStatuses, d'.status.volumeStatuses, u)
    ensures CompletedAt(d'.status.volumeStatuses, u) <==> p == VCompleted
    ensures p != VCompleted && !CompletedAt(v.status.volumeStatuses, u) ==> Drafted(v, d', u)
  {
    var a, b := v.status.volumeStatuses, d.status.volumeStatuses;
    SameKeys(a, b, u);
    DistinctKeys(b, volumes, replicas);
    UnitsMember(volumes, replicas, u);
    WithPhaseSame(b, u, p);
    SameExceptTransitive(a, b, d'.status.volumeStatuses, u);
    hide SameExceptAt, CompletedAt, WithPhase;
  }

  lemma SameKeys(a: seq<VolumeStatus>, b: seq<VolumeStatus>, u: Unit)
    requires SameExceptAt(a, b, u)
    ensures Keys(a) == Keys(b)
  {
  }

  lemma SameExceptTransitive(a: seq<VolumeStatus>, b: seq<VolumeStatus>, c: seq<VolumeStatus>, u: Unit)
    requires SameExceptAt(a, b, u) && SameExceptAt(b, c, u)
    ensures SameExceptAt(a, c, u)
  {
  }

  lemma DistinctKeys(statuses: seq<VolumeStatus>, volumes: seq<Target>, replicas: nat)
    requires Keys(statuses) == Units(volumes, replicas) && DistinctNames(volumes) && |volumes| > 0
    ensures forall i, j :: 0 <= i < j < |statuses| ==> Key(statuses[i]) != Key(statuses[j])
  {
    forall i, j | 0 <= i < j < |statuses|
      ensures Key(statuses[i]) != Key(statuses[j])
    {
      assert Keys(statuses)[i] == Key(statuses[i]) && Keys(statuses)[j] == Key(statuses[j]);
      UnitsDistinct(volumes, replicas, i, j);
    }
  }

  // A status edit in memory, as the loop makes it.
  method MarkUnit(c: Cluster, vr: VolumeResize, u: Unit, p: VolumePhase, ghost v: Vr)
    requires c.Valid() && AtWork(c.w, v, u) && Drafted(v, vr.Value(), u)
    modifies vr`volumeStatuses
    ensures vr.volumeStatuses == WithPhase(old(vr.volumeStatuses), u, p)
    ensures SameExceptAt(v.status.volumeStatuses, vr.volumeStatuses, u)
    ensures CompletedAt(vr.volumeStatuses, u) <==> p == VCompleted
    ensures p != VCompleted ==> Drafted(v, vr.Value(), u)
  {
    hide Run, Inv, Safe, Drafted, SameExceptAt, CompletedAt, WithPhase, AtUnit;
    InvRun(c.start, c.log, c.w);
    SafeOf(c.w);
    UnitFacts(c.w, v, u);
    ghost var d := vr.Value();
    vr.UpdateVolumeStatus(u.volume, u.replica, p);
    DraftedPhase(v, d, u, p, vr.Value(), c.w.spec.volumes, Replicas(c.w.past.sts0.value));
  }

  // Stores the completed entry of a unit that was swapped.
  method RecordCompletion(c: Cluster, vr: VolumeResize, u: Unit, ghost v: Vr) returns (e: Reply, ghost v': Vr)
    requires c.Valid() && AtWork(c.w, v, u) && Drafted(v, vr.Value(), u) && Finish(c.w, u)
    modifies c, vr
    ensures c.Valid() && Span(old(c.w), c.w, {})
    ensures v' == v.(status := v.status.(volumeStatuses := WithPhase(old(vr.volumeStatuses), u, VCompleted)))
    ensures SameFlags(old(c.w), c.w) && SameCursor(old(c.w), c.w)
    ensures c.w.sts == old(c.w).sts && c.w.backup == old(c.w).backup
    ensures e == Ok ==> Settled(c.w, v', u) && Drafted(v', vr.Value(), u)
    ensures c.smooth ==> old(c.smooth) && e == Ok
    ensures c.smooth ==> c.asks == old(c.asks) + [PutStatus(v'.status)]
  {
    hide Run, Inv, Safe, Effect, Answer, Guard, Holds, SameExceptAt, CompletedAt, Span, SameHomes, KeepsPods, Finish;
    ghost var d0 := vr.Value();
    DraftedRest(v, d0, u);
    MarkUnit(c, vr, u, VCompleted, v);
    ghost var w0, d := c.w, vr.Value();
    ghost var st := vr.StatusValue();
    InvRun(c.start, c.log, w0);
    SafeOf(w0);
    MayComplete(w0, v, st, u);
    AtWorkUnit(w0, v, u);
    CursorStands(w0, v, u, st);
    e := UpdateStatus(c, vr);
    ResourceEffect(w0, PutStatus(st), e, c.w);
    StatusHeld(w0, v, st, e, d, c.w);
    v' := v.(status := st);
    if e == Ok {
      DraftedSame(v', vr.Value(), u);
    }
  }

  lemma DraftedRest(v: Vr, d: Vr, u: Unit)
    requires Drafted(v, d, u)
    ensures d.status == v.status.(volumeStatuses := d.status.volumeStatuses)
    ensures d.finalizer == v.finalizer && d.stsDeleted == v.stsDeleted && d.stsBackup == v.stsBackup
  {
  }

  lemma CopiedStorage(w: World, w': World, u: Unit, copy: Option<PvName>)
    requires Storage(w, w', {}) && SameHomes(w, w') && Copied(w, u, copy)
    requires ReadyIf(w, u, copy) ==> ReadyIf(w', u, copy)
    ensures Copied(w', u, copy)
  {
    StorageMeans(w, w', {});
    StorageDone(w, w', {}, u);
    if Quiet(w, u.replica) {
      StorageQuiet(w, w', {}, u.replica);
    }
    hide Storage, ReadyIf, Quiet, Done, Sound;
  }

  // Lines 341-347: the swap, or the failure of it.
  method SwapClaims(c: Cluster, vr: VolumeResize, u: Unit, ghost v: Vr, ghost copy: Option<PvName>)
    returns (stop: Option<Result>, ghost anew: Claim)
    requires c.Valid() && vr.spec == c.w.spec && AtWork(c.w, v, u) && Drafted(v, vr.Value(), u)
    requires OldSafe(c.w, u) && Copied(c.w, u, copy)
    modifies c, vr
    ensures c.Valid() && Span(old(c.w), c.w, {Temp(u), Orig(u)}) && SameCursor(old(c.w), c.w)
    ensures c.w.sts == old(c.w).sts && c.w.backup == old(c.w).backup
    ensures stop == None ==> AtWork(c.w, v, u) && vr.Value() == old(vr.Value()) && Finish(c.w, u)
    ensures stop == None && Sound(old(c.w)) ==> copy.Some?
    ensures stop.Some? ==> Ends(stop.value, c.w)
    ensures c.smooth ==>
              old(c.smooth) && SameFlags(old(c.w), c.w) && (stop.Some? ==> HasFailed(c.w) && stop == Some(NoRequeue))
    ensures stop == None ==> anew.pv.Some? && (c.smooth ==> c.asks == old(c.asks) + SwapCalls(u, anew))
    ensures c.smooth && Sound(c.w) && Alive(old(c.w), Orig(u)) && Alive(old(c.w), Temp(u)) ==> stop == None
  {
    hide Run, Storage, AtUnit, AtWork, Stretch, CompletedAt, Drafted, Copied, CanSwap, Interrupted, NoTemp, Sound;
    hide Span, Finish, Alive, HasFailed, SameFlags, SameCursor, OldSafe, Inv, Safe;
    ghost var w0, both := c.w, {Temp(u), Orig(u)};
    InvRun(c.start, c.log, w0);
    SafeOf(w0);
    MaySwap(w0, v, u, copy);
    var e;
    ghost var step;
    e, step, anew := ReplacePVC(c, vr.spec, u, copy);
    ghost var w1 := c.w;
    StorageAtWork(w0, w1, both, v, u);
    StorageMeans(w0, w1, both);
    StorageCursor(w0, w1, both);
    if e != Ok {
      var r := FailWork(c, vr, v, u);
      StretchSpan(w1, c.w, {});
      SpanSound(w1, c.w, {});
      SpanTransitive(w0, w1, c.w, both, {}, both);
      SameCursorTransitive(w0, w1, c.w);
      SameFlagsTransitive(w0, w1, c.w);
      SoundCopied(w0, w1, u, copy, both);
      return Some(r), anew;
    }
    SwapFinishes(w0, w1, u, copy, step);
    CopyNeeded(w0, w1, u, copy);
    stop := None;
  }

  // Swaps the claims and records the unit as completed.
  method SwapAndRecord(c: Cluster, vr: VolumeResize, u: Unit, ghost v: Vr, ghost copy: Option<PvName>)
    returns (stop: Option<Result>, ghost v': Vr, ghost anew: Claim)
    requires c.Valid() && vr.spec == c.w.spec && AtWork(c.w, v, u) && Drafted(v, vr.Value(), u)
    requires OldSafe(c.w, u) && Copied(c.w, u, copy)
    modifies c, vr
    ensures c.Valid() && Span(old(c.w), c.w, {Temp(u), Orig(u)}) && SameCursor(old(c.w), c.w)
    ensures c.w.sts == old(c.w).sts && c.w.backup == old(c.w).backup
    ensures stop == None ==> Settled(c.w, v', u) && Drafted(v', vr.Value(), u)
    ensures stop == None ==>
              v' == v.(status := v.status.(volumeStatuses := WithPhase(old(vr.volumeStatuses), u, VCompleted)))
    ensures stop.Some? ==> Ends(stop.value, c.w)
    ensures stop == None ==> anew.pv.Some?
    ensures c.smooth && stop == None ==> c.asks == old(c.asks) + (SwapCalls(u, anew) + [PutStatus(v'.status)])
    ensures c.smooth ==> old(c.smooth) && SameFlags(old(c.w), c.w)
    ensures c.smooth && stop.Some? ==> HasFailed(c.w) && stop == Some(NoRequeue)
    ensures c.smooth && Sound(c.w) && Alive(old(c.w), Orig(u)) && Alive(old(c.w), Temp(u)) ==> stop == None
    ensures Sound(c.w) && copy == None ==> stop.Some?
  {
    hide Run, AtWork, Settled, Drafted, Copied, CompletedAt, Sound, Span, Finish, SameExceptAt, Alive, HasFailed;
    hide SameFlags, SameCursor, OldSafe, WithPhase;
    v' := v;
    ghost var w0, both := c.w, {Temp(u), Orig(u)};
    stop, anew := SwapClaims(c, vr, u, v, copy);
    if stop.Some? {
      SpanSound(w0, c.w, both);
      return;
    }
    ghost var w1 := c.w;
    var e;
    e, v' := RecordCompletion(c, vr, u, v);
    SpanTransitive(w0, w1, c.w, both, {}, both);
    SpanSound(w0, c.w, both);
    SpanSound(w1, c.w, {});
    SameCursorTransitive(w0, w1, c.w);
    SameFlagsTransitive(w0, w1, c.w);
    stop := if e == Ok then None else Some(Error);
  }

  lemma StorageCursor(w: World, w': World, changed: set<ClaimKey>)
    requires Storage(w, w', changed)
    ensures SameCursor(w, w')
  {
    StorageFrame(w, w', changed);
    FrameCursor(w, w', changed);
  }

  lemma CopiedReady(w: World, u: Unit, copy: Option<PvName>)
    requires Copied(w, u, copy)
    ensures ReadyIf(w, u, copy)
  {
  }

  lemma StretchSpan(w: World, w': World, changed: set<ClaimKey>)
    requires Stretch(w, w', changed)
    ensures Span(w, w', changed) && SameCursor(w, w')
  {
  }

  // No swap without a temporary claim.
  lemma CopyNeeded(w0: World, w: World, u: Unit, copy: Option<PvName>)
    requires Copied(w0, u, copy) && Interrupted(w0, w, u, Swapped)
    ensures Sound(w0) ==> copy.Some?
  {
    hide Sound;
  }

  // With every hypothesis the copy was made without a StatefulSet.
  lemma SoundCopied(w: World, w': World, u: Unit, copy: Option<PvName>, changed: set<ClaimKey>)
    requires Copied(w, u, copy) && Storage(w, w', changed)
    ensures Sound(w') ==> w.sts == None && Sound(w)
  {
    StorageMeans(w, w', changed);
    hide Storage;
  }

  /** Lines 351-399: the StatefulSet comes back */

  lemma SettledFails(w: World, v: Vr, u: Unit)
    requires Settled(w, v, u)
    ensures AtUnit(w, v, u)
  {
  }

  // Clears the mark of the deletion.
  method ClearMark(c: Cluster, vr: VolumeResize, u: Unit, ghost v: Vr) returns (e: Reply, ghost v': Vr)
    requires c.Valid() && Settled(c.w, v, u) && Drafted(v, vr.Value(), u)
    modifies c, vr
    ensures c.Valid() && Span(old(c.w), c.w, {}) && c.w.sts == old(c.w).sts
    ensures SameFlags(old(c.w), c.w) && SameCursor(old(c.w), c.w)
    ensures v' == v.(stsDeleted := false)
    ensures e == Ok ==> Settled(c.w, v', u) && Drafted(v', vr.Value(), u)
    ensures c.smooth ==> old(c.smooth) && e == Ok
    ensures c.smooth ==> c.asks == old(c.asks) + [PutMeta(v.finalizer, false, v.stsBackup)]
    ensures old(c.log) <= c.log
  {
    hide Run, Inv, Safe, Effect, Answer, Guard, Holds, SameExceptAt, CompletedAt, Span, SameHomes, KeepsPods;
    vr.stsDeleted := false;
    ghost var w0, d := c.w, vr.Value();
    UnitStored(w0, v, u);
    MayClear(w0, d);
    e := Update(c, vr);
    ResourceEffect(w0, MetaCall(d), e, c.w);
    MetaHeld(w0, v, d, e, c.w);
    v' := v.(stsDeleted := false);
    if e == Ok {
      DraftedSame(v', vr.Value(), u);
    }
  }

  lemma MayClear(w: World, d: Vr)
    requires w.vr.Some? && d.finalizer && !d.stsDeleted
    ensures Guard(w, MetaCall(d))
  {
  }

  // What RecreateSTS leaves: the StatefulSet that was there, or the rewritten backup.
  ghost function Restored(w: World): Option<Sts> {
    if w.sts.Some? || w.backup == None then w.sts else Some(Rewrite(w.backup.value, w.spec.volumes))
  }

  // Lines 357-381: the rewritten backup is recreated unless some StatefulSet lives.
  method RestoreStatefulSet(c: Cluster, vr: VolumeResize, u: Unit, ghost v: Vr) returns (stop: Option<Result>)
    requires c.Valid() && vr.spec == c.w.spec && Settled(c.w, v, u) && Drafted(v, vr.Value(), u)
    requires u !in c.w.book.bare
    modifies c, vr
    ensures c.Valid() && Span(old(c.w), c.w, {})
    ensures SameFlags(old(c.w), c.w) && SameCursor(old(c.w), c.w)
    ensures c.w.sts == old(c.w).sts || c.w.sts == Restored(old(c.w))
    ensures stop == None ==> Settled(c.w, v, u) && vr.Value() == old(vr.Value())
    ensures stop == None ==> c.w.sts == Restored(old(c.w)) && c.w.sts.Some? && old(c.log) <= c.log
    ensures stop.Some? ==> Ends(stop.value, c.w)
    ensures c.smooth ==> old(c.smooth) && (stop.Some? ==> stop == Some(NoRequeue))
    ensures c.smooth && old(c.w).backup.Some? ==>
              && stop == None
              && c.asks == old(c.asks) + [CreateSts(Rewrite(old(c.w).backup.value, vr.spec.volumes))]
  {
    hide Run, Relied, Settled, Drafted, Span, AtCompleted, SameCursor, SameFlags, Frame, SameHomes, Rewrite;
    stop := None;
    ghost var w0 := c.w;
    var e, backup := GetSTSFromBackupConfigMap(c);
    ghost var w1 := c.w;
    SettledRelied(w0, w1, v, u);
    if e != Ok {
      SettledFails(w1, v, u);
      var r := FailUnit(c, vr, v, u);
      PassageTransitive(w0, w1, c.w);
      return Some(r);
    }
    var s := Resized(backup.value, vr.spec.volumes);
    SettledCompleted(w1, v, u);
    e := RecreateSTS(c, s);
    ghost var w2 := c.w;
    SettledFrame(w1, w2, v, u);
    PassageTransitive(w0, w1, w2);
    if e != Ok && e != AlreadyExists {
      SettledFails(w2, v, u);
      var r := FailUnit(c, vr, v, u);
      PassageTransitive(w0, w2, c.w);
      return Some(r);
    }
  }

  lemma PassageTransitive(w: World, w': World, w'': World)
    requires Span(w, w', {}) && SameCursor(w, w') && SameFlags(w, w')
    requires Span(w', w'', {}) && SameCursor(w', w'') && SameFlags(w', w'')
    ensures Span(w, w'', {}) && SameCursor(w, w'') && SameFlags(w, w'')
  {
    SpanTransitive(w, w', w'', {}, {}, {});
    hide Span;
  }

  lemma SettledFrame(w: World, w': World, v: Vr, u: Unit)
    requires Frame(w, w', {}) && Settled(w, v, u)
    ensures Settled(w', v, u) && Span(w, w', {}) && SameCursor(w, w')
  {
    FrameAtWork(w, w', {}, v, u);
    FrameSpan(w, w', {});
    FrameCursor(w, w', {});
    hide Frame, Settled, Span, SameCursor;
  }

  lemma SettledRelied(w: World, w': World, v: Vr, u: Unit)
    requires Relied(w, w') && Settled(w, v, u)
    ensures Settled(w', v, u) && Span(w, w', {}) && SameCursor(w, w') && SameFlags(w, w')
    ensures w'.sts == w.sts && w'.backup == w.backup && w'.spec == w.spec && w'.book.bare == w.book.bare
  {
    FrameRelied(w, w');
    SettledFrame(w, w', v, u);
    StorageRelied(w, w');
    StorageBare(w, w', {});
    ReliedSts(w, w');
    hide Relied, Frame, Settled, Span, SameCursor, Storage;
  }

  lemma SameCursorTransitive(w: World, w': World, w'': World)
    requires SameCursor(w, w') && SameCursor(w', w'')
    ensures SameCursor(w, w'')
  {
  }

  // The pod of this replica runs.
  ghost predicate Runs(w: World, r: nat) {
    App(r) in w.pods && w.pods[App(r)].phase == PodRunning
  }

  // The unit is recorded, the StatefulSet is back, and the pod of its replica runs.
  ghost predicate BackUp(w: World, u: Unit) {
    && AtCompleted(w) && Cursor(w.vr.value.status) == Some(u)
    && w.sts.Some? && Runs(w, u.replica)
  }

  ghost function BackCalls(backup: Sts, spec: Spec, v: Vr): seq<Call> {
    [CreateSts(Rewrite(backup, spec.volumes)), PutMeta(v.finalizer, false, v.stsBackup)]
  }

  // The StatefulSet is recreated from the rewritten backup; the pass goes on
  // when the pod of the replica runs, in the world after i actions.
  method BringBack(c: Cluster, vr: VolumeResize, u: Unit, ghost v: Vr)
    returns (stop: Option<Result>, ghost v': Vr, ghost i: nat)
    requires c.Valid() && vr.spec == c.w.spec && Settled(c.w, v, u) && Drafted(v, vr.Value(), u)
    requires u !in c.w.book.bare
    modifies c, vr
    ensures c.Valid() && Span(old(c.w), c.w, {})
    ensures SameFlags(old(c.w), c.w) && SameCursor(old(c.w), c.w)
    ensures stop == None ==> Settled(c.w, v', u) && Drafted(v', vr.Value(), u) && !v'.stsDeleted
    ensures c.w.sts == old(c.w).sts || c.w.sts == Restored(old(c.w))
    ensures stop == None ==> c.w.sts == Restored(old(c.w)) && c.w.sts.Some?
    ensures stop == None ==> |old(c.log)| <= i <= |c.log| && BackUp(c.Past(i), u)
    ensures stop.Some? ==> Ends(stop.value, c.w)
    ensures c.smooth ==> old(c.smooth) && (stop.Some? ==> stop.value != Error)
    ensures c.smooth && old(c.w).backup.Some? ==>
              Settled(c.w, v', u) && !v'.stsDeleted && c.w.sts == Restored(old(c.w)) && c.w.sts.Some?
    ensures c.smooth && old(c.w).backup.Some? ==>
              && |old(c.log)| <= i <= |c.log|
              && stop == if Runs(c.Past(i), u.replica) then None else Some(RequeueAfter(5))
    ensures c.smooth && old(c.w).backup.Some? ==>
              c.asks == old(c.asks) + BackCalls(old(c.w).backup.value, vr.spec, v)
  {
    hide Run, Relied, Storage, SameHomes, AtUnit, Settled, CompletedAt, Drafted, Span, Restored, SameCursor, Sound;
    hide AtCompleted, SameFlags, Rewrite;
    v', i := v, 0;
    ghost var w0 := c.w;
    stop := RestoreStatefulSet(c, vr, u, v);
    ghost var w1 := c.w;
    if stop != None {
      return;
    }
    var e;
    e, v' := ClearMark(c, vr, u, v);
    ghost var w2, made := c.w, c.log;
    PassageTransitive(w0, w1, w2);
    if e != Ok {
      return Some(Error), v', i;
    }
    i := |c.log|;
    var pod;
    e, pod := c.GetPod(App(u.replica));
    SettledRelied(w2, c.w, v', u);
    PassageTransitive(w0, w2, c.w);
    PastIs(c, made, w2);
    if e == NotFound {
      return Some(RequeueAfter(5)), v', i;
    }
    if e != Ok {
      return Some(Error), v', i;
    }
    if pod.value.phase != PodRunning {
      return Some(RequeueAfter(5)), v', i;
    }
    stop := None;
    SettledCompleted(w2, v', u);
  }

  // The world a part of the log leads to.
  lemma PastIs(c: Cluster, log: seq<Action>, w: World)
    requires Run(c.start, log, w) && log <= c.log
    ensures c.Past(|log|) == w
  {
    assert c.log[..|log|] == log;
    hide Start, Legal;
  }

  lemma StorageBare(w: World, w': World, changed: set<ClaimKey>)
    requires Storage(w, w', changed)
    ensures w'.book.bare == w.book.bare
  {
    hide KeepsPods, OthersKept, NoNewTemps, NoneReturned, RetainedKept, Sound, Undeleted;
  }

  /** Lines 190-206 and 403-427: the next unit */

  // The stored cursor moved past u, to a unit that has no migrator pod yet.
  ghost predicate Advanced(w: World, u: Unit) {
    && w.past.sts0.Some? && Replicas(w.past.sts0.value) > 0 && |w.spec.volumes| > 0
    && w.vr.Some? && w.vr.value.finalizer
    && match Next(w.spec.volumes, Replicas(w.past.sts0.value) - 1, u)
       case Some(n) => w.vr.value.status.phase == Syncing && Cursor(w.vr.value.status) == Some(n) && NoMig(w, n)
       case None => w.vr.value.status.phase == Completed
  }

  lemma MayAdvance(w: World, v: Vr, st: Status, u: Unit)
    requires Safe(w) && Settled(w, v, u)
    requires SameExceptAt(v.status.volumeStatuses, st.volumeStatuses, u) && CompletedAt(st.volumeStatuses, u)
    requires Cursor(st) == Next(w.spec.volumes, MaxReplica(st.volumeStatuses), u)
    requires st.phase == if Cursor(st).Some? then Syncing else Completed
    requires w.sts.Some? || u in w.book.bare
    ensures w.vr.Some? && Guard(w, PutStatus(st))
    ensures w.past.sts0.Some? && Replicas(w.past.sts0.value) > 0 && |w.spec.volumes| > 0
    ensures Cursor(st) == Next(w.spec.volumes, Replicas(w.past.sts0.value) - 1, u)
  {
    UnitFacts(w, v, u);
    SameKeys(v.status.volumeStatuses, st.volumeStatuses, u) by { hide Safe, CompletedAt, Next, MaxReplica, Units; }
    MaxReplicaOfUnits(w.spec.volumes, Replicas(w.past.sts0.value), st.volumeStatuses) by {
      hide Safe, CompletedAt, SameExceptAt, Next;
    }
    hide Safe, Finish, CompletedAt, SameExceptAt, Next, MaxReplica, Units, IsUnit, IsTarget, DistinctNames;
  }

  lemma AdvanceStored(w: World, v: Vr, st: Status, u: Unit, e: Reply, w': World)
    requires Holds(w, v) && Effect(w, PutStatus(st), e, w') && e == Ok
    requires w.past.sts0.Some? && Replicas(w.past.sts0.value) > 0 && |w.spec.volumes| > 0
    requires Cursor(st) == Next(w.spec.volumes, Replicas(w.past.sts0.value) - 1, u)
    requires st.phase == if Cursor(st).Some? then Syncing else Completed
    requires Cursor(st).Some? ==> NoMig(w, Cursor(st).value)
    ensures Advanced(w', u) && w'.vr.Some? && w'.vr.value.stsDeleted == v.stsDeleted && w'.vr.value.status == st
  {
    StatusHeld(w, v, st, e, v, w');
    ResourceEffect(w, PutStatus(st), e, w');
    SpanWorld(w, w', {});
    if Cursor(st).Some? {
      PodsNoMig(w, w', Cursor(st).value);
    }
    hide Effect, Span, Next, NoMig, KeepsPods;
  }

  lemma PodsNoMig(w: World, w': World, u: Unit)
    requires KeepsPods(w, w') && NoMig(w, u)
    ensures NoMig(w', u)
  {
  }

  lemma UnmannedNext(w: World, v: Vr, u: Unit)
    requires Safe(w) && Behind(w) && Settled(w, v, u)
    requires w.past.sts0.Some? && Replicas(w.past.sts0.value) > 0 && |w.spec.volumes| > 0
    ensures var n := Next(w.spec.volumes, Replicas(w.past.sts0.value) - 1, u); n.Some? ==> NoMig(w, n.value)
  {
    NextUnmanned(w, u);
    hide Safe, Behind, Next, CompletedAt, NoMig;
  }

  lemma SpanSound(w: World, w': World, changed: set<ClaimKey>)
    requires Span(w, w', changed)
    ensures (Sound(w') ==> Sound(w)) && w'.spec == w.spec && w'.past == w.past && w'.book.bare == w.book.bare
  {
    hide RetainedKept, Sound, Undeleted, OthersKept, NoNewTemps, NoneReturned;
  }

  lemma SpanWorld(w: World, w': World, changed: set<ClaimKey>)
    requires Span(w, w', changed)
    ensures w'.spec == w.spec && w'.past == w.past && (Sound(w') ==> Sound(w)) && (Undeleted(w') ==> Undeleted(w))
    ensures RetainedKept(w, w') && w'.book.bare == w.book.bare
    ensures forall k :: Alive(w, k) && k !in changed ==> Alive(w', k) && SameClaim(w.claims[k], w'.claims[k])
  {
    hide Retained, Sound, Undeleted, NoNewTemps, NoneReturned;
  }

  // What the invariants say about the unit a pass leaves.
  lemma AdvanceFacts(start: World, log: seq<Action>, w: World, v: Vr, d: Vr, u: Unit)
    requires Run(start, log, w) && Settled(w, v, u) && Drafted(v, d, u)
    ensures Safe(w) && Holds(w, v)
    ensures w.past.sts0.Some? && Replicas(w.past.sts0.value) > 0 && |w.spec.volumes| > 0
    ensures var n := Next(w.spec.volumes, Replicas(w.past.sts0.value) - 1, u); n.Some? ==> NoMig(w, n.value)
    ensures Cursor(d.status) == Some(u) && d.status.phase == Syncing
    ensures SameExceptAt(v.status.volumeStatuses, d.status.volumeStatuses, u) && CompletedAt(d.status.volumeStatuses, u)
  {
    InvRun(start, log, w);
    SafeOf(w);
    UnitFacts(w, v, u);
    MarksRun(start, log, w);
    UnmannedNext(w, v, u);
    hide Run, Inv, Safe, Noted, Passed, Behind, Next, NoMig, CompletedAt, SameExceptAt;
  }

  method Advance(c: Cluster, vr: VolumeResize, u: Unit, ghost v: Vr) returns (r: Result)
    requires c.Valid() && vr.spec == c.w.spec && Settled(c.w, v, u) && Drafted(v, vr.Value(), u)
    requires c.w.sts.Some? || u in c.w.book.bare
    modifies c, vr
    ensures c.Valid() && Span(old(c.w), c.w, {}) && c.w.sts == old(c.w).sts
    ensures Consistent(old(c.w)) ==> SameFlags(old(c.w), c.w)
    ensures c.smooth ==> old(c.smooth) && Advanced(c.w, u) && c.w.vr.Some? && c.w.vr.value.stsDeleted == v.stsDeleted
    ensures r == Requeue || r == Error
    ensures r == Requeue ==> Advanced(c.w, u)
    ensures old(c.log) <= c.log
    ensures c.smooth ==> r == Requeue && c.w.vr.Some? && c.asks == old(c.asks) + [PutStatus(c.w.vr.value.status)]
  {
    hide Run, Inv, Safe, Effect, Answer, Guard, Holds, SameExceptAt, CompletedAt, Span, SameHomes, KeepsPods, Next;
    hide Advanced, Behind, Noted, Passed, NoMig, Settled, Drafted, SameFlags, SameCursor, MaxReplica;
    ghost var w0 := c.w;
    AdvanceFacts(c.start, c.log, w0, v, vr.Value(), u);
    var nextReplica, nextVol, done := vr.GetNextVolumeReplica(u.replica, u.volume);
    if done {
      vr.phase := Completed;
      vr.currentReplica := None;
      vr.currentVolume := "";
    } else {
      vr.currentReplica := Some(nextReplica);
      vr.currentVolume := nextVol;
    }
    ghost var st := vr.StatusValue();
    MayAdvance(w0, v, st, u);
    var e := UpdateStatus(c, vr);
    ResourceEffect(w0, PutStatus(st), e, c.w);
    if e != Ok {
      StatusHeld(w0, v, st, e, v, c.w);
      return Error;
    }
    AdvanceStored(w0, v, st, u, e, c.w);
    r := Requeue;
  }

  /** The whole pass */

  lemma DraftedNames(v: Vr, d: Vr, u: Unit, f: VolumeStatus -> VolumeStatus, d': Vr)
    requires Drafted(v, d, u)
    requires forall vs :: Key(f(vs)) == Key(vs) && f(vs).phase == vs.phase
    requires d' == d.(status := d.status.(volumeStatuses := UpdatedIn(d.status.volumeStatuses, u, f)))
    ensures Drafted(v, d', u)
  {
    UpdatedInSame(d.status.volumeStatuses, u, f);
    SameExceptTransitive(v.status.volumeStatuses, d.status.volumeStatuses, d'.status.volumeStatuses, u);
    hide SameExceptAt, CompletedAt, UpdatedIn;
  }

  function Named(spec: Spec, u: Unit, oldPv: PvName, vs: VolumeStatus): VolumeStatus {
    vs.(oldPVC := ClaimName(spec.stsName, Orig(u)), newPVC := ClaimName(spec.stsName, Temp(u)), oldPV := oldPv)
  }

  // Lines 258-264, in memory only. Where the StatefulSet is deleted in this pass,
  // line 291 drops these edits.
  method NoteNames(c: Cluster, vr: VolumeResize, u: Unit, oldPv: PvName, ghost v: Vr)
    requires c.Valid() && AtWork(c.w, v, u) && Drafted(v, vr.Value(), u)
    modifies vr`volumeStatuses
    ensures Drafted(v, vr.Value(), u)
    ensures vr.volumeStatuses == Begun(vr.spec, u, oldPv, old(vr.volumeStatuses))
  {
    hide Run, Drafted, AtWork, WithPhase;
    MarkUnit(c, vr, u, VSyncing, v);
    ghost var d := vr.Value();
    var oldPVC, newPVC := ClaimName(vr.spec.stsName, Orig(u)), ClaimName(vr.spec.stsName, Temp(u));
    vr.RecordNames(u.volume, u.replica, oldPVC, newPVC, oldPv);
    DraftedNames(v, d, u, (vs: VolumeStatus) => vs.(oldPVC := oldPVC, newPVC := newPVC, oldPV := oldPv), vr.Value());
  }

  // The list once the unit's entry is Syncing and has its three names.
  ghost function Begun(spec: Spec, u: Unit, oldPv: PvName, list: seq<VolumeStatus>): seq<VolumeStatus> {
    UpdatedIn(WithPhase(list, u, VSyncing), u, vs => Named(spec, u, oldPv, vs))
  }

  // Lines 210-264: the target, the two claims, the old volume, the entry in memory.
  method PrepareUnit(c: Cluster, vr: VolumeResize, u: Unit, ghost v: Vr)
    returns (stop: Option<Result>, ghost oldPv: PvName, ghost calls: seq<Call>)
    requires c.Valid() && vr.spec == c.w.spec && AtWork(c.w, v, u) && Drafted(v, vr.Value(), u)
    modifies c, vr
    ensures c.Valid() && Stretch(old(c.w), c.w, {Temp(u)})
    ensures Held(old(c.w)) && TempClear(old(c.w), u) ==> SameFlags(old(c.w), c.w)
    ensures stop == None ==> AtWork(c.w, v, u) && OldSafe(c.w, u) && Drafted(v, vr.Value(), u)
    ensures stop == None && Consistent(old(c.w)) ==> vr.stsDeleted ==> c.w.sts == None
    ensures stop == None ==>
              && Orig(u) in old(c.w).claims && old(c.w).claims[Orig(u)].pv == Some(oldPv)
              && vr.volumeStatuses == Begun(vr.spec, u, oldPv, old(vr.volumeStatuses))
    ensures stop.Some? ==> Ends(stop.value, c.w)
    ensures c.smooth ==> old(c.smooth) && (stop.Some? ==> stop.value != Error)
    ensures c.smooth && stop == None ==> c.asks == old(c.asks) + calls && Preparing(u, oldPv, calls)
    ensures c.smooth && stop == None && TempReady(old(c.w), c.lateClasses, u) ==> Alive(c.w, Temp(u))
    ensures c.smooth && NameFree(old(c.w), u) ==> stop.Some? && HasFailed(c.w)
    ensures c.smooth && stop.Some? ==> HasFailed(c.w) || Active(c.w, u)
    ensures c.smooth && Sound(c.w) && Alive(old(c.w), Orig(u)) && TempReady(old(c.w), c.lateClasses, u) && stop.Some? ==>
              && Active(c.w, u) && Alive(c.w, Orig(u)) && NoTemp(old(c.w), u) && Alive(c.w, Temp(u))
              && (Consistent(old(c.w)) ==> Consistent(c.w))
  {
    hide Run, Inv, Safe, AtWork, Stretch, Drafted, OldSafe, Sound, NameFree, TempReady, Alive, NoTemp, Active;
    hide IsTarget, Held, HasFailed, MissingIf, TempClear;
    ghost var w0 := c.w;
    InvRun(c.start, c.log, w0);
    SafeOf(w0);
    AtWorkUnit(w0, v, u);
    UnitFacts(w0, v, u);
    var vol := FindTarget(vr.spec.volumes, u.volume);
    var volume;
    stop, volume, calls := PrepareClaims(c, vr, u, vol, v);
    oldPv := volume;
    ghost var w1 := c.w;
    StretchMeans(w0, w1, {Temp(u)});
    if stop != None {
      if AtWork(w1, v, u) {
        AtWorkActive(w1, v, u);
        StillConsistent(w0, w1, v, u);
      }
      return;
    }
    NoteNames(c, vr, u, volume, v);
    MarkOf(w0, v, vr.Value(), u);
  }

  // The pod of the replica is deleted, the migrator created if it is not there, and
  // deleted when it is done.
  ghost function CopyCalls(spec: Spec, u: Unit, made: bool): seq<Call> {
    [DeletePod(App(u.replica))] + (if made then [CreatePod(u, BuildMigratorPod(spec, u))] else []) + [DeletePod(Mig(u))]
  }

  // Lines 315-341: the migrator copies and is cleaned up.
  method RunMigrator(c: Cluster, vr: VolumeResize, u: Unit, ghost v: Vr)
    returns (stop: Option<Result>, ghost copy: Option<PvName>, ghost made: bool)
    requires c.Valid() && vr.spec == c.w.spec && AtWork(c.w, v, u) && Drafted(v, vr.Value(), u)
    requires c.w.book.h4 ==> Quiet(c.w, u.replica)
    modifies c, vr
    ensures c.Valid() && Stretch(old(c.w), c.w, {})
    ensures stop == None ==> AtWork(c.w, v, u) && Drafted(v, vr.Value(), u) && Copied(c.w, u, copy)
    ensures stop == None ==> vr.volumeStatuses == WithPhase(old(vr.volumeStatuses), u, VSynced)
    ensures stop.Some? ==> Ends(stop.value, c.w)
    ensures made == (Mig(u) !in old(c.w).pods)
    ensures c.smooth ==> old(c.smooth) && stop == None && SameFlags(old(c.w), c.w) && MigGoing(c.w, u)
    ensures c.smooth ==> c.asks == old(c.asks) + Creation(old(c.w), vr.spec, u) + [DeletePod(Mig(u))]
  {
    hide Run, AtWork, Stretch, Drafted, Copied, Quiet, Storage, SameHomes, ReadyIf, MigGoing, WithPhase, Creation;
    hide SameExceptAt, CompletedAt, SameFlags, HasFailed, Active, Done, Relied, Span;
    ghost var w0 := c.w;
    made := Mig(u) !in w0.pods;
    stop, copy := Migrate(c, vr, u, v);
    ghost var w1 := c.w;
    if stop != None {
      return;
    }
    var e := CleanupMigratorPod(c, u, copy);
    CopiedReady(w1, u, copy);
    CopiedStorage(w1, c.w, u, copy);
    StorageAtWork(w1, c.w, {}, v, u);
    StorageStretch(w1, c.w, {});
    StretchTransitive(w0, w1, c.w, {}, {}, {});
    SameFlagsTransitive(w0, w1, c.w);
    MarkUnit(c, vr, u, VSynced, v);
  }

  // Lines 266-340: the StatefulSet and the pod go, the migrator copies and is
  // cleaned up.
  method CopyUnit(c: Cluster, vr: VolumeResize, u: Unit, ghost v: Vr)
    returns (stop: Option<Result>, ghost v': Vr, ghost copy: Option<PvName>, ghost made: bool, ghost backup: Option<Sts>)
    requires c.Valid() && vr.spec == c.w.spec && AtWork(c.w, v, u) && Drafted(v, vr.Value(), u)
    modifies c, vr
    ensures c.Valid() && Stretch(old(c.w), c.w, {})
    ensures stop == None ==> AtWork(c.w, v', u) && Drafted(v', vr.Value(), u) && Copied(c.w, u, copy)
    ensures stop == None ==>
              var list := if v' == v then old(vr.volumeStatuses) else v.status.volumeStatuses;
              vr.volumeStatuses == WithPhase(list, u, VSynced)
    ensures stop == None && v' != v ==> !v.stsDeleted && v'.stsDeleted && old(c.w).sts.Some?
    ensures old(vr.stsDeleted) ==> v' == v
    ensures stop.Some? ==> Ends(stop.value, c.w)
    ensures c.smooth ==> old(c.smooth) && stop == None
    ensures c.smooth ==> SameFlags(old(c.w), c.w) && MigGoing(c.w, u)
    ensures c.smooth ==>
              c.asks == old(c.asks) + (if v' == v then [] else DownCalls(backup, v')) + CopyCalls(vr.spec, u, made)
    ensures stop == None ==> v' == v || v' == NotedDeleted(v, Names.BackupName(vr.spec.vrName))
  {
    hide Run, AtWork, Stretch, Drafted, Copied, Quiet, Storage, SameHomes, ReadyIf, MigGoing, WithPhase, MissingIf;
    hide SameExceptAt, CompletedAt, SameFlags, DownCalls, CopyCalls, Creation, HasFailed;
    copy, made, backup := None, false, NewBackup(c.w);
    ghost var w0 := c.w;
    stop, v' := TakeDownStatefulSet(c, vr, u, v);
    ghost var w1 := c.w;
    StretchMeans(w0, w1, {});
    if stop != None {
      return;
    }
    stop := ClearPod(c, u, v');
    ghost var w2 := c.w;
    StretchMeans(w1, w2, {});
    StretchTransitive(w0, w1, w2, {}, {}, {});
    SameFlagsTransitive(w0, w1, w2);
    if stop != None {
      return;
    }
    stop, copy, made := RunMigrator(c, vr, u, v');
    StretchTransitive(w0, w2, c.w, {}, {}, {});
    SameFlagsTransitive(w0, w2, c.w);
    MigratorCalls(w2, vr.spec, u, made);
  }

  lemma MigratorCalls(w: World, spec: Spec, u: Unit, made: bool)
    requires made == (Mig(u) !in w.pods)
    ensures [DeletePod(App(u.replica))] + Creation(w, spec, u) + [DeletePod(Mig(u))] == CopyCalls(spec, u, made)
  {
  }

  // What is left open of a migration: the temporary claim, if it was created; the old
  // volume, and whether it was retained now; whether the deletion of the StatefulSet
  // was noted, and its backup, if it was made now; whether the migrator was created;
  // the new claim; and the list that is stored.
  datatype Course = Course(
    temp: Option<Claim>, oldPv: PvName, keep: bool, noted: bool, backup: Option<Sts>, made: bool,
    anew: Claim, list: seq<VolumeStatus>)

  // The resource when the deletion of the StatefulSet is or need not be noted.
  ghost function Taken(spec: Spec, v: Vr, noted: bool): Vr {
    if noted then NotedDeleted(v, Names.BackupName(spec.vrName)) else v
  }

  ghost function SwitchCalls(spec: Spec, u: Unit, v: Vr, k: Course): seq<Call>
    requires k.anew.pv.Some?
  {
    var taken := Taken(spec, v, k.noted);
    (if k.noted then DownCalls(k.backup, taken) else []) + CopyCalls(spec, u, k.made) + SwapCalls(u, k.anew)
    + [PutStatus(taken.status.(volumeStatuses := k.list))]
  }

  // All calls of a migration, in order.
  ghost function MigrationCalls(spec: Spec, u: Unit, v: Vr, k: Course): seq<Call>
    requires k.anew.pv.Some?
  {
    PreparingCalls(u, k.temp, k.oldPv, k.keep) + SwitchCalls(spec, u, v, k)
  }

  // The unit's entry once it is recorded.
  ghost function Ended(list: seq<VolumeStatus>, u: Unit): seq<VolumeStatus> {
    WithPhase(WithPhase(list, u, VSynced), u, VCompleted)
  }

  // What is stored in the end: the resource, with the deletion noted if it was, and the
  // list in memory, but the stored one if the deletion was noted.
  ghost predicate Stored(spec: Spec, u: Unit, v: Vr, list: seq<VolumeStatus>, k: Course, v': Vr) {
    var taken := Taken(spec, v, k.noted);
    && v' == taken.(status := taken.status.(volumeStatuses := k.list))
    && k.list == Ended(if k.noted then v.status.volumeStatuses else list, u)
    && (k.noted ==> !v.stsDeleted) && k.anew.pv.Some?
  }

  lemma StoredIs(
    spec: Spec, u: Unit, v: Vr, list: seq<VolumeStatus>, synced: seq<VolumeStatus>, taken: Vr, k: Course, v': Vr)
    requires taken == v || taken == NotedDeleted(v, Names.BackupName(spec.vrName))
    requires k.noted == (taken != v) && (taken != v ==> !v.stsDeleted)
    requires synced == WithPhase(if taken == v then list else v.status.volumeStatuses, u, VSynced)
    requires v' == taken.(status := taken.status.(volumeStatuses := WithPhase(synced, u, VCompleted)))
    requires k.list == v'.status.volumeStatuses && k.anew.pv.Some?
    ensures Stored(spec, u, v, list, k, v') && taken == Taken(spec, v, k.noted)
  {
    hide WithPhase;
  }

  // Where the annotation was set already, the entry of the unit is stored with the
  // names of its claims and of its old volume; where the StatefulSet is deleted in the
  // same pass, it is stored without them. No other entry changes.
  lemma NamesStored(spec: Spec, u: Unit, oldPv: PvName, list: seq<VolumeStatus>, i: nat)
    requires i < |list| && Key(list[i]) == u
    requires forall j, k :: 0 <= j < k < |list| ==> Key(list[j]) != Key(list[k])
    ensures var named := Ended(Begun(spec, u, oldPv, list), u);
            && |named| == |list| && (forall j :: 0 <= j < |list| && j != i ==> named[j] == list[j])
            && named[i] == VolumeStatus(u.volume, u.replica, VCompleted,
                             Names.OriginalPVCName(u.volume, spec.stsName, u.replica),
                             Names.TempPVCName(u.volume, spec.stsName, u.replica), oldPv)
    ensures Ended(list, u) == list[i := list[i].(phase := VCompleted)]
  {
    EntryAt(list, u, i);
    EntryAt(list[i := list[i].(phase := VSynced)], u, i);
    var begun := list[i := list[i].(phase := VSyncing)];
    NamedAt(spec, u, oldPv, begun, i);
    var named := begun[i := Named(spec, u, oldPv, begun[i])];
    assert Begun(spec, u, oldPv, list) == named;
    EntryAt(named, u, i);
    EntryAt(named[i := named[i].(phase := VSynced)], u, i);
  }

  lemma NamedAt(spec: Spec, u: Unit, oldPv: PvName, list: seq<VolumeStatus>, i: nat)
    requires i < |list| && Key(list[i]) == u
    requires forall j, k :: 0 <= j < k < |list| ==> Key(list[j]) != Key(list[k])
    ensures UpdatedIn(list, u, vs => Named(spec, u, oldPv, vs)) == list[i := Named(spec, u, oldPv, list[i])]
  {
    var r := UpdatedIn(list, u, vs => Named(spec, u, oldPv, vs));
    forall j | 0 <= j < |list|
      ensures r[j] == list[i := Named(spec, u, oldPv, list[i])][j]
    {
      assert j != i ==> Key(list[j]) != u;
    }
  }

  lemma EntryAt(list: seq<VolumeStatus>, u: Unit, i: nat)
    requires i < |list| && Key(list[i]) == u
    requires forall j, k :: 0 <= j < k < |list| ==> Key(list[j]) != Key(list[k])
    ensures forall p :: WithPhase(list, u, p) == list[i := list[i].(phase := p)]
  {
    assert FirstEntry(list, u) == i;
  }

  // Lines 258-349: the copy, the swap and the record of it.
  method CopyAndSwap(c: Cluster, vr: VolumeResize, u: Unit, ghost v: Vr)
    returns (stop: Option<Result>, ghost v': Vr, ghost k: Course)
    requires c.Valid() && vr.spec == c.w.spec && AtWork(c.w, v, u) && Drafted(v, vr.Value(), u) && OldSafe(c.w, u)
    modifies c, vr
    ensures c.Valid() && Span(old(c.w), c.w, {Temp(u), Orig(u)}) && SameCursor(old(c.w), c.w)
    ensures stop == None ==> Settled(c.w, v', u) && Drafted(v', vr.Value(), u)
    ensures stop == None && Sound(c.w) ==> c.w.sts == None
    ensures stop == None ==> Stored(vr.spec, u, v, old(vr.volumeStatuses), k, v')
    ensures stop.Some? ==> Ends(stop.value, c.w)
    ensures stop == None ==> k.anew.pv.Some? && (c.smooth ==> c.asks == old(c.asks) + SwitchCalls(vr.spec, u, v, k))
    ensures c.smooth ==>
              old(c.smooth) && SameFlags(old(c.w), c.w) && (stop.Some? ==> HasFailed(c.w) && stop == Some(NoRequeue))
    ensures c.smooth && Sound(c.w) && MissingIf(old(c.w), u) ==> stop.Some?
    ensures c.smooth && Sound(c.w) && Alive(old(c.w), Orig(u)) && Alive(old(c.w), Temp(u)) ==> stop == None
  {
    hide Run, AtWork, Settled, Stretch, Drafted, OldSafe, Copied, Span, Sound, Alive, MissingIf, HasFailed;
    hide SameFlags, SameCursor, AtUnit, CompletedAt, Inv, DownCalls, CopyCalls, SwapCalls, WithPhase, NoMig;
    hide Stored, Taken, NotedDeleted, SwitchCalls, Ends;
    k := NoCourse();
    ghost var w0, both, copy, made, backup, anew := c.w, {Temp(u), Orig(u)}, None, false, None, k.anew;
    ghost var asked, list := c.asks, vr.volumeStatuses;
    stop, v', copy, made, backup := CopyUnit(c, vr, u, v);
    ghost var w1 := c.w;
    StretchMeans(w0, w1, {});
    StretchSpan(w0, w1, {});
    SpanWiden(w0, w1, {}, both);
    if stop != None {
      return;
    }
    InvRun(c.start, c.log, w1);
    CopiedAlive(w1, v', u, copy);
    ghost var taken, synced := v', vr.volumeStatuses;
    stop, v', anew := SwapAndRecord(c, vr, u, v', copy);
    SpanTransitive(w0, w1, c.w, both, both, both);
    SpanSound(w1, c.w, both);
    SameCursorTransitive(w0, w1, c.w);
    SameFlagsTransitive(w0, w1, c.w);
    CopiedQuiet(w1, u, copy);
    if stop == None {
      k := CourseOf(asked, c.asks, vr.spec, u, v, list, synced, taken, v', made, backup, anew, c.smooth);
    }
  }

  lemma CourseOf(
    asked: seq<Call>, asks: seq<Call>, spec: Spec, u: Unit, v: Vr, list: seq<VolumeStatus>,
    synced: seq<VolumeStatus>, taken: Vr, v': Vr, made: bool, backup: Option<Sts>, anew: Claim, smooth: bool)
    returns (k: Course)
    requires taken == v || taken == NotedDeleted(v, Names.BackupName(spec.vrName))
    requires (taken != v ==> !v.stsDeleted) && anew.pv.Some?
    requires synced == WithPhase(if taken == v then list else v.status.volumeStatuses, u, VSynced)
    requires v' == taken.(status := taken.status.(volumeStatuses := WithPhase(synced, u, VCompleted)))
    requires smooth ==>
               asks == asked + (if taken == v then [] else DownCalls(backup, taken)) + CopyCalls(spec, u, made)
                       + (SwapCalls(u, anew) + [PutStatus(v'.status)])
    ensures Stored(spec, u, v, list, k, v') && k.anew.pv.Some? && (smooth ==> asks == asked + SwitchCalls(spec, u, v, k))
  {
    hide WithPhase, Stored, Taken, NotedDeleted, SwitchCalls, DownCalls, CopyCalls, SwapCalls;
    k := NoCourse().(noted := taken != v, backup := backup, made := made, anew := anew, list := v'.status.volumeStatuses);
    StoredIs(spec, u, v, list, synced, taken, k, v');
    SwitchIs(asked, asks, spec, u, v, k, if taken == v then [] else DownCalls(backup, taken), smooth);
    StoredOpen(spec, u, v, list, k, v');
  }

  lemma StoredOpen(spec: Spec, u: Unit, v: Vr, list: seq<VolumeStatus>, k: Course, v': Vr)
    requires Stored(spec, u, v, list, k, v')
    ensures k.anew.pv.Some?
  {
  }

  ghost function NoCourse(): Course {
    Course(None, "", false, false, None, false, Claim(0, None, None, false, map[], false), [])
  }

  lemma SwitchIs(
    asked: seq<Call>, asks: seq<Call>, spec: Spec, u: Unit, v: Vr, k: Course, down: seq<Call>, smooth: bool)
    requires k.anew.pv.Some? && down == if k.noted then DownCalls(k.backup, Taken(spec, v, k.noted)) else []
    requires smooth ==>
               asks == asked + down + CopyCalls(spec, u, k.made) + SwapCalls(u, k.anew)
                       + [PutStatus(Taken(spec, v, k.noted).status.(volumeStatuses := k.list))]
    ensures smooth ==> asks == asked + SwitchCalls(spec, u, v, k)
  {
    hide DownCalls, CopyCalls, SwapCalls;
  }

  // Lines 210-349: from the claims to the recorded swap.
  method MigrateUnit(c: Cluster, vr: VolumeResize, u: Unit, ghost v: Vr)
    returns (stop: Option<Result>, ghost v': Vr, ghost k: Course)
    requires c.Valid() && vr.spec == c.w.spec && AtWork(c.w, v, u) && Drafted(v, vr.Value(), u)
    modifies c, vr
    ensures c.Valid() && Span(old(c.w), c.w, {Temp(u), Orig(u)}) && SameCursor(old(c.w), c.w)
    ensures stop == None ==> Settled(c.w, v', u) && Drafted(v', vr.Value(), u)
    ensures stop == None && Sound(c.w) ==> c.w.sts == None
    ensures stop == None ==>
              && Orig(u) in old(c.w).claims && old(c.w).claims[Orig(u)].pv == Some(k.oldPv)
              && Stored(vr.spec, u, v, Begun(vr.spec, u, k.oldPv, old(vr.volumeStatuses)), k, v')
    ensures stop.Some? ==> Ends(stop.value, c.w)
    ensures c.smooth ==> old(c.smooth) && (stop.Some? ==> stop.value != Error)
    ensures c.smooth && stop == None ==>
              k.anew.pv.Some? && c.asks == old(c.asks) + MigrationCalls(vr.spec, u, v, k)
    ensures c.smooth && Held(old(c.w)) && TempClear(old(c.w), u) ==> SameFlags(old(c.w), c.w)
    ensures c.smooth && NameFree(old(c.w), u) ==> stop.Some? && HasFailed(c.w)
    ensures c.smooth && Sound(c.w) && MissingIf(old(c.w), u) ==> stop.Some? && LeftMissing(c.w, u)
    ensures c.smooth && Sound(c.w) && Alive(old(c.w), Orig(u)) && TempReady(old(c.w), c.lateClasses, u) && stop.Some? ==>
              && Active(c.w, u) && Alive(c.w, Orig(u)) && NoTemp(old(c.w), u) && Alive(c.w, Temp(u))
              && (Consistent(old(c.w)) ==> Consistent(c.w))
  {
    hide Run, AtWork, Settled, Stretch, Drafted, OldSafe, Copied, Span, Sound, NameFree, TempReady, Alive;
    hide NoTemp, Active, Consistent, Absent, MissingIf, HasFailed, LeftMissing, Held, TempClear;
    hide SameFlags, SameCursor, AtUnit, CompletedAt, Begun, Stored, SwitchCalls, PreparingCalls, Preparing;
    hide MigrationCalls;
    v', k := v, NoCourse();
    ghost var w0, both, asked := c.w, {Temp(u), Orig(u)}, c.asks;
    ghost var oldPv, calls;
    stop, oldPv, calls := PrepareUnit(c, vr, u, v);
    ghost var w1 := c.w;
    StretchMeans(w0, w1, {Temp(u)});
    StretchSpan(w0, w1, {Temp(u)});
    SpanWiden(w0, w1, {Temp(u)}, both);
    if stop != None {
      InvRun(c.start, c.log, w1);
      StillMissing(w1, u);
      return;
    }
    ghost var begun := vr.volumeStatuses;
    stop, v', k := CopyAndSwap(c, vr, u, v);
    SpanTransitive(w0, w1, c.w, both, both, both);
    SpanSound(w1, c.w, both);
    SameCursorTransitive(w0, w1, c.w);
    SameFlagsTransitive(w0, w1, c.w);
    FailedMissing(c.w, u);
    ghost var k0 := k;
    k := WholeCourse(asked, c.asks, vr.spec, u, v, k, oldPv, calls, c.smooth && stop == None);
    StoredSame(vr.spec, u, v, begun, k0, k, v');
  }

  lemma WholeCourse(
    asked: seq<Call>, asks: seq<Call>, spec: Spec, u: Unit, v: Vr, k: Course, oldPv: PvName, calls: seq<Call>,
    smooth: bool) returns (k': Course)
    requires smooth ==>
               && k.anew.pv.Some? && Preparing(u, oldPv, calls)
               && asks == asked + calls + SwitchCalls(spec, u, v, k)
    ensures k' == k.(temp := k'.temp, oldPv := oldPv, keep := k'.keep)
    ensures smooth ==> k'.anew.pv.Some? && asks == asked + MigrationCalls(spec, u, v, k')
  {
    k' := k.(oldPv := oldPv);
    if smooth {
      var temp, keep :| PreparingCalls(u, temp, oldPv, keep) == calls;
      k' := k'.(temp := temp, keep := keep);
      SwitchSame(spec, u, v, k, k');
      Joined(asked, calls, SwitchCalls(spec, u, v, k));
    }
    hide PreparingCalls, SwitchCalls;
  }

  lemma StoredSame(spec: Spec, u: Unit, v: Vr, list: seq<VolumeStatus>, k: Course, k': Course, v': Vr)
    requires k' == k.(temp := k'.temp, oldPv := k'.oldPv, keep := k'.keep)
    ensures Stored(spec, u, v, list, k, v') <==> Stored(spec, u, v, list, k', v')
  {
    hide Ended, Taken;
  }

  // The rest of a migration does not depend on how it was prepared.
  lemma SwitchSame(spec: Spec, u: Unit, v: Vr, k: Course, k': Course)
    requires k.anew.pv.Some? && k' == k.(temp := k'.temp, oldPv := k'.oldPv, keep := k'.keep)
    ensures SwitchCalls(spec, u, v, k') == SwitchCalls(spec, u, v, k)
  {
    hide DownCalls, CopyCalls, SwapCalls;
  }

  lemma Joined(a: seq<Call>, b: seq<Call>, c: seq<Call>)
    ensures (a + b) + c == a + (b + c)
  {
  }

  // The outcome of a pass that found the original claim missing.
  ghost predicate LeftMissing(w: World, u: Unit) {
    HasFailed(w) || (Active(w, u) && Absent(w, u))
  }

  lemma FailedMissing(w: World, u: Unit)
    ensures HasFailed(w) ==> LeftMissing(w, u)
  {
    hide HasFailed, Active, Absent;
  }

  lemma StillMissing(w: World, u: Unit)
    requires Inv(w)
    ensures Sound(w) && MissingIf(w, u) && (HasFailed(w) || Active(w, u)) ==> LeftMissing(w, u)
  {
    if Active(w, u) {
      UnitKnown(w, u);
    }
    hide Inv, Active, Absent, HasFailed;
  }

  // With every claim rolled out, the unit at the cursor had one.
  lemma UnitKnown(w: World, u: Unit)
    requires Inv(w) && Active(w, u)
    ensures Sound(w) ==> u in w.past.first
  {
    hide Safe, SoleTemp, Excluded, Kept, Known, GapQuiet, GapAtCursor, Backed, Sized, CompletedAt;
    ActiveUnit(w, u);
    hide Full;
  }

  // A copy that is ready has its original claim.
  lemma CopiedAlive(w: World, v: Vr, u: Unit, copy: Option<PvName>)
    requires Inv(w) && AtWork(w, v, u) && Copied(w, u, copy)
    ensures Sound(w) && copy.Some? ==> !MissingIf(w, u)
  {
    AtWorkActive(w, v, u);
    UnitKnown(w, u);
    hide Inv, AtWork, Active, Quiet, Done, HomeHeld, NoMig;
  }

  lemma StillConsistent(w: World, w': World, v: Vr, u: Unit)
    requires AtUnit(w, v, u) && AtWork(w', v, u) && w'.sts == w.sts
    ensures Consistent(w) ==> Consistent(w')
  {
    hide CompletedAt;
  }

  // The annotation in memory is the stored one.
  lemma MarkOf(w: World, v: Vr, d: Vr, u: Unit)
    requires AtUnit(w, v, u) && Drafted(v, d, u)
    ensures w.vr.Some? && d.stsDeleted == w.vr.value.stsDeleted
  {
    hide SameExceptAt, CompletedAt;
  }

  lemma AtWorkUnit(w: World, v: Vr, u: Unit)
    requires AtWork(w, v, u)
    ensures AtUnit(w, v, u)
  {
  }

  lemma SpanWiden(w: World, w': World, a: set<ClaimKey>, b: set<ClaimKey>)
    requires Span(w, w', a) && a <= b
    ensures Span(w, w', b)
  {
    hide Later;
  }

  lemma CopiedQuiet(w: World, u: Unit, copy: Option<PvName>)
    requires Copied(w, u, copy)
    ensures Sound(w) ==> w.sts == None
  {
  }

  // Where a fault-free pass leaves a unit it found waiting to be migrated.
  ghost predicate Progressed(w0: World, w: World, u: Unit) {
    && Ahead(w0, w, u)
    && (Consistent(w0) ==> Consistent(w))
  }

  ghost predicate Ahead(w0: World, w: World, u: Unit) {
    || (Active(w, u) && Alive(w, Orig(u)) && NoTemp(w0, u) && Alive(w, Temp(u)))
    || (AtCompleted(w) && Cursor(w.vr.value.status) == Some(u) && w.sts.Some?)
    || (Advanced(w, u) && w.sts.Some?)
  }

  lemma CursorStored(w: World, v: Vr)
    requires Safe(w) && Holds(w, v) && v.status.phase == Syncing
    ensures Cursor(v.status).Some? && AtUnit(w, v, Cursor(v.status).value)
  {
    hide Recoverable, FirstKept, TempsAside, MountsAside, ClaimsLabelled, PodsLabelled, TemplatesLabelled;
    hide PodShape, Truthful, Ordered, Listed;
  }

  // A missing StatefulSet has a backup.
  lemma BackedUpWhenGone(start: World, log: seq<Action>, w: World, v: Vr, u: Unit)
    requires Run(start, log, w) && Settled(w, v, u)
    ensures w.sts == None ==> w.backup.Some?
    ensures w.backup.Some? ==> w.backup == w.past.sts0
  {
    InvRun(start, log, w);
    SafeOf(w);
    hide Run, Inv;
    SettledFails(w, v, u);
    UnitFacts(w, v, u);
    hide FirstKept, TempsAside, MountsAside, ClaimsLabelled, PodsLabelled, TemplatesLabelled, PodShape;
    hide Truthful, CursorOk, Units;
  }

  // The unit is recorded, or passed, beside a StatefulSet and a right annotation.
  ghost predicate Returned(w: World, u: Unit) {
    && w.sts.Some? && Consistent(w)
    && ((AtCompleted(w) && Cursor(w.vr.value.status) == Some(u)) || Advanced(w, u))
  }

  // Lines 351-427: the StatefulSet comes back, and the cursor moves on if the pod of
  // the replica is seen to run, in the world after i actions.
  method FinishUnit(c: Cluster, vr: VolumeResize, u: Unit, ghost v: Vr) returns (r: Result, ghost i: nat)
    requires c.Valid() && vr.spec == c.w.spec && Settled(c.w, v, u) && Drafted(v, vr.Value(), u)
    requires u !in c.w.book.bare
    modifies c, vr
    ensures c.Valid() && Span(old(c.w), c.w, {}) && SameFlags(old(c.w), c.w)
    ensures MovedFrom(c.w, u) ==> c.w.sts.Some? && |old(c.log)| <= i <= |c.log| && BackUp(c.Past(i), u)
    ensures r == NoRequeue ==> HasFailed(c.w)
    ensures r == Requeue ==> Advanced(c.w, u)
    ensures c.smooth ==> old(c.smooth) && r != Error
    ensures c.smooth && old(c.w).backup.Some? ==> Returned(c.w, u)
    ensures c.smooth && old(c.w).backup.Some? ==>
              && |old(c.log)| <= i <= |c.log|
              && if Runs(c.Past(i), u.replica) then Advanced(c.w, u) && r == Requeue
                 else !MovedFrom(c.w, u) && r == RequeueAfter(5)
    ensures c.smooth && MovedFrom(c.w, u) && old(c.w).backup.Some? ==>
              && c.w.vr.Some?
              && c.asks == old(c.asks) + BackCalls(old(c.w).backup.value, vr.spec, v) + [PutStatus(c.w.vr.value.status)]
  {
    hide Run, Settled, Drafted, Span, Advanced, Consistent, SameFlags, SameCursor, MovedFrom, Restored, Returned;
    hide BackUp, Runs, BackCalls, HasFailed;
    ghost var w0 := c.w;
    SettledStays(w0, v, u);
    var stop;
    ghost var v';
    stop, v', i := BringBack(c, vr, u, v);
    ghost var w1, made := c.w, c.log;
    StillHereToo(w0, w1, u);
    if stop != None {
      if Settled(w1, v', u) && w1.sts.Some? && !v'.stsDeleted {
        NowRecorded(w1, v', u);
      }
      return stop.value, i;
    }
    MarkCleared(w1, v', u);
    assert c.smooth && w0.backup.Some? ==> Runs(c.Past(i), u.replica);
    r := Advance(c, vr, u, v');
    assert c.log[..i] == made[..i];
    SpanTransitive(w0, w1, c.w, {}, {}, {});
    SameFlagsTransitive(w0, w1, c.w);
    NowReturned(c.w, u);
  }

  lemma SettledStays(w: World, v: Vr, u: Unit)
    requires Settled(w, v, u)
    ensures !MovedFrom(w, u)
  {
    hide CompletedAt;
  }

  lemma ReturnedProgress(w0: World, w: World, u: Unit)
    requires Returned(w, u)
    ensures Progressed(w0, w, u)
  {
    hide Advanced, AtCompleted, Active, Alive;
  }

  // All calls of a pass that takes a unit from the claims to the next unit, in order.
  ghost function PassCalls(w: World, u: Unit, v: Vr, k: Course, next: Status): seq<Call>
    requires k.anew.pv.Some? && w.past.sts0.Some?
  {
    MigrationCalls(w.spec, u, v, k) + BackCalls(w.past.sts0.value, w.spec, Taken(w.spec, v, k.noted)) + [PutStatus(next)]
  }

  // Lines 210-427: a unit that is not yet recorded.
  method ProcessUnit(c: Cluster, vr: VolumeResize, u: Unit, ghost v: Vr)
    returns (r: Result, ghost k: Course, ghost i: nat)
    requires c.Valid() && vr.spec == c.w.spec && AtWork(c.w, v, u) && Drafted(v, vr.Value(), u)
    modifies c, vr
    ensures c.Valid() && Span(old(c.w), c.w, {Temp(u), Orig(u)})
    ensures MovedFrom(c.w, u) ==> c.w.sts.Some? && i <= |c.log| && BackUp(c.Past(i), u)
    ensures r == NoRequeue ==> HasFailed(c.w)
    ensures r == Requeue ==> Advanced(c.w, u)
    ensures c.smooth ==> old(c.smooth) && r != Error
    ensures c.smooth && MovedFrom(c.w, u) && Sound(c.w) ==>
              && k.anew.pv.Some? && c.w.past.sts0.Some? && c.w.vr.Some? && c.w.spec == old(c.w).spec
              && c.asks == old(c.asks) + PassCalls(c.w, u, v, k, c.w.vr.value.status)
    ensures c.smooth && Held(old(c.w)) && TempClear(old(c.w), u) ==> SameFlags(old(c.w), c.w)
    ensures c.smooth && NameFree(old(c.w), u) ==> HasFailed(c.w)
    ensures c.smooth && Sound(c.w) && MissingIf(old(c.w), u) ==> LeftMissing(c.w, u)
    ensures c.smooth && Sound(c.w) && Alive(old(c.w), Orig(u)) && TempReady(old(c.w), c.lateClasses, u) ==>
              Progressed(old(c.w), c.w, u)
  {
    hide Run, Inv, Safe, AtWork, Settled, CompletedAt, Drafted, Span, Sound, NameFree, TempReady, Alive;
    hide NoTemp, Active, AtUnit, Advanced, BackUp, Runs, MigrationCalls, BackCalls;
    hide Progressed, Consistent, RetainedKept, MissingIf, HasFailed, LeftMissing, Held, Noted, Passed, TempClear;
    hide SameClaim, SameFlags;
    hide MovedFrom, SameCursor, Begun, Stored, Ends, Returned, PassCalls, Taken;
    ghost var w0, both, asked, list := c.w, {Temp(u), Orig(u)}, c.asks, vr.volumeStatuses;
    i := 0;
    NotBare(c.start, c.log, w0, v, u);
    var stop;
    ghost var v';
    stop, v', k := MigrateUnit(c, vr, u, v);
    ghost var w1 := c.w;
    SpanSound(w0, w1, both);
    StillHere(w0, w1, v, u);
    if stop != None {
      NowProgressed(w0, w1, u);
      EndsMeans(stop.value, w1);
      return stop.value, k, i;
    }
    BackedUpWhenGone(c.start, c.log, w1, v', u);
    r, i := FinishUnit(c, vr, u, v');
    SpanTransitive(w0, w1, c.w, both, {}, both);
    SpanSound(w1, c.w, {});
    SameFlagsTransitive(w0, w1, c.w);
    if Returned(c.w, u) {
      ReturnedProgress(w0, c.w, u);
    }
    if c.smooth && MovedFrom(c.w, u) && Sound(c.w) {
      StoredTaken(vr.spec, u, v, Begun(vr.spec, u, k.oldPv, list), k, v');
      PassIs(asked, c.asks, c.w, u, v, v', k, w1.backup.value, c.w.vr.value.status);
    }
  }

  lemma StoredTaken(spec: Spec, u: Unit, v: Vr, list: seq<VolumeStatus>, k: Course, v': Vr)
    requires Stored(spec, u, v, list, k, v')
    ensures v' == Taken(spec, v, k.noted).(status := v'.status)
  {
    hide Ended, Taken;
  }

  lemma PassIs(
    asked: seq<Call>, asks: seq<Call>, w: World, u: Unit, v: Vr, v': Vr, k: Course, backup: Sts, next: Status)
    requires k.anew.pv.Some? && w.past.sts0 == Some(backup)
    requires v' == Taken(w.spec, v, k.noted).(status := v'.status)
    requires asks == asked + MigrationCalls(w.spec, u, v, k) + BackCalls(backup, w.spec, v') + [PutStatus(next)]
    ensures asks == asked + PassCalls(w, u, v, k, next)
  {
    assert BackCalls(backup, w.spec, v') == BackCalls(backup, w.spec, Taken(w.spec, v, k.noted));
    hide MigrationCalls, BackCalls;
  }

  lemma EndsMeans(r: Result, w: World)
    requires Ends(r, w)
    ensures r != Requeue && (r == NoRequeue ==> HasFailed(w))
  {
    hide HasFailed;
  }

  // The stored cursor is not at u.
  ghost predicate MovedFrom(w: World, u: Unit) {
    w.vr.Some? && Cursor(w.vr.value.status) != Some(u)
  }

  // A unit that is not recorded was not found recorded by any pass.
  lemma NotBare(start: World, log: seq<Action>, w: World, v: Vr, u: Unit)
    requires Run(start, log, w) && AtWork(w, v, u)
    ensures u !in w.book.bare
  {
    MarksRun(start, log, w);
    hide CompletedAt, LastUnit, Run, Noted, Behind;
  }

  lemma StillHere(w: World, w': World, v: Vr, u: Unit)
    requires AtWork(w, v, u) && SameCursor(w, w')
    ensures !MovedFrom(w', u)
  {
    hide CompletedAt;
  }

  lemma StillHereToo(w: World, w': World, u: Unit)
    requires !MovedFrom(w, u) && SameCursor(w, w')
    ensures !MovedFrom(w', u)
  {
  }

  lemma MarkCleared(w: World, v: Vr, u: Unit)
    requires Settled(w, v, u) && !v.stsDeleted
    ensures Consistent(w)
  {
    hide CompletedAt;
  }

  // The temporary claim of the unit at work is there to stay, or no migrator pod of
  // that unit is left.
  ghost predicate TempsClear(w: World) {
    w.vr.Some? && Unrecorded(w.vr.value.status) ==> TempClear(w, Cursor(w.vr.value.status).value)
  }

  lemma ClearHere(w: World, v: Vr, u: Unit)
    requires AtWork(w, v, u)
    ensures TempsClear(w) ==> TempClear(w, u)
  {
    hide CompletedAt, TempClear;
  }

  method HandleSyncing(c: Cluster, vr: VolumeResize, ghost v: Vr) returns (r: Result, ghost i: nat)
    requires c.Valid() && vr.spec == c.w.spec && Holds(c.w, v) && v.status.phase == Syncing && vr.Value() == v
    requires Began(c.w)
    modifies c, vr
    ensures c.Valid() && Cursor(v.status).Some?
    ensures var u := Cursor(v.status).value; Span(old(c.w), c.w, {Temp(u), Orig(u)})
    ensures var u := Cursor(v.status).value;
            if CompletedAt(v.status.volumeStatuses, u)
            then c.w.sts == old(c.w).sts && (c.w.sts.Some? || u in c.w.book.bare)
            else MovedFrom(c.w, u) ==> c.w.sts.Some? && i <= |c.log| && BackUp(c.Past(i), u)
    ensures r == NoRequeue ==> HasFailed(c.w)
    ensures r == Requeue ==> Advanced(c.w, Cursor(v.status).value)
    ensures c.smooth ==> old(c.smooth) && r != Error
    ensures c.smooth && Consistent(old(c.w)) && Held(old(c.w)) && TempsClear(old(c.w)) ==> SameFlags(old(c.w), c.w)
    ensures var u := Cursor(v.status).value;
            c.smooth && CompletedAt(v.status.volumeStatuses, u) ==>
              Advanced(c.w, u) && (Consistent(old(c.w)) ==> Consistent(c.w))
    ensures var u := Cursor(v.status).value;
            c.smooth && !CompletedAt(v.status.volumeStatuses, u) && NameFree(old(c.w), u) ==> HasFailed(c.w)
    ensures var u := Cursor(v.status).value;
            c.smooth && Sound(c.w) && !CompletedAt(v.status.volumeStatuses, u) && MissingIf(old(c.w), u) ==>
              LeftMissing(c.w, u)
    ensures var u := Cursor(v.status).value;
            (c.smooth && Sound(c.w) && !CompletedAt(v.status.volumeStatuses, u) && Alive(old(c.w), Orig(u))
             && TempReady(old(c.w), c.lateClasses, u)) ==> Progressed(old(c.w), c.w, u)
  {
    hide Run, Inv, Safe, AtWork, Settled, CompletedAt, Drafted, Span, Sound, NameFree, TempReady, Holds;
    hide Alive, NoTemp, Active, AtUnit;
    hide Progressed, Consistent, Advanced, MissingIf, HasFailed, LeftMissing, Held, MovedFrom, Began;
    hide TempClear, TempsClear, BackUp, PassCalls;
    i := 0;
    ghost var w0 := c.w;
    InvRun(c.start, c.log, w0);
    SafeOf(w0);
    CursorStored(w0, v);
    var u := Unit(vr.currentReplica.value, vr.currentVolume);
    DraftedSame(v, vr.Value(), u);
    var recorded := IsRecorded(vr, u);
    if recorded {
      NowSettled(w0, v, u);
      BeganHere(w0, v, u);
      r := Advance(c, vr, u, v);
      SpanWiden(w0, c.w, {}, {Temp(u), Orig(u)});
      SpanWorld(w0, c.w, {Temp(u), Orig(u)});
      if c.smooth {
        MarkStays(w0, c.w, v);
      }
    } else {
      NowAtWork(w0, v, u);
      ClearHere(w0, v, u);
      ghost var k;
      r, k, i := ProcessUnit(c, vr, u, v);
    }
  }

  lemma BeganHere(w: World, v: Vr, u: Unit)
    requires Began(w) && Settled(w, v, u)
    ensures w.sts.Some? || u in w.book.bare
  {
    SettledCompleted(w, v, u);
    hide CompletedAt;
  }

  lemma NowSettled(w: World, v: Vr, u: Unit)
    requires AtUnit(w, v, u) && CompletedAt(v.status.volumeStatuses, u)
    ensures Settled(w, v, u)
  {
  }

  lemma NowAtWork(w: World, v: Vr, u: Unit)
    requires AtUnit(w, v, u) && !CompletedAt(v.status.volumeStatuses, u)
    ensures AtWork(w, v, u)
  {
  }

  lemma MarkStays(w: World, w': World, v: Vr)
    requires Holds(w, v) && w'.vr.Some? && w'.vr.value.stsDeleted == v.stsDeleted && w'.sts == w.sts
    ensures Consistent(w) ==> Consistent(w')
  {
  }

  lemma NowProgressed(w0: World, w: World, u: Unit)
    ensures (&& Active(w, u) && Alive(w, Orig(u)) && NoTemp(w0, u) && Alive(w, Temp(u))
             && (Consistent(w0) ==> Consistent(w))) ==> Progressed(w0, w, u)
  {
    hide Active, Advanced;
  }

  lemma NowReturned(w: World, u: Unit)
    ensures Advanced(w, u) && w.sts.Some? && !w.vr.value.stsDeleted ==> Returned(w, u)
  {
    hide AtCompleted;
  }

  lemma NowRecorded(w: World, v: Vr, u: Unit)
    requires Settled(w, v, u) && w.sts.Some? && !v.stsDeleted
    ensures Returned(w, u)
  {
    SettledCompleted(w, v, u);
    hide CompletedAt;
  }
}
