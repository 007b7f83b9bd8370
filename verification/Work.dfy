/**
  What the operator's own calls do to the facts a pass relies on.
 */
module Work {
  import opened Types
  import opened Protocol
  import opened Safety
  import opened Placement
  import opened Custody
  import opened Rely
  import opened Api

  // The stored resource is v, up to a deletion mark set by the user.
  ghost predicate Holds(w: World, v: Vr) {
    w.vr.Some? && v.finalizer && !w.book.swept && w.vr.value.(deleting := v.deleting) == v
  }

  // Calls other than resource updates and sweeps.
  predicate IsUnitCall(c: Call) {
    !c.PutMeta? && !c.PutStatus? && !c.SweepClaim? && !c.SweepPod? && !c.BeginPass?
  }

  ghost predicate Alive(w: World, k: ClaimKey) {
    k in w.claims && !w.claims[k].terminating
  }

  ghost predicate Undeleted(w: World) {
    w.vr.Some? && !w.vr.value.deleting
  }

  // What every stretch of a pass keeps.
  ghost predicate Later(w: World, w': World) {
    && w'.spec == w.spec && w'.past == w.past
    && (Sound(w') ==> Sound(w)) && (Undeleted(w') ==> Undeleted(w))
    && (w'.book.h1 ==> w.book.h1) && (w'.book.h2 ==> w.book.h2) && (w'.book.h3 ==> w.book.h3)
    && (w'.book.h4 ==> w.book.h4) && (w'.book.h6 ==> w.book.h6)
    && w'.book.bare == w.book.bare
    && RetainedKept(w, w')
  }

  // No pass takes back the Retain policy.
  ghost predicate RetainedKept(w: World, w': World) {
    forall n :: Retained(w, n) ==> Retained(w', n)
  }

  // The hypotheses that depend on the operator's own faults hold as before.
  ghost predicate SameFlags(w: World, w': World) {
    && w'.book.h1 == w.book.h1 && w'.book.h2 == w.book.h2 && w'.book.h3 == w.book.h3
    && w'.book.h4 == w.book.h4 && w'.book.h6 == w.book.h6
  }

  predicate IsFlagCall(c: Call) {
    c.ReleasePv? || c.FallThrough? || (c.CreateClaim? && c.key.Temp?)
  }

  // The stored cursor is where it was.
  ghost predicate SameCursor(w: World, w': World) {
    w'.vr.Some? ==> w.vr.Some? && Cursor(w'.vr.value.status) == Cursor(w.vr.value.status)
  }

  // The same, without an update of the resource.
  ghost predicate Onward(w: World, w': World) {
    Later(w, w') && SameVr(w.vr, w'.vr) && w'.book.swept == w.book.swept
  }

  // Living claims outside the given keys stay as they are.
  ghost predicate OthersKept(w: World, w': World, changed: set<ClaimKey>) {
    forall k :: k in w.claims && !w.claims[k].terminating && k !in changed ==>
      k in w'.claims && SameClaim(w.claims[k], w'.claims[k])
  }

  ghost predicate NoNewTemps(w: World, w': World, changed: set<ClaimKey>) {
    forall u :: NoTemp(w, u) && Temp(u) !in changed ==> NoTemp(w', u)
  }

  // Original claims outside the given keys do not come back.
  ghost predicate NoneReturned(w: World, w': World, changed: set<ClaimKey>) {
    forall u :: MissingIf(w, u) && Orig(u) !in changed ==> MissingIf(w', u)
  }

  lemma OnwardTransitive(w: World, w': World, w'': World)
    requires Onward(w, w') && Onward(w', w'')
    ensures Onward(w, w'')
  {
    hide Retained, Sound, Undeleted;
  }

  lemma ReliedOnward(w: World, w': World)
    requires Relied(w, w')
    ensures Onward(w, w')
  {
    hide KeepsPods, KeepsCopies, Retained, SameClaim;
  }

  lemma CalledOnward(w: World, c: Call)
    requires IsUnitCall(c) && CanCall(w, c)
    ensures Onward(w, Called(w, c))
  {
    CalledRetains(w, c);
    hide RetainedKept, AllHeld;
  }

  lemma CalledRetains(w: World, c: Call)
    requires IsUnitCall(c) && CanCall(w, c)
    ensures RetainedKept(w, Called(w, c))
  {
    hide AllHeld;
  }

  lemma OnwardActive(w: World, w': World, u: Unit)
    requires Onward(w, w') && Active(w, u)
    ensures Active(w', u)
  {
    hide CompletedAt;
  }

  /** Frames */

  // A stretch of a pass that leaves the claims outside the given keys alone.
  ghost predicate Span(w: World, w': World, changed: set<ClaimKey>) {
    && Later(w, w') && OthersKept(w, w', changed)
    && NoNewTemps(w, w', changed) && NoneReturned(w, w', changed)
  }

  // The same, without an update of the resource.
  ghost predicate Frame(w: World, w': World, changed: set<ClaimKey>) {
    && Onward(w, w') && OthersKept(w, w', changed)
    && NoNewTemps(w, w', changed) && NoneReturned(w, w', changed)
  }

  lemma SpanTransitive(w: World, w': World, w'': World, a: set<ClaimKey>, b: set<ClaimKey>, changed: set<ClaimKey>)
    requires Span(w, w', a) && Span(w', w'', b) && a <= changed && b <= changed
    ensures Span(w, w'', changed)
  {
    hide Retained, Sound, Undeleted;
  }

  lemma FrameSpan(w: World, w': World, changed: set<ClaimKey>)
    requires Frame(w, w', changed)
    ensures Span(w, w', changed)
  {
  }

  ghost predicate SameHomes(w: World, w': World) {
    w'.book.home == w.book.home && w'.book.staged == w.book.staged
  }

  ghost function KeyOf(c: Call): set<ClaimKey> {
    if c.CreateClaim? || c.DeleteClaim? then {c.key} else {}
  }

  lemma FrameCalled(w: World, c: Call)
    requires IsUnitCall(c) && CanCall(w, c)
    ensures Frame(w, Called(w, c), KeyOf(c))
  {
    CalledOnward(w, c);
    hide Onward;
  }

  lemma FrameRelied(w: World, w': World)
    requires Relied(w, w')
    ensures Frame(w, w', {}) && SameHomes(w, w') && SameFlags(w, w')
  {
    ReliedOnward(w, w');
    hide KeepsPods, KeepsCopies, Retained, SameClaim, Onward, NoTemp, TempGoing, NameFree;
  }

  lemma FrameTransitive(w: World, w': World, w'': World, a: set<ClaimKey>, b: set<ClaimKey>, changed: set<ClaimKey>)
    requires Frame(w, w', a) && Frame(w', w'', b) && a <= changed && b <= changed
    ensures Frame(w, w'', changed)
  {
    OnwardTransitive(w, w', w'');
    hide Onward;
  }

  lemma FrameEffect(w: World, c: Call, e: Reply, w': World)
    requires IsUnitCall(c) && Effect(w, c, e, w')
    ensures Frame(w, w', KeyOf(c))
    ensures !(c.CreateClaim? && c.key.Orig?) ==> w'.book.home == w.book.home
    ensures !c.ReleasePv? ==> w'.book.staged == w.book.staged
    ensures !IsFlagCall(c) ==> SameFlags(w, w')
  {
    hide Relied, CanCall, Called, Frame;
    if CanCall(w, c) && Relied(Called(w, c), w') {
      FrameCalled(w, c);
      CalledHomes(w, c);
      FrameRelied(Called(w, c), w');
      FrameTransitive(w, Called(w, c), w', KeyOf(c), {}, KeyOf(c));
    } else {
      FrameRelied(w, w');
      FrameTransitive(w, w', w', {}, {}, KeyOf(c)) by { FrameIdle(w'); }
    }
  }

  lemma CalledHomes(w: World, c: Call)
    requires IsUnitCall(c) && CanCall(w, c)
    ensures !(c.CreateClaim? && c.key.Orig?) ==> Called(w, c).book.home == w.book.home
    ensures !c.ReleasePv? ==> Called(w, c).book.staged == w.book.staged
    ensures !IsFlagCall(c) ==> SameFlags(w, Called(w, c))
  {
  }

  // The temporary claim is there to stay, or no migrator pod is left.
  ghost predicate TempClear(w: World, u: Unit) {
    Alive(w, Temp(u)) || NoMig(w, u)
  }

  lemma ClearRelied(w: World, w': World, u: Unit)
    requires Relied(w, w')
    ensures TempClear(w, u) ==> TempClear(w', u)
    ensures NoMig(w, u) ==> NoMig(w', u)
  {
    hide Quieter, KeepsCopies;
  }

  // A temporary claim created while every original claim holds its volume, and no
  // migrator pod of the unit is left.
  lemma TempFlags(w: World, c: Call, e: Reply, w': World)
    requires c.CreateClaim? && c.key.Temp? && Effect(w, c, e, w') && Held(w) && NoMig(w, c.key.unit)
    ensures SameFlags(w, w')
  {
    hide Relied;
    if CanCall(w, c) && Relied(Called(w, c), w') {
      TempCalled(w, c);
      FrameRelied(Called(w, c), w');
    } else {
      FrameRelied(w, w');
    }
    hide Frame, SameHomes, Held, Called;
  }

  lemma TempCalled(w: World, c: Call)
    requires c.CreateClaim? && c.key.Temp? && CanCall(w, c) && Held(w) && NoMig(w, c.key.unit)
    ensures SameFlags(w, Called(w, c))
  {
    hide AllHeld;
  }

  lemma HeldRelied(w: World, w': World)
    requires Relied(w, w')
    ensures Held(w) ==> Held(w')
  {
    hide Quieter, KeepsPods, KeepsClaims, Held;
  }

  lemma FrameIdle(w: World)
    ensures Frame(w, w, {})
  {
    RelyReflexive(w);
    hide Relied, Frame;
    FrameRelied(w, w);
  }

  lemma FrameMeans(w: World, w': World, changed: set<ClaimKey>)
    requires Frame(w, w', changed)
    ensures w'.spec == w.spec && w'.past == w.past && (Sound(w') ==> Sound(w))
    ensures (w'.book.h1 ==> w.book.h1) && (w'.book.h2 ==> w.book.h2) && (w'.book.h4 ==> w.book.h4)
  {
    hide Retained, Sound;
  }

  lemma FrameActive(w: World, w': World, changed: set<ClaimKey>, u: Unit)
    requires Frame(w, w', changed) && Active(w, u)
    ensures Active(w', u)
  {
    OnwardActive(w, w', u);
  }

  lemma AliveRelied(w: World, w': World, k: ClaimKey)
    requires Relied(w, w')
    ensures Alive(w, k) ==> Alive(w', k) && SameClaim(w.claims[k], w'.claims[k])
  {
    hide Quieter, KeepsPods, KeepsCopies;
  }

  /** Claims and volumes */

  // Calls that leave the StatefulSet alone and start no pod.
  predicate IsStorageCall(c: Call) {
    || c.CreateClaim? || c.DeleteClaim? || c.RetainPv? || c.ReleasePv?
    || c.DeletePod? || c.FallThrough?
  }

  // The StatefulSet stayed, no pod was started, and of the claims only the
  // given ones were worked on.
  ghost predicate Storage(w: World, w': World, changed: set<ClaimKey>) {
    && Frame(w, w', changed)
    && w'.sts == w.sts && w'.backup == w.backup && KeepsPods(w, w')
  }

  lemma StorageCalled(w: World, c: Call)
    requires IsStorageCall(c) && CanCall(w, c)
    ensures Storage(w, Called(w, c), KeyOf(c))
  {
    hide CanCall, Called, Frame, KeepsPods;
    FrameCalled(w, c);
    StorageCallPods(w, c);
  }

  lemma StorageCallPods(w: World, c: Call)
    requires IsStorageCall(c) && CanCall(w, c)
    ensures var w' := Called(w, c); w'.sts == w.sts && w'.backup == w.backup && KeepsPods(w, w')
  {
  }

  lemma StorageRelied(w: World, w': World)
    requires Relied(w, w')
    ensures Storage(w, w', {}) && SameHomes(w, w') && SameFlags(w, w') && w'.spec == w.spec && w'.past == w.past
  {
    FrameRelied(w, w');
    hide KeepsPods, KeepsCopies, KeepsClaims, Frame;
  }

  lemma StorageTransitive(w: World, w': World, w'': World, a: set<ClaimKey>, b: set<ClaimKey>, changed: set<ClaimKey>)
    requires Storage(w, w', a) && Storage(w', w'', b) && a <= changed && b <= changed
    ensures Storage(w, w'', changed)
  {
    FrameTransitive(w, w', w'', a, b, changed);
    hide Frame, Quiet, Done, NoMig, MigGoing, AppGoing, MigLost;
  }

  // The environment, or more of the same, after work on the given claims.
  lemma StorageThenRelied(w: World, w': World, w'': World, changed: set<ClaimKey>)
    requires Storage(w, w', changed) && Relied(w', w'')
    ensures Storage(w, w'', changed) && SameHomes(w', w'') && SameFlags(w', w'')
  {
    StorageRelied(w', w'');
    StorageTransitive(w, w', w'', changed, {}, changed);
    hide Storage, Relied;
  }

  lemma StorageTwice(w: World, w': World, w'': World, changed: set<ClaimKey>)
    requires Storage(w, w', changed) && Storage(w', w'', changed)
    ensures Storage(w, w'', changed)
  {
    StorageTransitive(w, w', w'', changed, changed, changed);
    hide Storage;
  }

  lemma StorageEffect(w: World, c: Call, e: Reply, w': World)
    requires IsStorageCall(c) && Effect(w, c, e, w')
    ensures Storage(w, w', KeyOf(c))
    ensures !(c.CreateClaim? && c.key.Orig?) ==> w'.book.home == w.book.home
    ensures !c.ReleasePv? ==> w'.book.staged == w.book.staged
    ensures !IsFlagCall(c) ==> SameFlags(w, w')
  {
    FrameEffect(w, c, e, w');
    hide Relied, CanCall, Called, Storage;
    if CanCall(w, c) && Relied(Called(w, c), w') {
      StorageCalled(w, c);
      StorageRelied(Called(w, c), w');
      StorageTransitive(w, Called(w, c), w', KeyOf(c), {}, KeyOf(c));
    } else {
      StorageRelied(w, w');
      StorageTransitive(w, w', w', {}, {}, KeyOf(c)) by { StorageIdle(w'); }
    }
  }

  lemma StorageIdle(w: World)
    ensures Storage(w, w, {})
  {
    RelyReflexive(w);
    hide Relied, Storage;
    StorageRelied(w, w);
  }

  lemma SameHomesTransitive(w: World, w': World, w'': World)
    requires SameHomes(w, w') && SameHomes(w', w'')
    ensures SameHomes(w, w'')
  {
  }

  lemma SameFlagsTransitive(w: World, w': World, w'': World)
    ensures SameFlags(w, w') && SameFlags(w', w'') ==> SameFlags(w, w'')
  {
  }

  lemma StorageActive(w: World, w': World, changed: set<ClaimKey>, u: Unit)
    requires Storage(w, w', changed) && Active(w, u)
    ensures Active(w', u)
  {
    OnwardActive(w, w', u);
  }

  lemma StorageRetained(w: World, w': World, changed: set<ClaimKey>, n: PvName)
    requires Storage(w, w', changed) && Retained(w, n)
    ensures Retained(w', n)
  {
    hide Retained, Sound;
  }

  lemma StorageMeans(w: World, w': World, changed: set<ClaimKey>)
    requires Storage(w, w', changed)
    ensures w'.spec == w.spec && w'.past == w.past && w'.sts == w.sts && w'.backup == w.backup && (Sound(w') ==> Sound(w))
    ensures (w'.book.h1 ==> w.book.h1) && (w'.book.h2 ==> w.book.h2) && (w'.book.h4 ==> w.book.h4)
  {
    hide Retained, Sound;
  }

  lemma StorageNoTemp(w: World, w': World, changed: set<ClaimKey>, u: Unit)
    requires Storage(w, w', changed) && Temp(u) !in changed && NoTemp(w, u)
    ensures NoTemp(w', u)
  {
    hide Onward, OthersKept, KeepsPods;
  }

  lemma StorageWiden(w: World, w': World, a: set<ClaimKey>, b: set<ClaimKey>)
    requires Storage(w, w', a) && a <= b
    ensures Storage(w, w', b)
  {
    hide Onward, KeepsPods;
  }

  lemma StorageQuiet(w: World, w': World, changed: set<ClaimKey>, r: nat)
    requires Storage(w, w', changed) && Quiet(w, r)
    ensures Quiet(w', r)
  {
    hide Onward, OthersKept, NoNewTemps;
  }

  // Volume of the original claim, as read by a pass.
  ghost predicate OldPv(w: World, u: Unit, n: PvName) {
    && (u in w.past.first ==> w.past.first[u] == n || Retained(w, w.past.first[u]))
    && (Sound(w) ==> u in w.book.home && w.book.home[u] == n)
  }

  // No claim deletion of this unit can destroy a volume that matters.
  ghost predicate OldSafe(w: World, u: Unit) {
    && (u in w.past.first ==> Retained(w, w.past.first[u]))
    && (Sound(w) ==> u in w.book.home && Retained(w, w.book.home[u]))
  }

  lemma OldPvRead(w: World, u: Unit)
    requires Inv(w) && Active(w, u) && Orig(u) in w.claims && w.claims[Orig(u)].pv.Some?
    ensures OldPv(w, u, w.claims[Orig(u)].pv.value)
  {
    ActiveUnit(w, u);
    hide SpecOk, Recoverable, TempsAside, MountsAside, ClaimsLabelled, PodsLabelled, TemplatesLabelled;
    hide PodShape, CursorOk, Truthful;
    hide SoleTemp, Excluded, Crewed, MigAt, HomeRetained, HomeInjective, HomeRef, TempRef, HomeData, Known;
    hide GapQuiet, GapAtCursor, Backed, Sized;
  }

  lemma OldPvKept(w: World, w': World, u: Unit, n: PvName)
    requires OldPv(w, u, n) && Onward(w, w') && w'.book.home == w.book.home
    ensures OldPv(w', u, n)
  {
    hide Retained, Sound;
  }

  lemma OldSafeKept(w: World, w': World, u: Unit)
    requires OldSafe(w, u) && Onward(w, w') && w'.book.home == w.book.home
    ensures OldSafe(w', u)
  {
    hide Retained, Sound;
  }

  lemma OldPvRetained(w: World, u: Unit, n: PvName)
    requires OldPv(w, u, n) && Retained(w, n)
    ensures OldSafe(w, u)
  {
  }

  /** The copy, step by step */

  lemma ReadyRelied(w: World, w': World, u: Unit, copy: Option<PvName>)
    requires Relied(w, w')
    ensures ReadyIf(w, u, copy) ==> ReadyIf(w', u, copy)
  {
    hide Quieter, KeepsPods, ReadyIf;
  }

  lemma CleanupKeepsReady(w: World, u: Unit, copy: Option<PvName>)
    requires Mig(u) in w.pods && ReadyIf(w, u, copy)
    ensures ReadyIf(Called(w, DeletePod(Mig(u))), u, copy)
  {
    hide CompletedAt;
  }

  // A ready copy is staged once its volume is retained, and stays staged when its
  // temporary claim is deleted.
  lemma RetainStages(w: World, u: Unit, m: PvName)
    requires ReadyIf(w, u, Some(m)) && m in w.pvs
    ensures StagedIf(Called(w, RetainPv(m)), u, m)
  {
    hide CompletedAt;
  }

  lemma DeleteTempKeepsStaged(w: World, u: Unit, m: PvName)
    requires StagedIf(w, u, m) && Temp(u) in w.claims
    ensures StagedIf(Called(w, DeleteClaim(Temp(u))), u, m)
  {
    hide CompletedAt;
  }

  lemma ReleaseLoosens(w: World, u: Unit, m: PvName)
    requires StagedIf(w, u, m) && m in w.pvs
    ensures LooseIf(Called(w, ReleasePv(u, m)), u, m)
  {
    hide CompletedAt;
  }

  lemma DeleteOrigKeepsLoose(w: World, u: Unit, m: PvName)
    requires LooseIf(w, u, m) && Orig(u) in w.claims
    ensures LooseIf(Called(w, DeleteClaim(Orig(u))), u, m)
  {
    hide CompletedAt;
  }

  lemma LooseMeans(w: World, u: Unit, m: PvName)
    requires LooseIf(w, u, m)
    ensures Sound(w) ==> Done(w, u) && NoTemp(w, u) && Staged(w, u, m) && w.pvs[m].claimRef == None
  {
  }

  // Facts read off the temporary claim.
  lemma TempRead(w: World, u: Unit, copy: Option<PvName>)
    requires Inv(w) && Temp(u) in w.claims && w.claims[Temp(u)].pv.Some? && ReadyIf(w, u, copy)
    ensures NotFirst(w, w.claims[Temp(u)].pv.value)
    ensures ReadyIf(w, u, w.claims[Temp(u)].pv)
  {
    hide SpecOk, Recoverable, FirstKept, MountsAside, ClaimsLabelled, PodsLabelled, TemplatesLabelled;
    hide PodShape, CursorOk, Truthful;
    hide Placed, SoleTemp, Excluded, Kept, Active, HomeHeld;
    assert NotFirstOf(w.past, w.claims[Temp(u)].pv.value);
  }

  // The volume a temporary claim names exists.
  lemma TempVolume(w: World, u: Unit, m: PvName)
    requires Inv(w)
    ensures Sound(w) && Temp(u) in w.claims && w.claims[Temp(u)].pv == Some(m) ==> m in w.pvs
  {
    hide Safe, Placed, Excluded, Kept, OneTemp, TempSized, TempsAtCursor;
  }

  lemma OrigUnlabelled(w: World, k: ClaimKey)
    requires Inv(w) && k in w.claims && k.Orig?
    ensures !Owned(w.spec, w.claims[k].labels)
  {
    hide SpecOk, Recoverable, FirstKept, TempsAside, MountsAside, PodsLabelled, TemplatesLabelled, PodShape;
    hide CursorOk, Truthful;
    hide Placed, SoleTemp, Excluded, Kept;
  }
}
