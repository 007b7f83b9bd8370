/**
  Claims and volumes: the temporary claim, the Retain policy, and the swap of
  the original claim onto the copied volume (pvc.go).
 */
module Pvc {
  import opened Types
  import Names
  import opened Enumeration
  import opened Protocol
  import opened Safety
  import opened Placement
  import opened Custody
  import opened Rely
  import opened Api
  import opened Work

  function TempClaim(spec: Spec, u: Unit, vol: Target, original: Claim): Claim {
    Claim(vol.newSize, if vol.storageClass.Some? then vol.storageClass else original.storageClass,
          None, false, MigrationLabels(spec, u), false)
  }

  lemma MayCreateTemp(w: World, u: Unit, original: Claim)
    requires Active(w, u) && IsTarget(w.spec.volumes, u.volume) && NoTemp(w, u)
    ensures Guard(w, CreateClaim(Temp(u), TempClaim(w.spec, u, TargetOf(w.spec.volumes, u.volume), original)))
  {
  }

  // A temporary claim that was not found stays missing until it is created.
  lemma TempMissing(w: World, w': World, u: Unit)
    requires Relied(w, w') && Temp(u) !in w.claims
    ensures NoTemp(w', u) && Temp(u) !in w'.claims && (TempClear(w, u) ==> NoMig(w', u))
  {
    ClearRelied(w, w', u);
    hide Quieter, KeepsPods, KeepsCopies;
    assert NoTemp(w, u);
  }

  lemma CreatedEffect(w: World, k: ClaimKey, claim: Claim, e: Reply, w': World)
    requires !claim.terminating && Effect(w, CreateClaim(k, claim), e, w')
    ensures e == Ok ==> Alive(w', k) && SameClaim(claim, w'.claims[k])
    ensures e != NotFound && (e == AlreadyExists ==> k in w.claims)
  {
    if e == Ok {
      hide CanCall, Relied;
      AliveRelied(Called(w, CreateClaim(k, claim)), w', k);
    }
  }

  // A temporary claim of the new size, of the target's class or else the original's,
  // and labelled with the resource, the replica and the volume.
  ghost predicate NewTemp(spec: Spec, u: Unit, vol: Target, original: Claim, temp: Claim) {
    && temp.size == vol.newSize && temp.pv == None && !temp.bound && !temp.terminating
    && (vol.storageClass.Some? ==> temp.storageClass == vol.storageClass)
    && (vol.storageClass == None ==> temp.storageClass == original.storageClass)
    && Owned(spec, temp.labels)
    && REPLICA_LABEL in temp.labels && temp.labels[REPLICA_LABEL] == Names.Decimal(u.replica)
    && VOLUME_LABEL in temp.labels && temp.labels[VOLUME_LABEL] == u.volume
  }

  lemma NewIsAlive(spec: Spec, u: Unit, vol: Target, original: Claim, temp: Claim)
    requires NewTemp(spec, u, vol, original, temp)
    ensures !temp.terminating && !temp.bound && temp.pv == None
  {
  }

  lemma TempIsNew(spec: Spec, u: Unit, vol: Target, original: Claim)
    ensures NewTemp(spec, u, vol, original, TempClaim(spec, u, vol, original))
  {
  }

  // The temporary claim, found or created.
  method CreateTempPVC(c: Cluster, spec: Spec, u: Unit, vol: Target, original: Claim)
    returns (e: Reply, temp: Option<Claim>)
    requires c.Valid() && spec == c.w.spec && Active(c.w, u)
    requires IsTarget(spec.volumes, u.volume) && vol == TargetOf(spec.volumes, u.volume)
    modifies c
    ensures c.Valid() && Storage(old(c.w), c.w, {Temp(u)}) && SameHomes(old(c.w), c.w)
    ensures Held(old(c.w)) && TempClear(old(c.w), u) ==> SameFlags(old(c.w), c.w)
    ensures e == Ok ==>
              && temp.Some?
              && if Temp(u) in old(c.w).claims then temp.value == old(c.w).claims[Temp(u)]
                 else NewTemp(spec, u, vol, original, temp.value)
    ensures c.smooth ==> old(c.smooth) && e == Ok
    ensures c.smooth ==>
              c.asks == old(c.asks) + if Temp(u) in old(c.w).claims then [] else [CreateClaim(Temp(u), temp.value)]
    ensures c.smooth && !temp.value.terminating ==> Temp(u) in c.w.claims && SameClaim(temp.value, c.w.claims[Temp(u)])
  {
    hide Run, Inv, Called, CanCall, Guard, Active, Storage, SameHomes, Held, Relied, Effect, NoTemp, TempClear;
    hide IsTarget, TargetOf, SameClaim, TempClaim, NewTemp;
    ghost var w0 := c.w;
    e, temp := c.GetClaim(Temp(u));
    ghost var w1 := c.w;
    StorageRelied(w0, w1);
    HeldRelied(w0, w1);
    StorageActive(w0, w1, {}, u);
    AliveRelied(w0, w1, Temp(u));
    if e == Ok || e != NotFound {
      StorageTransitive(w0, w1, w1, {}, {}, {Temp(u)}) by { StorageIdle(w1); }
      return;
    }
    TempMissing(w0, w1, u);
    var claim := TempClaim(spec, u, vol, original);
    MayCreateTemp(w1, u, original);
    TempIsNew(spec, u, vol, original);
    assert !claim.terminating by { NewIsAlive(spec, u, vol, original, claim); }
    e := c.Issue(CreateClaim(Temp(u), claim));
    StorageEffect(w1, CreateClaim(Temp(u), claim), e, c.w);
    CreatedEffect(w1, Temp(u), claim, e, c.w);
    if Held(w1) && TempClear(w0, u) {
      TempFlags(w1, CreateClaim(Temp(u), claim), e, c.w);
    }
    StorageTransitive(w0, w1, c.w, {}, {Temp(u)}, {Temp(u)});
    SameHomesTransitive(w0, w1, c.w);
    temp := Some(claim);
  }

  /** Retain */

  lemma HomeExists(w: World, u: Unit)
    requires Inv(w)
    ensures Sound(w) && u in w.book.home ==> w.book.home[u] in w.pvs
  {
    hide Safe, Placed, SoleTemp, Excluded, Crewed, MigAt, HomeNamed, HomeRetained, HomeInjective, HomeRef, TempRef;
  }

  // Volume n gets the Retain policy. The ghost unit says whose home it may be.
  method SetRetainOnPV(c: Cluster, n: PvName, ghost u: Unit) returns (e: Reply)
    requires c.Valid()
    modifies c
    ensures c.Valid() && Storage(old(c.w), c.w, {}) && SameHomes(old(c.w), c.w)
    ensures SameFlags(old(c.w), c.w)
    ensures e == Ok ==> Retained(c.w, n)
    ensures c.smooth ==> old(c.smooth)
    ensures c.smooth && e == Ok ==> c.asks == old(c.asks) + if Retained(old(c.w), n) then [] else [RetainPv(n)]
    ensures c.smooth && Sound(c.w) && u in old(c.w).book.home && old(c.w).book.home[u] == n ==> e == Ok
  {
    hide Run, Inv, Called, Relied, Storage, Sound, SameFlags, Effect;
    ghost var w0 := c.w;
    InvRun(c.start, c.log, w0);
    HomeExists(w0, u);
    var pv;
    e, pv := c.GetPv(n);
    ghost var w1 := c.w;
    InvRun(c.start, c.log, w1);
    HomeExists(w1, u);
    StorageRelied(w0, w1);
    StorageMeans(w0, w1, {});
    if e != Ok {
      return;
    }
    if pv.value.policy == Retain {
      StorageRetained(w0, w1, {}, n);
      return;
    }
    e := c.Issue(RetainPv(n));
    RetainEnds(w1, n, e, c.w);
    StorageTransitive(w0, w1, c.w, {}, {}, {});
    SameHomesTransitive(w0, w1, c.w);
    SameFlagsTransitive(w0, w1, c.w);
    StorageMeans(w1, c.w, {});
  }

  lemma RetainEnds(w: World, n: PvName, e: Reply, w': World)
    requires Effect(w, RetainPv(n), e, w')
    ensures Storage(w, w', {}) && SameHomes(w, w') && SameFlags(w, w')
    ensures e == Ok ==> Retained(w', n)
    ensures e == NotFound ==> n !in w.pvs
    ensures e != AlreadyExists
  {
    hide Relied, Storage, Retained;
    StorageEffect(w, RetainPv(n), e, w');
    if e == Ok {
      RetainDone(w, n);
      StorageRelied(Called(w, RetainPv(n)), w');
      StorageRetained(Called(w, RetainPv(n)), w', {}, n);
    }
  }

  lemma RetainDone(w: World, n: PvName)
    requires n in w.pvs
    ensures Retained(Called(w, RetainPv(n)), n)
  {
  }

  /** The swap */

  // Waits until a claim is gone, or gives up after POLLS reads without saying so.
  method WaitGone(c: Cluster, k: ClaimKey) returns (e: Reply, ghost gone: bool)
    requires c.Valid()
    modifies c
    ensures c.Valid() && Relied(old(c.w), c.w)
    ensures c.smooth ==> old(c.smooth) && e == Ok && gone
    ensures gone ==> e == Ok && (k.Temp? ==> NoTemp(c.w, k.unit)) && (k.Orig? && c.w.sts == None ==> NameFree(c.w, k.unit))
    ensures e == Ok && !gone ==> |c.script| + POLLS <= |old(c.script)|
    ensures |old(c.script)| <= |c.script| + POLLS
    ensures c.asks == old(c.asks)
  {
    hide Run, Relied;
    gone := false;
    RelyReflexive(c.w);
    for i := 0 to POLLS
      invariant c.Valid() && Relied(old(c.w), c.w) && (c.smooth ==> old(c.smooth)) && c.asks == old(c.asks)
      invariant |c.script| + i == |old(c.script)|
      invariant i > 0 ==> c.polled == Some(k) && c.polls >= i
    {
      ghost var w1 := c.w;
      var claim;
      e, claim := c.GetClaim(k);
      RelyTransitive(old(c.w), w1, c.w);
      if e == NotFound {
        GoneStays(w1, c.w, k);
        gone := true;
        e := Ok;
        return;
      }
      if e != Ok {
        return;
      }
    }
    c.GiveUp(k);
    e := Ok;
  }

  lemma GoneStays(w: World, w': World, k: ClaimKey)
    requires Relied(w, w') && k !in w.claims
    ensures k.Temp? ==> NoTemp(w', k.unit)
    ensures k.Orig? && w'.sts == None ==> NameFree(w', k.unit)
  {
    hide KeepsPods, KeepsCopies;
    assert k.Temp? ==> NoTemp(w, k.unit);
    assert k.Orig? && w.sts == None ==> NameFree(w, k.unit);
  }

  // How far a swap got: nothing deleted, temporary claim deleted, original
  // claim deleted, original name created anew.
  datatype Swap = BothClaims | TempDropped | OrigDropped | Swapped

  // What a pass knows when it starts to swap.
  ghost predicate CanSwap(w: World, u: Unit, copy: Option<PvName>) {
    && Active(w, u) && IsTarget(w.spec.volumes, u.volume) && OldSafe(w, u)
    && (w.past.rolledOut && w.book.h4 ==> Quiet(w, u.replica))
    && ReadyIf(w, u, copy)
  }

  // Deletes the temporary claim and frees its volume (pvc.go:160-188).
  method FreeVolume(c: Cluster, u: Unit, m: PvName) returns (e: Reply)
    requires c.Valid() && Active(c.w, u) && Retained(c.w, m) && NotFirst(c.w, m) && StagedIf(c.w, u, m)
    modifies c
    ensures c.Valid() && Storage(old(c.w), c.w, {Temp(u)}) && c.w.book.home == old(c.w).book.home
    ensures e == Ok ==> u in c.w.book.staged && c.w.book.staged[u] == m
    ensures e == Ok ==> LooseIf(c.w, u, m)
    ensures e == Ok && c.w.book.h1 ==> NoTemp(c.w, u)
    ensures c.smooth ==> old(c.smooth) && e == Ok
    ensures c.smooth ==> SameFlags(old(c.w), c.w)
    ensures c.smooth ==> c.asks == old(c.asks) + [DeleteClaim(Temp(u)), ReleasePv(u, m)]
  {
    hide Run, Inv, Called, Relied, Storage, Active, Retained, NotFirst, ReadyIf, StagedIf, LooseIf, Guard, CanCall;
    hide Effect;
    ghost var w0 := c.w;
    MayDeleteTemp(w0, u, m);
    e := c.Issue(DeleteClaim(Temp(u)));
    ghost var w1 := c.w;
    StorageEffect(w0, DeleteClaim(Temp(u)), e, w1);
    if e != Ok && e != NotFound {
      return;
    }
    TempDeletedEffect(w0, u, m, e, w1);
    ghost var gone;
    e, gone := WaitGone(c, Temp(u));
    ghost var w2 := c.w;
    StorageThenRelied(w0, w1, w2, {Temp(u)});
    StagedRelied(w1, w2, u, m);
    if e != Ok {
      return;
    }
    var pv;
    e, pv := c.GetPv(m);
    ghost var w3 := c.w;
    StorageThenRelied(w0, w2, w3, {Temp(u)});
    StagedRelied(w2, w3, u, m);
    StorageRetained(w0, w2, {Temp(u)}, m);
    StorageRetained(w0, w3, {Temp(u)}, m);
    assert e != NotFound by { RetainedExists(w2, m); }
    if e != Ok {
      return;
    }
    StorageActive(w0, w3, {Temp(u)}, u);
    MayRelease(w0, w3, u, m);
    e := c.Issue(ReleasePv(u, m));
    StorageEffect(w3, ReleasePv(u, m), e, c.w);
    StorageTransitive(w0, w3, c.w, {Temp(u)}, {}, {Temp(u)});
    ReleaseEffect(w3, u, m, e, c.w);
  }

  lemma RetainedExists(w: World, n: PvName)
    requires Retained(w, n)
    ensures n in w.pvs
  {
  }

  lemma MayDeleteTemp(w: World, u: Unit, m: PvName)
    requires Active(w, u) && StagedIf(w, u, m)
    ensures CanCall(w, DeleteClaim(Temp(u))) ==> Guard(w, DeleteClaim(Temp(u)))
  {
    hide Active, Sound;
  }

  lemma StagedRelied(w: World, w': World, u: Unit, m: PvName)
    requires Relied(w, w')
    ensures StagedIf(w, u, m) ==> StagedIf(w', u, m)
    ensures LooseIf(w, u, m) ==> LooseIf(w', u, m)
    ensures NoTemp(w, u) ==> NoTemp(w', u)
  {
    hide Quieter, KeepsPods, StagedIf, LooseIf, NoTemp;
  }

  lemma TempDeletedEffect(w: World, u: Unit, m: PvName, e: Reply, w': World)
    requires StagedIf(w, u, m)
    requires Effect(w, DeleteClaim(Temp(u)), e, w') && (e == Ok || e == NotFound)
    ensures StagedIf(w', u, m)
  {
    hide Relied, StagedIf;
    if e == Ok {
      DeleteTempKeepsStaged(w, u, m);
      StagedRelied(Called(w, DeleteClaim(Temp(u))), w', u, m);
    } else {
      StagedRelied(w, w', u, m);
    }
  }

  lemma MayRelease(w0: World, w: World, u: Unit, m: PvName)
    requires Storage(w0, w, {Temp(u)}) && NotFirst(w0, m)
    requires Active(w, u) && Retained(w, m) && StagedIf(w, u, m)
    ensures NotFirst(w, m) && Guard(w, ReleasePv(u, m))
  {
    hide Active, Staged, Sound;
  }

  lemma ReleaseEffect(w: World, u: Unit, m: PvName, e: Reply, w': World)
    requires Retained(w, m) && StagedIf(w, u, m) && Effect(w, ReleasePv(u, m), e, w')
    ensures e != NotFound
    ensures e == Ok ==> LooseIf(w', u, m) && u in w'.book.staged && w'.book.staged[u] == m
    ensures e == Ok && w'.book.h1 ==> NoTemp(w', u)
    ensures NoTemp(w, u) ==> SameFlags(w, w')
  {
    if NoTemp(w, u) {
      ReleaseFlags(w, u, m, e, w');
    }
    hide Relied, StagedIf, LooseIf;
    if e == Ok {
      var w1 := Called(w, ReleasePv(u, m));
      ReleaseLoosens(w, u, m);
      StagedRelied(w1, w', u, m);
      StorageRelied(w1, w');
      assert w1.book.h1 ==> NoTemp(w1, u);
      StorageMeans(w1, w', {});
      assert w'.book.staged == w1.book.staged by { assert SameHomes(w1, w'); }
    }
  }

  lemma ReleaseFlags(w: World, u: Unit, m: PvName, e: Reply, w': World)
    requires NoTemp(w, u) && Effect(w, ReleasePv(u, m), e, w')
    ensures SameFlags(w, w')
  {
    hide Relied;
    if CanCall(w, ReleasePv(u, m)) && Relied(Called(w, ReleasePv(u, m)), w') {
      StorageRelied(Called(w, ReleasePv(u, m)), w');
    } else {
      StorageRelied(w, w');
    }
    hide Storage, SameHomes;
  }

  // What a pass knows once the copy's volume is free.
  ghost predicate CanMoveName(w: World, u: Unit, m: PvName) {
    && Active(w, u) && IsTarget(w.spec.volumes, u.volume) && OldSafe(w, u)
    && (w.past.rolledOut && w.book.h4 ==> Quiet(w, u.replica))
    && Retained(w, m) && NotFirst(w, m) && LooseIf(w, u, m)
  }

  function NewClaim(spec: Spec, u: Unit, temp: Claim, labels: Labels, m: PvName): Claim
    requires IsTarget(spec.volumes, u.volume)
  {
    Claim(TargetOf(spec.volumes, u.volume).newSize, temp.storageClass, Some(m), false, labels, false)
  }

  lemma NewFits(spec: Spec, u: Unit, temp: Claim, labels: Labels, m: PvName)
    requires AsTargeted(spec, u, temp)
    ensures AsTargeted(spec, u, NewClaim(spec, u, temp, labels, m))
  {
  }

  // The original name is taken for the freed volume (pvc.go:211-232).
  method CreateAnew(c: Cluster, u: Unit, claim: Claim) returns (e: Reply)
    requires c.Valid() && !claim.terminating
    requires CanCall(c.w, CreateClaim(Orig(u), claim)) ==> Guard(c.w, CreateClaim(Orig(u), claim))
    modifies c
    ensures c.Valid() && Storage(old(c.w), c.w, {Orig(u)})
    ensures SameFlags(old(c.w), c.w)
    ensures e == Ok ==> Orig(u) in c.w.claims && SameClaim(claim, c.w.claims[Orig(u)])
    ensures c.smooth ==> old(c.smooth) && c.asks == old(c.asks) + [CreateClaim(Orig(u), claim)]
    ensures c.smooth && NameFree(old(c.w), u) ==> e == Ok
  {
    hide Run, Called, CanCall, Relied, Storage, LooseIf, Guard, Sound, SameClaim, Effect;
    ghost var w0 := c.w;
    e := c.Issue(CreateClaim(Orig(u), claim));
    StorageEffect(w0, CreateClaim(Orig(u), claim), e, c.w);
    CreatedEffect(w0, Orig(u), claim, e, c.w);
  }

  // Deletes the original claim and waits for its end (pvc.go:190-209).
  method DropOriginal(c: Cluster, u: Unit, m: PvName) returns (e: Reply)
    requires c.Valid() && LooseIf(c.w, u, m)
    requires CanCall(c.w, DeleteClaim(Orig(u))) ==> Guard(c.w, DeleteClaim(Orig(u)))
    modifies c
    ensures c.Valid() && Storage(old(c.w), c.w, {Orig(u)}) && SameFlags(old(c.w), c.w)
    ensures e == Ok ==> LooseIf(c.w, u, m)
    ensures c.smooth ==> old(c.smooth) && e == Ok && (c.w.sts == None ==> NameFree(c.w, u))
    ensures c.smooth ==> c.asks == old(c.asks) + [DeleteClaim(Orig(u))]
  {
    hide Run, Called, CanCall, Relied, Storage, LooseIf, Guard, Effect, NameFree, NoTemp;
    ghost var w0 := c.w;
    e := c.Issue(DeleteClaim(Orig(u)));
    ghost var w1 := c.w;
    StorageEffect(w0, DeleteClaim(Orig(u)), e, w1);
    if e != Ok && e != NotFound {
      return;
    }
    OrigDeletedEffect(w0, u, m, e, w1);
    ghost var gone;
    e, gone := WaitGone(c, Orig(u));
    StorageThenRelied(w0, w1, c.w, {Orig(u)});
    StagedRelied(w1, c.w, u, m);
  }

  // Deletes the original claim and creates it anew for the freed volume
  // (pvc.go:190-232).
  method MoveName(c: Cluster, spec: Spec, u: Unit, m: PvName, temp: Claim, labels: Labels) returns (e: Reply)
    requires c.Valid() && spec == c.w.spec && CanMoveName(c.w, u, m)
    requires u in c.w.book.staged && c.w.book.staged[u] == m && !Owned(spec, labels) && AsTargeted(spec, u, temp)
    modifies c
    ensures c.Valid() && Storage(old(c.w), c.w, {Orig(u)})
    ensures SameFlags(old(c.w), c.w)
    ensures e == Ok ==> Orig(u) in c.w.claims && SameClaim(NewClaim(spec, u, temp, labels, m), c.w.claims[Orig(u)])
    ensures c.smooth ==> old(c.smooth)
    ensures c.smooth && c.w.sts == None ==> e == Ok
    ensures c.smooth ==>
              c.asks == old(c.asks) + [DeleteClaim(Orig(u)), CreateClaim(Orig(u), NewClaim(spec, u, temp, labels, m))]
  {
    hide Run, CanCall, Storage, LooseIf, Guard, SameClaim, CanMoveName, NameFree, Owned, TargetOf, IsTarget;
    ghost var w0 := c.w;
    MoveNameLoose(w0, u, m);
    MayDeleteOrig(w0, u, m);
    e := DropOriginal(c, u, m);
    ghost var w1 := c.w;
    if e != Ok {
      return;
    }
    StorageMeans(w0, w1, {Orig(u)});
    var claim := NewClaim(spec, u, temp, labels, m);
    NewFits(spec, u, temp, labels, m);
    MayCreateOrig(w0, w1, u, m, claim);
    e := CreateAnew(c, u, claim);
    StorageMeans(w1, c.w, {Orig(u)});
    StorageTwice(w0, w1, c.w, {Orig(u)});
  }

  lemma MoveNameLoose(w: World, u: Unit, m: PvName)
    requires CanMoveName(w, u, m)
    ensures IsTarget(w.spec.volumes, u.volume) && LooseIf(w, u, m)
  {
  }

  lemma MayDeleteOrig(w: World, u: Unit, m: PvName)
    requires CanMoveName(w, u, m) && u in w.book.staged && w.book.staged[u] == m
    ensures CanCall(w, DeleteClaim(Orig(u))) ==> Guard(w, DeleteClaim(Orig(u)))
  {
    hide Active, HomeHeld, Retained, Quiet, Sound;
  }

  lemma OrigDeletedEffect(w: World, u: Unit, m: PvName, e: Reply, w': World)
    requires LooseIf(w, u, m) && Effect(w, DeleteClaim(Orig(u)), e, w') && (e == Ok || e == NotFound)
    ensures LooseIf(w', u, m)
  {
    hide Relied, LooseIf;
    if e == Ok {
      DeleteOrigKeepsLoose(w, u, m);
      StagedRelied(Called(w, DeleteClaim(Orig(u))), w', u, m);
    } else {
      StagedRelied(w, w', u, m);
    }
  }

  lemma MayCreateOrig(w0: World, w: World, u: Unit, m: PvName, claim: Claim)
    requires CanMoveName(w0, u, m) && Storage(w0, w, {Orig(u)}) && LooseIf(w, u, m)
    requires AsTargeted(w0.spec, u, claim) && claim.pv == Some(m)
    requires !claim.terminating && !claim.bound && !Owned(w0.spec, claim.labels)
    ensures CanCall(w, CreateClaim(Orig(u), claim)) ==> Guard(w, CreateClaim(Orig(u), claim))
  {
    StorageActive(w0, w, {Orig(u)}, u);
    StorageRetained(w0, w, {Orig(u)}, m);
    StorageMeans(w0, w, {Orig(u)});
    LooseMeans(w, u, m);
    hide Active, Staged, Retained, Sound, Storage, OldSafe, LooseIf, Done, NoTemp, AsTargeted;
  }

  // The temporary claim is there to stay and names m.
  ghost predicate TempIs(w: World, u: Unit, m: PvName) {
    Alive(w, Temp(u)) && w.claims[Temp(u)].pv == Some(m)
  }

  lemma TempIsRelied(w: World, w': World, u: Unit, m: PvName)
    requires Relied(w, w')
    ensures TempIs(w, u, m) ==> TempIs(w', u, m)
  {
    AliveRelied(w, w', Temp(u));
    hide Relied;
  }

  lemma TempIsVolume(w: World, u: Unit, m: PvName)
    requires Inv(w)
    ensures Sound(w) && TempIs(w, u, m) ==> m in w.pvs
  {
    TempVolume(w, u, m);
    hide Inv, Sound;
  }

  // The copy's volume is read and retained.
  method RetainCopy(c: Cluster, u: Unit, m: PvName) returns (e: Reply)
    requires c.Valid() && ReadyIf(c.w, u, Some(m))
    modifies c
    ensures c.Valid() && Storage(old(c.w), c.w, {}) && SameHomes(old(c.w), c.w)
    ensures SameFlags(old(c.w), c.w)
    ensures e == Ok ==> Retained(c.w, m) && StagedIf(c.w, u, m)
    ensures c.smooth ==> old(c.smooth)
    ensures c.smooth && Sound(c.w) && TempIs(old(c.w), u, m) ==> e == Ok
    ensures c.smooth && e == Ok ==> c.asks == old(c.asks) + [RetainPv(m)]
  {
    hide Run, Inv, Called, Relied, Storage, Retained, ReadyIf, StagedIf, Sound, SameHomes, Effect, TempIs;
    ghost var w0 := c.w;
    InvRun(c.start, c.log, w0);
    TempIsVolume(w0, u, m);
    var pv;
    e, pv := c.GetPv(m);
    ghost var w1 := c.w;
    StorageRelied(w0, w1);
    StorageMeans(w0, w1, {});
    ReadyRelied(w0, w1, u, Some(m));
    TempIsRelied(w0, w1, u, m);
    if e != Ok {
      return;
    }
    InvRun(c.start, c.log, w1);
    TempIsVolume(w1, u, m);
    e := c.Issue(RetainPv(m));
    RetainEnds(w1, m, e, c.w);
    if e == Ok {
      RetainStep(w1, u, m, e, c.w);
    }
    StorageTransitive(w0, w1, c.w, {}, {}, {});
    SameHomesTransitive(w0, w1, c.w);
    StorageMeans(w1, c.w, {});
  }

  lemma RetainStep(w: World, u: Unit, m: PvName, e: Reply, w': World)
    requires ReadyIf(w, u, Some(m)) && Effect(w, RetainPv(m), e, w') && e == Ok
    ensures StagedIf(w', u, m)
  {
    hide Relied, Sound, ReadyIf, StagedIf;
    RetainStages(w, u, m);
    StagedRelied(Called(w, RetainPv(m)), w', u, m);
  }

  lemma ReadyMeans(w: World, u: Unit, copy: Option<PvName>)
    requires ReadyIf(w, u, copy)
    ensures Sound(w) && Temp(u) in w.claims ==> copy.Some? && w.claims[Temp(u)].pv == copy
  {
  }

  // Reads both claims and retains the copy's volume (pvc.go:131-158).
  method ProtectCopy(c: Cluster, u: Unit, ghost copy: Option<PvName>)
    returns (e: Reply, temp: Option<Claim>, labels: Labels)
    requires c.Valid() && ReadyIf(c.w, u, copy)
    modifies c
    ensures c.Valid() && Storage(old(c.w), c.w, {}) && SameHomes(old(c.w), c.w)
    ensures SameFlags(old(c.w), c.w)
    ensures e == Ok ==> Temp(u) in old(c.w).claims && temp == Some(old(c.w).claims[Temp(u)]) && temp.value.pv.Some?
    ensures e == Ok ==> Retained(c.w, temp.value.pv.value) && NotFirst(c.w, temp.value.pv.value)
    ensures e == Ok ==> StagedIf(c.w, u, temp.value.pv.value) && !Owned(c.w.spec, labels)
    ensures e == Ok ==> AsTargeted(c.w.spec, u, temp.value)
    ensures e == Ok && Alive(old(c.w), Orig(u)) ==> labels == old(c.w).claims[Orig(u)].labels
    ensures c.smooth ==> old(c.smooth)
    ensures c.smooth && Sound(c.w) && Alive(old(c.w), Orig(u)) && Alive(old(c.w), Temp(u)) ==> e == Ok
    ensures c.smooth && e == Ok ==> c.asks == old(c.asks) + [RetainPv(temp.value.pv.value)]
  {
    hide Run, Inv, Relied, Storage, Retained, NotFirst, ReadyIf, StagedIf, Sound, Owned, SameHomes, TempIs;
    hide SameClaim, SameFlags, AsTargeted;
    labels := map[];
    ghost var w0 := c.w;
    InvRun(c.start, c.log, w0);
    e, temp := c.GetClaim(Temp(u));
    ghost var w1 := c.w;
    StorageRelied(w0, w1);
    StorageMeans(w0, w1, {});
    ReadyMeans(w0, u, copy);
    if e != Ok {
      return;
    }
    if temp.value.pv == None {
      e := OtherError;
      return;
    }
    var m := temp.value.pv.value;
    TempRead(w0, u, copy);
    TempFits(w0, u);
    TempNamed(w0, u, m);
    ReadyRelied(w0, w1, u, Some(m));
    TempIsRelied(w0, w1, u, m);
    LabelsRelied(w0, w1, Orig(u));
    InvRun(c.start, c.log, w1);
    var original;
    e, original := c.GetClaim(Orig(u));
    ghost var w2 := c.w;
    ReliedStep(w0, w1, w2);
    ReadyRelied(w1, w2, u, Some(m));
    TempIsRelied(w1, w2, u, m);
    if e != Ok {
      return;
    }
    labels := original.value.labels;
    OrigUnlabelled(w1, Orig(u));
    e := RetainCopy(c, u, m);
    StorageTransitive(w0, w2, c.w, {}, {}, {});
    SameHomesTransitive(w0, w2, c.w);
    SameFlagsTransitive(w0, w2, c.w);
    StorageMeans(w2, c.w, {});
    NotFirstFixed(w0, c.w, m);
  }

  // A temporary claim is as its target asks for it, whenever it was created.
  lemma TempFits(w: World, u: Unit)
    requires Inv(w) && Temp(u) in w.claims
    ensures AsTargeted(w.spec, u, w.claims[Temp(u)])
  {
    hide Safe, Placed, Excluded, Kept, OneTemp, TempHeld, TempsAtCursor, AsTargeted;
  }

  lemma TempNamed(w: World, u: Unit, m: PvName)
    requires Temp(u) in w.claims && w.claims[Temp(u)].pv == Some(m)
    ensures Alive(w, Temp(u)) ==> TempIs(w, u, m)
  {
  }

  lemma LabelsRelied(w: World, w': World, k: ClaimKey)
    requires Relied(w, w')
    ensures Alive(w, k) ==> k in w'.claims && w'.claims[k].labels == w.claims[k].labels
  {
    AliveRelied(w, w', k);
    hide Relied;
  }

  lemma NotFirstFixed(w: World, w': World, m: PvName)
    requires w'.past == w.past && NotFirst(w, m)
    ensures NotFirst(w', m)
  {
  }

  lemma ReliedStep(w: World, w': World, w'': World)
    requires Storage(w, w', {}) && SameHomes(w, w') && SameFlags(w, w') && Relied(w', w'')
    ensures Storage(w, w'', {}) && SameHomes(w, w'') && SameFlags(w, w'') && (Sound(w'') ==> Sound(w') && Sound(w))
    ensures w''.spec == w.spec && w''.past == w.past
  {
    StorageRelied(w', w'');
    StorageTransitive(w, w', w'', {}, {}, {});
    StorageMeans(w', w'', {});
    StorageMeans(w, w', {});
    hide Storage, Relied, Sound;
  }

  // The new claim of a unit, when its original name now stands for the copy.
  ghost predicate SwapDone(w0: World, w: World, u: Unit) {
    && Alive(w, Orig(u)) && Temp(u) in w0.claims
    && var temp, anew := w0.claims[Temp(u)], w.claims[Orig(u)];
       && temp.pv.Some? && anew.pv == temp.pv && Retained(w, temp.pv.value)
       && AsTargeted(w.spec, u, anew) && anew.storageClass == temp.storageClass
       && (Alive(w0, Orig(u)) ==> anew.labels == w0.claims[Orig(u)].labels)
  }

  // What a failed swap leaves behind: the temporary claim's volume once it is
  // retained, and the original claim until it is deleted itself.
  ghost predicate Interrupted(w0: World, w: World, u: Unit, step: Swap) {
    match step
    case BothClaims => Storage(w0, w, {}) && SameHomes(w0, w)
    case TempDropped =>
      && Storage(w0, w, {Temp(u)}) && w.book.home == w0.book.home
      && Temp(u) in w0.claims && w0.claims[Temp(u)].pv.Some? && Retained(w, w0.claims[Temp(u)].pv.value)
    case OrigDropped =>
      && Temp(u) in w0.claims && w0.claims[Temp(u)].pv.Some? && Retained(w, w0.claims[Temp(u)].pv.value)
      && OldSafe(w0, u)
    case Swapped => SwapDone(w0, w, u)
  }

  // The calls of a swap, in order: nothing is deleted before the copy is retained, and
  // the original claim goes last.
  ghost function SwapCalls(u: Unit, anew: Claim): seq<Call>
    requires anew.pv.Some?
  {
    [RetainPv(anew.pv.value), DeleteClaim(Temp(u)), ReleasePv(u, anew.pv.value), DeleteClaim(Orig(u)),
     CreateClaim(Orig(u), anew)]
  }

  // The original claim is replaced by one for the copy's volume.
  method ReplacePVC(c: Cluster, spec: Spec, u: Unit, ghost copy: Option<PvName>)
    returns (e: Reply, ghost step: Swap, ghost made: Claim)
    requires c.Valid() && spec == c.w.spec && CanSwap(c.w, u, copy)
    modifies c
    ensures c.Valid() && Storage(old(c.w), c.w, {Temp(u), Orig(u)})
    ensures Interrupted(old(c.w), c.w, u, step)
    ensures e == Ok <==> step == Swapped
    ensures e == Ok && c.w.book.h1 ==> NoTemp(c.w, u)
    ensures c.smooth ==> old(c.smooth)
    ensures c.smooth ==> SameFlags(old(c.w), c.w)
    ensures c.smooth && Sound(c.w) && Alive(old(c.w), Orig(u)) && Alive(old(c.w), Temp(u)) && old(c.w).sts == None ==>
              e == Ok
    ensures e == Ok ==> made.pv.Some? && Orig(u) in c.w.claims && SameClaim(made, c.w.claims[Orig(u)])
    ensures c.smooth && e == Ok ==> c.asks == old(c.asks) + SwapCalls(u, made)
  {
    hide Run, Inv, Called, Relied, Storage, Active, Retained, NotFirst, ReadyIf, StagedIf, LooseIf, OldSafe, Sound;
    hide Owned, Alive, SwapDone, CanMoveName, Interrupted, AsTargeted, SameClaim;
    made := Claim(0, None, None, false, map[], false);
    ghost var w0 := c.w;
    ghost var both := {Temp(u), Orig(u)};
    var temp, labels;
    e, temp, labels := ProtectCopy(c, u, copy);
    ghost var w1 := c.w;
    StorageWiden(w0, w1, {}, both);
    StorageMeans(w0, w1, {});
    if e != Ok {
      step := BothClaims;
      InterruptedEarly(w0, w1, u);
      return;
    }
    var m := temp.value.pv.value;
    StorageActive(w0, w1, {}, u);
    e := FreeVolume(c, u, m);
    ghost var w2 := c.w;
    StorageTransitive(w0, w1, w2, {}, {Temp(u)}, {Temp(u)});
    StorageWiden(w0, w2, {Temp(u)}, both);
    StorageMeans(w1, w2, {Temp(u)});
    StorageRetained(w1, w2, {Temp(u)}, m);
    if e != Ok {
      step := TempDropped;
      InterruptedMidway(w0, w2, u, m);
      return;
    }
    ReadyToMove(w0, w1, w2, u, m, copy);
    MoveNameLoose(w2, u, m);
    made := NewClaim(spec, u, temp.value, labels, m);
    e := MoveName(c, spec, u, m, temp.value, labels);
    StorageTransitive(w0, w2, c.w, {Temp(u)}, {Orig(u)}, both);
    StorageMeans(w2, c.w, {Orig(u)});
    StorageRetained(w2, c.w, {Orig(u)}, m);
    step := if e == Ok then Swapped else OrigDropped;
    if e == Ok && c.w.book.h1 {
      StorageNoTemp(w2, c.w, {Orig(u)}, u);
    }
    SwapEnds(w0, w2, c.w, u, m, temp.value, labels, e == Ok);
  }

  lemma InterruptedEarly(w0: World, w: World, u: Unit)
    requires Storage(w0, w, {}) && SameHomes(w0, w)
    ensures Interrupted(w0, w, u, BothClaims)
  {
  }

  lemma InterruptedMidway(w0: World, w: World, u: Unit, m: PvName)
    requires Storage(w0, w, {Temp(u)}) && w.book.home == w0.book.home
    requires Temp(u) in w0.claims && w0.claims[Temp(u)].pv == Some(m) && Retained(w, m)
    ensures Interrupted(w0, w, u, TempDropped)
  {
  }

  lemma ReadyToMove(w0: World, w1: World, w2: World, u: Unit, m: PvName, copy: Option<PvName>)
    requires CanSwap(w0, u, copy) && Storage(w0, w1, {}) && SameHomes(w0, w1)
    requires Storage(w1, w2, {Temp(u)}) && w2.book.home == w1.book.home
    requires NotFirst(w1, m) && Retained(w2, m) && LooseIf(w2, u, m)
    ensures CanMoveName(w2, u, m)
  {
    hide Storage, Active, OldSafe, Retained, LooseIf, ReadyIf, Quiet, IsTarget;
    StorageTransitive(w0, w1, w2, {}, {Temp(u)}, {Temp(u)});
    StorageActive(w0, w2, {Temp(u)}, u);
    StorageMeans(w0, w2, {Temp(u)});
    StorageMeans(w1, w2, {Temp(u)});
    OldSafeKept(w0, w2, u) by { StorageOnward(w0, w2, {Temp(u)}); }
    if w2.past.rolledOut && w2.book.h4 {
      StorageQuiet(w0, w2, {Temp(u)}, u.replica);
    }
  }

  lemma StorageOnward(w: World, w': World, changed: set<ClaimKey>)
    requires Storage(w, w', changed)
    ensures Onward(w, w')
  {
  }

  lemma SwapEnds(w0: World, w2: World, w: World, u: Unit, m: PvName, temp: Claim, labels: Labels, ok: bool)
    requires AsTargeted(w.spec, u, temp) && OldSafe(w0, u)
    requires Temp(u) in w0.claims && w0.claims[Temp(u)] == temp && temp.pv == Some(m) && Retained(w, m)
    requires Alive(w0, Orig(u)) ==> labels == w0.claims[Orig(u)].labels
    requires ok ==> Orig(u) in w.claims && SameClaim(NewClaim(w.spec, u, temp, labels, m), w.claims[Orig(u)])
    ensures Interrupted(w0, w, u, if ok then Swapped else OrigDropped)
  {
    hide OldSafe, Retained;
  }

  // A finished swap makes the Completed entry true.
  lemma SwapTrue(w0: World, w: World, u: Unit)
    requires SwapDone(w0, w, u)
    ensures Truth(w, u)
  {
  }

  // Where a swap fails, both volumes are left: the original claim untouched until
  // its own deletion, the copy's volume retained from before anything is deleted.
  lemma FailedSwapKeepsBoth(w0: World, w: World, u: Unit, step: Swap)
    requires Interrupted(w0, w, u, step) && step != Swapped && OldSafe(w0, u)
    requires Storage(w0, w, {Temp(u), Orig(u)})
    ensures u in w.past.first ==> Retained(w, w.past.first[u])
    ensures step != OrigDropped && Alive(w0, Orig(u)) ==>
              Alive(w, Orig(u)) && SameClaim(w0.claims[Orig(u)], w.claims[Orig(u)])
    ensures step == BothClaims && Alive(w0, Temp(u)) ==>
              Alive(w, Temp(u)) && SameClaim(w0.claims[Temp(u)], w.claims[Temp(u)])
    ensures step != BothClaims ==>
              Temp(u) in w0.claims && w0.claims[Temp(u)].pv.Some? && Retained(w, w0.claims[Temp(u)].pv.value)
  {
    hide Sound, KeepsPods, NoNewTemps;
  }
}
