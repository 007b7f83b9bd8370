/**
  What runs keep under the first hypotheses: where claims, temporary claims and
  migrators can be.
   - Placed: with every claim rolled out and H4, an original claim is missing
     only at the cursor and only while no pod of its replica can run.
   - SoleTemp: with H1 there is at most one temporary claim, at the cursor.
   - Excluded: with H2 and H4 an unfinished migrator excludes the StatefulSet
     and the application pod of its replica.
 */
module Placement {
  import opened Types
  import opened Enumeration
  import opened Rewriting
  import opened Protocol
  import opened Safety

  ghost predicate Full(past: Origin) {
    && past.sts0.Some?
    && forall r, t :: 0 <= r < Replicas(past.sts0.value) && t in past.sts0.value.templates ==> Unit(r, t.name) in past.first
  }

  ghost predicate Known(past: Origin, claims: map<ClaimKey, Claim>) {
    forall k :: k in claims && k.Orig? ==> k.unit in past.first
  }

  // While an original claim is missing, no pod of the replica can run.
  ghost predicate GapQuiet(past: Origin, claims: map<ClaimKey, Claim>, pods: map<PodKey, Pod>, sts: Option<Sts>) {
    forall u :: u in past.first && AbsentIn(claims, u) ==> sts == None && App(u.replica) !in pods
  }

  ghost predicate GapAtCursor(past: Origin, claims: map<ClaimKey, Claim>, st: Status) {
    forall u :: u in past.first && AbsentIn(claims, u) ==> AtCursorIn(st, u)
  }

  // Every original claim names its first volume or a retained one.
  ghost predicate Backed(past: Origin, claims: map<ClaimKey, Claim>, pvs: map<PvName, Pv>) {
    forall k :: k in claims && k.Orig? && k.unit in past.first ==>
      && claims[k].pv.Some?
      && (claims[k].pv.value == past.first[k.unit]
          || (claims[k].pv.value in pvs && pvs[claims[k].pv.value].policy == Retain))
  }

  // Every original claim requests its first size or the new one.
  ghost predicate Sized(spec: Spec, past: Origin, claims: map<ClaimKey, Claim>) {
    forall k :: k in claims && k.Orig? ==>
      || (k.unit in past.size0 && claims[k].size == past.size0[k.unit])
      || (IsTarget(spec.volumes, k.unit.volume) && claims[k].size == TargetOf(spec.volumes, k.unit.volume).newSize)
  }

  ghost predicate Attended(w: World) {
    w.vr.Some? && !w.book.swept
  }

  ghost predicate Placed(w: World) {
    w.past.rolledOut && w.book.h4 ==>
      && Full(w.past) && Known(w.past, w.claims)
      && GapQuiet(w.past, w.claims, w.pods, w.sts)
      && (Attended(w) ==> GapAtCursor(w.past, w.claims, w.vr.value.status))
      && Backed(w.past, w.claims, w.pvs)
      && Sized(w.spec, w.past, w.claims)
  }

  ghost predicate OneTemp(claims: map<ClaimKey, Claim>) {
    forall k, k' :: k in claims && k' in claims && k.Temp? && k'.Temp? ==> k == k'
  }

  ghost predicate TempsAtCursor(claims: map<ClaimKey, Claim>, st: Status) {
    forall k :: k in claims && k.Temp? ==> AtCursorIn(st, k.unit)
  }

  ghost predicate TempSized(spec: Spec, claims: map<ClaimKey, Claim>) {
    forall k :: k in claims && k.Temp? ==> AsTargeted(spec, k.unit, claims[k])
  }

  // The volume a temporary claim names exists and is held by it.
  ghost predicate TempHeld(claims: map<ClaimKey, Claim>, pvs: map<PvName, Pv>) {
    forall k :: k in claims && k.Temp? && claims[k].pv.Some? ==>
      claims[k].pv.value in pvs && pvs[claims[k].pv.value].claimRef == Some(k)
  }

  ghost predicate SoleTemp(w: World) {
    && TempSized(w.spec, w.claims)
    && (w.book.h1 ==>
          && OneTemp(w.claims) && TempHeld(w.claims, w.pvs)
          && (Attended(w) ==> TempsAtCursor(w.claims, w.vr.value.status)))
  }

  ghost predicate Exclusion(pods: map<PodKey, Pod>, sts: Option<Sts>) {
    forall p :: p in pods && p.Mig? && !Finished(pods[p]) ==> sts == None && App(p.unit.replica) !in pods
  }

  ghost predicate MigsAtCursor(pods: map<PodKey, Pod>, st: Status) {
    forall p :: p in pods && p.Mig? && !Finished(pods[p]) ==> AtCursorIn(st, p.unit)
  }

  ghost predicate Excluded(w: World) {
    w.book.h2 && w.book.h4 ==> Exclusion(w.pods, w.sts) && (Attended(w) ==> MigsAtCursor(w.pods, w.vr.value.status))
  }

  /** Calls at the cursor */

  lemma ActiveUnit(w: World, u: Unit)
    requires Safe(w) && AtCursor(w, u)
    ensures IsTarget(w.spec.volumes, u.volume)
    ensures w.past.rolledOut && Full(w.past) ==> u in w.past.first
  {
    hide Recoverable, FirstKept, TempsAside, MountsAside, ClaimsLabelled, PodsLabelled, TemplatesLabelled;
    hide PodShape, Truthful, Ordered;
    var v := TargetOf(w.spec.volumes, u.volume);
    assert v in w.spec.volumes;
  }

  // A status write moves nothing away from the cursor that is still missing.
  lemma CursorLeaves(w: World, t: Status, u: Unit)
    requires Safe(w) && Guard(w, PutStatus(t)) && AtCursor(w, u)
    ensures AtCursorIn(t, u) || Finish(w, u)
  {
    hide Recoverable, FirstKept, TempsAside, MountsAside, ClaimsLabelled, PodsLabelled, TemplatesLabelled;
    hide PodShape, Truthful, Ordered;
    hide SameExceptAt, Finish, CompletedAt, Next, Listed;
  }

  // The deletion handler only ever selects temporary claims.
  lemma SweptIsTemp(w: World, k: ClaimKey)
    requires Safe(w) && Guard(w, SweepClaim(k))
    ensures k.Temp?
  {
    hide SpecOk, Recoverable, FirstKept, CursorOk, Truthful, TempsAside, MountsAside, PodsLabelled;
    hide TemplatesLabelled, PodShape;
  }

  /** Placed */

  // With no claim missing the StatefulSet controller creates pods, not claims.
  lemma NoClaimCreated(w: World, r: nat)
    requires Safe(w) && Full(w.past) && CanMove(w, StsPod(r))
    requires forall u :: u in w.past.first ==> Orig(u) in w.claims
    ensures Moved(w, StsPod(r)).claims == w.claims
  {
    hide MountsAside, ClaimsLabelled, PodsLabelled, TemplatesLabelled, PodShape, CursorOk, Truthful, TempsAside;
    var s, s0 := w.sts.value, w.past.sts0.value;
    forall k | k in PodClaims(s, r)
      ensures k in w.claims
    {
      var t :| t in s.templates && k == Orig(Unit(r, t.name));
      var i :| 0 <= i < |s.templates| && s.templates[i] == t;
      assert s0.templates[i] in s0.templates && s0.templates[i].name == t.name;
      assert Unit(r, s0.templates[i].name) in w.past.first;
    }
    assert MissingClaims(w, s, r) == map[];
  }

  lemma StsPodCreatesNoClaim(w: World, r: nat)
    requires Safe(w) && Placed(w) && w.past.rolledOut && w.book.h4 && CanMove(w, StsPod(r))
    ensures Moved(w, StsPod(r)).claims == w.claims
  {
    NoClaimCreated(w, r) by { hide Safe, Full, Backed, Sized, GapAtCursor, Known; }
  }

  lemma PlacedStsPod(w: World, r: nat)
    requires Safe(w) && Placed(w) && CanMove(w, StsPod(r))
    ensures Placed(Moved(w, StsPod(r)))
  {
    if w.past.rolledOut && w.book.h4 {
      StsPodCreatesNoClaim(w, r);
    }
    hide Safe, Full, Known, Backed, Sized, GapAtCursor, MissingClaims, PodClaims;
  }

  lemma PlacedBind(w: World, k: ClaimKey, n: PvName, policy: Policy)
    requires Placed(w) && CanMove(w, Bind(k, n, policy))
    ensures Placed(Moved(w, Bind(k, n, policy)))
  {
    var bound := w.claims[k].(pv := Some(n), bound := true);
    AbsentAfter(w.claims, k, bound);
    if w.past.rolledOut && w.book.h4 {
      BackedBind(w, k, n, policy);
      SameSizes(w.spec, w.past, w.claims, k, bound);
    }
    hide Full, AbsentIn, Backed, Sized;
  }

  lemma BackedBind(w: World, k: ClaimKey, n: PvName, policy: Policy)
    requires Backed(w.past, w.claims, w.pvs) && CanMove(w, Bind(k, n, policy))
    ensures var w' := Moved(w, Bind(k, n, policy)); Backed(w.past, w'.claims, w'.pvs)
  {
  }

  // Changing a claim at its size leaves the others known and sized.
  lemma SameSizes(spec: Spec, past: Origin, claims: map<ClaimKey, Claim>, k: ClaimKey, c: Claim)
    requires k in claims && c.size == claims[k].size
    ensures Sized(spec, past, claims) ==> Sized(spec, past, claims[k := c])
    ensures Known(past, claims) ==> Known(past, claims[k := c])
    ensures forall pvs :: c.pv == claims[k].pv && Backed(past, claims, pvs) ==> Backed(past, claims[k := c], pvs)
  {
    hide TargetOf, IsTarget;
  }

  lemma PlacedClaimGone(w: World, m: Move)
    requires Safe(w) && Placed(w) && CanMove(w, m) && m.ClaimGone?
    ensures Placed(Moved(w, m))
  {
    AbsentGone(w.claims, m.claim);
    BackedGone(w.past, w.claims, w.pvs, m.claim);
    hide Safe, Full, AbsentIn, Backed, TargetOf, IsTarget;
  }

  // Removing a claim that is being deleted makes no original absent.
  lemma AbsentGone(claims: map<ClaimKey, Claim>, k: ClaimKey)
    requires k in claims && claims[k].terminating
    ensures forall u :: AbsentIn(claims - {k}, u) ==> AbsentIn(claims, u)
  {
  }

  lemma BackedGone(past: Origin, claims: map<ClaimKey, Claim>, pvs: map<PvName, Pv>, k: ClaimKey)
    ensures Backed(past, claims, pvs) ==> Backed(past, claims - {k}, Reclaimed(pvs, k))
  {
  }

  lemma PlacedOtherMove(w: World, m: Move)
    requires Safe(w) && Placed(w) && CanMove(w, m) && !m.Bind? && !m.ClaimGone? && !m.StsPod?
    ensures Placed(Moved(w, m))
  {
    hide Safe, Full, Known, Sized, GapAtCursor;
  }

  lemma PlacedStatus(w: World, t: Status)
    requires Safe(w) && Placed(w) && Guard(w, PutStatus(t))
    ensures Placed(Called(w, PutStatus(t)))
  {
    if w.past.rolledOut && w.book.h4 {
      forall u | u in w.past.first && AbsentIn(w.claims, u)
        ensures AtCursorIn(t, u)
      {
        CursorLeaves(w, t, u);
      }
    }
    hide Safe, Full, Known, Backed, Sized, GapQuiet, StatusStep;
  }

  // Changing one claim makes no other original absent.
  lemma AbsentAfter(claims: map<ClaimKey, Claim>, k: ClaimKey, c: Claim)
    ensures forall u :: AbsentIn(claims[k := c], u) ==> AbsentIn(claims, u) || (k == Orig(u) && c.terminating)
  {
  }

  lemma PlacedCreateTemp(w: World, u: Unit, claim: Claim)
    requires Placed(w) && Guard(w, CreateClaim(Temp(u), claim))
    ensures Placed(Called(w, CreateClaim(Temp(u), claim)))
  {
    AbsentAfter(w.claims, Temp(u), claim);
    hide Full, Staged, AbsentIn, Active, TargetOf, IsTarget;
  }

  lemma PlacedCreateOrigVolumes(w: World, u: Unit, claim: Claim)
    requires Placed(w) && Guard(w, CreateClaim(Orig(u), claim))
    ensures var claims := w.claims[Orig(u) := claim];
            w.past.rolledOut && w.book.h4 ==> Backed(w.past, claims, w.pvs) && Sized(w.spec, w.past, claims)
  {
    hide Full, Known, GapQuiet, GapAtCursor, Staged, Active, NotFirst;
  }

  lemma PlacedCreateOrig(w: World, u: Unit, claim: Claim)
    requires Safe(w) && Placed(w) && Guard(w, CreateClaim(Orig(u), claim))
    ensures Placed(Called(w, CreateClaim(Orig(u), claim)))
  {
    ActiveUnit(w, u);
    PlacedCreateOrigVolumes(w, u, claim);
    AbsentAfter(w.claims, Orig(u), claim);
    assert AtCursor(w, u);
    hide Safe, Full, Staged, AbsentIn, Active, NotFirst, AtCursorIn, Backed, Sized, Retained, TargetOf;
  }

  lemma PlacedDeleteClaim(w: World, c: Call)
    requires Placed(w) && Guard(w, c) && c.DeleteClaim?
    ensures Placed(Called(w, c))
  {
    AbsentAfter(w.claims, c.key, w.claims[c.key].(terminating := true));
    SameSizes(w.spec, w.past, w.claims, c.key, w.claims[c.key].(terminating := true));
    hide Full, HomeHeld, Staged, CompletedAt, Retained, AbsentIn, Backed, Sized, Known, Sound;
  }

  lemma PlacedSweepClaim(w: World, k: ClaimKey)
    requires Placed(w) && Guard(w, SweepClaim(k)) && k.Temp?
    ensures Placed(Called(w, SweepClaim(k)))
  {
    AbsentAfter(w.claims, k, w.claims[k].(terminating := true));
    SameSizes(w.spec, w.past, w.claims, k, w.claims[k].(terminating := true));
    hide Full, AbsentIn, Backed, Sized, Known, AtCursorIn, Owned, Ending;
  }

  lemma PlacedOtherCall(w: World, c: Call)
    requires Safe(w) && Placed(w) && Guard(w, c)
    requires !c.PutStatus? && !c.CreateClaim? && !c.DeleteClaim? && !c.SweepClaim?
    ensures Placed(Called(w, c))
  {
    hide Safe, Full, Known, Sized, Staged;
  }

  /** SoleTemp */

  lemma SoleTempStsPod(w: World, r: nat)
    requires SoleTemp(w) && CanMove(w, StsPod(r))
    ensures SoleTemp(Moved(w, StsPod(r)))
  {
    StsPodTemps(w, r);
    var claims := Moved(w, StsPod(r)).claims;
    SameTemps(w.claims, claims, w.pvs, w.spec);
    if w.vr.Some? {
      SameTempsAtCursor(w.claims, claims, w.vr.value.status);
    }
    hide TempSized, OneTemp, TempHeld, TempsAtCursor, CanMove, Moved;
  }

  lemma SameTemps(claims: map<ClaimKey, Claim>, claims': map<ClaimKey, Claim>, pvs: map<PvName, Pv>, spec: Spec)
    requires forall k :: k in claims' && k.Temp? ==> k in claims && claims'[k] == claims[k]
    ensures TempSized(spec, claims) ==> TempSized(spec, claims')
    ensures OneTemp(claims) ==> OneTemp(claims')
    ensures TempHeld(claims, pvs) ==> TempHeld(claims', pvs)
  {
    hide TargetOf, IsTarget;
  }

  lemma SameTempsAtCursor(claims: map<ClaimKey, Claim>, claims': map<ClaimKey, Claim>, st: Status)
    requires forall k :: k in claims' && k.Temp? ==> k in claims && claims'[k] == claims[k]
    ensures TempsAtCursor(claims, st) ==> TempsAtCursor(claims', st)
  {
    hide AtCursorIn;
  }

  lemma StsPodTemps(w: World, r: nat)
    requires CanMove(w, StsPod(r))
    ensures var w' := Moved(w, StsPod(r));
            && (forall k :: k in w'.claims && k.Temp? ==> k in w.claims && w'.claims[k] == w.claims[k])
            && w'.pvs == w.pvs && w'.vr == w.vr && w'.book == w.book && w'.spec == w.spec
  {
  }

  lemma SoleTempMove(w: World, m: Move)
    requires SoleTemp(w) && CanMove(w, m) && !m.StsPod?
    ensures SoleTemp(Moved(w, m))
  {
    hide TargetOf, IsTarget, AtCursorIn;
  }

  lemma SoleTempStatus(w: World, t: Status)
    requires Safe(w) && SoleTemp(w) && Guard(w, PutStatus(t))
    ensures SoleTemp(Called(w, PutStatus(t)))
  {
    if w.book.h1 {
      forall k | k in w.claims && k.Temp?
        ensures AtCursorIn(t, k.unit)
      {
        CursorLeaves(w, t, k.unit);
      }
    }
    hide Safe, OneTemp, TempSized, StatusStep;
  }

  lemma SoleTempCall(w: World, c: Call)
    requires SoleTemp(w) && Guard(w, c) && !c.PutStatus?
    ensures SoleTemp(Called(w, c))
  {
    hide SoleTemp, Guard, Called;
    if c.CreateClaim? {
      SoleTempCreate(w, c.key, c.claim);
    } else if c.RetainPv? || c.ReleasePv? {
      SoleTempVolume(w, c);
    } else {
      SoleTempOther(w, c);
    }
  }

  lemma SoleTempCreate(w: World, k: ClaimKey, claim: Claim)
    requires SoleTemp(w) && Guard(w, CreateClaim(k, claim))
    ensures SoleTemp(Called(w, CreateClaim(k, claim)))
  {
    hide Staged, Sound, Owned, Retained, NotFirst, TargetOf, IsTarget, CompletedAt, AllHeld;
  }

  lemma SoleTempVolume(w: World, c: Call)
    requires SoleTemp(w) && Guard(w, c) && (c.RetainPv? || c.ReleasePv?)
    ensures SoleTemp(Called(w, c))
  {
    hide Staged, Sound, TargetOf, IsTarget, TempSized, OneTemp, NotFirst, CompletedAt;
  }

  lemma SoleTempOther(w: World, c: Call)
    requires SoleTemp(w) && Guard(w, c) && !c.PutStatus? && !c.CreateClaim? && !c.RetainPv? && !c.ReleasePv?
    ensures SoleTemp(Called(w, c))
  {
    hide Staged, Sound, TargetOf, IsTarget, AtCursorIn, Active, Owned, Retained, Quiet, HomeHeld, AtCompleted, Rewrite;
  }

  /** Excluded */

  lemma ExcludedMove(w: World, m: Move)
    requires Excluded(w) && CanMove(w, m)
    ensures Excluded(Moved(w, m))
  {
  }

  lemma ExcludedStatus(w: World, t: Status)
    requires Safe(w) && Excluded(w) && Guard(w, PutStatus(t))
    ensures Excluded(Called(w, PutStatus(t)))
  {
    if w.book.h2 && w.book.h4 {
      forall p | p in w.pods && p.Mig? && !Finished(w.pods[p])
        ensures AtCursorIn(t, p.unit)
      {
        CursorLeaves(w, t, p.unit);
      }
    }
    hide Safe, Exclusion, StatusStep;
  }

  lemma ExcludedCall(w: World, c: Call)
    requires Excluded(w) && Guard(w, c) && !c.PutStatus?
    ensures Excluded(Called(w, c))
  {
    hide Staged;
  }

  /** Every run */

  lemma PlacedStart(w: World)
    requires Start(w)
    ensures Placed(w) && SoleTemp(w) && Excluded(w)
  {
  }

  lemma PlacedAction(w: World, a: Action)
    requires Safe(w) && Placed(w) && SoleTemp(w) && Excluded(w) && Allowed(w, a)
    ensures Placed(Acted(w, a)) && SoleTemp(Acted(w, a)) && Excluded(Acted(w, a))
  {
    hide Safe, Placed, SoleTemp, Excluded, CanMove, Guard, Moved, Called;
    match a
    case Env(m) =>
      if m.StsPod? { SoleTempStsPod(w, m.replica); } else { SoleTempMove(w, m); }
      ExcludedMove(w, m);
      if m.StsPod? { PlacedStsPod(w, m.replica); }
      else if m.Bind? { PlacedBind(w, m.claim, m.pv, m.policy); }
      else if m.ClaimGone? { PlacedClaimGone(w, m); }
      else { PlacedOtherMove(w, m); }
    case Op(c) =>
      if c.PutStatus? {
        PlacedStatus(w, c.status);
        SoleTempStatus(w, c.status);
        ExcludedStatus(w, c.status);
      } else {
        SoleTempCall(w, c);
        ExcludedCall(w, c);
        if c.CreateClaim? {
          match c.key
          case Temp(u) => PlacedCreateTemp(w, u, c.claim);
          case Orig(u) => PlacedCreateOrig(w, u, c.claim);
        }
        else if c.DeleteClaim? { PlacedDeleteClaim(w, c); }
        else if c.SweepClaim? {
          SweptIsTemp(w, c.key);
          PlacedSweepClaim(w, c.key);
        }
        else { PlacedOtherCall(w, c); }
      }
  }

  lemma {:induction false} PlacedRun(w0: World, log: seq<Action>, w: World)
    requires Run(w0, log, w)
    ensures Placed(w) && SoleTemp(w) && Excluded(w)
  {
    if log == [] {
      PlacedStart(w);
    } else {
      var n := |log| - 1;
      SafeRun(w0, log[..n], Exec(w0, log[..n]));
      PlacedRun(w0, log[..n], Exec(w0, log[..n]));
      PlacedAction(Exec(w0, log[..n]), log[n]);
    }
  }
}
