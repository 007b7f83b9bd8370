/**
  How much storage the claims of the migrated units request, over every run:
  never more than at the start plus one new volume, and strictly less at the end.
 */
module Conservation {
  import opened Types
  import opened Enumeration
  import opened Rewriting
  import opened Protocol
  import opened Safety
  import opened Placement
  import opened Custody
  import opened Stages
  import opened Rely
  import opened Theorems

  function Sum(f: Unit -> nat, units: seq<Unit>): nat {
    if units == [] then 0 else Sum(f, units[..|units| - 1]) + f(units[|units| - 1])
  }

  lemma {:induction false} SumAtMost(f: Unit -> nat, g: Unit -> nat, units: seq<Unit>)
    requires forall u :: u in units ==> f(u) <= g(u)
    ensures Sum(f, units) <= Sum(g, units)
  {
    if units != [] {
      SumAtMost(f, g, units[..|units| - 1]);
    }
  }

  lemma {:induction false} SumLess(f: Unit -> nat, g: Unit -> nat, units: seq<Unit>)
    requires units != [] && forall u :: u in units ==> f(u) < g(u)
    ensures Sum(f, units) < Sum(g, units)
  {
    SumAtMost(f, g, units[..|units| - 1]);
  }

  lemma {:induction false} SumSame(f: Unit -> nat, g: Unit -> nat, units: seq<Unit>)
    requires forall u :: u in units ==> f(u) == g(u)
    ensures Sum(f, units) == Sum(g, units)
  {
    if units != [] {
      SumSame(f, g, units[..|units| - 1]);
    }
  }

  lemma {:induction false} SumAppend(f: Unit -> nat, a: seq<Unit>, b: seq<Unit>)
    ensures Sum(f, a + b) == Sum(f, a) + Sum(f, b)
  {
    if b == [] {
      assert a + b == a;
    } else {
      SumAppend(f, a, b[..|b| - 1]);
      assert (a + b)[..|a + b| - 1] == a + b[..|b| - 1];
    }
  }

  lemma {:induction false} SumZero(f: Unit -> nat, units: seq<Unit>)
    requires forall u :: u in units ==> f(u) == 0
    ensures Sum(f, units) == 0
  {
    if units != [] {
      SumZero(f, units[..|units| - 1]);
    }
  }

  // A sum with at most one term.
  lemma {:induction false} SumSole(f: Unit -> nat, units: seq<Unit>, bound: nat)
    requires forall i, j :: 0 <= i < j < |units| ==> f(units[i]) == 0 || f(units[j]) == 0
    requires forall u :: u in units ==> f(u) <= bound
    ensures Sum(f, units) <= bound
  {
    if units != [] {
      var n := |units| - 1;
      if f(units[n]) > 0 {
        forall u | u in units[..n]
          ensures f(u) == 0
        {
          var i :| 0 <= i < n && units[i] == u;
        }
        SumZero(f, units[..n]);
      } else {
        SumSole(f, units[..n], bound);
      }
    }
  }

  /** Requests */

  function OrigRequest(claims: map<ClaimKey, Claim>): Unit -> nat {
    (u: Unit) => if Orig(u) in claims then claims[Orig(u)].size else 0
  }

  function TempRequest(claims: map<ClaimKey, Claim>): Unit -> nat {
    (u: Unit) => if Temp(u) in claims then claims[Temp(u)].size else 0
  }

  function FirstRequest(past: Origin): Unit -> nat {
    (u: Unit) => if u in past.size0 then past.size0[u] else 0
  }

  function NewRequest(volumes: seq<Target>): Unit -> nat {
    (u: Unit) => if IsTarget(volumes, u.volume) then TargetOf(volumes, u.volume).newSize else 0
  }

  ghost function Migrated(w: World): seq<Unit>
    requires w.past.sts0.Some?
  {
    Units(w.spec.volumes, Replicas(w.past.sts0.value))
  }

  // What the original and the temporary claims of the migrated units request.
  ghost function Requested(w: World): nat
    requires w.past.sts0.Some?
  {
    Sum(OrigRequest(w.claims), Migrated(w)) + Sum(TempRequest(w.claims), Migrated(w))
  }

  ghost function RequestedFirst(w: World): nat
    requires w.past.sts0.Some?
  {
    Sum(FirstRequest(w.past), Migrated(w))
  }

  // All replicas of a volume start with the same size.
  ghost predicate EqualSizes(w: World) {
    w.past.sts0.Some? &&
    forall u :: u in Migrated(w) ==> FirstRequest(w.past)(u) == FirstRequest(w.past)(Unit(0, u.volume))
  }

  function LargestNew(volumes: seq<Target>): (m: nat)
    ensures forall i :: 0 <= i < |volumes| ==> volumes[i].newSize <= m
    ensures volumes == [] || exists i :: 0 <= i < |volumes| && volumes[i].newSize == m
  {
    if volumes == [] then 0
    else
      var n := |volumes| - 1;
      var m := LargestNew(volumes[..n]);
      if volumes[n].newSize >= m then volumes[n].newSize else m
  }

  // Each target is below the first size of each replica's claim.
  lemma NewBelowFirst(w: World, u: Unit)
    requires EqualSizes(w) && Shrinks(w.spec, w.past) && u in Migrated(w)
    ensures NewRequest(w.spec.volumes)(u) < FirstRequest(w.past)(u)
  {
    UnitsAreUnits(w.spec.volumes, Replicas(w.past.sts0.value), u);
    var t := TargetOf(w.spec.volumes, u.volume);
    assert t in w.spec.volumes;
  }

  lemma TempAtMostLargest(w: World, u: Unit)
    requires SoleTemp(w)
    ensures TempRequest(w.claims)(u) <= LargestNew(w.spec.volumes)
  {
    hide OneTemp, TempHeld, TempsAtCursor;
    if Temp(u) in w.claims {
      var i := IndexOf(w.spec.volumes, u.volume);
      assert w.spec.volumes[i] == TargetOf(w.spec.volumes, u.volume);
    }
  }

  /** What the gate means for claims, in every run */

  // Where the annotation is set, or was once wrong, only the rewrite lives.
  ghost predicate Rewritten(w: World) {
    w.past.sts0.Some? && (!w.book.h4 || (w.vr.Some? && w.vr.value.stsDeleted)) ==>
      w.sts == None || w.sts == Some(Rewrite(w.past.sts0.value, w.spec.volumes))
  }

  ghost predicate NoTemps(w: World) {
    forall k :: k in w.claims ==> k.Orig?
  }

  // A resource that does not shrink its volumes never gets past the gate.
  ghost predicate Gated(w: World) {
    w.past.rolledOut && !Shrinks(w.spec, w.past) ==> w.book.h4 && NoTemps(w)
  }

  // A completed resource has no temporary claim, be it marked for deletion or not.
  ghost predicate Cleared(w: World) {
    w.book.h1 && w.vr.Some? && w.vr.value.status.phase == Completed ==> NoTemps(w)
  }

  ghost predicate Gating(w: World) {
    Rewritten(w) && Gated(w) && Cleared(w)
  }

  lemma GatingMove(w: World, m: Move)
    requires Gating(w) && CanMove(w, m)
    ensures Gating(Moved(w, m))
  {
    MoveQuieter(w, m);
    assert NoTemps(w) ==> NoTemps(Moved(w, m)) by {
      hide Reclaimed, Written;
    }
    hide CanMove, Moved, NoTemps, Shrinks, Rewrite;
  }

  lemma CursorGated(w: World)
    requires Safe(w) && w.vr.Some? && Cursor(w.vr.value.status).Some?
    ensures w.past.rolledOut ==> Shrinks(w.spec, w.past)
  {
    hide SpecOk, Recoverable, FirstKept, TempsAside, MountsAside, ClaimsLabelled, PodsLabelled;
    hide TemplatesLabelled, PodShape, Truthful, Ordered, Shrinks, TargetsOk;
  }

  // The cursor appears, and moves, only behind the gate.
  lemma MovesGated(w: World, t: Status)
    requires Safe(w) && Guard(w, PutStatus(t)) && CursorMoves(w.vr.value.status, t)
    ensures w.past.rolledOut ==> Shrinks(w.spec, w.past)
  {
    if Cursor(w.vr.value.status).Some? {
      CursorGated(w);
    }
    hide Safe, SyncStep, Shrinks, TargetsOk, Units;
  }

  // Phase Completed is stored when the unit at the cursor is recorded: no temporary
  // claim is left then.
  lemma CompletesCleared(w: World, t: Status)
    requires SoleTemp(w) && w.book.h1 && Guard(w, PutStatus(t)) && t.phase == Completed
    ensures NoTemps(w)
  {
    hide OneTemp, TempHeld, TempSized, SameExceptAt, Finish, CompletedAt, Next, TargetsOk, Shrinks;
  }

  lemma GatingStatus(w: World, t: Status)
    requires Safe(w) && SoleTemp(w) && Gating(w) && Guard(w, PutStatus(t))
    ensures Gating(Called(w, PutStatus(t)))
  {
    if CursorMoves(w.vr.value.status, t) {
      MovesGated(w, t);
    }
    if w.book.h1 && t.phase == Completed {
      CompletesCleared(w, t);
    }
    hide Safe, SoleTemp, StatusStep, NoTemps, Shrinks, Rewrite;
  }

  lemma GatingClaim(w: World, k: ClaimKey, claim: Claim)
    requires Safe(w) && Gating(w) && Guard(w, CreateClaim(k, claim))
    ensures Gating(Called(w, CreateClaim(k, claim)))
  {
    assert Active(w, k.unit);
    CursorGated(w);
    hide Safe, Sound, Staged, Retained, Owned, AllHeld, CompletedAt, TargetOf, IsTarget, Shrinks, Rewrite;
  }

  lemma GatingSts(w: World, c: Call)
    requires Safe(w) && Gating(w) && Guard(w, c) && (c.CreateSts? || c.PutMeta?)
    ensures Gating(Called(w, c))
  {
    BackupIsFirst(w);
    hide Safe, CompletedAt, NoTemps, Shrinks, Rewrite;
  }

  lemma GatingOther(w: World, c: Call)
    requires Gating(w) && CanCall(w, c) && !c.PutStatus? && !c.CreateClaim? && !c.CreateSts? && !c.PutMeta?
    ensures Gating(Called(w, c))
  {
    hide AtCompleted, AllHeld, Consistent, Shrinks, Rewrite;
  }

  lemma GatingCall(w: World, c: Call)
    requires Safe(w) && SoleTemp(w) && Gating(w) && Guard(w, c)
    ensures Gating(Called(w, c))
  {
    hide *;
    GuardCan(w, c);
    match c
    case PutStatus(t) => GatingStatus(w, t);
    case CreateClaim(k, claim) => GatingClaim(w, k, claim);
    case CreateSts(_) => GatingSts(w, c);
    case PutMeta(_, _, _) => GatingSts(w, c);
    case _ => GatingOther(w, c);
  }

  lemma GatingStart(w: World)
    requires Start(w)
    ensures Gating(w)
  {
    hide FreshSts, FreshPods, RolledOut, Shrinks, Owned;
  }

  lemma {:induction false} GatingRun(w0: World, log: seq<Action>, w: World)
    requires Run(w0, log, w)
    ensures Gating(w)
  {
    if log == [] {
      GatingStart(w);
    } else {
      var n := |log| - 1;
      var v := Exec(w0, log[..n]);
      GatingRun(w0, log[..n], v);
      InvRun(w0, log[..n], v);
      InvParts(v);
      hide Start, Gating, Inv, Safe, SoleTemp, Placed, SpecOk, CanMove, Moved, Guard, Called;
      match log[n] {
        case Env(m) => GatingMove(v, m);
        case Op(c) => GatingCall(v, c);
      }
    }
  }

  /** No original claim requests more than it did first */

  ghost predicate WithinFirst(w: World)
    requires w.past.sts0.Some?
  {
    forall u :: u in Migrated(w) && Orig(u) in w.claims ==> w.claims[Orig(u)].size <= FirstRequest(w.past)(u)
  }

  // While h4 holds the StatefulSet controller creates no claim; afterwards it
  // creates them at the new size.
  lemma WithinStsPod(w: World, r: nat)
    requires Safe(w) && Placed(w) && Gating(w) && w.past.rolledOut && EqualSizes(w) && WithinFirst(w)
    requires CanMove(w, StsPod(r))
    ensures WithinFirst(Moved(w, StsPod(r)))
  {
    var w' := Moved(w, StsPod(r));
    if w.book.h4 {
      StsPodCreatesNoClaim(w, r);
    } else {
      forall u | u in Migrated(w) && Orig(u) in w'.claims && Orig(u) !in w.claims
        ensures w'.claims[Orig(u)].size <= FirstRequest(w.past)(u)
      {
        var t := TemplateNamed(w.sts.value, u.volume);
        assert t in w.sts.value.templates && w'.claims[Orig(u)].size == t.size;
        RewrittenWithin(w, u, t);
      }
    }
    hide Safe, Placed, Gating, EqualSizes, Units, PodClaims, MissingClaims;
  }

  // A template of the rewritten StatefulSet asks for the new size.
  lemma RewrittenWithin(w: World, u: Unit, t: Template)
    requires Safe(w) && Gating(w) && w.past.rolledOut && EqualSizes(w) && !w.book.h4 && u in Migrated(w)
    requires w.sts.Some? && t in w.sts.value.templates && t.name == u.volume
    ensures t.size <= FirstRequest(w.past)(u)
  {
    var s, s0 := w.sts.value, w.past.sts0.value;
    NewBelowFirst(w, u);
    SpecDistinct(w);
    RewriteTouchesOnlyTargets(s0, w.spec.volumes);
    UnitsAreUnits(w.spec.volumes, Replicas(s0), u);
    hide Safe, Units, Rewrite, EqualSizes, DistinctNames, Shrinks;
    var i :| 0 <= i < |s.templates| && s.templates[i] == t;
  }

  lemma SpecDistinct(w: World)
    requires Safe(w)
    ensures SpecOk(w.spec)
  {
  }

  lemma WithinCreate(w: World, u: Unit, claim: Claim)
    requires Safe(w) && w.past.rolledOut && EqualSizes(w) && WithinFirst(w) && Guard(w, CreateClaim(Orig(u), claim))
    ensures WithinFirst(Called(w, CreateClaim(Orig(u), claim)))
  {
    assert Active(w, u) && claim.size == TargetOf(w.spec.volumes, u.volume).newSize by { hide Sound, Staged, Retained; }
    CursorGated(w);
    if u in Migrated(w) {
      NewBelowFirst(w, u);
    }
    assert CanCall(w, CreateClaim(Orig(u), claim));
    hide Safe, Guard, Units, Shrinks, EqualSizes, AllHeld, Active;
  }

  lemma WithinOther(w: World, c: Call)
    requires w.past.sts0.Some? && WithinFirst(w) && CanCall(w, c) && !(c.CreateClaim? && c.key.Orig?)
    ensures Called(w, c).past == w.past && WithinFirst(Called(w, c))
  {
    hide Units, Consistent, AtCompleted, AllHeld, CursorMoves;
    match c
    case CreateClaim(_, _) =>
    case DeleteClaim(_) =>
    case SweepClaim(_) =>
    case _ =>
  }

  lemma WithinCall(w: World, c: Call)
    requires Safe(w) && w.past.rolledOut && EqualSizes(w) && WithinFirst(w) && Guard(w, c)
    ensures WithinFirst(Called(w, c))
  {
    GuardCan(w, c);
    hide Guard, Called, WithinFirst;
    if c.CreateClaim? && c.key.Orig? {
      WithinCreate(w, c.key.unit, c.claim);
    } else {
      WithinOther(w, c);
    }
  }

  lemma WithinMove(w: World, m: Move)
    requires w.past.sts0.Some? && WithinFirst(w) && CanMove(w, m) && !m.StsPod?
    ensures Moved(w, m).past == w.past && WithinFirst(Moved(w, m))
  {
    SizesMove(w, m);
    MoveQuieter(w, m);
    hide CanMove, Moved, Units;
  }

  lemma {:induction false} WithinRun(w0: World, log: seq<Action>, w: World)
    requires Run(w0, log, w) && w.past.rolledOut && EqualSizes(w)
    ensures WithinFirst(w)
  {
    if log == [] {
      WithinStart(w);
    } else {
      var n := |log| - 1;
      var v := Exec(w0, log[..n]);
      PastFixed(v, log[n]);
      InvRun(w0, log[..n], v);
      InvParts(v);
      GatingRun(w0, log[..n], v);
      hide Start, Inv, Safe, Placed, SoleTemp, SpecOk, Gating, CanMove, Moved, Guard, Called, WithinFirst;
      assert EqualSizes(v);
      WithinRun(w0, log[..n], v);
      match log[n] {
        case Env(m) => if m.StsPod? { WithinStsPod(v, m.replica); } else { WithinMove(v, m); }
        case Op(c) => WithinCall(v, c);
      }
    }
  }

  lemma WithinStart(w: World)
    requires Start(w) && w.past.sts0.Some?
    ensures WithinFirst(w)
  {
    hide FreshSts, FreshResource, FreshPods, FreshBook, RolledOut, Owned, Units;
  }

  // At every point of every run: at most the first total plus one new size.
  lemma StorageBounded(w0: World, log: seq<Action>, w: World)
    requires Run(w0, log, w) && w.book.h1 && w.past.rolledOut && EqualSizes(w)
    ensures Requested(w) <= RequestedFirst(w) + LargestNew(w.spec.volumes)
    ensures NoTemps(w) ==> Requested(w) <= RequestedFirst(w)
    ensures forall u, u' :: Temp(u) in w.claims && Temp(u') in w.claims ==> u == u'
  {
    InvRun(w0, log, w);
    InvParts(w);
    WithinRun(w0, log, w);
    hide Inv, Run, Safe, Placed, SoleTemp, EqualSizes;
    var units := Migrated(w);
    SumAtMost(OrigRequest(w.claims), FirstRequest(w.past), units);
    forall u
      ensures TempRequest(w.claims)(u) <= LargestNew(w.spec.volumes)
    {
      TempAtMostLargest(w, u);
    }
    OneTempAtMost(w);
    MigratedDistinct(w);
    SumSole(TempRequest(w.claims), units, LargestNew(w.spec.volumes));
    if NoTemps(w) {
      SumZero(TempRequest(w.claims), units);
    }
  }

  lemma InvParts(w: World)
    requires Inv(w)
    ensures Safe(w) && Placed(w) && SoleTemp(w) && SpecOk(w.spec)
  {
    hide Placed, SoleTemp, Excluded, Kept;
  }

  lemma OneTempAtMost(w: World)
    requires SoleTemp(w) && w.book.h1
    ensures forall u, u' :: Temp(u) in w.claims && Temp(u') in w.claims ==> u == u'
  {
    hide TempHeld, TempsAtCursor, TempSized;
    forall u, u' | Temp(u) in w.claims && Temp(u') in w.claims
      ensures u == u'
    {
      assert Temp(u) == Temp(u');
    }
  }

  lemma MigratedDistinct(w: World)
    requires SpecOk(w.spec) && w.past.sts0.Some?
    ensures forall i, j :: 0 <= i < j < |Migrated(w)| ==> Migrated(w)[i] != Migrated(w)[j]
  {
    forall i, j | 0 <= i < j < |Migrated(w)|
      ensures Migrated(w)[i] != Migrated(w)[j]
    {
      UnitsDistinct(w.spec.volumes, Replicas(w.past.sts0.value), i, j);
    }
  }

  /** At the end */

  function VolumeTotal(volumes: seq<Target>): nat {
    if volumes == [] then 0 else VolumeTotal(volumes[..|volumes| - 1]) + volumes[|volumes| - 1].newSize
  }

  lemma {:induction false} RowTotal(volumes: seq<Target>, r: nat, n: nat)
    requires DistinctNames(volumes) && n <= |volumes|
    ensures Sum(NewRequest(volumes), Row(volumes, r)[..n]) == VolumeTotal(volumes[..n])
  {
    if n > 0 {
      RowTotal(volumes, r, n - 1);
      IndexOfAt(volumes, n - 1);
      assert Row(volumes, r)[..n][..n - 1] == Row(volumes, r)[..n - 1];
      assert volumes[..n][..n - 1] == volumes[..n - 1];
    }
  }

  lemma RowAdds(volumes: seq<Target>, r: nat, before: seq<Unit>)
    requires DistinctNames(volumes)
    ensures Sum(NewRequest(volumes), before + Row(volumes, r)) == Sum(NewRequest(volumes), before) + VolumeTotal(volumes)
  {
    var row, n := Row(volumes, r), |volumes|;
    assert |row| == n;
    assert row[..n] == row && volumes[..n] == volumes;
    hide *;
    RowTotal(volumes, r, n);
    SumAppend(NewRequest(volumes), before, row);
  }

  lemma {:induction false} UnitsTotal(volumes: seq<Target>, replicas: nat)
    requires DistinctNames(volumes)
    ensures Sum(NewRequest(volumes), Units(volumes, replicas)) == replicas * VolumeTotal(volumes)
  {
    hide VolumeTotal, NewRequest, DistinctNames, Row;
    var t := VolumeTotal(volumes);
    if replicas == 0 {
      assert Units(volumes, replicas) == [];
    } else {
      var before := Units(volumes, replicas - 1);
      UnitsTotal(volumes, replicas - 1);
      RowAdds(volumes, replicas - 1, before);
      assert Units(volumes, replicas) == before + Row(volumes, replicas - 1);
      OneMore(replicas, t);
    }
  }

  lemma OneMore(n: nat, t: nat)
    requires n > 0
    ensures n * t == (n - 1) * t + t
  {
  }

  // Phase Completed: the total is replicas times the new sizes, below the start.
  lemma StorageAtCompletion(w0: World, log: seq<Action>, w: World)
    requires Run(w0, log, w) && w.book.h1 && w.past.rolledOut && EqualSizes(w)
    requires w.vr.Some? && w.vr.value.status.phase == Completed
    ensures Requested(w) == Replicas(w.past.sts0.value) * VolumeTotal(w.spec.volumes)
    ensures Requested(w) < RequestedFirst(w)
  {
    hide *;
    InvRun(w0, log, w);
    InvParts(w);
    GatingRun(w0, log, w);
    CompletedGate(w);
    CompletedSums(w0, log, w);
    CompletedTotal(w);
  }

  lemma CompletedGate(w: World)
    requires Safe(w) && Gating(w) && w.book.h1 && w.past.rolledOut
    requires w.vr.Some? && w.vr.value.status.phase == Completed
    ensures w.past.sts0.Some? && Replicas(w.past.sts0.value) > 0 && Shrinks(w.spec, w.past) && NoTemps(w)
  {
    hide SpecOk, Recoverable, FirstKept, TempsAside, MountsAside, ClaimsLabelled, PodsLabelled;
    hide TemplatesLabelled, PodShape, Truthful, AllCompleted, Shrinks, TargetsOk, NoTemps, Rewritten, Gated;
  }

  lemma CompletedSums(w0: World, log: seq<Action>, w: World)
    requires Run(w0, log, w) && EqualSizes(w) && Shrinks(w.spec, w.past)
    requires w.vr.Some? && w.vr.value.status.phase == Completed && NoTemps(w)
    ensures Requested(w) == Sum(NewRequest(w.spec.volumes), Migrated(w))
    ensures forall u :: u in Migrated(w) ==> NewRequest(w.spec.volumes)(u) < FirstRequest(w.past)(u)
  {
    SumZero(TempRequest(w.claims), Migrated(w));
    hide Run, EqualSizes, Shrinks, Sum, Migrated;
    forall u | u in Migrated(w)
      ensures OrigRequest(w.claims)(u) == NewRequest(w.spec.volumes)(u)
      ensures NewRequest(w.spec.volumes)(u) < FirstRequest(w.past)(u)
    {
      CompletedRequest(w0, log, w, u);
      NewBelowFirst(w, u);
    }
    SumSame(OrigRequest(w.claims), NewRequest(w.spec.volumes), Migrated(w));
  }

  lemma CompletedRequest(w0: World, log: seq<Action>, w: World, u: Unit)
    requires Run(w0, log, w) && w.vr.Some? && w.vr.value.status.phase == Completed
    requires w.past.sts0.Some? && u in Migrated(w)
    ensures OrigRequest(w.claims)(u) == NewRequest(w.spec.volumes)(u)
  {
    UnitsAreUnits(w.spec.volumes, Replicas(w.past.sts0.value), u);
    CompletedMeansAll(w0, log, w, u);
    hide Run, Units;
  }

  lemma CompletedTotal(w: World)
    requires SpecOk(w.spec) && w.past.sts0.Some? && Replicas(w.past.sts0.value) > 0
    requires forall u :: u in Migrated(w) ==> NewRequest(w.spec.volumes)(u) < FirstRequest(w.past)(u)
    ensures Sum(NewRequest(w.spec.volumes), Migrated(w)) == Replicas(w.past.sts0.value) * VolumeTotal(w.spec.volumes)
    ensures Sum(NewRequest(w.spec.volumes), Migrated(w)) < RequestedFirst(w)
  {
    hide Sum, VolumeTotal, NewRequest, FirstRequest, Units;
    UnitsTotal(w.spec.volumes, Replicas(w.past.sts0.value));
    FirstUnit(w.spec.volumes, Replicas(w.past.sts0.value));
    SumLess(NewRequest(w.spec.volumes), FirstRequest(w.past), Migrated(w));
  }
}
