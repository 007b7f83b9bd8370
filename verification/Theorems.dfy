/**
  The main results, each for every run from a fresh resource: with crashes
  between any two calls, any call failing, and the resource deleted at any time.
 */
module Theorems {
  import opened Types
  import opened Enumeration
  import opened Rewriting
  import opened Protocol
  import opened Safety
  import opened Placement
  import opened Custody
  import opened Stages
  import opened Rely

  /** Points of a run */

  ghost function At(w0: World, log: seq<Action>, i: nat): World
    requires i <= |log|
  {
    Exec(w0, log[..i])
  }

  lemma {:induction false} RunAt(w0: World, log: seq<Action>, w: World, i: nat)
    requires Run(w0, log, w) && i <= |log|
    ensures Run(w0, log[..i], At(w0, log, i))
    decreases |log|
  {
    if i == |log| {
      assert log[..i] == log;
    } else {
      var n := |log| - 1;
      RunAt(w0, log[..n], Exec(w0, log[..n]), i);
      assert log[..n][..i] == log[..i];
    }
  }

  lemma StepAt(w0: World, log: seq<Action>, w: World, i: nat)
    requires Run(w0, log, w) && i < |log|
    ensures Allowed(At(w0, log, i), log[i]) && At(w0, log, i + 1) == Acted(At(w0, log, i), log[i])
    ensures Inv(At(w0, log, i))
  {
    RunAt(w0, log, w, i + 1);
    RunAt(w0, log, w, i);
    InvRun(w0, log[..i], At(w0, log, i));
    assert log[..i + 1][..i] == log[..i];
    hide Start, Allowed, Acted, Inv;
  }

  lemma AtBefore(w0: World, log: seq<Action>, n: nat, i: nat)
    requires i <= n <= |log|
    ensures At(w0, log[..n], i) == At(w0, log, i)
  {
    assert log[..n][..i] == log[..i];
  }

  /** No loss */

  // The volume first bound to an original claim is never destroyed, keeps that
  // claim as its holder, and is no temporary claim's and no migrator's target.
  lemma FirstVolumesSurvive(w0: World, log: seq<Action>, w: World, u: Unit)
    requires Run(w0, log, w) && u in w.past.first
    ensures var n := w.past.first[u];
            && n in w.pvs && w.pvs[n].claimRef == Some(Orig(u))
            && (w.pvs[n].policy == Retain || (Orig(u) in w.claims && w.claims[Orig(u)].pv == Some(n)))
            && (forall k :: k in w.claims && k.Temp? ==> w.claims[k].pv != Some(n))
            && (forall p, k :: p in w.pods && k in w.pods[p].mounts && k.Temp? ==> w.pods[p].mounts[k] != n)
  {
    SafeRun(w0, log, w);
    assert NotFirstOf(w.past, w.past.first[u]) ==> false;
    hide SpecOk, Recoverable, ClaimsLabelled, PodsLabelled, TemplatesLabelled, PodShape, CursorOk, Truthful;
  }

  // Its content changes only when the application writes.
  lemma FirstVolumesUntouched(w0: World, log: seq<Action>, w: World, u: Unit, a: Action)
    requires Run(w0, log, w) && u in w.past.first && Allowed(w, a)
    ensures var n := w.past.first[u];
            && n in w.pvs && n in Acted(w, a).pvs
            && (Acted(w, a).pvs[n].data == w.pvs[n].data || (a.Env? && a.move.AppWrite?))
  {
    SafeRun(w0, log, w);
    hide Run, Safe, Allowed, Acted;
    SafeAction(w, a);
    FirstPresent(w, u);
    PastFixed(w, a);
    FirstPresent(Acted(w, a), u);
    if !(a.Env? && a.move.AppWrite?) {
      ActionUntouched(w, u, a);
    }
  }

  lemma PastFixed(w: World, a: Action)
    requires Allowed(w, a)
    ensures Acted(w, a).past == w.past && Acted(w, a).spec == w.spec
  {
    hide MissingClaims, Reclaimed, Written, PodClaims;
    match a
    case Env(m) => assert CanMove(w, m);
    case Op(c) => GuardCan(w, c);
  }

  lemma ActionUntouched(w: World, u: Unit, a: Action)
    requires Safe(w) && u in w.past.first && Allowed(w, a)
    requires w.past.first[u] in w.pvs && w.past.first[u] in Acted(w, a).pvs
    requires !(a.Env? && a.move.AppWrite?)
    ensures Acted(w, a).pvs[w.past.first[u]].data == w.pvs[w.past.first[u]].data
  {
    hide Safe, CanMove, Guard, CanCall, Moved, Called;
    match a
    case Env(m) => UntouchedMove(w, u, m);
    case Op(c) =>
      GuardCan(w, c);
      UntouchedCall(w, u, c);
  }

  lemma GuardCan(w: World, c: Call)
    requires Guard(w, c)
    ensures CanCall(w, c)
  {
  }

  lemma FirstPresent(w: World, u: Unit)
    requires Safe(w) && u in w.past.first
    ensures w.past.first[u] in w.pvs && w.past.first[u] in w.book.names
  {
    hide SpecOk, Recoverable, TempsAside, MountsAside, ClaimsLabelled, PodsLabelled, TemplatesLabelled;
    hide PodShape, CursorOk, Truthful;
  }

  lemma UntouchedMove(w: World, u: Unit, m: Move)
    requires Safe(w) && u in w.past.first && CanMove(w, m) && w.past.first[u] in w.pvs
    ensures w.past.first[u] in Moved(w, m).pvs && !m.AppWrite? ==>
              Moved(w, m).pvs[w.past.first[u]].data == w.pvs[w.past.first[u]].data
  {
    hide SpecOk, Recoverable, FirstKept, TempsAside, ClaimsLabelled, PodsLabelled, TemplatesLabelled;
    hide PodShape, CursorOk, Truthful;
    if m.MigWrite? || m.MigDone? {
      MigratorAside(w, m.unit);
    }
    hide MountsAside, PodClaims;
  }

  // A migrator writes to no first volume.
  lemma MigratorAside(w: World, u: Unit)
    requires Safe(w) && Mig(u) in w.pods && Temp(u) in w.pods[Mig(u)].mounts
    ensures NotFirstOf(w.past, w.pods[Mig(u)].mounts[Temp(u)])
  {
    hide SpecOk, Recoverable, FirstKept, TempsAside, ClaimsLabelled, PodsLabelled, TemplatesLabelled;
    hide PodShape, CursorOk, Truthful;
    assert MountsAside(w.past, w.pods);
    var p, k := Mig(u), Temp(u);
    assert p in w.pods && k in w.pods[p].mounts && k.Temp?;
    assert NotFirstOf(w.past, w.pods[p].mounts[k]);
  }

  lemma UntouchedCall(w: World, u: Unit, c: Call)
    requires CanCall(w, c) && u in w.past.first && w.past.first[u] in w.pvs
    ensures w.past.first[u] in Called(w, c).pvs && Called(w, c).pvs[w.past.first[u]].data == w.pvs[w.past.first[u]].data
  {
  }

  // While an original claim is missing, its first volume and the copy's volume
  // both exist, both retained; with every hypothesis so does the latest data.
  lemma BothVolumesKept(w0: World, log: seq<Action>, w: World, u: Unit)
    requires Run(w0, log, w) && u in w.past.first && Absent(w, u)
    ensures Retained(w, w.past.first[u])
    ensures u in w.book.staged && Retained(w, w.book.staged[u]) && w.book.staged[u] != w.past.first[u]
    ensures Sound(w) ==>
              && u in w.book.home && Retained(w, w.book.home[u])
              && u in w.book.latest && w.pvs[w.book.home[u]].data == w.book.latest[u]
  {
    InvRun(w0, log, w);
    StagingRun(w0, log, w);
    assert NotFirstOf(w.past, w.book.staged[u]);
    hide SpecOk, Recoverable, TempsAside, MountsAside, ClaimsLabelled, PodsLabelled, TemplatesLabelled;
    hide PodShape, CursorOk, Truthful;
    hide Placed, SoleTemp, Excluded, Crewed, MigAt, HomeNamed, HomeInjective, HomeRef, TempRef, Pristine, Marked;
  }

  /** Latest data */

  // What the application wrote last, read off the log.
  ghost function LastWrites(init: map<Unit, Data>, log: seq<Action>): map<Unit, Data> {
    if log == [] then init
    else
      var before, a := LastWrites(init, log[..|log| - 1]), log[|log| - 1];
      if a.Env? && a.move.AppWrite? then before[a.move.unit := a.move.data] else before
  }

  lemma LatestStep(w: World, a: Action)
    requires Allowed(w, a)
    ensures Acted(w, a).book.latest
         == if a.Env? && a.move.AppWrite? then w.book.latest[a.move.unit := a.move.data] else w.book.latest
  {
    hide Guard;
    match a
    case Env(m) => LatestMove(w, m);
    case Op(c) =>
      assert CanCall(w, c) by { GuardCan(w, c); }
      LatestCall(w, c);
  }

  lemma LatestMove(w: World, m: Move)
    requires CanMove(w, m)
    ensures Moved(w, m).book.latest == if m.AppWrite? then w.book.latest[m.unit := m.data] else w.book.latest
  {
    hide PodClaims, MissingClaims, Reclaimed;
  }

  lemma LatestCall(w: World, c: Call)
    requires CanCall(w, c)
    ensures Called(w, c).book.latest == w.book.latest
  {
    hide AllHeld, Consistent, AtCompleted, CursorMoves;
    match c
    case PutStatus(_) =>
    case CreateClaim(_, _) =>
    case BeginPass =>
    case _ =>
  }

  lemma {:induction false} LatestIsLastWrite(w0: World, log: seq<Action>, w: World)
    requires Run(w0, log, w)
    ensures w.book.latest == LastWrites(w0.book.latest, log)
  {
    if log != [] {
      var n := |log| - 1;
      LatestIsLastWrite(w0, log[..n], Exec(w0, log[..n]));
      LatestStep(Exec(w0, log[..n]), log[n]);
      hide Allowed, Acted, Start;
    }
  }

  // The cluster is a map from units to what was last written to them: behind the
  // original claim, or on a retained volume while there is none.
  lemma LatestData(w0: World, log: seq<Action>, w: World, u: Unit)
    requires Run(w0, log, w) && Sound(w) && u in w.past.first
    ensures u in LastWrites(w0.book.latest, log)
    ensures var d := LastWrites(w0.book.latest, log)[u];
            if Orig(u) in w.claims
            then var n := w.claims[Orig(u)].pv; n.Some? && n.value in w.pvs && w.pvs[n.value].data == d
            else exists n :: Retained(w, n) && w.pvs[n].data == d
  {
    InvRun(w0, log, w);
    LatestIsLastWrite(w0, log, w);
    hide Safe, Placed, SoleTemp, Excluded, Crewed, MigAt, HomeInjective, HomeRef, TempRef;
    assert Orig(u) !in w.claims ==> Absent(w, u) && Retained(w, w.book.home[u]);
  }

  // Under all hypotheses no claim is given a volume that another claim names.
  lemma NothingHandedOver(w0: World, log: seq<Action>, w: World, k: ClaimKey, n: PvName, policy: Policy)
    requires Run(w0, log, w) && Sound(w) && CanMove(w, Bind(k, n, policy))
    ensures forall k' :: k' in w.claims && k' != k ==> w.claims[k'].pv != Some(n)
  {
    InvRun(w0, log, w);
    hide Safe, Excluded, Crewed, MigAt, GapQuiet, GapAtCursor, Backed, Sized, Full, HomeRetained, TempsAtCursor;
    BindTarget(w, k, n, policy);
    hide HomeData, HomeRef, HeldForTemps, TempSized;
  }

  // A new temporary claim can be given a volume that another claim names exactly
  // if some original claim does not hold its volume when the claim is created.
  lemma HandOver(w0: World, log: seq<Action>, w: World, u: Unit, claim: Claim)
    requires Run(w0, log, w) && Sound(w) && Guard(w, CreateClaim(Temp(u), claim))
    ensures var w' := Called(w, CreateClaim(Temp(u), claim));
            AllHeld(w.claims, w.pvs) <==>
              forall k, n, policy :: k in w'.claims && k != Temp(u) && CanMove(w', Bind(Temp(u), n, policy)) ==>
                w'.claims[k].pv != Some(n)
  {
    hide *;
    TempCreated(w, u, claim);
    InvRun(w0, log, w);
    var w' := Called(w, CreateClaim(Temp(u), claim));
    if AllHeld(w.claims, w.pvs) {
      forall k, n, policy | k in w'.claims && k != Temp(u) && CanMove(w', Bind(Temp(u), n, policy))
        ensures w'.claims[k].pv != Some(n)
      {
        HeldNotFree(w, w', u, k, n, policy);
      }
    } else {
      var k, n := FreeVolumeNamed(w);
      OrigIsNoTemp(k, u);
      assert k in w'.claims && k != Temp(u) && w'.claims[k].pv == Some(n);
      FreeBinds(w', u, n);
    }
  }

  // No claim names a volume that a new temporary claim can take, if each holds its own.
  lemma HeldNotFree(w: World, w': World, u: Unit, k: ClaimKey, n: PvName, policy: Policy)
    requires Inv(w) && Sound(w) && AllHeld(w.claims, w.pvs) && k in w.claims && k != Temp(u)
    requires Temp(u) in w'.claims && w'.claims[Temp(u)].pv == None && w'.pvs == w.pvs && w'.book.names == w.book.names
    requires CanMove(w', Bind(Temp(u), n, policy))
    ensures w.claims[k].pv != Some(n)
  {
    hide Safe, Placed, Excluded, Kept, OneTemp, TempSized, TempsAtCursor;
  }

  lemma CallRuns(w0: World, log: seq<Action>, w: World, c: Call)
    requires Run(w0, log, w) && Guard(w, c)
    ensures CanCall(w, c) && Run(w0, log + [Op(c)], Called(w, c))
  {
    RunExtends(w0, log, w, Op(c));
    hide Run, Called;
  }

  lemma OrigIsNoTemp(k: ClaimKey, u: Unit)
    requires k.Orig?
    ensures k != Temp(u)
  {
  }

  lemma TempCreated(w: World, u: Unit, claim: Claim)
    requires Sound(w) && Guard(w, CreateClaim(Temp(u), claim))
    ensures CanCall(w, CreateClaim(Temp(u), claim))
    ensures var w' := Called(w, CreateClaim(Temp(u), claim));
            && w'.claims == w.claims[Temp(u) := claim] && w'.pvs == w.pvs && claim.pv == None
            && w'.book.names == w.book.names
  {
    hide AllHeld, Active, Staged, Owned, TargetOf, IsTarget;
  }

  lemma FreeBinds(w: World, u: Unit, n: PvName)
    requires Temp(u) in w.claims && w.claims[Temp(u)].pv == None && n in w.pvs && w.pvs[n].claimRef == None
    ensures CanMove(w, Bind(Temp(u), n, Retain))
  {
  }

  // An original claim that does not hold its volume names one that is free.
  lemma FreeVolumeNamed(w: World) returns (k: ClaimKey, n: PvName)
    requires Inv(w) && Sound(w) && !AllHeld(w.claims, w.pvs)
    ensures k in w.claims && k.Orig? && w.claims[k].pv == Some(n) && n in w.pvs && w.pvs[n].claimRef == None
  {
    hide Safe, SoleTemp, Excluded, Crewed, MigAt, GapQuiet, GapAtCursor, Backed, Sized, Full, HomeRetained;
    hide HomeInjective, TempRef, HeldForTemps;
    k :| k in w.claims && k.Orig?
         && !(w.claims[k].pv.Some? && w.claims[k].pv.value in w.pvs && w.pvs[w.claims[k].pv.value].claimRef == Some(k));
    n := w.book.home[k.unit];
  }

  /** The StatefulSet */

  lemma StatefulSetRecoverable(w0: World, log: seq<Action>, w: World)
    requires Run(w0, log, w) && w.past.sts0.Some?
    ensures w.sts == w.past.sts0 || w.backup == w.past.sts0
    ensures w.backup.Some? ==> w.backup == w.past.sts0
    ensures w.sts.Some? ==> w.sts == w.past.sts0 || w.sts.value == Rewrite(w.past.sts0.value, w.spec.volumes)
  {
    SafeRun(w0, log, w);
    hide FirstKept, TempsAside, MountsAside, ClaimsLabelled, PodsLabelled, TemplatesLabelled, PodShape;
    hide CursorOk, Truthful;
  }

  // Written once, never overwritten and never removed.
  lemma {:induction false} BackupWrittenOnce(w0: World, log: seq<Action>, w: World, i: nat)
    requires Run(w0, log, w) && i <= |log| && At(w0, log, i).backup.Some?
    ensures w.backup == At(w0, log, i).backup
    decreases |log| - i
  {
    if i == |log| {
      assert log[..i] == log;
    } else {
      StepAt(w0, log, w, i);
      BackupStep(At(w0, log, i), log[i]);
      BackupWrittenOnce(w0, log, w, i + 1);
    }
  }

  lemma BackupStep(w: World, a: Action)
    requires Allowed(w, a) && w.backup.Some?
    ensures Acted(w, a).backup == w.backup
  {
    match a
    case Env(m) => assert CanMove(w, m);
    case Op(c) => assert CanCall(w, c);
  }

  // Once the StatefulSet was recreated for the first time, only the rewrite lives.
  lemma {:induction false} OnlyTheRewriteLives(w0: World, log: seq<Action>, w: World, i: nat)
    requires Run(w0, log, w) && i < |log| && log[i].Op? && log[i].call.CreateSts?
    ensures w.past.sts0.Some?
    ensures w.sts == None || w.sts == Some(Rewrite(w.past.sts0.value, w.spec.volumes))
    decreases |log|
  {
    hide *;
    var n := |log| - 1;
    if i < n {
      OnlyTheRewriteLives(w0, log[..n], Exec(w0, log[..n]), i) by { RewriteEarlier(w0, log, w); }
    }
    RewriteLast(w0, log, w);
  }

  lemma RewriteEarlier(w0: World, log: seq<Action>, w: World)
    requires Run(w0, log, w) && log != []
    ensures Run(w0, log[..|log| - 1], Exec(w0, log[..|log| - 1]))
  {
    hide Start, Allowed, Acted;
  }

  lemma RewriteLast(w0: World, log: seq<Action>, w: World)
    requires Run(w0, log, w) && log != []
    requires var v, a := Exec(w0, log[..|log| - 1]), log[|log| - 1];
             || (a.Op? && a.call.CreateSts?)
             || (v.past.sts0.Some? && (v.sts == None || v.sts == Some(Rewrite(v.past.sts0.value, v.spec.volumes))))
    ensures w.past.sts0.Some?
    ensures w.sts == None || w.sts == Some(Rewrite(w.past.sts0.value, w.spec.volumes))
  {
    var n := |log| - 1;
    SafeRun(w0, log[..n], Exec(w0, log[..n]));
    RewriteStep(Exec(w0, log[..n]), log[n]);
    hide Start, Safe, Allowed, Acted, Rewrite;
  }

  lemma RewriteStep(w: World, a: Action)
    requires Safe(w) && Allowed(w, a)
    requires || (a.Op? && a.call.CreateSts?)
             || (w.past.sts0.Some?
                 && (w.sts == None || w.sts == Some(Rewrite(w.past.sts0.value, w.spec.volumes))))
    ensures Acted(w, a).past.sts0.Some?
    ensures Acted(w, a).sts == None
            || Acted(w, a).sts == Some(Rewrite(Acted(w, a).past.sts0.value, Acted(w, a).spec.volumes))
  {
    PastFixed(w, a);
    BackupIsFirst(w);
    hide Safe, Rewrite, Moved, CanMove;
    match a
    case Env(m) => MoveQuieter(w, m);
    case Op(c) =>
      assert c.CreateSts? ==> w.backup.Some? && c.sts == Rewrite(w.backup.value, w.spec.volumes);
      GuardCan(w, c);
      hide Guard;
  }

  lemma BackupIsFirst(w: World)
    requires Safe(w)
    ensures w.backup.Some? ==> w.backup == w.past.sts0
  {
    hide FirstKept, TempsAside, MountsAside, ClaimsLabelled, PodsLabelled, TemplatesLabelled, PodShape;
    hide CursorOk, Truthful;
  }

  /** Cursor and status */

  // The list is the enumeration of all units, completed before the cursor and
  // pending after it.
  lemma CursorSplitsTheList(w0: World, log: seq<Action>, w: World, i: nat)
    requires Run(w0, log, w) && w.vr.Some?
    requires var st := w.vr.value.status; Cursor(st).Some? && i < |st.volumeStatuses|
    ensures w.past.sts0.Some?
    ensures var st := w.vr.value.status;
            && Keys(st.volumeStatuses) == Units(w.spec.volumes, Replicas(w.past.sts0.value))
            && IsTarget(w.spec.volumes, Cursor(st).value.volume)
            && (i < Rank(w.spec.volumes, Cursor(st).value) ==> st.volumeStatuses[i].phase == VCompleted)
            && (i > Rank(w.spec.volumes, Cursor(st).value) ==> st.volumeStatuses[i].phase == VPending)
  {
    SafeRun(w0, log, w);
    var st, volumes, replicas := w.vr.value.status, w.spec.volumes, Replicas(w.past.sts0.value);
    CursorFacts(w);
    assert Keys(st.volumeStatuses)[i] == Key(st.volumeStatuses[i]);
    RankOfElement(volumes, replicas, i);
    UnitsAreUnits(volumes, replicas, Units(volumes, replicas)[i]);
    BeforeIsRank(volumes, Key(st.volumeStatuses[i]), Cursor(st).value);
    BeforeIsRank(volumes, Cursor(st).value, Key(st.volumeStatuses[i]));
    hide Safe, Units, Rank, Before;
  }

  lemma CursorFacts(w: World)
    requires Safe(w) && w.vr.Some? && Cursor(w.vr.value.status).Some?
    ensures var st := w.vr.value.status;
            && SpecOk(w.spec) && w.past.sts0.Some?
            && Keys(st.volumeStatuses) == Units(w.spec.volumes, Replicas(w.past.sts0.value))
            && IsUnit(w.spec.volumes, Replicas(w.past.sts0.value), Cursor(st).value)
            && Ordered(w.spec.volumes, st.volumeStatuses, Cursor(st).value)
  {
    hide SpecOk, Recoverable, FirstKept, TempsAside, MountsAside, ClaimsLabelled, PodsLabelled;
    hide TemplatesLabelled, PodShape, Truthful, Ordered;
  }

  // Each action leaves the cursor where it is or moves it to the next unit; only
  // from the last unit does it end, in phase Completed.
  lemma CursorStepByStep(w0: World, log: seq<Action>, w: World, a: Action)
    requires Run(w0, log, w) && Allowed(w, a) && w.vr.Some? && Acted(w, a).vr.Some?
    requires Cursor(w.vr.value.status).Some?
    ensures w.past.sts0.Some?
    ensures var u, t := Cursor(w.vr.value.status).value, Acted(w, a).vr.value.status;
            match Cursor(t)
            case Some(n) => Rank(w.spec.volumes, u) <= Rank(w.spec.volumes, n) <= Rank(w.spec.volumes, u) + 1
            case None =>
              && t.phase == Completed
              && Rank(w.spec.volumes, u) + 1 == Replicas(w.past.sts0.value) * |w.spec.volumes|
  {
    SafeRun(w0, log, w);
    CursorFacts(w);
    StatusStaysOrSteps(w, a);
    SteppingPhase(w);
    hide Run, Safe, Allowed, Acted, Ordered, Units, Rank, Next, Finish, SameExceptAt, CompletedAt, IsUnit;
    hide DistinctNames;
    NextRank(w.spec.volumes, Replicas(w.past.sts0.value), Cursor(w.vr.value.status).value);
  }

  ghost function RankAt(w: World): nat
    requires w.vr.Some? && Cursor(w.vr.value.status).Some?
  {
    Rank(w.spec.volumes, Cursor(w.vr.value.status).value)
  }

  ghost predicate HasCursor(w: World) {
    w.vr.Some? && Cursor(w.vr.value.status).Some?
  }

  // One action of a run, seen from a point with a cursor.
  lemma CursorGoesOn(w0: World, log: seq<Action>, w: World, i: nat)
    requires Run(w0, log, w) && i < |log| && HasCursor(At(w0, log, i)) && At(w0, log, i + 1).vr.Some?
    ensures At(w0, log, i).past.sts0.Some?
    ensures var v, v' := At(w0, log, i), At(w0, log, i + 1);
            && v'.spec == v.spec && v'.past == v.past
            && if HasCursor(v') then RankAt(v) <= RankAt(v') <= RankAt(v) + 1
               else v'.vr.value.status.phase == Completed
                    && RankAt(v) + 1 == Replicas(v.past.sts0.value) * |v.spec.volumes|
  {
    RunAt(w0, log, w, i);
    StepAt(w0, log, w, i);
    hide Run, Allowed, Acted, Inv, Rank, Exec;
    PastFixed(At(w0, log, i), log[i]);
    CursorStepByStep(w0, log[..i], At(w0, log, i), log[i]);
  }

  // Between two points with a cursor there is always one, and its rank never falls.
  lemma {:induction false} CursorInOrder(w0: World, log: seq<Action>, w: World, i: nat, m: nat)
    requires Run(w0, log, w) && i <= m <= |log| && HasCursor(At(w0, log, i)) && HasCursor(w)
    ensures HasCursor(At(w0, log, m)) && RankAt(At(w0, log, i)) <= RankAt(At(w0, log, m))
    ensures At(w0, log, m).spec == At(w0, log, i).spec
    decreases m - i
  {
    if i < m {
      ResourceNotRevived(w0, log, w, i + 1);
      CursorGoesOn(w0, log, w, i);
      if !HasCursor(At(w0, log, i + 1)) {
        TerminalIsFinal(w0, log, w, i + 1);
      }
      hide Run, Rank;
      CursorInOrder(w0, log, w, i + 1, m);
    }
  }

  // A unit the cursor has left never comes back.
  lemma VisitedOnce(w0: World, log: seq<Action>, w: World, i: nat, m: nat)
    requires Run(w0, log, w) && i <= m <= |log| && HasCursor(At(w0, log, i)) && HasCursor(w)
    requires Cursor(At(w0, log, i).vr.value.status) == Cursor(w.vr.value.status)
    ensures HasCursor(At(w0, log, m))
    ensures Cursor(At(w0, log, m).vr.value.status) == Cursor(w.vr.value.status)
  {
    CursorInOrder(w0, log, w, i, m);
    CursorInOrder(w0, log, w, m, |log|);
    AtEnd(w0, log);
    RunAt(w0, log, w, m);
    SafeRun(w0, log[..m], At(w0, log, m));
    SafeRun(w0, log, w);
    CursorFacts(At(w0, log, m));
    CursorFacts(w);
    hide Run, Safe, Rank, Ordered, Units;
    RankInjective(w.spec.volumes, Cursor(At(w0, log, m).vr.value.status).value, Cursor(w.vr.value.status).value);
  }

  lemma AtEnd(w0: World, log: seq<Action>)
    ensures At(w0, log, |log|) == Exec(w0, log)
  {
    assert log[..|log|] == log;
  }

  // Unit k of the list has been reached.
  ghost predicate Reached(w: World, k: nat) {
    && w.vr.Some? && w.past.sts0.Some?
    && if HasCursor(w) then k <= RankAt(w)
       else w.vr.value.status.phase == Completed && k < Replicas(w.past.sts0.value) * |w.spec.volumes|
  }

  lemma {:induction false} RankReached(w0: World, log: seq<Action>, w: World, k: nat) returns (i: nat)
    requires Run(w0, log, w) && Reached(w, k)
    ensures i <= |log| && HasCursor(At(w0, log, i)) && RankAt(At(w0, log, i)) == k
    decreases |log|
  {
    AtEnd(w0, log);
    if HasCursor(w) && RankAt(w) == k {
      i := |log|;
    } else if log == [] {
      assert false;
    } else {
      var n := |log| - 1;
      var v := Exec(w0, log[..n]);
      ReachedBefore(w0, log, w, k);
      hide Rank, Allowed, Acted, Start;
      i := RankReached(w0, log[..n], v, k);
      AtBefore(w0, log, n, i);
    }
  }

  lemma ReachedBefore(w0: World, log: seq<Action>, w: World, k: nat)
    requires Run(w0, log, w) && log != [] && Reached(w, k) && !(HasCursor(w) && RankAt(w) == k)
    ensures Reached(Exec(w0, log[..|log| - 1]), k)
  {
    var n := |log| - 1;
    var v := Exec(w0, log[..n]);
    assert At(w0, log, n) == v;
    AtEnd(w0, log);
    StatusStaysOrSteps(v, log[n]);
    PastFixed(v, log[n]);
    if HasCursor(v) {
      CursorGoesOn(w0, log, w, n);
    } else {
      SafeRun(w0, log[..n], v);
      SafeRun(w0, log, w);
      hide Run, Allowed, Acted, Safe, Rank;
      NoCursorYet(v, w);
    }
  }

  // The first cursor is at the first unit.
  lemma NoCursorYet(v: World, w: World)
    requires Safe(v) && Safe(w) && v.vr.Some? && w.vr.Some? && !HasCursor(v) && w.spec == v.spec && w.past == v.past
    requires w.vr.value.status == v.vr.value.status || StatusStep(v, v.vr.value.status, w.vr.value.status)
    ensures HasCursor(w) ==> RankAt(w) == 0
    ensures !HasCursor(w) && w.vr.value.status.phase == Completed ==> v.vr.value.status.phase == Completed
  {
    var s, t := v.vr.value.status, w.vr.value.status;
    if s.phase == Validating && t != s && t.phase != Failed {
      assert Launch(v, t);
      assert DistinctNames(v.spec.volumes) && |v.spec.volumes| > 0;
      IndexOfAt(v.spec.volumes, 0);
    }
    hide Recoverable, FirstKept, TempsAside, MountsAside, ClaimsLabelled, PodsLabelled, TemplatesLabelled, PodShape;
    hide Truthful, Ordered, Units, Finish, Next, SameExceptAt, CompletedAt;
  }

  // A unit of rank k is the k-th of the list.
  lemma RankNamesUnit(w0: World, log: seq<Action>, w: World, k: nat)
    requires Run(w0, log, w) && HasCursor(w) && RankAt(w) == k
    ensures w.past.sts0.Some? && k < |Units(w.spec.volumes, Replicas(w.past.sts0.value))|
    ensures Cursor(w.vr.value.status) == Some(Units(w.spec.volumes, Replicas(w.past.sts0.value))[k])
  {
    SafeRun(w0, log, w);
    CursorFacts(w);
    var volumes, replicas, u := w.spec.volumes, Replicas(w.past.sts0.value), Cursor(w.vr.value.status).value;
    hide Run, Safe, Ordered, Rank, Units;
    RankBound(volumes, replicas, u);
    UnitsLength(volumes, replicas);
    RankOfElement(volumes, replicas, k);
    UnitsAreUnits(volumes, replicas, Units(volumes, replicas)[k]);
    RankInjective(volumes, u, Units(volumes, replicas)[k]);
  }

  // Every unit up to the cursor, and in phase Completed every unit, was at the cursor.
  lemma EveryUnitVisited(w0: World, log: seq<Action>, w: World, k: nat) returns (i: nat)
    requires Run(w0, log, w) && Reached(w, k)
    ensures i <= |log| && HasCursor(At(w0, log, i)) && w.past.sts0.Some?
    ensures k < |Units(w.spec.volumes, Replicas(w.past.sts0.value))|
    ensures Cursor(At(w0, log, i).vr.value.status) == Some(Units(w.spec.volumes, Replicas(w.past.sts0.value))[k])
  {
    i := RankReached(w0, log, w, k);
    RunAt(w0, log, w, i);
    RankNamesUnit(w0, log[..i], At(w0, log, i), k);
    RunFixed(w0, log, w);
    RunFixed(w0, log[..i], At(w0, log, i));
    hide Run, Rank, Units, Exec;
  }

  lemma {:induction false} RunFixed(w0: World, log: seq<Action>, w: World)
    requires Run(w0, log, w)
    ensures w.spec == w0.spec && w.past == w0.past
  {
    if log != [] {
      var n := |log| - 1;
      RunFixed(w0, log[..n], Exec(w0, log[..n]));
      PastFixed(Exec(w0, log[..n]), log[n]);
      hide Start, Allowed, Acted;
    }
  }

  lemma SteppingPhase(w: World)
    requires Safe(w) && w.vr.Some? && Cursor(w.vr.value.status).Some?
    ensures w.vr.value.status.phase == Syncing || w.vr.value.status.phase == Failed
    ensures w.past.sts0.Some?
    ensures Replicas(w.past.sts0.value) > 0 && |w.spec.volumes| > 0 && DistinctNames(w.spec.volumes)
  {
    hide Recoverable, FirstKept, TempsAside, MountsAside, ClaimsLabelled, PodsLabelled, TemplatesLabelled, PodShape;
    hide Truthful, Ordered;
  }

  // The gate lasts: whenever there is a cursor, its volume is a target, every
  // target is a template, and every target shrinks the first claim.
  lemma GateLasts(w0: World, log: seq<Action>, w: World)
    requires Run(w0, log, w) && w.vr.Some? && Cursor(w.vr.value.status).Some?
    ensures var u := Cursor(w.vr.value.status).value;
            IsTarget(w.spec.volumes, u.volume) && TargetOf(w.spec.volumes, u.volume).name == u.volume
    ensures TargetsOk(w.spec, w.past) && (w.past.rolledOut ==> Shrinks(w.spec, w.past))
  {
    SafeRun(w0, log, w);
    hide SpecOk, Recoverable, FirstKept, TempsAside, MountsAside, ClaimsLabelled, PodsLabelled;
    hide TemplatesLabelled, PodShape, Truthful, Ordered;
  }

  lemma ReplacingUnreachable(w0: World, log: seq<Action>, w: World)
    requires Run(w0, log, w) && w.vr.Some?
    ensures w.vr.value.status.phase != Replacing
  {
    SafeRun(w0, log, w);
    hide SpecOk, Recoverable, FirstKept, TempsAside, MountsAside, ClaimsLabelled, PodsLabelled;
    hide TemplatesLabelled, PodShape, Truthful, Ordered;
  }

  predicate Terminal(p: Phase) {
    p == Completed || p == Failed
  }

  // A stored status changes only by PutStatus, which a terminal phase forbids.
  lemma StatusStaysOrSteps(w: World, a: Action)
    requires Allowed(w, a) && Acted(w, a).vr.Some?
    ensures w.vr.Some?
    ensures || Acted(w, a).vr.value.status == w.vr.value.status
            || (a.Op? && a.call.PutStatus? && StatusStep(w, w.vr.value.status, Acted(w, a).vr.value.status))
  {
    hide CanMove, Guard, Moved, Called, StatusStep;
    match a
    case Env(m) => MoveKeepsStatus(w, m);
    case Op(c) => CallKeepsStatus(w, c);
  }

  lemma MoveKeepsStatus(w: World, m: Move)
    requires CanMove(w, m) && Moved(w, m).vr.Some?
    ensures w.vr.Some? && Moved(w, m).vr.value.status == w.vr.value.status
  {
    MoveQuieter(w, m);
    hide CanMove, Moved;
  }

  lemma CallKeepsStatus(w: World, c: Call)
    requires Guard(w, c) && Called(w, c).vr.Some?
    ensures w.vr.Some?
    ensures || Called(w, c).vr.value.status == w.vr.value.status
            || (c.PutStatus? && StatusStep(w, w.vr.value.status, Called(w, c).vr.value.status))
  {
    hide StatusStep, Active, Sound, Owned, Quiet;
  }

  lemma {:induction false} TerminalIsFinal(w0: World, log: seq<Action>, w: World, i: nat)
    requires Run(w0, log, w) && i <= |log| && w.vr.Some?
    requires At(w0, log, i).vr.Some? && Terminal(At(w0, log, i).vr.value.status.phase)
    ensures w.vr.value.status == At(w0, log, i).vr.value.status
    decreases |log| - i
  {
    if i == |log| {
      assert log[..i] == log;
    } else {
      StepAt(w0, log, w, i);
      ResourceNotRevived(w0, log, w, i + 1);
      StatusStaysOrSteps(At(w0, log, i), log[i]);
      hide Allowed, Acted, Inv, Run;
      TerminalIsFinal(w0, log, w, i + 1);
    }
  }

  // A resource that is gone does not come back.
  lemma {:induction false} ResourceNotRevived(w0: World, log: seq<Action>, w: World, i: nat)
    requires Run(w0, log, w) && i <= |log| && w.vr.Some?
    ensures At(w0, log, i).vr.Some?
    decreases |log| - i
  {
    if i == |log| {
      assert log[..i] == log;
    } else {
      ResourceNotRevived(w0, log, w, i + 1);
      StepAt(w0, log, w, i);
      StatusStaysOrSteps(At(w0, log, i), log[i]);
    }
  }

  /** Completed */

  lemma CompletionStays(w: World, a: Action, u: Unit)
    requires Safe(w) && Allowed(w, a) && Acted(w, a).vr.Some?
    requires w.vr.Some? && CompletedAt(w.vr.value.status.volumeStatuses, u)
    ensures CompletedAt(Acted(w, a).vr.value.status.volumeStatuses, u)
  {
    StatusStaysOrSteps(w, a);
    var s, t := w.vr.value.status, Acted(w, a).vr.value.status;
    if t != s {
      assert s.phase == Syncing by {
        hide FirstKept, TempsAside, MountsAside, ClaimsLabelled, PodsLabelled, TemplatesLabelled, PodShape;
        hide Truthful, Recoverable, Allowed, Acted, Listed;
      }
      hide Safe, Allowed, Acted, Finish, Next;
      var i :| 0 <= i < |s.volumeStatuses| && Key(s.volumeStatuses[i]) == u && s.volumeStatuses[i].phase == VCompleted;
      assert u != Cursor(s).value ==> t.volumeStatuses[i] == s.volumeStatuses[i];
    }
  }

  // Once recorded, a completed unit stays recorded and its record stays true.
  lemma {:induction false} CompletedStaysTrue(w0: World, log: seq<Action>, w: World, i: nat, u: Unit)
    requires Run(w0, log, w) && i <= |log| && w.vr.Some?
    requires At(w0, log, i).vr.Some? && CompletedAt(At(w0, log, i).vr.value.status.volumeStatuses, u)
    ensures CompletedAt(w.vr.value.status.volumeStatuses, u) && Truth(w, u)
    decreases |log| - i
  {
    if i == |log| {
      assert log[..i] == log;
      SafeRun(w0, log, w);
      RecordTrue(w, u);
    } else {
      StepAt(w0, log, w, i);
      ResourceNotRevived(w0, log, w, i + 1);
      hide Allowed, Acted, Inv, Run, CompletedAt, Safe;
      InvSafe(At(w0, log, i));
      CompletionStays(At(w0, log, i), log[i], u);
      CompletedStaysTrue(w0, log, w, i + 1, u);
    }
  }

  lemma InvSafe(w: World)
    requires Inv(w)
    ensures Safe(w)
  {
  }

  lemma RecordTrue(w: World, u: Unit)
    requires Safe(w) && w.vr.Some? && CompletedAt(w.vr.value.status.volumeStatuses, u)
    ensures Truth(w, u)
  {
    hide SpecOk, Recoverable, FirstKept, TempsAside, MountsAside, ClaimsLabelled, PodsLabelled;
    hide TemplatesLabelled, PodShape, CursorOk;
    var i :| 0 <= i < |w.vr.value.status.volumeStatuses| && Key(w.vr.value.status.volumeStatuses[i]) == u
             && w.vr.value.status.volumeStatuses[i].phase == VCompleted;
    assert TruthIn(w.spec, w.claims, w.pvs, Key(w.vr.value.status.volumeStatuses[i]));
  }

  // Phase Completed means every replica of every target is done, truthfully.
  lemma CompletedMeansAll(w0: World, log: seq<Action>, w: World, u: Unit)
    requires Run(w0, log, w) && w.vr.Some? && w.vr.value.status.phase == Completed
    ensures w.past.sts0.Some?
    ensures IsUnit(w.spec.volumes, Replicas(w.past.sts0.value), u) ==> Truth(w, u)
  {
    SafeRun(w0, log, w);
    var st := w.vr.value.status;
    assert Listed(w.spec, w.past, st.volumeStatuses) && AllCompleted(st.volumeStatuses);
    if IsUnit(w.spec.volumes, Replicas(w.past.sts0.value), u) {
      UnitsAreUnits(w.spec.volumes, Replicas(w.past.sts0.value), u);
      var i :| 0 <= i < |Keys(st.volumeStatuses)| && Keys(st.volumeStatuses)[i] == u;
      assert Key(st.volumeStatuses[i]) == u;
      RecordTrue(w, u);
    }
    hide Safe, Units;
  }

  /** Exclusion and deletion */

  // An unfinished migrator excludes the StatefulSet and the pod of its replica.
  lemma MutualExclusion(w0: World, log: seq<Action>, w: World, u: Unit)
    requires Run(w0, log, w) && w.book.h2 && w.book.h4
    requires Mig(u) in w.pods && !Finished(w.pods[Mig(u)])
    ensures w.sts == None && App(u.replica) !in w.pods
  {
    InvRun(w0, log, w);
    hide Safe, Placed, SoleTemp, Kept, MigsAtCursor;
  }

  // The deletion handler deletes temporary claims and migrators, nothing else.
  lemma SweepsOnlyItsOwn(w0: World, log: seq<Action>, w: World, i: nat)
    requires Run(w0, log, w) && i < |log| && log[i].Op?
    ensures log[i].call.SweepClaim? ==> log[i].call.key.Temp?
    ensures log[i].call.SweepPod? ==> log[i].call.pod.Mig?
  {
    StepAt(w0, log, w, i);
    var v, c := At(w0, log, i), log[i].call;
    InvSafe(v);
    hide Inv, SpecOk, Recoverable, FirstKept, TempsAside, MountsAside, TemplatesLabelled, PodShape, CursorOk;
    hide Truthful;
    assert Guard(v, c);
    if c.SweepClaim? {
      SweptIsTemp(v, c.key);
    }
  }
}
