/**
  What every run keeps, with no hypothesis on faults: the first volumes survive,
  the StatefulSet can be recovered, labels separate what the operator owns, the
  cursor and the status entries agree, and a Completed entry is true.
 */
module Safety {
  import opened Types
  import opened Enumeration
  import opened Rewriting
  import opened Protocol

  ghost predicate SpecOk(spec: Spec) {
    DistinctNames(spec.volumes) && |spec.volumes| > 0
  }

  // The StatefulSet exists or the backup holds its first snapshot; what lives
  // is that snapshot or its one rewrite.
  ghost predicate Recoverable(spec: Spec, past: Origin, sts: Option<Sts>, backup: Option<Sts>) {
    match past.sts0
    case None => sts == None && backup == None
    case Some(s) =>
      && Replicas(s) > 0
      && (backup == None || backup == Some(s))
      && (|| sts == Some(s)
          || (backup == Some(s) && (sts == None || sts == Some(Rewrite(s, spec.volumes)))))
  }

  // The first volume of each unit exists, is still held by the original name,
  // and is retained unless its claim is alive.
  ghost predicate FirstKept(past: Origin, claims: map<ClaimKey, Claim>, pvs: map<PvName, Pv>) {
    forall u :: u in past.first ==>
      && past.first[u] in pvs
      && pvs[past.first[u]].claimRef == Some(Orig(u))
      && (|| pvs[past.first[u]].policy == Retain
          || (&& Orig(u) in claims && !claims[Orig(u)].terminating && claims[Orig(u)].pv == Some(past.first[u])))
  }

  ghost predicate NotFirstOf(past: Origin, n: PvName) {
    forall u :: u in past.first ==> past.first[u] != n
  }

  // No temporary claim and no migrator's destination is a first volume.
  ghost predicate TempsAside(past: Origin, claims: map<ClaimKey, Claim>) {
    forall k :: k in claims && k.Temp? && claims[k].pv.Some? ==> NotFirstOf(past, claims[k].pv.value)
  }

  ghost predicate MountsAside(past: Origin, pods: map<PodKey, Pod>) {
    forall p, k :: p in pods && k in pods[p].mounts && k.Temp? ==> NotFirstOf(past, pods[p].mounts[k])
  }

  ghost predicate ClaimsLabelled(spec: Spec, claims: map<ClaimKey, Claim>) {
    forall k :: k in claims ==> (k.Temp? <==> Owned(spec, claims[k].labels))
  }

  ghost predicate PodsLabelled(spec: Spec, pods: map<PodKey, Pod>) {
    forall p :: p in pods ==> (p.Mig? <==> Owned(spec, pods[p].labels))
  }

  ghost predicate TemplatesLabelled(spec: Spec, s: Sts) {
    && !Owned(spec, s.podLabels)
    && forall t :: t in s.templates ==> !Owned(spec, t.labels)
  }

  // The shape of pods: an application pod claims originals of its replica, a
  // migrator exactly the two claims of its unit.
  ghost predicate PodShape(pods: map<PodKey, Pod>) {
    forall p :: p in pods ==>
      && pods[p].mounts.Keys <= pods[p].claims
      && match p
         case App(r) => forall k :: k in pods[p].claims ==> k.Orig? && k.unit.replica == r
         case Mig(u) => pods[p].claims == {Orig(u), Temp(u)}
  }

  ghost predicate Ordered(volumes: seq<Target>, statuses: seq<VolumeStatus>, u: Unit) {
    forall i :: 0 <= i < |statuses| ==>
      && (Before(volumes, Key(statuses[i]), u) ==> statuses[i].phase == VCompleted)
      && (Before(volumes, u, Key(statuses[i])) ==> statuses[i].phase == VPending)
  }

  ghost predicate AllCompleted(statuses: seq<VolumeStatus>) {
    forall i :: 0 <= i < |statuses| ==> statuses[i].phase == VCompleted
  }

  ghost predicate Listed(spec: Spec, past: Origin, statuses: seq<VolumeStatus>) {
    && past.sts0.Some? && Replicas(past.sts0.value) > 0
    && Keys(statuses) == Units(spec.volumes, Replicas(past.sts0.value))
    && TargetsOk(spec, past)
    && (past.rolledOut ==> Shrinks(spec, past))
  }

  ghost predicate CursorOk(spec: Spec, past: Origin, st: Status) {
    && st.phase != Replacing
    && (st.phase == PhaseEmpty || st.phase == Pending || st.phase == Validating ==>
          st.volumeStatuses == [] && Cursor(st) == None)
    && (st.phase == Syncing ==> Cursor(st).Some?)
    && (Cursor(st).Some? ==>
          && (st.phase == Syncing || st.phase == Failed)
          && Listed(spec, past, st.volumeStatuses)
          && IsUnit(spec.volumes, Replicas(past.sts0.value), Cursor(st).value)
          && Ordered(spec.volumes, st.volumeStatuses, Cursor(st).value))
    && (st.phase == Failed && Cursor(st) == None ==> st.volumeStatuses == [])
    && (st.phase == Completed ==> Listed(spec, past, st.volumeStatuses) && AllCompleted(st.volumeStatuses))
  }

  ghost predicate Truthful(spec: Spec, claims: map<ClaimKey, Claim>, pvs: map<PvName, Pv>, statuses: seq<VolumeStatus>) {
    forall i :: 0 <= i < |statuses| && statuses[i].phase == VCompleted ==> TruthIn(spec, claims, pvs, Key(statuses[i]))
  }

  ghost predicate Safe(w: World) {
    && SpecOk(w.spec) && Recoverable(w.spec, w.past, w.sts, w.backup)
    && FirstKept(w.past, w.claims, w.pvs) && TempsAside(w.past, w.claims) && MountsAside(w.past, w.pods)
    && w.pvs.Keys <= w.book.names
    && ClaimsLabelled(w.spec, w.claims) && PodsLabelled(w.spec, w.pods)
    && (w.past.sts0.Some? ==> TemplatesLabelled(w.spec, w.past.sts0.value))
    && PodShape(w.pods)
    && (w.vr.Some? ==>
          && CursorOk(w.spec, w.past, w.vr.value.status)
          && Truthful(w.spec, w.claims, w.pvs, w.vr.value.status.volumeStatuses))
  }

  ghost predicate TruthKept(w: World, w': World) {
    forall u :: TruthIn(w.spec, w.claims, w.pvs, u) ==> TruthIn(w'.spec, w'.claims, w'.pvs, u)
  }

  /** Moves of the environment */

  lemma SafeBindVolumes(w: World, k: ClaimKey, n: PvName, policy: Policy)
    requires Safe(w) && CanMove(w, Bind(k, n, policy))
    ensures var w' := Moved(w, Bind(k, n, policy));
            FirstKept(w'.past, w'.claims, w'.pvs) && TempsAside(w'.past, w'.claims) && TruthKept(w, w')
  {
    hide Recoverable, MountsAside, ClaimsLabelled, PodsLabelled, TemplatesLabelled, PodShape, CursorOk;
    assert w.claims[k].pv == None || k.Orig? ==> NotFirstOf(w.past, n) || k == Orig(k.unit);
  }

  lemma SafeBind(w: World, k: ClaimKey, n: PvName, policy: Policy)
    requires Safe(w) && CanMove(w, Bind(k, n, policy))
    ensures Safe(Moved(w, Bind(k, n, policy)))
  {
    SafeBindVolumes(w, k, n, policy);
    hide FirstKept, TempsAside, MountsAside, PodsLabelled, TemplatesLabelled, PodShape, CursorOk, Truthful;
  }

  lemma SafeClaimGone(w: World, k: ClaimKey)
    requires Safe(w) && CanMove(w, ClaimGone(k))
    ensures Safe(Moved(w, ClaimGone(k)))
  {
    hide SpecOk, Recoverable, MountsAside, PodsLabelled, TemplatesLabelled, PodShape, CursorOk;
  }

  lemma SafePodGone(w: World, p: PodKey)
    requires Safe(w) && CanMove(w, PodGone(p))
    ensures Safe(Moved(w, PodGone(p)))
  {
    hide SpecOk, Recoverable, FirstKept, TempsAside, ClaimsLabelled, TemplatesLabelled, CursorOk, Truthful;
  }

  lemma SafePodStart(w: World, p: PodKey)
    requires Safe(w) && CanMove(w, PodStart(p))
    ensures Safe(Moved(w, PodStart(p)))
  {
    hide SpecOk, Recoverable, FirstKept, ClaimsLabelled, TemplatesLabelled, CursorOk, Truthful;
  }

  lemma SafePodTurn(w: World, p: PodKey, phase: PodPhase)
    requires Safe(w) && CanMove(w, PodTurn(p, phase))
    ensures Safe(Moved(w, PodTurn(p, phase)))
  {
    hide SpecOk, Recoverable, FirstKept, TempsAside, ClaimsLabelled, TemplatesLabelled, CursorOk, Truthful;
  }

  lemma SafeStsPodClaims(w: World, r: nat)
    requires Safe(w) && CanMove(w, StsPod(r))
    ensures var w' := Moved(w, StsPod(r));
            FirstKept(w'.past, w'.claims, w'.pvs) && TempsAside(w'.past, w'.claims) && TruthKept(w, w')
  {
    hide Recoverable, ClaimsLabelled, TemplatesLabelled, MountsAside, PodsLabelled, PodShape, CursorOk;
  }

  lemma SafeStsPodLabels(w: World, r: nat)
    requires Safe(w) && CanMove(w, StsPod(r))
    ensures ClaimsLabelled(w.spec, Moved(w, StsPod(r)).claims) && !Owned(w.spec, w.sts.value.podLabels)
  {
    hide FirstKept, TempsAside, MountsAside, PodsLabelled, PodShape, CursorOk, Truthful;
    RewriteLabels(w.past.sts0.value, w.spec.volumes);
  }

  lemma RewriteLabels(s: Sts, volumes: seq<Target>)
    ensures forall t :: t in Rewrite(s, volumes).templates ==> exists t' :: t' in s.templates && t'.labels == t.labels
  {
    forall t | t in Rewrite(s, volumes).templates
      ensures exists t' :: t' in s.templates && t'.labels == t.labels
    {
      var i :| 0 <= i < |s.templates| && t == ResizeAll(s.templates[i], volumes);
      assert s.templates[i] in s.templates;
    }
  }

  lemma SafeStsPod(w: World, r: nat)
    requires Safe(w) && CanMove(w, StsPod(r))
    ensures Safe(Moved(w, StsPod(r)))
  {
    SafeStsPodClaims(w, r);
    SafeStsPodLabels(w, r);
    hide FirstKept, TempsAside, ClaimsLabelled, TemplatesLabelled, CursorOk, Truthful, Recoverable;
  }

  lemma SafeAppWrite(w: World, u: Unit, d: Data)
    requires Safe(w) && CanMove(w, AppWrite(u, d))
    ensures Safe(Moved(w, AppWrite(u, d)))
  {
    hide SpecOk, Recoverable, MountsAside, PodsLabelled, ClaimsLabelled, TemplatesLabelled, PodShape, CursorOk;
  }

  lemma SafeMigWrite(w: World, u: Unit, d: Data)
    requires Safe(w) && CanMove(w, MigWrite(u, d))
    ensures Safe(Moved(w, MigWrite(u, d)))
  {
    hide SpecOk, Recoverable, MountsAside, PodsLabelled, ClaimsLabelled, TemplatesLabelled, PodShape, CursorOk;
  }

  lemma SafeMigDone(w: World, u: Unit)
    requires Safe(w) && CanMove(w, MigDone(u))
    ensures Safe(Moved(w, MigDone(u)))
  {
    hide SpecOk, Recoverable, TempsAside, ClaimsLabelled, TemplatesLabelled, CursorOk;
  }

  lemma SafeUserDelete(w: World)
    requires Safe(w) && CanMove(w, UserDelete)
    ensures Safe(Moved(w, UserDelete))
  {
  }

  /** Calls of the operator */

  lemma SafePutMeta(w: World, c: Call)
    requires Safe(w) && c.PutMeta? && Guard(w, c)
    ensures Safe(Called(w, c))
  {
  }

  lemma OrderedInPlace(volumes: seq<Target>, a: seq<VolumeStatus>, b: seq<VolumeStatus>, u: Unit)
    requires Ordered(volumes, a, u) && SameExceptAt(a, b, u)
    ensures Ordered(volumes, b, u) && Keys(b) == Keys(a)
  {
    assert forall i :: 0 <= i < |a| ==> Keys(b)[i] == Keys(a)[i];
  }

  // Moving the cursor past a completed unit keeps the order.
  lemma OrderedAdvance(volumes: seq<Target>, replicas: nat, statuses: seq<VolumeStatus>, u: Unit)
    requires DistinctNames(volumes) && |volumes| > 0 && IsUnit(volumes, replicas, u)
    requires Keys(statuses) == Units(volumes, replicas)
    requires Ordered(volumes, statuses, u) && CompletedAt(statuses, u)
    ensures match Next(volumes, replicas - 1, u)
            case Some(n) => IsUnit(volumes, replicas, n) && Ordered(volumes, statuses, n)
            case None => AllCompleted(statuses)
  {
    NextIsSuccessor(volumes, replicas, u);
    forall i | 0 <= i < |statuses|
      ensures IsUnit(volumes, replicas, Key(statuses[i]))
      ensures Key(statuses[i]) == u ==> statuses[i].phase == VCompleted
    {
      assert Keys(statuses)[i] == Key(statuses[i]);
      UnitsAreUnits(volumes, replicas, Key(statuses[i]));
      if Key(statuses[i]) == u {
        var j :| 0 <= j < |statuses| && Key(statuses[j]) == u && statuses[j].phase == VCompleted;
        assert Keys(statuses)[j] == u;
        if i < j {
          UnitsDistinct(volumes, replicas, i, j);
        } else if j < i {
          UnitsDistinct(volumes, replicas, j, i);
        }
      }
    }
  }

  // The list built at validation is ordered for the first unit.
  lemma OrderedAtLaunch(volumes: seq<Target>, replicas: nat, statuses: seq<VolumeStatus>)
    requires DistinctNames(volumes) && |volumes| > 0 && replicas > 0
    requires forall i :: 0 <= i < |statuses| ==> statuses[i].phase == VPending
    ensures IsUnit(volumes, replicas, Unit(0, volumes[0].name))
    ensures Ordered(volumes, statuses, Unit(0, volumes[0].name))
  {
    IndexOfAt(volumes, 0);
  }

  lemma CursorStep(w: World, s: Status, t: Status)
    requires SpecOk(w.spec) && CursorOk(w.spec, w.past, s) && StatusStep(w, s, t)
    requires w.past.sts0.Some? ==> Replicas(w.past.sts0.value) > 0
    ensures CursorOk(w.spec, w.past, t)
  {
    hide Finish, Ordered, CompletedAt, AllCompleted, SameExceptAt, Next, Units, Shrinks, DistinctNames;
    if s.phase == Syncing {
      var u := Cursor(s).value;
      var volumes, replicas := w.spec.volumes, Replicas(w.past.sts0.value);
      OrderedInPlace(volumes, s.volumeStatuses, t.volumeStatuses, u);
      if CompletedAt(s.volumeStatuses, u) {
        OrderedAdvance(volumes, replicas, t.volumeStatuses, u);
      }
    } else if s.phase == Validating && t.phase == Syncing {
      assert Launch(w, t) && TargetsOk(w.spec, w.past);
      OrderedAtLaunch(w.spec.volumes, Replicas(w.past.sts0.value), t.volumeStatuses);
    }
  }

  lemma TruthfulStep(w: World, t: Status)
    requires Safe(w) && Guard(w, PutStatus(t))
    ensures Truthful(w.spec, w.claims, w.pvs, t.volumeStatuses)
  {
    hide SpecOk, Recoverable, FirstKept, TempsAside, MountsAside, ClaimsLabelled, PodsLabelled;
    hide TemplatesLabelled, PodShape;
    hide Listed, Ordered, AllCompleted, TargetsOk, Shrinks;
    var s := w.vr.value.status;
    forall i | 0 <= i < |t.volumeStatuses| && t.volumeStatuses[i].phase == VCompleted
      ensures Truth(w, Key(t.volumeStatuses[i]))
    {
      var e := t.volumeStatuses[i];
      assert s.phase == Syncing;
      if Key(e) == Cursor(s).value && !CompletedAt(s.volumeStatuses, Key(e)) {
        assert CompletedAt(t.volumeStatuses, Key(e));
        assert Truth(w, Key(e));
      } else if Key(e) == Cursor(s).value {
        var j :| 0 <= j < |s.volumeStatuses| && Key(s.volumeStatuses[j]) == Key(e) && s.volumeStatuses[j].phase == VCompleted;
        assert Truth(w, Key(e));
      } else {
        assert s.volumeStatuses[i] == e;
        assert Truth(w, Key(e));
      }
    }
  }

  lemma SafePutStatus(w: World, c: Call)
    requires Safe(w) && c.PutStatus? && Guard(w, c)
    ensures Safe(Called(w, c))
  {
    CursorStep(w, w.vr.value.status, c.status);
    TruthfulStep(w, c.status);
    hide SpecOk, Recoverable, FirstKept, TempsAside, MountsAside, ClaimsLabelled, PodsLabelled;
    hide TemplatesLabelled, PodShape;
    hide StatusStep, CursorOk, Truthful;
  }

  lemma SafeCreateClaim(w: World, c: Call)
    requires Safe(w) && c.CreateClaim? && Guard(w, c)
    ensures Safe(Called(w, c))
  {
    hide SpecOk, Recoverable, MountsAside, PodsLabelled, TemplatesLabelled, PodShape, CursorOk;
  }

  lemma SafeDeleteClaim(w: World, c: Call)
    requires Safe(w) && c.DeleteClaim? && Guard(w, c)
    ensures Safe(Called(w, c))
  {
    hide SpecOk, Recoverable, MountsAside, PodsLabelled, TemplatesLabelled, PodShape, CursorOk;
  }

  lemma SafeSweepClaim(w: World, c: Call)
    requires Safe(w) && c.SweepClaim? && Guard(w, c)
    ensures Safe(Called(w, c))
  {
    hide SpecOk, Recoverable, MountsAside, PodsLabelled, TemplatesLabelled, PodShape, CursorOk;
  }

  lemma SafePvCall(w: World, c: Call)
    requires Safe(w) && (c.RetainPv? || c.ReleasePv?) && Guard(w, c)
    ensures Safe(Called(w, c))
  {
    hide SpecOk, Recoverable, MountsAside, PodsLabelled, ClaimsLabelled, TemplatesLabelled, PodShape, CursorOk;
  }

  lemma SafeStsCall(w: World, c: Call)
    requires Safe(w) && (c.CreateBackup? || c.DeleteSts? || c.CreateSts?) && Guard(w, c)
    ensures Safe(Called(w, c))
  {
  }

  lemma SafeCreatePod(w: World, c: Call)
    requires Safe(w) && c.CreatePod? && Guard(w, c)
    ensures Safe(Called(w, c))
  {
    hide SpecOk, Recoverable, FirstKept, TempsAside, ClaimsLabelled, TemplatesLabelled, CursorOk, Truthful;
  }

  lemma SafeEndPod(w: World, c: Call)
    requires Safe(w) && (c.DeletePod? || c.SweepPod?) && Guard(w, c)
    ensures Safe(Called(w, c))
  {
    hide SpecOk, Recoverable, FirstKept, TempsAside, ClaimsLabelled, TemplatesLabelled, CursorOk, Truthful;
  }

  lemma SafeMark(w: World, c: Call)
    requires Safe(w) && (c.BeginPass? || c.FallThrough?) && Guard(w, c)
    ensures Safe(Called(w, c))
  {
  }

  /** Every run */

  lemma SafeStart(w: World)
    requires Start(w)
    ensures Safe(w)
  {
    hide Owned;
  }

  lemma SafeAction(w: World, a: Action)
    requires Safe(w) && Allowed(w, a)
    ensures Safe(Acted(w, a))
  {
    hide Safe, CanMove, Guard, Moved, Called;
    match a
    case Env(Bind(k, n, policy)) => SafeBind(w, k, n, policy);
    case Env(ClaimGone(k)) => SafeClaimGone(w, k);
    case Env(PodGone(p)) => SafePodGone(w, p);
    case Env(PodStart(p)) => SafePodStart(w, p);
    case Env(PodTurn(p, phase)) => SafePodTurn(w, p, phase);
    case Env(StsPod(r)) => SafeStsPod(w, r);
    case Env(AppWrite(u, d)) => SafeAppWrite(w, u, d);
    case Env(MigWrite(u, d)) => SafeMigWrite(w, u, d);
    case Env(MigDone(u)) => SafeMigDone(w, u);
    case Env(UserDelete) => SafeUserDelete(w);
    case Op(c) =>
      if c.PutMeta? { SafePutMeta(w, c); }
      else if c.PutStatus? { SafePutStatus(w, c); }
      else if c.CreateClaim? { SafeCreateClaim(w, c); }
      else if c.DeleteClaim? { SafeDeleteClaim(w, c); }
      else if c.SweepClaim? { SafeSweepClaim(w, c); }
      else if c.RetainPv? || c.ReleasePv? { SafePvCall(w, c); }
      else if c.CreateBackup? || c.DeleteSts? || c.CreateSts? { SafeStsCall(w, c); }
      else if c.CreatePod? { SafeCreatePod(w, c); }
      else if c.DeletePod? || c.SweepPod? { SafeEndPod(w, c); }
      else { SafeMark(w, c); }
  }

  lemma {:induction false} SafeRun(w0: World, log: seq<Action>, w: World)
    requires Run(w0, log, w)
    ensures Safe(w)
  {
    if log == [] {
      SafeStart(w);
    } else {
      var n := |log| - 1;
      SafeRun(w0, log[..n], Exec(w0, log[..n]));
      SafeAction(Exec(w0, log[..n]), log[n]);
    }
  }
}
