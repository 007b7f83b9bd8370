/**
  Bounded progress and recovery: how many fault-free passes bring a resource to
  its end, and what a pass makes of a unit that a crash left half done.
 */
module Recovery {
  import opened Types
  import opened Enumeration
  import opened Protocol
  import opened Safety
  import opened Placement
  import opened Custody
  import opened Stages
  import opened Marks
  import opened Rely
  import opened Theorems
  import opened Api
  import opened Work
  import opened Validation
  import opened Updates
  import opened Syncing
  import opened Handlers
  import opened Progress
  import opened Controller

  // A fresh resource on a rolled-out StatefulSet that meets the checks.
  lemma FreshIsGoing(w: World, pdbs: seq<Pdb>)
    requires Start(w) && w.past.rolledOut && Undeleted(w) && Gate(w, pdbs)
    ensures Going(w, pdbs) && Back(w) && Steps(w) <= 3 + 3 * Total(w)
    ensures Total(w) == Replicas(w.sts.value) * |w.spec.volumes|
  {
    hide HasTemplate, ShrinksFirst, BudgetsAllow, Owned;
  }

  lemma StepsBound(w: World)
    ensures Steps(w) <= 3 + 3 * Total(w)
  {
    hide Rank, CompletedAt, Alive;
  }

  // No steps are left only when the resource is completed.
  lemma NoStepsLeft(w: World, pdbs: seq<Pdb>)
    requires Safe(w) && Staging(w) && Going(w, pdbs) && Steps(w) == 0
    ensures w.vr.value.status.phase == Completed
  {
    var v := w.vr.value;
    GoingPhase(w, pdbs);
    if v.status.phase == Syncing {
      assert Holds(w, v) by { hide Safe, Pristine, Doubled, Gate, Steps; }
      CursorStored(w, v);
      StepsAt(w, v, Cursor(v.status).value);
    }
    hide Safe, Staging, Gate, Rank, CompletedAt, Alive, Going;
  }

  lemma GoingPhase(w: World, pdbs: seq<Pdb>)
    requires Safe(w) && Going(w, pdbs)
    ensures w.vr.value.status.phase != Failed && w.vr.value.status.phase != Replacing
    ensures !BeforeGate(w.vr.value.status) ==> w.vr.value.finalizer
  {
    hide Recoverable, FirstKept, TempsAside, MountsAside, ClaimsLabelled, PodsLabelled, TemplatesLabelled;
    hide PodShape, Truthful, Listed, Ordered, Gate;
  }

  // Three passes, and three for each unit, complete a resource that meets the
  // checks: all units done, the StatefulSet back.
  method RunToCompletion(c: Cluster, rounds: seq<Round>) returns (ghost fine: bool)
    requires c.Valid() && Going(c.w, c.pdbs) && |rounds| >= 3 + 3 * Total(c.w)
    modifies c
    ensures c.Valid()
    ensures fine ==> c.w.vr.Some? && c.w.vr.value.status.phase == Completed
    ensures fine && Back(old(c.w)) ==> c.w.sts.Some?
  {
    hide Run, Going, Steps, Staging, Inv, Safe, Total;
    StepsBound(c.w);
    fine := Operate(c, rounds);
    InvRun(c.start, c.log, c.w);
    SafeOf(c.w);
    StagingRun(c.start, c.log, c.w);
    if fine {
      NoStepsLeft(c.w, c.pdbs);
      GoingUndeleted(c.w, c.pdbs);
    }
  }

  lemma GoingUndeleted(w: World, pdbs: seq<Pdb>)
    requires Going(w, pdbs)
    ensures w.vr.Some?
  {
  }

  // Three steps on, the unit that was at the cursor is recorded as completed.
  lemma ThreeStepsOn(w: World, w': World, u: Unit, pdbs: seq<Pdb>)
    requires Safe(w) && Safe(w') && Staging(w') && w'.spec == w.spec && w'.past == w.past
    requires InPhase(w, Syncing) && !w.book.swept && Cursor(w.vr.value.status) == Some(u)
    requires Going(w', pdbs) && (Steps(w') + 3 <= Steps(w) || Steps(w') == 0)
    ensures CompletedAt(w'.vr.value.status.volumeStatuses, u)
  {
    var v := w.vr.value;
    StepsHere(w, v, u);
    hide Safe, Staging, Going, Gate, Steps, Rank, CompletedAt, AtUnit, Units, IsUnit, Total;
    if Steps(w') == 0 {
      NoStepsLeft(w', pdbs);
      AllRecorded(w', u);
    } else {
      StillSyncing(w', pdbs);
      FurtherOn(w', u, pdbs);
    }
  }

  lemma StepsHere(w: World, v: Vr, u: Unit)
    requires Safe(w) && InPhase(w, Syncing) && !w.book.swept && w.vr == Some(v) && Cursor(v.status) == Some(u)
    ensures Steps(w) <= 3 * Total(w) - 3 * Rank(w.spec.volumes, u)
    ensures w.past.sts0.Some? && IsUnit(w.spec.volumes, Replicas(w.past.sts0.value), u)
    ensures u in Units(w.spec.volumes, Replicas(w.past.sts0.value))
  {
    assert AtUnit(w, v, u) by { hide Safe; }
    UnitFacts(w, v, u);
    StepsAt(w, v, u);
    UnitsAreUnits(w.spec.volumes, Replicas(w.past.sts0.value), u);
    hide Safe, Steps, Rank, Units, IsUnit, Total, CompletedAt;
  }

  lemma FurtherOn(w: World, u: Unit, pdbs: seq<Pdb>)
    requires Safe(w) && Staging(w) && Going(w, pdbs) && InPhase(w, Syncing) && Cursor(w.vr.value.status).Some?
    requires w.past.sts0.Some? && IsUnit(w.spec.volumes, Replicas(w.past.sts0.value), u)
    requires Steps(w) + 3 <= 3 * Total(w) - 3 * Rank(w.spec.volumes, u)
    ensures CompletedAt(w.vr.value.status.volumeStatuses, u)
  {
    var v := w.vr.value;
    var u' := Cursor(v.status).value;
    NotSwept(w, pdbs);
    assert AtUnit(w, v, u') by { hide Safe, Staging, Going; }
    StepsAt(w, v, u');
    hide Safe, Staging, Going, Steps, Rank, CompletedAt, IsUnit, Total, AtUnit, Alive;
    BehindCursor(w, v, u, u');
  }

  lemma AllRecorded(w: World, u: Unit)
    requires Safe(w) && w.vr.Some? && w.vr.value.status.phase == Completed && w.past.sts0.Some?
    requires u in Units(w.spec.volumes, Replicas(w.past.sts0.value))
    ensures CompletedAt(w.vr.value.status.volumeStatuses, u)
  {
    var st := w.vr.value.status;
    assert Listed(w.spec, w.past, st.volumeStatuses) && AllCompleted(st.volumeStatuses);
    var i :| 0 <= i < |Keys(st.volumeStatuses)| && Keys(st.volumeStatuses)[i] == u;
    assert Key(st.volumeStatuses[i]) == u;
  }

  lemma StillSyncing(w: World, pdbs: seq<Pdb>)
    requires Going(w, pdbs) && 0 < Steps(w) <= 3 * Total(w)
    ensures InPhase(w, Syncing) && Cursor(w.vr.value.status).Some?
  {
    hide Gate, Rank, CompletedAt, Alive;
  }

  // Entries behind the cursor are completed.
  lemma BehindCursor(w: World, v: Vr, u: Unit, u': Unit)
    requires Safe(w) && AtUnit(w, v, u') && w.past.sts0.Some?
    requires IsUnit(w.spec.volumes, Replicas(w.past.sts0.value), u)
    requires Rank(w.spec.volumes, u) < Rank(w.spec.volumes, u')
    ensures CompletedAt(v.status.volumeStatuses, u)
  {
    UnitFacts(w, v, u');
    BeforeIsRank(w.spec.volumes, u, u');
    UnitsAreUnits(w.spec.volumes, Replicas(w.past.sts0.value), u);
    OrderedAtCursor(w, v, u');
    hide Safe, Rank, Before, Units;
    var vs := v.status.volumeStatuses;
    var i :| 0 <= i < |Keys(vs)| && Keys(vs)[i] == u;
    assert Key(vs[i]) == u;
  }

  lemma OrderedAtCursor(w: World, v: Vr, u: Unit)
    requires Safe(w) && AtUnit(w, v, u)
    ensures Ordered(w.spec.volumes, v.status.volumeStatuses, u)
  {
    hide Recoverable, FirstKept, TempsAside, MountsAside, ClaimsLabelled, PodsLabelled, TemplatesLabelled;
    hide PodShape, Truthful, Ordered;
  }

  // After a crash anywhere, three clean passes complete the unit at the cursor
  // if its original claim is there, with the latest data behind it.
  method RecoverUnit(c: Cluster, rounds: seq<Round>, ghost u: Unit) returns (ghost fine: bool)
    requires c.Valid() && Going(c.w, c.pdbs) && |rounds| >= 3
    requires InPhase(c.w, Syncing) && Cursor(c.w.vr.value.status) == Some(u)
    modifies c
    ensures c.Valid()
    ensures fine ==> c.w.vr.Some? && CompletedAt(c.w.vr.value.status.volumeStatuses, u) && Truth(c.w, u)
    ensures fine ==> u in c.w.book.latest && HoldsData(c.w, Orig(u), c.w.book.latest[u])
  {
    hide Run, Going, Steps, Staging, Inv, Safe, Total, CompletedAt, Truth, HoldsData, Sound;
    ghost var w0 := c.w;
    InvRun(c.start, c.log, w0);
    SafeOf(w0);
    StagingRun(c.start, c.log, w0);
    NotSwept(w0, c.pdbs);
    fine := Operate(c, rounds);
    InvRun(c.start, c.log, c.w);
    SafeOf(c.w);
    StagingRun(c.start, c.log, c.w);
    if fine {
      ThreeStepsOn(w0, c.w, u, c.pdbs);
      GoingUndeleted(c.w, c.pdbs);
      RecordTrue(c.w, u);
      GoingSound(c.w, c.pdbs);
      DataBehind(c.w, u);
    }
  }

  ghost predicate HoldsData(w: World, k: ClaimKey, d: Data) {
    && k in w.claims && w.claims[k].pv.Some?
    && w.claims[k].pv.value in w.pvs && w.pvs[w.claims[k].pv.value].data == d
  }

  lemma GoingSound(w: World, pdbs: seq<Pdb>)
    requires Going(w, pdbs)
    ensures Sound(w)
  {
    hide Gate, Consistent;
  }

  lemma NotSwept(w: World, pdbs: seq<Pdb>)
    requires Staging(w) && Going(w, pdbs)
    ensures !w.book.swept && w.vr.Some?
  {
    hide Pristine, Doubled, Gate;
  }

  lemma DataBehind(w: World, u: Unit)
    requires Inv(w) && Sound(w) && Truth(w, u) && w.vr.Some? && CompletedAt(w.vr.value.status.volumeStatuses, u)
    ensures u in w.book.latest && HoldsData(w, Orig(u), w.book.latest[u])
  {
    hide Safe, SoleTemp, Excluded, Crewed, MigAt, HomeRetained, HomeInjective, HomeRef, TempRef, Full;
    hide GapQuiet, GapAtCursor, Backed, Sized, CompletedAt;
  }

  // A Syncing resource at a unit that is not recorded, wherever a crash left it, is
  // in one of two cases: the original claim is there, or it is missing.
  lemma CursorCases(w0: World, log: seq<Action>, w: World, u: Unit, pdbs: seq<Pdb>)
    requires Run(w0, log, w) && Sound(w) && Undeleted(w)
    requires Unrecorded(w.vr.value.status) && Cursor(w.vr.value.status) == Some(u)
    ensures InPhase(w, Syncing) && u in w.past.first
    ensures if Alive(w, Orig(u)) then Going(w, pdbs) else Absent(w, u) && Lacking(w, u)
  {
    InvRun(w0, log, w);
    StagingRun(w0, log, w);
    MarksRun(w0, log, w);
    assert Active(w, u) by { hide Inv, Run, Sound, Consistent, Pristine, Doubled, Passed, CompletedAt; }
    UnitKnown(w, u);
    hide Run, Inv, Staging, Noted, Passed, Sound, Consistent, Gate, CompletedAt;
  }

  // A missing original claim means no StatefulSet, so the annotation is right.
  lemma LackingConsistent(w: World, u: Unit)
    requires Inv(w) && Sound(w) && Lacking(w, u) && u in w.past.first
    ensures Consistent(w)
  {
    hide Safe, SoleTemp, Excluded, Kept, Full, Known, GapAtCursor, Backed, Sized, CompletedAt;
  }

  lemma LackingApart(w: World, w': World, u: Unit)
    requires SameButBare(w, w')
    ensures (Lacking(w, u) ==> Lacking(w', u)) && (Stuck(w) ==> Stuck(w'))
    ensures InPhase(w, Failed) ==> InPhase(w', Failed)
    ensures AllHeld(w.claims, w.pvs) ==> AllHeld(w'.claims, w'.pvs)
    ensures (Undeleted(w) ==> Undeleted(w')) && (Sound(w) <==> Sound(w')) && w'.past == w.past && RetainedKept(w, w')
  {
    hide CompletedAt, AllHeld, Sound;
    assert Sound(w) <==> Sound(w') by { BareFixed(w, w'); }
  }

  lemma LeftLacking(w: World, u: Unit)
    requires Noted(w) && LeftMissing(w, u)
    ensures InPhase(w, Failed) || Lacking(w, u)
  {
    hide CompletedAt, Unrecorded;
  }

  // One round: whatever fails, no Retain policy is taken back. A clean round, with
  // the resource not deleted, ends Failed if the claim was gone before it; if every
  // original claim held its volume, and no migrator pod was left without its temporary
  // claim, it ends Failed or still without the claim.
  method AbandonRound(c: Cluster, round: Round, ghost u: Unit) returns (ghost clean: bool, ghost fine: bool)
    requires c.Valid() && u in c.w.past.first
    modifies c
    ensures c.Valid() && c.w.past == old(c.w).past && RetainedKept(old(c.w), c.w)
    ensures clean && InPhase(old(c.w), Failed) ==> InPhase(c.w, Failed)
    ensures clean && Stuck(old(c.w)) ==> InPhase(c.w, Failed)
    ensures fine ==> clean
    ensures fine && Sound(old(c.w)) && Lacking(old(c.w), u) ==>
              InPhase(c.w, Failed) || (Lacking(c.w, u) && Sound(c.w))
  {
    hide Run, Inv, Relied, Began, Called, SameButBare, Lacking, InPhase, Stuck, Sound, AllHeld, LeftMissing;
    hide Nearer, Going, Noted, Passed, HasFailed, Held, Consistent, OnlyAdvanced;
    ghost var w0 := c.w;
    c.Settle(round.between);
    ghost var w1 := c.w;
    LackingRelied(w0, w1);
    ReliedRetained(w0, w1);
    if Stuck(w0) {
      StuckRelied(w0, w1);
    }
    SoundFollows(w0, w1);
    InvRun(c.start, c.log, w1);
    c.Begin(round.ticks);
    ghost var w2 := c.w;
    LackingApart(w1, w2, u);
    var r := Reconcile(c);
    clean := c.smooth && Undeleted(w1) && Undeleted(c.w);
    fine := clean && AllHeld(w1.claims, w1.pvs) && TempClear(w1, u);
    RetainedTransitive(w0, w1, w2);
    RetainedTransitive(w0, w2, c.w);
    MarksRun(c.start, c.log, c.w);
    FailedPhase(c.w);
    if fine && Sound(w1) && Lacking(w1, u) {
      LackingKept(w1, w2, c.w, u);
    }
  }

  lemma SoundFollows(w: World, w': World)
    requires Relied(w, w')
    ensures (Sound(w) <==> Sound(w')) && w'.past == w.past
  {
    hide KeepsPods, KeepsClaims, KeepsCopies;
  }

  lemma RetainedTransitive(w: World, w': World, w'': World)
    requires RetainedKept(w, w') && RetainedKept(w', w'')
    ensures RetainedKept(w, w'')
  {
    hide Retained;
  }

  lemma FailedPhase(w: World)
    requires Noted(w)
    ensures HasFailed(w) ==> InPhase(w, Failed)
  {
    hide Unrecorded;
  }

  lemma LackingKept(w: World, w': World, w'': World, u: Unit)
    requires Inv(w) && Sound(w) && Lacking(w, u) && u in w.past.first && AllHeld(w.claims, w.pvs)
    requires TempClear(w, u) && SameButBare(w, w') && w''.past == w'.past && Noted(w'')
    requires Consistent(w') && Held(w') && TempsClear(w') ==> SameFlags(w', w'')
    requires Sound(w'') && Lacking(w', u) ==> LeftMissing(w'', u)
    ensures InPhase(w'', Failed) || (Lacking(w'', u) && Sound(w''))
  {
    LackingConsistent(w, u);
    LackingApart(w, w', u);
    assert Held(w') && Consistent(w') by { hide AllHeld, Lacking, Inv; }
    assert TempsClear(w') by { hide AllHeld, Inv, Sound, CompletedAt, MissingIf; }
    hide Inv, Sound, Lacking, InPhase, AllHeld, Held, Consistent, Noted, LeftMissing, SameFlags, SameButBare;
    SoundAgain(w', w'');
    if LeftMissing(w'', u) {
      LeftLacking(w'', u);
    }
  }

  // Passes over a unit whose original claim is missing: whatever fails, its first
  // volume and the copy's volume stay, retained. Clean passes end Failed once the
  // claim is gone; until then, under the conditions of each round, they end Failed or
  // where they began.
  method AbandonUnit(c: Cluster, rounds: seq<Round>, ghost u: Unit) returns (ghost clean: bool, ghost fine: bool)
    requires c.Valid() && u in c.w.past.first && Absent(c.w, u)
    requires InPhase(c.w, Syncing) && Cursor(c.w.vr.value.status) == Some(u)
    requires !CompletedAt(c.w.vr.value.status.volumeStatuses, u)
    modifies c
    ensures c.Valid()
    ensures Retained(c.w, old(c.w).past.first[u])
    ensures u in old(c.w).book.staged && Retained(c.w, old(c.w).book.staged[u])
    ensures old(c.w).book.staged[u] != old(c.w).past.first[u]
    ensures fine && Sound(old(c.w)) ==> InPhase(c.w, Failed) || (Lacking(c.w, u) && Sound(c.w))
    ensures clean && NameFree(old(c.w), u) && rounds != [] ==> InPhase(c.w, Failed)
  {
    hide Run, Retained, Sound, NameFree, CompletedAt, Absent, MissingIf;
    ghost var w0 := c.w;
    BothVolumesKept(c.start, c.log, w0, u);
    NowLacking(w0, u);
    clean, fine := true, true;
    RetainedSame(w0);
    hide Lacking, InPhase, Stuck;
    for i := 0 to |rounds|
      invariant c.Valid() && c.w.past == w0.past && RetainedKept(w0, c.w)
      invariant i == 0 ==> c.w == w0
      invariant fine && Sound(w0) ==> InPhase(c.w, Failed) || (Lacking(c.w, u) && Sound(c.w))
      invariant clean && Stuck(w0) && i > 0 ==> InPhase(c.w, Failed)
      invariant fine ==> clean
    {
      ghost var w1 := c.w;
      ghost var clear, good := AbandonRound(c, rounds[i], u);
      clean, fine := clean && clear, fine && good;
      RetainedTransitive(w0, w1, c.w);
    }
    KeptThrough(w0, c.w, u);
  }

  lemma RetainedSame(w: World)
    ensures RetainedKept(w, w)
  {
  }

  lemma KeptThrough(w: World, w': World, u: Unit)
    requires RetainedKept(w, w') && u in w.past.first && u in w.book.staged
    requires Retained(w, w.past.first[u]) && Retained(w, w.book.staged[u])
    ensures Retained(w', w.past.first[u]) && Retained(w', w.book.staged[u])
  {
    hide Retained;
  }

  lemma NowLacking(w: World, u: Unit)
    requires InPhase(w, Syncing) && Cursor(w.vr.value.status) == Some(u) && Absent(w, u)
    requires !CompletedAt(w.vr.value.status.volumeStatuses, u)
    ensures Lacking(w, u) && (NameFree(w, u) ==> Stuck(w))
  {
    hide CompletedAt, Absent, NameFree;
  }

  // A pass that finds the last unit recorded completes the resource without a
  // look at the StatefulSet: it is there afterwards exactly if it was before.
  method FinishRecorded(c: Cluster, ticks: seq<Tick>, ghost u: Unit) returns (r: Result)
    requires c.Valid() && Undeleted(c.w) && AtCompleted(c.w) && Cursor(c.w.vr.value.status) == Some(u)
    requires c.w.past.sts0.Some? && Replicas(c.w.past.sts0.value) > 0 && |c.w.spec.volumes| > 0
    requires Next(c.w.spec.volumes, Replicas(c.w.past.sts0.value) - 1, u) == None
    modifies c
    ensures c.Valid()
    ensures c.smooth ==> c.w.vr.Some? && c.w.vr.value.status.phase == Completed
    ensures c.smooth ==> (c.w.sts.Some? <==> old(c.w).sts.Some?)
  {
    hide Run, Going, Nearer, Stuck, Next, CompletedAt, Lacking, LeftMissing, InPhase, Called, Sound;
    c.Begin(ticks);
    r := Reconcile(c);
  }
}
