/**
  What the resource says about the StatefulSet, in every run: when its annotation
  can be trusted, and what a unit means that a pass found recorded as completed
  while there was no StatefulSet.
 */
module Marks {
  import opened Types
  import opened Enumeration
  import opened Rewriting
  import opened Protocol
  import opened Safety
  import opened Rely
  import opened Stages

  // A unit is at the cursor, to be migrated.
  ghost predicate Unrecorded(st: Status) {
    st.phase == Syncing && Cursor(st).Some? && !CompletedAt(st.volumeStatuses, Cursor(st).value)
  }

  // Before the gate there is no annotation, after it there is a finalizer; under
  // h4 the annotation is right wherever it is read.
  ghost predicate Noted(w: World) {
    w.vr.Some? ==>
      var v := w.vr.value;
      && (if BeforeGate(v.status) then !v.stsDeleted else v.finalizer)
      && (w.book.h4 && Unrecorded(v.status) ==> Consistent(w))
  }

  // A bare unit is recorded, has no StatefulSet while it is at the cursor, and
  // decides, if it is the last one, whether there is one in the end.
  ghost predicate Passed(w: World) {
    w.vr.Some? ==>
      var st := w.vr.value.status;
      && (forall u :: u in w.book.bare ==> CompletedAt(st.volumeStatuses, u))
      && (st.phase == Syncing && Cursor(st).Some? && Cursor(st).value in w.book.bare ==> w.sts == None)
      && (st.phase == Completed && w.past.sts0.Some? && Replicas(w.past.sts0.value) > 0 && |w.spec.volumes| > 0 ==>
            (w.sts.Some? <==> LastUnit(w.spec.volumes, Replicas(w.past.sts0.value)) !in w.book.bare))
  }

  // No migrator pod of a unit before the cursor reached it.
  ghost predicate Behind(w: World) {
    w.vr.Some? ==>
      var st := w.vr.value.status;
      && (BeforeGate(st) ==> forall u :: NoMig(w, u))
      && (st.phase == Syncing && Cursor(st).Some? ==>
            forall u :: NoMig(w, u) || u == Cursor(st).value || Before(w.spec.volumes, u, Cursor(st).value))
  }

  lemma BehindMove(w: World, m: Move)
    requires Behind(w) && CanMove(w, m)
    ensures Behind(Moved(w, m))
  {
    MoveQuieter(w, m);
    MoveKeepsPods(w, m);
    hide CanMove, Moved, NoMig, Before;
  }

  lemma BehindStatus(w: World, t: Status)
    requires Safe(w) && Behind(w) && Guard(w, PutStatus(t))
    ensures Behind(Called(w, PutStatus(t)))
  {
    var s, volumes := w.vr.value.status, w.spec.volumes;
    StepParts(w);
    EarlyEmpty(w, s);
    StatusShape(w, s, t);
    if s.phase == Syncing && Cursor(t) != Cursor(s) {
      CursorUnit(w, s);
      NextCursor(w, s, t);
    }
    hide Safe, StatusStep, CursorOk, SpecOk, CompletedAt, Before, Next, NoMig;
    StatusPods(w, t);
  }

  lemma StatusPods(w: World, t: Status)
    requires CanCall(w, PutStatus(t))
    ensures forall u :: NoMig(w, u) ==> NoMig(Called(w, PutStatus(t)), u)
  {
    hide Consistent, CursorMoves;
  }

  lemma CursorUnit(w: World, s: Status)
    requires SpecOk(w.spec) && CursorOk(w.spec, w.past, s) && s.phase == Syncing
    ensures w.past.sts0.Some? && |w.spec.volumes| > 0 && DistinctNames(w.spec.volumes) && Cursor(s).Some?
    ensures IsUnit(w.spec.volumes, Replicas(w.past.sts0.value), Cursor(s).value)
  {
    hide Ordered, AllCompleted, Units;
  }

  lemma NextCursor(w: World, s: Status, t: Status)
    requires StatusStep(w, s, t) && s.phase == Syncing && Cursor(s).Some? && Cursor(t) != Cursor(s)
    requires w.past.sts0.Some? && DistinctNames(w.spec.volumes)
    requires IsUnit(w.spec.volumes, Replicas(w.past.sts0.value), Cursor(s).value)
    ensures w.past.sts0.Some? && Replicas(w.past.sts0.value) > 0 && |w.spec.volumes| > 0
    ensures Cursor(t) == Next(w.spec.volumes, Replicas(w.past.sts0.value) - 1, Cursor(s).value)
    ensures forall u :: Cursor(t).Some? && (u == Cursor(s).value || Before(w.spec.volumes, u, Cursor(s).value)) ==>
              Before(w.spec.volumes, u, Cursor(t).value)
  {
    hide SameExceptAt, Finish, CompletedAt, Units, Next;
    NextAfter(w.spec.volumes, Replicas(w.past.sts0.value), Cursor(s).value);
  }

  // A migrator is created for the unit at the cursor.
  lemma BehindCall(w: World, c: Call)
    requires Behind(w) && Guard(w, c) && !c.PutStatus?
    ensures Behind(Called(w, c))
  {
    hide Sound, Staged, Owned, Retained, Quiet, HomeHeld, CompletedAt, Rewrite, TargetOf, IsTarget, AllHeld, Before;
    var w' := Called(w, c);
    forall u | NoMig(w, u)
      ensures NoMig(w', u) || (c.CreatePod? && u == c.unit && Active(w, u))
    {
    }
    hide NoMig, Called;
  }

  // The unit the cursor goes to next has no migrator pod yet.
  lemma NextUnmanned(w: World, u: Unit)
    requires Safe(w) && Behind(w) && w.vr.Some? && w.vr.value.status.phase == Syncing
    requires Cursor(w.vr.value.status) == Some(u)
    requires w.past.sts0.Some? && Replicas(w.past.sts0.value) > 0 && |w.spec.volumes| > 0
    ensures var n := Next(w.spec.volumes, Replicas(w.past.sts0.value) - 1, u); n.Some? ==> NoMig(w, n.value)
  {
    StepParts(w);
    CursorUnit(w, w.vr.value.status);
    NextAfter(w.spec.volumes, Replicas(w.past.sts0.value), u);
    hide Safe, SpecOk, CursorOk, Next, NoMig;
  }

  lemma MarksMove(w: World, m: Move)
    requires Noted(w) && Passed(w) && CanMove(w, m)
    ensures Noted(Moved(w, m)) && Passed(Moved(w, m))
  {
    MoveQuieter(w, m);
    hide CanMove, Moved, CompletedAt;
  }

  // A recorded entry stays recorded.
  lemma RecordStays(w: World, s: Status, t: Status, u: Unit)
    requires StatusStep(w, s, t) && CompletedAt(s.volumeStatuses, u)
    requires s.phase != Syncing ==> s.volumeStatuses == []
    ensures CompletedAt(t.volumeStatuses, u)
  {
    hide Finish, Next, Launch;
    var i :| 0 <= i < |s.volumeStatuses| && Key(s.volumeStatuses[i]) == u && s.volumeStatuses[i].phase == VCompleted;
    assert u != Cursor(s).value ==> t.volumeStatuses[i] == s.volumeStatuses[i];
  }

  // The unit the cursor moves to is not recorded.
  lemma NextUnrecorded(w: World, s: Status, u: Unit, n: Unit)
    requires SpecOk(w.spec) && CursorOk(w.spec, w.past, s) && s.phase == Syncing && Cursor(s) == Some(u)
    requires w.past.sts0.Some? && Replicas(w.past.sts0.value) > 0
    requires Next(w.spec.volumes, Replicas(w.past.sts0.value) - 1, u) == Some(n)
    ensures !CompletedAt(s.volumeStatuses, n) && n != u
  {
    hide Units, Next, Before, TargetsOk, Shrinks, AllCompleted, DistinctNames;
    NextIsSuccessor(w.spec.volumes, Replicas(w.past.sts0.value), u);
    assert Before(w.spec.volumes, u, n) by { NextAfter(w.spec.volumes, Replicas(w.past.sts0.value), u); }
  }

  lemma NextAfter(volumes: seq<Target>, replicas: nat, u: Unit)
    requires DistinctNames(volumes) && |volumes| > 0 && IsUnit(volumes, replicas, u)
    ensures var n := Next(volumes, replicas - 1, u); n.Some? ==> n.value != u && Before(volumes, u, n.value)
  {
    NextIsSuccessor(volumes, replicas, u);
    NextRank(volumes, replicas, u);
    var n := Next(volumes, replicas - 1, u);
    if n.Some? {
      BeforeIsRank(volumes, u, n.value);
    }
    hide Next, Rank, Before;
  }

  lemma StepParts(w: World)
    requires Safe(w) && w.vr.Some?
    ensures SpecOk(w.spec) && CursorOk(w.spec, w.past, w.vr.value.status)
    ensures w.past.sts0.Some? ==> Replicas(w.past.sts0.value) > 0
  {
    hide SpecOk, CursorOk, FirstKept, TempsAside, MountsAside, ClaimsLabelled, PodsLabelled, TemplatesLabelled;
    hide PodShape, Truthful;
  }

  lemma NotedStatus(w: World, t: Status)
    requires Safe(w) && Noted(w) && Guard(w, PutStatus(t))
    ensures Noted(Called(w, PutStatus(t)))
  {
    var s := w.vr.value.status;
    StepParts(w);
    if s.phase == Validating && t.phase == Syncing {
      LaunchCursor(w, t);
    }
    if s.phase == Syncing && CompletedAt(s.volumeStatuses, Cursor(s).value) {
      RecordStays(w, s, t, Cursor(s).value);
    }
    hide Safe, Finish, SameExceptAt, Next, Launch, CompletedAt, Listed, Ordered, AllCompleted;
  }

  lemma LaunchCursor(w: World, t: Status)
    requires Launch(w, t)
    ensures t.phase == Syncing && Cursor(t).Some?
  {
  }

  // Only a Syncing resource has entries that change.
  lemma EarlyEmpty(w: World, s: Status)
    requires CursorOk(w.spec, w.past, s)
    ensures BeforeGate(s) ==> s.volumeStatuses == []
    ensures s.phase == Syncing ==> Cursor(s).Some?
  {
    hide Listed, Ordered, AllCompleted;
  }

  lemma StatusShape(w: World, s: Status, t: Status)
    requires StatusStep(w, s, t)
    ensures s.phase == Syncing || BeforeGate(s)
    ensures t.phase == Completed ==> s.phase == Syncing && Cursor(t) == None
    ensures t.phase == Syncing && s.phase != Syncing ==> BeforeGate(s)
  {
    hide SameExceptAt, Finish, Next, CompletedAt, TargetsOk, Shrinks;
  }

  // The cursor leaves a recorded unit for one that is not bare; if there is none,
  // the unit is the last one, and bare exactly if there is no StatefulSet.
  lemma PassedOver(w: World, s: Status, t: Status)
    requires SpecOk(w.spec) && CursorOk(w.spec, w.past, s) && SyncStep(w, s, t) && s.phase == Syncing
    requires forall u :: u in w.book.bare ==> CompletedAt(s.volumeStatuses, u)
    requires Cursor(s).Some? && Cursor(s).value in w.book.bare ==> w.sts == None
    requires Cursor(t) != Cursor(s)
    ensures w.past.sts0.Some? && Replicas(w.past.sts0.value) > 0 && |w.spec.volumes| > 0
    ensures t.phase == Syncing ==> Cursor(t).Some? && Cursor(t).value !in w.book.bare
    ensures t.phase == Completed ==>
              (w.sts.Some? <==> LastUnit(w.spec.volumes, Replicas(w.past.sts0.value)) !in w.book.bare)
  {
    var u, volumes, replicas := Cursor(s).value, w.spec.volumes, Replicas(w.past.sts0.value);
    var next := Next(volumes, replicas - 1, u);
    if next.Some? {
      NextUnrecorded(w, s, u, next.value);
    }
    assert IsUnit(volumes, replicas, u);
    NextOfLast(volumes, replicas, u);
    hide SameExceptAt, Finish, Next, CompletedAt, CursorOk, SpecOk, LastUnit, IsUnit, IsTarget;
  }

  lemma PassedStatus(w: World, t: Status)
    requires Safe(w) && Passed(w) && Guard(w, PutStatus(t))
    ensures Passed(Called(w, PutStatus(t)))
  {
    var s := w.vr.value.status;
    StepParts(w);
    EarlyEmpty(w, s);
    StatusShape(w, s, t);
    forall u | u in w.book.bare
      ensures CompletedAt(t.volumeStatuses, u)
    {
      RecordStays(w, s, t, u);
    }
    if s.phase == Syncing {
      if Cursor(t) != Cursor(s) {
        PassedOver(w, s, t);
      }
    } else {
      assert forall u :: !CompletedAt([], u);
    }
    hide Safe, StatusStep, CursorOk, SpecOk, CompletedAt, LastUnit;
  }

  // A call that is no status write.
  lemma MarksCall(w: World, c: Call)
    requires Noted(w) && Passed(w) && Guard(w, c) && !c.PutStatus?
    ensures Noted(Called(w, c)) && Passed(Called(w, c))
  {
    hide Sound, Staged, Owned, Retained, Quiet, HomeHeld, CompletedAt, Rewrite, TargetOf, IsTarget, LastUnit, AllHeld;
  }

  lemma MarksStart(w: World)
    requires Start(w)
    ensures Noted(w) && Passed(w) && Behind(w)
  {
    hide FreshClaims, RolledOut, Owned;
  }

  lemma {:induction false} MarksRun(w0: World, log: seq<Action>, w: World)
    requires Run(w0, log, w)
    ensures Noted(w) && Passed(w) && Behind(w)
  {
    if log == [] {
      MarksStart(w);
    } else {
      var n := |log| - 1;
      var v := Exec(w0, log[..n]);
      MarksRun(w0, log[..n], v);
      SafeRun(w0, log[..n], v);
      hide Noted, Passed, Behind, Safe, CanMove, Guard, Start;
      match log[n] {
        case Env(m) =>
          MarksMove(v, m);
          BehindMove(v, m);
        case Op(c) =>
          if c.PutStatus? {
            NotedStatus(v, c.status);
            PassedStatus(v, c.status);
            BehindStatus(v, c.status);
          } else {
            MarksCall(v, c);
            BehindCall(v, c);
          }
      }
    }
  }
}
