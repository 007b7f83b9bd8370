/**
  The flags of the book, read off the log: when each of them is lost, and what a
  pass that began without a StatefulSet means for the end.
 */
module History {
  import opened Types
  import opened Enumeration
  import opened Rewriting
  import opened Protocol
  import opened Safety
  import opened Rely
  import opened Stages
  import opened Marks
  import opened Theorems

  /** h6 and h3: what each temporary claim was created beside */

  ghost predicate CreatesTemp(a: Action) {
    a.Op? && a.call.CreateClaim? && a.call.key.Temp?
  }

  // If action i creates a temporary claim, every original claim held its volume then.
  ghost predicate CreatedHeld(w0: World, log: seq<Action>, i: nat)
    requires i < |log|
  {
    CreatesTemp(log[i]) ==> AllHeld(At(w0, log, i).claims, At(w0, log, i).pvs)
  }

  // If action i creates a temporary claim, no migrator pod of its unit was left.
  ghost predicate CreatedAlone(w0: World, log: seq<Action>, i: nat)
    requires i < |log|
  {
    CreatesTemp(log[i]) ==> NoMig(At(w0, log, i), log[i].call.key.unit)
  }

  lemma HeldStep(w: World, a: Action)
    requires Allowed(w, a)
    ensures Acted(w, a).book.h6 <==> w.book.h6 && (CreatesTemp(a) ==> AllHeld(w.claims, w.pvs))
    ensures Acted(w, a).book.h3 <==> w.book.h3 && (CreatesTemp(a) ==> NoMig(w, a.call.key.unit))
  {
    hide AllHeld, NoMig, CanMove, Moved, Guard, Called, CanCall;
    match a
    case Env(m) => MoveQuieter(w, m);
    case Op(c) =>
      GuardCan(w, c);
      HeldCall(w, c);
  }

  lemma HeldCall(w: World, c: Call)
    requires CanCall(w, c)
    ensures Called(w, c).book.h6 <==> w.book.h6 && (CreatesTemp(Op(c)) ==> AllHeld(w.claims, w.pvs))
    ensures Called(w, c).book.h3 <==> w.book.h3 && (CreatesTemp(Op(c)) ==> NoMig(w, c.key.unit))
  {
    hide AllHeld, Consistent, AtCompleted, CursorMoves;
    match c
    case CreateClaim(_, _) =>
    case PutStatus(_) =>
    case ReleasePv(_, _) =>
    case _ =>
  }

  lemma CreatedBefore(w0: World, log: seq<Action>, n: nat, i: nat)
    requires i < n <= |log|
    ensures CreatedHeld(w0, log[..n], i) <==> CreatedHeld(w0, log, i)
    ensures CreatedAlone(w0, log[..n], i) <==> CreatedAlone(w0, log, i)
  {
    AtBefore(w0, log, n, i);
    assert log[..n][i] == log[i];
    hide At, AllHeld, NoMig;
  }

  lemma CreatedLast(w0: World, log: seq<Action>, w: World)
    requires Run(w0, log, w)
    ensures if log == [] then w.book.h6 && w.book.h3
            else
              var n := |log| - 1; var v := Exec(w0, log[..n]);
              && Run(w0, log[..n], v)
              && (w.book.h6 <==> v.book.h6 && CreatedHeld(w0, log, n))
              && (w.book.h3 <==> v.book.h3 && CreatedAlone(w0, log, n))
  {
    if log != [] {
      var n := |log| - 1;
      HeldStep(Exec(w0, log[..n]), log[n]);
      assert At(w0, log, n) == Exec(w0, log[..n]);
      hide Start, Allowed, Acted, AllHeld, NoMig;
    }
  }

  // The two flags are what they say of every creation in the log.
  lemma {:induction false} HeldIsLogged(w0: World, log: seq<Action>, w: World)
    requires Run(w0, log, w)
    ensures w.book.h6 <==> forall i :: 0 <= i < |log| ==> CreatedHeld(w0, log, i)
    ensures w.book.h3 <==> forall i :: 0 <= i < |log| ==> CreatedAlone(w0, log, i)
    decreases |log|
  {
    hide *;
    CreatedLast(w0, log, w);
    if log != [] {
      var n := |log| - 1;
      HeldIsLogged(w0, log[..n], Exec(w0, log[..n]));
      forall i | 0 <= i < n
        ensures CreatedHeld(w0, log[..n], i) <==> CreatedHeld(w0, log, i)
        ensures CreatedAlone(w0, log[..n], i) <==> CreatedAlone(w0, log, i)
      {
        CreatedBefore(w0, log, n, i);
      }
    }
  }

  /** h4: the annotation and the cursor */

  // Action i stores a new cursor.
  ghost predicate Moves(w0: World, log: seq<Action>, i: nat)
    requires i < |log|
  {
    && log[i].Op? && log[i].call.PutStatus? && At(w0, log, i).vr.Some?
    && CursorMoves(At(w0, log, i).vr.value.status, log[i].call.status)
  }

  // The cursor moved on while the annotation said "deleted" beside a live StatefulSet.
  ghost predicate MovesStale(w0: World, log: seq<Action>, i: nat)
    requires i < |log|
  {
    Moves(w0, log, i) && !Consistent(At(w0, log, i))
  }

  ghost predicate ClearsMark(a: Action) {
    a.Op? && a.call.PutMeta? && !a.call.stsDeleted
  }

  lemma NoteStep(w: World, a: Action)
    requires Allowed(w, a)
    ensures Acted(w, a).book.h4 <==>
              && w.book.h4
              && (a.Op? && a.call.PutStatus? && CursorMoves(w.vr.value.status, a.call.status) ==> Consistent(w))
  {
    hide CanMove, Moved, Guard, Called, CanCall, Consistent;
    match a
    case Env(m) => MoveQuieter(w, m);
    case Op(c) =>
      GuardCan(w, c);
      NoteCall(w, c);
  }

  lemma NoteCall(w: World, c: Call)
    requires CanCall(w, c)
    ensures Called(w, c).book.h4 <==>
              w.book.h4 && (c.PutStatus? && CursorMoves(w.vr.value.status, c.status) ==> Consistent(w))
  {
    hide AllHeld, Consistent, AtCompleted, CursorMoves;
    match c
    case CreateClaim(_, _) =>
    case PutStatus(_) =>
    case ReleasePv(_, _) =>
    case _ =>
  }

  lemma {:induction false} StaleIsLogged(w0: World, log: seq<Action>, w: World)
    requires Run(w0, log, w)
    ensures w.book.h4 <==> forall i :: 0 <= i < |log| ==> !MovesStale(w0, log, i)
    decreases |log|
  {
    hide *;
    StaleAtEnd(w0, log, w);
    if log != [] {
      var n := |log| - 1;
      StaleIsLogged(w0, log[..n], Exec(w0, log[..n]));
      forall i | 0 <= i < n
        ensures MovesStale(w0, log[..n], i) <==> MovesStale(w0, log, i)
      {
        StaleBefore(w0, log, n, i);
      }
    }
  }

  lemma StaleBefore(w0: World, log: seq<Action>, n: nat, i: nat)
    requires i < n <= |log|
    ensures MovesStale(w0, log[..n], i) <==> MovesStale(w0, log, i)
  {
    AtBefore(w0, log, n, i);
    assert log[..n][i] == log[i];
    hide At, Consistent, CursorMoves;
  }

  lemma StaleAtEnd(w0: World, log: seq<Action>, w: World)
    requires Run(w0, log, w)
    ensures if log == [] then w.book.h4
            else
              var n := |log| - 1; var v := Exec(w0, log[..n]);
              Run(w0, log[..n], v) && (w.book.h4 <==> v.book.h4 && !MovesStale(w0, log, n))
  {
    if log != [] {
      var n := |log| - 1;
      var v := Exec(w0, log[..n]);
      PutStatusStored(v, log[n]);
      NoteStep(v, log[n]);
      assert At(w0, log, n) == v;
      hide Start, Allowed, Acted, Consistent, CursorMoves;
    }
  }

  lemma PutStatusStored(w: World, a: Action)
    requires Allowed(w, a)
    ensures a.Op? && a.call.PutStatus? ==> w.vr.Some?
  {
  }

  ghost predicate Recreates(a: Action) {
    a.Op? && a.call.CreateSts?
  }

  // Where the annotation is wrong, it was so before, or the StatefulSet was just
  // recreated under it.
  lemma StaleStep(w: World, a: Action)
    requires Allowed(w, a) && !Consistent(Acted(w, a)) && Acted(w, a).book.h4
    ensures w.vr.Some? && w.vr.value.stsDeleted && w.book.h4
    ensures !Recreates(a) ==>
              && !Consistent(w) && !ClearsMark(a)
              && !(a.Op? && a.call.PutStatus? && CursorMoves(w.vr.value.status, a.call.status))
  {
    hide CanMove, Moved, Guard, Called, CanCall, CursorMoves;
    match a
    case Env(m) => MoveQuieter(w, m);
    case Op(c) => StaleCall(w, c);
  }

  lemma StaleCall(w: World, c: Call)
    requires Guard(w, c) && !Consistent(Called(w, c)) && Called(w, c).book.h4
    ensures w.vr.Some? && w.vr.value.stsDeleted && w.book.h4
    ensures !c.CreateSts? ==>
              && !Consistent(w) && !ClearsMark(Op(c))
              && !(c.PutStatus? && CursorMoves(w.vr.value.status, c.status))
  {
    hide Sound, Staged, Owned, Retained, Quiet, HomeHeld, CompletedAt, StatusStep, AllHeld, TargetOf;
    hide IsTarget, Rewrite;
  }

  lemma StaleLast(w0: World, log: seq<Action>, w: World)
    requires Run(w0, log, w) && w.book.h4 && !Consistent(w)
    ensures log != []
    ensures var n := |log| - 1;
            && Run(w0, log[..n], Exec(w0, log[..n])) && Exec(w0, log[..n]).book.h4
            && (!Recreates(log[n]) ==>
                  !Consistent(Exec(w0, log[..n])) && !ClearsMark(log[n]) && !Moves(w0, log, n))
  {
    if log == [] {
      assert false;
    } else {
      var n := |log| - 1;
      StaleStep(Exec(w0, log[..n]), log[n]);
      assert At(w0, log, n) == Exec(w0, log[..n]);
      hide Start, Allowed, Acted, Consistent, CursorMoves;
    }
  }

  lemma QuietBefore(w0: World, log: seq<Action>, n: nat, k: nat)
    requires k < n <= |log| && !Moves(w0, log[..n], k) && !ClearsMark(log[..n][k])
    ensures !Moves(w0, log, k) && !ClearsMark(log[k])
  {
    AtBefore(w0, log, n, k);
    assert log[..n][k] == log[k];
    hide At, CursorMoves;
  }

  // A wrong annotation goes back to a recreation of the StatefulSet, since which
  // it was not cleared and the cursor did not move.
  lemma {:induction false} StaleSince(w0: World, log: seq<Action>, w: World) returns (j: nat)
    requires Run(w0, log, w) && w.book.h4 && !Consistent(w)
    ensures j < |log| && Recreates(log[j])
    ensures forall k :: j < k < |log| ==> !Moves(w0, log, k) && !ClearsMark(log[k])
    decreases |log|
  {
    hide *;
    StaleLast(w0, log, w);
    var n := |log| - 1;
    if Recreates(log[n]) {
      j := n;
    } else {
      j := StaleSince(w0, log[..n], Exec(w0, log[..n]));
      forall k | j < k < n
        ensures !Moves(w0, log, k) && !ClearsMark(log[k])
      {
        QuietBefore(w0, log, n, k);
      }
    }
  }

  lemma LostLast(w0: World, log: seq<Action>, w: World)
    requires Run(w0, log, w) && !w.book.h4
    ensures log != []
    ensures var n := |log| - 1; var v := Exec(w0, log[..n]);
            Run(w0, log[..n], v) && (v.book.h4 ==> MovesStale(w0, log, n) && !Consistent(v))
  {
    if log == [] {
      assert false;
    } else {
      var n := |log| - 1;
      StaleAtEnd(w0, log, w);
      assert At(w0, log, n) == Exec(w0, log[..n]);
      hide Start, Allowed, Acted, Consistent, Moves;
    }
  }

  // h4 is lost only in one window: the StatefulSet is recreated, and the cursor
  // moves on before the annotation is cleared.
  lemma {:induction false} FaultWindow(w0: World, log: seq<Action>, w: World) returns (j: nat, i: nat)
    requires Run(w0, log, w) && !w.book.h4
    ensures j < i < |log| && Recreates(log[j]) && MovesStale(w0, log, i)
    ensures forall k :: j < k < i ==> !Moves(w0, log, k) && !ClearsMark(log[k])
    decreases |log|
  {
    hide *;
    LostLast(w0, log, w);
    var n := |log| - 1;
    var v := Exec(w0, log[..n]);
    if v.book.h4 {
      i := n;
      j := StaleSince(w0, log[..n], v);
    } else {
      j, i := FaultWindow(w0, log[..n], v);
      StaleBefore(w0, log, n, i);
    }
    assert log[..n][j] == log[j];
    forall k | j < k < i
      ensures !Moves(w0, log, k) && !ClearsMark(log[k])
    {
      QuietBefore(w0, log, n, k);
    }
  }

  // Where each recreation is followed by the clearing of the annotation before the
  // cursor moves, an unfinished migrator excludes the StatefulSet and the pod.
  lemma ExclusionOutsideWindow(w0: World, log: seq<Action>, w: World, u: Unit)
    requires Run(w0, log, w) && w.book.h2 && Mig(u) in w.pods && !Finished(w.pods[Mig(u)])
    requires forall j, i :: 0 <= j < i < |log| && Recreates(log[j]) && Moves(w0, log, i) ==>
               exists k :: j < k < i && ClearsMark(log[k])
    ensures w.sts == None && App(u.replica) !in w.pods
  {
    hide *;
    if !w.book.h4 {
      var j, i := FaultWindow(w0, log, w);
      StaleMoves(w0, log, i);
      assert false;
    }
    MutualExclusion(w0, log, w, u);
  }

  lemma StaleMoves(w0: World, log: seq<Action>, i: nat)
    requires i < |log| && MovesStale(w0, log, i)
    ensures Moves(w0, log, i)
  {
  }

  /** Passes that begin at a recorded unit without a StatefulSet */

  // Action i begins a pass that finds unit u recorded and no StatefulSet.
  ghost predicate BeginsBare(w0: World, log: seq<Action>, i: nat, u: Unit)
    requires i < |log|
  {
    && log[i] == Op(BeginPass) && AtCompleted(At(w0, log, i)) && At(w0, log, i).sts == None
    && Cursor(At(w0, log, i).vr.value.status) == Some(u)
  }

  lemma BareStep(w: World, a: Action)
    requires Allowed(w, a)
    ensures Acted(w, a).book.bare
         == if a == Op(BeginPass) && AtCompleted(w) && w.sts == None
            then w.book.bare + {Cursor(w.vr.value.status).value} else w.book.bare
  {
    hide CanMove, Moved, Guard, Called, CanCall, AtCompleted;
    match a
    case Env(m) => MoveQuieter(w, m);
    case Op(c) =>
      GuardCan(w, c);
      BareCall(w, c);
  }

  lemma BareCall(w: World, c: Call)
    requires CanCall(w, c)
    ensures Called(w, c).book.bare
         == if c.BeginPass? && AtCompleted(w) && w.sts == None
            then w.book.bare + {Cursor(w.vr.value.status).value} else w.book.bare
  {
    hide AllHeld, Consistent, CompletedAt;
  }

  lemma {:induction false} BareIsLogged(w0: World, log: seq<Action>, w: World, u: Unit)
    requires Run(w0, log, w)
    ensures u in w.book.bare <==> exists i :: 0 <= i < |log| && BeginsBare(w0, log, i, u)
    decreases |log|
  {
    hide *;
    BareAtEnd(w0, log, w, u);
    if log != [] {
      var n := |log| - 1;
      BareIsLogged(w0, log[..n], Exec(w0, log[..n]), u);
      forall i | 0 <= i < n
        ensures BeginsBare(w0, log[..n], i, u) <==> BeginsBare(w0, log, i, u)
      {
        BareBefore(w0, log, n, i, u);
      }
    }
  }

  lemma BareBefore(w0: World, log: seq<Action>, n: nat, i: nat, u: Unit)
    requires i < n <= |log|
    ensures BeginsBare(w0, log[..n], i, u) <==> BeginsBare(w0, log, i, u)
  {
    AtBefore(w0, log, n, i);
    assert log[..n][i] == log[i];
    hide At, AtCompleted;
  }

  lemma BareAtEnd(w0: World, log: seq<Action>, w: World, u: Unit)
    requires Run(w0, log, w)
    ensures if log == [] then u !in w.book.bare
            else
              var n := |log| - 1; var v := Exec(w0, log[..n]);
              Run(w0, log[..n], v) && (u in w.book.bare <==> u in v.book.bare || BeginsBare(w0, log, n, u))
  {
    if log != [] {
      var n := |log| - 1;
      BareStep(Exec(w0, log[..n]), log[n]);
      assert At(w0, log, n) == Exec(w0, log[..n]);
      hide Start, Allowed, Acted, CompletedAt;
    }
  }

  // Phase Completed comes with the StatefulSet, unless some pass began at the
  // recorded last unit and found none: then, and only then, it is missing.
  lemma CompletedHasStatefulSet(w0: World, log: seq<Action>, w: World)
    requires Run(w0, log, w) && w.vr.Some? && w.vr.value.status.phase == Completed
    ensures w.past.sts0.Some? && Replicas(w.past.sts0.value) > 0 && |w.spec.volumes| > 0
    ensures var last := LastUnit(w.spec.volumes, Replicas(w.past.sts0.value));
            w.sts.Some? <==> forall i :: 0 <= i < |log| ==> !BeginsBare(w0, log, i, last)
  {
    SafeRun(w0, log, w);
    CompletedListed(w);
    MarksRun(w0, log, w);
    BareIsLogged(w0, log, w, LastUnit(w.spec.volumes, Replicas(w.past.sts0.value)));
    hide Safe, Run, BeginsBare, CompletedAt, LastUnit;
  }

  lemma CompletedListed(w: World)
    requires Safe(w) && w.vr.Some? && w.vr.value.status.phase == Completed
    ensures w.past.sts0.Some? && Replicas(w.past.sts0.value) > 0 && |w.spec.volumes| > 0
  {
    hide Recoverable, FirstKept, TempsAside, MountsAside, ClaimsLabelled, PodsLabelled, TemplatesLabelled;
    hide PodShape, Truthful, AllCompleted, TargetsOk, Shrinks;
  }

  // Unit u is at the cursor, recorded, and there is no StatefulSet.
  ghost predicate Bare(w: World, u: Unit) {
    && w.vr.Some? && w.vr.value.status.phase == Syncing && Cursor(w.vr.value.status) == Some(u)
    && CompletedAt(w.vr.value.status.volumeStatuses, u) && w.sts == None
  }

  // Action i stores the status in which u is first recorded.
  ghost predicate Records(w0: World, log: seq<Action>, i: nat, u: Unit)
    requires i < |log|
  {
    && log[i].Op? && log[i].call.PutStatus? && CompletedAt(log[i].call.status.volumeStatuses, u)
    && At(w0, log, i).vr.Some? && !CompletedAt(At(w0, log, i).vr.value.status.volumeStatuses, u)
  }

  lemma BareBack(w: World, a: Action, u: Unit)
    requires Safe(w) && Allowed(w, a) && Bare(Acted(w, a), u)
    ensures !Recreates(a) && w.vr.Some?
    ensures || Bare(w, u)
            || (&& a.Op? && a.call.PutStatus? && CompletedAt(a.call.status.volumeStatuses, u)
                && !CompletedAt(w.vr.value.status.volumeStatuses, u))
  {
    hide CanMove, Moved, Guard, Called, CanCall, CompletedAt, Safe;
    match a
    case Env(m) => MoveQuieter(w, m);
    case Op(c) =>
      if c.PutStatus? {
        BareStatus(w, c.status, u);
      } else {
        BareOther(w, c, u);
      }
  }

  lemma BareOther(w: World, c: Call, u: Unit)
    requires Guard(w, c) && Bare(Called(w, c), u) && !c.PutStatus?
    ensures !c.CreateSts? && Bare(w, u)
  {
    hide Sound, Staged, Owned, Retained, Quiet, HomeHeld, CompletedAt, AllHeld, TargetOf, IsTarget, Rewrite;
  }

  lemma BareStatus(w: World, t: Status, u: Unit)
    requires Safe(w) && Guard(w, PutStatus(t)) && Bare(Called(w, PutStatus(t)), u)
    ensures w.vr.Some? && CompletedAt(t.volumeStatuses, u)
    ensures Bare(w, u) || !CompletedAt(w.vr.value.status.volumeStatuses, u)
  {
    var s := w.vr.value.status;
    StepParts(w);
    EarlyEmpty(w, s);
    StatusShape(w, s, t);
    if s.phase == Syncing && Cursor(s) != Some(u) {
      NextUnrecorded(w, s, Cursor(s).value, u);
    }
    hide Safe, SameExceptAt, Finish, Next, Launch, CursorOk, SpecOk;
  }

  lemma BareLast(w0: World, log: seq<Action>, w: World, u: Unit)
    requires Run(w0, log, w) && Bare(w, u) && log != []
    ensures var n := |log| - 1;
            && Run(w0, log[..n], Exec(w0, log[..n])) && !Recreates(log[n])
            && (Bare(Exec(w0, log[..n]), u) || Records(w0, log, n, u))
  {
    var n := |log| - 1;
    var v := Exec(w0, log[..n]);
    SafeRun(w0, log[..n], v);
    BareBack(v, log[n], u);
    hide Start, Allowed, Acted, Safe, CompletedAt;
  }

  lemma RecordsBefore(w0: World, log: seq<Action>, n: nat, i: nat, u: Unit)
    requires i < n <= |log|
    ensures Records(w0, log[..n], i, u) <==> Records(w0, log, i, u)
  {
    AtBefore(w0, log, n, i);
    assert log[..n][i] == log[i];
    hide At, CompletedAt;
  }

  lemma BareAtStart(w0: World, w: World, u: Unit)
    requires Run(w0, [], w)
    ensures !Bare(w, u)
  {
    hide FreshSts, FreshClaims, FreshPods, FreshBook, RolledOut;
  }

  // Such a unit was recorded by an action since which the StatefulSet was not
  // recreated: the pass that recorded it did not get that far.
  lemma {:induction false} BareSince(w0: World, log: seq<Action>, w: World, u: Unit) returns (j: nat)
    requires Run(w0, log, w) && Bare(w, u)
    ensures j < |log| && Records(w0, log, j, u)
    ensures forall k :: j <= k < |log| ==> !Recreates(log[k])
    decreases |log|
  {
    hide *;
    if log == [] {
      BareAtStart(w0, w, u);
      assert false;
    } else {
      var n := |log| - 1;
      BareLast(w0, log, w, u);
      if Bare(Exec(w0, log[..n]), u) {
        j := BareSince(w0, log[..n], Exec(w0, log[..n]), u);
        RecordsBefore(w0, log, n, j, u);
        assert forall k :: j <= k < n ==> log[..n][k] == log[k];
      } else {
        j := n;
      }
    }
  }

  // No pass begins between the record of a unit and the next recreation of the
  // StatefulSet.
  ghost predicate NoneInterrupted(w0: World, log: seq<Action>) {
    forall i, j, u :: 0 <= j < i < |log| && log[i] == Op(BeginPass) && Records(w0, log, j, u) ==>
      exists k :: j < k < i && Recreates(log[k])
  }

  // Then phase Completed comes with the StatefulSet.
  lemma CompletedOutsideWindow(w0: World, log: seq<Action>, w: World)
    requires Run(w0, log, w) && w.vr.Some? && w.vr.value.status.phase == Completed
    requires NoneInterrupted(w0, log)
    ensures w.sts.Some?
  {
    CompletedHasStatefulSet(w0, log, w);
    var last := LastUnit(w.spec.volumes, Replicas(w.past.sts0.value));
    hide *;
    forall i | 0 <= i < |log|
      ensures !BeginsBare(w0, log, i, last)
    {
      if BeginsBare(w0, log, i, last) {
        RunAt(w0, log, w, i);
        BeginsWhereBare(w0, log, i, last);
        var j := BareSince(w0, log[..i], At(w0, log, i), last);
        RecordsBefore(w0, log, i, j, last);
        Interrupted(w0, log, i, j, last);
        assert false;
      }
    }
  }

  lemma BeginsWhereBare(w0: World, log: seq<Action>, i: nat, u: Unit)
    requires i < |log| && BeginsBare(w0, log, i, u)
    ensures log[i] == Op(BeginPass) && Bare(At(w0, log, i), u)
  {
    hide CompletedAt, At;
  }

  lemma Interrupted(w0: World, log: seq<Action>, i: nat, j: nat, u: Unit)
    requires j < i < |log| && log[i] == Op(BeginPass) && Records(w0, log, j, u)
    requires forall k :: j <= k < i ==> !Recreates(log[..i][k])
    ensures !NoneInterrupted(w0, log)
  {
    hide Records, Recreates;
    assert forall k :: j <= k < i ==> log[..i][k] == log[k];
  }

  lemma BareUnit(w: World, u: Unit)
    requires Safe(w) && Noted(w) && Staging(w) && Bare(w, u) && !w.vr.value.deleting
    ensures AtCompleted(w) && DistinctNames(w.spec.volumes) && w.past.sts0.Some?
    ensures IsUnit(w.spec.volumes, Replicas(w.past.sts0.value), u)
  {
    hide Recoverable, FirstKept, TempsAside, MountsAside, ClaimsLabelled, PodsLabelled, TemplatesLabelled;
    hide PodShape, Truthful, Ordered, Pristine, Doubled, Unrecorded, CompletedAt, Units, TargetsOk, Shrinks;
  }

  lemma BareCompletes(w: World, u: Unit, t: Status)
    requires AtCompleted(w) && Bare(w, u) && DistinctNames(w.spec.volumes)
    requires w.past.sts0.Some? && Replicas(w.past.sts0.value) > 0 && |w.spec.volumes| > 0
    requires IsUnit(w.spec.volumes, Replicas(w.past.sts0.value), u)
    requires u == LastUnit(w.spec.volumes, Replicas(w.past.sts0.value))
    requires t == w.vr.value.status.(phase := Completed, currentReplica := None, currentVolume := "")
    ensures Guard(w, BeginPass)
    ensures var b := Called(w, BeginPass);
            && Guard(b, PutStatus(t))
            && var w' := Called(b, PutStatus(t));
               && w'.vr.Some? && w'.vr.value.status.phase == Completed && w'.sts == None
               && w'.claims == w.claims && w'.pvs == w.pvs && w'.book.latest == w.book.latest
               && (Sound(w) <==> Sound(w'))
  {
    NextOfLast(w.spec.volumes, Replicas(w.past.sts0.value), u);
    hide Next, Finish, CompletedAt, IsUnit, LastUnit, DistinctNames;
  }

  // Wherever a run stops at the recorded last unit without a StatefulSet, the next
  // pass may complete the resource like that: it begins, and stores the status.
  lemma BareEnds(w0: World, log: seq<Action>, w: World, u: Unit) returns (more: seq<Action>, w': World)
    requires Run(w0, log, w) && Bare(w, u) && !w.vr.value.deleting
    requires w.past.sts0.Some? && Replicas(w.past.sts0.value) > 0 && |w.spec.volumes| > 0
    requires u == LastUnit(w.spec.volumes, Replicas(w.past.sts0.value))
    ensures |more| == |log| + 2 && log <= more && Run(w0, more, w') && BeginsBare(w0, more, |log|, u)
    ensures w'.vr.Some? && w'.vr.value.status.phase == Completed && w'.sts == None
    ensures w'.claims == w.claims && w'.pvs == w.pvs && w'.book.latest == w.book.latest && (Sound(w) <==> Sound(w'))
  {
    hide Run, Safe, Noted, Passed, Behind, Staging, Guard, Called, LastUnit, AtCompleted, CompletedAt, BeginsBare, Sound;
    SafeRun(w0, log, w);
    MarksRun(w0, log, w);
    StagingRun(w0, log, w);
    BareUnit(w, u);
    var t := w.vr.value.status.(phase := Completed, currentReplica := None, currentVolume := "");
    BareCompletes(w, u, t);
    var b := Called(w, BeginPass);
    CallRuns(w0, log, w, BeginPass);
    var begun := log + [Op(BeginPass)];
    CallRuns(w0, begun, b, PutStatus(t));
    more := begun + [Op(PutStatus(t))];
    w' := Called(b, PutStatus(t));
    BeginsHere(w0, log, more, w, u);
  }

  lemma BeginsHere(w0: World, log: seq<Action>, more: seq<Action>, w: World, u: Unit)
    requires Run(w0, log, w) && Bare(w, u) && AtCompleted(w)
    requires log <= more && |more| > |log| && more[|log|] == Op(BeginPass)
    ensures BeginsBare(w0, more, |log|, u)
  {
    AtEnd(w0, log);
    assert more[..|log|] == log;
    hide CompletedAt, Start, Allowed, Acted;
  }
}
