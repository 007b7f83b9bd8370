/**
  Two more facts of every run: before the gate the claims are as they were at
  the start, and while an original name is missing the copy's volume is retained.
 */
module Stages {
  import opened Types
  import opened Enumeration
  import opened Protocol
  import opened Safety
  import opened Placement
  import opened Rely

  predicate BeforeGate(st: Status) {
    st.phase == PhaseEmpty || st.phase == Pending || st.phase == Validating
  }

  // The original claims are the first ones, at their first size.
  ghost predicate FirstClaims(past: Origin, claims: map<ClaimKey, Claim>) {
    && (forall u :: u in past.first ==> Orig(u) in claims && !claims[Orig(u)].terminating)
    && (forall k :: k in claims && k.Orig? ==>
          k.unit in past.first && k.unit in past.size0 && claims[k].size == past.size0[k.unit])
  }

  ghost predicate NoneTerminating(claims: map<ClaimKey, Claim>) {
    forall k :: k in claims && k.Orig? ==> !claims[k].terminating
  }

  ghost predicate Pristine(w: World) {
    && (w.past.rolledOut ==> Full(w.past))
    && (w.vr.Some? && BeforeGate(w.vr.value.status) ==>
          NoneTerminating(w.claims) && (w.past.rolledOut ==> FirstClaims(w.past, w.claims)))
  }

  // Only the deletion of the resource starts a sweep.
  ghost predicate Marked(w: World) {
    w.book.swept ==> Ending(w)
  }

  // Every staged volume is retained, and a missing original has one.
  ghost predicate Doubled(past: Origin, claims: map<ClaimKey, Claim>, pvs: map<PvName, Pv>, staged: map<Unit, PvName>) {
    && (forall u :: u in staged ==>
          staged[u] in pvs && pvs[staged[u]].policy == Retain && NotFirstOf(past, staged[u]))
    && (forall u :: u in past.first && AbsentIn(claims, u) ==> u in staged)
  }

  ghost predicate Staging(w: World) {
    Pristine(w) && Marked(w) && Doubled(w.past, w.claims, w.pvs, w.book.staged)
  }

  lemma SizesMove(w: World, m: Move)
    requires CanMove(w, m) && !m.StsPod?
    ensures forall k :: k in Moved(w, m).claims ==> k in w.claims && Moved(w, m).claims[k].size == w.claims[k].size
  {
    hide Reclaimed, Written;
  }

  lemma FreshMove(w: World, m: Move)
    requires CanMove(w, m) && NoneTerminating(w.claims)
    ensures NoneTerminating(Moved(w, m).claims)
  {
    hide Reclaimed, Written, PodClaims;
  }

  lemma FirstMove(w: World, m: Move)
    requires Safe(w) && Full(w.past) && FirstClaims(w.past, w.claims) && CanMove(w, m)
    ensures FirstClaims(w.past, Moved(w, m).claims)
  {
    if m.StsPod? {
      NoClaimCreated(w, m.replica);
    } else {
      SizesMove(w, m);
      MoveKeepsClaims(w, m);
      hide Safe, Full, Moved, CanMove, Retained, NoTemp, TempGoing, NameFree;
    }
  }

  lemma PristineMove(w: World, m: Move)
    requires Safe(w) && Pristine(w) && CanMove(w, m)
    ensures Pristine(Moved(w, m))
  {
    MoveQuieter(w, m);
    hide Safe, Full, Moved, CanMove, NoneTerminating, FirstClaims;
    if w.vr.Some? && BeforeGate(w.vr.value.status) {
      FreshMove(w, m);
      if w.past.rolledOut {
        FirstMove(w, m);
      }
    }
  }

  lemma MarkedMove(w: World, m: Move)
    requires Marked(w) && CanMove(w, m)
    ensures Marked(Moved(w, m))
  {
    MoveQuieter(w, m);
    hide CanMove, Moved;
  }

  lemma MarkedCall(w: World, c: Call)
    requires Marked(w) && Guard(w, c)
    ensures Marked(Called(w, c))
  {
    hide StatusStep, Active, Owned, Sound, Retained;
  }

  lemma MoveRetains(w: World, m: Move)
    requires CanMove(w, m) && KeepsClaims(w, Moved(w, m))
    ensures var pvs := Moved(w, m).pvs;
            forall n :: n in w.pvs && w.pvs[n].policy == Retain ==> n in pvs && pvs[n].policy == Retain
    ensures forall u :: AbsentIn(Moved(w, m).claims, u) ==> AbsentIn(w.claims, u)
  {
    var w' := Moved(w, m);
    hide CanMove, Moved, NoTemp, TempGoing, NameFree, SameClaim;
    forall n | n in w.pvs && w.pvs[n].policy == Retain
      ensures n in w'.pvs && w'.pvs[n].policy == Retain
    {
      assert Retained(w, n);
    }
  }

  lemma DoubledMove(w: World, m: Move)
    requires Doubled(w.past, w.claims, w.pvs, w.book.staged) && CanMove(w, m)
    ensures var w' := Moved(w, m); Doubled(w'.past, w'.claims, w'.pvs, w'.book.staged)
  {
    MoveQuieter(w, m);
    MoveKeepsClaims(w, m);
    MoveRetains(w, m);
    hide NotFirstOf, CanMove, Moved, KeepsClaims;
  }

  predicate IsStorage(c: Call) {
    c.CreateClaim? || c.DeleteClaim? || c.SweepClaim? || c.RetainPv? || c.ReleasePv?
  }

  lemma OtherCall(w: World, c: Call)
    requires CanCall(w, c) && !IsStorage(c)
    ensures var w' := Called(w, c);
            w'.past == w.past && w'.claims == w.claims && w'.pvs == w.pvs && w'.book.staged == w.book.staged
            && (!c.PutStatus? && w'.vr.Some? ==> w.vr.Some? && w'.vr.value.status == w.vr.value.status)
  {
  }

  lemma PristineStatus(w: World, st: Status)
    requires Pristine(w) && Guard(w, PutStatus(st))
    ensures Pristine(Called(w, PutStatus(st)))
  {
    hide Full, FirstClaims, NoneTerminating, TargetsOk, Shrinks, Units, SameExceptAt, Finish, CompletedAt, Next;
  }

  // Claims are created and deleted only while syncing.
  lemma PristineClaim(w: World, c: Call)
    requires Pristine(w) && Guard(w, c) && (c.CreateClaim? || c.DeleteClaim?)
    ensures Pristine(Called(w, c))
  {
    hide Full, FirstClaims, NoneTerminating, Sound, Staged, Owned, Retained, Quiet, HomeHeld, CompletedAt;
    hide TargetOf, IsTarget;
  }

  lemma TempEnds(w: World, k: ClaimKey)
    requires k in w.claims && k.Temp?
    ensures var claims := w.claims[k := w.claims[k].(terminating := true)];
            && (NoneTerminating(w.claims) ==> NoneTerminating(claims))
            && (FirstClaims(w.past, w.claims) ==> FirstClaims(w.past, claims))
  {
  }

  lemma PristineSweep(w: World, c: Call)
    requires Safe(w) && Pristine(w) && Guard(w, c) && (c.SweepClaim? || c.RetainPv? || c.ReleasePv?)
    ensures Pristine(Called(w, c))
  {
    if c.SweepClaim? {
      SweptIsTemp(w, c.key);
      TempEnds(w, c.key);
    }
    hide Safe, Full, Sound, Staged, Owned, Retained, Active, NotFirst, FirstClaims, NoneTerminating, Ending;
  }

  lemma PristineCall(w: World, c: Call)
    requires Safe(w) && Pristine(w) && Guard(w, c)
    ensures Pristine(Called(w, c))
  {
    if c.CreateClaim? || c.DeleteClaim? {
      PristineClaim(w, c);
    } else if IsStorage(c) {
      PristineSweep(w, c);
    } else {
      assert CanCall(w, c);
      OtherCall(w, c);
      if c.PutStatus? {
        PristineStatus(w, c.status);
      }
      hide Safe, Full, FirstClaims, NoneTerminating, Guard, Called, CanCall;
    }
  }

  lemma DoubledDelete(w: World, c: Call)
    requires Safe(w) && Doubled(w.past, w.claims, w.pvs, w.book.staged) && Guard(w, c)
    requires c.DeleteClaim? || c.SweepClaim?
    ensures var w' := Called(w, c); Doubled(w'.past, w'.claims, w'.pvs, w'.book.staged)
  {
    if c.SweepClaim? {
      SweptIsTemp(w, c.key);
    }
    AbsentAfter(w.claims, c.key, w.claims[c.key].(terminating := true));
    hide Safe, Sound, Owned, Active, NotFirstOf, Retained, AbsentIn, HomeHeld, Quiet, Ending;
  }

  lemma DoubledStorage(w: World, c: Call)
    requires Doubled(w.past, w.claims, w.pvs, w.book.staged) && Guard(w, c)
    requires c.CreateClaim? || c.RetainPv? || c.ReleasePv?
    ensures var w' := Called(w, c); Doubled(w'.past, w'.claims, w'.pvs, w'.book.staged)
  {
    hide Sound, Staged, Owned, Active;
  }

  lemma DoubledCall(w: World, c: Call)
    requires Safe(w) && Doubled(w.past, w.claims, w.pvs, w.book.staged) && Guard(w, c)
    ensures var w' := Called(w, c); Doubled(w'.past, w'.claims, w'.pvs, w'.book.staged)
  {
    assert CanCall(w, c);
    hide Guard, Safe, Doubled, CanCall, Called;
    if c.DeleteClaim? || c.SweepClaim? {
      DoubledDelete(w, c);
    } else if IsStorage(c) {
      DoubledStorage(w, c);
    } else {
      OtherCall(w, c);
    }
  }

  lemma {:induction false} StagingRun(w0: World, log: seq<Action>, w: World)
    requires Run(w0, log, w)
    ensures Staging(w)
  {
    if log == [] {
      StagingStart(w);
    } else {
      var n := |log| - 1;
      var v := Exec(w0, log[..n]);
      StagingRun(w0, log[..n], v);
      SafeRun(w0, log[..n], v);
      hide Pristine, Marked, Doubled, Safe, CanMove, Guard, Start;
      match log[n] {
        case Env(m) =>
          PristineMove(v, m);
          MarkedMove(v, m);
          DoubledMove(v, m);
        case Op(c) =>
          PristineCall(v, c);
          MarkedCall(v, c);
          DoubledCall(v, c);
      }
    }
  }

  lemma StagingStart(w: World)
    requires Start(w)
    ensures Staging(w)
  {
    hide Owned;
  }
}
