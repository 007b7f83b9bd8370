/**
  What an operator pass may rely on between two of its calls: the facts that no
  move of the environment takes away.
 */
module Rely {
  import opened Types
  import opened Protocol
  import opened Safety
  import opened Placement
  import opened Custody

  // All invariants of a run.
  ghost predicate Inv(w: World) {
    Safe(w) && Placed(w) && SoleTemp(w) && Excluded(w) && Kept(w)
  }

  lemma InvRun(w0: World, log: seq<Action>, w: World)
    requires Run(w0, log, w)
    ensures Inv(w)
  {
    SafeRun(w0, log, w);
    PlacedRun(w0, log, w);
    KeptRun(w0, log, w);
  }

  lemma InvAction(w: World, a: Action)
    requires Inv(w) && Allowed(w, a)
    ensures Inv(Acted(w, a))
  {
    hide Safe, Placed, SoleTemp, Excluded, Kept, Allowed, Acted;
    SafeAction(w, a);
    PlacedAction(w, a);
    KeptAction(w, a);
  }

  // The original name is free and nothing will take it.
  ghost predicate NameFree(w: World, u: Unit) {
    w.sts == None && Orig(u) !in w.claims
  }

  // Gone, or being deleted.
  ghost predicate TempGoing(w: World, u: Unit) {
    Temp(u) in w.claims ==> w.claims[Temp(u)].terminating
  }

  ghost predicate MigGoing(w: World, u: Unit) {
    Mig(u) in w.pods ==> w.pods[Mig(u)].terminating
  }

  // No StatefulSet, and the pod of the replica gone or being deleted.
  ghost predicate AppGoing(w: World, r: nat) {
    w.sts == None && (App(r) in w.pods ==> w.pods[App(r)].terminating)
  }

  // No migrator, or one that failed.
  ghost predicate MigLost(w: World, u: Unit) {
    Mig(u) in w.pods ==> w.pods[Mig(u)].phase == PodFailed
  }

  // A staged copy whose volume is released.
  ghost predicate Loose(w: World, u: Unit, m: PvName) {
    Staged(w, u, m) && w.pvs[m].claimRef == None
  }

  // Strict facts, claimed only while all hypotheses hold.
  ghost predicate ReadyIf(w: World, u: Unit, copy: Option<PvName>) {
    Sound(w) ==> if copy.Some? then Ready(w, u, copy.value) else NoTemp(w, u)
  }
  ghost predicate StagedIf(w: World, u: Unit, m: PvName) { Sound(w) ==> Staged(w, u, m) }
  ghost predicate LooseIf(w: World, u: Unit, m: PvName) { Sound(w) ==> Loose(w, u, m) }

  // The hypotheses under which only the operator creates claims.
  ghost predicate Stable(w: World) { w.past.rolledOut && w.book.h4 }

  // Every original claim holds its volume, for good.
  ghost predicate Held(w: World) { Stable(w) && AllHeld(w.claims, w.pvs) }

  // The original claim is missing, for good.
  ghost predicate MissingIf(w: World, u: Unit) { Stable(w) && u in w.past.first ==> Absent(w, u) }

  ghost predicate SameClaim(a: Claim, b: Claim) {
    && a.size == b.size && a.storageClass == b.storageClass && a.labels == b.labels
    && (a.pv.Some? ==> b.pv == a.pv) && (a.bound ==> b.bound) && !b.terminating
  }

  // The resource stays what it is, up to a deletion mark set by the user; it
  // can only vanish if it has no finalizer.
  ghost predicate SameVr(v: Option<Vr>, v': Option<Vr>) {
    && (v'.Some? ==>
          && v.Some? && v'.value.(deleting := v.value.deleting) == v.value
          && (v.value.deleting ==> v'.value.deleting))
    && (v.Some? && v.value.finalizer ==> v'.Some?)
  }

  ghost predicate Quieter(w: World, w': World) {
    && w'.spec == w.spec && w'.past == w.past && w'.sts == w.sts && w'.backup == w.backup
    && w'.book.(latest := w.book.latest, names := w.book.names) == w.book
    && SameVr(w.vr, w'.vr)
  }

  ghost predicate KeepsPods(w: World, w': World) {
    && (forall r: nat :: Quiet(w, r) ==> Quiet(w', r))
    && (forall u :: Done(w, u) ==> Done(w', u))
    && (forall u :: NoMig(w, u) ==> NoMig(w', u))
    && (forall u :: MigGoing(w, u) ==> MigGoing(w', u))
    && (forall r: nat :: AppGoing(w, r) ==> AppGoing(w', r))
    && (forall u :: MigLost(w, u) ==> MigLost(w', u))
  }

  ghost predicate KeepsClaims(w: World, w': World) {
    && (forall u :: NoTemp(w, u) ==> NoTemp(w', u))
    && (forall u :: TempGoing(w, u) ==> TempGoing(w', u))
    && (forall u :: NameFree(w, u) ==> NameFree(w', u))
    && (forall n :: Retained(w, n) ==> Retained(w', n))
    && (forall k :: k in w.claims && !w.claims[k].terminating ==> k in w'.claims && SameClaim(w.claims[k], w'.claims[k]))
  }

  ghost predicate KeepsCopies(w: World, w': World) {
    && (forall u, m :: ReadyIf(w, u, m) ==> ReadyIf(w', u, m))
    && (forall u, m :: StagedIf(w, u, m) ==> StagedIf(w', u, m))
    && (forall u, m :: LooseIf(w, u, m) ==> LooseIf(w', u, m))
    && (Held(w) ==> Held(w'))
    && (forall u :: MissingIf(w, u) ==> MissingIf(w', u))
  }

  // The environment turned w into w'.
  ghost predicate Relied(w: World, w': World) {
    Quieter(w, w') && KeepsPods(w, w') && KeepsClaims(w, w') && KeepsCopies(w, w')
  }

  lemma RelyReflexive(w: World)
    ensures Relied(w, w)
  {
    hide ReadyIf, StagedIf, LooseIf, Held, MissingIf;
  }

  lemma RelyTransitive(w: World, w': World, w'': World)
    requires Relied(w, w') && Relied(w', w'')
    ensures Relied(w, w'')
  {
    hide ReadyIf, StagedIf, LooseIf, Held, MissingIf, Quiet, Done, NoMig, MigGoing, AppGoing, MigLost, NoTemp;
    hide TempGoing;
    hide NameFree, Retained;
  }

  lemma MoveQuieter(w: World, m: Move)
    requires CanMove(w, m)
    ensures Quieter(w, Moved(w, m))
  {
    hide Reclaimed, MissingClaims, PodClaims, Written;
  }

  lemma MoveKeepsPods(w: World, m: Move)
    requires CanMove(w, m)
    ensures KeepsPods(w, Moved(w, m))
  {
  }

  lemma MoveKeepsClaims(w: World, m: Move)
    requires CanMove(w, m)
    ensures KeepsClaims(w, Moved(w, m))
  {
  }

  // Volume n, if it exists, is a copy of u that nobody can bind or write, and no
  // application pod of the replica can write u itself.
  ghost predicate Sealed(w: World, u: Unit, n: PvName) {
    && Sound(w) && Attended(w) && Quiet(w, u.replica) && Done(w, u)
    && Apart(w.book.home, n) && n in w.book.names && u in w.book.latest
    && (n in w.pvs ==>
          || w.pvs[n].claimRef == Some(Temp(u))
          || (w.pvs[n].claimRef == None && NoTemp(w, u) && AtCursor(w, u)))
  }

  ghost predicate Untouched(w: World, w': World, u: Unit, n: PvName) {
    && (n in w'.pvs ==> n in w.pvs && w'.pvs[n].(policy := w.pvs[n].policy) == w.pvs[n])
    && n in w'.book.names
    && u in w.book.latest && u in w'.book.latest && w'.book.latest[u] == w.book.latest[u]
  }

  lemma SealedBind(w: World, u: Unit, n: PvName, k: ClaimKey, n': PvName, policy: Policy)
    requires Placed(w) && SoleTemp(w) && Kept(w) && Sealed(w, u, n) && CanMove(w, Bind(k, n', policy))
    ensures Untouched(w, Moved(w, Bind(k, n', policy)), u, n)
  {
    BindTarget(w, k, n', policy);
    if k.Temp? && AtCursor(w, u) {
      TempHere(w, u, k);
    }
    hide Placed, Kept, SoleTemp, AtCursor, Sound;
    assert n' != n;
  }

  // A temporary claim is the one of the unit at the cursor.
  lemma TempHere(w: World, u: Unit, k: ClaimKey)
    requires SoleTemp(w) && w.book.h1 && Attended(w) && AtCursor(w, u) && k in w.claims && k.Temp?
    ensures k == Temp(u)
  {
    hide OneTemp, TempHeld, TempSized, CompletedAt;
  }

  lemma SealedAppWrite(w: World, u: Unit, n: PvName, u': Unit, d: Data)
    requires Kept(w) && Sealed(w, u, n) && CanMove(w, AppWrite(u', d))
    ensures Untouched(w, Moved(w, AppWrite(u', d)), u, n)
  {
    hide Housed, MigKept, MigAt, AtCursorIn;
    assert AppKept(w.book.home, w.pods[App(u'.replica)].mounts);
  }

  // A migrator that may write is another unit's, tied to that unit's temporary claim.
  lemma SealedMigWrite(w: World, u: Unit, n: PvName, u': Unit)
    requires Kept(w) && Sealed(w, u, n) && n in w.pvs
    requires Mig(u') in w.pods && Live(w.pods[Mig(u')]) && Temp(u') in w.pods[Mig(u')].mounts
    ensures w.pods[Mig(u')].mounts[Temp(u')] != n
  {
    hide HomeData, HomeNamed, HomeRetained, HomeInjective, HomeRef, HeldForTemps, Carries, MigAt, AtCursorIn;
    assert MigKept(w.book.home, w.book.latest, w.claims, w.pvs, w.book.swept, u', w.pods[Mig(u')]);
    assert Tied(w.claims, u', w.pods[Mig(u')]);
  }

  lemma SealedMig(w: World, u: Unit, n: PvName, m: Move)
    requires Kept(w) && Sealed(w, u, n) && CanMove(w, m) && (m.MigWrite? || m.MigDone?)
    ensures Untouched(w, Moved(w, m), u, n)
  {
    if n in w.pvs {
      SealedMigWrite(w, u, n, m.unit);
    }
    assert n in w.book.names && u in w.book.latest;
    hide Kept, Sealed;
    MigratorWrites(w, m);
    hide CanMove, Moved;
  }

  // A migrator writes to its temporary claim's volume only.
  lemma MigratorWrites(w: World, m: Move)
    requires CanMove(w, m) && (m.MigWrite? || m.MigDone?)
    ensures Mig(m.unit) in w.pods && Temp(m.unit) in w.pods[Mig(m.unit)].mounts
    ensures var w' := Moved(w, m);
            && w'.book == w.book && w'.pvs.Keys == w.pvs.Keys
            && forall n :: n in w.pvs && n != w.pods[Mig(m.unit)].mounts[Temp(m.unit)] ==> w'.pvs[n] == w.pvs[n]
  {
  }

  lemma SealedOther(w: World, u: Unit, n: PvName, m: Move)
    requires Sealed(w, u, n) && CanMove(w, m)
    requires !m.Bind? && !m.AppWrite? && !m.MigWrite? && !m.MigDone?
    ensures Untouched(w, Moved(w, m), u, n)
  {
    hide Sound, Apart, AtCursorIn, MissingClaims, PodClaims;
  }

  lemma SealedMove(w: World, u: Unit, n: PvName, m: Move)
    requires Placed(w) && SoleTemp(w) && Kept(w) && Sealed(w, u, n) && CanMove(w, m)
    ensures Untouched(w, Moved(w, m), u, n)
  {
    hide Placed, SoleTemp, Kept, Sealed, CanMove, Moved, Untouched, Sound;
    match m
    case Bind(k, n', policy) => SealedBind(w, u, n, k, n', policy);
    case AppWrite(u', d) => SealedAppWrite(w, u, n, u', d);
    case MigWrite(_, _) => SealedMig(w, u, n, m);
    case MigDone(_) => SealedMig(w, u, n, m);
    case _ => SealedOther(w, u, n, m);
  }

  // The claim of a home keeps holding it.
  lemma HomeHeldMove(w: World, u: Unit, m: Move)
    requires CanMove(w, m) && Kept(w) && Kept(Moved(w, m)) && Sound(w) && Sound(Moved(w, m)) && HomeHeld(w, u)
    ensures HomeHeld(Moved(w, m), u)
  {
    hide Crewed, MigAt, HomeNamed, HomeRetained, HomeInjective, HomeRef, TempRef, MissingClaims, PodClaims;
  }

  lemma ActiveMove(w: World, u: Unit, m: Move)
    requires CanMove(w, m) && Active(w, u)
    ensures Active(Moved(w, m), u)
  {
    MoveQuieter(w, m);
    hide Moved, CanMove, CompletedAt;
  }

  lemma SealedWhenReady(w: World, u: Unit, n: PvName)
    requires Sound(w) && Ready(w, u, n)
    ensures Sealed(w, u, n)
  {
    hide Sound, HomeHeld, AtCursorIn, Absent;
  }

  lemma SealedWhenStaged(w: World, u: Unit, n: PvName)
    requires Safe(w) && Sound(w) && Staged(w, u, n)
    ensures Sealed(w, u, n)
  {
    assert n in w.book.names by { hide Sound, Staged; NamesUsed(w, n); }
    hide Safe, Sound, HomeHeld, AtCursorIn;
  }

  lemma NamesUsed(w: World, n: PvName)
    requires Safe(w) && n in w.pvs
    ensures n in w.book.names
  {
    hide SpecOk, Recoverable, FirstKept, TempsAside, MountsAside, ClaimsLabelled, PodsLabelled, TemplatesLabelled;
    hide PodShape, CursorOk, Truthful;
  }

  // A temporary claim that is bound stays bound to its volume.
  ghost predicate TempsBound(w: World, w': World) {
    forall u :: Temp(u) in w.claims && Temp(u) in w'.claims && w.claims[Temp(u)].pv.Some? ==>
      w'.claims[Temp(u)].pv == w.claims[Temp(u)].pv
  }

  lemma MoveKeepsTemps(w: World, m: Move)
    requires CanMove(w, m)
    ensures TempsBound(w, Moved(w, m))
  {
    hide Reclaimed, Written;
  }

  // What stays put across a move that keeps every hypothesis.
  ghost predicate Steady(w: World, w': World, u: Unit, n: PvName) {
    && Untouched(w, w', u, n) && Active(w', u) && HomeHeld(w', u) && TempsBound(w, w')
    && KeepsPods(w, w') && KeepsClaims(w, w') && w'.book.home == w.book.home
  }

  lemma SealedSteady(w: World, m: Move, u: Unit, n: PvName)
    requires CanMove(w, m) && Inv(w) && Inv(Moved(w, m))
    requires Sound(w) && Sealed(w, u, n) && Active(w, u) && HomeHeld(w, u)
    ensures Steady(w, Moved(w, m), u, n)
  {
    hide Safe, Placed, SoleTemp, Excluded, Kept, Moved, CanMove, Sealed, Active, HomeHeld, KeepsPods;
    hide KeepsClaims, Untouched, Sound, TempsBound;
    MoveQuieter(w, m);
    MoveKeepsPods(w, m);
    MoveKeepsClaims(w, m);
    MoveKeepsTemps(w, m);
    SealedMove(w, u, n, m);
    SoundAsBefore(w, m);
    HomeHeldMove(w, u, m);
    ActiveMove(w, u, m);
  }

  lemma ReadyStays(w: World, w': World, u: Unit, n: PvName)
    requires Ready(w, u, n) && Steady(w, w', u, n)
    ensures Ready(w', u, n)
  {
    assert Quiet(w', u.replica) && Done(w', u);
    assert NoTemp(w, u) ==> NoTemp(w', u);
    hide Active, HomeHeld, Quiet, Done, KeepsPods, Retained;
  }

  lemma StagedStays(w: World, w': World, u: Unit, n: PvName)
    requires Staged(w, u, n) && Steady(w, w', u, n)
    ensures Staged(w', u, n)
  {
    assert Quiet(w', u.replica) && Done(w', u) && Retained(w', n);
    assert NoTemp(w, u) ==> NoTemp(w', u);
    hide Active, HomeHeld, Quiet, Done, KeepsPods;
  }

  lemma SoundAsBefore(w: World, m: Move)
    requires CanMove(w, m)
    ensures Sound(Moved(w, m)) <==> Sound(w)
  {
    MoveQuieter(w, m);
    hide Moved, CanMove;
  }

  lemma MoveKeepsReady(w: World, m: Move, u: Unit, copy: Option<PvName>)
    requires CanMove(w, m) && Inv(w) && Inv(Moved(w, m)) && ReadyIf(w, u, copy)
    ensures ReadyIf(Moved(w, m), u, copy)
  {
    SoundAsBefore(w, m);
    MoveKeepsClaims(w, m);
    hide Safe, Placed, SoleTemp, Excluded, Kept, Moved, CanMove, Sealed, Steady, Sound, TempGoing, NameFree, Retained;
    if Sound(w) && copy.Some? {
      SealedWhenReady(w, u, copy.value);
      SealedSteady(w, m, u, copy.value);
      ReadyStays(w, Moved(w, m), u, copy.value);
    }
    hide Ready, NoTemp;
  }

  lemma MoveKeepsStaged(w: World, m: Move, u: Unit, n: PvName)
    requires CanMove(w, m) && Inv(w) && Inv(Moved(w, m)) && StagedIf(w, u, n)
    ensures StagedIf(Moved(w, m), u, n)
  {
    hide Safe, Placed, SoleTemp, Excluded, Kept, Moved, CanMove, Sealed, Steady, Sound;
    SoundAsBefore(w, m);
    if Sound(w) {
      SealedWhenStaged(w, u, n);
      SealedSteady(w, m, u, n);
      StagedStays(w, Moved(w, m), u, n);
    }
  }

  lemma MoveKeepsLoose(w: World, m: Move, u: Unit, n: PvName)
    requires CanMove(w, m) && Inv(w) && Inv(Moved(w, m)) && LooseIf(w, u, n)
    ensures LooseIf(Moved(w, m), u, n)
  {
    hide Safe, Placed, SoleTemp, Excluded, Kept, Moved, CanMove, Sealed, Staged, Sound;
    SoundAsBefore(w, m);
    if Sound(w) {
      MoveKeepsStaged(w, m, u, n);
      SealedWhenStaged(w, u, n);
      assert Active(w, u) && HomeHeld(w, u) by { LooseIsStaged(w, u, n); }
      SealedSteady(w, m, u, n);
      LooseStays(w, Moved(w, m), u, n);
    }
  }

  lemma LooseIsStaged(w: World, u: Unit, n: PvName)
    requires Loose(w, u, n)
    ensures Active(w, u) && HomeHeld(w, u)
  {
  }

  lemma LooseStays(w: World, w': World, u: Unit, n: PvName)
    requires Loose(w, u, n) && Steady(w, w', u, n) && StagedIf(w', u, n) && Sound(w')
    ensures Loose(w', u, n)
  {
    hide Active, HomeHeld, Quiet, Done, KeepsPods, KeepsClaims, Sound, NotHome;
  }

  // No move creates an original claim or takes its volume away.
  lemma MoveKeepsGaps(w: World, m: Move)
    requires Inv(w) && CanMove(w, m)
    ensures Held(w) ==> Held(Moved(w, m))
    ensures forall u :: MissingIf(w, u) ==> MissingIf(Moved(w, m), u)
  {
    MoveQuieter(w, m);
    if Stable(w) {
      if m.StsPod? {
        StsPodCreatesNoClaim(w, m.replica) by { hide Safe, Placed, SoleTemp, Excluded, Kept; }
      } else {
        hide Inv;
        HeldMove(w, m);
      }
    }
    hide Inv, CanMove, Moved, AllHeld;
  }

  lemma HeldMove(w: World, m: Move)
    requires CanMove(w, m) && !m.StsPod?
    ensures AllHeld(w.claims, w.pvs) ==> AllHeld(Moved(w, m).claims, Moved(w, m).pvs)
    ensures forall u :: Absent(w, u) ==> Absent(Moved(w, m), u)
  {
  }

  lemma MoveRelied(w: World, m: Move)
    requires Inv(w) && CanMove(w, m)
    ensures Relied(w, Moved(w, m)) && Inv(Moved(w, m))
  {
    InvAction(w, Env(m)) by { hide Inv, CanMove, Moved; }
    hide Inv, CanMove, Moved, Quieter, KeepsPods, KeepsClaims, KeepsCopies;
    MoveQuieter(w, m);
    MoveKeepsPods(w, m);
    MoveKeepsClaims(w, m);
    MoveKeepsCopies(w, m);
  }

  lemma MoveKeepsCopies(w: World, m: Move)
    requires Inv(w) && CanMove(w, m) && Inv(Moved(w, m))
    ensures KeepsCopies(w, Moved(w, m))
  {
    hide Inv, CanMove, Moved, ReadyIf, StagedIf, LooseIf, Held, MissingIf;
    var w' := Moved(w, m);
    MoveKeepsGaps(w, m);
    forall u, n | ReadyIf(w, u, n) ensures ReadyIf(w', u, n) { MoveKeepsReady(w, m, u, n); }
    forall u, n | StagedIf(w, u, n) ensures StagedIf(w', u, n) { MoveKeepsStaged(w, m, u, n); }
    forall u, n | LooseIf(w, u, n) ensures LooseIf(w', u, n) { MoveKeepsLoose(w, m, u, n); }
  }
}
