/**
  Where the application's data is. Under all hypotheses each unit has a home
  volume that holds what the application last wrote; the original claim, when
  it exists, names the home; and a home whose claim is going or gone is retained.
 */
module Custody {
  import opened Types
  import opened Enumeration
  import opened Protocol
  import opened Safety
  import opened Placement

  type Homes = map<Unit, PvName>

  ghost predicate Apart(home: Homes, n: PvName) {
    forall u :: u in home ==> home[u] != n
  }

  ghost predicate HomeData(home: Homes, latest: map<Unit, Data>, pvs: map<PvName, Pv>) {
    forall u :: u in home ==> home[u] in pvs && u in latest && pvs[home[u]].data == latest[u]
  }

  ghost predicate HomeNamed(home: Homes, claims: map<ClaimKey, Claim>) {
    forall u :: u in home && Orig(u) in claims ==> claims[Orig(u)].pv == Some(home[u])
  }

  ghost predicate HomeRetained(home: Homes, claims: map<ClaimKey, Claim>, pvs: map<PvName, Pv>) {
    forall u :: u in home && AbsentIn(claims, u) ==> home[u] in pvs && pvs[home[u]].policy == Retain
  }

  ghost predicate HomeInjective(home: Homes) {
    forall u, u' :: u in home && u' in home && home[u] == home[u'] ==> u == u'
  }

  // A home without claimRef is named by a living claim that is yet to bind.
  ghost predicate HomeRef(home: Homes, claims: map<ClaimKey, Claim>, pvs: map<PvName, Pv>) {
    forall u :: u in home && home[u] in pvs ==>
      || pvs[home[u]].claimRef == Some(Orig(u))
      || (pvs[home[u]].claimRef == None && !AbsentIn(claims, u) && !claims[Orig(u)].bound)
  }

  ghost predicate TempRef(home: Homes, claims: map<ClaimKey, Claim>, pvs: map<PvName, Pv>) {
    forall k :: k in claims && k.Temp? && claims[k].pv.Some? ==>
      && claims[k].pv.value in pvs && pvs[claims[k].pv.value].claimRef == Some(k)
      && Apart(home, claims[k].pv.value)
  }

  // An application pod mounts homes.
  ghost predicate AppKept(home: Homes, mounts: map<ClaimKey, PvName>) {
    forall k :: k in mounts ==> k.unit in home && mounts[k] == home[k.unit]
  }

  // A temporary claim waits for its volume only while every original claim holds
  // its own, so there is no other claim's volume for it to take.
  ghost predicate HeldForTemps(claims: map<ClaimKey, Claim>, pvs: map<PvName, Pv>) {
    forall k :: k in claims && k.Temp? && claims[k].pv == None ==> AllHeld(claims, pvs)
  }

  // A migrator pod that may still write, or whose temporary claim is still there.
  predicate InPlay(claims: map<ClaimKey, Claim>, pod: Pod, u: Unit) {
    !Finished(pod) || Temp(u) in claims
  }

  // It mounts the volume its temporary claim names, which is not being deleted while
  // the pod may write.
  ghost predicate Tied(claims: map<ClaimKey, Claim>, u: Unit, pod: Pod) {
    Temp(u) in pod.mounts ==>
      && Temp(u) in claims && claims[Temp(u)].pv == Some(pod.mounts[Temp(u)])
      && (!Finished(pod) ==> !claims[Temp(u)].terminating)
  }

  // Once it succeeded that volume holds the latest data.
  ghost predicate Carries(latest: map<Unit, Data>, pvs: map<PvName, Pv>, u: Unit, pod: Pod) {
    pod.phase == PodSucceeded ==>
      && Orig(u) in pod.mounts && Temp(u) in pod.mounts
      && pod.mounts[Temp(u)] in pvs && u in latest && pvs[pod.mounts[Temp(u)]].data == latest[u]
  }

  // A migrator in play reads the home of its unit, whose claim is there, and writes
  // apart from every home.
  ghost predicate MigKept(
    home: Homes, latest: map<Unit, Data>, claims: map<ClaimKey, Claim>, pvs: map<PvName, Pv>,
    swept: bool, u: Unit, pod: Pod)
  {
    && u in home
    && (Orig(u) in pod.mounts ==>
          && pod.mounts[Orig(u)] == home[u] && !AbsentIn(claims, u)
          && home[u] in pvs && pvs[home[u]].claimRef == Some(Orig(u)))
    && (Temp(u) in pod.mounts ==> Apart(home, pod.mounts[Temp(u)]))
    && (!swept ==> Tied(claims, u, pod) && Carries(latest, pvs, u, pod))
  }

  ghost predicate MigAt(claims: map<ClaimKey, Claim>, pods: map<PodKey, Pod>, st: Status) {
    forall p :: p in pods && p.Mig? && InPlay(claims, pods[p], p.unit) ==> AtCursorIn(st, p.unit)
  }

  ghost predicate Housed(home: Homes, latest: map<Unit, Data>, claims: map<ClaimKey, Claim>, pvs: map<PvName, Pv>) {
    && HomeData(home, latest, pvs)
    && HomeNamed(home, claims)
    && HomeRetained(home, claims, pvs)
    && HomeInjective(home)
    && HomeRef(home, claims, pvs)
    && TempRef(home, claims, pvs)
    && HeldForTemps(claims, pvs)
  }

  // Application pods mount homes; a migrator in play excludes those of its replica.
  ghost predicate Crewed(
    home: Homes, latest: map<Unit, Data>, claims: map<ClaimKey, Claim>, pvs: map<PvName, Pv>,
    pods: map<PodKey, Pod>, sts: Option<Sts>, swept: bool)
  {
    && (forall p :: p in pods && p.App? ==> AppKept(home, pods[p].mounts))
    && (forall u :: Mig(u) in pods && InPlay(claims, pods[Mig(u)], u) ==>
          && sts == None && App(u.replica) !in pods
          && MigKept(home, latest, claims, pvs, swept, u, pods[Mig(u)]))
  }

  ghost predicate Kept(w: World) {
    Sound(w) ==>
      && w.book.home.Keys == w.past.first.Keys
      && Housed(w.book.home, w.book.latest, w.claims, w.pvs)
      && Crewed(w.book.home, w.book.latest, w.claims, w.pvs, w.pods, w.sts, w.book.swept)
      && (Attended(w) ==> MigAt(w.claims, w.pods, w.vr.value.status))
  }

  // Pods keep what they rely on when homes keep their holder, temporary claims their
  // volume and its content, and no migrator comes into play.
  lemma CrewedFrame(
    home: Homes, latest: map<Unit, Data>, claims: map<ClaimKey, Claim>, pvs: map<PvName, Pv>,
    pods: map<PodKey, Pod>, sts: Option<Sts>, swept: bool, claims': map<ClaimKey, Claim>, pvs': map<PvName, Pv>)
    requires Crewed(home, latest, claims, pvs, pods, sts, swept)
    requires forall u :: u in home && home[u] in pvs && pvs[home[u]].claimRef == Some(Orig(u)) ==>
               home[u] in pvs' && pvs'[home[u]].claimRef == Some(Orig(u))
    requires forall u :: Temp(u) in claims && !claims[Temp(u)].terminating ==>
               Temp(u) in claims' && !claims'[Temp(u)].terminating
    requires forall u :: Temp(u) in claims' && Mig(u) in pods ==> Temp(u) in claims
    requires forall u :: Temp(u) in claims && Temp(u) in claims' && claims[Temp(u)].pv.Some? ==>
               && claims'[Temp(u)].pv == claims[Temp(u)].pv
               && (claims[Temp(u)].pv.value in pvs ==>
                     && claims[Temp(u)].pv.value in pvs'
                     && pvs'[claims[Temp(u)].pv.value].data == pvs[claims[Temp(u)].pv.value].data)
    requires forall u :: AbsentIn(claims', u) ==> AbsentIn(claims, u)
    ensures Crewed(home, latest, claims', pvs', pods, sts, swept)
  {
    forall u | Mig(u) in pods && InPlay(claims', pods[Mig(u)], u)
      ensures sts == None && App(u.replica) !in pods
      ensures MigKept(home, latest, claims', pvs', swept, u, pods[Mig(u)])
    {
      MigFrame(home, latest, claims, pvs, swept, u, pods[Mig(u)], claims', pvs');
    }
    hide MigKept, AppKept;
  }

  lemma MigFrame(
    home: Homes, latest: map<Unit, Data>, claims: map<ClaimKey, Claim>, pvs: map<PvName, Pv>,
    swept: bool, u: Unit, pod: Pod, claims': map<ClaimKey, Claim>, pvs': map<PvName, Pv>)
    requires MigKept(home, latest, claims, pvs, swept, u, pod)
    requires home[u] in pvs && pvs[home[u]].claimRef == Some(Orig(u)) ==>
               home[u] in pvs' && pvs'[home[u]].claimRef == Some(Orig(u))
    requires Temp(u) in claims && !claims[Temp(u)].terminating ==>
               Temp(u) in claims' && !claims'[Temp(u)].terminating
    requires !Finished(pod) || Temp(u) in claims'
    requires Temp(u) in claims && Temp(u) in claims' && claims[Temp(u)].pv.Some? ==>
               && claims'[Temp(u)].pv == claims[Temp(u)].pv
               && (claims[Temp(u)].pv.value in pvs ==>
                     && claims[Temp(u)].pv.value in pvs'
                     && pvs'[claims[Temp(u)].pv.value].data == pvs[claims[Temp(u)].pv.value].data)
    requires AbsentIn(claims', u) ==> AbsentIn(claims, u)
    ensures MigKept(home, latest, claims', pvs', swept, u, pod)
  {
    hide AbsentIn;
  }

  lemma MigAtFrame(claims: map<ClaimKey, Claim>, claims': map<ClaimKey, Claim>, pods: map<PodKey, Pod>, st: Status)
    requires MigAt(claims, pods, st)
    requires forall u :: Temp(u) in claims' && Mig(u) in pods ==> Temp(u) in claims
    ensures MigAt(claims', pods, st)
  {
    hide AtCursorIn;
  }

  // A pod that changes need be checked alone.
  lemma CrewedApp(
    home: Homes, latest: map<Unit, Data>, claims: map<ClaimKey, Claim>, pvs: map<PvName, Pv>,
    pods: map<PodKey, Pod>, sts: Option<Sts>, swept: bool, r: nat, pod: Pod)
    requires Crewed(home, latest, claims, pvs, pods, sts, swept) && AppKept(home, pod.mounts)
    requires App(r) in pods || sts.Some?
    ensures Crewed(home, latest, claims, pvs, pods[App(r) := pod], sts, swept)
  {
    hide MigKept, AppKept;
  }

  lemma CrewedMig(
    home: Homes, latest: map<Unit, Data>, claims: map<ClaimKey, Claim>, pvs: map<PvName, Pv>,
    pods: map<PodKey, Pod>, sts: Option<Sts>, swept: bool, u: Unit, pod: Pod)
    requires Crewed(home, latest, claims, pvs, pods, sts, swept)
    requires InPlay(claims, pod, u) ==>
               sts == None && App(u.replica) !in pods && MigKept(home, latest, claims, pvs, swept, u, pod)
    ensures Crewed(home, latest, claims, pvs, pods[Mig(u) := pod], sts, swept)
  {
    hide MigKept, AppKept;
  }

  /** Moves */

  // A claim that binds takes its own home, or a volume apart from all homes.
  lemma BindTarget(w: World, k: ClaimKey, n: PvName, policy: Policy)
    requires Placed(w) && Kept(w) && Sound(w) && CanMove(w, Bind(k, n, policy))
    ensures k.Orig? ==> k.unit in w.book.home && w.book.home[k.unit] == n && n in w.pvs
    ensures k.Temp? ==> w.claims[k].pv == None && Apart(w.book.home, n)
  {
    hide Full, GapQuiet, GapAtCursor, Backed, Sized, MigAt, Crewed, HomeRetained, HomeInjective;
    if k.Temp? {
      forall u | u in w.book.home
        ensures w.book.home[u] != n
      {
        assert w.book.home[u] in w.pvs;
      }
    }
  }

  lemma HousedBindOrig(
    home: Homes, latest: map<Unit, Data>, claims: map<ClaimKey, Claim>, pvs: map<PvName, Pv>, u: Unit)
    requires Housed(home, latest, claims, pvs) && u in home && Orig(u) in claims
    ensures Housed(home, latest, claims[Orig(u) := claims[Orig(u)].(pv := Some(home[u]), bound := true)],
                   pvs[home[u] := pvs[home[u]].(claimRef := Some(Orig(u)))])
  {
    AbsentAfter(claims, Orig(u), claims[Orig(u)].(pv := Some(home[u]), bound := true));
  }

  lemma HousedBindTemp(
    home: Homes, latest: map<Unit, Data>, claims: map<ClaimKey, Claim>, pvs: map<PvName, Pv>, u: Unit, n: PvName, pv: Pv)
    requires Housed(home, latest, claims, pvs) && Apart(home, n)
    requires Temp(u) in claims && claims[Temp(u)].pv == None
    requires n in pvs ==> pvs[n].claimRef == None
    requires pv.claimRef == Some(Temp(u))
    ensures Housed(home, latest, claims[Temp(u) := claims[Temp(u)].(pv := Some(n), bound := true)], pvs[n := pv])
  {
    AbsentAfter(claims, Temp(u), claims[Temp(u)].(pv := Some(n), bound := true));
    hide AbsentIn;
  }

  lemma CrewedBound(w: World, k: ClaimKey, n: PvName, pv: Pv)
    requires Crewed(w.book.home, w.book.latest, w.claims, w.pvs, w.pods, w.sts, w.book.swept)
    requires k in w.claims && (k.Temp? ==> w.claims[k].pv == None)
    requires n in w.pvs ==> w.pvs[n].claimRef == None && pv.data == w.pvs[n].data
    ensures Crewed(w.book.home, w.book.latest, w.claims[k := w.claims[k].(pv := Some(n), bound := true)],
                   w.pvs[n := pv], w.pods, w.sts, w.book.swept)
  {
    var claims := w.claims[k := w.claims[k].(pv := Some(n), bound := true)];
    AbsentAfter(w.claims, k, claims[k]);
    hide Crewed, AbsentIn;
    CrewedFrame(w.book.home, w.book.latest, w.claims, w.pvs, w.pods, w.sts, w.book.swept, claims, w.pvs[n := pv]);
  }

  lemma CrewedBind(w: World, k: ClaimKey, n: PvName, policy: Policy)
    requires Placed(w) && Kept(w) && Sound(w) && CanMove(w, Bind(k, n, policy))
    ensures var w' := Moved(w, Bind(k, n, policy));
            Crewed(w.book.home, w.book.latest, w'.claims, w'.pvs, w.pods, w.sts, w.book.swept)
  {
    BindTarget(w, k, n, policy);
    hide Placed, Housed, Crewed, Sound, MigAt;
    CrewedBound(w, k, n, Moved(w, Bind(k, n, policy)).pvs[n]);
  }

  lemma KeptBind(w: World, k: ClaimKey, n: PvName, policy: Policy)
    requires Placed(w) && Kept(w) && CanMove(w, Bind(k, n, policy))
    ensures Kept(Moved(w, Bind(k, n, policy)))
  {
    var w' := Moved(w, Bind(k, n, policy));
    if Sound(w) {
      BindTarget(w, k, n, policy);
      CrewedBind(w, k, n, policy);
      match k {
        case Orig(u) => HousedBindOrig(w.book.home, w.book.latest, w.claims, w.pvs, u);
        case Temp(u) => HousedBindTemp(w.book.home, w.book.latest, w.claims, w.pvs, u, n, w'.pvs[n]);
      }
    }
    hide Placed, Housed, Crewed, MigAt;
  }

  lemma HousedClaimGone(
    home: Homes, latest: map<Unit, Data>, claims: map<ClaimKey, Claim>, pvs: map<PvName, Pv>, k: ClaimKey)
    requires Housed(home, latest, claims, pvs) && k in claims && claims[k].terminating
    ensures Housed(home, latest, claims - {k}, Reclaimed(pvs, k))
  {
  }

  lemma KeptClaimGone(w: World, k: ClaimKey)
    requires Kept(w) && CanMove(w, ClaimGone(k))
    ensures Kept(Moved(w, ClaimGone(k)))
  {
    if Sound(w) {
      HousedClaimGone(w.book.home, w.book.latest, w.claims, w.pvs, k);
      assert TempRef(w.book.home, w.claims, w.pvs) && HomeData(w.book.home, w.book.latest, Reclaimed(w.pvs, k));
      CrewedFrame(w.book.home, w.book.latest, w.claims, w.pvs, w.pods, w.sts, w.book.swept,
        Moved(w, ClaimGone(k)).claims, Moved(w, ClaimGone(k)).pvs);
    }
    hide Housed, Crewed, MigAt;
  }

  lemma CrewedPodGone(
    home: Homes, latest: map<Unit, Data>, claims: map<ClaimKey, Claim>, pvs: map<PvName, Pv>,
    pods: map<PodKey, Pod>, sts: Option<Sts>, swept: bool, p: PodKey)
    requires Crewed(home, latest, claims, pvs, pods, sts, swept) && p in pods
    ensures Crewed(home, latest, claims, pvs, pods - {p}, sts, swept)
  {
    hide MigKept, AppKept;
  }

  lemma KeptPodGone(w: World, p: PodKey)
    requires Kept(w) && CanMove(w, PodGone(p))
    ensures Kept(Moved(w, PodGone(p)))
  {
    if Sound(w) {
      CrewedPodGone(w.book.home, w.book.latest, w.claims, w.pvs, w.pods, w.sts, w.book.swept, p);
    }
    hide Housed, Crewed;
  }

  // A started pod mounts what its claims name.
  function Mounts(claims: map<ClaimKey, Claim>, pod: Pod): map<ClaimKey, PvName>
    requires forall k :: k in pod.claims ==> k in claims && claims[k].pv.Some?
  {
    map k | k in pod.claims :: claims[k].pv.value
  }

  lemma KeptPodStart(w: World, p: PodKey)
    requires Safe(w) && Placed(w) && Kept(w) && CanMove(w, PodStart(p))
    ensures Kept(Moved(w, PodStart(p)))
  {
    hide Safe, Placed, Kept, CanMove, Moved;
    match p
    case App(r) => KeptAppStart(w, r);
    case Mig(u) => KeptMigStart(w, u);
  }

  lemma CrewedAppStart(
    home: Homes, latest: map<Unit, Data>, claims: map<ClaimKey, Claim>, pvs: map<PvName, Pv>,
    pods: map<PodKey, Pod>, sts: Option<Sts>, swept: bool, past: Origin, r: nat)
    requires Crewed(home, latest, claims, pvs, pods, sts, swept) && HomeNamed(home, claims)
    requires Known(past, claims) && home.Keys == past.first.Keys
    requires App(r) in pods && PodShape(pods)
    requires forall k :: k in pods[App(r)].claims ==> k in claims && claims[k].pv.Some?
    ensures Crewed(home, latest, claims, pvs,
      pods[App(r) := pods[App(r)].(phase := PodRunning, mounts := Mounts(claims, pods[App(r)]))], sts, swept)
  {
    var pod := pods[App(r)];
    assert AppKept(home, Mounts(claims, pod)) by { hide Crewed; }
    hide AppKept, Crewed, Mounts;
    CrewedApp(home, latest, claims, pvs, pods, sts, swept, r, pod.(phase := PodRunning, mounts := Mounts(claims, pod)));
  }

  lemma KeptAppStart(w: World, r: nat)
    requires Safe(w) && Placed(w) && Kept(w) && CanMove(w, PodStart(App(r)))
    ensures Kept(Moved(w, PodStart(App(r))))
  {
    hide SpecOk, Recoverable, FirstKept, TempsAside, MountsAside, ClaimsLabelled, PodsLabelled;
    hide TemplatesLabelled, PodShape, CursorOk, Truthful;
    hide Full, Known, GapQuiet, GapAtCursor, Backed, Sized, Crewed, HomeData, HomeNamed, HomeRetained;
    hide HomeInjective, HomeRef, TempRef;
    if Sound(w) {
      CrewedAppStart(w.book.home, w.book.latest, w.claims, w.pvs, w.pods, w.sts, w.book.swept, w.past, r);
      assert Moved(w, PodStart(App(r))).pods
          == w.pods[App(r) := w.pods[App(r)].(phase := PodRunning, mounts := Mounts(w.claims, w.pods[App(r)]))];
    }
  }

  lemma CrewedMigStart(
    home: Homes, latest: map<Unit, Data>, claims: map<ClaimKey, Claim>, pvs: map<PvName, Pv>,
    pods: map<PodKey, Pod>, sts: Option<Sts>, swept: bool, u: Unit)
    requires Crewed(home, latest, claims, pvs, pods, sts, swept) && HomeNamed(home, claims)
    requires HomeRef(home, claims, pvs) && TempRef(home, claims, pvs) && HomeData(home, latest, pvs)
    requires Mig(u) in pods && !Finished(pods[Mig(u)]) && PodShape(pods)
    requires forall k :: k in pods[Mig(u)].claims ==>
               k in claims && claims[k].bound && claims[k].pv.Some? && !claims[k].terminating
    ensures Crewed(home, latest, claims, pvs,
      pods[Mig(u) := pods[Mig(u)].(phase := PodRunning, mounts := Mounts(claims, pods[Mig(u)]))], sts, swept)
  {
    var pod := pods[Mig(u)];
    assert Orig(u) in pod.claims && Temp(u) in pod.claims;
    assert MigKept(home, latest, claims, pvs, swept, u, pod);
    var started := pod.(phase := PodRunning, mounts := Mounts(claims, pod));
    assert MigKept(home, latest, claims, pvs, swept, u, started) by { hide Crewed, PodShape; }
    hide MigKept, HomeNamed, HomeRef, TempRef, HomeData, PodShape;
    CrewedMig(home, latest, claims, pvs, pods, sts, swept, u, started);
  }

  lemma KeptMigStart(w: World, u: Unit)
    requires Safe(w) && Kept(w) && CanMove(w, PodStart(Mig(u)))
    ensures Kept(Moved(w, PodStart(Mig(u))))
  {
    hide SpecOk, Recoverable, FirstKept, TempsAside, MountsAside, ClaimsLabelled, PodsLabelled;
    hide TemplatesLabelled, PodShape, CursorOk, Truthful;
    hide Crewed, HomeData, HomeNamed, HomeRetained, HomeInjective, HomeRef, TempRef;
    if Sound(w) {
      CrewedMigStart(w.book.home, w.book.latest, w.claims, w.pvs, w.pods, w.sts, w.book.swept, u);
      assert Moved(w, PodStart(Mig(u))).pods
          == w.pods[Mig(u) := w.pods[Mig(u)].(phase := PodRunning, mounts := Mounts(w.claims, w.pods[Mig(u)]))];
    }
  }

  lemma CrewedPodTurn(
    home: Homes, latest: map<Unit, Data>, claims: map<ClaimKey, Claim>, pvs: map<PvName, Pv>,
    pods: map<PodKey, Pod>, sts: Option<Sts>, swept: bool, p: PodKey, phase: PodPhase)
    requires Crewed(home, latest, claims, pvs, pods, sts, swept) && p in pods && !Finished(pods[p])
    requires phase == PodFailed || phase == PodUnknown || phase == PodRunning
    ensures Crewed(home, latest, claims, pvs, pods[p := pods[p].(phase := phase)], sts, swept)
  {
    match p
    case App(r) => CrewedApp(home, latest, claims, pvs, pods, sts, swept, r, pods[p].(phase := phase));
    case Mig(u) =>
      MigTurn(home, latest, claims, pvs, swept, u, pods[p], pods[p].(phase := phase));
      CrewedMig(home, latest, claims, pvs, pods, sts, swept, u, pods[p].(phase := phase));
    hide MigKept, AppKept;
  }

  // An unfinished migrator keeps its part in any phase but Succeeded.
  lemma MigTurn(
    home: Homes, latest: map<Unit, Data>, claims: map<ClaimKey, Claim>, pvs: map<PvName, Pv>,
    swept: bool, u: Unit, pod: Pod, pod': Pod)
    requires pod'.mounts == pod.mounts && !Finished(pod) && pod'.phase != PodSucceeded
    ensures MigKept(home, latest, claims, pvs, swept, u, pod) ==> MigKept(home, latest, claims, pvs, swept, u, pod')
  {
    hide AbsentIn, Apart;
  }

  lemma KeptPodTurn(w: World, p: PodKey, phase: PodPhase)
    requires Kept(w) && CanMove(w, PodTurn(p, phase))
    ensures Kept(Moved(w, PodTurn(p, phase)))
  {
    if Sound(w) {
      CrewedPodTurn(w.book.home, w.book.latest, w.claims, w.pvs, w.pods, w.sts, w.book.swept, p, phase);
    }
    hide Housed, Crewed;
  }

  lemma KeptStsPod(w: World, r: nat)
    requires Safe(w) && Placed(w) && Kept(w) && CanMove(w, StsPod(r))
    ensures Kept(Moved(w, StsPod(r)))
  {
    if Sound(w) {
      StsPodCreatesNoClaim(w, r);
      CrewedApp(w.book.home, w.book.latest, w.claims, w.pvs, w.pods, w.sts, w.book.swept,
        r, Moved(w, StsPod(r)).pods[App(r)]);
    }
    hide Safe, Placed, MissingClaims, PodClaims, Housed, Crewed;
  }

  lemma HousedAppWrite(
    home: Homes, latest: map<Unit, Data>, claims: map<ClaimKey, Claim>, pvs: map<PvName, Pv>, u: Unit, d: Data)
    requires Housed(home, latest, claims, pvs) && u in home
    ensures Housed(home, latest[u := d], claims, Written(pvs, home[u], d))
  {
  }

  lemma CrewedAppWrite(
    home: Homes, latest: map<Unit, Data>, claims: map<ClaimKey, Claim>, pvs: map<PvName, Pv>,
    pods: map<PodKey, Pod>, sts: Option<Sts>, swept: bool, u: Unit, d: Data)
    requires Crewed(home, latest, claims, pvs, pods, sts, swept) && App(u.replica) in pods
    requires u in home && home[u] in pvs
    ensures Crewed(home, latest[u := d], claims, Written(pvs, home[u], d), pods, sts, swept)
  {
    forall v | Mig(v) in pods && InPlay(claims, pods[Mig(v)], v)
      ensures MigKept(home, latest[u := d], claims, Written(pvs, home[u], d), swept, v, pods[Mig(v)])
    {
      MigAppWrite(home, latest, claims, pvs, swept, v, pods[Mig(v)], u, d);
    }
    hide MigKept, AppKept;
  }

  lemma MigAppWrite(
    home: Homes, latest: map<Unit, Data>, claims: map<ClaimKey, Claim>, pvs: map<PvName, Pv>,
    swept: bool, v: Unit, pod: Pod, u: Unit, d: Data)
    requires MigKept(home, latest, claims, pvs, swept, v, pod) && v != u && u in home && home[u] in pvs
    ensures MigKept(home, latest[u := d], claims, Written(pvs, home[u], d), swept, v, pod)
  {
    hide AbsentIn;
  }

  lemma KeptAppWrite(w: World, u: Unit, d: Data)
    requires Kept(w) && CanMove(w, AppWrite(u, d))
    ensures Kept(Moved(w, AppWrite(u, d)))
  {
    if Sound(w) {
      assert u in w.book.home && w.pods[App(u.replica)].mounts[Orig(u)] == w.book.home[u];
      HousedAppWrite(w.book.home, w.book.latest, w.claims, w.pvs, u, d);
      CrewedAppWrite(w.book.home, w.book.latest, w.claims, w.pvs, w.pods, w.sts, w.book.swept, u, d);
    }
    hide Housed, Crewed, MigAt;
  }

  lemma HousedMigWrite(
    home: Homes, latest: map<Unit, Data>, claims: map<ClaimKey, Claim>, pvs: map<PvName, Pv>, m: PvName, d: Data)
    requires Housed(home, latest, claims, pvs) && m in pvs && Apart(home, m)
    ensures Housed(home, latest, claims, Written(pvs, m, d))
  {
  }

  lemma CrewedMigWrite(
    home: Homes, latest: map<Unit, Data>, claims: map<ClaimKey, Claim>, pvs: map<PvName, Pv>,
    pods: map<PodKey, Pod>, sts: Option<Sts>, swept: bool, u: Unit, d: Data)
    requires Crewed(home, latest, claims, pvs, pods, sts, swept) && TempRef(home, claims, pvs)
    requires Mig(u) in pods && !Finished(pods[Mig(u)]) && Temp(u) in pods[Mig(u)].mounts
    requires pods[Mig(u)].mounts[Temp(u)] in pvs
    ensures Crewed(home, latest, claims, Written(pvs, pods[Mig(u)].mounts[Temp(u)], d), pods, sts, swept)
  {
    var m := pods[Mig(u)].mounts[Temp(u)];
    forall v | Mig(v) in pods && InPlay(claims, pods[Mig(v)], v)
      ensures MigKept(home, latest, claims, Written(pvs, m, d), swept, v, pods[Mig(v)])
    {
      MigMigWrite(home, latest, claims, pvs, swept, v, pods[Mig(v)], u, pods[Mig(u)], d);
    }
    hide MigKept, AppKept;
  }

  // A migrator writes to no other migrator's destination.
  lemma MigMigWrite(
    home: Homes, latest: map<Unit, Data>, claims: map<ClaimKey, Claim>, pvs: map<PvName, Pv>,
    swept: bool, v: Unit, pod: Pod, u: Unit, writer: Pod, d: Data)
    requires MigKept(home, latest, claims, pvs, swept, v, pod) && MigKept(home, latest, claims, pvs, swept, u, writer)
    requires TempRef(home, claims, pvs) && !Finished(writer) && (v == u ==> pod == writer)
    requires Temp(u) in writer.mounts && writer.mounts[Temp(u)] in pvs
    ensures MigKept(home, latest, claims, Written(pvs, writer.mounts[Temp(u)], d), swept, v, pod)
  {
    hide AbsentIn;
  }

  lemma KeptMigWrite(w: World, u: Unit, d: Data)
    requires Kept(w) && CanMove(w, MigWrite(u, d))
    ensures Kept(Moved(w, MigWrite(u, d)))
  {
    if Sound(w) {
      assert Apart(w.book.home, w.pods[Mig(u)].mounts[Temp(u)]);
      HousedMigWrite(w.book.home, w.book.latest, w.claims, w.pvs, w.pods[Mig(u)].mounts[Temp(u)], d);
      CrewedMigWrite(w.book.home, w.book.latest, w.claims, w.pvs, w.pods, w.sts, w.book.swept, u, d);
    }
    hide Housed, Crewed, MigAt;
  }

  lemma CrewedMigDone(
    home: Homes, latest: map<Unit, Data>, claims: map<ClaimKey, Claim>, pvs: map<PvName, Pv>,
    pods: map<PodKey, Pod>, sts: Option<Sts>, swept: bool, u: Unit)
    requires Crewed(home, latest, claims, pvs, pods, sts, swept) && HomeData(home, latest, pvs)
    requires Mig(u) in pods && !Finished(pods[Mig(u)]) && u in home && home[u] in pvs
    requires Orig(u) in pods[Mig(u)].mounts && Temp(u) in pods[Mig(u)].mounts
    requires pods[Mig(u)].mounts[Temp(u)] in pvs && pvs[pods[Mig(u)].mounts[Temp(u)]].data == pvs[home[u]].data
    ensures Crewed(home, latest, claims, pvs, pods[Mig(u) := pods[Mig(u)].(phase := PodSucceeded)], sts, swept)
  {
    var done := pods[Mig(u)].(phase := PodSucceeded);
    assert MigKept(home, latest, claims, pvs, swept, u, pods[Mig(u)]);
    assert MigKept(home, latest, claims, pvs, swept, u, done) by { hide Crewed, AbsentIn, Apart; }
    hide MigKept, HomeData;
    CrewedMig(home, latest, claims, pvs, pods, sts, swept, u, done);
  }

  lemma KeptMigDone(w: World, u: Unit)
    requires Kept(w) && CanMove(w, MigDone(u))
    ensures Kept(Moved(w, MigDone(u)))
  {
    var pod := w.pods[Mig(u)];
    var m := pod.mounts[Temp(u)];
    var d := w.pvs[pod.mounts[Orig(u)]].data;
    if Sound(w) {
      assert u in w.book.home && pod.mounts[Orig(u)] == w.book.home[u] && Apart(w.book.home, m);
      HousedMigWrite(w.book.home, w.book.latest, w.claims, w.pvs, m, d);
      CrewedMigWrite(w.book.home, w.book.latest, w.claims, w.pvs, w.pods, w.sts, w.book.swept, u, d);
      CrewedMigDone(w.book.home, w.book.latest, w.claims, Written(w.pvs, m, d), w.pods, w.sts, w.book.swept, u);
    }
    hide Housed, Crewed;
  }

  lemma KeptUserDelete(w: World)
    requires Kept(w) && CanMove(w, UserDelete)
    ensures Kept(Moved(w, UserDelete))
  {
    hide Housed, Crewed, MigAt;
  }

  /** Calls */

  lemma KeptPutStatus(w: World, t: Status)
    requires Safe(w) && Kept(w) && Guard(w, PutStatus(t))
    ensures Kept(Called(w, PutStatus(t)))
  {
    if Sound(w) {
      forall p | p in w.pods && p.Mig? && InPlay(w.claims, w.pods[p], p.unit)
        ensures AtCursorIn(t, p.unit)
      {
        CursorLeaves(w, t, p.unit);
      }
    }
    hide Safe, StatusStep, Housed, Crewed;
  }

  lemma HousedCreateTemp(
    home: Homes, latest: map<Unit, Data>, claims: map<ClaimKey, Claim>, pvs: map<PvName, Pv>, u: Unit, c: Claim)
    requires Housed(home, latest, claims, pvs) && c.pv == None && AllHeld(claims, pvs)
    ensures Housed(home, latest, claims[Temp(u) := c], pvs)
  {
    AbsentAfter(claims, Temp(u), c);
    hide AbsentIn;
  }

  lemma KeptCreateTemp(w: World, u: Unit, claim: Claim)
    requires Kept(w) && Guard(w, CreateClaim(Temp(u), claim))
    ensures Kept(Called(w, CreateClaim(Temp(u), claim)))
  {
    hide Housed, Crewed, MigAt, Staged, TargetOf;
    if Sound(Called(w, CreateClaim(Temp(u), claim))) {
      HousedCreateTemp(w.book.home, w.book.latest, w.claims, w.pvs, u, claim);
      CrewedFrame(w.book.home, w.book.latest, w.claims, w.pvs, w.pods, w.sts, w.book.swept,
        Called(w, CreateClaim(Temp(u), claim)).claims, Called(w, CreateClaim(Temp(u), claim)).pvs);
      if Attended(w) {
        MigAtFrame(w.claims, Called(w, CreateClaim(Temp(u), claim)).claims, w.pods, w.vr.value.status);
      }
    }
  }

  lemma HousedMove(
    home: Homes, latest: map<Unit, Data>, claims: map<ClaimKey, Claim>, pvs: map<PvName, Pv>, u: Unit, c: Claim)
    requires Housed(home, latest, claims, pvs) && u in home && Orig(u) !in claims
    requires c.pv.Some? && !c.terminating && !c.bound
    requires c.pv.value in pvs && pvs[c.pv.value].claimRef == None && Apart(home, c.pv.value)
    requires pvs[c.pv.value].data == latest[u]
    requires forall k :: k in claims ==> k.Orig?
    ensures Housed(home[u := c.pv.value], latest, claims[Orig(u) := c], pvs)
  {
    AbsentAfter(claims, Orig(u), c);
  }

  lemma CrewedMove(
    home: Homes, latest: map<Unit, Data>, claims: map<ClaimKey, Claim>, pvs: map<PvName, Pv>,
    pods: map<PodKey, Pod>, sts: Option<Sts>, swept: bool, u: Unit, c: Claim)
    requires Crewed(home, latest, claims, pvs, pods, sts, swept) && TempRef(home, claims, pvs) && PodShape(pods) && !swept
    requires u in home && App(u.replica) !in pods && (Mig(u) in pods ==> !InPlay(claims, pods[Mig(u)], u))
    requires c.pv.Some? && c.pv.value in pvs && pvs[c.pv.value].claimRef == None && !c.terminating
    ensures Crewed(home[u := c.pv.value], latest, claims[Orig(u) := c], pvs, pods, sts, swept)
  {
    var home', claims' := home[u := c.pv.value], claims[Orig(u) := c];
    forall p | p in pods && p.App?
      ensures AppKept(home', pods[p].mounts)
    {
      AppMove(home, pods, p.replica, u, c.pv.value);
    }
    forall v | Mig(v) in pods && InPlay(claims', pods[Mig(v)], v)
      ensures MigKept(home', latest, claims', pvs, swept, v, pods[Mig(v)])
    {
      MigMove(home, latest, claims, pvs, v, pods[Mig(v)], u, c);
    }
    hide MigKept, AppKept, PodShape, TempRef;
  }

  lemma AppMove(home: Homes, pods: map<PodKey, Pod>, r: nat, u: Unit, n: PvName)
    requires App(r) in pods && r != u.replica && PodShape(pods) && AppKept(home, pods[App(r)].mounts)
    ensures AppKept(home[u := n], pods[App(r)].mounts)
  {
  }

  lemma MigMove(
    home: Homes, latest: map<Unit, Data>, claims: map<ClaimKey, Claim>, pvs: map<PvName, Pv>,
    v: Unit, pod: Pod, u: Unit, c: Claim)
    requires MigKept(home, latest, claims, pvs, false, v, pod) && v != u && TempRef(home, claims, pvs)
    requires c.pv.Some? && c.pv.value in pvs && pvs[c.pv.value].claimRef == None
    ensures MigKept(home[u := c.pv.value], latest, claims[Orig(u) := c], pvs, false, v, pod)
  {
  }

  // With one temporary claim at most, at the cursor, none there means none at all.
  lemma OnlyOriginals(w: World, u: Unit)
    requires SoleTemp(w) && w.book.h1 && Active(w, u) && NoTemp(w, u)
    ensures forall k :: k in w.claims ==> k.Orig?
  {
    hide OneTemp, TempHeld, TempSized, CompletedAt;
  }

  lemma KeptCreateOrig(w: World, u: Unit, claim: Claim)
    requires Safe(w) && SoleTemp(w) && Kept(w) && Guard(w, CreateClaim(Orig(u), claim))
    ensures Kept(Called(w, CreateClaim(Orig(u), claim)))
  {
    hide SpecOk, Recoverable, FirstKept, TempsAside, MountsAside, ClaimsLabelled, PodsLabelled;
    hide TemplatesLabelled, PodShape, CursorOk, Truthful;
    hide Crewed, MigAt, HomeData, HomeNamed, HomeRetained, HomeInjective, HomeRef, TempRef, TargetOf;
    if Sound(w) {
      OnlyOriginals(w, u);
      HousedMove(w.book.home, w.book.latest, w.claims, w.pvs, u, claim);
      CrewedMove(w.book.home, w.book.latest, w.claims, w.pvs, w.pods, w.sts, w.book.swept, u, claim);
      MigAtFrame(w.claims, w.claims[Orig(u) := claim], w.pods, w.vr.value.status);
    }
  }

  lemma HousedDelete(
    home: Homes, latest: map<Unit, Data>, claims: map<ClaimKey, Claim>, pvs: map<PvName, Pv>, k: ClaimKey)
    requires Housed(home, latest, claims, pvs) && k in claims
    requires k.Orig? ==>
               && k.unit in home && home[k.unit] in pvs
               && pvs[home[k.unit]].claimRef == Some(k) && pvs[home[k.unit]].policy == Retain
    ensures Housed(home, latest, claims[k := claims[k].(terminating := true)], pvs)
  {
    AbsentAfter(claims, k, claims[k].(terminating := true));
    hide AbsentIn;
  }

  lemma CrewedDelete(
    home: Homes, latest: map<Unit, Data>, claims: map<ClaimKey, Claim>, pvs: map<PvName, Pv>,
    pods: map<PodKey, Pod>, sts: Option<Sts>, swept: bool, k: ClaimKey)
    requires Crewed(home, latest, claims, pvs, pods, sts, swept) && k in claims
    requires k.Orig? && Mig(k.unit) in pods ==> !InPlay(claims, pods[Mig(k.unit)], k.unit)
    requires k.Temp? && !swept && Mig(k.unit) in pods ==> Finished(pods[Mig(k.unit)])
    ensures Crewed(home, latest, claims[k := claims[k].(terminating := true)], pvs, pods, sts, swept)
  {
    var claims' := claims[k := claims[k].(terminating := true)];
    forall v | Mig(v) in pods && InPlay(claims', pods[Mig(v)], v)
      ensures MigKept(home, latest, claims', pvs, swept, v, pods[Mig(v)])
    {
      MigDelete(home, latest, claims, pvs, swept, v, pods[Mig(v)], k);
    }
    hide MigKept, AppKept;
  }

  lemma MigDelete(
    home: Homes, latest: map<Unit, Data>, claims: map<ClaimKey, Claim>, pvs: map<PvName, Pv>,
    swept: bool, v: Unit, pod: Pod, k: ClaimKey)
    requires MigKept(home, latest, claims, pvs, swept, v, pod) && k in claims && k != Orig(v)
    requires k == Temp(v) && !swept ==> Finished(pod)
    ensures MigKept(home, latest, claims[k := claims[k].(terminating := true)], pvs, swept, v, pod)
  {
  }

  lemma KeptDeleteClaim(w: World, k: ClaimKey)
    requires Kept(w) && Guard(w, DeleteClaim(k))
    ensures Kept(Called(w, DeleteClaim(k)))
  {
    hide Housed, Crewed, MigAt;
    if Sound(Called(w, DeleteClaim(k))) {
      HousedDelete(w.book.home, w.book.latest, w.claims, w.pvs, k);
      CrewedDelete(w.book.home, w.book.latest, w.claims, w.pvs, w.pods, w.sts, w.book.swept, k);
      MigAtFrame(w.claims, Called(w, DeleteClaim(k)).claims, w.pods, w.vr.value.status);
    }
  }

  lemma KeptSweepClaim(w: World, k: ClaimKey)
    requires Kept(w) && Guard(w, SweepClaim(k)) && k.Temp?
    ensures Kept(Called(w, SweepClaim(k)))
  {
    if Sound(w) {
      HousedDelete(w.book.home, w.book.latest, w.claims, w.pvs, k);
      CrewedSwept(w.book.home, w.book.latest, w.claims, w.pvs, w.pods, w.sts, w.book.swept);
      CrewedDelete(w.book.home, w.book.latest, w.claims, w.pvs, w.pods, w.sts, true, k);
    }
    hide Housed, Crewed, MigAt;
  }

  lemma HousedRetain(
    home: Homes, latest: map<Unit, Data>, claims: map<ClaimKey, Claim>, pvs: map<PvName, Pv>, n: PvName)
    requires Housed(home, latest, claims, pvs) && n in pvs
    ensures Housed(home, latest, claims, pvs[n := pvs[n].(policy := Retain)])
  {
  }

  lemma KeptRetain(w: World, n: PvName)
    requires Kept(w) && Guard(w, RetainPv(n))
    ensures Kept(Called(w, RetainPv(n)))
  {
    hide Housed, Crewed, MigAt;
    if Sound(w) {
      HousedRetain(w.book.home, w.book.latest, w.claims, w.pvs, n);
      CrewedFrame(w.book.home, w.book.latest, w.claims, w.pvs, w.pods, w.sts, w.book.swept,
        Called(w, RetainPv(n)).claims, Called(w, RetainPv(n)).pvs);
    }
  }

  lemma HousedRelease(
    home: Homes, latest: map<Unit, Data>, claims: map<ClaimKey, Claim>, pvs: map<PvName, Pv>, u: Unit, n: PvName)
    requires Housed(home, latest, claims, pvs) && n in pvs && Apart(home, n) && Temp(u) !in claims
    requires pvs[n].claimRef == None || pvs[n].claimRef == Some(Temp(u))
    ensures Housed(home, latest, claims, pvs[n := pvs[n].(claimRef := None)])
  {
  }

  lemma KeptRelease(w: World, u: Unit, n: PvName)
    requires Kept(w) && Guard(w, ReleasePv(u, n))
    ensures Kept(Called(w, ReleasePv(u, n)))
  {
    hide Housed, Crewed, MigAt;
    if Sound(Called(w, ReleasePv(u, n))) {
      assert Apart(w.book.home, n);
      HousedRelease(w.book.home, w.book.latest, w.claims, w.pvs, u, n);
      CrewedFrame(w.book.home, w.book.latest, w.claims, w.pvs, w.pods, w.sts, w.book.swept,
        Called(w, ReleasePv(u, n)).claims, Called(w, ReleasePv(u, n)).pvs);
    }
  }

  lemma CrewedNoMig(
    home: Homes, latest: map<Unit, Data>, claims: map<ClaimKey, Claim>, pvs: map<PvName, Pv>,
    pods: map<PodKey, Pod>, sts: Option<Sts>, swept: bool, sts': Option<Sts>)
    requires Crewed(home, latest, claims, pvs, pods, sts, swept)
    requires sts' == None || forall u :: Mig(u) in pods ==> !InPlay(claims, pods[Mig(u)], u)
    ensures Crewed(home, latest, claims, pvs, pods, sts', swept)
  {
    hide MigKept, AppKept;
  }

  lemma KeptStsCall(w: World, c: Call)
    requires Kept(w) && Guard(w, c) && (c.CreateSts? || c.DeleteSts? || c.CreateBackup?)
    ensures Kept(Called(w, c))
  {
    hide Housed, Crewed, CompletedAt;
    if Sound(w) && !c.CreateBackup? {
      if c.CreateSts? {
        assert forall u :: Mig(u) in w.pods && InPlay(w.claims, w.pods[Mig(u)], u) ==>
                 AtCursorIn(w.vr.value.status, u);
      }
      CrewedNoMig(w.book.home, w.book.latest, w.claims, w.pvs, w.pods, w.sts, w.book.swept, Called(w, c).sts);
    }
  }

  lemma CrewedCreatePod(
    home: Homes, latest: map<Unit, Data>, claims: map<ClaimKey, Claim>, pvs: map<PvName, Pv>,
    pods: map<PodKey, Pod>, sts: Option<Sts>, swept: bool, u: Unit, pod: Pod)
    requires Crewed(home, latest, claims, pvs, pods, sts, swept)
    requires u in home && sts == None && App(u.replica) !in pods && pod.mounts == map[] && pod.phase == PodPending
    ensures Crewed(home, latest, claims, pvs, pods[Mig(u) := pod], sts, swept)
  {
    assert MigKept(home, latest, claims, pvs, swept, u, pod) by { hide Crewed; }
    hide MigKept, Crewed;
    CrewedMig(home, latest, claims, pvs, pods, sts, swept, u, pod);
  }

  // The unit at the cursor has a home.
  lemma ActiveHome(w: World, u: Unit)
    requires Safe(w) && Placed(w) && Kept(w) && Sound(w) && Active(w, u)
    ensures u in w.book.home
  {
    ActiveUnit(w, u);
    hide Safe, Full, Known, GapQuiet, GapAtCursor, Backed, Sized, Housed, Crewed, MigAt, CompletedAt;
  }

  lemma KeptCreatePod(w: World, u: Unit, pod: Pod)
    requires Safe(w) && Placed(w) && Kept(w) && Guard(w, CreatePod(u, pod))
    ensures Kept(Called(w, CreatePod(u, pod)))
  {
    hide Safe, Placed, Housed, Crewed, CompletedAt, MigrationLabels;
    if Sound(w) {
      ActiveHome(w, u);
      CrewedCreatePod(w.book.home, w.book.latest, w.claims, w.pvs, w.pods, w.sts, w.book.swept, u, pod);
    }
  }

  lemma CrewedEndPod(
    home: Homes, latest: map<Unit, Data>, claims: map<ClaimKey, Claim>, pvs: map<PvName, Pv>,
    pods: map<PodKey, Pod>, sts: Option<Sts>, swept: bool, p: PodKey)
    requires Crewed(home, latest, claims, pvs, pods, sts, swept) && p in pods
    ensures Crewed(home, latest, claims, pvs, pods[p := pods[p].(terminating := true)], sts, swept)
  {
    var pod := pods[p].(terminating := true);
    match p
    case App(r) => CrewedApp(home, latest, claims, pvs, pods, sts, swept, r, pod);
    case Mig(u) =>
      MigEnd(home, latest, claims, pvs, swept, u, pods[p]);
      CrewedMig(home, latest, claims, pvs, pods, sts, swept, u, pod);
    hide MigKept, AppKept;
  }

  lemma MigEnd(
    home: Homes, latest: map<Unit, Data>, claims: map<ClaimKey, Claim>, pvs: map<PvName, Pv>,
    swept: bool, u: Unit, pod: Pod)
    ensures MigKept(home, latest, claims, pvs, swept, u, pod) ==>
              MigKept(home, latest, claims, pvs, swept, u, pod.(terminating := true))
  {
    hide AbsentIn, Apart;
  }

  lemma KeptEndPod(w: World, p: PodKey, c: Call)
    requires Kept(w) && Guard(w, c) && (c == DeletePod(p) || c == SweepPod(p))
    ensures Kept(Called(w, c))
  {
    hide Housed, Crewed;
    if Sound(w) {
      CrewedEndPod(w.book.home, w.book.latest, w.claims, w.pvs, w.pods, w.sts, w.book.swept, p);
      assert c.SweepPod? ==> Crewed(w.book.home, w.book.latest, w.claims, w.pvs, Called(w, c).pods, w.sts, true) by {
        CrewedSwept(w.book.home, w.book.latest, w.claims, w.pvs, Called(w, c).pods, w.sts, w.book.swept);
      }
    }
  }

  lemma CrewedSwept(
    home: Homes, latest: map<Unit, Data>, claims: map<ClaimKey, Claim>, pvs: map<PvName, Pv>,
    pods: map<PodKey, Pod>, sts: Option<Sts>, swept: bool)
    requires Crewed(home, latest, claims, pvs, pods, sts, swept)
    ensures Crewed(home, latest, claims, pvs, pods, sts, true)
  {
    forall u | Mig(u) in pods && InPlay(claims, pods[Mig(u)], u)
      ensures MigKept(home, latest, claims, pvs, true, u, pods[Mig(u)])
    {
      MigSwept(home, latest, claims, pvs, swept, u, pods[Mig(u)]);
    }
    hide MigKept, AppKept;
  }

  lemma MigSwept(
    home: Homes, latest: map<Unit, Data>, claims: map<ClaimKey, Claim>, pvs: map<PvName, Pv>,
    swept: bool, u: Unit, pod: Pod)
    requires MigKept(home, latest, claims, pvs, swept, u, pod)
    ensures MigKept(home, latest, claims, pvs, true, u, pod)
  {
  }

  lemma KeptRest(w: World, c: Call)
    requires Kept(w) && Guard(w, c) && (c.PutMeta? || c.BeginPass? || c.FallThrough?)
    ensures Kept(Called(w, c))
  {
    if Sound(w) {
      CrewedSwept(w.book.home, w.book.latest, w.claims, w.pvs, w.pods, w.sts, w.book.swept);
    }
    hide Housed, Crewed, MigAt;
  }

  /** Every run */

  lemma KeptStart(w: World)
    requires Start(w)
    ensures Kept(w)
  {
  }

  lemma KeptAction(w: World, a: Action)
    requires Safe(w) && Placed(w) && SoleTemp(w) && Kept(w) && Allowed(w, a)
    ensures Kept(Acted(w, a))
  {
    hide Safe, Placed, SoleTemp, Kept, CanMove, Guard, Moved, Called;
    match a
    case Env(Bind(k, n, policy)) => KeptBind(w, k, n, policy);
    case Env(ClaimGone(k)) => KeptClaimGone(w, k);
    case Env(PodGone(p)) => KeptPodGone(w, p);
    case Env(PodStart(p)) => KeptPodStart(w, p);
    case Env(PodTurn(p, phase)) => KeptPodTurn(w, p, phase);
    case Env(StsPod(r)) => KeptStsPod(w, r);
    case Env(AppWrite(u, d)) => KeptAppWrite(w, u, d);
    case Env(MigWrite(u, d)) => KeptMigWrite(w, u, d);
    case Env(MigDone(u)) => KeptMigDone(w, u);
    case Env(UserDelete) => KeptUserDelete(w);
    case Op(PutStatus(t)) => KeptPutStatus(w, t);
    case Op(CreateClaim(Temp(u), claim)) => KeptCreateTemp(w, u, claim);
    case Op(CreateClaim(Orig(u), claim)) => KeptCreateOrig(w, u, claim);
    case Op(DeleteClaim(k)) => KeptDeleteClaim(w, k);
    case Op(SweepClaim(k)) =>
      SweptIsTemp(w, k);
      KeptSweepClaim(w, k);
    case Op(RetainPv(n)) => KeptRetain(w, n);
    case Op(ReleasePv(u, n)) => KeptRelease(w, u, n);
    case Op(CreateBackup(_)) => KeptStsCall(w, a.call);
    case Op(DeleteSts) => KeptStsCall(w, a.call);
    case Op(CreateSts(_)) => KeptStsCall(w, a.call);
    case Op(CreatePod(u, pod)) => KeptCreatePod(w, u, pod);
    case Op(DeletePod(p)) => KeptEndPod(w, p, a.call);
    case Op(SweepPod(p)) => KeptEndPod(w, p, a.call);
    case Op(PutMeta(_, _, _)) => KeptRest(w, a.call);
    case Op(BeginPass) => KeptRest(w, a.call);
    case Op(FallThrough(_)) => KeptRest(w, a.call);
  }

  lemma {:induction false} KeptRun(w0: World, log: seq<Action>, w: World)
    requires Run(w0, log, w)
    ensures Kept(w)
  {
    if log == [] {
      KeptStart(w);
    } else {
      var n := |log| - 1;
      SafeRun(w0, log[..n], Exec(w0, log[..n]));
      PlacedRun(w0, log[..n], Exec(w0, log[..n]));
      KeptRun(w0, log[..n], Exec(w0, log[..n]));
      KeptAction(Exec(w0, log[..n]), log[n]);
    }
  }
}
