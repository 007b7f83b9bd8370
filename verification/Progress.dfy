/**
  What one fault-free pass achieves, as a measure: the passes still needed.
 */
module Progress {
  import opened Types
  import opened Enumeration
  import opened Protocol
  import opened Safety
  import opened Placement
  import opened Custody
  import opened Stages
  import opened Rely
  import opened Api
  import opened Work
  import opened Syncing
  import opened Validation
  import opened Handlers

  ghost function Total(w: World): nat {
    if w.past.sts0.Some? then Replicas(w.past.sts0.value) * |w.spec.volumes| else 0
  }

  // How far the unit at the cursor is: temporary claim there, swap recorded.
  ghost function SubStep(w: World, st: Status, u: Unit): nat {
    if CompletedAt(st.volumeStatuses, u) then 2 else if Alive(w, Temp(u)) then 1 else 0
  }

  // The passes still needed: one each for the finalizer, pending and validating,
  // then three for each unit.
  ghost function Steps(w: World): nat {
    if w.vr == None then 0
    else
      var v := w.vr.value;
      if !v.finalizer then 3 + 3 * Total(w)
      else
        match v.status.phase
        case PhaseEmpty => 2 + 3 * Total(w)
        case Pending => 2 + 3 * Total(w)
        case Validating => 1 + 3 * Total(w)
        case Syncing =>
          if Cursor(v.status) == None then 0
          else
            var u := Cursor(v.status).value;
            var left := 3 * Total(w) - 3 * Rank(w.spec.volumes, u) - SubStep(w, v.status, u);
            if left > 0 then left else 0
        case Replacing => 0
        case Completed => 0
        case Failed => 0
  }

  // The resource passes the gate, nothing has failed, and what the next pass
  // needs is there.
  ghost predicate Going(w: World, pdbs: seq<Pdb>) {
    && Undeleted(w) && Sound(w) && Consistent(w)
    && var st := w.vr.value.status;
       && st.phase != Failed
       && (if BeforeGate(st) then Gate(w, pdbs) else w.vr.value.finalizer)
       && (st.phase == Syncing && Cursor(st).Some? && !CompletedAt(st.volumeStatuses, Cursor(st).value) ==>
             Alive(w, Orig(Cursor(st).value)))
  }

  // Once a swap is recorded the StatefulSet is back.
  ghost predicate Back(w: World) {
    w.vr.Some? ==>
      var st := w.vr.value.status;
      && (st.phase == Completed ==> w.sts.Some?)
      && (st.phase == Syncing && Cursor(st).Some? && CompletedAt(st.volumeStatuses, Cursor(st).value) ==> w.sts.Some?)
  }

  // The temporary claim at the cursor, if there is one, is bound or of a class that
  // binds late, and every original claim holds the volume it names.
  ghost predicate ClaimsReady(w: World, late: set<string>) {
    w.vr.Some? && Cursor(w.vr.value.status).Some? ==>
      TempReady(w, late, Cursor(w.vr.value.status).value) && AllHeld(w.claims, w.pvs)
  }

  // The outcome of a pass.
  ghost predicate Nearer(w: World, w': World, pdbs: seq<Pdb>) {
    Going(w', pdbs) && TempsClear(w') && (Steps(w') < Steps(w) || Steps(w') == 0) && (Back(w) ==> Back(w'))
  }

  // None of this depends on the record of the passes begun.
  lemma BareApart(w: World, w': World, pdbs: seq<Pdb>, late: set<string>)
    requires SameButBare(w, w')
    ensures Going(w, pdbs) <==> Going(w', pdbs)
    ensures Steps(w') == Steps(w) && (Back(w) <==> Back(w')) && (ClaimsReady(w, late) <==> ClaimsReady(w', late))
    ensures (Undeleted(w) <==> Undeleted(w')) && (TempsClear(w) <==> TempsClear(w'))
  {
    hide CompletedAt, HasTemplate, BudgetsAllow, AllHeld, Rank;
    assert Gate(w, pdbs) <==> Gate(w', pdbs) by {
      assert forall t :: ShrinksFirst(w, t) <==> ShrinksFirst(w', t);
    }
    assert Total(w') == Total(w) && forall st, u :: SubStep(w', st, u) == SubStep(w, st, u);
    hide Gate, Total, SubStep, ShrinksFirst;
  }

  // The hypotheses are kept.
  lemma SoundAgain(w: World, w': World)
    requires Sound(w) && SameFlags(w, w') && w'.past == w.past
    ensures Sound(w')
  {
  }

  lemma GateSpan(w: World, w': World, pdbs: seq<Pdb>)
    requires Staging(w) && w.vr.Some? && BeforeGate(w.vr.value.status) && Gate(w, pdbs)
    requires Span(w, w', {}) && w'.sts == w.sts
    ensures Gate(w', pdbs)
  {
    SpanWorld(w, w', {});
    forall t | t in w.spec.volumes
      ensures ShrinksFirst(w', t)
    {
      assert Alive(w, Orig(Unit(0, t.name)));
    }
    hide Doubled, Full, FirstClaims, Span, HasTemplate, BudgetsAllow, ShrinksFirst;
  }

  lemma GoingRelied(w: World, w': World, pdbs: seq<Pdb>, late: set<string>)
    requires Staging(w) && Going(w, pdbs) && Relied(w, w') && Undeleted(w')
    ensures Going(w', pdbs) && Steps(w') <= Steps(w) && (Back(w) ==> Back(w'))
    ensures (ClaimsReady(w, late) ==> ClaimsReady(w', late)) && (TempsClear(w) ==> TempsClear(w'))
  {
    FrameFromRelied(w, w');
    if BeforeGate(w.vr.value.status) {
      GateSpan(w, w', pdbs);
    }
    SpanWorld(w, w', {});
    var st := w.vr.value.status;
    if Cursor(st).Some? {
      ReadyTempRelied(w, w', late, Cursor(st).value);
      ClearRelied(w, w', Cursor(st).value);
      HeldRelied(w, w');
      assert Stable(w) && Stable(w');
    }
    assert w'.vr.value == w.vr.value;
    SoundAgain(w, w');
    hide Relied, Staging, Gate, Span, CompletedAt, Rank, TempReady, Sound, AllHeld;
  }

  // A pass before the gate.
  lemma EarlyNearer(w: World, w': World, pdbs: seq<Pdb>)
    requires Staging(w) && Going(w, pdbs) && BeforeGate(w.vr.value.status) && Undeleted(w')
    requires Span(w, w', {}) && SameFlags(w, w') && SameMark(w, w') && w'.sts == w.sts && w'.vr.value.finalizer
    requires || (!w.vr.value.finalizer && w'.vr.value.status == w.vr.value.status)
             || (w.vr.value.finalizer && w.vr.value.status.phase != Validating && w'.vr.value.status.phase == Validating)
    ensures Nearer(w, w', pdbs)
  {
    GateSpan(w, w', pdbs);
    SpanWorld(w, w', {});
    SoundAgain(w, w');
    hide Staging, Gate, Span, Sound;
  }

  lemma FirstRank(volumes: seq<Target>)
    requires |volumes| > 0 && DistinctNames(volumes)
    ensures Rank(volumes, Unit(0, volumes[0].name)) == 0
  {
    IndexOfAt(volumes, 0);
  }

  lemma GateAlive(w: World, pdbs: seq<Pdb>, t: Target)
    requires Staging(w) && w.vr.Some? && BeforeGate(w.vr.value.status) && Gate(w, pdbs) && t in w.spec.volumes
    ensures Alive(w, Orig(Unit(0, t.name)))
  {
    assert ShrinksFirst(w, t);
    hide Doubled, Full, FirstClaims;
  }

  lemma LaunchKeeps(w: World, w': World, pdbs: seq<Pdb>)
    requires Safe(w) && Staging(w) && Going(w, pdbs) && InPhase(w, Validating) && Undeleted(w')
    requires Span(w, w', {}) && SameFlags(w, w') && SameMark(w, w') && w'.sts == w.sts
    ensures w'.spec == w.spec && w'.past == w.past && Sound(w') && Consistent(w') && w.sts.Some?
    ensures |w.spec.volumes| > 0 && DistinctNames(w.spec.volumes)
    ensures Alive(w', Orig(Unit(0, w.spec.volumes[0].name)))
  {
    GateOpen(w, pdbs);
    SafeSpec(w);
    hide Staging, Gate, Span, Safe, Alive, SameClaim, Sound, RetainedKept, DistinctNames;
    SpanWorld(w, w', {});
    SoundAgain(w, w');
    GateAlive(w, pdbs, w.spec.volumes[0]);
  }

  // The pass through the gate.
  lemma LaunchNearer(w: World, w': World, pdbs: seq<Pdb>)
    requires Safe(w) && Staging(w) && Going(w, pdbs) && InPhase(w, Validating) && Undeleted(w')
    requires Span(w, w', {}) && SameFlags(w, w') && SameMark(w, w') && w'.sts == w.sts && InPhase(w', Syncing)
    requires |w'.spec.volumes| > 0 && Cursor(w'.vr.value.status) == Some(Unit(0, w'.spec.volumes[0].name))
    requires NoMig(w', Unit(0, w'.spec.volumes[0].name))
    ensures Nearer(w, w', pdbs)
  {
    LaunchKeeps(w, w', pdbs);
    FirstRank(w.spec.volumes);
    hide Staging, Gate, Span, Safe, Rank, CompletedAt, Alive, Sound, Consistent, NoMig, SameFlags, DistinctNames;
  }

  lemma GateOpen(w: World, pdbs: seq<Pdb>)
    requires Going(w, pdbs) && InPhase(w, Validating)
    ensures Gate(w, pdbs) && w.sts.Some?
  {
    hide HasTemplate, ShrinksFirst, BudgetsAllow;
  }

  lemma SafeSpec(w: World)
    requires Safe(w)
    ensures DistinctNames(w.spec.volumes) && |w.spec.volumes| > 0
  {
  }

  // The claim of the next unit is there: claims are missing only at the cursor.
  lemma NextAlive(w: World, v: Vr, u: Unit, n: Unit)
    requires Inv(w) && Sound(w) && AtUnit(w, v, u)
    requires w.past.sts0.Some? && Replicas(w.past.sts0.value) > 0 && |w.spec.volumes| > 0
    requires Next(w.spec.volumes, Replicas(w.past.sts0.value) - 1, u) == Some(n)
    ensures n != u && Alive(w, Orig(n))
  {
    SafeOf(w) by { hide Safe, Placed, SoleTemp, Excluded, Kept; }
    UnitFacts(w, v, u) by { hide Safe, Placed, SoleTemp, Excluded, Kept; }
    NextRank(w.spec.volumes, Replicas(w.past.sts0.value), u);
    NextIsSuccessor(w.spec.volumes, Replicas(w.past.sts0.value), u);
    UnitClaimed(w, v, u, n);
    hide Safe, SoleTemp, Excluded, Kept, Full, Known, GapQuiet, Backed, Sized, Next, Rank, CompletedAt;
  }

  lemma UnitClaimed(w: World, v: Vr, u: Unit, n: Unit)
    requires Safe(w) && AtUnit(w, v, u) && Full(w.past) && IsUnit(w.spec.volumes, Replicas(w.past.sts0.value), n)
    ensures n in w.past.first
  {
    hide Recoverable, FirstKept, TempsAside, MountsAside, ClaimsLabelled, PodsLabelled, TemplatesLabelled;
    hide PodShape, Truthful, Ordered, Shrinks;
    var t := TargetOf(w.spec.volumes, n.volume);
    assert t in w.spec.volumes && HasTemplate(w.past.sts0.value, t.name);
    var s :| s in w.past.sts0.value.templates && s.name == t.name;
  }

  // Facts of the measure at a unit.
  lemma StepsAt(w: World, v: Vr, u: Unit)
    requires Safe(w) && AtUnit(w, v, u)
    ensures Total(w) > Rank(w.spec.volumes, u)
    ensures Steps(w) == 3 * Total(w) - 3 * Rank(w.spec.volumes, u) - SubStep(w, v.status, u)
  {
    UnitFacts(w, v, u);
    RankBound(w.spec.volumes, Replicas(w.past.sts0.value), u);
    hide Safe, Rank, CompletedAt, IsUnit, IsTarget, Units;
  }

  lemma StepsAfter(w: World, v: Vr, u: Unit, w': World)
    requires Safe(w) && AtUnit(w, v, u) && Advanced(w', u) && w'.spec == w.spec && w'.past == w.past
    ensures Steps(w') < Steps(w) || Steps(w') == 0
  {
    StepsAt(w, v, u);
    UnitFacts(w, v, u);
    NextRank(w.spec.volumes, Replicas(w.past.sts0.value), u);
    hide Safe, Rank, Next, CompletedAt, IsUnit, IsTarget, Units, Alive;
  }

  // A pass that moved the cursor on.
  lemma AdvanceNearer(w: World, w': World, v: Vr, u: Unit, pdbs: seq<Pdb>)
    requires Inv(w) && Sound(w') && AtUnit(w, v, u) && Going(w, pdbs) && Undeleted(w') && Consistent(w')
    requires Span(w, w', {Temp(u), Orig(u)}) && Advanced(w', u) && (Back(w) ==> w'.sts.Some?)
    ensures Nearer(w, w', pdbs)
  {
    hide Inv, Safe, Sound, AtUnit, Span, Alive, SameClaim, Steps, CompletedAt, Gate, Next;
    SpanWorld(w, w', {Temp(u), Orig(u)});
    SafeOf(w);
    StepsAfter(w, v, u, w');
    var next := Next(w.spec.volumes, Replicas(w'.past.sts0.value) - 1, u);
    if next.Some? {
      NextAlive(w, v, u, next.value);
    }
  }

  // A pass that left the unit where the next one finds it further on.
  lemma StayNearer(w: World, w': World, v: Vr, u: Unit, pdbs: seq<Pdb>)
    requires Safe(w) && Safe(w') && AtWork(w, v, u) && Going(w, pdbs) && Undeleted(w') && Sound(w') && Consistent(w')
    requires Span(w, w', {Temp(u), Orig(u)})
    requires || (Active(w', u) && Alive(w', Orig(u)) && NoTemp(w, u) && Alive(w', Temp(u)))
             || (AtCompleted(w') && Cursor(w'.vr.value.status) == Some(u) && w'.sts.Some?)
    ensures Nearer(w, w', pdbs)
  {
    AtWorkUnit(w, v, u);
    StepsAt(w, v, u);
    SpanWorld(w, w', {Temp(u), Orig(u)});
    assert AtUnit(w', w'.vr.value, u);
    StepsAt(w', w'.vr.value, u);
    hide Safe, AtUnit, Span, Steps, CompletedAt, Gate, Rank, Total;
  }

  lemma SyncNearer(w: World, w': World, v: Vr, u: Unit, pdbs: seq<Pdb>)
    requires Inv(w) && Safe(w') && AtUnit(w, v, u) && Going(w, pdbs) && Undeleted(w')
    requires Span(w, w', {Temp(u), Orig(u)}) && SameFlags(w, w')
    requires if CompletedAt(v.status.volumeStatuses, u)
             then Advanced(w', u) && w'.sts == w.sts && Consistent(w') else Progressed(w, w', u)
    ensures Nearer(w, w', pdbs)
  {
    SafeOf(w) by { hide Safe, Placed, SoleTemp, Excluded, Kept; }
    GoingAt(w, v, u, pdbs);
    SpanWorld(w, w', {Temp(u), Orig(u)});
    SoundAgain(w, w');
    hide Inv, Safe, Sound, AtUnit, Going, Consistent, Span, Nearer, CompletedAt, Active, AtCompleted;
    hide Advanced, Alive, NoTemp, Undeleted;
    if Advanced(w', u) && (Back(w) ==> w'.sts.Some?) {
      AdvanceNearer(w, w', v, u, pdbs);
    } else {
      NowAtWork(w, v, u);
      StayNearer(w, w', v, u, pdbs);
    }
  }

  lemma GoingAt(w: World, v: Vr, u: Unit, pdbs: seq<Pdb>)
    requires Going(w, pdbs) && AtUnit(w, v, u)
    ensures CompletedAt(v.status.volumeStatuses, u) && Back(w) ==> w.sts.Some?
    ensures !CompletedAt(v.status.volumeStatuses, u) ==> Alive(w, Orig(u))
    ensures Sound(w) && Consistent(w)
  {
    hide Gate, CompletedAt, Alive, Sound, Consistent;
  }
}
