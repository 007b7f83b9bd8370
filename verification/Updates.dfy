/**
  Updates of the resource: metadata and status are stored by separate calls, and
  each successful call replaces the object in memory by the server's answer.
 */
module Updates {
  import opened Types
  import opened Enumeration
  import opened Protocol
  import opened Rely
  import opened Api
  import opened Work
  import opened Resource

  datatype Result = NoRequeue | Requeue | RequeueAfter(seconds: nat) | Error

  function MetaCall(d: Vr): Call {
    PutMeta(d.finalizer, d.stsDeleted, d.stsBackup)
  }

  // The object in memory after an update.
  function Answer(w: World, c: Call, e: Reply, d: Vr): Vr {
    if e == Ok && CanCall(w, c) && Called(w, c).vr.Some? then Called(w, c).vr.value else d
  }

  // Stores the metadata. The status in memory is lost: the answer carries the
  // stored one.
  method Update(c: Cluster, vr: VolumeResize) returns (e: Reply)
    requires c.Valid() && (c.w.vr.Some? ==> Guard(c.w, MetaCall(vr.Value())))
    modifies c, vr
    ensures c.Valid() && Effect(old(c.w), MetaCall(old(vr.Value())), e, c.w)
    ensures vr.Value() == Answer(old(c.w), MetaCall(old(vr.Value())), e, old(vr.Value()))
    ensures c.smooth ==> old(c.smooth) && (e == Ok || e == NotFound)
    ensures c.asks == if c.crashed then old(c.asks) else old(c.asks) + [MetaCall(old(vr.Value()))]
    ensures old(c.log) <= c.log
  {
    hide Run, Relied, Effect, Called, Guard;
    var before, call := c.w, MetaCall(vr.Value());
    e := c.Issue(call);
    var answer := Answer(before, call, e, vr.Value());
    vr.Load(answer);
  }

  // Stores the status.
  method UpdateStatus(c: Cluster, vr: VolumeResize) returns (e: Reply)
    requires c.Valid() && (c.w.vr.Some? ==> Guard(c.w, PutStatus(vr.StatusValue())))
    modifies c, vr
    ensures c.Valid() && Effect(old(c.w), PutStatus(old(vr.StatusValue())), e, c.w)
    ensures vr.Value() == Answer(old(c.w), PutStatus(old(vr.StatusValue())), e, old(vr.Value()))
    ensures c.smooth ==> old(c.smooth) && (e == Ok || e == NotFound)
    ensures c.asks == if c.crashed then old(c.asks) else old(c.asks) + [PutStatus(old(vr.StatusValue()))]
    ensures old(c.log) <= c.log
  {
    hide Run, Relied, Effect, Called, Guard;
    var before, call := c.w, PutStatus(vr.StatusValue());
    e := c.Issue(call);
    var answer := Answer(before, call, e, vr.Value());
    vr.Load(answer);
  }

  method SetFailed(c: Cluster, vr: VolumeResize) returns (r: Result)
    requires c.Valid() && (c.w.vr.Some? ==> Guard(c.w, PutStatus(vr.StatusValue().(phase := Failed))))
    modifies c, vr
    ensures c.Valid() && Span(old(c.w), c.w, {}) && SameHomes(old(c.w), c.w)
    ensures SameFlags(old(c.w), c.w)
    ensures c.w.sts == old(c.w).sts && c.w.backup == old(c.w).backup
    ensures c.smooth ==> old(c.smooth)
    ensures c.w.vr.Some? ==>
              && old(c.w).vr.Some?
              && (|| c.w.vr.value.status == old(vr.StatusValue()).(phase := Failed)
                  || c.w.vr.value.status == old(c.w).vr.value.status)
    ensures old(c.w).vr.Some? && old(c.w).vr.value.finalizer ==> c.w.vr.Some? && c.w.vr.value.finalizer
    ensures c.smooth && old(c.w).vr.Some? && old(c.w).vr.value.finalizer ==>
              r == NoRequeue && c.w.vr.Some? && c.w.vr.value.status.phase == Failed
    ensures r == NoRequeue || r == Error
    ensures r == NoRequeue && c.w.vr.Some? ==> c.w.vr.value.status == old(vr.StatusValue()).(phase := Failed)
    ensures c.asks == if c.crashed then old(c.asks)
                      else old(c.asks) + [PutStatus(old(vr.StatusValue()).(phase := Failed))]
  {
    hide Run, Relied, Effect, Called, Guard, Span, SameHomes;
    ghost var w0 := c.w;
    vr.phase := Failed;
    ghost var st := vr.StatusValue();
    if w0.vr.Some? {
      FailingStays(w0, st);
    }
    var e := UpdateStatus(c, vr);
    ResourceEffect(w0, PutStatus(st), e, c.w);
    StatusStored(w0, st, e, c.w);
    r := if e == Ok then NoRequeue else Error;
  }

  // A failing status keeps the cursor.
  lemma FailingStays(w: World, st: Status)
    requires w.vr.Some? && Guard(w, PutStatus(st)) && st.phase == Failed
    ensures !CursorMoves(w.vr.value.status, st)
  {
    hide SameExceptAt, Finish, Next, CompletedAt, TargetsOk, Shrinks;
  }

  // The write moves no cursor past a StatefulSet that is wrongly noted as deleted.
  ghost predicate Faithful(w: World, c: Call) {
    c.PutStatus? && w.vr.Some? && CursorMoves(w.vr.value.status, c.status) ==> Consistent(w)
  }

  ghost predicate CursorKept(w: World, c: Call) {
    c.PutStatus? && w.vr.Some? ==> Cursor(c.status) == Cursor(w.vr.value.status)
  }

  lemma ResourceEffect(w: World, c: Call, e: Reply, w': World)
    requires (c.PutMeta? || c.PutStatus?) && Effect(w, c, e, w')
    ensures Span(w, w', {}) && SameHomes(w, w')
    ensures Faithful(w, c) ==> SameFlags(w, w')
    ensures CursorKept(w, c) ==> SameCursor(w, w')
    ensures w'.sts == w.sts && w'.backup == w.backup && KeepsPods(w, w')
    ensures w'.vr.Some? ==> w.vr.Some?
    ensures e != AlreadyExists && (e == NotFound ==> w.vr == None && w'.vr == None)
  {
    hide Relied, Span, KeepsPods;
    if CanCall(w, c) && Relied(Called(w, c), w') {
      ResourceCalled(w, c);
      StorageRelied(Called(w, c), w');
      ResourceThen(w, Called(w, c), w');
    } else {
      StorageRelied(w, w');
      FrameSpan(w, w', {}) by { StorageMeansFrame(w, w', {}); }
      StorageMeansFrame(w, w', {});
    }
  }

  lemma StorageMeansFrame(w: World, w': World, changed: set<ClaimKey>)
    requires Storage(w, w', changed)
    ensures Frame(w, w', changed) && KeepsPods(w, w') && w'.sts == w.sts && w'.backup == w.backup
    ensures SameCursor(w, w')
    ensures w'.vr.Some? ==> w.vr.Some?
  {
    hide Later, OthersKept, NoNewTemps, NoneReturned, KeepsPods;
  }

  lemma ResourceCalled(w: World, c: Call)
    requires (c.PutMeta? || c.PutStatus?) && CanCall(w, c)
    ensures var w' := Called(w, c);
            && Span(w, w', {}) && SameHomes(w, w')
            && (Faithful(w, c) ==> SameFlags(w, w')) && (CursorKept(w, c) ==> SameCursor(w, w'))
            && w'.sts == w.sts && w'.backup == w.backup && KeepsPods(w, w')
  {
  }

  lemma ResourceThen(w: World, w1: World, w': World)
    requires Span(w, w1, {}) && KeepsPods(w, w1) && SameHomes(w, w1)
    requires Storage(w1, w', {}) && SameHomes(w1, w')
    ensures Span(w, w', {}) && KeepsPods(w, w') && SameHomes(w, w')
    ensures SameCursor(w, w1) ==> SameCursor(w, w')
    ensures w'.sts == w1.sts && w'.backup == w1.backup && (w'.vr.Some? ==> w1.vr.Some?)
  {
    StorageMeansFrame(w1, w', {});
    FrameSpan(w1, w', {});
    SpanTransitive(w, w1, w', {}, {}, {});
    hide Span, Frame, Storage, Quiet, Done, NoMig, MigGoing, AppGoing, MigLost;
  }

  lemma StatusStored(w: World, st: Status, e: Reply, w': World)
    requires Effect(w, PutStatus(st), e, w')
    ensures e == Ok && w'.vr.Some? ==> w'.vr.value.status == st
    ensures w'.vr.Some? ==>
              && w.vr.Some?
              && (w'.vr.value.status == st || (e != Ok && w'.vr.value.status == w.vr.value.status))
    ensures w.vr.Some? && w.vr.value.finalizer ==> w'.vr.Some? && w'.vr.value.finalizer && e != NotFound
  {
    hide KeepsPods, KeepsClaims, KeepsCopies, SameHomes;
  }

  // A stored status under a finalizer is there to stay.
  lemma StatusHeld(w: World, v: Vr, st: Status, e: Reply, d: Vr, w': World)
    requires Holds(w, v) && Effect(w, PutStatus(st), e, w')
    ensures e != NotFound && w'.vr.Some?
    ensures e == Ok ==> Holds(w', v.(status := st))
    ensures e == Ok ==> Answer(w, PutStatus(st), e, d).(deleting := v.deleting) == v.(status := st)
  {
    hide KeepsPods, KeepsClaims, KeepsCopies;
  }

  lemma MetaHeld(w: World, v: Vr, d: Vr, e: Reply, w': World)
    requires Holds(w, v) && d.finalizer && Effect(w, MetaCall(d), e, w')
    ensures e != NotFound && w'.vr.Some?
    ensures var v' := v.(stsDeleted := d.stsDeleted, stsBackup := d.stsBackup);
            e == Ok ==> Holds(w', v') && Answer(w, MetaCall(d), e, d).(deleting := v.deleting) == v'
  {
    hide KeepsPods, KeepsClaims, KeepsCopies;
  }
}
