/**
  The StatefulSet: its backup, its deletion with orphaned pods, its recreation
  from the rewritten backup, and the end of one of its pods (statefulset.go).
 */
module StatefulSets {
  import opened Types
  import opened Rewriting
  import opened Protocol
  import opened Rely
  import opened Api
  import opened Work

  // The backup exists afterwards; an older one stays as it is.
  method BackupSTSToConfigMap(c: Cluster, sts: Sts, ghost u: Unit) returns (e: Reply)
    requires c.Valid() && c.w.sts == Some(sts) && Active(c.w, u)
    modifies c
    ensures c.Valid() && Frame(old(c.w), c.w, {}) && SameHomes(old(c.w), c.w) && c.w.sts == Some(sts)
    ensures SameFlags(old(c.w), c.w)
    ensures e == Ok ==> c.w.backup.Some?
    ensures c.w.backup == old(c.w).backup || (old(c.w).backup == None && c.w.backup == Some(sts))
    ensures c.smooth ==> old(c.smooth) && e == Ok
    ensures c.smooth ==> c.asks == old(c.asks) + if old(c.w).backup.Some? then [] else [CreateBackup(sts)]
  {
    hide Run, Relied, Frame, SameHomes, Called, CanCall, Effect, Active;
    ghost var w0 := c.w;
    var existing;
    e, existing := c.GetBackup();
    ghost var w1 := c.w;
    FrameRelied(w0, w1);
    ReliedSts(w0, w1);
    FrameActive(w0, w1, {}, u);
    if e == Ok || e != NotFound {
      return;
    }
    MayBackUp(w1, sts, u);
    e := c.Issue(CreateBackup(sts));
    BackedUp(w1, sts, e, c.w);
    FrameTransitive(w0, w1, c.w, {}, {}, {});
    SameHomesTransitive(w0, w1, c.w);
  }

  lemma ReliedSts(w: World, w': World)
    requires Relied(w, w')
    ensures w'.sts == w.sts && w'.backup == w.backup
  {
    hide KeepsPods, KeepsClaims, KeepsCopies;
  }

  lemma MayBackUp(w: World, sts: Sts, u: Unit)
    requires w.sts == Some(sts) && Active(w, u)
    ensures CanCall(w, CreateBackup(sts)) ==> Guard(w, CreateBackup(sts))
  {
  }

  lemma BackedUp(w: World, sts: Sts, e: Reply, w': World)
    requires w.backup == None && Effect(w, CreateBackup(sts), e, w')
    ensures Frame(w, w', {}) && SameHomes(w, w') && SameFlags(w, w') && w'.sts == w.sts
    ensures w'.backup == None || w'.backup == Some(sts)
    ensures e == Ok ==> w'.backup.Some?
    ensures e != AlreadyExists
  {
    FrameEffect(w, CreateBackup(sts), e, w');
    hide Relied, Frame;
    if Relied(w, w') {
      ReliedSts(w, w');
    } else {
      ReliedSts(Called(w, CreateBackup(sts)), w');
    }
  }

  // The StatefulSet goes; its pods stay.
  method DeleteSTSOrphan(c: Cluster, ghost u: Unit) returns (e: Reply)
    requires c.Valid() && c.w.backup.Some? && Active(c.w, u)
    modifies c
    ensures c.Valid() && Frame(old(c.w), c.w, {}) && SameHomes(old(c.w), c.w) && c.w.backup == old(c.w).backup
    ensures SameFlags(old(c.w), c.w)
    ensures e == Ok ==> c.w.sts == None
    ensures c.w.sts == None || c.w.sts == old(c.w).sts
    ensures c.smooth ==> old(c.smooth) && e == Ok && c.asks == old(c.asks) + [DeleteSts]
  {
    hide Run, Relied, Frame, SameHomes, Called, CanCall, Effect;
    ghost var w0 := c.w;
    MayDeleteSts(w0, u);
    e := c.Issue(DeleteSts);
    StsDeleted(w0, e, c.w);
    if e == NotFound {
      e := Ok;
    }
  }

  lemma MayDeleteSts(w: World, u: Unit)
    requires w.backup.Some? && Active(w, u)
    ensures CanCall(w, DeleteSts) ==> Guard(w, DeleteSts)
  {
  }

  lemma StsDeleted(w: World, e: Reply, w': World)
    requires Effect(w, DeleteSts, e, w')
    ensures Frame(w, w', {}) && SameHomes(w, w') && SameFlags(w, w') && w'.backup == w.backup
    ensures w'.sts == None || w'.sts == w.sts
    ensures e == Ok || e == NotFound ==> w'.sts == None
  {
    FrameEffect(w, DeleteSts, e, w');
    hide Relied, Frame;
    if Relied(w, w') {
      ReliedSts(w, w');
    } else {
      ReliedSts(Called(w, DeleteSts), w');
    }
    if e == Ok {
      ReliedSts(Called(w, DeleteSts), w');
    }
  }

  method GetSTSFromBackupConfigMap(c: Cluster) returns (e: Reply, sts: Option<Sts>)
    requires c.Valid()
    modifies c
    ensures c.Valid() && Relied(old(c.w), c.w) && old(c.log) <= c.log
    ensures e == Ok ==> sts.Some? && sts == c.w.backup
    ensures c.smooth ==> old(c.smooth) && c.asks == old(c.asks)
    ensures c.smooth && old(c.w).backup.Some? ==> e == Ok
  {
    hide Run, Relied;
    ghost var w0 := c.w;
    e, sts := c.GetBackup();
    ReliedSts(w0, c.w);
  }

  // Resizes the templates in place, target by target.
  method ResizeTemplates(templates: array<Template>, volumes: seq<Target>)
    modifies templates
    ensures forall i :: 0 <= i < templates.Length ==> templates[i] == ResizeAll(old(templates[i]), volumes)
  {
    for i := 0 to templates.Length
      invariant forall k :: 0 <= k < i ==> templates[k] == ResizeAll(old(templates[k]), volumes)
      invariant forall k :: i <= k < templates.Length ==> templates[k] == old(templates[k])
    {
      ghost var t := templates[i];
      for j := 0 to |volumes|
        invariant ResizeAll(templates[i], volumes[j..]) == ResizeAll(t, volumes)
        invariant forall k :: 0 <= k < i ==> templates[k] == ResizeAll(old(templates[k]), volumes)
        invariant forall k :: i < k < templates.Length ==> templates[k] == old(templates[k])
      {
        assert volumes[j..][0] == volumes[j] && volumes[j..][1..] == volumes[j + 1..];
        if templates[i].name == volumes[j].name {
          templates[i] := templates[i].(size := volumes[j].newSize);
          if volumes[j].storageClass.Some? {
            templates[i] := templates[i].(storageClass := volumes[j].storageClass);
          }
        }
      }
    }
  }

  // The StatefulSet to recreate.
  method Resized(backup: Sts, volumes: seq<Target>) returns (s: Sts)
    ensures s == Rewrite(backup, volumes)
  {
    var templates := new Template[|backup.templates|](i requires 0 <= i < |backup.templates| => backup.templates[i]);
    ResizeTemplates(templates, volumes);
    s := backup.(templates := templates[..]);
    assert s.templates == Rewrite(backup, volumes).templates;
  }

  method RecreateSTS(c: Cluster, s: Sts) returns (e: Reply)
    requires c.Valid() && c.w.backup.Some? && s == Rewrite(c.w.backup.value, c.w.spec.volumes) && AtCompleted(c.w)
    requires Cursor(c.w.vr.value.status).value !in c.w.book.bare
    modifies c
    ensures c.Valid() && Frame(old(c.w), c.w, {}) && c.w.backup == old(c.w).backup && old(c.log) <= c.log
    ensures SameFlags(old(c.w), c.w)
    ensures c.w.sts == old(c.w).sts || (old(c.w).sts == None && c.w.sts == Some(s))
    ensures e == Ok ==> c.w.sts == Some(s) && old(c.w).sts == None
    ensures e == AlreadyExists ==> c.w.sts.Some? && c.w.sts == old(c.w).sts
    ensures c.smooth ==> old(c.smooth) && (e == Ok || e == AlreadyExists) && c.asks == old(c.asks) + [CreateSts(s)]
  {
    hide Run, Relied, Frame, Called, CanCall, Effect, AtCompleted;
    ghost var w0 := c.w;
    MayRecreate(w0, s);
    e := c.Issue(CreateSts(s));
    StsRecreated(w0, s, e, c.w);
  }

  lemma MayRecreate(w: World, s: Sts)
    requires w.backup.Some? && s == Rewrite(w.backup.value, w.spec.volumes) && AtCompleted(w)
    requires Cursor(w.vr.value.status).value !in w.book.bare
    ensures CanCall(w, CreateSts(s)) ==> Guard(w, CreateSts(s))
  {
  }

  lemma StsRecreated(w: World, s: Sts, e: Reply, w': World)
    requires Effect(w, CreateSts(s), e, w')
    ensures Frame(w, w', {}) && SameFlags(w, w') && w'.backup == w.backup
    ensures w'.sts == w.sts || (w.sts == None && w'.sts == Some(s))
    ensures e == Ok ==> w'.sts == Some(s) && w.sts == None
    ensures e == AlreadyExists ==> w'.sts.Some? && w'.sts == w.sts
    ensures e != NotFound
  {
    FrameEffect(w, CreateSts(s), e, w');
    hide Relied, Frame;
    if Relied(w, w') {
      ReliedSts(w, w');
    } else {
      ReliedSts(Called(w, CreateSts(s)), w');
    }
    if e == Ok {
      ReliedSts(Called(w, CreateSts(s)), w');
    }
  }

  method DeletePodOf(c: Cluster, r: nat) returns (e: Reply)
    requires c.Valid()
    modifies c
    ensures c.Valid() && Storage(old(c.w), c.w, {}) && SameHomes(old(c.w), c.w)
    ensures SameFlags(old(c.w), c.w)
    ensures e == Ok && c.w.sts == None ==> AppGoing(c.w, r)
    ensures c.smooth ==> old(c.smooth) && e == Ok
    ensures c.asks == if c.crashed then old(c.asks) else old(c.asks) + [DeletePod(App(r))]
    ensures old(c.log) <= c.log
    ensures e == Ok && App(r) in old(c.w).pods ==> Op(DeletePod(App(r))) in c.log[|old(c.log)|..]
  {
    hide Run, Relied, Storage, Called, CanCall, Effect, AppGoing, MigLost;
    ghost var w0 := c.w;
    MayDeletePod(w0, App(r));
    e := c.Issue(DeletePod(App(r)));
    StorageEffect(w0, DeletePod(App(r)), e, c.w);
    PodFound(w0, App(r), e, c.w);
    if e == Ok || e == NotFound {
      PodEnding(w0, r, e, c.w);
    }
    if e == NotFound {
      e := Ok;
    }
  }

  // A pod that is there is found.
  lemma PodFound(w: World, p: PodKey, e: Reply, w': World)
    requires Effect(w, DeletePod(p), e, w')
    ensures p in w.pods ==> e != NotFound
  {
    hide Relied, Called;
  }

  lemma PodEnding(w: World, r: nat, e: Reply, w': World)
    requires Effect(w, DeletePod(App(r)), e, w') && (e == Ok || e == NotFound)
    ensures w'.sts == None ==> AppGoing(w', r)
  {
    hide KeepsClaims, KeepsCopies, Quiet, Done, NoMig, MigGoing;
    assert w.sts == None && App(r) !in w.pods ==> AppGoing(w, r);
    assert e == Ok && w.sts == None ==> AppGoing(Called(w, DeletePod(App(r))), r);
  }

  lemma MayDeletePod(w: World, p: PodKey)
    ensures CanCall(w, DeletePod(p)) ==> Guard(w, DeletePod(p))
  {
  }

  // Waits until the pod is gone. With no StatefulSet it then stays gone.
  method WaitForPodTermination(c: Cluster, r: nat) returns (e: Reply)
    requires c.Valid()
    modifies c
    ensures c.Valid() && Relied(old(c.w), c.w)
    ensures e == Ok && c.w.sts == None ==> Quiet(c.w, r)
    ensures c.smooth ==> old(c.smooth) && e == Ok
    ensures old(c.log) <= c.log && c.asks == old(c.asks)
    ensures Quiet(old(c.w), r) ==> |old(c.script)| <= |c.script| + 2
    ensures old(c.Expires()) ==> e != Ok && c.w == old(c.w)
    ensures c.crashed ==> e != Ok
  {
    hide Run, Relied;
    RelyReflexive(c.w);
    while true
      invariant c.Valid() && Relied(old(c.w), c.w) && old(c.log) <= c.log && c.asks == old(c.asks)
      invariant c.smooth ==> old(c.smooth)
      invariant Quiet(old(c.w), r) ==> Quiet(c.w, r) && |c.script| == |old(c.script)|
      invariant old(c.Expires()) ==> c.Expires() && c.w == old(c.w)
      decreases |c.script|
    {
      var over := c.Deadline();
      if over {
        return OtherError;
      }
      ghost var w1 := c.w;
      var pod;
      e, pod := c.GetPod(App(r));
      RelyTransitive(old(c.w), w1, c.w);
      assert Quiet(w1, r) ==> e != Ok;
      if e == NotFound {
        PodStaysGone(w1, c.w, r);
        return Ok;
      }
      if e != Ok {
        return;
      }
    }
  }

  lemma PodStaysGone(w: World, w': World, r: nat)
    requires Relied(w, w') && App(r) !in w.pods
    ensures w'.sts == None ==> Quiet(w', r)
  {
    hide KeepsClaims, KeepsCopies;
    assert w.sts == None ==> Quiet(w, r);
  }
}
