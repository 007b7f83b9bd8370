/**
  The StatefulSet that is recreated after a unit: the backup with the targeted
  volumeClaimTemplates resized (volumeresize_controller.go:364-375).
 */
module Rewriting {
  import opened Types
  import opened Enumeration

  // One pass of the inner loop: a target rewrites the template of its name.
  function Resize(t: Template, v: Target): Template {
    if t.name == v.name then
      t.(size := v.newSize, storageClass := if v.storageClass.Some? then v.storageClass else t.storageClass)
    else t
  }

  function ResizeAll(t: Template, volumes: seq<Target>): (r: Template)
    ensures r.name == t.name && r.labels == t.labels
    decreases |volumes|
  {
    if volumes == [] then t else ResizeAll(Resize(t, volumes[0]), volumes[1..])
  }

  function Rewrite(s: Sts, volumes: seq<Target>): Sts {
    s.(templates := seq(|s.templates|, i requires 0 <= i < |s.templates| => ResizeAll(s.templates[i], volumes)))
  }

  lemma {:induction false} ResizeAllUntouched(t: Template, volumes: seq<Target>)
    requires !IsTarget(volumes, t.name)
    ensures ResizeAll(t, volumes) == t
  {
    if volumes != [] {
      assert volumes[0].name != t.name;
      ResizeAllUntouched(t, volumes[1..]);
    }
  }

  // With distinct names a template gets exactly the values of its own target.
  lemma {:induction false} ResizeAllTargeted(t: Template, volumes: seq<Target>)
    requires DistinctNames(volumes) && IsTarget(volumes, t.name)
    ensures var v := TargetOf(volumes, t.name);
            ResizeAll(t, volumes) == t.(size := v.newSize,
              storageClass := if v.storageClass.Some? then v.storageClass else t.storageClass)
  {
    var rest := volumes[1..];
    assert forall i :: 0 <= i < |rest| ==> rest[i] == volumes[i + 1];
    if volumes[0].name == t.name {
      assert forall i :: 0 <= i < |rest| ==> rest[i].name != volumes[0].name;
      ResizeAllUntouched(Resize(t, volumes[0]), rest);
    } else {
      ResizeAllTargeted(t, rest);
    }
  }

  // The rewrite keeps every template's place, name and labels, and everything
  // else in the StatefulSet; it resizes exactly the targeted templates.
  lemma RewriteTouchesOnlyTargets(s: Sts, volumes: seq<Target>)
    requires DistinctNames(volumes)
    ensures var r := Rewrite(s, volumes);
            && r.(templates := s.templates) == s
            && |r.templates| == |s.templates|
            && forall i :: 0 <= i < |s.templates| ==>
                 var t := s.templates[i];
                 if IsTarget(volumes, t.name)
                 then var v := TargetOf(volumes, t.name);
                   r.templates[i] == t.(size := v.newSize,
                     storageClass := if v.storageClass.Some? then v.storageClass else t.storageClass)
                 else r.templates[i] == t
  {
    forall i | 0 <= i < |s.templates| && IsTarget(volumes, s.templates[i].name) {
      ResizeAllTargeted(s.templates[i], volumes);
    }
    forall i | 0 <= i < |s.templates| && !IsTarget(volumes, s.templates[i].name) {
      ResizeAllUntouched(s.templates[i], volumes);
    }
  }

  // Rewriting twice is rewriting once.
  lemma RewriteIdempotent(s: Sts, volumes: seq<Target>)
    requires DistinctNames(volumes)
    ensures Rewrite(Rewrite(s, volumes), volumes) == Rewrite(s, volumes)
  {
    var r := Rewrite(s, volumes);
    RewriteTouchesOnlyTargets(s, volumes);
    RewriteTouchesOnlyTargets(r, volumes);
    assert Rewrite(r, volumes).templates == r.templates;
  }
}
