/**
  The checks before a migration starts (validation.go).
 */
module Validation {
  import opened Types
  import opened Protocol
  import opened Rely
  import opened Api

  predicate Selects(pdb: Pdb, labels: Labels) {
    && pdb.matchLabels.Some? && pdb.wellFormed
    && forall k :: k in pdb.matchLabels.value ==> k in labels && labels[k] == pdb.matchLabels.value[k]
  }

  // What a selector means: the pods carry every label it asks for.
  lemma SelectsIsInclusion(pdb: Pdb, labels: Labels)
    ensures Selects(pdb, labels) <==>
              pdb.matchLabels.Some? && pdb.wellFormed && pdb.matchLabels.value.Items <= labels.Items
  {
    if pdb.matchLabels.Some? {
      var m := pdb.matchLabels.value;
      if Selects(pdb, labels) {
        forall item | item in m.Items
          ensures item in labels.Items
        {
          assert m[item.0] == item.1;
        }
      }
      if m.Items <= labels.Items {
        forall k | k in m
          ensures k in labels && labels[k] == m[k]
        {
          assert (k, m[k]) in m.Items;
        }
      }
    }
  }

  // Pods with more labels are selected by no fewer budgets, and a selector that asks
  // for nothing selects all pods.
  lemma SelectsMore(pdb: Pdb, labels: Labels, more: Labels)
    requires labels.Items <= more.Items
    ensures Selects(pdb, labels) ==> Selects(pdb, more)
    ensures pdb.wellFormed && pdb.matchLabels == Some(map[]) ==> Selects(pdb, labels)
  {
    SelectsIsInclusion(pdb, labels);
    SelectsIsInclusion(pdb, more);
  }

  // This budget selects the pods and forbids a disruption.
  predicate Forbids(pdb: Pdb, labels: Labels) {
    && pdb.matchLabels.Some? && pdb.wellFormed && pdb.matchLabels.value.Items <= labels.Items
    && pdb.allowed < 1
  }

  lemma AllowedIsNotForbidden(pdbs: seq<Pdb>, labels: Labels)
    ensures BudgetsAllow(pdbs, labels) <==> forall pdb :: pdb in pdbs ==> !Forbids(pdb, labels)
  {
    forall pdb | pdb in pdbs
      ensures Forbids(pdb, labels) <==> Selects(pdb, labels) && pdb.allowed < 1
    {
      SelectsIsInclusion(pdb, labels);
    }
    hide Forbids, Selects;
    if forall pdb :: pdb in pdbs ==> !Forbids(pdb, labels) {
      forall i | 0 <= i < |pdbs| && Selects(pdbs[i], labels)
        ensures pdbs[i].allowed >= 1
      {
        assert pdbs[i] in pdbs;
      }
    }
  }

  // No budget that selects the pods forbids a disruption.
  predicate BudgetsAllow(pdbs: seq<Pdb>, labels: Labels) {
    forall i :: 0 <= i < |pdbs| && Selects(pdbs[i], labels) ==> pdbs[i].allowed >= 1
  }

  // Replica 0 has a claim for the target, and the target shrinks it.
  predicate ShrinksFirst(w: World, v: Target) {
    Orig(Unit(0, v.name)) in w.claims && v.newSize < w.claims[Orig(Unit(0, v.name))].size
  }

  method ValidateStatefulSetExists(c: Cluster) returns (valid: bool, sts: Option<Sts>)
    requires c.Valid()
    modifies c
    ensures c.Valid() && Relied(old(c.w), c.w)
    ensures valid ==> sts.Some? && sts == old(c.w).sts
    ensures c.smooth ==> old(c.smooth) && (valid <==> old(c.w).sts.Some?)
  {
    hide Run, Relied;
    var e;
    e, sts := c.GetSts();
    valid := e == Ok;
  }

  // Every target names a volumeClaimTemplate.
  method ValidateVolumeTargets(sts: Sts, volumes: seq<Target>) returns (valid: bool)
    ensures valid <==> forall v :: v in volumes ==> HasTemplate(sts, v.name)
  {
    var templateNames: set<string> := {};
    for i := 0 to |sts.templates|
      invariant forall n :: n in templateNames <==> exists j :: 0 <= j < i && sts.templates[j].name == n
    {
      templateNames := templateNames + {sts.templates[i].name};
    }
    assert forall n :: n in templateNames <==> HasTemplate(sts, n) by {
      assert forall j :: 0 <= j < |sts.templates| ==> sts.templates[j] in sts.templates;
    }
    for i := 0 to |volumes|
      invariant forall j :: 0 <= j < i ==> HasTemplate(sts, volumes[j].name)
    {
      if volumes[i].name !in templateNames {
        assert volumes[i] in volumes;
        return false;
      }
    }
    valid := true;
  }

  // Only replica 0 is looked at.
  method ValidateSizeReduction(c: Cluster, v: Target) returns (valid: bool)
    requires c.Valid()
    modifies c
    ensures c.Valid() && Relied(old(c.w), c.w)
    ensures valid ==> ShrinksFirst(old(c.w), v)
    ensures c.smooth ==> old(c.smooth) && (valid <==> ShrinksFirst(old(c.w), v))
  {
    hide Run, Relied;
    var e, claim := c.GetClaim(Orig(Unit(0, v.name)));
    valid := e == Ok && v.newSize < claim.value.size;
  }

  method ValidatePDBAllowsDisruption(c: Cluster, sts: Sts) returns (valid: bool)
    requires c.Valid()
    modifies c
    ensures c.Valid() && Relied(old(c.w), c.w)
    ensures valid ==> BudgetsAllow(c.pdbs, sts.podLabels)
    ensures c.smooth ==> old(c.smooth) && (valid <==> BudgetsAllow(c.pdbs, sts.podLabels))
    ensures (exists pdb :: pdb in c.pdbs && Forbids(pdb, sts.podLabels)) ==> !valid
    ensures c.smooth && !valid ==> exists pdb :: pdb in c.pdbs && Forbids(pdb, sts.podLabels)
  {
    hide Run, Relied, Forbids;
    AllowedIsNotForbidden(c.pdbs, sts.podLabels);
    var e, items := c.ListPdbs();
    if e != Ok {
      return false;
    }
    for i := 0 to |items|
      invariant forall j :: 0 <= j < i && Selects(items[j], sts.podLabels) ==> items[j].allowed >= 1
    {
      var pdb := items[i];
      if pdb.matchLabels.Some? && pdb.wellFormed {
        if Selects(pdb, sts.podLabels) && pdb.allowed < 1 {
          return false;
        }
      }
    }
    valid := true;
  }
}
