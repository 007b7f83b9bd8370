/**
  The order in which units are migrated: volumes in the order of the resource,
  one replica after the other (volumeresize_controller.go:149-168, 525-555).
 */
module Enumeration {
  import opened Types

  ghost predicate DistinctNames(volumes: seq<Target>) {
    forall i, j :: 0 <= i < j < |volumes| ==> volumes[i].name != volumes[j].name
  }

  // Position of the first volume of that name, or the number of volumes.
  function IndexOf(volumes: seq<Target>, name: string): (i: nat)
    ensures i <= |volumes|
    ensures i < |volumes| ==> volumes[i].name == name
    ensures forall j :: 0 <= j < i ==> volumes[j].name != name
  {
    if volumes == [] then 0
    else if volumes[0].name == name then 0
    else 1 + IndexOf(volumes[1..], name)
  }

  predicate IsTarget(volumes: seq<Target>, name: string) {
    IndexOf(volumes, name) < |volumes|
  }

  function TargetOf(volumes: seq<Target>, name: string): (t: Target)
    requires IsTarget(volumes, name)
    ensures t.name == name
  {
    volumes[IndexOf(volumes, name)]
  }

  predicate IsUnit(volumes: seq<Target>, replicas: nat, u: Unit) {
    u.replica < replicas && IsTarget(volumes, u.volume)
  }

  // The units of one replica.
  function Row(volumes: seq<Target>, r: nat): seq<Unit> {
    seq(|volumes|, i requires 0 <= i < |volumes| => Unit(r, volumes[i].name))
  }

  // All units, in migration order.
  function Units(volumes: seq<Target>, replicas: nat): seq<Unit> {
    if replicas == 0 then [] else Units(volumes, replicas - 1) + Row(volumes, replicas - 1)
  }

  // The number of units before u.
  function Rank(volumes: seq<Target>, u: Unit): nat {
    u.replica * |volumes| + IndexOf(volumes, u.volume)
  }

  // The unit after u, as the cursor computes it; maxReplica is the largest
  // replica among the status entries.
  function Next(volumes: seq<Target>, maxReplica: nat, u: Unit): Option<Unit>
    requires |volumes| > 0
  {
    var i := if IsTarget(volumes, u.volume) then IndexOf(volumes, u.volume) else 0;
    if i + 1 < |volumes| then Some(Unit(u.replica, volumes[i + 1].name))
    else if u.replica < maxReplica then Some(Unit(u.replica + 1, volumes[0].name))
    else None
  }

  // Migration order on units: replica first, then volume position.
  predicate Before(volumes: seq<Target>, x: Unit, y: Unit) {
    x.replica < y.replica
    || (x.replica == y.replica && IndexOf(volumes, x.volume) < IndexOf(volumes, y.volume))
  }

  lemma IndexOfAt(volumes: seq<Target>, i: nat)
    requires DistinctNames(volumes) && i < |volumes|
    ensures IndexOf(volumes, volumes[i].name) == i
  {
    var k := IndexOf(volumes, volumes[i].name);
    assert k <= i;
    assert volumes[k].name == volumes[i].name;
  }

  // Next is the immediate successor in migration order, and ends at the last unit.
  lemma NextIsSuccessor(volumes: seq<Target>, replicas: nat, u: Unit)
    requires DistinctNames(volumes) && |volumes| > 0 && IsUnit(volumes, replicas, u)
    ensures var n := Next(volumes, replicas - 1, u);
            match n
            case Some(m) =>
              && IsUnit(volumes, replicas, m)
              && (forall x: Unit :: IsTarget(volumes, x.volume) ==>
                    (Before(volumes, x, m) <==> Before(volumes, x, u) || x == u))
              && (forall x: Unit :: IsTarget(volumes, x.volume) ==>
                    (Before(volumes, m, x) <==> Before(volumes, u, x) && x != m))
            case None =>
              forall x: Unit :: IsUnit(volumes, replicas, x) ==> Before(volumes, x, u) || x == u
  {
    var i := IndexOf(volumes, u.volume);
    if i + 1 < |volumes| {
      IndexOfAt(volumes, i + 1);
    } else {
      IndexOfAt(volumes, 0);
    }
  }

  // One step of the cursor raises the rank by one.
  lemma NextRank(volumes: seq<Target>, replicas: nat, u: Unit)
    requires DistinctNames(volumes) && |volumes| > 0 && IsUnit(volumes, replicas, u)
    ensures match Next(volumes, replicas - 1, u)
            case Some(m) => Rank(volumes, m) == Rank(volumes, u) + 1
            case None => Rank(volumes, u) + 1 == replicas * |volumes|
  {
    var i := IndexOf(volumes, u.volume);
    var v := |volumes|;
    if i + 1 < v {
      IndexOfAt(volumes, i + 1);
    } else {
      IndexOfAt(volumes, 0);
      assert (u.replica + 1) * v == u.replica * v + v;
    }
  }

  lemma RankBound(volumes: seq<Target>, replicas: nat, u: Unit)
    requires IsUnit(volumes, replicas, u)
    ensures Rank(volumes, u) < replicas * |volumes|
  {
    RowsFit(u.replica, replicas, |volumes|);
  }

  lemma {:induction false} UnitsLength(volumes: seq<Target>, replicas: nat)
    ensures |Units(volumes, replicas)| == replicas * |volumes|
  {
    if replicas > 0 {
      UnitsLength(volumes, replicas - 1);
      assert replicas * |volumes| == (replicas - 1) * |volumes| + |volumes|;
    }
  }

  lemma {:induction false} RowsFit(a: nat, b: nat, v: nat)
    ensures a < b ==> a * v + v <= b * v
  {
    if a < b - 1 {
      RowsFit(a, b - 1, v);
      assert b * v == (b - 1) * v + v;
    } else if a < b {
      assert b * v == a * v + v;
    }
  }

  lemma DivMod(k: nat, r: nat, v: nat, i: nat)
    requires k == r * v + i && i < v
    ensures k / v == r && k % v == i
  {
    assert k == (k / v) * v + k % v;
    RowsFit(k / v, r, v);
    RowsFit(r, k / v, v);
  }

  // Element k of the list is replica k / V, volume k % V.
  lemma {:induction false} UnitsAt(volumes: seq<Target>, replicas: nat, k: nat)
    requires |volumes| > 0
    requires k < replicas * |volumes|
    ensures k < |Units(volumes, replicas)|
    ensures Units(volumes, replicas)[k] == Unit(k / |volumes|, volumes[k % |volumes|].name)
  {
    var v := |volumes|;
    UnitsLength(volumes, replicas);
    UnitsLength(volumes, replicas - 1);
    assert replicas * v == (replicas - 1) * v + v;
    if k < (replicas - 1) * v {
      UnitsAt(volumes, replicas - 1, k);
    } else {
      DivMod(k, replicas - 1, v, k - (replicas - 1) * v);
    }
  }

  lemma {:induction false} UnitsMember(volumes: seq<Target>, replicas: nat, u: Unit)
    ensures u in Units(volumes, replicas) <==>
            u.replica < replicas && exists i :: 0 <= i < |volumes| && volumes[i].name == u.volume
  {
    if replicas > 0 {
      UnitsMember(volumes, replicas - 1, u);
      var row := Row(volumes, replicas - 1);
      if u.replica == replicas - 1 && exists i :: 0 <= i < |volumes| && volumes[i].name == u.volume {
        var i :| 0 <= i < |volumes| && volumes[i].name == u.volume;
        assert row[i] == u;
      }
      assert u in row ==> u.replica == replicas - 1;
    }
  }

  lemma UnitsAreUnits(volumes: seq<Target>, replicas: nat, u: Unit)
    ensures u in Units(volumes, replicas) <==> IsUnit(volumes, replicas, u)
  {
    UnitsMember(volumes, replicas, u);
    var i := IndexOf(volumes, u.volume);
    if i < |volumes| {
      assert volumes[i].name == u.volume;
    }
  }

  // The cursor walks the list built at validation: from element k it goes to
  // element k + 1, and from the last element it stops.
  lemma CursorWalksUnits(volumes: seq<Target>, replicas: nat, k: nat)
    requires DistinctNames(volumes) && |volumes| > 0
    requires k < |Units(volumes, replicas)|
    ensures Rank(volumes, Units(volumes, replicas)[k]) == k
    ensures Next(volumes, replicas - 1, Units(volumes, replicas)[k])
            == (if k + 1 < |Units(volumes, replicas)| then Some(Units(volumes, replicas)[k + 1]) else None)
  {
    var units := Units(volumes, replicas);
    var u := units[k];
    UnitsLength(volumes, replicas);
    RankOfElement(volumes, replicas, k);
    UnitsAreUnits(volumes, replicas, u);
    NextIsSuccessor(volumes, replicas, u);
    NextRank(volumes, replicas, u);
    if k + 1 < |units| {
      RankOfElement(volumes, replicas, k + 1);
      UnitsAreUnits(volumes, replicas, units[k + 1]);
      var n := Next(volumes, replicas - 1, u);
      RankInjective(volumes, n.value, units[k + 1]);
    }
  }

  lemma RankOfElement(volumes: seq<Target>, replicas: nat, k: nat)
    requires DistinctNames(volumes) && |volumes| > 0
    requires k < |Units(volumes, replicas)|
    ensures Rank(volumes, Units(volumes, replicas)[k]) == k
  {
    UnitsLength(volumes, replicas);
    UnitsAt(volumes, replicas, k);
    IndexOfAt(volumes, k % |volumes|);
    Recombine(k, |volumes|);
    hide Units, IndexOf;
  }

  lemma Recombine(k: nat, v: nat)
    requires v > 0
    ensures (k / v) * v + k % v == k
  {
  }

  lemma RankInjective(volumes: seq<Target>, x: Unit, y: Unit)
    requires |volumes| > 0
    requires IsTarget(volumes, x.volume) && IsTarget(volumes, y.volume)
    requires Rank(volumes, x) == Rank(volumes, y)
    ensures x == y
  {
    var v := |volumes|;
    DivMod(Rank(volumes, x), x.replica, v, IndexOf(volumes, x.volume));
    DivMod(Rank(volumes, y), y.replica, v, IndexOf(volumes, y.volume));
  }

  // Each unit occurs once.
  lemma UnitsDistinct(volumes: seq<Target>, replicas: nat, i: nat, j: nat)
    requires DistinctNames(volumes) && |volumes| > 0
    requires i < j < |Units(volumes, replicas)|
    ensures Units(volumes, replicas)[i] != Units(volumes, replicas)[j]
  {
    RankOfElement(volumes, replicas, i);
    RankOfElement(volumes, replicas, j);
  }

  // The migration order is the list order.
  lemma BeforeIsRank(volumes: seq<Target>, x: Unit, y: Unit)
    requires IsTarget(volumes, x.volume) && IsTarget(volumes, y.volume)
    ensures Before(volumes, x, y) <==> Rank(volumes, x) < Rank(volumes, y)
  {
    RowsFit(x.replica, y.replica, |volumes|);
    RowsFit(y.replica, x.replica, |volumes|);
  }

  function LastUnit(volumes: seq<Target>, replicas: nat): Unit
    requires |volumes| > 0 && replicas > 0
  {
    Unit(replicas - 1, volumes[|volumes| - 1].name)
  }

  // Only the last unit has no next one.
  lemma NextOfLast(volumes: seq<Target>, replicas: nat, u: Unit)
    requires |volumes| > 0 && replicas > 0 && IsUnit(volumes, replicas, u)
    ensures Next(volumes, replicas - 1, u) == None ==> u == LastUnit(volumes, replicas)
    ensures DistinctNames(volumes) && u == LastUnit(volumes, replicas) ==> Next(volumes, replicas - 1, u) == None
  {
    if DistinctNames(volumes) {
      IndexOfAt(volumes, |volumes| - 1);
    }
  }

  // Iterating the cursor from the first unit.
  function Walk(volumes: seq<Target>, replicas: nat, k: nat): Option<Unit>
    requires |volumes| > 0 && replicas > 0
  {
    if k == 0 then Some(Unit(0, volumes[0].name))
    else
      var prev := Walk(volumes, replicas, k - 1);
      if prev.Some? then Next(volumes, replicas - 1, prev.value) else None
  }

  lemma {:induction false} WalkFollowsUnits(volumes: seq<Target>, replicas: nat, k: nat)
    requires DistinctNames(volumes) && |volumes| > 0 && replicas > 0
    ensures Walk(volumes, replicas, k)
            == (if k < |Units(volumes, replicas)| then Some(Units(volumes, replicas)[k]) else None)
  {
    if k == 0 {
      FirstUnit(volumes, replicas);
    } else {
      WalkFollowsUnits(volumes, replicas, k - 1);
      if k - 1 < |Units(volumes, replicas)| {
        CursorWalksUnits(volumes, replicas, k - 1);
      }
    }
  }

  lemma {:induction false} FirstUnit(volumes: seq<Target>, replicas: nat)
    requires |volumes| > 0 && replicas > 0
    ensures |Units(volumes, replicas)| > 0 && Units(volumes, replicas)[0] == Unit(0, volumes[0].name)
  {
    if replicas > 1 {
      FirstUnit(volumes, replicas - 1);
    }
  }

  // After k steps the cursor is at unit (k / V, volumes[k % V]), and it is done
  // after exactly replicas * V steps.
  lemma WalkEnumerates(volumes: seq<Target>, replicas: nat, k: nat)
    requires DistinctNames(volumes) && |volumes| > 0 && replicas > 0
    ensures Walk(volumes, replicas, k)
            == (if k < replicas * |volumes| then Some(Unit(k / |volumes|, volumes[k % |volumes|].name)) else None)
  {
    WalkFollowsUnits(volumes, replicas, k);
    UnitsLength(volumes, replicas);
    if k < replicas * |volumes| {
      UnitsAt(volumes, replicas, k);
    }
  }

  // With two volumes of one name the cursor goes round at replica 0: it is always
  // at a volume before the second of them.
  lemma {:induction false} WalkCycles(volumes: seq<Target>, replicas: nat, i: nat, j: nat, k: nat)
    requires i < j < |volumes| && volumes[i].name == volumes[j].name && replicas > 0
    ensures var u := Walk(volumes, replicas, k);
            u.Some? && u.value.replica == 0 && IndexOf(volumes, u.value.volume) < j
  {
    if k > 0 {
      WalkCycles(volumes, replicas, i, j, k - 1);
    }
  }

  // The walk ends exactly if the volumes have different names.
  lemma WalkEnds(volumes: seq<Target>, replicas: nat)
    requires |volumes| > 0 && replicas > 0
    ensures DistinctNames(volumes) <==> exists k: nat :: Walk(volumes, replicas, k) == None
  {
    if DistinctNames(volumes) {
      WalkEnumerates(volumes, replicas, replicas * |volumes|);
    } else {
      var i, j :| 0 <= i < j < |volumes| && volumes[i].name == volumes[j].name;
      forall k: nat
        ensures Walk(volumes, replicas, k).Some?
      {
        WalkCycles(volumes, replicas, i, j, k);
      }
    }
  }
}
