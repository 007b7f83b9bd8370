/**
  The VolumeResize object a pass holds in memory, and the helpers that edit it
  in place (volumeresize_controller.go:488-555).
 */
module Resource {
  import opened Types
  import opened Enumeration
  import opened Protocol

  // Position of the first entry of u, or the number of entries.
  function FirstEntry(statuses: seq<VolumeStatus>, u: Unit): (i: nat)
    ensures i <= |statuses|
    ensures i < |statuses| ==> Key(statuses[i]) == u
    ensures forall j :: 0 <= j < i ==> Key(statuses[j]) != u
  {
    if statuses == [] then 0
    else if Key(statuses[0]) == u then 0
    else 1 + FirstEntry(statuses[1..], u)
  }

  // The first entry of u gets a new phase.
  function WithPhase(statuses: seq<VolumeStatus>, u: Unit, phase: VolumePhase): seq<VolumeStatus> {
    var i := FirstEntry(statuses, u);
    if i < |statuses| then statuses[i := statuses[i].(phase := phase)] else statuses
  }

  // Every entry of u is updated.
  function UpdatedIn(statuses: seq<VolumeStatus>, u: Unit, f: VolumeStatus -> VolumeStatus): seq<VolumeStatus> {
    seq(|statuses|, i requires 0 <= i < |statuses| => if Key(statuses[i]) == u then f(statuses[i]) else statuses[i])
  }

  function MaxReplica(statuses: seq<VolumeStatus>): (m: nat)
    ensures forall i :: 0 <= i < |statuses| ==> statuses[i].replica <= m
    ensures m == 0 || exists i :: 0 <= i < |statuses| && statuses[i].replica == m
  {
    if statuses == [] then 0
    else
      var m := MaxReplica(statuses[..|statuses| - 1]);
      if statuses[|statuses| - 1].replica > m then statuses[|statuses| - 1].replica else m
  }

  function PendingEntry(u: Unit): VolumeStatus {
    VolumeStatus(u.volume, u.replica, VPending, "", "", "")
  }

  function PendingEntries(units: seq<Unit>): seq<VolumeStatus> {
    seq(|units|, i requires 0 <= i < |units| => PendingEntry(units[i]))
  }

  class VolumeResize {
    const spec: Spec
    var finalizer: bool
    var deleting: bool
    var stsDeleted: bool
    var stsBackup: Option<string>
    var phase: Phase
    var volumeStatuses: seq<VolumeStatus>
    var currentReplica: Option<nat>
    var currentVolume: string
    var backupName: string

    constructor (spec: Spec, v: Vr)
      ensures this.spec == spec && Value() == v
    {
      this.spec := spec;
      finalizer, deleting, stsDeleted, stsBackup := v.finalizer, v.deleting, v.stsDeleted, v.stsBackup;
      phase, volumeStatuses := v.status.phase, v.status.volumeStatuses;
      currentReplica, currentVolume := v.status.currentReplica, v.status.currentVolume;
      backupName := v.status.backupName;
    }

    function StatusValue(): Status
      reads this
    {
      Status(phase, volumeStatuses, currentReplica, currentVolume, backupName)
    }

    function Value(): Vr
      reads this
    {
      Vr(finalizer, deleting, stsDeleted, stsBackup, StatusValue())
    }

    // The object is replaced by the server's answer to an update.
    method Load(v: Vr)
      modifies this
      ensures Value() == v
    {
      finalizer, deleting, stsDeleted, stsBackup := v.finalizer, v.deleting, v.stsDeleted, v.stsBackup;
      phase, volumeStatuses := v.status.phase, v.status.volumeStatuses;
      currentReplica, currentVolume := v.status.currentReplica, v.status.currentVolume;
      backupName := v.status.backupName;
    }

    method UpdateVolumeStatus(volName: string, replica: nat, p: VolumePhase)
      modifies this`volumeStatuses
      ensures volumeStatuses == WithPhase(old(volumeStatuses), Unit(replica, volName), p)
    {
      var i := 0;
      while i < |volumeStatuses|
        invariant 0 <= i <= |volumeStatuses| && volumeStatuses == old(volumeStatuses)
        invariant forall j :: 0 <= j < i ==> Key(volumeStatuses[j]) != Unit(replica, volName)
      {
        if volumeStatuses[i].volumeName == volName && volumeStatuses[i].replica == replica {
          assert FirstEntry(volumeStatuses, Unit(replica, volName)) == i;
          volumeStatuses := volumeStatuses[i := volumeStatuses[i].(phase := p)];
          return;
        }
        i := i + 1;
      }
    }

    // Fills the three name fields of the current entry.
    method RecordNames(volName: string, replica: nat, oldPVC: string, newPVC: string, oldPV: string)
      modifies this`volumeStatuses
      ensures volumeStatuses
           == UpdatedIn(old(volumeStatuses), Unit(replica, volName),
                        (vs: VolumeStatus) => vs.(oldPVC := oldPVC, newPVC := newPVC, oldPV := oldPV))
    {
      volumeStatuses := UpdateVolumeStatusInList(volumeStatuses, volName, replica,
        (vs: VolumeStatus) => vs.(oldPVC := oldPVC, newPVC := newPVC, oldPV := oldPV));
    }

    // The cursor after (currentReplica, currentVol).
    method GetNextVolumeReplica(currentReplica: nat, currentVol: string) returns (r: nat, v: string, done: bool)
      requires |spec.volumes| > 0
      ensures (if done then None else Some(Unit(r, v)))
           == Next(spec.volumes, MaxReplica(volumeStatuses), Unit(currentReplica, currentVol))
    {
      var volIdx := 0;
      var i := 0;
      while i < |spec.volumes|
        invariant 0 <= i <= |spec.volumes|
        invariant forall j :: 0 <= j < i ==> spec.volumes[j].name != currentVol
        invariant volIdx == 0
      {
        if spec.volumes[i].name == currentVol {
          volIdx := i;
          break;
        }
        i := i + 1;
      }
      assert volIdx == if IsTarget(spec.volumes, currentVol) then IndexOf(spec.volumes, currentVol) else 0;
      if volIdx + 1 < |spec.volumes| {
        return currentReplica, spec.volumes[volIdx + 1].name, false;
      }
      var maxReplica := 0;
      for j := 0 to |volumeStatuses|
        invariant maxReplica == MaxReplica(volumeStatuses[..j])
      {
        assert volumeStatuses[..j + 1][..j] == volumeStatuses[..j];
        if volumeStatuses[j].replica > maxReplica {
          maxReplica := volumeStatuses[j].replica;
        }
      }
      assert volumeStatuses[..|volumeStatuses|] == volumeStatuses;
      if currentReplica < maxReplica {
        return currentReplica + 1, spec.volumes[0].name, false;
      }
      return 0, "", true;
    }

    // The nested loops that list every unit as pending.
    method AppendPending(replicas: nat)
      modifies this`volumeStatuses
      ensures volumeStatuses == old(volumeStatuses) + PendingEntries(Units(spec.volumes, replicas))
    {
      ghost var before := volumeStatuses;
      for r := 0 to replicas
        invariant volumeStatuses == before + PendingEntries(Units(spec.volumes, r))
      {
        ghost var row := Row(spec.volumes, r);
        for j := 0 to |spec.volumes|
          invariant volumeStatuses == before + PendingEntries(Units(spec.volumes, r)) + PendingEntries(row[..j])
        {
          volumeStatuses := volumeStatuses + [VolumeStatus(spec.volumes[j].name, r, VPending, "", "", "")];
          assert row[..j + 1] == row[..j] + [row[j]];
          assert PendingEntries(row[..j + 1]) == PendingEntries(row[..j]) + [PendingEntry(row[j])];
        }
        assert row[..|spec.volumes|] == row;
        assert PendingEntries(Units(spec.volumes, r) + row) == PendingEntries(Units(spec.volumes, r)) + PendingEntries(row);
      }
    }
  }

  method UpdateVolumeStatusInList(
    statuses: seq<VolumeStatus>, volName: string, replica: nat, f: VolumeStatus -> VolumeStatus)
    returns (r: seq<VolumeStatus>)
    ensures r == UpdatedIn(statuses, Unit(replica, volName), f)
  {
    r := statuses;
    for i := 0 to |statuses|
      invariant |r| == |statuses|
      invariant forall j :: 0 <= j < i ==> r[j] == UpdatedIn(statuses, Unit(replica, volName), f)[j]
      invariant forall j :: i <= j < |statuses| ==> r[j] == statuses[j]
    {
      if r[i].volumeName == volName && r[i].replica == replica {
        r := r[i := f(r[i])];
      }
    }
  }

  /** What the edits mean for the list */

  lemma WithPhaseSame(statuses: seq<VolumeStatus>, u: Unit, p: VolumePhase)
    requires forall i, j :: 0 <= i < j < |statuses| ==> Key(statuses[i]) != Key(statuses[j])
    ensures SameExceptAt(statuses, WithPhase(statuses, u, p), u)
    ensures Keys(WithPhase(statuses, u, p)) == Keys(statuses)
    ensures u in Keys(statuses) ==> (CompletedAt(WithPhase(statuses, u, p), u) <==> p == VCompleted)
  {
    var r := WithPhase(statuses, u, p);
    var k := FirstEntry(statuses, u);
    assert |r| == |statuses| && forall i :: 0 <= i < |r| ==> Key(r[i]) == Key(statuses[i]);
    if u in Keys(statuses) {
      var i :| 0 <= i < |statuses| && Keys(statuses)[i] == u;
      assert Key(statuses[i]) == u;
      assert Key(r[k]) == u && r[k].phase == p;
    }
  }

  lemma UpdatedInSame(statuses: seq<VolumeStatus>, u: Unit, f: VolumeStatus -> VolumeStatus)
    requires forall vs :: Key(f(vs)) == Key(vs) && f(vs).phase == vs.phase
    ensures SameExceptAt(statuses, UpdatedIn(statuses, u, f), u)
    ensures CompletedAt(UpdatedIn(statuses, u, f), u) <==> CompletedAt(statuses, u)
  {
    var r := UpdatedIn(statuses, u, f);
    assert forall i :: 0 <= i < |r| ==> Key(r[i]) == Key(statuses[i]) && r[i].phase == statuses[i].phase;
  }

  // The list built from the units has the units as keys and only pending entries.
  lemma PendingKeys(units: seq<Unit>)
    ensures Keys(PendingEntries(units)) == units
    ensures forall i :: 0 <= i < |units| ==> PendingEntries(units)[i].phase == VPending
  {
  }

  // The largest replica of the full list is the last one.
  lemma MaxReplicaOfUnits(volumes: seq<Target>, replicas: nat, statuses: seq<VolumeStatus>)
    requires |volumes| > 0 && replicas > 0 && DistinctNames(volumes)
    requires Keys(statuses) == Units(volumes, replicas)
    ensures MaxReplica(statuses) == replicas - 1
  {
    var last := Unit(replicas - 1, volumes[0].name);
    UnitsMember(volumes, replicas, last);
    assert volumes[0].name == last.volume;
    var k :| 0 <= k < |Keys(statuses)| && Keys(statuses)[k] == last;
    assert statuses[k].replica == replicas - 1;
    forall i | 0 <= i < |statuses|
      ensures statuses[i].replica < replicas
    {
      assert Keys(statuses)[i] in Units(volumes, replicas);
      UnitsMember(volumes, replicas, Keys(statuses)[i]);
    }
  }
}
