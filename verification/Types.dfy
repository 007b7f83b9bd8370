/**
  Values the operator reads and writes: the VolumeResize resource
  (api/v1alpha1/volumeresize_types.go), and the claims, volumes, pods and
  StatefulSet it edits. Sizes are natural numbers; StorageClass pointers and
  other optional fields are Options.
 */
module Types {
  import Names

  datatype Option<+T> = None | Some(value: T)

  type PvName = string
  type Data = string
  type Labels = map<string, string>

  // One replica of one volumeClaimTemplate.
  datatype Unit = Unit(replica: nat, volume: string)

  // A claim of the StatefulSet, or the temporary claim of the same unit.
  datatype ClaimKey = Orig(unit: Unit) | Temp(unit: Unit)

  datatype Policy = Retain | Delete

  datatype Claim = Claim(
    size: nat, storageClass: Option<string>, pv: Option<PvName>, bound: bool, labels: Labels, terminating: bool)

  datatype Pv = Pv(policy: Policy, claimRef: Option<ClaimKey>, data: Data)

  datatype PodKey = App(replica: nat) | Mig(unit: Unit)

  datatype PodPhase = PodPending | PodRunning | PodSucceeded | PodFailed | PodUnknown

  // mounts is filled in when the pod starts and names the volume behind each claim.
  datatype Pod = Pod(
    phase: PodPhase, claims: set<ClaimKey>, mounts: map<ClaimKey, PvName>, labels: Labels, terminating: bool)

  datatype Template = Template(name: string, size: nat, storageClass: Option<string>, labels: Labels)

  // rest stands for every StatefulSet field the operator copies without reading.
  datatype Sts = Sts(replicas: Option<nat>, templates: seq<Template>, podLabels: Labels, rest: string)

  datatype Target = Target(name: string, newSize: nat, storageClass: Option<string>)

  // The immutable part of a VolumeResize.
  datatype Spec = Spec(vrName: string, stsName: string, volumes: seq<Target>)

  datatype Phase = PhaseEmpty | Pending | Validating | Syncing | Replacing | Completed | Failed

  datatype VolumePhase = VPending | VSyncing | VSynced | VReplacing | VCompleted | VFailed

  datatype VolumeStatus = VolumeStatus(
    volumeName: string, replica: nat, phase: VolumePhase, oldPVC: string, newPVC: string, oldPV: string)

  datatype Status = Status(
    phase: Phase, volumeStatuses: seq<VolumeStatus>,
    currentReplica: Option<nat>, currentVolume: string, backupName: string)

  // The stored VolumeResize: finalizer, deletion mark, the two annotations, status.
  datatype Vr = Vr(finalizer: bool, deleting: bool, stsDeleted: bool, stsBackup: Option<string>, status: Status)

  const MIGRATION_NAME := "storage.maurice.fr/migration-name"
  const REPLICA_LABEL := "storage.maurice.fr/replica"
  const VOLUME_LABEL := "storage.maurice.fr/volume-name"

  predicate Owned(spec: Spec, labels: Labels) {
    MIGRATION_NAME in labels && labels[MIGRATION_NAME] == spec.vrName
  }

  function MigrationLabels(spec: Spec, u: Unit): Labels {
    map[MIGRATION_NAME := spec.vrName, REPLICA_LABEL := Names.Decimal(u.replica), VOLUME_LABEL := u.volume]
  }

  // The selector of a resource finds what carries its labels, and nothing of another.
  lemma LabelsTellOwner(spec: Spec, spec': Spec, u: Unit)
    ensures Owned(spec, MigrationLabels(spec', u)) <==> spec.vrName == spec'.vrName
  {
    assert MigrationLabels(spec', u)[MIGRATION_NAME] == spec'.vrName;
  }

  // The labels tell the resource and the unit.
  lemma LabelsTellUnit(spec: Spec, u: Unit, spec': Spec, u': Unit)
    requires MigrationLabels(spec, u) == MigrationLabels(spec', u')
    ensures spec.vrName == spec'.vrName && u == u'
    ensures Owned(spec, MigrationLabels(spec, u))
  {
    LabelsTellOwner(spec, spec', u');
    var l, l' := MigrationLabels(spec, u), MigrationLabels(spec', u');
    assert l[MIGRATION_NAME] == l'[MIGRATION_NAME] && l[VOLUME_LABEL] == l'[VOLUME_LABEL];
    assert l[REPLICA_LABEL] == l'[REPLICA_LABEL];
    Names.DecimalInjective(u.replica, u'.replica);
  }

  function Replicas(s: Sts): nat {
    if s.replicas.Some? then s.replicas.value else 1
  }

  function Key(vs: VolumeStatus): Unit {
    Unit(vs.replica, vs.volumeName)
  }

  function Keys(statuses: seq<VolumeStatus>): (r: seq<Unit>) {
    seq(|statuses|, i requires 0 <= i < |statuses| => Key(statuses[i]))
  }

  function Cursor(st: Status): Option<Unit> {
    if st.currentReplica.Some? then Some(Unit(st.currentReplica.value, st.currentVolume)) else None
  }

  predicate CompletedAt(statuses: seq<VolumeStatus>, u: Unit) {
    exists i :: 0 <= i < |statuses| && Key(statuses[i]) == u && statuses[i].phase == VCompleted
  }

  // The printed name of a claim.
  function ClaimName(sts: string, k: ClaimKey): string {
    match k
    case Orig(u) => Names.OriginalPVCName(u.volume, sts, u.replica)
    case Temp(u) => Names.TempPVCName(u.volume, sts, u.replica)
  }

  // Structured claim keys are a faithful stand-in for claim names.
  lemma ClaimNameInjective(sts: string, k: ClaimKey, k': ClaimKey)
    requires ClaimName(sts, k) == ClaimName(sts, k')
    ensures k == k'
  {
    match (k, k')
    case (Orig(u), Orig(u')) => Names.OriginalNameInjective(sts, u.volume, u.replica, u'.volume, u'.replica);
    case (Temp(u), Temp(u')) => Names.TempNameInjective(sts, u.volume, u.replica, u'.volume, u'.replica);
    case (Orig(u), Temp(u')) => Names.OriginalTempDisjoint(sts, u.volume, u.replica, u'.volume, u'.replica);
    case (Temp(u), Orig(u')) => Names.OriginalTempDisjoint(sts, u'.volume, u'.replica, u.volume, u.replica);
  }
}
