/** The provider specification record and the helpers of pkg/ionos/apis/utils.go:
    the zone-to-region rule and the three settlement waits the controller uses,
    which poll every 15 seconds at most `MachineOperationRetries + 1` times. */
module Apis {
  import opened Common
  import opened Polling

  /** The provider specification as the controller reads it. A string field holds ""
      when unset, a number 0. The floating-pool and network ids are the fields the
      controller reads (FloatingPoolIPID, NetworkID). */
  datatype ProviderSpec = ProviderSpec(
    datacenterId: string,
    cluster: string,
    zone: string,
    cores: nat,
    memory: nat,
    imageId: string,
    sshKey: string,
    floatingPoolIpId: string,
    networkId: string,
    volumeSize: nat)

  /** defaultMachineOperationRetries. */
  const MachineOperationRetries: nat := 20

  /** GetRegionFromZone: the part of the zone before its first '-', or the whole
      zone when it holds none. */
  function GetRegionFromZone(zone: string): (region: string)
    ensures '-' !in region
    ensures region <= zone
    ensures |region| < |zone| ==> zone[|region|] == '-'
    ensures '-' !in zone ==> region == zone
  {
    Before(zone, '-')
  }

  lemma RegionOfDeFra()
    ensures GetRegionFromZone("de-fra") == "de"
  {
    var zone := "de-fra";
    assert zone[2] == '-' && zone[0] != '-' && zone[1] != '-';
  }

  /** The region never depends on what follows the first '-'. */
  lemma RegionIgnoresSuffix(prefix: string, suffix: string)
    requires '-' !in prefix
    ensures GetRegionFromZone(prefix + "-" + suffix) == prefix
  {
    var zone := prefix + "-" + suffix;
    assert IndexOf(zone, '-') == |prefix| by {
      assert zone[|prefix|] == '-';
      forall j | 0 <= j < |prefix| ensures zone[j] != '-' { assert zone[j] == prefix[j]; }
    }
    assert zone[..|prefix|] == prefix;
  }

  /** WaitForNicModificationsAndGetResult: `ls` are the replies to the NIC lookups. */
  method WaitForNicModificationsAndGetResult(ls: nat -> Lookup)
    returns (nic: Resource, err: Option<WaitError>, lookups: nat, sleeps: nat)
    requires forall i: nat :: ls(i).status.Some?
    ensures WaitOutcome(nic, err, lookups) == Expected(ls, MachineOperationRetries, NicKind)
    ensures lookups <= MachineOperationRetries + 1 && sleeps + 1 == lookups
  {
    nic, err, lookups, sleeps := Poll(ls, MachineOperationRetries, NicKind, false);
  }

  /** WaitForNicModifications returns the error of the wait and drops its result. */
  method WaitForNicModifications(ls: nat -> Lookup) returns (err: Option<WaitError>)
    requires forall i: nat :: ls(i).status.Some?
    ensures err == Expected(ls, MachineOperationRetries, NicKind).err
  {
    var _, e, _, _ := WaitForNicModificationsAndGetResult(ls);
    err := e;
  }

  method WaitForServerModificationsAndGetResult(ls: nat -> Lookup)
    returns (server: Resource, err: Option<WaitError>, lookups: nat, sleeps: nat)
    requires forall i: nat :: ls(i).status.Some?
    ensures WaitOutcome(server, err, lookups) == Expected(ls, MachineOperationRetries, ServerKind)
    ensures lookups <= MachineOperationRetries + 1 && sleeps + 1 == lookups
  {
    server, err, lookups, sleeps := Poll(ls, MachineOperationRetries, ServerKind, false);
  }

  method WaitForServerModifications(ls: nat -> Lookup) returns (err: Option<WaitError>)
    requires forall i: nat :: ls(i).status.Some?
    ensures err == Expected(ls, MachineOperationRetries, ServerKind).err
  {
    var _, e, _, _ := WaitForServerModificationsAndGetResult(ls);
    err := e;
  }

  method WaitForVolumeModificationsAndGetResult(ls: nat -> Lookup)
    returns (volume: Resource, err: Option<WaitError>, lookups: nat, sleeps: nat)
    requires forall i: nat :: ls(i).status.Some?
    ensures WaitOutcome(volume, err, lookups) == Expected(ls, MachineOperationRetries, VolumeKind)
    ensures lookups <= MachineOperationRetries + 1 && sleeps + 1 == lookups
  {
    volume, err, lookups, sleeps := Poll(ls, MachineOperationRetries, VolumeKind, false);
  }

  method WaitForVolumeModifications(ls: nat -> Lookup) returns (err: Option<WaitError>)
    requires forall i: nat :: ls(i).status.Some?
    ensures err == Expected(ls, MachineOperationRetries, VolumeKind).err
  {
    var _, e, _, _ := WaitForVolumeModificationsAndGetResult(ls);
    err := e;
  }
}
