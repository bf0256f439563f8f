/**
 * The `IBlockDeviceAPI` contract as a sequence of calls: what any caller can
 * conclude, from the specifications of the backend's operations alone, about
 * a series of operations on any valid backend state.
 */
module ApiContract {
  import opened Wrappers
  import opened Control
  import opened BlockDeviceApi

  /** A backend that has just been constructed lists no volumes. */
  method ListVolumesEmpty(idFor: DatasetId -> BlockDeviceId, ghost datasetOf: BlockDeviceId -> DatasetId)
    returns (vs: seq<Volume>)
    requires Decodes(idFor, datasetOf)
    ensures vs == []
  {
    var api := new BlockDeviceApi(idFor, datasetOf);
    vs := api.ListVolumes();
  }

  /**
   * A created volume is unattached, belongs to the requested dataset and is
   * listed next to every volume that existed before.
   */
  method CreatedIsListed(api: BlockDeviceApi, datasetId: DatasetId, size: nat)
    returns (v: Volume, vs: seq<Volume>)
    requires api.Valid() && !api.HasVolumeFor(datasetId)
    modifies api
    ensures api.Valid()
    ensures v.datasetId == datasetId && v.size == size && v.host == None
    ensures v in vs && |vs| == |old(api.volumes)| + 1
    ensures forall w :: w in old(api.volumes.Values) ==> w in vs
  {
    v := api.CreateVolume(datasetId, size);
    vs := api.ListVolumes();
    forall w | w in old(api.volumes.Values)
      ensures w in vs
    {
      var id :| id in old(api.volumes) && old(api.volumes)[id] == w;
      assert api.volumes[id] == w;
    }
  }

  /** A listing that holds exactly the stored volumes holds exactly the store's values. */
  lemma ListedValues(vs: seq<Volume>, volumes: map<BlockDeviceId, Volume>)
    requires KeyedById(volumes)
    requires forall v :: v in vs <==> v.blockdeviceId in volumes && volumes[v.blockdeviceId] == v
    ensures forall w :: w in vs <==> w in volumes.Values
  {
  }

  /**
   * Destroying a volume removes it from the listing and leaves the others;
   * destroying it again, or attaching it afterwards, fails with
   * `UnknownVolume` carrying its id.
   */
  method DestroyDestroyedVolume(api: BlockDeviceApi, datasetId: DatasetId, size: nat, host: Hostname)
    returns (vs: seq<Volume>, again: Result<()>, attach: Result<Volume>)
    requires api.Valid() && !api.HasVolumeFor(datasetId)
    modifies api
    ensures api.Valid()
    ensures forall w :: w in vs <==> w in old(api.volumes.Values)
    ensures again == Err(UnknownVolume(api.idFor(datasetId)))
    ensures attach == Err(UnknownVolume(api.idFor(datasetId)))
  {
    ghost var before := api.volumes;
    var v := api.CreateVolume(datasetId, size);
    var destroyed := api.DestroyVolume(v.blockdeviceId);
    assert before[v.blockdeviceId := v] - {v.blockdeviceId} == before;
    vs := api.ListVolumes();
    ListedValues(vs, api.volumes);
    again := api.DestroyVolume(v.blockdeviceId);
    attach := api.AttachVolume(v.blockdeviceId, host);
  }

  /**
   * A volume already attached, to the same host or another one, cannot be
   * attached again.
   */
  method AttachAttachedVolume(api: BlockDeviceApi, blockdeviceId: BlockDeviceId, host: Hostname, other: Hostname)
    returns (first: Result<Volume>, second: Result<Volume>)
    requires api.Valid()
    requires blockdeviceId in api.volumes && api.volumes[blockdeviceId].host.None?
    modifies api
    ensures api.Valid()
    ensures first.Ok? && first.value.host == Some(host)
    ensures second == Err(AlreadyAttachedVolume(blockdeviceId))
  {
    first := api.AttachVolume(blockdeviceId, host);
    second := api.AttachVolume(blockdeviceId, other);
  }

  /**
   * Several volumes can be attached to one host; the listing then shows both
   * attached volumes, which are two distinct volumes added to what was
   * listed before.
   */
  method MultipleVolumesAttachedToHost(api: BlockDeviceApi, a: DatasetId, b: DatasetId, size: nat, host: Hostname)
    returns (first: Result<Volume>, second: Result<Volume>, vs: seq<Volume>)
    requires api.Valid() && a != b && !api.HasVolumeFor(a) && !api.HasVolumeFor(b)
    modifies api
    ensures api.Valid()
    ensures first.Ok? && second.Ok?
    ensures first.value.host == Some(host) && second.value.host == Some(host)
    ensures first.value.datasetId == a && second.value.datasetId == b
    ensures first.value.size == size && second.value.size == size
    ensures first.value in vs && second.value in vs
    ensures |vs| == |old(api.volumes)| + 2
  {
    var v1 := api.CreateVolume(a, size);
    var v2 := api.CreateVolume(b, size);
    assert v1.blockdeviceId != v2.blockdeviceId;
    first := api.AttachVolume(v1.blockdeviceId, host);
    second := api.AttachVolume(v2.blockdeviceId, host);
    vs := api.ListVolumes();
  }

  /**
   * Detaching a volume and attaching it to the same host again yields a
   * volume equal to the first attachment, and the backend holds exactly what
   * it held after that first attachment.
   */
  method ReattachDetachedVolume(api: BlockDeviceApi, blockdeviceId: BlockDeviceId, host: Hostname)
    returns (attached: Result<Volume>, reattached: Result<Volume>)
    requires api.Valid()
    requires blockdeviceId in api.volumes && api.volumes[blockdeviceId].host.None?
    modifies api
    ensures api.Valid()
    ensures attached.Ok? && reattached == attached
    ensures api.volumes == old(api.volumes)[blockdeviceId := attached.value]
  {
    attached := api.AttachVolume(blockdeviceId, host);
    var detached := api.DetachVolume(blockdeviceId);
    reattached := api.AttachVolume(blockdeviceId, host);
  }

  /**
   * Detaching one volume leaves an unrelated attached volume as it was.
   */
  method DetachLeavesOthers(api: BlockDeviceApi, blockdeviceId: BlockDeviceId, unrelated: BlockDeviceId)
    returns (r: Result<()>)
    requires api.Valid() && blockdeviceId != unrelated
    requires blockdeviceId in api.volumes && api.volumes[blockdeviceId].host.Some?
    requires unrelated in api.volumes
    modifies api
    ensures api.Valid() && r == Ok(())
    ensures api.volumes.Keys == old(api.volumes.Keys)
    ensures api.volumes[blockdeviceId] == old(api.volumes[blockdeviceId]).(host := None)
    ensures api.volumes[unrelated] == old(api.volumes[unrelated])
    ensures unrelated in api.devices <==> unrelated in old(api.devices)
  {
    r := api.DetachVolume(blockdeviceId);
  }

  /**
   * Two calls of `get_device_path` for the same attached volume return equal
   * paths; for an unattached or unknown volume both fail with the error that
   * carries its id.
   */
  method DevicePathRepeatable(api: BlockDeviceApi, blockdeviceId: BlockDeviceId)
    returns (first: Result<DevicePath>, second: Result<DevicePath>)
    requires api.Valid()
    ensures first == second
    ensures first.Err? ==> first.error.blockdeviceId == blockdeviceId
  {
    first := api.GetDevicePath(blockdeviceId);
    second := api.GetDevicePath(blockdeviceId);
  }
}
