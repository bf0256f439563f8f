/**
 * Running the state changes against the deployer's backend.  Each `run`
 * calls the backend and propagates its contract errors unchanged; the
 * composite `DestroyBlockDeviceDataset` runs unmount, detach and destroy in
 * that order and stops at the first failure.  Formatting, mounting and
 * unmounting filesystems are not part of this model: an unmount is modelled
 * by the device lookup it starts with.
 */
module StateChanges {
  import opened Wrappers
  import opened Control
  import opened BlockDeviceApi
  import opened Deployer

  /**
   * The volume listed for `datasetId`, searched in listing order, or None
   * when no listed volume belongs to it.
   */
  method FindVolume(volumes: seq<Volume>, datasetId: DatasetId) returns (found: Option<Volume>)
    ensures found.Some? ==> found.value in volumes && found.value.datasetId == datasetId
    ensures found.None? <==> forall v :: v in volumes ==> v.datasetId != datasetId
  {
    var i := 0;
    while i < |volumes|
      invariant 0 <= i <= |volumes|
      invariant forall j :: 0 <= j < i ==> volumes[j].datasetId != datasetId
    {
      if volumes[i].datasetId == datasetId {
        return Some(volumes[i]);
      }
      i := i + 1;
    }
    return None;
  }

  /** The backend's volume for `datasetId`, looked up in its listing. */
  method VolumeForDataset(api: BlockDeviceApi, datasetId: DatasetId) returns (found: Option<Volume>)
    requires api.Valid()
    ensures found.None? <==> !api.HasVolumeFor(datasetId)
    ensures found.Some? ==> found.value == api.volumes[api.idFor(datasetId)]
  {
    var volumes := api.ListVolumes();
    found := FindVolume(volumes, datasetId);
  }

  /**
   * `UnmountBlockDevice.run`: resolves the device the volume is attached
   * through; fails with the backend's error when the volume is unknown or
   * unattached.
   */
  method RunUnmountBlockDevice(api: BlockDeviceApi, volume: Volume) returns (r: Result<DevicePath>)
    requires api.Valid()
    ensures volume.blockdeviceId !in api.volumes ==> r == Err(UnknownVolume(volume.blockdeviceId))
    ensures volume.blockdeviceId in api.volumes && api.volumes[volume.blockdeviceId].host.None? ==>
      r == Err(UnattachedVolume(volume.blockdeviceId))
    ensures r.Ok? <==> volume.blockdeviceId in api.volumes && api.volumes[volume.blockdeviceId].host.Some?
    ensures r.Ok? ==> volume.blockdeviceId in api.devices && r.value == api.devices[volume.blockdeviceId]
  {
    r := api.GetDevicePath(volume.blockdeviceId);
  }

  /** `DetachVolume.run`: detaches the volume, propagating the backend's error. */
  method RunDetachVolume(api: BlockDeviceApi, volume: Volume) returns (r: Result<()>)
    requires api.Valid()
    modifies api
    ensures api.Valid()
    ensures r.Err? ==> unchanged(api)
    ensures r.Ok? <==> volume.blockdeviceId in old(api.volumes) && old(api.volumes)[volume.blockdeviceId].host.Some?
    ensures r.Ok? ==>
      api.volumes == old(api.volumes)[volume.blockdeviceId := old(api.volumes)[volume.blockdeviceId].(host := None)]
    ensures r.Ok? ==> api.devices == old(api.devices) - {volume.blockdeviceId}
  {
    r := api.DetachVolume(volume.blockdeviceId);
  }

  /** `DestroyVolume.run`: destroys the (unattached) volume, propagating the backend's error. */
  method RunDestroyVolume(api: BlockDeviceApi, volume: Volume) returns (r: Result<()>)
    requires api.Valid()
    requires volume.blockdeviceId in api.volumes ==> api.volumes[volume.blockdeviceId].host.None?
    modifies api
    ensures api.Valid()
    ensures r.Err? ==> r == Err(UnknownVolume(volume.blockdeviceId)) && unchanged(api)
    ensures r.Ok? <==> volume.blockdeviceId in old(api.volumes)
    ensures api.volumes == old(api.volumes) - {volume.blockdeviceId}
    ensures api.devices == old(api.devices)
  {
    r := api.DestroyVolume(volume.blockdeviceId);
  }

  /**
   * `DestroyBlockDeviceDataset.run`: finds the dataset's volume and runs
   * unmount, detach and destroy on it, in that order, stopping at the first
   * failure.  `trace` lists the child changes started, in order.  On success
   * the backend holds no volume for the dataset and every other volume is as
   * it was.
   */
  method RunDestroyBlockDeviceDataset(api: BlockDeviceApi, datasetId: DatasetId)
    returns (r: Result<()>, trace: seq<StateChange>)
    requires api.Valid()
    modifies api
    ensures api.Valid()
    ensures !old(api.HasVolumeFor(datasetId)) ==>
      r == Err(UnknownVolume(api.idFor(datasetId))) && trace == [] && unchanged(api)
    ensures old(api.HasVolumeFor(datasetId)) && old(api.volumes[api.idFor(datasetId)]).host.None? ==>
      && r == Err(UnattachedVolume(api.idFor(datasetId)))
      && trace == [UnmountBlockDevice(old(api.volumes[api.idFor(datasetId)]))]
      && unchanged(api)
    ensures old(api.HasVolumeFor(datasetId)) && old(api.volumes[api.idFor(datasetId)]).host.Some? ==>
      var v := old(api.volumes[api.idFor(datasetId)]);
      && r == Ok(())
      && trace == [UnmountBlockDevice(v), DetachVolume(v), DestroyVolume(v)]
      && api.volumes == old(api.volumes) - {v.blockdeviceId}
      && api.devices == old(api.devices) - {v.blockdeviceId}
      && !api.HasVolumeFor(datasetId)
  {
    trace := [];
    var found := VolumeForDataset(api, datasetId);
    if found.None? {
      return Err(UnknownVolume(api.idFor(datasetId))), trace;
    }
    var volume := found.value;
    ghost var before := api.volumes;
    assert volume.blockdeviceId == api.idFor(datasetId) && before[volume.blockdeviceId] == volume;

    trace := trace + [UnmountBlockDevice(volume)];
    var unmounted := RunUnmountBlockDevice(api, volume);
    if unmounted.Err? {
      return Err(unmounted.error), trace;
    }

    // Once the device has been resolved the volume is attached, so neither
    // the detach nor the destroy that follow can fail.
    trace := trace + [DetachVolume(volume)];
    var detached := RunDetachVolume(api, volume);
    assert detached.Ok? && api.volumes == before[volume.blockdeviceId := volume.(host := None)];

    trace := trace + [DestroyVolume(volume)];
    var destroyed := RunDestroyVolume(api, volume);
    assert destroyed.Ok? && api.volumes == before - {volume.blockdeviceId};
    r := Ok(());
  }

  /**
   * `CreateBlockDeviceDataset.run`: creates a volume of the dataset's
   * maximum size, attaches it to the deployer's host and resolves its device
   * (formatting and mounting at `mountpoint` are not part of this model).
   * The result is the volume derived from the dataset id, attached here.
   */
  method RunCreateBlockDeviceDataset(deployer: BlockDeviceDeployer, api: BlockDeviceApi,
                                     dataset: Dataset, mountpoint: FilePath)
    returns (r: Result<Volume>, device: Result<DevicePath>)
    requires api.Valid() && !api.HasVolumeFor(dataset.datasetId)
    requires dataset.maximumSize.Some?
    modifies api
    ensures api.Valid()
    ensures r == Ok(Volume(api.idFor(dataset.datasetId), dataset.datasetId, dataset.maximumSize.value,
                           Some(deployer.hostname)))
    ensures api.volumes == old(api.volumes)[r.value.blockdeviceId := r.value]
    ensures device.Ok? && api.devices == old(api.devices)[r.value.blockdeviceId := device.value]
  {
    var created := api.CreateVolume(dataset.datasetId, dataset.maximumSize.value);
    r := api.AttachVolume(created.blockdeviceId, deployer.hostname);
    device := api.GetDevicePath(r.value.blockdeviceId);
  }
}
