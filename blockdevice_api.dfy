/**
 * The block-device backend contract (`IBlockDeviceAPI`) and its reference
 * in-process implementation: a registry of volumes keyed by block-device id,
 * changed in place by create, attach, detach and destroy.
 */
module BlockDeviceApi {
  import opened Wrappers
  import opened Control

  type BlockDeviceId = string

  /** One unit of block storage; `host` is None while it is unattached. */
  datatype Volume = Volume(
    blockdeviceId: BlockDeviceId,
    datasetId: DatasetId,
    size: nat,
    host: Option<Hostname>)

  /** The contract's error kinds; each carries the block-device id it is about. */
  datatype VolumeError =
    | UnknownVolume(blockdeviceId: BlockDeviceId)
    | AlreadyAttachedVolume(blockdeviceId: BlockDeviceId)
    | UnattachedVolume(blockdeviceId: BlockDeviceId)

  datatype Result<+T> = Ok(value: T) | Err(error: VolumeError)

  /** The local block device an attached volume is bound to: the loop device `/dev/loop<number>`. */
  datatype DevicePath = DevLoop(number: nat)

  /**
   * `datasetOf` recovers the dataset from the block-device id `idFor` gives
   * it, so no two distinct datasets are given the same block-device id.
   */
  ghost predicate Decodes(idFor: DatasetId -> BlockDeviceId, datasetOf: BlockDeviceId -> DatasetId)
  {
    forall d :: datasetOf(idFor(d)) == d
  }

  /** Every volume is stored under its own block-device id. */
  ghost predicate KeyedById(volumes: map<BlockDeviceId, Volume>)
  {
    forall id :: id in volumes ==> volumes[id].blockdeviceId == id
  }

  /** A listing that holds each stored volume exactly once is as long as the store. */
  lemma {:induction false} ListedCount(vs: seq<Volume>, volumes: map<BlockDeviceId, Volume>)
    requires KeyedById(volumes)
    requires forall v :: v in vs <==> v.blockdeviceId in volumes && volumes[v.blockdeviceId] == v
    requires forall i, j :: 0 <= i < j < |vs| ==> vs[i].blockdeviceId != vs[j].blockdeviceId
    ensures |vs| == |volumes|
  {
    if vs == [] {
      assert forall id :: id !in volumes;
      assert volumes == map[];
    } else {
      var last := vs[|vs| - 1];
      var prefix := vs[..|vs| - 1];
      var rest := volumes - {last.blockdeviceId};
      forall v ensures v in prefix <==> v.blockdeviceId in rest && rest[v.blockdeviceId] == v {
        if v in prefix {
          var i :| 0 <= i < |prefix| && prefix[i] == v;
          assert vs[i] == v;
        }
        if v.blockdeviceId in rest && rest[v.blockdeviceId] == v {
          assert v in vs;
          var i :| 0 <= i < |vs| && vs[i] == v;
          assert i != |vs| - 1;
          assert prefix[i] == v;
        }
      }
      ListedCount(prefix, rest);
      assert last.blockdeviceId in volumes;
    }
  }

  /** Every volume of `stored`, each once, in no particular order. */
  method ListStored(stored: map<BlockDeviceId, Volume>) returns (vs: seq<Volume>)
    requires KeyedById(stored)
    ensures forall v :: v in vs <==> v.blockdeviceId in stored && stored[v.blockdeviceId] == v
    ensures forall i, j :: 0 <= i < j < |vs| ==> vs[i].blockdeviceId != vs[j].blockdeviceId
  {
    vs := [];
    var pending := stored.Keys;
    ghost var listed: set<BlockDeviceId> := {};
    while pending != {}
      invariant pending !! listed && pending + listed == stored.Keys
      invariant forall i :: 0 <= i < |vs| ==> vs[i].blockdeviceId in listed
      invariant forall v :: v in vs <==> v.blockdeviceId in listed && stored[v.blockdeviceId] == v
      invariant forall i, j :: 0 <= i < j < |vs| ==> vs[i].blockdeviceId != vs[j].blockdeviceId
      decreases pending
    {
      var id :| id in pending;
      vs := vs + [stored[id]];
      pending := pending - {id};
      listed := listed + {id};
    }
    assert listed == stored.Keys;
  }

  class BlockDeviceApi {
    /** How a block-device id is derived from the dataset id the volume is created for. */
    const idFor: DatasetId -> BlockDeviceId
    /** The dataset a block-device id was derived from. */
    ghost const datasetOf: BlockDeviceId -> DatasetId
    /** Every volume the backend knows about, attached or not. */
    var volumes: map<BlockDeviceId, Volume>
    /** The device each attached volume is bound to. */
    var devices: map<BlockDeviceId, DevicePath>
    /** The next loop-device number never handed out before. */
    var nextDevice: nat
    /** The volume each device number handed out so far was bound to. */
    ghost var owners: map<nat, BlockDeviceId>

    ghost predicate Valid()
      reads this
    {
      && Decodes(idFor, datasetOf)
      && KeyedById(volumes)
      && (forall id :: id in volumes ==> idFor(volumes[id].datasetId) == id)
      && (forall id :: id in devices <==> id in volumes && volumes[id].host.Some?)
      && (forall id :: id in devices ==>
            devices[id].number < nextDevice && devices[id].number in owners && owners[devices[id].number] == id)
    }

    /** A backend with no volumes. */
    constructor (idFor: DatasetId -> BlockDeviceId, ghost datasetOf: BlockDeviceId -> DatasetId)
      requires Decodes(idFor, datasetOf)
      ensures Valid() && this.idFor == idFor
      ensures volumes == map[] && devices == map[]
    {
      this.idFor := idFor;
      this.datasetOf := datasetOf;
      volumes := map[];
      devices := map[];
      nextDevice := 0;
      owners := map[];
    }

    /** True when the backend holds a volume created for `datasetId`. */
    predicate HasVolumeFor(datasetId: DatasetId)
      reads this
    {
      idFor(datasetId) in volumes
    }

    /**
     * `create_volume`: a new, unattached volume of `size` bytes for the
     * dataset; nothing else changes.
     */
    method CreateVolume(datasetId: DatasetId, size: nat) returns (v: Volume)
      requires Valid() && !HasVolumeFor(datasetId)
      modifies this
      ensures Valid()
      ensures v == Volume(idFor(datasetId), datasetId, size, None)
      ensures v.blockdeviceId !in old(volumes)
      ensures volumes == old(volumes)[v.blockdeviceId := v]
      ensures devices == old(devices) && nextDevice == old(nextDevice)
    {
      v := Volume(idFor(datasetId), datasetId, size, None);
      volumes := volumes[v.blockdeviceId := v];
    }

    /**
     * `list_volumes`: every volume the backend knows about, each once.
     */
    method ListVolumes() returns (vs: seq<Volume>)
      requires Valid()
      ensures |vs| == |volumes|
      ensures forall v :: v in vs <==> v.blockdeviceId in volumes && volumes[v.blockdeviceId] == v
      ensures forall i, j :: 0 <= i < j < |vs| ==> vs[i].blockdeviceId != vs[j].blockdeviceId
    {
      vs := ListStored(volumes);
      ListedCount(vs, volumes);
    }

    /**
     * `attach_volume`: an unattached volume becomes attached to `host` and
     * is bound to a new device.  Attaching is not idempotent: a volume
     * already attached anywhere, `host` included, is refused.
     */
    method AttachVolume(blockdeviceId: BlockDeviceId, host: Hostname) returns (r: Result<Volume>)
      requires Valid()
      modifies this
      ensures Valid()
      ensures blockdeviceId !in old(volumes) ==>
        r == Err(UnknownVolume(blockdeviceId)) && unchanged(this)
      ensures blockdeviceId in old(volumes) && old(volumes)[blockdeviceId].host.Some? ==>
        r == Err(AlreadyAttachedVolume(blockdeviceId)) && unchanged(this)
      ensures blockdeviceId in old(volumes) && old(volumes)[blockdeviceId].host.None? ==>
        && r == Ok(old(volumes)[blockdeviceId].(host := Some(host)))
        && volumes == old(volumes)[blockdeviceId := r.value]
        && devices == old(devices)[blockdeviceId := DevLoop(old(nextDevice))]
        && nextDevice == old(nextDevice) + 1
    {
      if blockdeviceId !in volumes {
        return Err(UnknownVolume(blockdeviceId));
      }
      var v := volumes[blockdeviceId];
      if v.host.Some? {
        return Err(AlreadyAttachedVolume(blockdeviceId));
      }
      var attached := v.(host := Some(host));
      volumes := volumes[blockdeviceId := attached];
      devices := devices[blockdeviceId := DevLoop(nextDevice)];
      owners := owners[nextDevice := blockdeviceId];
      nextDevice := nextDevice + 1;
      r := Ok(attached);
    }

    /**
     * `detach_volume`: an attached volume becomes unattached and loses its
     * device; every other volume is unchanged.
     */
    method DetachVolume(blockdeviceId: BlockDeviceId) returns (r: Result<()>)
      requires Valid()
      modifies this
      ensures Valid()
      ensures blockdeviceId !in old(volumes) ==>
        r == Err(UnknownVolume(blockdeviceId)) && unchanged(this)
      ensures blockdeviceId in old(volumes) && old(volumes)[blockdeviceId].host.None? ==>
        r == Err(UnattachedVolume(blockdeviceId)) && unchanged(this)
      ensures blockdeviceId in old(volumes) && old(volumes)[blockdeviceId].host.Some? ==>
        && r == Ok(())
        && volumes == old(volumes)[blockdeviceId := old(volumes)[blockdeviceId].(host := None)]
        && devices == old(devices) - {blockdeviceId}
        && nextDevice == old(nextDevice)
    {
      if blockdeviceId !in volumes {
        return Err(UnknownVolume(blockdeviceId));
      }
      var v := volumes[blockdeviceId];
      if v.host.None? {
        return Err(UnattachedVolume(blockdeviceId));
      }
      volumes := volumes[blockdeviceId := v.(host := None)];
      devices := devices - {blockdeviceId};
      r := Ok(());
    }

    /**
     * `get_device_path`: the device an attached volume is bound to.  The
     * answer depends only on the current attachment, so repeated calls agree.
     */
    method GetDevicePath(blockdeviceId: BlockDeviceId) returns (r: Result<DevicePath>)
      requires Valid()
      ensures blockdeviceId !in volumes ==> r == Err(UnknownVolume(blockdeviceId))
      ensures blockdeviceId in volumes && volumes[blockdeviceId].host.None? ==>
        r == Err(UnattachedVolume(blockdeviceId))
      ensures blockdeviceId in volumes && volumes[blockdeviceId].host.Some? ==>
        r.Ok? && blockdeviceId in devices && r.value == devices[blockdeviceId]
      ensures r.Ok? ==> forall other :: other in devices && other != blockdeviceId ==>
        devices[other] != r.value
    {
      if blockdeviceId !in volumes {
        return Err(UnknownVolume(blockdeviceId));
      }
      if volumes[blockdeviceId].host.None? {
        return Err(UnattachedVolume(blockdeviceId));
      }
      r := Ok(devices[blockdeviceId]);
    }

    /**
     * `destroy_volume`: an unattached volume is removed for good; every
     * other volume is unchanged.  Callers detach before destroying.
     */
    method DestroyVolume(blockdeviceId: BlockDeviceId) returns (r: Result<()>)
      requires Valid()
      requires blockdeviceId in volumes ==> volumes[blockdeviceId].host.None?
      modifies this
      ensures Valid()
      ensures blockdeviceId !in old(volumes) ==>
        r == Err(UnknownVolume(blockdeviceId)) && unchanged(this)
      ensures blockdeviceId in old(volumes) ==>
        && r == Ok(())
        && volumes == old(volumes) - {blockdeviceId}
        && devices == old(devices) && nextDevice == old(nextDevice)
    {
      if blockdeviceId !in volumes {
        return Err(UnknownVolume(blockdeviceId));
      }
      volumes := volumes - {blockdeviceId};
      r := Ok(());
    }
  }
}
