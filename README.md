# Flocker block-device agent, modelled in Dafny

Flocker's block-device agent runs on every node of a cluster. It keeps the
node's datasets on block-storage volumes that a backend provides. This
project models three parts of the agent, together with the state changes it
runs:

- **The backend contract (`IBlockDeviceAPI`).** A registry of volumes keyed by
  block-device id. Volumes are created, listed, attached to a host, detached,
  resolved to a local device and destroyed. Every misuse fails with an
  explicit error (`UnknownVolume`, `AlreadyAttachedVolume`,
  `UnattachedVolume`) that carries the volume's id.
  - `blockdevice_api.dfy` is a class over `map` fields whose methods change
    it in place.
  - `api_contract.dfy` holds sequences of calls and what any caller can
    conclude from them.
- **The deployer (`BlockDeviceDeployer`).**
  - `discover_local_state` turns the volumes attached to this host into a
    node state: primary manifestations, each mounted at `mountroot/dataset_id`.
  - `calculate_necessary_state_changes` diffs that local state against the
    desired configuration. It destroys datasets marked deleted and creates
    configured datasets that are absent locally.
  - Both are in `deployer.dfy`, as pure functions with lemmas. The value types
    they read are in `control.dfy`.
- **The state changes.** `state_changes.dfy` runs them against the backend.
  `DestroyBlockDeviceDataset` runs unmount, detach and destroy, in that order.
  `CreateBlockDeviceDataset` runs create, attach and device lookup.
- **`_losetup_list_parse`.** Reads the `losetup --all` table into
  (device file, backing file) pairs.
  - `losetup.dfy` specifies the parser by a formatter and a round-trip lemma.
  - `losetup_examples.dfy` checks the parser's unit-test listings:
    - three are instances of the round-trip lemma `ParseFormat`;
    - the root listing without a final newline is an instance of
      `ParseUnterminatedRow`;
    - the empty listing follows from `ParseWithoutDevices`, about text with
      no device line.

`flocker/node/agents/blockdevice.py`, the implementation module, is not part
of this model. Every citation below points into its test suite, which pins
the behaviour down.

## Model

| member | source | states |
|---|---|---|
| BlockDeviceApi.BlockDeviceApi.constructor | flocker/node/agents/test/test_blockdevice.py:542-547 | a new backend holds no volumes and no attachments |
| BlockDeviceApi.BlockDeviceApi.CreateVolume | flocker/node/agents/test/test_blockdevice.py:549-581 | the new volume is unattached, has the requested dataset id and size, and is added under a fresh id; nothing else changes |
| BlockDeviceApi.ListStored | flocker/node/agents/test/test_blockdevice.py:549-570 | the listing holds exactly the stored volumes, and no id appears twice |
| BlockDeviceApi.ListedCount | flocker/node/agents/test/test_blockdevice.py:683-705 | a listing that holds each stored volume exactly once is as long as the store |
| BlockDeviceApi.BlockDeviceApi.ListVolumes | flocker/node/agents/test/test_blockdevice.py:542-570 | `list_volumes` returns every volume exactly once, attached or not, and nothing else |
| BlockDeviceApi.BlockDeviceApi.AttachVolume | flocker/node/agents/test/test_blockdevice.py:583-681 | an unknown id gives `UnknownVolume(id)`; a volume attached anywhere, this host included, gives `AlreadyAttachedVolume(id)`; neither error changes anything; otherwise only that volume's host is set and it gets a new device |
| BlockDeviceApi.BlockDeviceApi.DetachVolume | flocker/node/agents/test/test_blockdevice.py:850-929 | an unknown id gives `UnknownVolume(id)` and an unattached one gives `UnattachedVolume(id)`, both without change; otherwise only that volume's host becomes None and its device is released |
| BlockDeviceApi.BlockDeviceApi.GetDevicePath | flocker/node/agents/test/test_blockdevice.py:732-797 | unknown gives `UnknownVolume(id)`; unattached gives `UnattachedVolume(id)`; attached gives the volume's own device, which no other attached volume shares |
| BlockDeviceApi.BlockDeviceApi.DestroyVolume | flocker/node/agents/test/test_blockdevice.py:799-848 | an unknown id gives `UnknownVolume(id)` without change; otherwise exactly that volume is removed |
| ApiContract.ListVolumesEmpty | flocker/node/agents/test/test_blockdevice.py:542-547 | a fresh backend lists no volumes |
| ApiContract.CreatedIsListed | flocker/node/agents/test/test_blockdevice.py:549-581 | a created volume is unattached, has the requested dataset id and size, and is listed together with every earlier volume |
| ApiContract.DestroyDestroyedVolume | flocker/node/agents/test/test_blockdevice.py:811-848 | after create then destroy, the listing equals the one before; a second destroy and a later attach both fail with `UnknownVolume` carrying the id |
| ApiContract.AttachAttachedVolume | flocker/node/agents/test/test_blockdevice.py:598-660 | the first attach succeeds with the host set; a second attach, to the same or another host, fails with `AlreadyAttachedVolume(id)` |
| ApiContract.MultipleVolumesAttachedToHost | flocker/node/agents/test/test_blockdevice.py:707-730 | two volumes, of the two requested datasets and the requested size, are both attached to one host; the listing shows both and has grown by exactly two |
| ApiContract.ReattachDetachedVolume | flocker/node/agents/test/test_blockdevice.py:931-950 | attach, detach, attach to the same host gives a volume equal to the first attachment, and the store holds what it held after that attachment |
| ApiContract.DetachLeavesOthers | flocker/node/agents/test/test_blockdevice.py:876-929 | detaching one volume sets only its host to None; an unrelated volume and its attachment are unchanged |
| ApiContract.DevicePathRepeatable | flocker/node/agents/test/test_blockdevice.py:732-797 | two `get_device_path` calls agree; when they fail, the error carries the id |
| Control.FilePath.Child | flocker/node/agents/test/test_blockdevice.py:1541-1543 | a child path is its parent's segments followed by the name |
| Deployer.ManifestationOf | flocker/node/agents/test/test_blockdevice.py:129-135 | an attached volume is reported as a primary, undeleted manifestation of its own dataset, with the volume's size as maximum size and no metadata |
| Deployer.MountPath | flocker/node/agents/test/test_blockdevice.py:93-96 | `_mountpath_for_manifestation`: a dataset's mount path is the mount root followed by the dataset id, as test_blockdevice.py:390 spells it out |
| Deployer.Discover | flocker/node/agents/test/test_blockdevice.py:76-106 | the discovered node state carries the deployer's hostname, has a path for exactly the discovered datasets, and keys each manifestation by its dataset id |
| Deployer.DiscoverFindsAttachedHere | flocker/node/agents/test/test_blockdevice.py:107-160 | a dataset is discovered exactly when a listed volume for it is attached to this host; unattached and remote volumes are not reported |
| Deployer.DiscoverReportsVolume | flocker/node/agents/test/test_blockdevice.py:115-136 | an attached volume is reported as a primary manifestation with its dataset id and its size as maximum size, mounted at `mountroot/dataset_id` |
| Deployer.DiscoverLocalState | flocker/node/agents/test/test_blockdevice.py:76-160 | against a backend: the manifestations are exactly the datasets whose volume is attached to this host, each as that volume's primary manifestation at its mount path |
| Deployer.CalculateChanges | flocker/node/agents/test/test_blockdevice.py:191-527 | the group holds only create and destroy changes for datasets |
| Deployer.ShouldCreate | flocker/node/agents/test/test_blockdevice.py:328-527 | the create rule: never for a dataset present locally by id, and only for a configured, undeleted one |
| Deployer.ShouldDestroy | flocker/node/agents/test/test_blockdevice.py:191-318 | the destroy rule: only for a configured dataset marked deleted, and never together with the create rule |
| Deployer.DestroyExactlyWhenDeleted | flocker/node/agents/test/test_blockdevice.py:191-318 | a dataset is destroyed if and only if it is primary in local state and marked deleted in this node's configuration |
| Deployer.CreateExactlyWhenAbsent | flocker/node/agents/test/test_blockdevice.py:328-527 | a dataset is created if and only if it is configured here as primary, is not deleted and is absent from local state by id; it is created with the configured dataset at `mountroot/dataset_id` |
| Deployer.CreatesAndDestroysDisjoint | flocker/node/agents/test/test_blockdevice.py:191-527 | no dataset is both created and destroyed by the same group |
| Deployer.ClusterStateIgnored | flocker/node/agents/test/test_blockdevice.py:433-477 | the changes do not depend on the cluster state: local state overrides it |
| Deployer.OtherNodesInvisible | flocker/node/agents/test/test_blockdevice.py:276-318 | a deployer whose host has no configured node emits the empty group, whatever other nodes are configured with |
| Deployer.ConvergedNodeHasNoChanges | flocker/node/agents/test/test_blockdevice.py:479-527 | when every configured dataset is present locally by id and none is deleted, the group is empty, even if metadata or size differ |
| Deployer.OwnStateIsConverged | flocker/node/agents/test/test_blockdevice.py:191-228 | a node configured with `to_node` of its own local state, nothing deleted, gets the empty group |
| Deployer.UnattachedVolumeLooksAbsent | flocker/node/agents/test/test_blockdevice.py:107-160 | a dataset with no volume attached here is not discovered: no destroy is ever emitted for it, and a create is emitted whenever it is configured here as primary and not deleted |
| Deployer.DeletedDatasetIsDestroyed | flocker/node/agents/test/test_blockdevice.py:230-274 | a node whose only configured dataset is present locally, primary and marked deleted gets exactly `InParallel({DestroyBlockDeviceDataset(id)})` |
| Deployer.AbsentDatasetIsCreated | flocker/node/agents/test/test_blockdevice.py:360-399 | a node with no local datasets, configured with one primary dataset, gets exactly one `CreateBlockDeviceDataset(dataset, mountroot/dataset_id)` |
| Deployer.DestroyEqualityByDatasetId | flocker/node/agents/test/test_blockdevice.py:1322-1340 | two `DestroyBlockDeviceDataset` values are equal if and only if their dataset ids are |
| StateChanges.FindVolume | flocker/node/agents/test/test_blockdevice.py:1380-1387 | finds a listed volume of the dataset when there is one, and reports None only when no listed volume belongs to it |
| StateChanges.VolumeForDataset | flocker/node/agents/test/test_blockdevice.py:1354-1387 | the backend's volume for the dataset, or None exactly when the backend has none |
| StateChanges.RunUnmountBlockDevice | flocker/node/agents/test/test_blockdevice.py:1403-1434 | resolves the attached volume's own device; unknown and unattached volumes give the backend's error |
| StateChanges.RunDetachVolume | flocker/node/agents/test/test_blockdevice.py:1450-1472 | succeeds exactly for an attached volume, leaves it unattached and releases only its device; on error nothing changes |
| StateChanges.RunDestroyVolume | flocker/node/agents/test/test_blockdevice.py:1488-1508 | removes exactly that volume and leaves every device binding as it was; an unknown volume gives `UnknownVolume` without change |
| StateChanges.RunDestroyBlockDeviceDataset | flocker/node/agents/test/test_blockdevice.py:1342-1387 | on an attached volume, runs unmount, detach, destroy in that order, after which the backend holds no volume for the dataset, only its device is released and the other volumes are unchanged; stops at the first failure |
| StateChanges.RunCreateBlockDeviceDataset | flocker/node/agents/test/test_blockdevice.py:1525-1588 | the volume is the one derived from the dataset id, with the maximum size, attached to the deployer's host; the backend holds it in addition to what it held, and the only new device binding is the resolved device |
| Losetup.Parse | flocker/node/agents/test/test_blockdevice.py:1151-1214 | `_losetup_list_parse`: at most one device per line of the listing, and no device file contains a colon |
| Losetup.ParseLines | flocker/node/agents/test/test_blockdevice.py:1174-1189 | the devices read from a list of lines: at most one per line, each device file free of colons |
| Losetup.Lines | flocker/node/agents/test/test_blockdevice.py:1174-1189 | splitting a listing into lines: no line holds a newline, and only empty text has no lines |
| Losetup.ParseLine | flocker/node/agents/test/test_blockdevice.py:1161-1214 | one line: no colon gives no device; a device's file is the text before the line's first colon |
| Losetup.StripDeleted | flocker/node/agents/test/test_blockdevice.py:1191-1202 | a prefix of the path; it differs from the path exactly when the path ends with ` (deleted)`, and then that marker is what was removed |
| Losetup.IndexOf | flocker/node/agents/test/test_blockdevice.py:1204-1214 | the first position of a character, or None exactly when it is absent |
| Losetup.LastIndexOf | flocker/node/agents/test/test_blockdevice.py:1191-1202 | the last position of a character, or None exactly when it is absent |
| Losetup.StripDeletedOf | flocker/node/agents/test/test_blockdevice.py:1191-1202 | removing the ` (deleted)` marker undoes appending it and leaves an unmarked path alone |
| Losetup.ParseLineOfFormatRow | flocker/node/agents/test/test_blockdevice.py:1161-1214 | a well-formed row is read back as its device file and backing file, with or without device number, inode and deleted marker |
| Losetup.LinesOfFormat | flocker/node/agents/test/test_blockdevice.py:1174-1189 | a listing splits into exactly its rows, in order |
| Losetup.ParseFormat | flocker/node/agents/test/test_blockdevice.py:1151-1214 | round trip: parsing a listing of well-formed rows yields one (device, backing file) pair per row, in input order |
| Losetup.ParseUnterminatedRow | flocker/node/agents/test/test_blockdevice.py:1204-1214 | a single row without a final newline is read the same way |
| Losetup.ParseWithoutDevices | flocker/node/agents/test/test_blockdevice.py:1155-1159 | text with no device line lists no devices |
| LosetupExamples.ParseEmptyListing | flocker/node/agents/test/test_blockdevice.py:1155-1159 | a lone newline parses to the empty list |
| LosetupExamples.ParseOneLine | flocker/node/agents/test/test_blockdevice.py:1161-1172 | `/dev/loop0: []: (/tmp/rjw)` parses to that one pair |
| LosetupExamples.ParseMultipleLines | flocker/node/agents/test/test_blockdevice.py:1174-1189 | a two-line listing parses to both pairs, in order |
| LosetupExamples.ParseRemovesDeletedSuffix | flocker/node/agents/test/test_blockdevice.py:1191-1202 | the ` (deleted)` marker is removed from the backing file |
| LosetupExamples.ParseRemovesInode | flocker/node/agents/test/test_blockdevice.py:1204-1214 | a root listing with device number and inode, and no final newline, gives the same pair |

## Left out

- Operating-system effects are left out: sparse backing files, `losetup` attach and detach, `mkfs`, `mount` and `umount`, and reading `/proc/self/mounts`. An unmount is modelled by the device lookup it starts with, and the device path by a loop-device number handed out on attach.
- The directory layout made by `LoopbackBlockDeviceAPI.from_path` is not modelled. It is filesystem plumbing.
- Eliot logging is left out, apart from the order of the child actions of `DestroyBlockDeviceDataset`. That order is the `trace` result of `RunDestroyBlockDeviceDataset`.
- Twisted Deferreds, `zope.interface` verification and the root-only test skips are left out.
- How block-device ids are generated is left out. The model takes a function `idFor` from dataset id to block-device id and its inverse `datasetOf`, which together make the mapping injective. Ids are opaque strings.
- Dataset ids are unconstrained strings. The type checks of pyrsistent are not modelled: a missing `dataset_id` and a non-UUID one (test_blockdevice.py:1305-1320) are both accepted by the model.
- `_losetup_list_parse` itself lives in the implementation module, so its exact handling of malformed lines is reconstructed. The listing is split on newlines. A line is read as:
  - the device file, up to the first colon;
  - skipped attributes, up to the next colon;
  - an inode, up to the first `(`;
  - the backing file, up to the last `)`, with a trailing ` (deleted)` removed.
  Lines without that shape are skipped.
- BlockDeviceApi.BlockDeviceApi.CreateVolume: requires that the backend holds no volume for the dataset yet. Block-device ids are derived from dataset ids, so a second volume for a dataset would reuse an id, and the tests never create one.
- BlockDeviceApi.BlockDeviceApi.DestroyVolume: requires that the volume is not attached. The contract asks callers to detach first, and no test destroys an attached volume.
- StateChanges.RunCreateBlockDeviceDataset: requires a dataset with a maximum size. The diff does emit creates for unsized datasets, but the tests only run creates with `maximum_size` given, so what the source does without one is not shown.
- StateChanges.RunCreateBlockDeviceDataset: requires that the backend holds no volume for the dataset. A create interrupted after `create_volume` leaves an unattached volume. The diff then emits the create again (Deployer.UnattachedVolumeLooksAbsent), and the model cannot run it. Resuming a half-finished create is not modelled. The mkfs and mount steps are not modelled either.
- StateChanges.RunDestroyBlockDeviceDataset: a destroy interrupted after its detach leaves an unattached volume. Discovery no longer reports that volume, so the diff never emits the destroy again (Deployer.UnattachedVolumeLooksAbsent). Re-running the destroy fails with `UnattachedVolume`, so the volume is stranded. Resuming a half-finished destroy is not modelled.
- Deployer.CalculateChanges: the tests leave open what happens to a deleted dataset that is not present locally, and to a non-primary one. Destroys are limited to datasets present locally as primary. That is the case the source describes for a destroy (test_blockdevice.py:231-237): a dataset with a primary manifestation on the node whose volume still exists. Creates are limited to primary datasets that are not deleted, as in every creation test (test_blockdevice.py:328-527).
- Deployer.CalculateChanges: the group of changes is modelled as a set. The order and multiplicity of the source's `InParallel(changes=[...])` list are not kept. Every test compares a group of at most one change.
- StateChanges.RunDestroyBlockDeviceDataset: the dataset's volume is looked up on every host. A volume attached to another node is unmounted, detached and destroyed like one attached here. The test (test_blockdevice.py:1342-1387) covers only a volume attached to the deployer's own host.
- Deployer.OtherNodesInvisible: configured nodes are looked up by hostname, so "another node" means a deployer whose hostname has no node in the configuration.
