/**
 * `BlockDeviceDeployer`: discovery of the datasets whose volumes are attached
 * to this node, and the diff of that local state against the desired
 * configuration that yields the state changes to run.
 */
module Deployer {
  import opened Wrappers
  import opened Control
  import opened BlockDeviceApi

  /** The deployer's own identity: its hostname and where it mounts datasets. */
  datatype BlockDeviceDeployer = BlockDeviceDeployer(hostname: Hostname, mountroot: FilePath)

  /** The state changes the deployer emits or runs; equality is by field values. */
  datatype StateChange =
    | CreateBlockDeviceDataset(dataset: Dataset, mountpoint: FilePath)
    | DestroyBlockDeviceDataset(datasetId: DatasetId)
    | UnmountBlockDevice(volume: Volume)
    | DetachVolume(volume: Volume)
    | DestroyVolume(volume: Volume)

  /** A group of state changes that may run concurrently. */
  datatype InParallel = InParallel(changes: set<StateChange>)

  /** Where the deployer mounts dataset `datasetId`: `mountroot/datasetId`. */
  function MountPath(deployer: BlockDeviceDeployer, datasetId: DatasetId): (p: FilePath)
    ensures |p.segments| == |deployer.mountroot.segments| + 1
    ensures p.segments[..|deployer.mountroot.segments|] == deployer.mountroot.segments
    ensures p.segments[|deployer.mountroot.segments|] == datasetId
  {
    deployer.mountroot.Child(datasetId)
  }

  /** The primary manifestation discovery reports for an attached volume. */
  function ManifestationOf(volume: Volume): (m: Manifestation)
    ensures m.primary && !m.dataset.deleted && m.dataset.metadata == map[]
    ensures m.dataset.datasetId == volume.datasetId && m.dataset.maximumSize == Some(volume.size)
  {
    Manifestation(Dataset(volume.datasetId, false, Some(volume.size), map[]), true)
  }

  // ---------------------------------------------------------------------
  // Discovery
  // ---------------------------------------------------------------------

  /** True when `volumes[i]` is attached to the deployer's host and belongs to `datasetId`. */
  predicate AttachedHere(deployer: BlockDeviceDeployer, volumes: seq<Volume>, i: int, datasetId: DatasetId)
  {
    0 <= i < |volumes| && volumes[i].host == Some(deployer.hostname) && volumes[i].datasetId == datasetId
  }

  /**
   * `discover_local_state` over the volumes the backend lists: one primary
   * manifestation and one mount path per volume attached to this host.
   */
  function Discover(deployer: BlockDeviceDeployer, volumes: seq<Volume>): (state: NodeState)
    ensures state.hostname == deployer.hostname
    ensures state.paths.Keys == state.manifestations.Keys
    ensures WellKeyed(state.manifestations)
    decreases |volumes|
  {
    if volumes == [] then
      NodeState(deployer.hostname, map[], map[])
    else
      var state := Discover(deployer, volumes[..|volumes| - 1]);
      var v := volumes[|volumes| - 1];
      if v.host == Some(deployer.hostname) then
        NodeState(
          state.hostname,
          state.manifestations[v.datasetId := ManifestationOf(v)],
          state.paths[v.datasetId := MountPath(deployer, v.datasetId)])
      else
        state
  }

  /**
   * A dataset is discovered exactly when some listed volume for it is
   * attached to this host; unattached volumes and volumes on other hosts are
   * not.
   */
  lemma {:induction false} DiscoverFindsAttachedHere(deployer: BlockDeviceDeployer, volumes: seq<Volume>, datasetId: DatasetId)
    ensures datasetId in Discover(deployer, volumes).manifestations <==>
      exists i :: AttachedHere(deployer, volumes, i, datasetId)
    decreases |volumes|
  {
    if volumes != [] {
      var prefix := volumes[..|volumes| - 1];
      var last := volumes[|volumes| - 1];
      DiscoverFindsAttachedHere(deployer, prefix, datasetId);
      var here := Discover(deployer, volumes).manifestations;
      var before := Discover(deployer, prefix).manifestations;
      assert here == (if last.host == Some(deployer.hostname) then before[last.datasetId := ManifestationOf(last)] else before);
      if exists i :: AttachedHere(deployer, prefix, i, datasetId) {
        var i :| AttachedHere(deployer, prefix, i, datasetId);
        assert AttachedHere(deployer, volumes, i, datasetId);
      }
      if last.host == Some(deployer.hostname) && last.datasetId == datasetId {
        assert AttachedHere(deployer, volumes, |volumes| - 1, datasetId);
      }
      if exists i :: AttachedHere(deployer, volumes, i, datasetId) {
        var i :| AttachedHere(deployer, volumes, i, datasetId);
        if i < |volumes| - 1 {
          assert AttachedHere(deployer, prefix, i, datasetId);
        }
      }
    }
  }

  /**
   * When a volume is the only listed volume of its dataset and is attached to
   * this host, discovery reports its manifestation (primary, the volume's
   * dataset id and size as maximum size) mounted at `mountroot/dataset_id`.
   */
  lemma {:induction false} DiscoverReportsVolume(deployer: BlockDeviceDeployer, volumes: seq<Volume>, i: nat)
    requires i < |volumes| && volumes[i].host == Some(deployer.hostname)
    requires forall j :: 0 <= j < |volumes| && volumes[j].datasetId == volumes[i].datasetId ==> j == i
    ensures volumes[i].datasetId in Discover(deployer, volumes).manifestations
    ensures Discover(deployer, volumes).manifestations[volumes[i].datasetId] == ManifestationOf(volumes[i])
    ensures Discover(deployer, volumes).paths[volumes[i].datasetId] == MountPath(deployer, volumes[i].datasetId)
    decreases |volumes|
  {
    var prefix := volumes[..|volumes| - 1];
    if i < |volumes| - 1 {
      DiscoverReportsVolume(deployer, prefix, i);
    }
  }

  /**
   * Discovery against a backend: lists the volumes and keeps those attached
   * to this host, each reported as its primary manifestation at its mount
   * path.
   */
  method DiscoverLocalState(deployer: BlockDeviceDeployer, api: BlockDeviceApi) returns (state: NodeState)
    requires api.Valid()
    ensures state.hostname == deployer.hostname
    ensures state.paths.Keys == state.manifestations.Keys
    ensures forall d :: d in state.manifestations <==>
      api.idFor(d) in api.volumes && api.volumes[api.idFor(d)].host == Some(deployer.hostname)
    ensures forall d :: d in state.manifestations ==>
      && state.manifestations[d] == ManifestationOf(api.volumes[api.idFor(d)])
      && state.paths[d] == MountPath(deployer, d)
  {
    var volumes := api.ListVolumes();
    state := Discover(deployer, volumes);
    forall d
      ensures d in state.manifestations <==>
        api.idFor(d) in api.volumes && api.volumes[api.idFor(d)].host == Some(deployer.hostname)
    {
      DiscoverFindsAttachedHere(deployer, volumes, d);
      if api.idFor(d) in api.volumes && api.volumes[api.idFor(d)].host == Some(deployer.hostname) {
        assert api.volumes[api.idFor(d)] in volumes;
        var i :| 0 <= i < |volumes| && volumes[i] == api.volumes[api.idFor(d)];
        assert AttachedHere(deployer, volumes, i, d);
      }
    }
    forall d | d in state.manifestations
      ensures state.manifestations[d] == ManifestationOf(api.volumes[api.idFor(d)])
      ensures state.paths[d] == MountPath(deployer, d)
    {
      DiscoverFindsAttachedHere(deployer, volumes, d);
      var i :| AttachedHere(deployer, volumes, i, d);
      forall j | 0 <= j < |volumes| && volumes[j].datasetId == volumes[i].datasetId
        ensures j == i
      {
        assert volumes[j] in volumes && volumes[i] in volumes;
      }
      DiscoverReportsVolume(deployer, volumes, i);
      assert volumes[i] in volumes;
    }
  }

  // ---------------------------------------------------------------------
  // Convergence
  // ---------------------------------------------------------------------

  /** The manifestations the configuration asks for on the deployer's node. */
  function Configured(deployer: BlockDeviceDeployer, desired: Deployment): map<DatasetId, Manifestation>
  {
    GetNode(desired, deployer.hostname).manifestations
  }

  /** Datasets to create: configured here as primary, not deleted, absent locally by id. */
  predicate ShouldCreate(deployer: BlockDeviceDeployer, localState: NodeState, desired: Deployment, d: DatasetId): (b: bool)
    ensures d in localState.manifestations ==> !b
    ensures b ==> d in Configured(deployer, desired) && !Configured(deployer, desired)[d].dataset.deleted
  {
    var configured := Configured(deployer, desired);
    d in configured && configured[d].primary && !configured[d].dataset.deleted &&
    d !in localState.manifestations
  }

  /** Datasets to destroy: primary here in local state and marked deleted in this node's configuration. */
  predicate ShouldDestroy(deployer: BlockDeviceDeployer, localState: NodeState, desired: Deployment, d: DatasetId): (b: bool)
    ensures b ==> !ShouldCreate(deployer, localState, desired, d)
    ensures b ==> d in Configured(deployer, desired) && Configured(deployer, desired)[d].dataset.deleted
  {
    var configured := Configured(deployer, desired);
    d in configured && configured[d].dataset.deleted &&
    d in localState.manifestations && localState.manifestations[d].primary
  }

  /**
   * `calculate_necessary_state_changes`: the changes that move this node
   * from `localState` towards `desired`.  `clusterState` is stale telemetry
   * and is not consulted.
   */
  function CalculateChanges(deployer: BlockDeviceDeployer, localState: NodeState, desired: Deployment,
                            clusterState: DeploymentState): (r: InParallel)
    ensures forall c :: c in r.changes ==> c.CreateBlockDeviceDataset? || c.DestroyBlockDeviceDataset?
  {
    var configured := Configured(deployer, desired);
    var creates := set d | d in configured && ShouldCreate(deployer, localState, desired, d) ::
      CreateBlockDeviceDataset(configured[d].dataset, MountPath(deployer, d));
    var destroys := set d | d in configured && ShouldDestroy(deployer, localState, desired, d) ::
      DestroyBlockDeviceDataset(d);
    InParallel(creates + destroys)
  }

  /**
   * A dataset is destroyed exactly when it is primary in local state and
   * marked deleted in this node's configuration.
   */
  lemma DestroyExactlyWhenDeleted(deployer: BlockDeviceDeployer, localState: NodeState, desired: Deployment,
                                  clusterState: DeploymentState, d: DatasetId)
    ensures DestroyBlockDeviceDataset(d) in CalculateChanges(deployer, localState, desired, clusterState).changes
      <==> ShouldDestroy(deployer, localState, desired, d)
  {
    if ShouldDestroy(deployer, localState, desired, d) {
      assert d in Configured(deployer, desired);
    }
  }

  /**
   * In a well-keyed configuration, a dataset is created exactly when it is
   * configured here as primary, not deleted, and absent from local state by
   * id, and it is created at `mountroot/dataset_id` with the configured
   * dataset.
   */
  lemma CreateExactlyWhenAbsent(deployer: BlockDeviceDeployer, localState: NodeState, desired: Deployment,
                                clusterState: DeploymentState, dataset: Dataset, mountpoint: FilePath)
    requires WellKeyed(Configured(deployer, desired))
    ensures CreateBlockDeviceDataset(dataset, mountpoint) in CalculateChanges(deployer, localState, desired, clusterState).changes
      <==> && ShouldCreate(deployer, localState, desired, dataset.datasetId)
           && Configured(deployer, desired)[dataset.datasetId].dataset == dataset
           && mountpoint == MountPath(deployer, dataset.datasetId)
  {
    var configured := Configured(deployer, desired);
    if ShouldCreate(deployer, localState, desired, dataset.datasetId)
       && configured[dataset.datasetId].dataset == dataset
       && mountpoint == MountPath(deployer, dataset.datasetId)
    {
      assert dataset.datasetId in configured;
    }
  }

  /**
   * The changes of one group are independent: no dataset is both created
   * and destroyed by the same group.
   */
  lemma CreatesAndDestroysDisjoint(deployer: BlockDeviceDeployer, localState: NodeState, desired: Deployment,
                                   clusterState: DeploymentState, dataset: Dataset, mountpoint: FilePath)
    requires WellKeyed(Configured(deployer, desired))
    ensures !(CreateBlockDeviceDataset(dataset, mountpoint) in CalculateChanges(deployer, localState, desired, clusterState).changes
              && DestroyBlockDeviceDataset(dataset.datasetId) in CalculateChanges(deployer, localState, desired, clusterState).changes)
  {
    CreateExactlyWhenAbsent(deployer, localState, desired, clusterState, dataset, mountpoint);
    DestroyExactlyWhenDeleted(deployer, localState, desired, clusterState, dataset.datasetId);
  }

  /**
   * Local state overrides cluster state: the changes are the same whatever
   * the control service last reported.
   */
  lemma ClusterStateIgnored(deployer: BlockDeviceDeployer, localState: NodeState, desired: Deployment,
                            clusterState: DeploymentState, otherClusterState: DeploymentState)
    ensures CalculateChanges(deployer, localState, desired, clusterState)
         == CalculateChanges(deployer, localState, desired, otherClusterState)
  {
  }

  /**
   * Datasets configured on other nodes are invisible: a deployer whose
   * hostname has no node in the configuration emits the empty group.
   */
  lemma OtherNodesInvisible(deployer: BlockDeviceDeployer, localState: NodeState, desired: Deployment,
                            clusterState: DeploymentState)
    requires deployer.hostname !in desired.nodes
    ensures CalculateChanges(deployer, localState, desired, clusterState) == InParallel({})
  {
    assert Configured(deployer, desired) == map[];
  }

  /**
   * Presence by id suffices: when every dataset configured here is present
   * in local state and none is marked deleted, nothing is to be done, even
   * if the local copies differ in metadata or size.
   */
  lemma ConvergedNodeHasNoChanges(deployer: BlockDeviceDeployer, localState: NodeState, desired: Deployment,
                                  clusterState: DeploymentState)
    requires Configured(deployer, desired).Keys <= localState.manifestations.Keys
    requires forall d :: d in Configured(deployer, desired) ==> !Configured(deployer, desired)[d].dataset.deleted
    ensures CalculateChanges(deployer, localState, desired, clusterState) == InParallel({})
  {
    forall d ensures !ShouldCreate(deployer, localState, desired, d) && !ShouldDestroy(deployer, localState, desired, d) {
    }
  }

  /**
   * A node configured with exactly what its local state holds, none of it
   * deleted, has nothing to do.
   */
  lemma OwnStateIsConverged(deployer: BlockDeviceDeployer, localState: NodeState, clusterState: DeploymentState)
    requires forall d :: d in localState.manifestations ==> !localState.manifestations[d].dataset.deleted
    ensures CalculateChanges(deployer, localState, Deployment(map[deployer.hostname := ToNode(localState)]), clusterState)
         == InParallel({})
  {
    var desired := Deployment(map[deployer.hostname := ToNode(localState)]);
    assert Configured(deployer, desired) == localState.manifestations;
    ConvergedNodeHasNoChanges(deployer, localState, desired, clusterState);
  }

  /**
   * A dataset whose volumes are all unattached here (a destroy that stopped
   * after its detach, or a create that stopped before its attach) is not
   * discovered: it is never destroyed again, and it is created again
   * whenever it is configured here as primary and not deleted.
   */
  lemma UnattachedVolumeLooksAbsent(deployer: BlockDeviceDeployer, volumes: seq<Volume>, desired: Deployment,
                                    clusterState: DeploymentState, d: DatasetId)
    requires forall i :: 0 <= i < |volumes| && volumes[i].datasetId == d ==> volumes[i].host != Some(deployer.hostname)
    ensures d !in Discover(deployer, volumes).manifestations
    ensures DestroyBlockDeviceDataset(d) !in CalculateChanges(deployer, Discover(deployer, volumes), desired, clusterState).changes
    ensures ShouldCreate(deployer, Discover(deployer, volumes), desired, d) <==>
      var configured := Configured(deployer, desired);
      d in configured && configured[d].primary && !configured[d].dataset.deleted
  {
    DiscoverFindsAttachedHere(deployer, volumes, d);
    DestroyExactlyWhenDeleted(deployer, Discover(deployer, volumes), desired, clusterState, d);
  }

  /**
   * A node whose one configured dataset is marked deleted while its primary
   * manifestation is present locally gets exactly one
   * `DestroyBlockDeviceDataset` for it.
   */
  lemma DeletedDatasetIsDestroyed(deployer: BlockDeviceDeployer, localState: NodeState, clusterState: DeploymentState,
                                  m: Manifestation)
    requires m.dataset.datasetId in localState.manifestations
    requires localState.manifestations[m.dataset.datasetId].primary
    requires m.dataset.deleted
    ensures CalculateChanges(deployer, localState,
              Deployment(map[deployer.hostname := Node(deployer.hostname, map[m.dataset.datasetId := m])]),
              clusterState)
         == InParallel({DestroyBlockDeviceDataset(m.dataset.datasetId)})
  {
    var d := m.dataset.datasetId;
    var desired := Deployment(map[deployer.hostname := Node(deployer.hostname, map[d := m])]);
    var r := CalculateChanges(deployer, localState, desired, clusterState);
    assert Configured(deployer, desired) == map[d := m];
    assert ShouldDestroy(deployer, localState, desired, d);
    assert DestroyBlockDeviceDataset(d) in r.changes;
    assert !ShouldCreate(deployer, localState, desired, d);
    forall e ensures !ShouldCreate(deployer, localState, desired, e) {
    }
  }

  /**
   * A node with no local datasets whose configuration asks for one primary
   * dataset gets exactly one `CreateBlockDeviceDataset` for it, mounted at
   * `mountroot/dataset_id`.
   */
  lemma AbsentDatasetIsCreated(deployer: BlockDeviceDeployer, localState: NodeState, clusterState: DeploymentState,
                               dataset: Dataset)
    requires localState.manifestations == map[]
    requires !dataset.deleted
    ensures CalculateChanges(deployer, localState,
              Deployment(map[deployer.hostname := Node(deployer.hostname,
                map[dataset.datasetId := Manifestation(dataset, true)])]),
              clusterState)
         == InParallel({CreateBlockDeviceDataset(dataset, MountPath(deployer, dataset.datasetId))})
  {
    var d := dataset.datasetId;
    var desired := Deployment(map[deployer.hostname := Node(deployer.hostname, map[d := Manifestation(dataset, true)])]);
    var r := CalculateChanges(deployer, localState, desired, clusterState);
    var expected := CreateBlockDeviceDataset(dataset, MountPath(deployer, d));
    assert Configured(deployer, desired) == map[d := Manifestation(dataset, true)];
    assert ShouldCreate(deployer, localState, desired, d);
    assert expected in r.changes;
    forall e ensures !ShouldDestroy(deployer, localState, desired, e) {
    }
  }

  /**
   * Two `DestroyBlockDeviceDataset` values are equal exactly when their
   * dataset identifiers are.
   */
  lemma DestroyEqualityByDatasetId(a: DatasetId, b: DatasetId)
    ensures DestroyBlockDeviceDataset(a) == DestroyBlockDeviceDataset(b) <==> a == b
  {
  }
}
