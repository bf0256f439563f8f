/**
 * The cluster-configuration and cluster-state values the block-device agent
 * reads: datasets, their manifestations on a node, the per-node state and the
 * cluster-wide deployment.  All of them are immutable values.
 */
module Control {
  import opened Wrappers

  type DatasetId = string
  type Hostname = string

  /** A filesystem path, kept as its list of segments. */
  datatype FilePath = FilePath(segments: seq<string>) {

    /** The path of the entry `name` inside this directory. */
    function Child(name: string): (p: FilePath)
      ensures |p.segments| == |segments| + 1
      ensures p.segments[..|segments|] == segments && p.segments[|segments|] == name
    {
      FilePath(segments + [name])
    }
  }

  /** A dataset as configured, or as discovered on a node. */
  datatype Dataset = Dataset(
    datasetId: DatasetId,
    deleted: bool,
    maximumSize: Option<nat>,
    metadata: map<string, string>)

  /** A dataset's presence on a node; only primary manifestations matter here. */
  datatype Manifestation = Manifestation(dataset: Dataset, primary: bool)

  /** The desired configuration of one node. */
  datatype Node = Node(hostname: Hostname, manifestations: map<DatasetId, Manifestation>)

  /** The observed state of one node, with the mount path of every dataset on it. */
  datatype NodeState = NodeState(
    hostname: Hostname,
    manifestations: map<DatasetId, Manifestation>,
    paths: map<DatasetId, FilePath>)

  /** The cluster-wide desired configuration, one node per hostname. */
  datatype Deployment = Deployment(nodes: map<Hostname, Node>)

  /** The cluster-wide state last reported by the control service. */
  datatype DeploymentState = DeploymentState(nodes: map<Hostname, NodeState>)

  /**
   * The configured node for `hostname`, or an empty node when the
   * configuration has none for it.
   */
  function GetNode(deployment: Deployment, hostname: Hostname): Node
  {
    if hostname in deployment.nodes then deployment.nodes[hostname] else Node(hostname, map[])
  }

  /** In a pyrsistent Node every manifestation is keyed by its own dataset id. */
  ghost predicate WellKeyed(manifestations: map<DatasetId, Manifestation>)
  {
    forall d :: d in manifestations ==> manifestations[d].dataset.datasetId == d
  }

  /** `to_node`: the configuration that asks for exactly what a node state holds. */
  function ToNode(state: NodeState): Node
  {
    Node(state.hostname, state.manifestations)
  }
}
