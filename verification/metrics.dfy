/** The six gauge descriptors the collector declares, and the observations it
    emits under them. */
module Metrics {

  /** The six per-claim volume statistics, one descriptor each. */
  datatype Metric = CapacityBytes | AvailableBytes | UsedBytes | Inodes | InodesFree | InodesUsed

  /** A metric descriptor: fully-qualified name, help text and the names of
      its variable labels. */
  datatype Desc = Desc(fqName: string, help: string, variableLabels: seq<string>)

  /** The fully-qualified names of the six gauges. */
  const CapacityBytesKey := "kubelet_volume_stats_capacity_bytes"
  const AvailableBytesKey := "kubelet_volume_stats_available_bytes"
  const UsedBytesKey := "kubelet_volume_stats_used_bytes"
  const InodesKey := "kubelet_volume_stats_inodes"
  const InodesFreeKey := "kubelet_volume_stats_inodes_free"
  const InodesUsedKey := "kubelet_volume_stats_inodes_used"

  /** Every descriptor is labelled by the claim's namespace and name. */
  const ClaimLabels: seq<string> := ["namespace", "persistentvolumeclaim"]

  function Descriptor(m: Metric): Desc {
    match m
    case CapacityBytes => Desc(CapacityBytesKey, "Capacity in bytes of the volume", ClaimLabels)
    case AvailableBytes => Desc(AvailableBytesKey, "Number of available bytes in the volume", ClaimLabels)
    case UsedBytes => Desc(UsedBytesKey, "Number of used bytes in the volume", ClaimLabels)
    case Inodes => Desc(InodesKey, "Maximum number of inodes in the volume", ClaimLabels)
    case InodesFree => Desc(InodesFreeKey, "Number of free inodes in the volume", ClaimLabels)
    case InodesUsed => Desc(InodesUsedKey, "Number of used inodes in the volume", ClaimLabels)
  }

  /** The order in which the collector declares the descriptors and sends a
      claim's six gauges. */
  const Order: seq<Metric> := [CapacityBytes, AvailableBytes, UsedBytes, Inodes, InodesFree, InodesUsed]

  /** The descriptors the collector declares, in the order it declares them:
      six, named in the fixed order capacity, available, used, inodes, inodes
      free, inodes used. A constant: it reads no cluster state and cannot
      fail. */
  function Describe(): (ds: seq<Desc>)
    ensures |ds| == 6
    ensures [ds[0].fqName, ds[1].fqName, ds[2].fqName, ds[3].fqName, ds[4].fqName, ds[5].fqName]
            == [CapacityBytesKey, AvailableBytesKey, UsedBytesKey, InodesKey, InodesFreeKey, InodesUsedKey]
  {
    [Descriptor(CapacityBytes), Descriptor(AvailableBytes), Descriptor(UsedBytes),
     Descriptor(Inodes), Descriptor(InodesFree), Descriptor(InodesUsed)]
  }

  /** Every gauge the collector can send is declared, and every declared
      descriptor takes the two claim labels. */
  lemma DescribeCoversEveryMetric()
    ensures forall m: Metric :: Descriptor(m) in Describe()
    ensures forall d :: d in Describe() ==> d.variableLabels == ClaimLabels
  {
  }

  /** No two declared descriptors share a name, so each gauge the collector
      sends belongs to exactly one of them. */
  lemma DescribedNamesDistinct()
    ensures forall i, j :: 0 <= i < j < |Describe()| ==> Describe()[i].fqName != Describe()[j].fqName
  {
    assert InodesFreeKey[28] != InodesUsedKey[28];
  }

  /** A float64 reading, passed through from the payload without arithmetic. */
  type Float64 = real

  /** The six numeric fields of one volume entry. */
  datatype Readings = Readings(
    capacityBytes: Float64,
    availableBytes: Float64,
    usedBytes: Float64,
    inodes: Float64,
    inodesFree: Float64,
    inodesUsed: Float64)

  /** One constant gauge sample: its descriptor, its value and its two label
      values (namespace, claim name). */
  datatype Observation = Observation(metric: Metric, value: Float64, namespace: string, claim: string)

  /** The six samples sent for one newly seen claim, one per descriptor in
      declaration order, each labelled with the claim's namespace and name
      and carrying the matching reading unchanged. */
  function Gauges(namespace: string, claim: string, r: Readings): (obs: seq<Observation>)
    ensures |obs| == 6
    ensures [obs[0].metric, obs[1].metric, obs[2].metric, obs[3].metric, obs[4].metric, obs[5].metric]
            == Order
    ensures forall o :: o in obs ==> o.namespace == namespace && o.claim == claim
    ensures [obs[0].value, obs[1].value, obs[2].value, obs[3].value, obs[4].value, obs[5].value]
            == [r.capacityBytes, r.availableBytes, r.usedBytes, r.inodes, r.inodesFree, r.inodesUsed]
  {
    [Observation(CapacityBytes, r.capacityBytes, namespace, claim),
     Observation(AvailableBytes, r.availableBytes, namespace, claim),
     Observation(UsedBytes, r.usedBytes, namespace, claim),
     Observation(Inodes, r.inodes, namespace, claim),
     Observation(InodesFree, r.inodesFree, namespace, claim),
     Observation(InodesUsed, r.inodesUsed, namespace, claim)]
  }
}
