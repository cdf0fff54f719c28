/** The metrics-server joins of the snapshot builder (internal/snapshot/builder.go,
    mergeNodeMetrics and mergePodMetrics) against naive scans of the metrics list. */
module UsageMerge {
  import opened Prelude
  import opened Model
  import opened Index

  function MetricsNodeName(m: NodeMetrics): string { m.name }
  function PodMetricsKey(m: PodMetrics): string { JoinKey(m.namespace, m.name) }
  function PodMetricsNamespace(m: PodMetrics): string { m.namespace }
  function PodMetricsName(m: PodMetrics): string { m.name }
  function ContainerMetricsName(m: ContainerMetrics): string { m.name }

  /** A node with the usage of the last metrics entry of its name, if there is one. */
  function NodeWithUsage(n: Node, metrics: seq<NodeMetrics>): Node {
    match FindLast(metrics, MetricsNodeName, n.name)
    case Some(m) => n.(cpuUsage := Some(m.cpuUsage), memoryUsage := Some(m.memoryUsage))
    case None => n
  }

  function ContainerWithUsage(c: Container, metrics: seq<ContainerMetrics>): Container {
    match FindLast(metrics, ContainerMetricsName, c.name)
    case Some(m) => c.(cpuUsage := Some(m.cpuUsage), memoryUsage := Some(m.memoryUsage))
    case None => c
  }

  function ContainersWithUsage(cs: seq<Container>, metrics: seq<ContainerMetrics>): seq<Container> {
    seq(|cs|, i requires 0 <= i < |cs| => ContainerWithUsage(cs[i], metrics))
  }

  function PodWithEntry(p: Pod, entry: Option<PodMetrics>): Pod {
    match entry
    case Some(m) => p.(containers := ContainersWithUsage(p.containers, m.containers))
    case None => p
  }

  /** A pod as the table lookup by "namespace/name" fills it in. */
  function PodWithUsage(p: Pod, metrics: seq<PodMetrics>): Pod {
    PodWithEntry(p, FindLast(metrics, PodMetricsKey, JoinKey(p.namespace, p.name)))
  }

  /** builder.go, mergeNodeMetrics. */
  method MergeNodeMetrics(snap: ClusterSnapshot, metrics: seq<NodeMetrics>)
    modifies snap`nodes
    ensures |snap.nodes| == |old(snap.nodes)|
    ensures forall i :: 0 <= i < |snap.nodes| ==> snap.nodes[i] == NodeWithUsage(old(snap.nodes)[i], metrics)
  {
    if |metrics| == 0 {
      return;
    }
    var lookup := BuildIndex(metrics, MetricsNodeName);
    for i := 0 to |snap.nodes|
      invariant |snap.nodes| == |old(snap.nodes)|
      invariant forall j :: 0 <= j < i ==> snap.nodes[j] == NodeWithUsage(old(snap.nodes)[j], metrics)
      invariant forall j :: i <= j < |snap.nodes| ==> snap.nodes[j] == old(snap.nodes)[j]
    {
      var n := snap.nodes[i];
      if n.name in lookup {
        var m := lookup[n.name];
        snap.nodes := snap.nodes[i := n.(cpuUsage := Some(m.cpuUsage), memoryUsage := Some(m.memoryUsage))];
      }
    }
  }

  /** The container loop of mergePodMetrics for one pod. */
  method MergeContainers(cs: seq<Container>, metrics: seq<ContainerMetrics>) returns (r: seq<Container>)
    ensures r == ContainersWithUsage(cs, metrics)
  {
    var lookup := BuildIndex(metrics, ContainerMetricsName);
    r := cs;
    for j := 0 to |cs|
      invariant |r| == |cs|
      invariant forall k :: 0 <= k < j ==> r[k] == ContainerWithUsage(cs[k], metrics)
      invariant forall k :: j <= k < |cs| ==> r[k] == cs[k]
    {
      if r[j].name in lookup {
        var m := lookup[r[j].name];
        r := r[j := r[j].(cpuUsage := Some(m.cpuUsage), memoryUsage := Some(m.memoryUsage))];
      }
    }
  }

  /** builder.go, mergePodMetrics. */
  method MergePodMetrics(snap: ClusterSnapshot, metrics: seq<PodMetrics>)
    modifies snap`pods
    ensures |snap.pods| == |old(snap.pods)|
    ensures forall i :: 0 <= i < |snap.pods| ==> snap.pods[i] == PodWithUsage(old(snap.pods)[i], metrics)
  {
    if |metrics| == 0 {
      return;
    }
    var lookup := BuildIndex(metrics, PodMetricsKey);
    for i := 0 to |snap.pods|
      invariant |snap.pods| == |old(snap.pods)|
      invariant forall j :: 0 <= j < i ==> snap.pods[j] == PodWithUsage(old(snap.pods)[j], metrics)
      invariant forall j :: i <= j < |snap.pods| ==> snap.pods[j] == old(snap.pods)[j]
    {
      var p := snap.pods[i];
      var key := JoinKey(p.namespace, p.name);
      if key !in lookup {
        continue;
      }
      var cs := MergeContainers(p.containers, lookup[key].containers);
      snap.pods := snap.pods[i := p.(containers := cs)];
    }
  }

  /** Unless the pod's own entry is hidden by a later one with its key, each container gets the values of the last
      same-named container inside the last metrics entry of its pod; containers without a
      match, and everything else in the pod, stay as they were on entry. */
  lemma PodJoinIsNaiveScan(p: Pod, metrics: seq<PodMetrics>)
    requires NotHidden(metrics, PodMetricsNamespace, PodMetricsName, p.namespace, p.name)
    ensures var entry := FindLastNamed(metrics, PodMetricsNamespace, PodMetricsName, p.namespace, p.name);
            var q := PodWithUsage(p, metrics);
            && q == p.(containers := q.containers) && |q.containers| == |p.containers|
            && forall i :: 0 <= i < |p.containers| ==>
                 q.containers[i] ==
                 if entry.Some? then ContainerWithUsage(p.containers[i], entry.value.containers)
                 else p.containers[i]
  {
    JoinedScanIff(metrics, PodMetricsKey, PodMetricsNamespace, PodMetricsName, p.namespace, p.name);
  }

  /** The node has the usage of the last metrics entry of its name, or that of `before`. */
  ghost predicate NodeUsageIs(n: Node, before: Node, metrics: seq<NodeMetrics>) {
    && (forall i :: LastKeyed(metrics, (e: NodeMetrics) => e.name, before.name, i) ==>
          n.cpuUsage == Some(metrics[i].cpuUsage) && n.memoryUsage == Some(metrics[i].memoryUsage))
    && ((forall i :: 0 <= i < |metrics| ==> metrics[i].name != before.name) ==>
          n.cpuUsage == before.cpuUsage && n.memoryUsage == before.memoryUsage)
  }

  ghost predicate ContainerUsageIs(c: Container, before: Container, metrics: seq<ContainerMetrics>) {
    && (forall i :: LastKeyed(metrics, (e: ContainerMetrics) => e.name, before.name, i) ==>
          c.cpuUsage == Some(metrics[i].cpuUsage) && c.memoryUsage == Some(metrics[i].memoryUsage))
    && ((forall i :: 0 <= i < |metrics| ==> metrics[i].name != before.name) ==>
          c.cpuUsage == before.cpuUsage && c.memoryUsage == before.memoryUsage)
  }

  /** The same in the last metrics entry with the joined namespace and name of the pod. */
  ghost predicate UsageInPodIs(c: Container, before: Container, p: Pod, metrics: seq<PodMetrics>) {
    && (forall i :: LastKeyed(metrics, (e: PodMetrics) => e.namespace + "/" + e.name, p.namespace + "/" + p.name, i) ==>
          ContainerUsageIs(c, before, metrics[i].containers))
    && ((forall i :: 0 <= i < |metrics| ==>
           metrics[i].namespace + "/" + metrics[i].name != p.namespace + "/" + p.name) ==>
          c.cpuUsage == before.cpuUsage && c.memoryUsage == before.memoryUsage)
  }

  /** A node is given the usage of its name, and nothing else about it changes. */
  lemma NodeUsageByName(n: Node, metrics: seq<NodeMetrics>)
    ensures var m := NodeWithUsage(n, metrics);
            m == n.(cpuUsage := m.cpuUsage, memoryUsage := m.memoryUsage) && NodeUsageIs(m, n, metrics)
  {
    FindLastMeaning(metrics, (e: NodeMetrics) => e.name, n.name);
    FindLastSame(metrics, (e: NodeMetrics) => e.name, MetricsNodeName, n.name);
    assert forall i :: LastKeyed(metrics, (e: NodeMetrics) => e.name, n.name, i) ==>
        FindLast(metrics, MetricsNodeName, n.name) == Some(metrics[i]);
  }

  lemma ContainerUsageByName(c: Container, metrics: seq<ContainerMetrics>)
    ensures var r := ContainerWithUsage(c, metrics);
            r == c.(cpuUsage := r.cpuUsage, memoryUsage := r.memoryUsage) && ContainerUsageIs(r, c, metrics)
  {
    FindLastMeaning(metrics, (e: ContainerMetrics) => e.name, c.name);
    FindLastSame(metrics, (e: ContainerMetrics) => e.name, ContainerMetricsName, c.name);
  }

  /** Each container of a pod is given the usage of its name in the pod's entry, and nothing
      else about the pod changes. */
  lemma PodUsageByName(p: Pod, metrics: seq<PodMetrics>, j: nat)
    requires j < |p.containers|
    ensures var q, c := PodWithUsage(p, metrics), p.containers[j];
            && q == p.(containers := q.containers) && |q.containers| == |p.containers|
            && var r := q.containers[j];
               r == c.(cpuUsage := r.cpuUsage, memoryUsage := r.memoryUsage) && UsageInPodIs(r, c, p, metrics)
  {
    var keyOf, key := (e: PodMetrics) => e.namespace + "/" + e.name, p.namespace + "/" + p.name;
    FindLastMeaning(metrics, keyOf, key);
    FindLastSame(metrics, keyOf, PodMetricsKey, key);
    forall i | 0 <= i < |metrics| {
      ContainerUsageByName(p.containers[j], metrics[i].containers);
    }
  }
}
