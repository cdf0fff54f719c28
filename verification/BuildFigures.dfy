/** A built snapshot (internal/snapshot/builder.go, Build) by the fields of what was read: the
    pods, the nodes, the workloads and the summary, with no reference to the build's steps. */
module BuildFigures {
  import opened Prelude
  import opened Model
  import opened DeviceFold
  import opened UsageMerge
  import opened GpuFigures
  import opened OwnerChains
  import opened WorkloadFigures
  import opened Build
  import Aggregation
  import Ownership
  import SummaryFigures

  /** The pod that was read, with usage, GPU figures and top owner filled in. */
  ghost predicate PodIs(q: Pod, p: Pod, l: Lists, usage: seq<PodMetrics>, gpu: Option<seq<GpuDevice>>) {
    && q == p.(containers := q.containers, ownerKind := q.ownerKind, ownerName := q.ownerName, ownerUid := q.ownerUid)
    && |q.containers| == |p.containers|
    && (forall j :: 0 <= j < |p.containers| ==> ContainerIs(q.containers[j], p.containers[j], p, usage, gpu))
    && exists c :: IsClimb(l, p.namespace, Ownership.Owner(p.ownerKind, p.ownerName, p.ownerUid), 10, c)
                   && Ownership.Owner(q.ownerKind, q.ownerName, q.ownerUid) == c[|c| - 1]
  }

  ghost predicate ContainerIs(
    r: Container, c: Container, p: Pod, usage: seq<PodMetrics>, gpu: Option<seq<GpuDevice>>)
  {
    && r == c.(cpuUsage := r.cpuUsage, memoryUsage := r.memoryUsage,
               gpuUtilization := r.gpuUtilization, gpuMemoryUsed := r.gpuMemoryUsed)
    && UsageInPodIs(r, c, p, usage)
    && match gpu
       case Some(devs) => ContainerGpuIs(r, c, p, devs)
       case None => r.gpuUtilization == c.gpuUtilization && r.gpuMemoryUsed == c.gpuMemoryUsed
  }

  /** The node that was read, with usage and GPU figures filled in. */
  ghost predicate NodeIs(m: Node, n: Node, usage: seq<NodeMetrics>, gpu: Option<seq<GpuDevice>>) {
    && m == n.(cpuUsage := m.cpuUsage, memoryUsage := m.memoryUsage, gpu := m.gpu)
    && NodeUsageIs(m, n, usage)
    && match gpu
       case Some(devs) => NodeGpuIs(m.gpu, n.gpu, n.name, devs)
       case None => m.gpu == n.gpu
  }

  /** Each workload reports the containers of the pods it owns. */
  ghost predicate WorkloadsAre(after: seq<Workload>, before: seq<Workload>, kind: string, pods: seq<Pod>) {
    && |after| == |before|
    && forall i :: 0 <= i < |before| ==>
         WorkloadIs(after[i], before[i], OwnedContainers(pods, before[i].namespace, kind, before[i].name))
  }

  ghost predicate JobsAre(after: seq<Job>, before: seq<Job>, pods: seq<Pod>) {
    && |after| == |before|
    && forall i :: 0 <= i < |before| ==>
         JobIs(after[i], before[i], OwnedContainers(pods, before[i].namespace, "Job", before[i].name))
  }

  lemma JoinedContainer(p: Pod, usage: seq<PodMetrics>, gpu: Option<seq<GpuDevice>>, j: nat)
    requires j < |p.containers|
    ensures var q := JoinedPod(p, usage, gpu);
            && q == p.(containers := q.containers) && |q.containers| == |p.containers|
            && ContainerIs(q.containers[j], p.containers[j], p, usage, gpu)
  {
    PodUsageByName(p, usage, j);
    if gpu.Some? {
      PodFigures(PodWithUsage(p, usage), gpu.value, j);
    }
  }

  lemma BuiltPodIs(t: Ownership.Tables, l: Lists, p: Pod, usage: seq<PodMetrics>, gpu: Option<seq<GpuDevice>>)
    requires TablesAre(t, l)
    ensures PodIs(BuiltPod(t, p, usage, gpu), p, l, usage, gpu)
  {
    var q := JoinedPod(p, usage, gpu);
    ResolvedByLists(t, l, q);
    forall j | 0 <= j < |p.containers| {
      JoinedContainer(p, usage, gpu, j);
    }
    JoinedShape(p, usage, gpu);
  }

  lemma JoinedShape(p: Pod, usage: seq<PodMetrics>, gpu: Option<seq<GpuDevice>>)
    ensures var q := JoinedPod(p, usage, gpu); q == p.(containers := q.containers) && |q.containers| == |p.containers|
  {
  }

  lemma JoinedNodeIs(n: Node, usage: seq<NodeMetrics>, gpu: Option<seq<GpuDevice>>)
    ensures NodeIs(JoinedNode(n, usage, gpu), n, usage, gpu)
  {
    NodeUsageByName(n, usage);
    if gpu.Some? {
      NodeFigures(NodeWithUsage(n, usage), gpu.value);
    }
  }

  lemma KindIs(after: seq<Workload>, before: seq<Workload>, kind: string, pods: seq<Pod>)
    requires Aggregation.Aggregated(after, before, kind, pods)
    ensures WorkloadsAre(after, before, kind, pods)
  {
    forall i | 0 <= i < |before| {
      WorkloadTotals(before[i], kind, pods);
    }
  }

  lemma JobListIs(after: seq<Job>, before: seq<Job>, pods: seq<Pod>)
    requires Aggregation.AggregatedJobs(after, before, pods)
    ensures JobsAre(after, before, pods)
  {
    forall i | 0 <= i < |before| {
      JobTotals(before[i], pods);
    }
  }

  /** All of a built snapshot, from what was read: BuildSnapshot's contract in these terms. */
  lemma BuiltByFields(
    r: Reads, t: Ownership.Tables, nodeUsage: seq<NodeMetrics>, podUsage: seq<PodMetrics>, gpu: Option<seq<GpuDevice>>,
    nodes: seq<Node>, pods: seq<Pod>, d: seq<Workload>, s: seq<Workload>, m: seq<Workload>, jobs: seq<Job>,
    summary: Summary)
    requires Ownership.TablesOf(t, r.replicaSets, r.jobs, r.cronJobs)
    requires PodsBuilt(t, pods, r.pods, podUsage, gpu)
    requires |nodes| >= |r.nodes| && nodes[..|r.nodes|] == JoinedNodes(r.nodes, nodeUsage, gpu)
    requires Totalled(pods, d, r.deployments, s, r.statefulSets, m, r.daemonSets, jobs, r.jobs)
    requires Summarised(summary, nodes, pods, d, s, m, jobs, r.cronJobs)
    ensures |pods| == |r.pods|
    ensures forall i :: 0 <= i < |pods| ==>
              PodIs(pods[i], r.pods[i], Lists(r.replicaSets, r.jobs, r.cronJobs), podUsage, gpu)
    ensures forall i :: 0 <= i < |r.nodes| ==> NodeIs(nodes[i], r.nodes[i], nodeUsage, gpu)
    ensures WorkloadsAre(d, r.deployments, "Deployment", pods)
    ensures WorkloadsAre(s, r.statefulSets, "StatefulSet", pods)
    ensures WorkloadsAre(m, r.daemonSets, "DaemonSet", pods)
    ensures JobsAre(jobs, r.jobs, pods)
    ensures SummaryFigures.CountsPods(summary, pods) && SummaryFigures.CountsNodes(summary, nodes)
    ensures SummaryFigures.CountsGpus(summary, nodes)
    ensures summary.deploymentCount == |r.deployments| && summary.statefulSetCount == |r.statefulSets|
    ensures summary.daemonSetCount == |r.daemonSets| && summary.jobCount == |r.jobs|
    ensures summary.cronJobCount == |r.cronJobs|
  {
    forall i | 0 <= i < |pods| {
      BuiltPodIs(t, Lists(r.replicaSets, r.jobs, r.cronJobs), r.pods[i], podUsage, gpu);
    }
    forall i | 0 <= i < |r.nodes|
      ensures NodeIs(nodes[i], r.nodes[i], nodeUsage, gpu)
    {
      assert nodes[i] == nodes[..|r.nodes|][i];
      JoinedNodeIs(r.nodes[i], nodeUsage, gpu);
    }
    KindIs(d, r.deployments, "Deployment", pods);
    KindIs(s, r.statefulSets, "StatefulSet", pods);
    KindIs(m, r.daemonSets, "DaemonSet", pods);
    JobListIs(jobs, r.jobs, pods);
    SummaryFigures.SummaryByFields(nodes, pods, |d|, |s|, |m|, |jobs|, |r.cronJobs|);
  }
}
