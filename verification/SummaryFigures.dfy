/** The cluster summary (internal/snapshot/summary.go), read off the fields of the nodes, the
    pods and their containers. */
module SummaryFigures {
  import opened Prelude
  import opened Model
  import opened SummaryTotals
  import opened WorkloadFigures
  import Aggregation

  function PodsIn(pods: seq<Pod>, phase: string): nat {
    |Values(pods, (p: Pod) => if p.phase == phase then Some(p) else None)|
  }

  lemma {:induction false} ContainersReal(pods: seq<Pod>, f: Pod -> real, g: Container -> real)
    requires forall p :: f(p) == SumReal(p.containers, g)
    ensures SumReal(pods, f) == SumReal(AllContainers(pods), g)
  {
    if pods != [] {
      var p, last := pods[..|pods| - 1], pods[|pods| - 1];
      ContainersReal(p, f, g);
      SumRealConcat(AllContainers(p), last.containers, g);
    }
  }

  lemma {:induction false} ContainersInt(pods: seq<Pod>, f: Pod -> int, g: Container -> int)
    requires forall p :: f(p) == SumInt(p.containers, g)
    ensures SumInt(pods, f) == SumInt(AllContainers(pods), g)
  {
    if pods != [] {
      var p, last := pods[..|pods| - 1], pods[|pods| - 1];
      ContainersInt(p, f, g);
      SumIntConcat(AllContainers(p), last.containers, g);
    }
  }

  lemma {:induction false} ContainerCount(pods: seq<Pod>)
    ensures SumInt(pods, ContainersOf) == |AllContainers(pods)|
  {
    if pods != [] {
      ContainerCount(pods[..|pods| - 1]);
    }
  }

  lemma PhaseCounts(pods: seq<Pod>)
    ensures SumInt(pods, IsRunning) == PodsIn(pods, "Running")
    ensures SumInt(pods, IsPending) == PodsIn(pods, "Pending")
    ensures SumInt(pods, IsFailed) == PodsIn(pods, "Failed")
    ensures SumInt(pods, IsSucceeded) == PodsIn(pods, "Succeeded")
  {
    CountOfValues(pods, (p: Pod) => if p.phase == "Running" then Some(p) else None, IsRunning);
    CountOfValues(pods, (p: Pod) => if p.phase == "Pending" then Some(p) else None, IsPending);
    CountOfValues(pods, (p: Pod) => if p.phase == "Failed" then Some(p) else None, IsFailed);
    CountOfValues(pods, (p: Pod) => if p.phase == "Succeeded" then Some(p) else None, IsSucceeded);
  }

  /** Counts and requests. */
  ghost predicate CountsPods(s: Summary, pods: seq<Pod>) {
    var cs := AllContainers(pods);
    && s.podCount == |pods| && s.containerCount == |cs|
    && s.runningPods == PodsIn(pods, "Running") && s.pendingPods == PodsIn(pods, "Pending")
    && s.failedPods == PodsIn(pods, "Failed") && s.succeededPods == PodsIn(pods, "Succeeded")
    && s.cpuRequested == SumReal(cs, (c: Container) => c.cpuRequest)
    && s.memoryRequested == SumInt(cs, (c: Container) => c.memoryRequest)
    && s.gpuRequested == SumInt(cs, (c: Container) => c.gpuRequest)
  }

  /** Capacities, and the usage of the nodes that report it. */
  ghost predicate CountsNodes(s: Summary, nodes: seq<Node>) {
    && s.nodeCount == |nodes|
    && s.cpuCapacity == SumReal(nodes, (n: Node) => n.cpuCapacity)
    && s.cpuAllocatable == SumReal(nodes, (n: Node) => n.cpuAllocatable)
    && s.memoryCapacity == SumInt(nodes, (n: Node) => n.memoryCapacity)
    && s.memoryAllocatable == SumInt(nodes, (n: Node) => n.memoryAllocatable)
    && s.gpuCapacity == SumInt(nodes, (n: Node) => n.gpuCapacity)
    && var cpu, mem := Values(nodes, (n: Node) => n.cpuUsage), Values(nodes, (n: Node) => n.memoryUsage);
       && s.cpuUsage == (if cpu != [] then Some(Total(cpu)) else None)
       && s.memoryUsage == (if mem != [] then Some(TotalInt(mem)) else None)
       && s.metricsAvailable == (cpu != [])
  }

  predicate MeanOf(values: seq<real>, mean: Option<real>) {
    mean == if values != [] then Some(Total(values) / (|values| as real)) else None
  }

  /** Means over the nodes with a figure; memory is there exactly if some node has a utilization. */
  ghost predicate CountsGpus(s: Summary, nodes: seq<Node>) {
    var utils := Values(nodes, (n: Node) => n.gpu.utilization);
    var used, total := Values(nodes, (n: Node) => n.gpu.memoryUsed), Values(nodes, (n: Node) => n.gpu.memoryTotal);
    && MeanOf(utils, s.gpuUsage)
    && MeanOf(Values(nodes, (n: Node) => n.gpu.tensorActive), s.gpuTensorActive)
    && MeanOf(Values(nodes, (n: Node) => n.gpu.memoryUtil), s.gpuMemoryUtil)
    && s.gpuMemoryUsed == (if utils != [] then Some(TotalInt(used)) else None)
    && s.gpuMemoryTotal == (if utils != [] then Some(TotalInt(total)) else None)
    && s.gpuMetricsAvailable == (utils != [])
  }

  lemma PodFigures(nodes: seq<Node>, pods: seq<Pod>, d: int, ss: int, ds: int, j: int, cj: int)
    ensures CountsPods(SummaryOf(nodes, pods, d, ss, ds, j, cj), pods)
  {
    var cs := AllContainers(pods);
    ContainerCount(pods);
    PhaseCounts(pods);
    ContainersReal(pods, Aggregation.PodCpuRequest, Aggregation.CpuRequestOf);
    ContainersInt(pods, Aggregation.PodMemoryRequest, Aggregation.MemoryRequestOf);
    ContainersInt(pods, PodGpuRequest, GpuRequestOf);
    SumRealSame(cs, (c: Container) => c.cpuRequest, Aggregation.CpuRequestOf);
    SumIntSame(cs, (c: Container) => c.memoryRequest, Aggregation.MemoryRequestOf);
    SumIntSame(cs, (c: Container) => c.gpuRequest, GpuRequestOf);
  }

  lemma NodeFigures(nodes: seq<Node>, pods: seq<Pod>, d: int, ss: int, ds: int, j: int, cj: int)
    ensures CountsNodes(SummaryOf(nodes, pods, d, ss, ds, j, cj), nodes)
  {
    SumRealSame(nodes, (n: Node) => n.cpuCapacity, CpuCapacityOf);
    SumRealSame(nodes, (n: Node) => n.cpuAllocatable, CpuAllocatableOf);
    SumIntSame(nodes, (n: Node) => n.memoryCapacity, MemoryCapacityOf);
    SumIntSame(nodes, (n: Node) => n.memoryAllocatable, MemoryAllocatableOf);
    SumIntSame(nodes, (n: Node) => n.gpuCapacity, GpuCapacityOf);
    RealSumOfValues(nodes, (n: Node) => n.cpuUsage, CpuUsageOf);
    IntSumOfValues(nodes, (n: Node) => n.memoryUsage, MemoryUsageOf);
    SomeValue(nodes, (n: Node) => n.cpuUsage);
    SomeValue(nodes, (n: Node) => n.memoryUsage);
  }

  lemma GpuFiguresOfNodes(nodes: seq<Node>, pods: seq<Pod>, d: int, ss: int, ds: int, j: int, cj: int)
    ensures CountsGpus(SummaryOf(nodes, pods, d, ss, ds, j, cj), nodes)
  {
    RealSumOfValues(nodes, (n: Node) => n.gpu.utilization, UtilizationOf);
    CountOfValues(nodes, (n: Node) => n.gpu.utilization, HasUtilization);
    RealSumOfValues(nodes, (n: Node) => n.gpu.tensorActive, TensorOf);
    CountOfValues(nodes, (n: Node) => n.gpu.tensorActive, HasTensor);
    RealSumOfValues(nodes, (n: Node) => n.gpu.memoryUtil, MemUtilOf);
    CountOfValues(nodes, (n: Node) => n.gpu.memoryUtil, HasMemUtil);
    IntSumOfValues(nodes, (n: Node) => n.gpu.memoryUsed, GpuMemoryUsedOf);
    IntSumOfValues(nodes, (n: Node) => n.gpu.memoryTotal, GpuMemoryTotalOf);
  }

  /** Every figure of the summary, by the fields it is made of. */
  lemma SummaryByFields(nodes: seq<Node>, pods: seq<Pod>, d: int, ss: int, ds: int, j: int, cj: int)
    ensures var s := SummaryOf(nodes, pods, d, ss, ds, j, cj);
            && CountsPods(s, pods) && CountsNodes(s, nodes) && CountsGpus(s, nodes)
            && s.deploymentCount == d && s.statefulSetCount == ss && s.daemonSetCount == ds
            && s.jobCount == j && s.cronJobCount == cj
  {
    PodFigures(nodes, pods, d, ss, ds, j, cj);
    NodeFigures(nodes, pods, d, ss, ds, j, cj);
    GpuFiguresOfNodes(nodes, pods, d, ss, ds, j, cj);
  }
}
