/** The cluster summary (internal/snapshot/summary.go) as sums over the snapshot. */
module SummaryTotals {
  import opened Prelude
  import opened Model
  import Aggregation

  function CpuCapacityOf(n: Node): real { n.cpuCapacity }
  function CpuAllocatableOf(n: Node): real { n.cpuAllocatable }
  function MemoryCapacityOf(n: Node): int { n.memoryCapacity }
  function MemoryAllocatableOf(n: Node): int { n.memoryAllocatable }
  function GpuCapacityOf(n: Node): int { n.gpuCapacity }
  function CpuUsageOf(n: Node): real { n.cpuUsage.Or(0.0) }
  function MemoryUsageOf(n: Node): int { n.memoryUsage.Or(0) }
  function UtilizationOf(n: Node): real { n.gpu.utilization.Or(0.0) }
  function HasUtilization(n: Node): int { if n.gpu.utilization.Some? then 1 else 0 }
  function TensorOf(n: Node): real { n.gpu.tensorActive.Or(0.0) }
  function HasTensor(n: Node): int { if n.gpu.tensorActive.Some? then 1 else 0 }
  function MemUtilOf(n: Node): real { n.gpu.memoryUtil.Or(0.0) }
  function HasMemUtil(n: Node): int { if n.gpu.memoryUtil.Some? then 1 else 0 }
  function GpuMemoryUsedOf(n: Node): int { n.gpu.memoryUsed.Or(0) }
  function GpuMemoryTotalOf(n: Node): int { n.gpu.memoryTotal.Or(0) }

  predicate AnyCpuUsage(nodes: seq<Node>) { exists n :: n in nodes && n.cpuUsage.Some? }
  predicate AnyMemoryUsage(nodes: seq<Node>) { exists n :: n in nodes && n.memoryUsage.Some? }

  function GpuRequestOf(c: Container): int { c.gpuRequest }
  function PodGpuRequest(p: Pod): int { SumInt(p.containers, GpuRequestOf) }
  function ContainersOf(p: Pod): int { |p.containers| }
  function IsRunning(p: Pod): int { if p.phase == "Running" then 1 else 0 }
  function IsPending(p: Pod): int { if p.phase == "Pending" then 1 else 0 }
  function IsFailed(p: Pod): int { if p.phase == "Failed" then 1 else 0 }
  function IsSucceeded(p: Pod): int { if p.phase == "Succeeded" then 1 else 0 }

  function MeanIfAny(sum: real, count: int): Option<real> {
    if count > 0 then Some(Mean(sum, count)) else None
  }

  /** The node loop's result. */
  datatype NodeTotals = NodeTotals(
    cpuCapacity: real, cpuAllocatable: real, memoryCapacity: int, memoryAllocatable: int, gpuCapacity: int,
    cpuUsage: real, memoryUsage: int, hasCpu: bool, hasMemory: bool, gpu: GpuTotals)

  datatype GpuTotals = GpuTotals(
    utilSum: real, utilCount: int, tensorSum: real, tensorCount: int, memUtilSum: real, memUtilCount: int,
    memUsed: int, memTotal: int)

  function GpuTotalsOf(nodes: seq<Node>): GpuTotals {
    GpuTotals(
      SumReal(nodes, UtilizationOf), SumInt(nodes, HasUtilization),
      SumReal(nodes, TensorOf), SumInt(nodes, HasTensor),
      SumReal(nodes, MemUtilOf), SumInt(nodes, HasMemUtil),
      SumInt(nodes, GpuMemoryUsedOf), SumInt(nodes, GpuMemoryTotalOf))
  }

  function NodeTotalsOf(nodes: seq<Node>): NodeTotals {
    NodeTotals(
      SumReal(nodes, CpuCapacityOf), SumReal(nodes, CpuAllocatableOf),
      SumInt(nodes, MemoryCapacityOf), SumInt(nodes, MemoryAllocatableOf), SumInt(nodes, GpuCapacityOf),
      SumReal(nodes, CpuUsageOf), SumInt(nodes, MemoryUsageOf), AnyCpuUsage(nodes), AnyMemoryUsage(nodes),
      GpuTotalsOf(nodes))
  }

  datatype PodTotals = PodTotals(
    running: int, pending: int, failed: int, succeeded: int, containers: int,
    cpuRequested: real, memoryRequested: int, gpuRequested: int)

  function PodTotalsOf(pods: seq<Pod>): PodTotals {
    PodTotals(
      SumInt(pods, IsRunning), SumInt(pods, IsPending), SumInt(pods, IsFailed), SumInt(pods, IsSucceeded),
      SumInt(pods, ContainersOf),
      SumReal(pods, Aggregation.PodCpuRequest), SumInt(pods, Aggregation.PodMemoryRequest),
      SumInt(pods, PodGpuRequest))
  }

  function SummaryOf(nodes: seq<Node>, pods: seq<Pod>, deployments: int, statefulSets: int,
    daemonSets: int, jobs: int, cronJobs: int): Summary
  {
    var n, p := NodeTotalsOf(nodes), PodTotalsOf(pods);
    Summary(
      |nodes|, |pods|, p.running, p.pending, p.failed, p.succeeded,
      deployments, statefulSets, daemonSets, jobs, cronJobs, p.containers,
      n.cpuCapacity, n.cpuAllocatable, n.memoryCapacity, n.memoryAllocatable, n.gpuCapacity,
      p.cpuRequested, p.memoryRequested, p.gpuRequested,
      if n.hasCpu then Some(n.cpuUsage) else None,
      if n.hasMemory then Some(n.memoryUsage) else None,
      MeanIfAny(n.gpu.utilSum, n.gpu.utilCount), MeanIfAny(n.gpu.tensorSum, n.gpu.tensorCount),
      MeanIfAny(n.gpu.memUtilSum, n.gpu.memUtilCount),
      if n.gpu.utilCount > 0 then Some(n.gpu.memUsed) else None,
      if n.gpu.utilCount > 0 then Some(n.gpu.memTotal) else None,
      n.hasCpu, n.gpu.utilCount > 0)
  }

  function AddNode(t: NodeTotals, n: Node): NodeTotals {
    NodeTotals(
      t.cpuCapacity + n.cpuCapacity, t.cpuAllocatable + n.cpuAllocatable,
      t.memoryCapacity + n.memoryCapacity, t.memoryAllocatable + n.memoryAllocatable, t.gpuCapacity + n.gpuCapacity,
      t.cpuUsage + CpuUsageOf(n), t.memoryUsage + MemoryUsageOf(n),
      t.hasCpu || n.cpuUsage.Some?, t.hasMemory || n.memoryUsage.Some?,
      AddNodeGpu(t.gpu, n))
  }

  function AddNodeGpu(t: GpuTotals, n: Node): GpuTotals {
    GpuTotals(
      t.utilSum + UtilizationOf(n), t.utilCount + HasUtilization(n),
      t.tensorSum + TensorOf(n), t.tensorCount + HasTensor(n),
      t.memUtilSum + MemUtilOf(n), t.memUtilCount + HasMemUtil(n),
      t.memUsed + GpuMemoryUsedOf(n), t.memTotal + GpuMemoryTotalOf(n))
  }

  lemma NodeStep(nodes: seq<Node>, i: nat)
    requires i < |nodes|
    ensures NodeTotalsOf(nodes[..i + 1]) == AddNode(NodeTotalsOf(nodes[..i]), nodes[i])
  {
    assert nodes[..i + 1] == nodes[..i] + [nodes[i]];
    RealStep(nodes, i, CpuCapacityOf);
    RealStep(nodes, i, CpuAllocatableOf);
    IntStep(nodes, i, MemoryCapacityOf);
    IntStep(nodes, i, MemoryAllocatableOf);
    IntStep(nodes, i, GpuCapacityOf);
    RealStep(nodes, i, CpuUsageOf);
    IntStep(nodes, i, MemoryUsageOf);
    RealStep(nodes, i, UtilizationOf);
    IntStep(nodes, i, HasUtilization);
    RealStep(nodes, i, TensorOf);
    IntStep(nodes, i, HasTensor);
    RealStep(nodes, i, MemUtilOf);
    IntStep(nodes, i, HasMemUtil);
    IntStep(nodes, i, GpuMemoryUsedOf);
    IntStep(nodes, i, GpuMemoryTotalOf);
  }

  /** The body of the node loop: capacities and usage, then the GPU fields. */
  method CountNode(t0: NodeTotals, n: Node) returns (t: NodeTotals)
    ensures t == AddNode(t0, n)
  {
    var cpuUsage, memoryUsage, hasCpu, hasMemory := t0.cpuUsage, t0.memoryUsage, t0.hasCpu, t0.hasMemory;
    if n.cpuUsage.Some? {
      cpuUsage, hasCpu := cpuUsage + n.cpuUsage.value, true;
    }
    if n.memoryUsage.Some? {
      memoryUsage, hasMemory := memoryUsage + n.memoryUsage.value, true;
    }
    var gpu := CountNodeGpu(t0.gpu, n);
    t := NodeTotals(
      t0.cpuCapacity + n.cpuCapacity, t0.cpuAllocatable + n.cpuAllocatable,
      t0.memoryCapacity + n.memoryCapacity, t0.memoryAllocatable + n.memoryAllocatable, t0.gpuCapacity + n.gpuCapacity,
      cpuUsage, memoryUsage, hasCpu, hasMemory, gpu);
  }

  method CountNodeGpu(t0: GpuTotals, n: Node) returns (t: GpuTotals)
    ensures t == AddNodeGpu(t0, n)
  {
    var utilSum, utilCount, tensorSum, tensorCount := t0.utilSum, t0.utilCount, t0.tensorSum, t0.tensorCount;
    var memUtilSum, memUtilCount, memUsed, memTotal := t0.memUtilSum, t0.memUtilCount, t0.memUsed, t0.memTotal;
    if n.gpu.utilization.Some? {
      utilSum, utilCount := utilSum + n.gpu.utilization.value, utilCount + 1;
    }
    assert utilSum == t0.utilSum + UtilizationOf(n) && utilCount == t0.utilCount + HasUtilization(n);
    if n.gpu.tensorActive.Some? {
      tensorSum, tensorCount := tensorSum + n.gpu.tensorActive.value, tensorCount + 1;
    }
    assert tensorSum == t0.tensorSum + TensorOf(n) && tensorCount == t0.tensorCount + HasTensor(n);
    if n.gpu.memoryUtil.Some? {
      memUtilSum, memUtilCount := memUtilSum + n.gpu.memoryUtil.value, memUtilCount + 1;
    }
    assert memUtilSum == t0.memUtilSum + MemUtilOf(n) && memUtilCount == t0.memUtilCount + HasMemUtil(n);
    if n.gpu.memoryUsed.Some? {
      memUsed := memUsed + n.gpu.memoryUsed.value;
    }
    if n.gpu.memoryTotal.Some? {
      memTotal := memTotal + n.gpu.memoryTotal.value;
    }
    t := GpuTotals(utilSum, utilCount, tensorSum, tensorCount, memUtilSum, memUtilCount, memUsed, memTotal);
  }

  method SumNodes(nodes: seq<Node>) returns (t: NodeTotals)
    ensures t == NodeTotalsOf(nodes)
  {
    t := NodeTotals(0.0, 0.0, 0, 0, 0, 0.0, 0, false, false,
      GpuTotals(0.0, 0, 0.0, 0, 0.0, 0, 0, 0));
    for i := 0 to |nodes|
      invariant t == NodeTotalsOf(nodes[..i])
    {
      NodeStep(nodes, i);
      t := CountNode(t, nodes[i]);
    }
    assert nodes[..|nodes|] == nodes;
  }

  /** The pod loop over phases and container counts. */
  method CountPhases(pods: seq<Pod>) returns (running: int, pending: int, failed: int, succeeded: int, containers: int)
    ensures running == SumInt(pods, IsRunning) && pending == SumInt(pods, IsPending)
    ensures failed == SumInt(pods, IsFailed) && succeeded == SumInt(pods, IsSucceeded)
    ensures containers == SumInt(pods, ContainersOf)
  {
    running, pending, failed, succeeded, containers := 0, 0, 0, 0, 0;
    for i := 0 to |pods|
      invariant running == SumInt(pods[..i], IsRunning) && pending == SumInt(pods[..i], IsPending)
      invariant failed == SumInt(pods[..i], IsFailed) && succeeded == SumInt(pods[..i], IsSucceeded)
      invariant containers == SumInt(pods[..i], ContainersOf)
    {
      IntStep(pods, i, IsRunning);
      IntStep(pods, i, IsPending);
      IntStep(pods, i, IsFailed);
      IntStep(pods, i, IsSucceeded);
      IntStep(pods, i, ContainersOf);
      var phase := pods[i].phase;
      if phase == "Running" {
        running := running + 1;
      } else if phase == "Pending" {
        pending := pending + 1;
      } else if phase == "Failed" {
        failed := failed + 1;
      } else if phase == "Succeeded" {
        succeeded := succeeded + 1;
      }
      containers := containers + |pods[i].containers|;
    }
    assert pods[..|pods|] == pods;
  }

  /** The request loop over the containers of one pod. */
  method SumContainers(cs: seq<Container>) returns (cpu: real, mem: int, gpu: int)
    ensures cpu == SumReal(cs, Aggregation.CpuRequestOf) && mem == SumInt(cs, Aggregation.MemoryRequestOf)
    ensures gpu == SumInt(cs, GpuRequestOf)
  {
    cpu, mem, gpu := 0.0, 0, 0;
    for j := 0 to |cs|
      invariant cpu == SumReal(cs[..j], Aggregation.CpuRequestOf)
      invariant mem == SumInt(cs[..j], Aggregation.MemoryRequestOf) && gpu == SumInt(cs[..j], GpuRequestOf)
    {
      RealStep(cs, j, Aggregation.CpuRequestOf);
      IntStep(cs, j, Aggregation.MemoryRequestOf);
      IntStep(cs, j, GpuRequestOf);
      cpu, mem, gpu := cpu + cs[j].cpuRequest, mem + cs[j].memoryRequest, gpu + cs[j].gpuRequest;
    }
    assert cs[..|cs|] == cs;
  }

  method SumRequests(pods: seq<Pod>) returns (cpu: real, mem: int, gpu: int)
    ensures cpu == SumReal(pods, Aggregation.PodCpuRequest) && mem == SumInt(pods, Aggregation.PodMemoryRequest)
    ensures gpu == SumInt(pods, PodGpuRequest)
  {
    cpu, mem, gpu := 0.0, 0, 0;
    for i := 0 to |pods|
      invariant cpu == SumReal(pods[..i], Aggregation.PodCpuRequest)
      invariant mem == SumInt(pods[..i], Aggregation.PodMemoryRequest) && gpu == SumInt(pods[..i], PodGpuRequest)
    {
      RealStep(pods, i, Aggregation.PodCpuRequest);
      IntStep(pods, i, Aggregation.PodMemoryRequest);
      IntStep(pods, i, PodGpuRequest);
      var c, m, g := SumContainers(pods[i].containers);
      cpu, mem, gpu := cpu + c, mem + m, gpu + g;
    }
    assert pods[..|pods|] == pods;
  }

  /** summary.go, ComputeSummary. */
  method ComputeSummary(snap: ClusterSnapshot) returns (s: Summary)
    ensures s == SummaryOf(snap.nodes, snap.pods, |snap.deployments|, |snap.statefulSets|,
                           |snap.daemonSets|, |snap.jobs|, |snap.cronJobs|)
  {
    var running, pending, failed, succeeded, containers := CountPhases(snap.pods);
    var n := SumNodes(snap.nodes);
    var cpu, mem, gpu := SumRequests(snap.pods);
    s := Summary(
      |snap.nodes|, |snap.pods|, running, pending, failed, succeeded,
      |snap.deployments|, |snap.statefulSets|, |snap.daemonSets|, |snap.jobs|, |snap.cronJobs|, containers,
      n.cpuCapacity, n.cpuAllocatable, n.memoryCapacity, n.memoryAllocatable, n.gpuCapacity,
      cpu, mem, gpu,
      if n.hasCpu then Some(n.cpuUsage) else None,
      if n.hasMemory then Some(n.memoryUsage) else None,
      MeanIfAny(n.gpu.utilSum, n.gpu.utilCount), MeanIfAny(n.gpu.tensorSum, n.gpu.tensorCount),
      MeanIfAny(n.gpu.memUtilSum, n.gpu.memUtilCount),
      if n.gpu.utilCount > 0 then Some(n.gpu.memUsed) else None,
      if n.gpu.utilCount > 0 then Some(n.gpu.memTotal) else None,
      n.hasCpu, n.gpu.utilCount > 0);
  }
}
