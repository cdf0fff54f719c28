/** The GPU figures of containers and nodes as the builder reports them
    (internal/snapshot/builder.go, mergeGPUContainerMetrics and mergeGPUNodeMetrics), read off
    the fields of the whole device list. */
module GpuFigures {
  import opened Prelude
  import opened Model
  import opened DeviceFold
  import opened GpuMerge

  // ---- Containers ----

  /** The device's labels name the container, and no part of the name is empty. */
  predicate Labelled(d: GpuDevice, namespace: string, pod: string, container: string) {
    && namespace != "" && pod != "" && container != ""
    && d.labels.namespace == namespace && d.labels.podName == pod && d.labels.containerName == container
  }

  function LabelledDevices(metrics: seq<GpuDevice>, namespace: string, pod: string, container: string): seq<GpuDevice> {
    Values(metrics, (d: GpuDevice) => if Labelled(d, namespace, pod, container) then Some(d) else None)
  }

  /** The utilizations that devices report for a container. */
  function Utilizations(metrics: seq<GpuDevice>, namespace: string, pod: string, container: string): seq<real> {
    Values(metrics, (d: GpuDevice) => if Labelled(d, namespace, pod, container) then d.utilization else None)
  }

  function MemoriesUsed(metrics: seq<GpuDevice>, namespace: string, pod: string, container: string): seq<int> {
    Values(metrics, (d: GpuDevice) => if Labelled(d, namespace, pod, container) then d.memoryUsed else None)
  }

  lemma DevicesOfSnoc(p: seq<GpuDevice>, d: GpuDevice, namespace: string, pod: string, container: string)
    ensures DevicesOf(p + [d], ContainerKey(namespace, pod, container)) ==
            var before := DevicesOf(p, ContainerKey(namespace, pod, container));
            if Labelled(d, namespace, pod, container) then before + [d] else before
  {
    assert (p + [d])[..|p|] == p;
  }

  lemma {:induction false} ValuesOfDevices<R>(
    metrics: seq<GpuDevice>, namespace: string, pod: string, container: string,
    f: GpuDevice -> Option<R>, g: GpuDevice -> Option<R>)
    requires forall d :: g(d) == if Labelled(d, namespace, pod, container) then f(d) else None
    ensures Values(DevicesOf(metrics, ContainerKey(namespace, pod, container)), f) == Values(metrics, g)
  {
    if metrics != [] {
      var p, d := metrics[..|metrics| - 1], metrics[|metrics| - 1];
      assert metrics == p + [d];
      ValuesOfDevices(p, namespace, pod, container, f, g);
      DevicesOfSnoc(p, d, namespace, pod, container);
      ValuesStep(DevicesOf(p, ContainerKey(namespace, pod, container)), d, f);
      ValuesStep(p, d, g);
    }
  }

  lemma {:induction false} AllValues<T>(xs: seq<T>, f: T -> Option<T>)
    requires forall x :: f(x) == Some(x)
    ensures Values(xs, f) == xs
  {
    if xs != [] {
      AllValues(xs[..|xs| - 1], f);
    }
  }

  /** The devices of a container are those that its namespace, pod and name label, in order. */
  lemma DevicesByLabel(metrics: seq<GpuDevice>, namespace: string, pod: string, container: string)
    ensures DevicesOf(metrics, ContainerKey(namespace, pod, container)) ==
            LabelledDevices(metrics, namespace, pod, container)
  {
    var f := (d: GpuDevice) => Some(d);
    ValuesOfDevices(metrics, namespace, pod, container, f,
                    (d: GpuDevice) => if Labelled(d, namespace, pod, container) then Some(d) else None);
    AllValues(DevicesOf(metrics, ContainerKey(namespace, pod, container)), f);
  }

  lemma ContainerSums(metrics: seq<GpuDevice>, namespace: string, pod: string, container: string)
    ensures var devs := DevicesOf(metrics, ContainerKey(namespace, pod, container));
            && SumReal(devs, UtilizationOf) == Total(Utilizations(metrics, namespace, pod, container))
            && SumInt(devs, HasUtilization) == |Utilizations(metrics, namespace, pod, container)|
            && SumInt(devs, MemoryUsedOf) == TotalInt(MemoriesUsed(metrics, namespace, pod, container))
            && (AnyMemory(devs) <==> MemoriesUsed(metrics, namespace, pod, container) != [])
  {
    var devs := DevicesOf(metrics, ContainerKey(namespace, pod, container));
    var util, mem := (d: GpuDevice) => d.utilization, (d: GpuDevice) => d.memoryUsed;
    RealSumOfValues(devs, util, UtilizationOf);
    CountOfValues(devs, util, HasUtilization);
    IntSumOfValues(devs, mem, MemoryUsedOf);
    SomeValue(devs, mem);
    ValuesOfDevices(metrics, namespace, pod, container, util,
                    (d: GpuDevice) => if Labelled(d, namespace, pod, container) then d.utilization else None);
    ValuesOfDevices(metrics, namespace, pod, container, mem,
                    (d: GpuDevice) => if Labelled(d, namespace, pod, container) then d.memoryUsed else None);
  }

  /** The mean utilization and the sum of the used memory of the container's devices, each if
      some device reports it, or the figure of `before`. */
  predicate ContainerGpuIs(c: Container, before: Container, p: Pod, metrics: seq<GpuDevice>) {
    var utils := Utilizations(metrics, p.namespace, p.name, before.name);
    var used := MemoriesUsed(metrics, p.namespace, p.name, before.name);
    && c.gpuUtilization == (if utils != [] then Some(Total(utils) / (|utils| as real)) else before.gpuUtilization)
    && c.gpuMemoryUsed == (if used != [] then Some(TotalInt(used)) else before.gpuMemoryUsed)
  }

  /** Each container of a pod is given these figures, and nothing else about the pod changes. */
  lemma PodFigures(p: Pod, metrics: seq<GpuDevice>, j: nat)
    requires j < |p.containers|
    ensures var q, c := PodWithGpu(p, metrics), p.containers[j];
            && q == p.(containers := q.containers) && |q.containers| == |p.containers|
            && var r := q.containers[j];
               r == c.(gpuUtilization := r.gpuUtilization, gpuMemoryUsed := r.gpuMemoryUsed)
               && ContainerGpuIs(r, c, p, metrics)
  {
    ContainerSums(metrics, p.namespace, p.name, p.containers[j].name);
  }

  // ---- Nodes ----

  /** The devices that report from a host with a name. */
  function HostDevices(metrics: seq<GpuDevice>, host: string): seq<GpuDevice> {
    Values(metrics, (d: GpuDevice) => if host != "" && d.labels.hostname == host then Some(d) else None)
  }

  lemma {:induction false} DevicesByHost(metrics: seq<GpuDevice>, host: string)
    ensures DevicesOn(metrics, host) == HostDevices(metrics, host)
  {
    if metrics != [] {
      var p, d := metrics[..|metrics| - 1], metrics[|metrics| - 1];
      DevicesByHost(p, host);
      assert metrics == p + [d];
      ValuesStep(p, d, (d: GpuDevice) => if host != "" && d.labels.hostname == host then Some(d) else None);
    }
  }

  /** The mean of the figures that are reported, or the figure before if there are none. */
  ghost predicate MeanIs(devs: seq<GpuDevice>, f: GpuDevice -> Option<real>, before: Option<real>, after: Option<real>) {
    var values := Values(devs, f);
    after == if values != [] then Some(Total(values) / (|values| as real)) else before
  }

  /** The sum of the figures if it is positive, or the figure before. */
  ghost predicate PositiveSumIs(devs: seq<GpuDevice>, f: GpuDevice -> Option<int>, before: Option<int>, after: Option<int>) {
    var sum := TotalInt(Values(devs, f));
    after == if sum > 0 then Some(sum) else before
  }

  ghost predicate SumIs(devs: seq<GpuDevice>, f: GpuDevice -> Option<real>, before: Option<real>, after: Option<real>) {
    var values := Values(devs, f);
    after == if values != [] then Some(Total(values)) else before
  }

  /** The highest figure, but at least zero. */
  ghost predicate HighestIs(devs: seq<GpuDevice>, f: GpuDevice -> Option<real>, before: Option<real>, after: Option<real>) {
    if Values(devs, f) == [] then after == before
    else
      && after.Some? && after.value >= 0.0
      && (forall d :: d in devs && f(d).Some? ==> f(d).value <= after.value)
      && (after.value == 0.0 || exists d :: d in devs && f(d) == after)
  }

  /** What the node keeps of each device. */
  predicate Describes(i: DeviceInfo, d: GpuDevice) {
    && i.uuid == d.labels.uuid && i.index == d.labels.gpu && i.model == d.labels.modelName
    && i.migProfile == d.labels.gpuProfile && i.migInstance == d.labels.gpuInstanceId
    && i.utilization == d.utilization && i.tensorActive == d.tensorActive && i.memoryUtil == d.memCopyUtil
    && i.memoryUsed == d.memoryUsed && i.memoryTotal == d.memoryTotal
    && i.temperature == d.temperature && i.power == d.power
  }

  /** The first device names the model and the driver, unless it leaves them empty. */
  predicate Identifies(d: GpuDevice, before: NodeGpu, after: NodeGpu) {
    && after.model == (if d.labels.modelName != "" then d.labels.modelName else before.model)
    && after.driver == (if d.labels.driverVersion != "" then d.labels.driverVersion else before.driver)
  }

  ghost predicate NodeMeans(devs: seq<GpuDevice>, before: NodeGpu, after: NodeGpu) {
    && MeanIs(devs, (d: GpuDevice) => d.utilization, before.utilization, after.utilization)
    && MeanIs(devs, (d: GpuDevice) => d.tensorActive, before.tensorActive, after.tensorActive)
    && MeanIs(devs, (d: GpuDevice) => d.memCopyUtil, before.memoryUtil, after.memoryUtil)
  }

  ghost predicate NodeSums(devs: seq<GpuDevice>, before: NodeGpu, after: NodeGpu) {
    && PositiveSumIs(devs, (d: GpuDevice) => d.memoryUsed, before.memoryUsed, after.memoryUsed)
    && PositiveSumIs(devs, (d: GpuDevice) => d.memoryTotal, before.memoryTotal, after.memoryTotal)
    && SumIs(devs, (d: GpuDevice) => d.power, before.power, after.power)
    && HighestIs(devs, (d: GpuDevice) => d.temperature, before.temperature, after.temperature)
    && (after.mig <==> exists d :: d in devs && d.migEnabled == Some(true))
  }

  lemma MeansOfGpu(g: NodeGpu, devs: seq<GpuDevice>)
    requires devs != []
    ensures NodeMeans(devs, g, GpuWith(g, devs))
  {
    RealSumOfValues(devs, (d: GpuDevice) => d.utilization, UtilizationOf);
    CountOfValues(devs, (d: GpuDevice) => d.utilization, HasUtilization);
    RealSumOfValues(devs, (d: GpuDevice) => d.tensorActive, TensorOf);
    CountOfValues(devs, (d: GpuDevice) => d.tensorActive, HasTensor);
    RealSumOfValues(devs, (d: GpuDevice) => d.memCopyUtil, MemUtilOf);
    CountOfValues(devs, (d: GpuDevice) => d.memCopyUtil, HasMemUtil);
  }

  lemma SumsOfGpu(g: NodeGpu, devs: seq<GpuDevice>)
    requires devs != []
    ensures NodeSums(devs, g, GpuWith(g, devs))
  {
    IntSumOfValues(devs, (d: GpuDevice) => d.memoryUsed, MemoryUsedOf);
    IntSumOfValues(devs, (d: GpuDevice) => d.memoryTotal, MemoryTotalOf);
    RealSumOfValues(devs, (d: GpuDevice) => d.power, PowerOf);
    SomeValue(devs, (d: GpuDevice) => d.power);
    SomeValue(devs, (d: GpuDevice) => d.temperature);
    MaxTemperatureMeaning(devs);
  }

  /** The GPU fields are as before if no device reports from the host, and otherwise those of
      the devices that do. */
  ghost predicate NodeGpuIs(g: NodeGpu, before: NodeGpu, host: string, metrics: seq<GpuDevice>) {
    var devs := HostDevices(metrics, host);
    if devs == [] then g == before
    else
      && Identifies(devs[0], before, g) && NodeMeans(devs, before, g) && NodeSums(devs, before, g)
      && |g.devices| == |devs|
      && forall i :: 0 <= i < |devs| ==> Describes(g.devices[i], devs[i])
  }

  /** A node is given these fields, and nothing else about it changes. */
  lemma NodeFigures(n: Node, metrics: seq<GpuDevice>)
    ensures var m := NodeWithGpu(n, metrics); m == n.(gpu := m.gpu) && NodeGpuIs(m.gpu, n.gpu, n.name, metrics)
  {
    DevicesByHost(metrics, n.name);
    var devs := HostDevices(metrics, n.name);
    if devs != [] {
      MeansOfGpu(n.gpu, devs);
      SumsOfGpu(n.gpu, devs);
    }
  }
}
