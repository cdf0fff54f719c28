/** The dcgm-exporter joins of the snapshot builder (internal/snapshot/builder.go,
    mergeGPUNodeMetrics and mergeGPUContainerMetrics) against sums over the device list. */
module GpuMerge {
  import opened Prelude
  import opened Model
  import opened DeviceFold

  /** The devices a host reports, in list order; an empty hostname names no host. */
  function DevicesOn(metrics: seq<GpuDevice>, host: string): seq<GpuDevice> {
    if metrics == [] then []
    else
      var last := metrics[|metrics| - 1];
      var before := DevicesOn(metrics[..|metrics| - 1], host);
      if last.labels.hostname == host && host != "" then before + [last] else before
  }

  function UtilizationOf(d: GpuDevice): real { d.utilization.Or(0.0) }
  function HasUtilization(d: GpuDevice): int { if d.utilization.Some? then 1 else 0 }
  function TensorOf(d: GpuDevice): real { d.tensorActive.Or(0.0) }
  function HasTensor(d: GpuDevice): int { if d.tensorActive.Some? then 1 else 0 }
  function MemUtilOf(d: GpuDevice): real { d.memCopyUtil.Or(0.0) }
  function HasMemUtil(d: GpuDevice): int { if d.memCopyUtil.Some? then 1 else 0 }
  function MemoryUsedOf(d: GpuDevice): int { d.memoryUsed.Or(0) }
  function MemoryTotalOf(d: GpuDevice): int { d.memoryTotal.Or(0) }
  function PowerOf(d: GpuDevice): real { d.power.Or(0.0) }

  /** The highest temperature, but never below zero. */
  function MaxTemperature(devs: seq<GpuDevice>): real {
    if devs == [] then 0.0
    else
      var before := MaxTemperature(devs[..|devs| - 1]);
      match devs[|devs| - 1].temperature
      case Some(v) => if v > before then v else before
      case None => before
  }

  predicate AnyTemperature(devs: seq<GpuDevice>) { exists d :: d in devs && d.temperature.Some? }
  predicate AnyPower(devs: seq<GpuDevice>) { exists d :: d in devs && d.power.Some? }
  predicate AnyMig(devs: seq<GpuDevice>) { exists d :: d in devs && d.migEnabled == Some(true) }

  /** The merged temperature bounds every device's, and is one of theirs or zero: a node
      whose devices are all below zero reports zero. */
  lemma {:induction false} MaxTemperatureMeaning(devs: seq<GpuDevice>)
    ensures MaxTemperature(devs) >= 0.0
    ensures forall d :: d in devs && d.temperature.Some? ==> d.temperature.value <= MaxTemperature(devs)
    ensures MaxTemperature(devs) == 0.0
            || exists d :: d in devs && d.temperature == Some(MaxTemperature(devs))
  {
    if devs != [] {
      var p, last := devs[..|devs| - 1], devs[|devs| - 1];
      MaxTemperatureMeaning(p);
      assert devs == p + [last];
      assert last in devs;
    }
  }

  /** The accumulators of the device loop. */
  datatype DeviceTotals = DeviceTotals(
    utilSum: real, utilCount: int, tensorSum: real, tensorCount: int,
    memUtilSum: real, memUtilCount: int, memUsed: int, memTotal: int,
    maxTemp: real, powerSum: real, hasTemp: bool, hasPower: bool, mig: bool)

  function TotalsOf(devs: seq<GpuDevice>): DeviceTotals {
    DeviceTotals(
      SumReal(devs, UtilizationOf), SumInt(devs, HasUtilization),
      SumReal(devs, TensorOf), SumInt(devs, HasTensor),
      SumReal(devs, MemUtilOf), SumInt(devs, HasMemUtil),
      SumInt(devs, MemoryUsedOf), SumInt(devs, MemoryTotalOf),
      MaxTemperature(devs), SumReal(devs, PowerOf),
      AnyTemperature(devs), AnyPower(devs), AnyMig(devs))
  }

  function InfoOf(d: GpuDevice): DeviceInfo {
    DeviceInfo(d.labels.uuid, d.labels.gpu, d.labels.modelName, d.labels.gpuProfile, d.labels.gpuInstanceId,
               d.utilization, d.tensorActive, d.memCopyUtil, d.memoryUsed, d.memoryTotal, d.temperature, d.power)
  }

  function InfosOf(devs: seq<GpuDevice>): seq<DeviceInfo> {
    seq(|devs|, i requires 0 <= i < |devs| => InfoOf(devs[i]))
  }

  /** A node's GPU fields after the merge: means over the devices that report a value,
      sums kept only when positive, the rest as it was. */
  function GpuWith(g: NodeGpu, devs: seq<GpuDevice>): NodeGpu {
    if devs == [] then g
    else
      var t := TotalsOf(devs);
      NodeGpu(
        if devs[0].labels.modelName != "" then devs[0].labels.modelName else g.model,
        if devs[0].labels.driverVersion != "" then devs[0].labels.driverVersion else g.driver,
        t.mig,
        if t.utilCount > 0 then Some(Mean(t.utilSum, t.utilCount)) else g.utilization,
        if t.tensorCount > 0 then Some(Mean(t.tensorSum, t.tensorCount)) else g.tensorActive,
        if t.memUtilCount > 0 then Some(Mean(t.memUtilSum, t.memUtilCount)) else g.memoryUtil,
        if t.memUsed > 0 then Some(t.memUsed) else g.memoryUsed,
        if t.memTotal > 0 then Some(t.memTotal) else g.memoryTotal,
        if t.hasTemp then Some(t.maxTemp) else g.temperature,
        if t.hasPower then Some(t.powerSum) else g.power,
        InfosOf(devs))
  }

  function NodeWithGpu(n: Node, metrics: seq<GpuDevice>): Node {
    n.(gpu := GpuWith(n.gpu, DevicesOn(metrics, n.name)))
  }

  function AddDevice(t: DeviceTotals, d: GpuDevice): DeviceTotals {
    AddState(AddMemory(AddMeans(t, d), d), d)
  }

  lemma TotalsStep(devs: seq<GpuDevice>, i: nat)
    requires i < |devs|
    ensures TotalsOf(devs[..i + 1]) == AddDevice(TotalsOf(devs[..i]), devs[i])
  {
    assert devs[..i + 1] == devs[..i] + [devs[i]];
    assert devs[..i + 1][..i] == devs[..i];
    RealStep(devs, i, UtilizationOf);
    IntStep(devs, i, HasUtilization);
    RealStep(devs, i, TensorOf);
    IntStep(devs, i, HasTensor);
    RealStep(devs, i, MemUtilOf);
    IntStep(devs, i, HasMemUtil);
    IntStep(devs, i, MemoryUsedOf);
    IntStep(devs, i, MemoryTotalOf);
    RealStep(devs, i, PowerOf);
  }

  /** The device loop of mergeGPUNodeMetrics for one node. */
  method SumDevices(devs: seq<GpuDevice>) returns (t: DeviceTotals, infos: seq<DeviceInfo>)
    ensures t == TotalsOf(devs) && infos == InfosOf(devs)
  {
    t := DeviceTotals(0.0, 0, 0.0, 0, 0.0, 0, 0, 0, 0.0, 0.0, false, false, false);
    infos := [];
    for i := 0 to |devs|
      invariant t == TotalsOf(devs[..i])
      invariant |infos| == i && forall k :: 0 <= k < i ==> infos[k] == InfoOf(devs[k])
    {
      TotalsStep(devs, i);
      t := CountDevice(t, devs[i]);
      infos := infos + [InfoOf(devs[i])];
    }
    assert devs[..|devs|] == devs;
  }

  function AddMeans(t: DeviceTotals, d: GpuDevice): DeviceTotals {
    t.(utilSum := t.utilSum + UtilizationOf(d), utilCount := t.utilCount + HasUtilization(d),
       tensorSum := t.tensorSum + TensorOf(d), tensorCount := t.tensorCount + HasTensor(d),
       memUtilSum := t.memUtilSum + MemUtilOf(d), memUtilCount := t.memUtilCount + HasMemUtil(d))
  }

  /** The figures that are averaged: absent values count for nothing. */
  method CountMeans(t0: DeviceTotals, d: GpuDevice) returns (t: DeviceTotals)
    ensures t == AddMeans(t0, d)
  {
    t := t0;
    if d.utilization.Some? {
      t := t.(utilSum := t.utilSum + d.utilization.value, utilCount := t.utilCount + 1);
    }
    assert t == t0.(utilSum := t0.utilSum + UtilizationOf(d), utilCount := t0.utilCount + HasUtilization(d));
    if d.tensorActive.Some? {
      t := t.(tensorSum := t.tensorSum + d.tensorActive.value, tensorCount := t.tensorCount + 1);
    }
    assert t.tensorSum == t0.tensorSum + TensorOf(d) && t.tensorCount == t0.tensorCount + HasTensor(d);
    if d.memCopyUtil.Some? {
      t := t.(memUtilSum := t.memUtilSum + d.memCopyUtil.value, memUtilCount := t.memUtilCount + 1);
    }
  }

  function AddMemory(t: DeviceTotals, d: GpuDevice): DeviceTotals {
    t.(memUsed := t.memUsed + MemoryUsedOf(d), memTotal := t.memTotal + MemoryTotalOf(d))
  }

  method CountMemory(t0: DeviceTotals, d: GpuDevice) returns (t: DeviceTotals)
    ensures t == AddMemory(t0, d)
  {
    t := t0;
    if d.memoryUsed.Some? {
      t := t.(memUsed := t.memUsed + d.memoryUsed.value);
    }
    if d.memoryTotal.Some? {
      t := t.(memTotal := t.memTotal + d.memoryTotal.value);
    }
  }

  function AddState(t: DeviceTotals, d: GpuDevice): DeviceTotals {
    t.(maxTemp := if d.temperature.Some? && d.temperature.value > t.maxTemp then d.temperature.value else t.maxTemp,
       hasTemp := t.hasTemp || d.temperature.Some?,
       powerSum := t.powerSum + PowerOf(d), hasPower := t.hasPower || d.power.Some?,
       mig := t.mig || d.migEnabled == Some(true))
  }

  method CountState(t0: DeviceTotals, d: GpuDevice) returns (t: DeviceTotals)
    ensures t == AddState(t0, d)
  {
    t := t0;
    if d.temperature.Some? {
      if d.temperature.value > t.maxTemp {
        t := t.(maxTemp := d.temperature.value);
      }
      t := t.(hasTemp := true);
    }
    if d.power.Some? {
      t := t.(powerSum := t.powerSum + d.power.value, hasPower := true);
    }
    if d.migEnabled.Some? && d.migEnabled.value {
      t := t.(mig := true);
    }
  }

  /** The body of the device loop. */
  method CountDevice(t0: DeviceTotals, d: GpuDevice) returns (t: DeviceTotals)
    ensures t == AddDevice(t0, d)
  {
    t := CountMeans(t0, d);
    t := CountMemory(t, d);
    t := CountState(t, d);
  }

  /** A missing key of a Go map reads as the empty list. */
  function DevicesAt(byNode: map<string, seq<GpuDevice>>, host: string): seq<GpuDevice> {
    if host in byNode then byNode[host] else []
  }

  /** The map holds each host's devices. */
  ghost predicate ByHost(byNode: map<string, seq<GpuDevice>>, metrics: seq<GpuDevice>) {
    forall host :: DevicesAt(byNode, host) == DevicesOn(metrics, host)
  }

  lemma DevicesOnStep(metrics: seq<GpuDevice>, i: nat, host: string)
    requires i < |metrics|
    ensures DevicesOn(metrics[..i + 1], host) ==
            var before := DevicesOn(metrics[..i], host);
            if metrics[i].labels.hostname == host && host != "" then before + [metrics[i]] else before
  {
    assert metrics[..i + 1][..i] == metrics[..i];
  }

  lemma ByHostStep(
    byNode: map<string, seq<GpuDevice>>, metrics: seq<GpuDevice>, i: nat, byNode': map<string, seq<GpuDevice>>)
    requires i < |metrics| && ByHost(byNode, metrics[..i])
    requires var host := metrics[i].labels.hostname;
             byNode' == if host != "" then byNode[host := DevicesAt(byNode, host) + [metrics[i]]] else byNode
    ensures ByHost(byNode', metrics[..i + 1])
  {
    forall host
      ensures DevicesAt(byNode', host) == DevicesOn(metrics[..i + 1], host)
    {
      DevicesOnStep(metrics, i, host);
    }
  }

  /** The grouping loop of mergeGPUNodeMetrics. */
  method GroupByHost(metrics: seq<GpuDevice>) returns (byNode: map<string, seq<GpuDevice>>)
    ensures ByHost(byNode, metrics)
  {
    byNode := map[];
    for i := 0 to |metrics|
      invariant ByHost(byNode, metrics[..i])
    {
      var m := metrics[i];
      ghost var before := byNode;
      if m.labels.hostname != "" {
        byNode := byNode[m.labels.hostname := DevicesAt(byNode, m.labels.hostname) + [m]];
      }
      ByHostStep(before, metrics, i, byNode);
    }
    assert metrics[..|metrics|] == metrics;
  }

  /** The assignments of mergeGPUNodeMetrics after the device loop. */
  method UpdateNodeGpu(g0: NodeGpu, devs: seq<GpuDevice>) returns (g: NodeGpu)
    requires devs != []
    ensures g == GpuWith(g0, devs)
  {
    var t, infos := SumDevices(devs);
    var model, driver := g0.model, g0.driver;
    if devs[0].labels.modelName != "" {
      model := devs[0].labels.modelName;
    }
    if devs[0].labels.driverVersion != "" {
      driver := devs[0].labels.driverVersion;
    }
    var util, tensor, memUtil := g0.utilization, g0.tensorActive, g0.memoryUtil;
    if t.utilCount > 0 {
      util := Some(Mean(t.utilSum, t.utilCount));
    }
    if t.tensorCount > 0 {
      tensor := Some(Mean(t.tensorSum, t.tensorCount));
    }
    if t.memUtilCount > 0 {
      memUtil := Some(Mean(t.memUtilSum, t.memUtilCount));
    }
    var used, total, temp, power := g0.memoryUsed, g0.memoryTotal, g0.temperature, g0.power;
    if t.memUsed > 0 {
      used := Some(t.memUsed);
    }
    if t.memTotal > 0 {
      total := Some(t.memTotal);
    }
    if t.hasTemp {
      temp := Some(t.maxTemp);
    }
    if t.hasPower {
      power := Some(t.powerSum);
    }
    g := NodeGpu(model, driver, t.mig, util, tensor, memUtil, used, total, temp, power, infos);
  }

  /** builder.go, mergeGPUNodeMetrics. */
  method MergeGpuNodeMetrics(snap: ClusterSnapshot, metrics: seq<GpuDevice>)
    modifies snap`nodes
    ensures |snap.nodes| == |old(snap.nodes)|
    ensures forall i :: 0 <= i < |snap.nodes| ==> snap.nodes[i] == NodeWithGpu(old(snap.nodes)[i], metrics)
  {
    if |metrics| == 0 {
      return;
    }
    var byNode := GroupByHost(metrics);
    for i := 0 to |snap.nodes|
      invariant |snap.nodes| == |old(snap.nodes)|
      invariant forall j :: 0 <= j < i ==> snap.nodes[j] == NodeWithGpu(old(snap.nodes)[j], metrics)
      invariant forall j :: i <= j < |snap.nodes| ==> snap.nodes[j] == old(snap.nodes)[j]
    {
      var n := snap.nodes[i];
      var devs := DevicesAt(byNode, n.name);
      assert devs == DevicesOn(metrics, n.name);
      if |devs| > 0 {
        var g := UpdateNodeGpu(n.gpu, devs);
        assert NodeWithGpu(n, metrics) == n.(gpu := g);
        snap.nodes := snap.nodes[i := n.(gpu := g)];
      }
    }
  }

  // ---- Containers ----

  datatype ContainerKey = ContainerKey(namespace: string, pod: string, container: string)

  predicate Attributed(d: GpuDevice) {
    d.labels.podName != "" && d.labels.namespace != "" && d.labels.containerName != ""
  }

  function ContainerKeyOf(d: GpuDevice): ContainerKey {
    ContainerKey(d.labels.namespace, d.labels.podName, d.labels.containerName)
  }

  /** The devices attributed to one container. */
  function DevicesOf(metrics: seq<GpuDevice>, key: ContainerKey): seq<GpuDevice> {
    if metrics == [] then []
    else
      var last := metrics[|metrics| - 1];
      var before := DevicesOf(metrics[..|metrics| - 1], key);
      if Attributed(last) && ContainerKeyOf(last) == key then before + [last] else before
  }

  predicate AnyMemory(devs: seq<GpuDevice>) { exists d :: d in devs && d.memoryUsed.Some? }

  /** A container with the mean utilization and the summed memory of its devices. */
  function ContainerWithGpu(c: Container, devs: seq<GpuDevice>): Container {
    var count := SumInt(devs, HasUtilization);
    c.(gpuUtilization := if count > 0 then Some(Mean(SumReal(devs, UtilizationOf), count)) else c.gpuUtilization,
       gpuMemoryUsed := if AnyMemory(devs) then Some(SumInt(devs, MemoryUsedOf)) else c.gpuMemoryUsed)
  }

  function PodWithGpu(p: Pod, metrics: seq<GpuDevice>): Pod {
    p.(containers := seq(|p.containers|, i requires 0 <= i < |p.containers| =>
         ContainerWithGpu(p.containers[i],
                          DevicesOf(metrics, ContainerKey(p.namespace, p.name, p.containers[i].name)))))
  }

  datatype ContainerGpu = ContainerGpu(utilSum: real, utilCount: int, memUsed: int, hasMem: bool)

  const NO_GPU := ContainerGpu(0.0, 0, 0, false)

  function ContainerGpuOf(devs: seq<GpuDevice>): ContainerGpu {
    ContainerGpu(SumReal(devs, UtilizationOf), SumInt(devs, HasUtilization), SumInt(devs, MemoryUsedOf), AnyMemory(devs))
  }

  function ContainerGpuAt(lookup: map<ContainerKey, ContainerGpu>, key: ContainerKey): ContainerGpu {
    if key in lookup then lookup[key] else NO_GPU
  }

  function AddToContainer(g: ContainerGpu, d: GpuDevice): ContainerGpu {
    ContainerGpu(g.utilSum + UtilizationOf(d), g.utilCount + HasUtilization(d),
                 g.memUsed + MemoryUsedOf(d), g.hasMem || d.memoryUsed.Some?)
  }

  lemma ContainerGpuStep(devs: seq<GpuDevice>, d: GpuDevice)
    ensures ContainerGpuOf(devs + [d]) == AddToContainer(ContainerGpuOf(devs), d)
  {
    assert (devs + [d])[..|devs|] == devs;
  }

  lemma DevicesOfStep(metrics: seq<GpuDevice>, i: nat, key: ContainerKey)
    requires i < |metrics|
    ensures DevicesOf(metrics[..i + 1], key) ==
            var before := DevicesOf(metrics[..i], key);
            if Attributed(metrics[i]) && ContainerKeyOf(metrics[i]) == key then before + [metrics[i]] else before
  {
    assert metrics[..i + 1][..i] == metrics[..i];
  }

  /** The table answers every key with the sums over its devices. */
  ghost predicate Grouped(lookup: map<ContainerKey, ContainerGpu>, metrics: seq<GpuDevice>) {
    forall key :: ContainerGpuAt(lookup, key) == ContainerGpuOf(DevicesOf(metrics, key))
  }

  lemma GroupedStep(
    lookup: map<ContainerKey, ContainerGpu>, metrics: seq<GpuDevice>, i: nat,
    lookup': map<ContainerKey, ContainerGpu>)
    requires i < |metrics| && Grouped(lookup, metrics[..i])
    requires var d := metrics[i]; var key := ContainerKeyOf(d);
             lookup' == if Attributed(d) then lookup[key := AddToContainer(ContainerGpuAt(lookup, key), d)] else lookup
    ensures Grouped(lookup', metrics[..i + 1])
  {
    forall key
      ensures ContainerGpuAt(lookup', key) == ContainerGpuOf(DevicesOf(metrics[..i + 1], key))
    {
      DevicesOfStep(metrics, i, key);
      ContainerGpuStep(DevicesOf(metrics[..i], key), metrics[i]);
    }
  }

  /** The device loop of mergeGPUContainerMetrics. */
  method GroupByContainer(metrics: seq<GpuDevice>) returns (lookup: map<ContainerKey, ContainerGpu>)
    ensures Grouped(lookup, metrics)
  {
    lookup := map[];
    for i := 0 to |metrics|
      invariant Grouped(lookup, metrics[..i])
    {
      var m := metrics[i];
      ghost var before := lookup;
      if m.labels.podName == "" || m.labels.namespace == "" || m.labels.containerName == "" {
        GroupedStep(before, metrics, i, lookup);
        continue;
      }
      var key := ContainerKeyOf(m);
      var cg := ContainerGpuAt(lookup, key);
      if m.utilization.Some? {
        cg := cg.(utilSum := cg.utilSum + m.utilization.value, utilCount := cg.utilCount + 1);
      }
      if m.memoryUsed.Some? {
        cg := cg.(memUsed := cg.memUsed + m.memoryUsed.value, hasMem := true);
      }
      assert cg == AddToContainer(ContainerGpuAt(before, key), m);
      lookup := lookup[key := cg];
      GroupedStep(before, metrics, i, lookup);
    }
    assert metrics[..|metrics|] == metrics;
  }

  /** The container loop of mergeGPUContainerMetrics for one pod. */
  method UpdatePodGpu(p: Pod, lookup: map<ContainerKey, ContainerGpu>, ghost metrics: seq<GpuDevice>)
    returns (r: Pod)
    requires Grouped(lookup, metrics)
    ensures r == PodWithGpu(p, metrics)
  {
    var cs := p.containers;
    ghost var target := PodWithGpu(p, metrics).containers;
    for j := 0 to |cs|
      invariant |cs| == |p.containers|
      invariant forall k :: 0 <= k < j ==> cs[k] == target[k]
      invariant forall k :: j <= k < |cs| ==> cs[k] == p.containers[k]
    {
      var c := cs[j];
      var cg := ContainerGpuAt(lookup, ContainerKey(p.namespace, p.name, c.name));
      if cg.utilCount > 0 {
        c := c.(gpuUtilization := Some(Mean(cg.utilSum, cg.utilCount)));
      }
      if cg.hasMem {
        c := c.(gpuMemoryUsed := Some(cg.memUsed));
      }
      cs := cs[j := c];
    }
    return p.(containers := cs);
  }

  /** builder.go, mergeGPUContainerMetrics. */
  method MergeGpuContainerMetrics(snap: ClusterSnapshot, metrics: seq<GpuDevice>)
    modifies snap`pods
    ensures |snap.pods| == |old(snap.pods)|
    ensures forall i :: 0 <= i < |snap.pods| ==> snap.pods[i] == PodWithGpu(old(snap.pods)[i], metrics)
  {
    if |metrics| == 0 {
      forall i | 0 <= i < |snap.pods|
        ensures PodWithGpu(snap.pods[i], metrics) == snap.pods[i]
      {
        NoMetricsNoChange(snap.pods[i]);
      }
      return;
    }
    var lookup := GroupByContainer(metrics);
    for i := 0 to |snap.pods|
      invariant |snap.pods| == |old(snap.pods)|
      invariant forall j :: 0 <= j < i ==> snap.pods[j] == PodWithGpu(old(snap.pods)[j], metrics)
      invariant forall j :: i <= j < |snap.pods| ==> snap.pods[j] == old(snap.pods)[j]
    {
      var p := UpdatePodGpu(snap.pods[i], lookup, metrics);
      snap.pods := snap.pods[i := p];
    }
  }

  lemma NoMetricsNoChange(p: Pod)
    ensures PodWithGpu(p, []) == p
  {
    assert PodWithGpu(p, []).containers == p.containers;
  }
}
