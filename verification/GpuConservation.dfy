/** From device values to the cluster figures: what the per-node merge followed by the
    summary conserves, and where the mean of means must lie. */
module GpuConservation {
  import opened Prelude
  import opened Model
  import opened DeviceFold
  import opened GpuMerge
  import S = SummaryTotals

  /** A node as the store holds it: nothing merged yet. */
  predicate Blank(n: Node) {
    && n.gpu.utilization.None? && n.gpu.tensorActive.None? && n.gpu.memoryUtil.None?
    && n.gpu.memoryUsed.None? && n.gpu.memoryTotal.None?
  }

  ghost predicate AllBlank(nodes: seq<Node>) {
    forall i :: 0 <= i < |nodes| ==> Blank(nodes[i])
  }

  /** The nodes after mergeGPUNodeMetrics. */
  ghost predicate Merged(after: seq<Node>, before: seq<Node>, metrics: seq<GpuDevice>) {
    && |after| == |before|
    && forall i :: 0 <= i < |before| ==> after[i] == NodeWithGpu(before[i], metrics)
  }

  /** The device runs on one of the named nodes. */
  predicate Hosted(d: GpuDevice, names: set<string>) {
    d.labels.hostname != "" && d.labels.hostname in names
  }

  /** The sum of a value over the devices hosted on the named nodes. */
  function HostedSum(metrics: seq<GpuDevice>, names: set<string>, f: GpuDevice -> int): int {
    if metrics == [] then 0
    else
      var last := metrics[|metrics| - 1];
      HostedSum(metrics[..|metrics| - 1], names, f) + (if Hosted(last, names) then f(last) else 0)
  }

  lemma {:induction false} HostedOne(metrics: seq<GpuDevice>, host: string, f: GpuDevice -> int)
    ensures HostedSum(metrics, {host}, f) == SumInt(DevicesOn(metrics, host), f)
  {
    if metrics != [] {
      var p, last := metrics[..|metrics| - 1], metrics[|metrics| - 1];
      HostedOne(p, host, f);
      var devs := DevicesOn(p, host);
      assert (devs + [last])[..|devs|] == devs;
      assert devs + [] == devs;
    }
  }

  lemma {:induction false} HostedUnion(metrics: seq<GpuDevice>, a: set<string>, b: set<string>, f: GpuDevice -> int)
    requires a !! b
    ensures HostedSum(metrics, a + b, f) == HostedSum(metrics, a, f) + HostedSum(metrics, b, f)
  {
    if metrics != [] {
      HostedUnion(metrics[..|metrics| - 1], a, b, f);
    }
  }

  lemma {:induction false} HostedNone(metrics: seq<GpuDevice>, f: GpuDevice -> int)
    ensures HostedSum(metrics, {}, f) == 0
  {
    if metrics != [] {
      HostedNone(metrics[..|metrics| - 1], f);
    }
  }

  /** `g` reads a node total that the merge keeps only when it is positive. */
  ghost predicate KeepsPositive(
    after: seq<Node>, before: seq<Node>, metrics: seq<GpuDevice>, f: GpuDevice -> int, g: Node -> int)
  {
    && |after| == |before|
    && forall i :: 0 <= i < |before| ==>
         var x := SumInt(DevicesOn(metrics, before[i].name), f);
         g(after[i]) == if x > 0 then x else 0
  }

  ghost predicate NodeSumsNonNegative(nodes: seq<Node>, metrics: seq<GpuDevice>, f: GpuDevice -> int) {
    forall i :: 0 <= i < |nodes| ==> SumInt(DevicesOn(metrics, nodes[i].name), f) >= 0
  }

  /** Dropping the non-positive node totals never lowers the cluster sum, and conserves it
      exactly when no node's total is negative. */
  lemma {:induction false} PositiveSumConserved(
    after: seq<Node>, before: seq<Node>, metrics: seq<GpuDevice>, f: GpuDevice -> int, g: Node -> int)
    requires KeepsPositive(after, before, metrics, f, g) && DistinctNodeNames(before)
    ensures SumInt(after, g) >= HostedSum(metrics, NodeNames(before), f)
    ensures SumInt(after, g) == HostedSum(metrics, NodeNames(before), f)
            <==> NodeSumsNonNegative(before, metrics, f)
  {
    if before == [] {
      assert NodeNames(before) == {};
      HostedNone(metrics, f);
    } else {
      var n := |before| - 1;
      var last := before[n].name;
      PositiveSumConserved(after[..n], before[..n], metrics, f, g);
      LastNodeName(before);
      HostedUnion(metrics, NodeNames(before[..n]), {last}, f);
      HostedOne(metrics, last, f);
      assert forall i :: 0 <= i < n ==> before[..n][i] == before[i];
    }
  }

  lemma LastNodeName(nodes: seq<Node>)
    requires nodes != [] && DistinctNodeNames(nodes)
    ensures var n := |nodes| - 1;
            && NodeNames(nodes) == NodeNames(nodes[..n]) + {nodes[n].name}
            && nodes[n].name !in NodeNames(nodes[..n])
  {
    assert nodes == nodes[..|nodes| - 1] + [nodes[|nodes| - 1]];
  }

  lemma {:induction false} NonNegativeDevices(metrics: seq<GpuDevice>, host: string, f: GpuDevice -> int)
    requires forall i :: 0 <= i < |metrics| ==> f(metrics[i]) >= 0
    ensures SumInt(DevicesOn(metrics, host), f) >= 0
  {
    if metrics != [] {
      NonNegativeDevices(metrics[..|metrics| - 1], host, f);
      var devs := DevicesOn(metrics[..|metrics| - 1], host);
      assert (devs + [metrics[|metrics| - 1]])[..|devs|] == devs;
      assert devs + [] == devs;
    }
  }

  lemma {:induction false} SumOfZeros(nodes: seq<Node>, g: Node -> int)
    requires forall i :: 0 <= i < |nodes| ==> g(nodes[i]) == 0
    ensures SumInt(nodes, g) == 0
  {
    if nodes != [] {
      SumOfZeros(nodes[..|nodes| - 1], g);
    }
  }

  lemma MergedKeepsPositive(after: seq<Node>, before: seq<Node>, metrics: seq<GpuDevice>)
    requires Merged(after, before, metrics) && AllBlank(before)
    ensures KeepsPositive(after, before, metrics, MemoryUsedOf, S.GpuMemoryUsedOf)
    ensures KeepsPositive(after, before, metrics, MemoryTotalOf, S.GpuMemoryTotalOf)
  {
    forall i | 0 <= i < |before|
      ensures var x := SumInt(DevicesOn(metrics, before[i].name), MemoryUsedOf);
              S.GpuMemoryUsedOf(after[i]) == if x > 0 then x else 0
      ensures var x := SumInt(DevicesOn(metrics, before[i].name), MemoryTotalOf);
              S.GpuMemoryTotalOf(after[i]) == if x > 0 then x else 0
    {
      assert Blank(before[i]);
    }
  }

  /** After merge and backfill (which appends blank nodes), the summed node memory is the
      memory of the devices hosted on the nodes present before the backfill, exactly when
      no such node's devices sum to a negative amount. */
  lemma {:induction false} MemoryConservedIff(after: seq<Node>, before: seq<Node>, extra: seq<Node>, metrics: seq<GpuDevice>)
    requires Merged(after, before, metrics) && AllBlank(before) && AllBlank(extra)
    requires DistinctNodeNames(before)
    ensures SumInt(after + extra, S.GpuMemoryUsedOf) == HostedSum(metrics, NodeNames(before), MemoryUsedOf)
            <==> NodeSumsNonNegative(before, metrics, MemoryUsedOf)
    ensures SumInt(after + extra, S.GpuMemoryTotalOf) == HostedSum(metrics, NodeNames(before), MemoryTotalOf)
            <==> NodeSumsNonNegative(before, metrics, MemoryTotalOf)
  {
    MergedKeepsPositive(after, before, metrics);
    PositiveSumConserved(after, before, metrics, MemoryUsedOf, S.GpuMemoryUsedOf);
    PositiveSumConserved(after, before, metrics, MemoryTotalOf, S.GpuMemoryTotalOf);
    forall i | 0 <= i < |extra|
      ensures S.GpuMemoryUsedOf(extra[i]) == 0 && S.GpuMemoryTotalOf(extra[i]) == 0
    {
      assert Blank(extra[i]);
    }
    SumOfZeros(extra, S.GpuMemoryUsedOf);
    SumOfZeros(extra, S.GpuMemoryTotalOf);
    SumIntConcat(after, extra, S.GpuMemoryUsedOf);
    SumIntConcat(after, extra, S.GpuMemoryTotalOf);
  }

  // ---- Means ----

  /** `val` is defined where `has` is one, and zero elsewhere. */
  ghost predicate ValueWhere<T(!new)>(xs: seq<T>, val: T -> real, has: T -> int) {
    forall x :: x in xs ==> has(x) == 1 || (has(x) == 0 && val(x) == 0.0)
  }

  ghost predicate Within<T(!new)>(xs: seq<T>, val: T -> real, has: T -> int, lo: real, hi: real) {
    forall x :: x in xs && has(x) == 1 ==> lo <= val(x) <= hi
  }

  /** A sum of `n` values between `lo` and `hi` lies between `n` times each. */
  predicate Bounded(lo: real, hi: real, n: int, sum: real) {
    lo * (n as real) <= sum <= hi * (n as real)
  }

  lemma BoundedStep(lo: real, hi: real, n: int, sum: real, v: real)
    requires Bounded(lo, hi, n, sum) && lo <= v <= hi
    ensures Bounded(lo, hi, n + 1, sum + v)
  {
    assert (n + 1) as real == n as real + 1.0;
    assert lo * (n as real + 1.0) == lo * (n as real) + lo;
    assert hi * (n as real + 1.0) == hi * (n as real) + hi;
  }

  lemma {:induction false} SumWithin<T(!new)>(xs: seq<T>, val: T -> real, has: T -> int, lo: real, hi: real)
    requires ValueWhere(xs, val, has) && Within(xs, val, has, lo, hi)
    ensures Bounded(lo, hi, SumInt(xs, has), SumReal(xs, val))
  {
    if xs != [] {
      var last, p := xs[|xs| - 1], xs[..|xs| - 1];
      assert last in xs && forall x :: x in p ==> x in xs;
      SumWithin(p, val, has, lo, hi);
      var n, sum := SumInt(p, has), SumReal(p, val);
      if has(last) == 1 {
        BoundedStep(lo, hi, n, sum, val(last));
      }
      assert SumInt(xs, has) == n + has(last) && SumReal(xs, val) == sum + val(last);
    }
  }

  lemma {:induction false} SomeValue<T(!new)>(xs: seq<T>, val: T -> real, has: T -> int)
    requires ValueWhere(xs, val, has)
    ensures SumInt(xs, has) >= 0
    ensures SumInt(xs, has) > 0 <==> exists x :: x in xs && has(x) == 1
  {
    if xs != [] {
      var last, p := xs[|xs| - 1], xs[..|xs| - 1];
      assert xs == p + [last];
      SomeValue(p, val, has);
    }
  }

  lemma QuotientWithin(sum: real, count: int, lo: real, hi: real)
    requires count > 0
    requires lo * (count as real) <= sum <= hi * (count as real)
    ensures lo <= sum / (count as real) <= hi
  {
    var c := count as real;
    var q := sum / c;
    assert q * c == sum;
    if q < lo {
      ProductLess(q, lo, c);
      assert false;
    }
    if q > hi {
      ProductLess(hi, q, c);
      assert false;
    }
  }

  lemma ProductLess(a: real, b: real, c: real)
    requires a < b && c > 0.0
    ensures a * c < b * c
  {
    assert (b - a) * c > 0.0;
  }

  /** The mean of the values present lies between any bounds they share. */
  lemma MeanWithin<T(!new)>(xs: seq<T>, val: T -> real, has: T -> int, lo: real, hi: real)
    requires ValueWhere(xs, val, has) && Within(xs, val, has, lo, hi)
    ensures SumInt(xs, has) > 0 ==>
              lo <= SumReal(xs, val) / (SumInt(xs, has) as real) <= hi
  {
    SumWithin(xs, val, has, lo, hi);
    if SumInt(xs, has) > 0 {
      QuotientWithin(SumReal(xs, val), SumInt(xs, has), lo, hi);
    }
  }

  /** A device value that the cluster figure is built from. */
  ghost predicate Contributes(nodes: seq<Node>, metrics: seq<GpuDevice>, has: GpuDevice -> int, d: GpuDevice) {
    d in metrics && Hosted(d, NodeNames(nodes)) && has(d) == 1
  }

  lemma {:induction false} DevicesOnMember(metrics: seq<GpuDevice>, host: string, d: GpuDevice)
    ensures d in DevicesOn(metrics, host) <==> d in metrics && d.labels.hostname == host && host != ""
  {
    if metrics != [] {
      DevicesOnMember(metrics[..|metrics| - 1], host, d);
      assert metrics == metrics[..|metrics| - 1] + [metrics[|metrics| - 1]];
    }
  }

  /** The node field `nodeVal` is the mean of the device values on that node. */
  ghost predicate NodeMeans(
    after: seq<Node>, before: seq<Node>, metrics: seq<GpuDevice>,
    val: GpuDevice -> real, has: GpuDevice -> int, nodeVal: Node -> real, nodeHas: Node -> int)
  {
    && |after| == |before|
    && forall i :: 0 <= i < |before| ==>
         var devs := DevicesOn(metrics, before[i].name);
         var count := SumInt(devs, has);
         && nodeHas(after[i]) == (if count > 0 then 1 else 0)
         && nodeVal(after[i]) == (if count > 0 then SumReal(devs, val) / (count as real) else 0.0)
  }

  /** Every node mean, hence the mean of the node means, is within the bounds shared by the
      contributing devices; there is a figure exactly when a device contributes. */
  lemma {:induction false} MeanOfMeansWithin(
    after: seq<Node>, before: seq<Node>, extra: seq<Node>, metrics: seq<GpuDevice>,
    val: GpuDevice -> real, has: GpuDevice -> int, nodeVal: Node -> real, nodeHas: Node -> int,
    lo: real, hi: real)
    requires NodeMeans(after, before, metrics, val, has, nodeVal, nodeHas)
    requires ValueWhere(metrics, val, has)
    requires forall i :: 0 <= i < |extra| ==> nodeHas(extra[i]) == 0 && nodeVal(extra[i]) == 0.0
    requires forall d :: Contributes(before, metrics, has, d) ==> lo <= val(d) <= hi
    ensures SumInt(after + extra, nodeHas) > 0 <==> exists d :: Contributes(before, metrics, has, d)
    ensures SumInt(after + extra, nodeHas) > 0 ==>
              lo <= SumReal(after + extra, nodeVal) / (SumInt(after + extra, nodeHas) as real) <= hi
  {
    var nodes := after + extra;
    forall i | 0 <= i < |before|
      ensures nodeHas(after[i]) == 1 || (nodeHas(after[i]) == 0 && nodeVal(after[i]) == 0.0)
      ensures nodeHas(after[i]) == 1 ==> lo <= nodeVal(after[i]) <= hi
      ensures nodeHas(after[i]) == 1 <==> exists d :: d in DevicesOn(metrics, before[i].name) && has(d) == 1
    {
      NodeMeanWithin(before, metrics, i, val, has, lo, hi);
    }
    assert forall x :: x in nodes ==> nodeHas(x) == 1 || (nodeHas(x) == 0 && nodeVal(x) == 0.0);
    SumWithin(nodes, nodeVal, nodeHas, lo, hi);
    SomeValue(nodes, nodeVal, nodeHas);
    MeanWithin(nodes, nodeVal, nodeHas, lo, hi);
    if exists d :: Contributes(before, metrics, has, d) {
      var d :| Contributes(before, metrics, has, d);
      var i :| 0 <= i < |before| && before[i].name == d.labels.hostname;
      DevicesOnMember(metrics, before[i].name, d);
      assert nodeHas(after[i]) == 1;
      assert after[i] in nodes;
    }
    if exists x :: x in nodes && nodeHas(x) == 1 {
      var k :| 0 <= k < |nodes| && nodeHas(nodes[k]) == 1;
      assert k < |after|;
      var d :| d in DevicesOn(metrics, before[k].name) && has(d) == 1;
      DevicesOnMember(metrics, before[k].name, d);
      assert before[k] in before;
      assert Contributes(before, metrics, has, d);
    }
  }

  lemma {:induction false} NodeMeanWithin(
    before: seq<Node>, metrics: seq<GpuDevice>, i: nat,
    val: GpuDevice -> real, has: GpuDevice -> int, lo: real, hi: real)
    requires i < |before| && ValueWhere(metrics, val, has)
    requires forall d :: Contributes(before, metrics, has, d) ==> lo <= val(d) <= hi
    ensures var devs := DevicesOn(metrics, before[i].name);
            && (SumInt(devs, has) > 0 ==> lo <= SumReal(devs, val) / (SumInt(devs, has) as real) <= hi)
            && (SumInt(devs, has) > 0 <==> exists d :: d in devs && has(d) == 1)
  {
    var devs := DevicesOn(metrics, before[i].name);
    forall d | d in devs
      ensures has(d) == 1 || (has(d) == 0 && val(d) == 0.0)
      ensures has(d) == 1 ==> lo <= val(d) <= hi
    {
      DevicesOnMember(metrics, before[i].name, d);
      assert before[i] in before;
      if has(d) == 1 {
        assert Contributes(before, metrics, has, d);
      }
    }
    SumWithin(devs, val, has, lo, hi);
    SomeValue(devs, val, has);
    MeanWithin(devs, val, has, lo, hi);
  }

  lemma MergedNodeMeans(after: seq<Node>, before: seq<Node>, metrics: seq<GpuDevice>)
    requires Merged(after, before, metrics) && AllBlank(before)
    ensures NodeMeans(after, before, metrics, GpuMerge.UtilizationOf, GpuMerge.HasUtilization, S.UtilizationOf, S.HasUtilization)
    ensures NodeMeans(after, before, metrics, GpuMerge.TensorOf, GpuMerge.HasTensor, S.TensorOf, S.HasTensor)
    ensures NodeMeans(after, before, metrics, GpuMerge.MemUtilOf, GpuMerge.HasMemUtil, S.MemUtilOf, S.HasMemUtil)
  {
    forall i | 0 <= i < |before|
      ensures var t := TotalsOf(DevicesOn(metrics, before[i].name)); var g := after[i].gpu;
              && g.utilization == (if t.utilCount > 0 then Some(t.utilSum / (t.utilCount as real)) else None)
              && g.tensorActive == (if t.tensorCount > 0 then Some(t.tensorSum / (t.tensorCount as real)) else None)
              && g.memoryUtil == (if t.memUtilCount > 0 then Some(t.memUtilSum / (t.memUtilCount as real)) else None)
    {
      assert Blank(before[i]);
    }
  }

  /** The figure is present exactly when a device contributes, and then within its bounds. */
  ghost predicate FigureWithin(
    figure: Option<real>, nodes: seq<Node>, metrics: seq<GpuDevice>,
    val: GpuDevice -> real, has: GpuDevice -> int, lo: real, hi: real)
  {
    && (figure.Some? <==> exists d :: Contributes(nodes, metrics, has, d))
    && (figure.Some? && (forall d :: Contributes(nodes, metrics, has, d) ==> lo <= val(d) <= hi) ==>
          lo <= figure.value <= hi)
  }

  /** The three cluster means, for any bounds `lo` and `hi`: in particular the least and
      the greatest contributing value, or 0 and 100. */
  lemma {:induction false} ClusterMeansWithin(
    after: seq<Node>, before: seq<Node>, extra: seq<Node>, metrics: seq<GpuDevice>,
    pods: seq<Pod>, d: int, s: int, m: int, j: int, c: int, lo: real, hi: real)
    requires Merged(after, before, metrics) && AllBlank(before) && AllBlank(extra)
    ensures var sum := S.SummaryOf(after + extra, pods, d, s, m, j, c);
            && FigureWithin(sum.gpuUsage, before, metrics, GpuMerge.UtilizationOf, GpuMerge.HasUtilization, lo, hi)
            && FigureWithin(sum.gpuTensorActive, before, metrics, GpuMerge.TensorOf, GpuMerge.HasTensor, lo, hi)
            && FigureWithin(sum.gpuMemoryUtil, before, metrics, GpuMerge.MemUtilOf, GpuMerge.HasMemUtil, lo, hi)
  {
    MergedNodeMeans(after, before, metrics);
    forall i | 0 <= i < |extra|
      ensures S.HasUtilization(extra[i]) == 0 && S.UtilizationOf(extra[i]) == 0.0
      ensures S.HasTensor(extra[i]) == 0 && S.TensorOf(extra[i]) == 0.0
      ensures S.HasMemUtil(extra[i]) == 0 && S.MemUtilOf(extra[i]) == 0.0
    {
      assert Blank(extra[i]);
    }
    FigureFromMeans(after, before, extra, metrics,
      GpuMerge.UtilizationOf, GpuMerge.HasUtilization, S.UtilizationOf, S.HasUtilization, lo, hi);
    FigureFromMeans(after, before, extra, metrics,
      GpuMerge.TensorOf, GpuMerge.HasTensor, S.TensorOf, S.HasTensor, lo, hi);
    FigureFromMeans(after, before, extra, metrics,
      GpuMerge.MemUtilOf, GpuMerge.HasMemUtil, S.MemUtilOf, S.HasMemUtil, lo, hi);
  }

  lemma {:induction false} FigureFromMeans(
    after: seq<Node>, before: seq<Node>, extra: seq<Node>, metrics: seq<GpuDevice>,
    val: GpuDevice -> real, has: GpuDevice -> int, nodeVal: Node -> real, nodeHas: Node -> int,
    lo: real, hi: real)
    requires NodeMeans(after, before, metrics, val, has, nodeVal, nodeHas)
    requires ValueWhere(metrics, val, has)
    requires forall i :: 0 <= i < |extra| ==> nodeHas(extra[i]) == 0 && nodeVal(extra[i]) == 0.0
    ensures FigureWithin(S.MeanIfAny(SumReal(after + extra, nodeVal), SumInt(after + extra, nodeHas)),
                         before, metrics, val, has, lo, hi)
  {
    var least, greatest := ValueBounds(metrics, val);
    MeanOfMeansWithin(after, before, extra, metrics, val, has, nodeVal, nodeHas, least, greatest);
    if forall d :: Contributes(before, metrics, has, d) ==> lo <= val(d) <= hi {
      MeanOfMeansWithin(after, before, extra, metrics, val, has, nodeVal, nodeHas, lo, hi);
    }
  }

  lemma {:induction false} ValueBounds(metrics: seq<GpuDevice>, val: GpuDevice -> real) returns (lo: real, hi: real)
    ensures forall d :: d in metrics ==> lo <= val(d) <= hi
  {
    if metrics == [] {
      lo, hi := 0.0, 0.0;
    } else {
      var last := metrics[|metrics| - 1];
      lo, hi := ValueBounds(metrics[..|metrics| - 1], val);
      assert metrics == metrics[..|metrics| - 1] + [last];
      lo := if val(last) < lo then val(last) else lo;
      hi := if val(last) > hi then val(last) else hi;
    }
  }

  /** GPU memory through merge, backfill and summary: with distinct node names, blank GPU
      fields on entry and non-negative device memory, a reported total is the memory of the
      devices hosted on a node present before the backfill; it is reported exactly when
      such a device has a utilization. */
  lemma {:induction false} GpuMemoryConservation(
    after: seq<Node>, before: seq<Node>, extra: seq<Node>, metrics: seq<GpuDevice>,
    pods: seq<Pod>, d: int, s: int, m: int, j: int, c: int)
    requires Merged(after, before, metrics) && AllBlank(before) && AllBlank(extra)
    requires DistinctNodeNames(before)
    requires forall i :: 0 <= i < |metrics| ==> MemoryUsedOf(metrics[i]) >= 0 && MemoryTotalOf(metrics[i]) >= 0
    ensures var sum := S.SummaryOf(after + extra, pods, d, s, m, j, c);
            && (sum.gpuMemoryUsed.Some? <==> exists x :: Contributes(before, metrics, GpuMerge.HasUtilization, x))
            && (sum.gpuMemoryUsed.Some? ==>
                  && sum.gpuMemoryUsed == Some(HostedSum(metrics, NodeNames(before), MemoryUsedOf))
                  && sum.gpuMemoryTotal == Some(HostedSum(metrics, NodeNames(before), MemoryTotalOf)))
  {
    forall i | 0 <= i < |before|
      ensures SumInt(DevicesOn(metrics, before[i].name), MemoryUsedOf) >= 0
      ensures SumInt(DevicesOn(metrics, before[i].name), MemoryTotalOf) >= 0
    {
      NonNegativeDevices(metrics, before[i].name, MemoryUsedOf);
      NonNegativeDevices(metrics, before[i].name, MemoryTotalOf);
    }
    MemoryConservedIff(after, before, extra, metrics);
    ClusterMeansWithin(after, before, extra, metrics, pods, d, s, m, j, c, 0.0, 0.0);
  }

  /** One node with one device whose used memory was read as -1 MiB: the summary reports 0
      bytes, and the device's memory is not lost for lack of a host. */
  lemma NegativeMemoryLost(
    n: Node, d: GpuDevice, pods: seq<Pod>, deployments: int, s: int, m: int, j: int, c: int)
    requires Blank(n) && n.name != "" && d.labels.hostname == n.name
    requires d.memoryUsed == Some(-1048576) && d.utilization.Some?
    ensures Merged([NodeWithGpu(n, [d])], [n], [d]) && DistinctNodeNames([n])
    ensures S.SummaryOf([NodeWithGpu(n, [d])], pods, deployments, s, m, j, c).gpuMemoryUsed == Some(0)
    ensures HostedSum([d], NodeNames([n]), MemoryUsedOf) == -1048576
  {
    var after := NodeWithGpu(n, [d]);
    assert [d][..0] == [] && [n][..0] == [] && [after][..0] == [];
    assert DevicesOn([d], n.name) == [d];
    SumOfOne(d, MemoryUsedOf);
    SumOfOne(d, GpuMerge.HasUtilization);
    assert n in [n] && n.name in NodeNames([n]);
    assert after.gpu.memoryUsed == None && after.gpu.utilization.Some?;
    SumOfOne(after, S.GpuMemoryUsedOf);
    SumOfOne(after, S.HasUtilization);
  }
}
