/** The snapshot build end to end (internal/snapshot/builder.go, Build): usage merge, GPU
    merge, backfill, ownership, aggregation, summary, in that order. */
module Build {
  import opened Prelude
  import opened Model
  import opened DeviceFold
  import opened Store
  import Index
  import UsageMerge
  import GpuMerge
  import Backfill
  import Ownership
  import Aggregation
  import opened Conservation
  import GpuConservation
  import SummaryTotals

  /** The lists the concurrent store reads of step 1 returned. */
  datatype Reads = Reads(
    nodes: seq<Node>, pods: seq<Pod>, deployments: seq<Workload>, statefulSets: seq<Workload>,
    daemonSets: seq<Workload>, jobs: seq<Job>, cronJobs: seq<CronJob>, replicaSets: seq<ReplicaSet>)

  /** The pod after the metrics joins; without a GPU collector the second one is skipped. */
  function JoinedPod(p: Pod, usage: seq<PodMetrics>, gpu: Option<seq<GpuDevice>>): Pod {
    var q := UsageMerge.PodWithUsage(p, usage);
    match gpu case Some(m) => GpuMerge.PodWithGpu(q, m) case None => q
  }

  function JoinedNode(n: Node, usage: seq<NodeMetrics>, gpu: Option<seq<GpuDevice>>): Node {
    var m := UsageMerge.NodeWithUsage(n, usage);
    match gpu case Some(d) => GpuMerge.NodeWithGpu(m, d) case None => m
  }

  function BuiltPod(t: Ownership.Tables, p: Pod, usage: seq<PodMetrics>, gpu: Option<seq<GpuDevice>>): Pod {
    Ownership.Resolved(t, JoinedPod(p, usage, gpu))
  }

  /** Every pod went through the joins. */
  ghost predicate PodsJoined(after: seq<Pod>, before: seq<Pod>, usage: seq<PodMetrics>, gpu: Option<seq<GpuDevice>>) {
    |after| == |before| && forall i :: 0 <= i < |before| ==> after[i] == JoinedPod(before[i], usage, gpu)
  }

  ghost predicate PodsResolved(t: Ownership.Tables, after: seq<Pod>, before: seq<Pod>) {
    |after| == |before| && forall i :: 0 <= i < |before| ==> after[i] == Ownership.Resolved(t, before[i])
  }

  /** Every pod went through the joins and had its owner resolved. */
  ghost predicate PodsBuilt(
    t: Ownership.Tables, after: seq<Pod>, before: seq<Pod>, usage: seq<PodMetrics>, gpu: Option<seq<GpuDevice>>)
  {
    |after| == |before| && forall i :: 0 <= i < |before| ==> after[i] == BuiltPod(t, before[i], usage, gpu)
  }

  lemma PodsCompose(
    t: Ownership.Tables, after: seq<Pod>, joined: seq<Pod>, before: seq<Pod>,
    usage: seq<PodMetrics>, gpu: Option<seq<GpuDevice>>)
    requires PodsJoined(joined, before, usage, gpu) && PodsResolved(t, after, joined)
    ensures PodsBuilt(t, after, before, usage, gpu)
  {
  }

  ghost predicate SameRequests(a: seq<Container>, b: seq<Container>) {
    && |a| == |b|
    && forall i :: 0 <= i < |a| ==> a[i].cpuRequest == b[i].cpuRequest && a[i].memoryRequest == b[i].memoryRequest
  }

  lemma {:induction false} SameRequestsSum(a: seq<Container>, b: seq<Container>)
    requires SameRequests(a, b)
    ensures SumReal(a, Aggregation.CpuRequestOf) == SumReal(b, Aggregation.CpuRequestOf)
    ensures SumInt(a, Aggregation.MemoryRequestOf) == SumInt(b, Aggregation.MemoryRequestOf)
  {
    if a != [] {
      SameRequestsSum(a[..|a| - 1], b[..|b| - 1]);
    }
  }

  lemma JoinKeepsRequests(p: Pod, usage: seq<PodMetrics>, gpu: Option<seq<GpuDevice>>)
    ensures SameRequests(JoinedPod(p, usage, gpu).containers, p.containers)
  {
    var q := UsageMerge.PodWithUsage(p, usage);
    assert SameRequests(q.containers, p.containers);
    assert SameRequests(JoinedPod(p, usage, gpu).containers, q.containers);
  }

  /** Joins and ownership never change what a pod requests. */
  lemma BuiltPodRequests(t: Ownership.Tables, p: Pod, usage: seq<PodMetrics>, gpu: Option<seq<GpuDevice>>)
    ensures PodReq(BuiltPod(t, p, usage, gpu)) == PodReq(p)
  {
    JoinKeepsRequests(p, usage, gpu);
    SameRequestsSum(JoinedPod(p, usage, gpu).containers, p.containers);
  }

  lemma {:induction false} SamePodRequests(a: seq<Pod>, b: seq<Pod>)
    requires |a| == |b| && forall i :: 0 <= i < |a| ==> PodReq(a[i]) == PodReq(b[i])
    ensures Requested(a) == Requested(b)
  {
    if a != [] {
      var n := |a| - 1;
      SamePodRequests(a[..n], b[..n]);
      assert PodReq(a[n]) == PodReq(b[n]);
    }
  }

  method MergeMetrics(snap: ClusterSnapshot, nodeUsage: seq<NodeMetrics>, podUsage: seq<PodMetrics>,
    gpu: Option<seq<GpuDevice>>)
    modifies snap`nodes, snap`pods
    ensures |snap.nodes| == |old(snap.nodes)| && |snap.pods| == |old(snap.pods)|
    ensures forall i :: 0 <= i < |snap.nodes| ==> snap.nodes[i] == JoinedNode(old(snap.nodes)[i], nodeUsage, gpu)
    ensures forall i :: 0 <= i < |snap.pods| ==> snap.pods[i] == JoinedPod(old(snap.pods)[i], podUsage, gpu)
  {
    UsageMerge.MergeNodeMetrics(snap, nodeUsage);
    UsageMerge.MergePodMetrics(snap, podUsage);
    if gpu.Some? {
      GpuMerge.MergeGpuNodeMetrics(snap, gpu.value);
      GpuMerge.MergeGpuContainerMetrics(snap, gpu.value);
    }
  }

  /** The nodes of the snapshot before the backfill. */
  ghost function JoinedNodes(nodes: seq<Node>, usage: seq<NodeMetrics>, gpu: Option<seq<GpuDevice>>): seq<Node> {
    seq(|nodes|, i requires 0 <= i < |nodes| => JoinedNode(nodes[i], usage, gpu))
  }

  lemma JoinedPodKeepsNode(p: Pod, usage: seq<PodMetrics>, gpu: Option<seq<GpuDevice>>)
    ensures JoinedPod(p, usage, gpu).nodeName == p.nodeName
  {
  }

  /** Steps 3 to 3c: the joins, then the backfill. */
  method JoinAndBackfill(snap: ClusterSnapshot, store: TypedStore<Node>, nodeUsage: seq<NodeMetrics>,
    podUsage: seq<PodMetrics>, gpu: Option<seq<GpuDevice>>) returns (orphans: nat)
    modifies snap`nodes, snap`pods
    ensures PodsJoined(snap.pods, old(snap.pods), podUsage, gpu)
    ensures Backfill.Backfilled(snap.nodes, JoinedNodes(old(snap.nodes), nodeUsage, gpu), old(snap.pods),
                                store.items, orphans)
  {
    MergeMetrics(snap, nodeUsage, podUsage, gpu);
    assert snap.nodes == JoinedNodes(old(snap.nodes), nodeUsage, gpu);
    forall i | 0 <= i < |snap.pods|
      ensures snap.pods[i].nodeName == old(snap.pods)[i].nodeName
    {
      JoinedPodKeepsNode(old(snap.pods)[i], podUsage, gpu);
    }
    SameNodeNames(snap.pods, old(snap.pods), NodeNames(snap.nodes));
    orphans := Backfill.BackfillReferencedNodes(snap, store);
  }

  /** The workloads carry the totals of the given pods. */
  ghost predicate Totalled(
    pods: seq<Pod>, d': seq<Workload>, d: seq<Workload>, s': seq<Workload>, s: seq<Workload>,
    m': seq<Workload>, m: seq<Workload>, jobs': seq<Job>, jobs: seq<Job>)
  {
    && Aggregation.Aggregated(d', d, Aggregation.DEPLOYMENT, pods)
    && Aggregation.Aggregated(s', s, Aggregation.STATEFUL_SET, pods)
    && Aggregation.Aggregated(m', m, Aggregation.DAEMON_SET, pods)
    && Aggregation.AggregatedJobs(jobs', jobs, pods)
  }

  ghost predicate Summarised(
    summary: Summary, nodes: seq<Node>, pods: seq<Pod>, d: seq<Workload>, s: seq<Workload>, m: seq<Workload>,
    jobs: seq<Job>, cronJobs: seq<CronJob>)
  {
    summary == SummaryTotals.SummaryOf(nodes, pods, |d|, |s|, |m|, |jobs|, |cronJobs|)
  }

  /** Steps 4 to 6: ownership first, so that the totals group by top-level owner. */
  method ResolveAndAggregate(
    snap: ClusterSnapshot, r: Reads, ghost podUsage: seq<PodMetrics>, ghost gpu: Option<seq<GpuDevice>>)
    returns (summary: Summary, ghost t: Ownership.Tables)
    requires PodsJoined(snap.pods, r.pods, podUsage, gpu)
    requires snap.deployments == r.deployments && snap.statefulSets == r.statefulSets
    requires snap.daemonSets == r.daemonSets && snap.jobs == r.jobs && snap.cronJobs == r.cronJobs
    modifies snap`pods, snap`deployments, snap`statefulSets, snap`daemonSets, snap`jobs
    ensures Ownership.TablesOf(t, r.replicaSets, r.jobs, r.cronJobs)
    ensures PodsBuilt(t, snap.pods, r.pods, podUsage, gpu)
    ensures Totalled(snap.pods, snap.deployments, r.deployments, snap.statefulSets, r.statefulSets,
                     snap.daemonSets, r.daemonSets, snap.jobs, r.jobs)
    ensures Summarised(summary, snap.nodes, snap.pods, snap.deployments, snap.statefulSets, snap.daemonSets,
                       snap.jobs, snap.cronJobs)
  {
    ghost var joined := snap.pods;
    t := Ownership.Enrich(snap, r.replicaSets);
    PodsCompose(t, snap.pods, joined, r.pods, podUsage, gpu);
    Aggregation.Enrich(snap);
    summary := SummaryTotals.ComputeSummary(snap);
  }

  /** builder.go, Build, steps 1 to 6. `store` is the node store as the backfill sees it. */
  method BuildSnapshot(
    r: Reads, store: TypedStore<Node>, nodeUsage: seq<NodeMetrics>, podUsage: seq<PodMetrics>,
    gpu: Option<seq<GpuDevice>>)
    returns (snap: ClusterSnapshot, summary: Summary, orphans: nat, ghost t: Ownership.Tables)
    ensures fresh(snap)
    // pods keep their place; each is joined and its owner resolved
    ensures Ownership.TablesOf(t, r.replicaSets, r.jobs, r.cronJobs)
    ensures PodsBuilt(t, snap.pods, r.pods, podUsage, gpu)
    // nodes are joined, then backfilled
    ensures Backfill.Backfilled(snap.nodes, JoinedNodes(r.nodes, nodeUsage, gpu), r.pods, store.items, orphans)
    ensures snap.cronJobs == r.cronJobs
    // totals come from the resolved pods
    ensures Totalled(snap.pods, snap.deployments, r.deployments, snap.statefulSets, r.statefulSets,
                     snap.daemonSets, r.daemonSets, snap.jobs, r.jobs)
    ensures Summarised(summary, snap.nodes, snap.pods, snap.deployments, snap.statefulSets, snap.daemonSets,
                       snap.jobs, snap.cronJobs)
  {
    snap := new ClusterSnapshot(r.nodes, r.pods, r.deployments, r.statefulSets, r.daemonSets, r.jobs, r.cronJobs);
    orphans := JoinAndBackfill(snap, store, nodeUsage, podUsage, gpu);
    ghost var nodes, items := snap.nodes, store.items;
    summary, t := ResolveAndAggregate(snap, r, podUsage, gpu);
    assert snap.nodes == nodes && store.items == items;
  }

  lemma SameNodeNames(a: seq<Pod>, b: seq<Pod>, names: set<string>)
    requires |a| == |b| && forall i :: 0 <= i < |a| ==> a[i].nodeName == b[i].nodeName
    ensures Backfill.Missing(a, names) == Backfill.Missing(b, names)
  {
    assert forall i :: 0 <= i < |a| ==> a[i] in a && b[i] in b;
  }

  /** End to end, what the built snapshot's workloads report plus the leftover is what the
      pods that were read request. */
  lemma {:induction false} BuiltRequestsConserved(
    r: Reads, t: Ownership.Tables, podUsage: seq<PodMetrics>, gpu: Option<seq<GpuDevice>>, pods': seq<Pod>,
    d': seq<Workload>, s': seq<Workload>, m': seq<Workload>, jobs': seq<Job>)
    requires PodsBuilt(t, pods', r.pods, podUsage, gpu)
    requires Totalled(pods', d', r.deployments, s', r.statefulSets, m', r.daemonSets, jobs', r.jobs)
    requires DistinctWorkloads(r.deployments) && DistinctWorkloads(r.statefulSets)
    requires DistinctWorkloads(r.daemonSets) && DistinctJobs(r.jobs)
    ensures Plus(Plus(Plus(Reported(d'), Reported(s')), Plus(Reported(m'), ReportedByJobs(jobs', pods'))),
                 Leftover(pods', AllKeys(r.deployments, r.statefulSets, r.daemonSets, r.jobs)))
         == Requested(r.pods)
  {
    BuiltRequested(t, r.pods, podUsage, gpu, pods');
    WorkloadConservation(pods', r.deployments, r.statefulSets, r.daemonSets, r.jobs, d', s', m', jobs');
  }

  /** End to end, the summary's requested totals are what the pods that were read request,
      and with non-negative requests the long-running kinds together stay below them. */
  lemma {:induction false} BuiltSummaryBounds(
    r: Reads, t: Ownership.Tables, podUsage: seq<PodMetrics>, gpu: Option<seq<GpuDevice>>,
    nodes': seq<Node>, pods': seq<Pod>, d': seq<Workload>, s': seq<Workload>, m': seq<Workload>,
    jobs': seq<Job>, c: int)
    requires PodsBuilt(t, pods', r.pods, podUsage, gpu)
    requires Totalled(pods', d', r.deployments, s', r.statefulSets, m', r.daemonSets, jobs', r.jobs)
    requires DistinctWorkloads(r.deployments) && DistinctWorkloads(r.statefulSets) && DistinctWorkloads(r.daemonSets)
    ensures var sum := SummaryTotals.SummaryOf(nodes', pods', |d'|, |s'|, |m'|, |jobs'|, c);
            && Req(sum.cpuRequested, sum.memoryRequested) == Requested(r.pods)
            && (NonNegative(r.pods) ==>
                  AtMost(Plus(Plus(Reported(d'), Reported(s')), Reported(m')), Req(sum.cpuRequested, sum.memoryRequested)))
  {
    BuiltRequested(t, r.pods, podUsage, gpu, pods');
    SummaryStatesRequests(nodes', pods', |d'|, |s'|, |m'|, |jobs'|, c);
    if NonNegative(r.pods) {
      BuiltNonNegative(t, r.pods, podUsage, gpu, pods');
      LongRunningAtMostRequested(pods', r.deployments, r.statefulSets, r.daemonSets, d', s', m');
    }
  }

  lemma BuiltRequested(
    t: Ownership.Tables, pods: seq<Pod>, podUsage: seq<PodMetrics>, gpu: Option<seq<GpuDevice>>, pods': seq<Pod>)
    requires PodsBuilt(t, pods', pods, podUsage, gpu)
    ensures Requested(pods') == Requested(pods)
  {
    forall i | 0 <= i < |pods'|
      ensures PodReq(pods'[i]) == PodReq(pods[i])
    {
      BuiltPodRequests(t, pods[i], podUsage, gpu);
    }
    SamePodRequests(pods', pods);
  }

  lemma BuiltNonNegative(
    t: Ownership.Tables, pods: seq<Pod>, podUsage: seq<PodMetrics>, gpu: Option<seq<GpuDevice>>, pods': seq<Pod>)
    requires PodsBuilt(t, pods', pods, podUsage, gpu) && NonNegative(pods)
    ensures NonNegative(pods')
  {
    forall i, j | 0 <= i < |pods'| && 0 <= j < |pods'[i].containers|
      ensures pods'[i].containers[j].cpuRequest >= 0.0 && pods'[i].containers[j].memoryRequest >= 0
    {
      JoinKeepsRequests(pods[i], podUsage, gpu);
      assert pods[i].containers[j] in pods[i].containers;
    }
  }

  lemma SummaryStatesRequests(nodes: seq<Node>, pods: seq<Pod>, d: int, s: int, m: int, j: int, c: int)
    ensures var sum := SummaryTotals.SummaryOf(nodes, pods, d, s, m, j, c);
            Req(sum.cpuRequested, sum.memoryRequested) == Requested(pods)
  {
  }

  ghost function UsageNodes(nodes: seq<Node>, usage: seq<NodeMetrics>): seq<Node> {
    seq(|nodes|, i requires 0 <= i < |nodes| => UsageMerge.NodeWithUsage(nodes[i], usage))
  }

  /** The usage join leaves names and GPU fields alone. */
  lemma UsageNodesKeep(nodes: seq<Node>, usage: seq<NodeMetrics>)
    requires GpuConservation.AllBlank(nodes)
    ensures GpuConservation.AllBlank(UsageNodes(nodes, usage))
    ensures DistinctNodeNames(nodes) ==> DistinctNodeNames(UsageNodes(nodes, usage))
    ensures NodeNames(UsageNodes(nodes, usage)) == NodeNames(nodes)
  {
    var used := UsageNodes(nodes, usage);
    forall i | 0 <= i < |used|
      ensures used[i].name == nodes[i].name && GpuConservation.Blank(used[i])
    {
      assert GpuConservation.Blank(nodes[i]);
    }
    Backfill.SameNames(nodes, used);
  }

  /** Contributing devices depend on the nodes only through their names. */
  lemma FigureSameNames(
    figure: Option<real>, a: seq<Node>, b: seq<Node>, gpu: seq<GpuDevice>,
    val: GpuDevice -> real, has: GpuDevice -> int, lo: real, hi: real)
    requires NodeNames(a) == NodeNames(b)
    requires GpuConservation.FigureWithin(figure, a, gpu, val, has, lo, hi)
    ensures GpuConservation.FigureWithin(figure, b, gpu, val, has, lo, hi)
  {
    assert forall d :: GpuConservation.Contributes(a, gpu, has, d) <==> GpuConservation.Contributes(b, gpu, has, d);
  }

  /** The backfilled list is the joined nodes followed by nodes no GPU value was merged into. */
  lemma BackfilledParts(
    nodes': seq<Node>, r: Reads, nodeUsage: seq<NodeMetrics>, gpu: seq<GpuDevice>,
    items: map<string, Node>, orphans: nat)
    returns (extra: seq<Node>)
    requires Backfill.Backfilled(nodes', JoinedNodes(r.nodes, nodeUsage, Some(gpu)), r.pods, items, orphans)
    requires forall k :: k in items ==> GpuConservation.Blank(items[k])
    ensures nodes' == JoinedNodes(r.nodes, nodeUsage, Some(gpu)) + extra && GpuConservation.AllBlank(extra)
    ensures GpuConservation.Merged(JoinedNodes(r.nodes, nodeUsage, Some(gpu)), UsageNodes(r.nodes, nodeUsage), gpu)
  {
    var merged := JoinedNodes(r.nodes, nodeUsage, Some(gpu));
    extra := nodes'[|merged|..];
    assert nodes' == merged + extra;
    AppendedAreBlank(nodes', merged, items);
    JoinedIsMerged(r.nodes, nodeUsage, gpu);
  }

  lemma AppendedAreBlank(after: seq<Node>, before: seq<Node>, items: map<string, Node>)
    requires |before| <= |after| && forall i :: |before| <= i < |after| ==> after[i] in items.Values
    requires forall k :: k in items ==> GpuConservation.Blank(items[k])
    ensures GpuConservation.AllBlank(after[|before|..])
  {
    forall i | |before| <= i < |after|
      ensures GpuConservation.Blank(after[i])
    {
      assert after[i] in items.Values;
      var k :| k in items.Keys && items[k] == after[i];
      assert k in items;
    }
  }

  lemma JoinedIsMerged(nodes: seq<Node>, usage: seq<NodeMetrics>, gpu: seq<GpuDevice>)
    ensures GpuConservation.Merged(JoinedNodes(nodes, usage, Some(gpu)), UsageNodes(nodes, usage), gpu)
  {
  }

  /** End to end, a reported GPU memory total is the memory of the devices hosted on the
      nodes of the first read. */
  lemma {:induction false} BuiltGpuMemory(
    r: Reads, nodeUsage: seq<NodeMetrics>, gpu: seq<GpuDevice>, items: map<string, Node>,
    nodes': seq<Node>, pods': seq<Pod>, orphans: nat, d: int, s: int, m: int, j: int, c: int)
    requires Backfill.Backfilled(nodes', JoinedNodes(r.nodes, nodeUsage, Some(gpu)), r.pods, items, orphans)
    requires GpuConservation.AllBlank(r.nodes) && forall k :: k in items ==> GpuConservation.Blank(items[k])
    requires DistinctNodeNames(r.nodes)
    requires forall i :: 0 <= i < |gpu| ==>
               GpuMerge.MemoryUsedOf(gpu[i]) >= 0 && GpuMerge.MemoryTotalOf(gpu[i]) >= 0
    ensures var sum := SummaryTotals.SummaryOf(nodes', pods', d, s, m, j, c);
            && (sum.gpuMemoryUsed.Some? <==>
                  exists x :: GpuConservation.Contributes(r.nodes, gpu, GpuMerge.HasUtilization, x))
            && (sum.gpuMemoryUsed.Some? ==>
                  && sum.gpuMemoryUsed == Some(GpuConservation.HostedSum(gpu, NodeNames(r.nodes), GpuMerge.MemoryUsedOf))
                  && sum.gpuMemoryTotal == Some(GpuConservation.HostedSum(gpu, NodeNames(r.nodes), GpuMerge.MemoryTotalOf)))
  {
    var extra := BackfilledParts(nodes', r, nodeUsage, gpu, items, orphans);
    UsageNodesKeep(r.nodes, nodeUsage);
    var used := UsageNodes(r.nodes, nodeUsage);
    GpuConservation.GpuMemoryConservation(
      JoinedNodes(r.nodes, nodeUsage, Some(gpu)), used, extra, gpu, pods', d, s, m, j, c);
    assert forall x :: GpuConservation.Contributes(used, gpu, GpuMerge.HasUtilization, x)
                  <==> GpuConservation.Contributes(r.nodes, gpu, GpuMerge.HasUtilization, x);
  }

  /** End to end, each mean figure is present exactly when a device on a node of the first
      read contributes, and stays within any bounds the contributing devices share. */
  lemma {:induction false} BuiltGpuMeans(
    r: Reads, nodeUsage: seq<NodeMetrics>, gpu: seq<GpuDevice>, items: map<string, Node>,
    nodes': seq<Node>, pods': seq<Pod>, orphans: nat, d: int, s: int, m: int, j: int, c: int, lo: real, hi: real)
    requires Backfill.Backfilled(nodes', JoinedNodes(r.nodes, nodeUsage, Some(gpu)), r.pods, items, orphans)
    requires GpuConservation.AllBlank(r.nodes) && forall k :: k in items ==> GpuConservation.Blank(items[k])
    ensures var sum := SummaryTotals.SummaryOf(nodes', pods', d, s, m, j, c);
            && GpuConservation.FigureWithin(sum.gpuUsage, r.nodes, gpu, GpuMerge.UtilizationOf, GpuMerge.HasUtilization, lo, hi)
            && GpuConservation.FigureWithin(sum.gpuTensorActive, r.nodes, gpu, GpuMerge.TensorOf, GpuMerge.HasTensor, lo, hi)
            && GpuConservation.FigureWithin(sum.gpuMemoryUtil, r.nodes, gpu, GpuMerge.MemUtilOf, GpuMerge.HasMemUtil, lo, hi)
  {
    var extra := BackfilledParts(nodes', r, nodeUsage, gpu, items, orphans);
    UsageNodesKeep(r.nodes, nodeUsage);
    var used := UsageNodes(r.nodes, nodeUsage);
    GpuConservation.ClusterMeansWithin(
      JoinedNodes(r.nodes, nodeUsage, Some(gpu)), used, extra, gpu, pods', d, s, m, j, c, lo, hi);
    var sum := SummaryTotals.SummaryOf(nodes', pods', d, s, m, j, c);
    FigureSameNames(sum.gpuUsage, used, r.nodes, gpu, GpuMerge.UtilizationOf, GpuMerge.HasUtilization, lo, hi);
    FigureSameNames(sum.gpuTensorActive, used, r.nodes, gpu, GpuMerge.TensorOf, GpuMerge.HasTensor, lo, hi);
    FigureSameNames(sum.gpuMemoryUtil, used, r.nodes, gpu, GpuMerge.MemUtilOf, GpuMerge.HasMemUtil, lo, hi);
  }

  /** End to end and whatever the readings' signs, a reported GPU memory total is the memory of
      the hosted devices if and only if no node of the first read has a negative sum. */
  lemma {:induction false} BuiltGpuMemoryIff(
    r: Reads, nodeUsage: seq<NodeMetrics>, gpu: seq<GpuDevice>, items: map<string, Node>,
    nodes': seq<Node>, pods': seq<Pod>, orphans: nat, d: int, s: int, m: int, j: int, c: int)
    requires Backfill.Backfilled(nodes', JoinedNodes(r.nodes, nodeUsage, Some(gpu)), r.pods, items, orphans)
    requires GpuConservation.AllBlank(r.nodes) && forall k :: k in items ==> GpuConservation.Blank(items[k])
    requires DistinctNodeNames(r.nodes)
    requires SummaryTotals.SummaryOf(nodes', pods', d, s, m, j, c).gpuMemoryUsed.Some?
    ensures var sum := SummaryTotals.SummaryOf(nodes', pods', d, s, m, j, c);
            && (sum.gpuMemoryUsed == Some(GpuConservation.HostedSum(gpu, NodeNames(r.nodes), GpuMerge.MemoryUsedOf))
                <==> GpuConservation.NodeSumsNonNegative(r.nodes, gpu, GpuMerge.MemoryUsedOf))
            && (sum.gpuMemoryTotal == Some(GpuConservation.HostedSum(gpu, NodeNames(r.nodes), GpuMerge.MemoryTotalOf))
                <==> GpuConservation.NodeSumsNonNegative(r.nodes, gpu, GpuMerge.MemoryTotalOf))
  {
    var extra := BackfilledParts(nodes', r, nodeUsage, gpu, items, orphans);
    UsageNodesKeep(r.nodes, nodeUsage);
    var used := UsageNodes(r.nodes, nodeUsage);
    GpuConservation.MemoryConservedIff(JoinedNodes(r.nodes, nodeUsage, Some(gpu)), used, extra, gpu);
    UsageSameSums(r.nodes, nodeUsage, gpu, GpuMerge.MemoryUsedOf);
    UsageSameSums(r.nodes, nodeUsage, gpu, GpuMerge.MemoryTotalOf);
  }

  lemma UsageSameSums(nodes: seq<Node>, usage: seq<NodeMetrics>, gpu: seq<GpuDevice>, f: GpuDevice -> int)
    ensures GpuConservation.NodeSumsNonNegative(UsageNodes(nodes, usage), gpu, f)
            <==> GpuConservation.NodeSumsNonNegative(nodes, gpu, f)
  {
    var used := UsageNodes(nodes, usage);
    assert forall i :: 0 <= i < |nodes| ==> used[i].name == nodes[i].name;
  }

  /** End to end under concurrent store updates: nodes are read after `t1` events, pods after
      `t2`, the node store again after `t3`. Every built pod's node is in the built snapshot
      or gone from the store at the last read, names are distinct, and the orphan count is
      the number of distinct names the built snapshot does not resolve. */
  lemma {:induction false} BuiltNodesUnderRaces(
    events: seq<Backfill.ClusterEvent>, t1: nat, t2: nat, t3: nat,
    r: Reads, t: Ownership.Tables, nodeUsage: seq<NodeMetrics>, podUsage: seq<PodMetrics>,
    gpu: Option<seq<GpuDevice>>, nodes': seq<Node>, pods': seq<Pod>, orphans: nat)
    requires t1 <= t3 <= |events| && t2 <= t3
    requires ListsValues(r.nodes, Backfill.StateAfter(events[..t1]).nodes)
    requires ListsValues(r.pods, Backfill.StateAfter(events[..t2]).pods)
    requires PodsBuilt(t, pods', r.pods, podUsage, gpu)
    requires Backfill.Backfilled(nodes', JoinedNodes(r.nodes, nodeUsage, gpu), r.pods,
                                 Backfill.StateAfter(events[..t3]).nodes, orphans)
    ensures forall p :: p in pods' && p.nodeName != "" ==>
              p.nodeName in NodeNames(nodes') || p.nodeName !in Backfill.StateAfter(events[..t3]).nodes
    ensures forall p :: p in pods' && p.nodeName != "" && p.nodeName !in NodeNames(nodes') ==>
              p.nodeName !in Backfill.StateAfter(events[..t1]).nodes
    ensures DistinctNodeNames(nodes')
    ensures orphans == |set p | p in pods' && p.nodeName != "" && p.nodeName !in NodeNames(nodes') :: p.nodeName|
  {
    var before := JoinedNodes(r.nodes, nodeUsage, gpu);
    forall i | 0 <= i < |before|
      ensures before[i].name == r.nodes[i].name
    {
      JoinedNodeKeepsName(r.nodes[i], nodeUsage, gpu);
    }
    Backfill.BackfillUnderRaces(events, t1, t2, t3, r.nodes, r.pods, before, nodes', orphans);
    forall i | 0 <= i < |pods'|
      ensures pods'[i].nodeName == r.pods[i].nodeName
    {
      JoinedPodKeepsNode(r.pods[i], podUsage, gpu);
    }
    SameNodeNames(pods', r.pods, NodeNames(nodes'));
    forall p | p in pods'
      ensures exists q :: q in r.pods && q.nodeName == p.nodeName
    {
      var i :| 0 <= i < |pods'| && pods'[i] == p;
      assert r.pods[i] in r.pods;
    }
  }

  lemma JoinedNodeKeepsName(n: Node, usage: seq<NodeMetrics>, gpu: Option<seq<GpuDevice>>)
    ensures JoinedNode(n, usage, gpu).name == n.name
  {
  }

  // ---- Jobs of CronJobs ----

  /** The Job table holds the Job itself when names are distinct. */
  lemma {:induction false} JobInTable(t: Ownership.Tables, r: Reads, k: nat)
    requires Ownership.TablesOf(t, r.replicaSets, r.jobs, r.cronJobs)
    requires k < |r.jobs| && DistinctJobs(r.jobs)
    requires forall i :: 0 <= i < |r.jobs| ==> '/' !in r.jobs[i].namespace
    ensures var key := Index.JoinKey(r.jobs[k].namespace, r.jobs[k].name);
            key in t.jobs && t.jobs[key] == r.jobs[k]
  {
    DistinctJobFound(r.jobs, k);
  }

  lemma {:induction false} DistinctJobFound(jobs: seq<Job>, k: nat)
    requires k < |jobs| && DistinctJobs(jobs)
    requires forall i :: 0 <= i < |jobs| ==> '/' !in jobs[i].namespace
    ensures Index.FindLast(jobs, Ownership.JobKey, Index.JoinKey(jobs[k].namespace, jobs[k].name)) == Some(jobs[k])
  {
    var n := |jobs| - 1;
    if k < n {
      if Ownership.JobKey(jobs[n]) == Index.JoinKey(jobs[k].namespace, jobs[k].name) {
        Index.JoinKeyInjective(jobs[n].namespace, jobs[n].name, jobs[k].namespace, jobs[k].name);
      }
      assert jobs[..n][k] == jobs[k];
      DistinctJobFound(jobs[..n], k);
    }
  }

  /** Nothing that resolves to a terminal owner resolves to a Job that a CronJob owns. */
  lemma {:induction false} NoPodKeepsCronJobsJob(t: Ownership.Tables, pods: seq<Pod>, j: Job)
    requires var key := Index.JoinKey(j.namespace, j.name); key in t.jobs && t.jobs[key].ownerCronJob != ""
    requires forall p :: p in pods && p.namespace == j.namespace ==> Ownership.Terminal(t, p.namespace, Ownership.OwnerOf(p))
    ensures Aggregation.OwnedPods(pods, Aggregation.Key(j.namespace, JOB_KIND, j.name)) == []
  {
    if pods != [] {
      var last := pods[|pods| - 1];
      assert last in pods;
      NoPodKeepsCronJobsJob(t, pods[..|pods| - 1], j);
    }
  }

  /** A Job of a CronJob never gets a pod, vanished or not, once its namespace resolves fully:
      its pods count for the CronJob. It reports no usage, and requests only from its
      template. */
  lemma {:induction false} CronJobsJobFallsBack(
    r: Reads, t: Ownership.Tables, podUsage: seq<PodMetrics>, gpu: Option<seq<GpuDevice>>, pods': seq<Pod>,
    jobs': seq<Job>, k: nat)
    requires Ownership.TablesOf(t, r.replicaSets, r.jobs, r.cronJobs)
    requires PodsBuilt(t, pods', r.pods, podUsage, gpu)
    requires Aggregation.AggregatedJobs(jobs', r.jobs, pods') && DistinctJobs(r.jobs)
    requires k < |r.jobs| && r.jobs[k].ownerCronJob != ""
    requires forall i :: 0 <= i < |r.jobs| ==> '/' !in r.jobs[i].namespace
    requires forall i :: 0 <= i < |r.replicaSets| ==> '/' !in r.replicaSets[i].namespace
    requires Ownership.Acyclic(t, r.jobs[k].namespace)
    requires |Ownership.ReplicaSetNames(r.replicaSets, r.jobs[k].namespace)| <= 9
    ensures jobs'[k].cpuUsage == None && jobs'[k].memoryUsage == None
    ensures jobs'[k].cpuRequest == SumReal(r.jobs[k].specs, Aggregation.SpecCpu)
    ensures jobs'[k].memoryRequest == SumInt(r.jobs[k].specs, Aggregation.SpecMemory)
  {
    var j := r.jobs[k];
    JobInTable(t, r, k);
    forall p | p in pods' && p.namespace == j.namespace
      ensures Ownership.Terminal(t, p.namespace, Ownership.OwnerOf(p))
    {
      var i :| 0 <= i < |pods'| && pods'[i] == p;
      var q := JoinedPod(r.pods[i], podUsage, gpu);
      assert p == Ownership.Resolved(t, q) && q.namespace == p.namespace;
      Ownership.ResolvesToTerminalOwner(t, r.replicaSets, r.jobs, r.cronJobs, q);
    }
    NoPodKeepsCronJobsJob(t, pods', j);
    NoPodsTemplate(j, pods', jobs'[k]);
  }

  lemma NoPodsTemplate(j: Job, pods: seq<Pod>, j': Job)
    requires Aggregation.OwnedPods(pods, Aggregation.Key(j.namespace, JOB_KIND, j.name)) == []
    requires j' == Aggregation.AggregatedJob(j, pods)
    ensures j'.cpuUsage == None && j'.memoryUsage == None
    ensures j'.cpuRequest == SumReal(j.specs, Aggregation.SpecCpu)
    ensures j'.memoryRequest == SumInt(j.specs, Aggregation.SpecMemory)
  {
    assert Requested([]) == Req(0.0, 0);
  }
}
