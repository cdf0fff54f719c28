/** The container joins in place. A pod read from the store shares its container slice with
    the stored pod (internal/store/typed.go, Values), and the joins write through it
    (internal/snapshot/builder.go, mergePodMetrics and mergeGPUContainerMetrics): what one
    build wrote is there for the next one to read. */
module SharedContainers {
  import opened Prelude
  import opened Model
  import opened Index
  import opened DeviceFold
  import opened Store
  import opened MetricsPolls
  import opened UsageMerge
  import GpuMerge
  import GpuFigures
  import Build

  /** A stored pod: copying it copies the reference to its containers. */
  datatype PodRef = PodRef(info: Pod, containers: array<Container>)

  /** The pod as a value, in the current state of its containers. */
  ghost function View(p: PodRef): Pod
    reads p.containers
  {
    p.info.(containers := p.containers[..])
  }

  ghost function Arrays(pods: seq<PodRef>): set<object> {
    set p | p in pods :: p.containers
  }

  /** Each pod was converted from its own event, with a slice of its own. */
  ghost predicate Separate(pods: seq<PodRef>) {
    forall i, j :: 0 <= i < j < |pods| ==> pods[i].containers != pods[j].containers
  }

  ghost predicate SeparateStore(items: map<string, PodRef>) {
    forall k, l :: k in items && l in items && k != l ==> items[k].containers != items[l].containers
  }

  /** The inner loop of mergePodMetrics on the shared slice. */
  method MergeInto(cs: array<Container>, metrics: seq<ContainerMetrics>)
    modifies cs
    ensures cs[..] == ContainersWithUsage(old(cs[..]), metrics)
  {
    var lookup := BuildIndex(metrics, ContainerMetricsName);
    for j := 0 to cs.Length
      invariant forall k :: 0 <= k < j ==> cs[k] == ContainerWithUsage(old(cs[k]), metrics)
      invariant forall k :: j <= k < cs.Length ==> cs[k] == old(cs[k])
    {
      if cs[j].name in lookup {
        var m := lookup[cs[j].name];
        cs[j] := cs[j].(cpuUsage := Some(m.cpuUsage), memoryUsage := Some(m.memoryUsage));
      }
    }
  }

  /** builder.go, mergePodMetrics, on the pods as the store hands them out. */
  method MergeUsage(pods: seq<PodRef>, metrics: seq<PodMetrics>)
    requires Separate(pods)
    modifies Arrays(pods)
    ensures forall i :: 0 <= i < |pods| ==> View(pods[i]) == PodWithUsage(old(View(pods[i])), metrics)
  {
    if |metrics| == 0 {
      return;
    }
    var lookup := BuildIndex(metrics, PodMetricsKey);
    for i := 0 to |pods|
      invariant forall k :: 0 <= k < i ==> View(pods[k]) == PodWithUsage(old(View(pods[k])), metrics)
      invariant forall k :: i <= k < |pods| ==> pods[k].containers[..] == old(pods[k].containers[..])
    {
      var p := pods[i];
      var key := JoinKey(p.info.namespace, p.info.name);
      if key in lookup {
        assert p.containers in Arrays(pods);
        MergeInto(p.containers, lookup[key].containers);
      }
      assert View(p) == PodWithUsage(old(View(p)), metrics);
    }
  }

  /** The container loop of mergeGPUContainerMetrics on the shared slice. */
  method MergeGpuInto(p: PodRef, lookup: map<GpuMerge.ContainerKey, GpuMerge.ContainerGpu>, ghost metrics: seq<GpuDevice>)
    requires GpuMerge.Grouped(lookup, metrics)
    modifies p.containers
    ensures View(p) == GpuMerge.PodWithGpu(old(View(p)), metrics)
  {
    var cs := p.containers;
    ghost var target := GpuMerge.PodWithGpu(View(p), metrics).containers;
    for j := 0 to cs.Length
      invariant forall k :: 0 <= k < j ==> cs[k] == target[k]
      invariant forall k :: j <= k < cs.Length ==> cs[k] == old(cs[k])
    {
      var c := cs[j];
      var cg := GpuMerge.ContainerGpuAt(lookup, GpuMerge.ContainerKey(p.info.namespace, p.info.name, c.name));
      if cg.utilCount > 0 {
        c := c.(gpuUtilization := Some(Mean(cg.utilSum, cg.utilCount)));
      }
      if cg.hasMem {
        c := c.(gpuMemoryUsed := Some(cg.memUsed));
      }
      cs[j] := c;
    }
    assert cs[..] == target;
  }

  /** builder.go, mergeGPUContainerMetrics, on the pods as the store hands them out. */
  method MergeGpu(pods: seq<PodRef>, metrics: seq<GpuDevice>)
    requires Separate(pods)
    modifies Arrays(pods)
    ensures forall i :: 0 <= i < |pods| ==> View(pods[i]) == GpuMerge.PodWithGpu(old(View(pods[i])), metrics)
  {
    if |metrics| == 0 {
      forall i | 0 <= i < |pods|
        ensures View(pods[i]) == GpuMerge.PodWithGpu(View(pods[i]), metrics)
      {
        GpuMerge.NoMetricsNoChange(View(pods[i]));
      }
      return;
    }
    var lookup := GpuMerge.GroupByContainer(metrics);
    ghost var target := seq(|pods|, k requires 0 <= k < |pods| => GpuMerge.PodWithGpu(old(View(pods[k])), metrics));
    for i := 0 to |pods|
      invariant forall k :: 0 <= k < i ==> View(pods[k]) == target[k]
      invariant forall k :: i <= k < |pods| ==> pods[k].containers[..] == old(pods[k].containers[..])
    {
      var p := pods[i];
      assert p.containers in Arrays(pods);
      assert View(p) == old(View(p));
      assert forall k :: 0 <= k < |pods| && k != i ==> pods[k].containers != p.containers;
      label before:
      MergeGpuInto(p, lookup, metrics);
      assert forall k :: 0 <= k < |pods| && k != i ==> View(pods[k]) == old@before(View(pods[k]));
      assert View(p) == target[i];
    }
  }

  // ---- Several builds on one store ----

  /** What the metrics sources return to one build. */
  datatype Metrics = Metrics(usage: seq<PodMetrics>, gpu: Option<seq<GpuDevice>>)

  /** A pod that stays in the store through these builds. */
  ghost function AfterBuilds(p: Pod, builds: seq<Metrics>): Pod {
    if builds == [] then p
    else
      var m := builds[|builds| - 1];
      Build.JoinedPod(AfterBuilds(p, builds[..|builds| - 1]), m.usage, m.gpu)
  }

  /** The pod part of one build: read the store, join both sources. */
  method JoinStored(store: TypedStore<PodRef>, m: Metrics) returns (pods: seq<PodRef>)
    requires SeparateStore(store.items)
    modifies set k | k in store.items :: store.items[k].containers
    ensures ListsValues(pods, store.items)
    ensures forall k :: k in store.items ==> View(store.items[k]) == Build.JoinedPod(old(View(store.items[k])), m.usage, m.gpu)
  {
    pods := store.Values();
    SeparateValues(pods, store.items);
    MergeUsage(pods, m.usage);
    if m.gpu.Some? {
      MergeGpu(pods, m.gpu.value);
    }
    forall k | k in store.items
      ensures exists i :: 0 <= i < |pods| && pods[i] == store.items[k]
    {
      StoredIsListed(pods, store.items, k);
    }
  }

  lemma SeparateValues(pods: seq<PodRef>, items: map<string, PodRef>)
    requires ListsValues(pods, items) && SeparateStore(items)
    ensures Separate(pods)
    ensures forall p :: p in pods ==> p in items.Values
  {
    var order :| Enumerates(order, items.Keys) && ValuesInOrder(pods, items, order);
    forall i, j | 0 <= i < j < |pods|
      ensures pods[i].containers != pods[j].containers
    {
      assert order[i] in items && order[j] in items && order[i] != order[j];
    }
    forall p | p in pods
      ensures p in items.Values
    {
      var i :| 0 <= i < |pods| && pods[i] == p;
      assert order[i] in items && items[order[i]] == p;
    }
  }

  lemma StoredIsListed(pods: seq<PodRef>, items: map<string, PodRef>, k: string)
    requires ListsValues(pods, items) && k in items
    ensures exists i :: 0 <= i < |pods| && pods[i] == items[k]
  {
    var order :| Enumerates(order, items.Keys) && ValuesInOrder(pods, items, order);
    var i :| 0 <= i < |order| && order[i] == k;
    assert pods[i] == items[k];
  }

  /** What happens between two builds: polls of metrics-server and of the GPU exporters. */
  datatype Round = Round(usagePolls: seq<UsagePoll>, gpuPolls: seq<Option<seq<GpuDevice>>>, now: int)

  function PollsOf(rounds: seq<Round>): seq<UsagePoll> {
    if rounds == [] then []
    else PollsOf(rounds[..|rounds| - 1]) + rounds[|rounds| - 1].usagePolls
  }

  /** Each build read the metrics store as the polls before it left it. */
  ghost predicate ReadInTurn(builds: seq<Metrics>, before: seq<UsagePoll>, rounds: seq<Round>) {
    && |builds| == |rounds|
    && forall n :: 0 <= n < |builds| ==> ListsValues(builds[n].usage, StoreAfter(before + PollsOf(rounds[..n + 1])))
  }

  method RunUsagePolls(metrics: TypedStore<PodMetrics>, polls: seq<UsagePoll>, now: int, ghost before: seq<UsagePoll>)
    requires metrics.items == StoreAfter(before)
    modifies metrics
    ensures metrics.items == StoreAfter(before + polls)
  {
    assert before + polls[..0] == before;
    for i := 0 to |polls|
      invariant metrics.items == StoreAfter(before + polls[..i])
    {
      PollPodMetrics(metrics, polls[i], now);
      assert (before + polls[..i + 1])[..|before| + i] == before + polls[..i];
    }
    assert polls[..|polls|] == polls;
  }

  method RunGpuPolls(poller: Option<GpuPoller>, polls: seq<Option<seq<GpuDevice>>>)
    modifies AsSet(poller)
    ensures poller.Some? ==> poller.value.metrics == ListAfter(old(poller.value.metrics), polls)
  {
    if poller.Some? {
      var g := poller.value;
      for i := 0 to |polls|
        invariant g.metrics == ListAfter(old(g.metrics), polls[..i])
      {
        assert polls[..i + 1][..i] == polls[..i];
        g.Poll(polls[i]);
      }
      assert polls[..|polls|] == polls;
    }
  }

  /** One round: some polls, then one build that reads both sources. */
  method RunRound(
    store: TypedStore<PodRef>, metrics: TypedStore<PodMetrics>, poller: Option<GpuPoller>, r: Round,
    ghost before: seq<UsagePoll>)
    returns (ghost m: Metrics)
    requires SeparateStore(store.items) && metrics.items == StoreAfter(before)
    requires (store as object) != (metrics as object)
    modifies metrics, AsSet(poller), set k | k in store.items :: store.items[k].containers
    ensures metrics.items == StoreAfter(before + r.usagePolls)
    ensures ListsValues(m.usage, metrics.items)
    ensures m.gpu == if poller.Some? then Some(ListAfter(old(poller.value.metrics), r.gpuPolls)) else None
    ensures forall k :: k in store.items ==> View(store.items[k]) == Build.JoinedPod(old(View(store.items[k])), m.usage, m.gpu)
  {
    RunUsagePolls(metrics, r.usagePolls, r.now, before);
    RunGpuPolls(poller, r.gpuPolls);
    assert forall k :: k in store.items ==> View(store.items[k]) == old(View(store.items[k]));
    var usage := metrics.Values();
    var read := Metrics(usage, if poller.Some? then Some(poller.value.metrics) else None);
    m := read;
    var pods := JoinStored(store, read);
  }

  function AsSet(poller: Option<GpuPoller>): set<GpuPoller> {
    match poller case Some(p) => {p} case None => {}
  }

  /** Builds in a row, with any polls in between and no pod event. */
  method RunRounds(
    store: TypedStore<PodRef>, metrics: TypedStore<PodMetrics>, poller: Option<GpuPoller>, rounds: seq<Round>,
    ghost before: seq<UsagePoll>)
    returns (ghost builds: seq<Metrics>)
    requires SeparateStore(store.items) && metrics.items == StoreAfter(before)
    requires (store as object) != (metrics as object)
    modifies metrics, AsSet(poller), set k | k in store.items :: store.items[k].containers
    ensures ReadInTurn(builds, before, rounds) && Grows(builds)
    ensures forall k :: k in store.items ==> View(store.items[k]) == AfterBuilds(old(View(store.items[k])), builds)
  {
    builds := [];
    assert before + PollsOf(rounds[..0]) == before;
    for n := 0 to |rounds|
      invariant metrics.items == StoreAfter(before + PollsOf(rounds[..n]))
      invariant ReadInTurn(builds, before, rounds[..n])
      invariant forall k :: k in store.items ==> View(store.items[k]) == AfterBuilds(old(View(store.items[k])), builds)
    {
      ghost var m := RunRound(store, metrics, poller, rounds[n], before + PollsOf(rounds[..n]));
      RoundRead(builds, before, rounds, n, m);
      forall k | k in store.items
        ensures View(store.items[k]) == AfterBuilds(old(View(store.items[k])), builds + [m])
      {
        OneMoreBuild(old(View(store.items[k])), builds, m);
      }
      builds := builds + [m];
    }
    assert rounds[..|rounds|] == rounds;
    ReadsGrow(builds, before, rounds);
  }

  lemma OneMoreBuild(p: Pod, builds: seq<Metrics>, m: Metrics)
    ensures AfterBuilds(p, builds + [m]) == Build.JoinedPod(AfterBuilds(p, builds), m.usage, m.gpu)
  {
    assert (builds + [m])[..|builds|] == builds;
  }

  lemma RoundRead(builds: seq<Metrics>, before: seq<UsagePoll>, rounds: seq<Round>, n: nat, m: Metrics)
    requires n < |rounds| && ReadInTurn(builds, before, rounds[..n])
    requires ListsValues(m.usage, StoreAfter(before + PollsOf(rounds[..n]) + rounds[n].usagePolls))
    ensures before + PollsOf(rounds[..n]) + rounds[n].usagePolls == before + PollsOf(rounds[..n + 1])
    ensures ReadInTurn(builds + [m], before, rounds[..n + 1])
  {
    var all, next := builds + [m], rounds[..n + 1];
    assert next[..n] == rounds[..n];
    Assoc(before, PollsOf(rounds[..n]), rounds[n].usagePolls);
    forall i | 0 <= i < |all|
      ensures ListsValues(all[i].usage, StoreAfter(before + PollsOf(next[..i + 1])))
    {
      if i < n {
        assert next[..i + 1] == rounds[..n][..i + 1];
      } else {
        assert next[..i + 1] == next;
      }
    }
  }

  /** Every pod that one build reads an entry for has one in every later build. */
  ghost predicate Grows(builds: seq<Metrics>) {
    forall i, j, key :: 0 <= i <= j < |builds| && FindLast(builds[i].usage, PodMetricsKey, key).Some? ==>
      FindLast(builds[j].usage, PodMetricsKey, key).Some?
  }

  lemma {:induction false} PollsExtend(rounds: seq<Round>, i: nat, j: nat)
    requires i <= j <= |rounds|
    ensures |PollsOf(rounds[..i])| <= |PollsOf(rounds[..j])|
    ensures PollsOf(rounds[..j])[..|PollsOf(rounds[..i])|] == PollsOf(rounds[..i])
    decreases j
  {
    if i < j {
      PollsExtend(rounds, i, j - 1);
      assert rounds[..j][..j - 1] == rounds[..j - 1];
    }
  }

  /** The metrics store is only ever set, so what the builds read from it grows. */
  lemma {:induction false} ReadsGrow(builds: seq<Metrics>, before: seq<UsagePoll>, rounds: seq<Round>)
    requires ReadInTurn(builds, before, rounds)
    ensures Grows(builds)
  {
    forall i, j, key | 0 <= i <= j < |builds| && FindLast(builds[i].usage, PodMetricsKey, key).Some?
      ensures FindLast(builds[j].usage, PodMetricsKey, key).Some?
    {
      var a, b := PollsOf(rounds[..i + 1]), PollsOf(rounds[..j + 1]);
      PollsExtend(rounds, i + 1, j + 1);
      ReadingIsLatest(before + a, builds[i].usage, key);
      ReadingIsLatest(before + b, builds[j].usage, key);
      ListedOnce(before + a, b[|a|..], key);
      Assoc(before, a, b[|a|..]);
      assert a + b[|a|..] == b;
    }
  }

  // ---- What the builds report ----

  /** The report of the latest build that had one. */
  function Latest<R>(report: Metrics -> Option<R>, builds: seq<Metrics>): Option<R> {
    if builds == [] then None
    else
      var r := report(builds[|builds| - 1]);
      if r.Some? then r else Latest(report, builds[..|builds| - 1])
  }

  /** The metrics entry that a build holds for a container of a pod. */
  function UsageEntry(namespace: string, pod: string, container: string, m: Metrics): Option<ContainerMetrics> {
    match FindLast(m.usage, PodMetricsKey, JoinKey(namespace, pod))
    case Some(entry) => FindLast(entry.containers, ContainerMetricsName, container)
    case None => None
  }

  function UsageOf(namespace: string, pod: string, container: string): Metrics -> Option<ContainerMetrics> {
    m => UsageEntry(namespace, pod, container, m)
  }

  function DevicesFor(namespace: string, pod: string, container: string, m: Metrics): seq<GpuDevice> {
    match m.gpu
    case Some(devs) => GpuMerge.DevicesOf(devs, GpuMerge.ContainerKey(namespace, pod, container))
    case None => []
  }

  /** The GPU utilization a build computes for a container, if one of its devices reports it. */
  function UtilizationFor(namespace: string, pod: string, container: string): Metrics -> Option<real> {
    m =>
      var devs := DevicesFor(namespace, pod, container, m);
      var count := SumInt(devs, GpuMerge.HasUtilization);
      if count > 0 then Some(Mean(SumReal(devs, GpuMerge.UtilizationOf), count)) else None
  }

  function GpuMemoryFor(namespace: string, pod: string, container: string): Metrics -> Option<int> {
    m =>
      var devs := DevicesFor(namespace, pod, container, m);
      if GpuMerge.AnyMemory(devs) then Some(SumInt(devs, GpuMerge.MemoryUsedOf)) else None
  }

  function Else<R>(a: Option<R>, b: Option<R>): Option<R> {
    if a.Some? then a else b
  }

  function CpuOf(e: Option<ContainerMetrics>, before: Option<real>): Option<real> {
    if e.Some? then Some(e.value.cpuUsage) else before
  }

  function MemoryOf(e: Option<ContainerMetrics>, before: Option<int>): Option<int> {
    if e.Some? then Some(e.value.memoryUsage) else before
  }

  /** A pod keeps its identity and its containers' names. */
  predicate SameShape(q: Pod, p: Pod) {
    && q.namespace == p.namespace && q.name == p.name && |q.containers| == |p.containers|
    && forall j :: 0 <= j < |p.containers| ==> q.containers[j].name == p.containers[j].name
  }

  /** The container's figures are those given, or its own before the builds. */
  predicate Reports(
    q: Container, c: Container, e: Option<ContainerMetrics>, util: Option<real>, mem: Option<int>)
  {
    && q.cpuUsage == CpuOf(e, c.cpuUsage) && q.memoryUsage == MemoryOf(e, c.memoryUsage)
    && q.gpuUtilization == Else(util, c.gpuUtilization) && q.gpuMemoryUsed == Else(mem, c.gpuMemoryUsed)
  }

  lemma JoinedReports(p: Pod, m: Metrics, j: nat)
    requires j < |p.containers|
    ensures var q, c := Build.JoinedPod(p, m.usage, m.gpu), p.containers[j];
            && SameShape(q, p)
            && Reports(q.containers[j], c, UsageOf(p.namespace, p.name, c.name)(m),
                       UtilizationFor(p.namespace, p.name, c.name)(m), GpuMemoryFor(p.namespace, p.name, c.name)(m))
  {
  }

  /** What a build reports for a container is, figure by figure, the report of the latest build
      so far that had one, however long ago that was. */
  lemma {:induction false} ReportIsLatest(p: Pod, builds: seq<Metrics>, j: nat)
    requires j < |p.containers|
    ensures var q, c := AfterBuilds(p, builds), p.containers[j];
            && SameShape(q, p)
            && Reports(q.containers[j], c, Latest(UsageOf(p.namespace, p.name, c.name), builds),
                       Latest(UtilizationFor(p.namespace, p.name, c.name), builds),
                       Latest(GpuMemoryFor(p.namespace, p.name, c.name), builds))
  {
    if builds != [] {
      var n := |builds| - 1;
      ReportIsLatest(p, builds[..n], j);
      JoinedReports(AfterBuilds(p, builds[..n]), builds[n], j);
    }
  }

  /** The utilizations that the device list of a build holds for a container. */
  function UtilizationsIn(m: Metrics, namespace: string, pod: string, container: string): seq<real> {
    if m.gpu.Some? then GpuFigures.Utilizations(m.gpu.value, namespace, pod, container) else []
  }

  function MemoriesIn(m: Metrics, namespace: string, pod: string, container: string): seq<int> {
    if m.gpu.Some? then GpuFigures.MemoriesUsed(m.gpu.value, namespace, pod, container) else []
  }

  lemma ReportsByLabel(m: Metrics, namespace: string, pod: string, container: string)
    ensures var utils, used := UtilizationsIn(m, namespace, pod, container), MemoriesIn(m, namespace, pod, container);
            && UtilizationFor(namespace, pod, container)(m) ==
               (if utils != [] then Some(Total(utils) / (|utils| as real)) else None)
            && GpuMemoryFor(namespace, pod, container)(m) == if used != [] then Some(TotalInt(used)) else None
  {
    if m.gpu.Some? {
      GpuFigures.ContainerSums(m.gpu.value, namespace, pod, container);
    }
  }

  /** The latest report is that of the last build which has one. */
  lemma {:induction false} LatestAt<R>(report: Metrics -> Option<R>, builds: seq<Metrics>, i: nat)
    requires i < |builds| && report(builds[i]).Some?
    requires forall k :: i < k < |builds| ==> report(builds[k]).None?
    ensures Latest(report, builds) == report(builds[i])
  {
    if i < |builds| - 1 {
      LatestAt(report, builds[..|builds| - 1], i);
    }
  }

  /** By the labels of the devices: a container has the mean utilization of the last build
      whose device list reports one for its namespace, pod and name, and its own from before
      the builds if none did. */
  lemma LatestUtilization(p: Pod, builds: seq<Metrics>, j: nat)
    requires j < |p.containers|
    ensures var q, c := AfterBuilds(p, builds), p.containers[j];
            && SameShape(q, p)
            && (forall i :: 0 <= i < |builds| && UtilizationsIn(builds[i], p.namespace, p.name, c.name) != []
                            && (forall k :: i < k < |builds| ==> UtilizationsIn(builds[k], p.namespace, p.name, c.name) == []) ==>
                  var utils := UtilizationsIn(builds[i], p.namespace, p.name, c.name);
                  q.containers[j].gpuUtilization == Some(Total(utils) / (|utils| as real)))
            && ((forall i :: 0 <= i < |builds| ==> UtilizationsIn(builds[i], p.namespace, p.name, c.name) == []) ==>
                  q.containers[j].gpuUtilization == c.gpuUtilization)
  {
    var c := p.containers[j];
    ReportIsLatest(p, builds, j);
    var report := UtilizationFor(p.namespace, p.name, c.name);
    LatestFrom(report, builds);
    forall i | 0 <= i < |builds| {
      ReportsByLabel(builds[i], p.namespace, p.name, c.name);
    }
    forall i | 0 <= i < |builds| && report(builds[i]).Some? && (forall k :: i < k < |builds| ==> report(builds[k]).None?)
      ensures Latest(report, builds) == report(builds[i])
    {
      LatestAt(report, builds, i);
    }
  }

  lemma LatestMemory(p: Pod, builds: seq<Metrics>, j: nat)
    requires j < |p.containers|
    ensures var q, c := AfterBuilds(p, builds), p.containers[j];
            && SameShape(q, p)
            && (forall i :: 0 <= i < |builds| && MemoriesIn(builds[i], p.namespace, p.name, c.name) != []
                            && (forall k :: i < k < |builds| ==> MemoriesIn(builds[k], p.namespace, p.name, c.name) == []) ==>
                  q.containers[j].gpuMemoryUsed == Some(TotalInt(MemoriesIn(builds[i], p.namespace, p.name, c.name))))
            && ((forall i :: 0 <= i < |builds| ==> MemoriesIn(builds[i], p.namespace, p.name, c.name) == []) ==>
                  q.containers[j].gpuMemoryUsed == c.gpuMemoryUsed)
  {
    var c := p.containers[j];
    ReportIsLatest(p, builds, j);
    var report := GpuMemoryFor(p.namespace, p.name, c.name);
    LatestFrom(report, builds);
    forall i | 0 <= i < |builds| {
      ReportsByLabel(builds[i], p.namespace, p.name, c.name);
    }
    forall i | 0 <= i < |builds| && report(builds[i]).Some? && (forall k :: i < k < |builds| ==> report(builds[k]).None?)
      ensures Latest(report, builds) == report(builds[i])
    {
      LatestAt(report, builds, i);
    }
  }

  /** A build after others reports the same usage for a container as it would alone, unless
      its entry for the pod omits the container and an earlier build changed the usage: the
      pod itself stays listed. */
  lemma {:induction false} StaleUsageIff(p: Pod, earlier: seq<Metrics>, m: Metrics, j: nat)
    requires j < |p.containers| && Grows(earlier + [m])
    ensures var c := p.containers[j];
            var q, alone := AfterBuilds(p, earlier + [m]), Build.JoinedPod(p, m.usage, m.gpu);
            && SameShape(q, p) && SameShape(alone, p)
            && (q.containers[j].cpuUsage != alone.containers[j].cpuUsage
                || q.containers[j].memoryUsage != alone.containers[j].memoryUsage
                <==> && FindLast(m.usage, PodMetricsKey, JoinKey(p.namespace, p.name)).Some?
                     && UsageEntry(p.namespace, p.name, c.name, m).None?
                     && var e := Latest(UsageOf(p.namespace, p.name, c.name), earlier);
                        e.Some? && (c.cpuUsage != Some(e.value.cpuUsage) || c.memoryUsage != Some(e.value.memoryUsage)))
  {
    var builds, c := earlier + [m], p.containers[j];
    assert builds[..|builds| - 1] == earlier;
    ReportIsLatest(p, builds, j);
    JoinedReports(p, m, j);
    if Latest(UsageOf(p.namespace, p.name, c.name), earlier).Some? {
      LatestFrom(UsageOf(p.namespace, p.name, c.name), earlier);
      var i :| 0 <= i < |earlier| && UsageOf(p.namespace, p.name, c.name)(earlier[i]).Some?;
      assert builds[i] == earlier[i] && builds[|earlier|] == m;
      assert FindLast(builds[i].usage, PodMetricsKey, JoinKey(p.namespace, p.name)).Some?;
    }
  }

  lemma {:induction false} LatestFrom<R>(report: Metrics -> Option<R>, builds: seq<Metrics>)
    ensures Latest(report, builds).Some? <==> exists i :: 0 <= i < |builds| && report(builds[i]).Some?
  {
    if builds != [] {
      LatestFrom(report, builds[..|builds| - 1]);
    }
  }

  /** The GPU list is replaced on each poll, so any gap shows: a figure is stale exactly if no
      device of the build reports it and an earlier build changed it. */
  lemma {:induction false} StaleGpuIff(p: Pod, earlier: seq<Metrics>, m: Metrics, j: nat)
    requires j < |p.containers|
    ensures var c := p.containers[j];
            var q, alone := AfterBuilds(p, earlier + [m]), Build.JoinedPod(p, m.usage, m.gpu);
            var util, mem := UtilizationFor(p.namespace, p.name, c.name), GpuMemoryFor(p.namespace, p.name, c.name);
            && SameShape(q, p) && SameShape(alone, p)
            && (q.containers[j].gpuUtilization != alone.containers[j].gpuUtilization
                <==> util(m).None? && Latest(util, earlier).Some? && Latest(util, earlier) != c.gpuUtilization)
            && (q.containers[j].gpuMemoryUsed != alone.containers[j].gpuMemoryUsed
                <==> mem(m).None? && Latest(mem, earlier).Some? && Latest(mem, earlier) != c.gpuMemoryUsed)
  {
    var builds := earlier + [m];
    assert builds[..|builds| - 1] == earlier;
    ReportIsLatest(p, builds, j);
    JoinedReports(p, m, j);
  }

  /** A container that the pod's entry no longer lists keeps its usage: two polls, the second
      without the container, and a build after each. */
  lemma OmittedContainerExample(p: Pod, c: Container, e: ContainerMetrics)
    requires p.containers == [c] && c.cpuUsage == None && e.name == c.name
    ensures var listed, omitted := [PodMetrics(p.name, p.namespace, [e])], [PodMetrics(p.name, p.namespace, [])];
            var builds := [Metrics(listed, None), Metrics(omitted, None)];
            && ReadInTurn(builds, [], [Round([Some(listed)], [], 0), Round([Some(omitted)], [], 0)])
            && SameShape(AfterBuilds(p, builds), p) && SameShape(Build.JoinedPod(p, omitted, None), p)
            && AfterBuilds(p, builds).containers[0].cpuUsage == Some(e.cpuUsage)
            && Build.JoinedPod(p, omitted, None).containers[0].cpuUsage == None
  {
    var one, two := PodMetrics(p.name, p.namespace, [e]), PodMetrics(p.name, p.namespace, []);
    var first, second := Metrics([one], None), Metrics([two], None);
    TwoReads(one, two);
    assert [one][..0] == [] && [two][..0] == [] && [e][..0] == [];
    assert [first, second][..1] == [first] && [first][..0] == [];
    assert UsageOf(p.namespace, p.name, c.name)(first) == Some(e);
    assert UsageOf(p.namespace, p.name, c.name)(second) == None;
    ReportIsLatest(p, [first, second], 0);
    JoinedReports(p, second, 0);
  }

  lemma TwoReads(one: PodMetrics, two: PodMetrics)
    requires PodMetricsKey(one) == PodMetricsKey(two)
    ensures ReadInTurn([Metrics([one], None), Metrics([two], None)], [],
                       [Round([Some([one])], [], 0), Round([Some([two])], [], 0)])
  {
    var a, b := Round([Some([one])], [], 0), Round([Some([two])], [], 0);
    var key := PodMetricsKey(one);
    OneEntry([], one);
    OneEntry([Some([one])], two);
    assert [a, b][..1] == [a] && [a, b][..2] == [a, b] && [a][..0] == [];
    assert [] + PollsOf([a]) == [Some([one])];
    assert [] + PollsOf([a, b]) == [Some([one])] + [Some([two])];
    assert StoreAfter([Some([one])] + [Some([two])]) == map[key := two];
    SingleValue(one, key);
    SingleValue(two, key);
  }

  lemma OneEntry(before: seq<UsagePoll>, entry: PodMetrics)
    ensures StoreAfter(before + [Some([entry])]) == StoreAfter(before)[PodMetricsKey(entry) := entry]
  {
    var items := StoreAfter(before);
    var list := [entry];
    var poll: UsagePoll := Some(list);
    assert (before + [poll])[..|before|] == before;
    assert list[..0] == [] && Listed(items, list[..0]) == items;
    assert Polled(items, poll) == items[PodMetricsKey(entry) := entry];
  }

  lemma SingleValue(entry: PodMetrics, key: string)
    ensures ListsValues([entry], map[key := entry])
  {
    assert Enumerates([key], map[key := entry].Keys) && ValuesInOrder([entry], map[key := entry], [key]);
  }

  /** A pod that metrics-server no longer lists, be it a replacement of the one that was: it
      gets what the latest poll says for it if and only if that poll lists it, or no earlier
      poll had usage for the container that differs from its own. */
  lemma VanishedPodIff(
    p: Pod, polls: seq<UsagePoll>, last: seq<PodMetrics>, vals: seq<PodMetrics>, gpu: Option<seq<GpuDevice>>, j: nat)
    requires j < |p.containers| && ListsValues(vals, StoreAfter(polls + [Some(last)]))
    ensures var c, key := p.containers[j], JoinKey(p.namespace, p.name);
            var q, current := Build.JoinedPod(p, vals, gpu), Build.JoinedPod(p, last, gpu);
            && SameShape(q, p) && SameShape(current, p)
            && (q.containers[j].cpuUsage == current.containers[j].cpuUsage
                && q.containers[j].memoryUsage == current.containers[j].memoryUsage
                <==> || FindLast(last, PodMetricsKey, key).Some?
                     || LatestListed(polls, key).None?
                     || var e := FindLast(LatestListed(polls, key).value.containers, ContainerMetricsName, c.name);
                        e.Some? ==> c.cpuUsage == Some(e.value.cpuUsage) && c.memoryUsage == Some(e.value.memoryUsage))
  {
    var key := JoinKey(p.namespace, p.name);
    ReadingIsLatest(polls + [Some(last)], vals, key);
    assert (polls + [Some(last)])[..|polls|] == polls;
    JoinedReports(p, Metrics(vals, gpu), j);
    JoinedReports(p, Metrics(last, gpu), j);
  }

  /** Nothing removes the entry of a deleted pod: a pod of the same name that has no usage yet
      gets its predecessor's. */
  lemma VanishedPodExample(p: Pod, c: Container, e: ContainerMetrics, vals: seq<PodMetrics>)
    requires p.containers == [c] && c.cpuUsage == None && e.name == c.name
    requires ListsValues(vals, StoreAfter([Some([PodMetrics(p.name, p.namespace, [e])])] + [Some([])]))
    ensures var q := Build.JoinedPod(p, vals, None);
            && SameShape(q, p) && q.containers[0].cpuUsage == Some(e.cpuUsage)
            && Build.JoinedPod(p, [], None) == p
  {
    var entry := PodMetrics(p.name, p.namespace, [e]);
    var key := JoinKey(p.namespace, p.name);
    var first: UsagePoll := Some([entry]);
    ReadingIsLatest([first] + [Some([])], vals, key);
    assert ([first] + [Some([])])[..1] == [first];
    assert [first][..0] == [] && [entry][..0] == [] && [e][..0] == [];
    assert LatestListed([first], key) == Some(entry);
    assert FindLast(vals, PodMetricsKey, key) == Some(entry);
    JoinedReports(p, Metrics(vals, None), 0);
  }
}
