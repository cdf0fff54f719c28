/** The totals of workloads and Jobs (internal/enrichment/aggregation.go), read off the fields
    of the containers of the pods they own. */
module WorkloadFigures {
  import opened Prelude
  import opened Model
  import opened Aggregation
  import opened Conservation

  /** The workload owns the pod, and the pod has not finished unless the workload is a batch one. */
  predicate Owns(namespace: string, kind: string, name: string, p: Pod) {
    && p.ownerKind != "" && p.namespace == namespace && p.ownerKind == kind && p.ownerName == name
    && (kind == "Job" || kind == "CronJob" || (p.phase != "Succeeded" && p.phase != "Failed"))
  }

  /** The containers of the pods that a workload owns. */
  function OwnedContainers(pods: seq<Pod>, namespace: string, kind: string, name: string): seq<Container> {
    if pods == [] then []
    else
      var before, last := OwnedContainers(pods[..|pods| - 1], namespace, kind, name), pods[|pods| - 1];
      if Owns(namespace, kind, name, last) then before + last.containers else before
  }

  lemma OwnsIsGrouped(p: Pod, namespace: string, kind: string, name: string)
    ensures Owns(namespace, kind, name, p) <==> Grouped(p) && KeyOf(p) == Key(namespace, kind, name)
  {
  }

  lemma {:induction false} OwnedReal(
    pods: seq<Pod>, namespace: string, kind: string, name: string, f: Pod -> real, g: Container -> real)
    requires forall p :: f(p) == SumReal(p.containers, g)
    ensures SumReal(OwnedPods(pods, Key(namespace, kind, name)), f)
         == SumReal(OwnedContainers(pods, namespace, kind, name), g)
  {
    if pods != [] {
      var p, last := pods[..|pods| - 1], pods[|pods| - 1];
      OwnedReal(p, namespace, kind, name, f, g);
      OwnsIsGrouped(last, namespace, kind, name);
      SumRealConcat(OwnedContainers(p, namespace, kind, name), last.containers, g);
      var owned := OwnedPods(p, Key(namespace, kind, name));
      assert (owned + [last])[..|owned|] == owned;
    }
  }

  lemma {:induction false} OwnedInt(
    pods: seq<Pod>, namespace: string, kind: string, name: string, f: Pod -> int, g: Container -> int)
    requires forall p :: f(p) == SumInt(p.containers, g)
    ensures SumInt(OwnedPods(pods, Key(namespace, kind, name)), f)
         == SumInt(OwnedContainers(pods, namespace, kind, name), g)
  {
    if pods != [] {
      var p, last := pods[..|pods| - 1], pods[|pods| - 1];
      OwnedInt(p, namespace, kind, name, f, g);
      OwnsIsGrouped(last, namespace, kind, name);
      SumIntConcat(OwnedContainers(p, namespace, kind, name), last.containers, g);
      var owned := OwnedPods(p, Key(namespace, kind, name));
      assert (owned + [last])[..|owned|] == owned;
    }
  }

  ghost predicate SomeUsage(cs: seq<Container>) {
    exists c :: c in cs && (c.cpuUsage.Some? || c.memoryUsage.Some?)
  }

  lemma {:induction false} OwnedUsage(pods: seq<Pod>, namespace: string, kind: string, name: string)
    ensures PodsHaveUsage(OwnedPods(pods, Key(namespace, kind, name)))
            <==> SomeUsage(OwnedContainers(pods, namespace, kind, name))
  {
    if pods != [] {
      var p, last := pods[..|pods| - 1], pods[|pods| - 1];
      OwnedUsage(p, namespace, kind, name);
      OwnsIsGrouped(last, namespace, kind, name);
    }
  }

  ghost predicate CpuUsageIs(cs: seq<Container>, usage: Option<real>) {
    usage == if SomeUsage(cs) then Some(Total(Values(cs, (c: Container) => c.cpuUsage))) else None
  }

  ghost predicate MemoryUsageIs(cs: seq<Container>, usage: Option<int>) {
    usage == if SomeUsage(cs) then Some(TotalInt(Values(cs, (c: Container) => c.memoryUsage))) else None
  }

  lemma OwnedUsageTotals(pods: seq<Pod>, namespace: string, kind: string, name: string)
    ensures var t, cs := TotalsOf(OwnedPods(pods, Key(namespace, kind, name))),
                         OwnedContainers(pods, namespace, kind, name);
            CpuUsageIs(cs, t.cpuUsage) && MemoryUsageIs(cs, t.memoryUsage)
  {
    var cs := OwnedContainers(pods, namespace, kind, name);
    OwnedUsage(pods, namespace, kind, name);
    OwnedReal(pods, namespace, kind, name, PodCpuUsage, CpuUsageOf);
    OwnedInt(pods, namespace, kind, name, PodMemoryUsage, MemoryUsageOf);
    RealSumOfValues(cs, (c: Container) => c.cpuUsage, CpuUsageOf);
    IntSumOfValues(cs, (c: Container) => c.memoryUsage, MemoryUsageOf);
  }

  lemma OwnedRequests(pods: seq<Pod>, namespace: string, kind: string, name: string)
    ensures var t, cs := TotalsOf(OwnedPods(pods, Key(namespace, kind, name))),
                         OwnedContainers(pods, namespace, kind, name);
            && t.cpuRequest == SumReal(cs, (c: Container) => c.cpuRequest)
            && t.memoryRequest == SumInt(cs, (c: Container) => c.memoryRequest)
  {
    var cs := OwnedContainers(pods, namespace, kind, name);
    OwnedReal(pods, namespace, kind, name, PodCpuRequest, CpuRequestOf);
    OwnedInt(pods, namespace, kind, name, PodMemoryRequest, MemoryRequestOf);
    SumRealSame(cs, (c: Container) => c.cpuRequest, CpuRequestOf);
    SumIntSame(cs, (c: Container) => c.memoryRequest, MemoryRequestOf);
  }

  lemma OwnedLimits(pods: seq<Pod>, namespace: string, kind: string, name: string)
    ensures var t, cs := TotalsOf(OwnedPods(pods, Key(namespace, kind, name))),
                         OwnedContainers(pods, namespace, kind, name);
            && t.cpuLimit == SumReal(cs, (c: Container) => c.cpuLimit)
            && t.memoryLimit == SumInt(cs, (c: Container) => c.memoryLimit)
  {
    var cs := OwnedContainers(pods, namespace, kind, name);
    OwnedReal(pods, namespace, kind, name, PodCpuLimit, CpuLimitOf);
    OwnedInt(pods, namespace, kind, name, PodMemoryLimit, MemoryLimitOf);
    SumRealSame(cs, (c: Container) => c.cpuLimit, CpuLimitOf);
    SumIntSame(cs, (c: Container) => c.memoryLimit, MemoryLimitOf);
  }

  /** Requests, limits and usage are those of the containers; usage is there exactly if one of
      them has any. */
  ghost predicate WorkloadIs(r: Workload, w: Workload, cs: seq<Container>) {
    && r.name == w.name && r.namespace == w.namespace
    && r.cpuRequest == SumReal(cs, (c: Container) => c.cpuRequest)
    && r.memoryRequest == SumInt(cs, (c: Container) => c.memoryRequest)
    && r.cpuLimit == SumReal(cs, (c: Container) => c.cpuLimit)
    && r.memoryLimit == SumInt(cs, (c: Container) => c.memoryLimit)
    && CpuUsageIs(cs, r.cpuUsage) && MemoryUsageIs(cs, r.memoryUsage)
  }

  /** The same for a Job, but with its template's requests if the containers request nothing
      and the template has containers. */
  ghost predicate JobIs(r: Job, j: Job, cs: seq<Container>) {
    var cpu := SumReal(cs, (c: Container) => c.cpuRequest);
    var mem := SumInt(cs, (c: Container) => c.memoryRequest);
    var fallsBack := cpu == 0.0 && mem == 0 && j.specs != [];
    && r == j.(cpuRequest := r.cpuRequest, memoryRequest := r.memoryRequest,
               cpuUsage := r.cpuUsage, memoryUsage := r.memoryUsage)
    && r.cpuRequest == (if fallsBack then SumReal(j.specs, (c: ContainerSpec) => c.cpuRequest) else cpu)
    && r.memoryRequest == (if fallsBack then SumInt(j.specs, (c: ContainerSpec) => c.memoryRequest) else mem)
    && CpuUsageIs(cs, r.cpuUsage) && MemoryUsageIs(cs, r.memoryUsage)
  }

  /** A workload reports the containers of the pods it owns. */
  lemma WorkloadTotals(w: Workload, kind: string, pods: seq<Pod>)
    ensures WorkloadIs(AggregatedWorkload(w, kind, pods), w, OwnedContainers(pods, w.namespace, kind, w.name))
  {
    OwnedRequests(pods, w.namespace, kind, w.name);
    OwnedLimits(pods, w.namespace, kind, w.name);
    OwnedUsageTotals(pods, w.namespace, kind, w.name);
  }

  lemma JobTotals(j: Job, pods: seq<Pod>)
    ensures JobIs(AggregatedJob(j, pods), j, OwnedContainers(pods, j.namespace, "Job", j.name))
  {
    OwnedRequests(pods, j.namespace, "Job", j.name);
    OwnedUsageTotals(pods, j.namespace, "Job", j.name);
    SumRealSame(j.specs, (c: ContainerSpec) => c.cpuRequest, SpecCpu);
    SumIntSame(j.specs, (c: ContainerSpec) => c.memoryRequest, SpecMemory);
  }

  // ---- Conservation of limits ----

  /** The pods with their limits in place of their requests. */
  function LimitsOf(pods: seq<Pod>): seq<Pod> {
    seq(|pods|, i requires 0 <= i < |pods| => PodLimits(pods[i]))
  }

  function PodLimits(p: Pod): Pod {
    p.(containers := seq(|p.containers|, i requires 0 <= i < |p.containers| =>
         p.containers[i].(cpuRequest := p.containers[i].cpuLimit, memoryRequest := p.containers[i].memoryLimit)))
  }

  function WorkloadLimits(ws: seq<Workload>): seq<Workload> {
    seq(|ws|, i requires 0 <= i < |ws| =>
      ws[i].(cpuRequest := ws[i].cpuLimit, memoryRequest := ws[i].memoryLimit))
  }

  lemma {:induction false} LimitsAsRequests(cs: seq<Container>, ds: seq<Container>)
    requires |ds| == |cs|
    requires forall i :: 0 <= i < |cs| ==> ds[i].cpuRequest == cs[i].cpuLimit && ds[i].memoryRequest == cs[i].memoryLimit
    ensures SumReal(ds, CpuRequestOf) == SumReal(cs, CpuLimitOf)
    ensures SumInt(ds, MemoryRequestOf) == SumInt(cs, MemoryLimitOf)
  {
    if cs != [] {
      LimitsAsRequests(cs[..|cs| - 1], ds[..|ds| - 1]);
    }
  }

  lemma PodLimitsReq(p: Pod)
    ensures PodReq(PodLimits(p)) == Req(PodCpuLimit(p), PodMemoryLimit(p))
  {
    LimitsAsRequests(p.containers, PodLimits(p).containers);
  }

  lemma LimitsSnoc(pods: seq<Pod>)
    requires pods != []
    ensures LimitsOf(pods)[|pods| - 1] == PodLimits(pods[|pods| - 1])
    ensures LimitsOf(pods)[..|pods| - 1] == LimitsOf(pods[..|pods| - 1])
  {
  }

  lemma {:induction false} OwnedLimitsReq(pods: seq<Pod>, key: Key)
    ensures var owned := OwnedPods(pods, key);
            RequestedBy(LimitsOf(pods), {key}) == Req(SumReal(owned, PodCpuLimit), SumInt(owned, PodMemoryLimit))
  {
    if pods != [] {
      var p, last := pods[..|pods| - 1], pods[|pods| - 1];
      LimitsSnoc(pods);
      OwnedLimitsReq(p, key);
      PodLimitsReq(last);
      var owned := OwnedPods(p, key);
      assert (owned + [last])[..|owned|] == owned;
    }
  }

  lemma KindLimits(after: seq<Workload>, before: seq<Workload>, kind: string, pods: seq<Pod>)
    requires Aggregated(after, before, kind, pods) && DistinctWorkloads(before)
    ensures Reported(WorkloadLimits(after)) == RequestedBy(LimitsOf(pods), WorkloadKeys(before, kind))
  {
    forall i | 0 <= i < |after|
      ensures WorkloadReq(WorkloadLimits(after)[i]) == RequestedBy(LimitsOf(pods), {WorkloadKey(before[i], kind)})
    {
      OwnedLimitsReq(pods, WorkloadKey(before[i], kind));
    }
    ReportsSum(WorkloadLimits(after), before, kind, LimitsOf(pods));
  }

  function LimitsReported(ws: seq<Workload>): (real, int) {
    (SumReal(ws, (w: Workload) => w.cpuLimit), SumInt(ws, (w: Workload) => w.memoryLimit))
  }

  lemma {:induction false} ReportedLimits(ws: seq<Workload>)
    ensures Reported(WorkloadLimits(ws)) == Req(LimitsReported(ws).0, LimitsReported(ws).1)
  {
    if ws != [] {
      ReportedLimits(ws[..|ws| - 1]);
      assert WorkloadLimits(ws)[..|ws| - 1] == WorkloadLimits(ws[..|ws| - 1]);
    }
  }

  /** A workload of the list owns the pod. */
  ghost predicate OwnedIn(ws: seq<Workload>, kind: string, p: Pod) {
    exists w :: w in ws && Owns(w.namespace, kind, w.name, p)
  }

  function AllContainers(pods: seq<Pod>): seq<Container> {
    if pods == [] then [] else AllContainers(pods[..|pods| - 1]) + pods[|pods| - 1].containers
  }

  /** The containers of the pods that no Deployment, StatefulSet or DaemonSet owns. */
  ghost function OtherContainers(pods: seq<Pod>, d: seq<Workload>, s: seq<Workload>, m: seq<Workload>): seq<Container> {
    if pods == [] then []
    else
      var before, p := OtherContainers(pods[..|pods| - 1], d, s, m), pods[|pods| - 1];
      if OwnedIn(d, "Deployment", p) || OwnedIn(s, "StatefulSet", p) || OwnedIn(m, "DaemonSet", p) then before
      else before + p.containers
  }

  function LongRunningKeys(d: seq<Workload>, s: seq<Workload>, m: seq<Workload>): set<Key> {
    WorkloadKeys(d, DEPLOYMENT) + WorkloadKeys(s, STATEFUL_SET) + WorkloadKeys(m, DAEMON_SET)
  }

  lemma OwnedInKeys(ws: seq<Workload>, kind: string, p: Pod)
    ensures OwnedIn(ws, kind, p) <==> Grouped(p) && KeyOf(p) in WorkloadKeys(ws, kind)
  {
    forall w | w in ws {
      OwnsIsGrouped(p, w.namespace, kind, w.name);
    }
    if Grouped(p) && KeyOf(p) in WorkloadKeys(ws, kind) {
      var w :| w in ws && KeyOf(p) == Key(w.namespace, kind, w.name);
      assert Owns(w.namespace, kind, w.name, p);
    }
  }

  lemma LeftoverIff(p: Pod, d: seq<Workload>, s: seq<Workload>, m: seq<Workload>)
    ensures IsLeftover(PodLimits(p), LongRunningKeys(d, s, m)) <==>
            !(OwnedIn(d, "Deployment", p) || OwnedIn(s, "StatefulSet", p) || OwnedIn(m, "DaemonSet", p))
  {
    OwnedInKeys(d, "Deployment", p);
    OwnedInKeys(s, "StatefulSet", p);
    OwnedInKeys(m, "DaemonSet", p);
  }

  lemma ContainerLimits(before: seq<Container>, p: Pod)
    ensures SumReal(before + p.containers, CpuLimitOf) == SumReal(before, CpuLimitOf) + PodReq(PodLimits(p)).cpu
    ensures SumInt(before + p.containers, MemoryLimitOf) == SumInt(before, MemoryLimitOf) + PodReq(PodLimits(p)).mem
  {
    SumRealConcat(before, p.containers, CpuLimitOf);
    SumIntConcat(before, p.containers, MemoryLimitOf);
    PodLimitsReq(p);
  }

  lemma {:induction false} LeftoverLimits(pods: seq<Pod>, d: seq<Workload>, s: seq<Workload>, m: seq<Workload>)
    ensures var other := OtherContainers(pods, d, s, m);
            Leftover(LimitsOf(pods), LongRunningKeys(d, s, m)) ==
            Req(SumReal(other, CpuLimitOf), SumInt(other, MemoryLimitOf))
  {
    if pods != [] {
      var p, last := pods[..|pods| - 1], pods[|pods| - 1];
      LimitsSnoc(pods);
      LeftoverLimits(p, d, s, m);
      LeftoverIff(last, d, s, m);
      ContainerLimits(OtherContainers(p, d, s, m), last);
    }
  }

  lemma {:induction false} AllLimits(pods: seq<Pod>)
    ensures var all := AllContainers(pods);
            Requested(LimitsOf(pods)) == Req(SumReal(all, CpuLimitOf), SumInt(all, MemoryLimitOf))
  {
    if pods != [] {
      var p, last := pods[..|pods| - 1], pods[|pods| - 1];
      LimitsSnoc(pods);
      AllLimits(p);
      ContainerLimits(AllContainers(p), last);
    }
  }

  lemma SplitLimits(pods: seq<Pod>, d: seq<Workload>, s: seq<Workload>, m: seq<Workload>)
    ensures var limits := LimitsOf(pods);
            Requested(limits) ==
            Plus(Plus(Plus(RequestedBy(limits, WorkloadKeys(d, DEPLOYMENT)), RequestedBy(limits, WorkloadKeys(s, STATEFUL_SET))),
                      RequestedBy(limits, WorkloadKeys(m, DAEMON_SET))),
                 Leftover(limits, LongRunningKeys(d, s, m)))
  {
    KeysDisjoint(d, s, m, []);
    FourSetsAdd(LimitsOf(pods), WorkloadKeys(d, DEPLOYMENT), WorkloadKeys(s, STATEFUL_SET), WorkloadKeys(m, DAEMON_SET),
                JobKeys([]));
    GroupedOrLeftover(LimitsOf(pods), LongRunningKeys(d, s, m));
  }

  function LimitsSet(cs: seq<Container>): (real, int) {
    (SumReal(cs, (c: Container) => c.cpuLimit), SumInt(cs, (c: Container) => c.memoryLimit))
  }

  lemma LimitsSetIs(cs: seq<Container>)
    ensures LimitsSet(cs) == (SumReal(cs, CpuLimitOf), SumInt(cs, MemoryLimitOf))
  {
    SumRealSame(cs, (c: Container) => c.cpuLimit, CpuLimitOf);
    SumIntSame(cs, (c: Container) => c.memoryLimit, MemoryLimitOf);
  }

  /** With distinct names per kind, the limits that Deployments, StatefulSets and DaemonSets
      report, and those of the containers they do not own, are those of all containers. */
  lemma LimitConservation(
    pods: seq<Pod>, d: seq<Workload>, s: seq<Workload>, m: seq<Workload>,
    d': seq<Workload>, s': seq<Workload>, m': seq<Workload>)
    requires Aggregated(d', d, DEPLOYMENT, pods) && DistinctWorkloads(d)
    requires Aggregated(s', s, STATEFUL_SET, pods) && DistinctWorkloads(s)
    requires Aggregated(m', m, DAEMON_SET, pods) && DistinctWorkloads(m)
    ensures var others, all := LimitsSet(OtherContainers(pods, d, s, m)), LimitsSet(AllContainers(pods));
            var x, y, z := LimitsReported(d'), LimitsReported(s'), LimitsReported(m');
            x.0 + y.0 + z.0 + others.0 == all.0 && x.1 + y.1 + z.1 + others.1 == all.1
  {
    KindLimits(d', d, DEPLOYMENT, pods);
    KindLimits(s', s, STATEFUL_SET, pods);
    KindLimits(m', m, DAEMON_SET, pods);
    ReportedLimits(d');
    ReportedLimits(s');
    ReportedLimits(m');
    SplitLimits(pods, d, s, m);
    LeftoverLimits(pods, d, s, m);
    AllLimits(pods);
    LimitsSetIs(OtherContainers(pods, d, s, m));
    LimitsSetIs(AllContainers(pods));
  }
}
