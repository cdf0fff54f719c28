/** Workload totals (internal/enrichment/aggregation.go) and their conservation: what the
    workloads report, plus an explicit leftover, is what the pods request. */
module Aggregation {
  import opened Prelude
  import opened Model

  const DEPLOYMENT := "Deployment"
  const STATEFUL_SET := "StatefulSet"
  const DAEMON_SET := "DaemonSet"
  const SUCCEEDED := "Succeeded"
  const FAILED := "Failed"

  datatype Key = Key(namespace: string, kind: string, name: string)

  predicate IsBatchKind(kind: string) {
    kind == JOB_KIND || kind == CRON_JOB_KIND
  }

  /** The pod takes part in the grouping: it has an owner, and it has not finished unless
      its owner is a batch workload. */
  predicate Grouped(p: Pod) {
    p.ownerKind != "" && (IsBatchKind(p.ownerKind) || (p.phase != SUCCEEDED && p.phase != FAILED))
  }

  function KeyOf(p: Pod): Key {
    Key(p.namespace, p.ownerKind, p.ownerName)
  }

  /** The pods of one workload, in snapshot order. */
  function OwnedPods(pods: seq<Pod>, key: Key): seq<Pod> {
    if pods == [] then []
    else
      var last := pods[|pods| - 1];
      var before := OwnedPods(pods[..|pods| - 1], key);
      if Grouped(last) && KeyOf(last) == key then before + [last] else before
  }

  function CpuRequestOf(c: Container): real { c.cpuRequest }
  function MemoryRequestOf(c: Container): int { c.memoryRequest }
  function CpuLimitOf(c: Container): real { c.cpuLimit }
  function MemoryLimitOf(c: Container): int { c.memoryLimit }
  function CpuUsageOf(c: Container): real { c.cpuUsage.Or(0.0) }
  function MemoryUsageOf(c: Container): int { c.memoryUsage.Or(0) }

  function PodCpuRequest(p: Pod): real { SumReal(p.containers, CpuRequestOf) }
  function PodMemoryRequest(p: Pod): int { SumInt(p.containers, MemoryRequestOf) }
  function PodCpuLimit(p: Pod): real { SumReal(p.containers, CpuLimitOf) }
  function PodMemoryLimit(p: Pod): int { SumInt(p.containers, MemoryLimitOf) }
  function PodCpuUsage(p: Pod): real { SumReal(p.containers, CpuUsageOf) }
  function PodMemoryUsage(p: Pod): int { SumInt(p.containers, MemoryUsageOf) }

  predicate ContainersHaveUsage(cs: seq<Container>) {
    exists c :: c in cs && (c.cpuUsage.Some? || c.memoryUsage.Some?)
  }

  predicate PodsHaveUsage(pods: seq<Pod>) {
    exists p :: p in pods && ContainersHaveUsage(p.containers)
  }

  datatype Totals = Totals(
    cpuRequest: real, memoryRequest: int, cpuLimit: real, memoryLimit: int,
    cpuUsage: Option<real>, memoryUsage: Option<int>)

  function TotalsOf(pods: seq<Pod>): Totals {
    Totals(
      SumReal(pods, PodCpuRequest), SumInt(pods, PodMemoryRequest),
      SumReal(pods, PodCpuLimit), SumInt(pods, PodMemoryLimit),
      if PodsHaveUsage(pods) then Some(SumReal(pods, PodCpuUsage)) else None,
      if PodsHaveUsage(pods) then Some(SumInt(pods, PodMemoryUsage)) else None)
  }

  /** The accumulators of sumPodResources. */
  datatype Acc = Acc(cpuReq: real, memReq: int, cpuLim: real, memLim: int, cpuUse: real, memUse: int, hasUsage: bool)

  function ContainersAcc(cs: seq<Container>): Acc {
    Acc(SumReal(cs, CpuRequestOf), SumInt(cs, MemoryRequestOf), SumReal(cs, CpuLimitOf),
        SumInt(cs, MemoryLimitOf), SumReal(cs, CpuUsageOf), SumInt(cs, MemoryUsageOf), ContainersHaveUsage(cs))
  }

  function PodsAcc(pods: seq<Pod>): Acc {
    Acc(SumReal(pods, PodCpuRequest), SumInt(pods, PodMemoryRequest), SumReal(pods, PodCpuLimit),
        SumInt(pods, PodMemoryLimit), SumReal(pods, PodCpuUsage), SumInt(pods, PodMemoryUsage), PodsHaveUsage(pods))
  }

  function AddAcc(a: Acc, b: Acc): Acc {
    Acc(a.cpuReq + b.cpuReq, a.memReq + b.memReq, a.cpuLim + b.cpuLim, a.memLim + b.memLim,
        a.cpuUse + b.cpuUse, a.memUse + b.memUse, a.hasUsage || b.hasUsage)
  }

  function AddContainer(a: Acc, c: Container): Acc {
    Acc(a.cpuReq + c.cpuRequest, a.memReq + c.memoryRequest, a.cpuLim + c.cpuLimit, a.memLim + c.memoryLimit,
        a.cpuUse + c.cpuUsage.Or(0.0), a.memUse + c.memoryUsage.Or(0),
        a.hasUsage || c.cpuUsage.Some? || c.memoryUsage.Some?)
  }

  lemma ContainersAccStep(cs: seq<Container>, j: nat)
    requires j < |cs|
    ensures ContainersAcc(cs[..j + 1]) == AddContainer(ContainersAcc(cs[..j]), cs[j])
  {
    assert cs[..j + 1] == cs[..j] + [cs[j]];
    RealStep(cs, j, CpuRequestOf);
    IntStep(cs, j, MemoryRequestOf);
    RealStep(cs, j, CpuLimitOf);
    IntStep(cs, j, MemoryLimitOf);
    RealStep(cs, j, CpuUsageOf);
    IntStep(cs, j, MemoryUsageOf);
  }

  lemma PodsAccStep(pods: seq<Pod>, i: nat)
    requires i < |pods|
    ensures PodsAcc(pods[..i + 1]) == AddAcc(PodsAcc(pods[..i]), ContainersAcc(pods[i].containers))
  {
    assert pods[..i + 1] == pods[..i] + [pods[i]];
    RealStep(pods, i, PodCpuRequest);
    IntStep(pods, i, PodMemoryRequest);
    RealStep(pods, i, PodCpuLimit);
    IntStep(pods, i, PodMemoryLimit);
    RealStep(pods, i, PodCpuUsage);
    IntStep(pods, i, PodMemoryUsage);
  }

  /** The inner loop of sumPodResources: the containers of one pod. */
  method AddPod(before: Acc, cs: seq<Container>) returns (acc: Acc)
    ensures acc == AddAcc(before, ContainersAcc(cs))
  {
    acc := before;
    for j := 0 to |cs|
      invariant acc == AddAcc(before, ContainersAcc(cs[..j]))
    {
      var c := cs[j];
      ContainersAccStep(cs, j);
      acc := acc.(cpuReq := acc.cpuReq + c.cpuRequest, memReq := acc.memReq + c.memoryRequest,
                  cpuLim := acc.cpuLim + c.cpuLimit, memLim := acc.memLim + c.memoryLimit);
      if c.cpuUsage.Some? {
        acc := acc.(cpuUse := acc.cpuUse + c.cpuUsage.value, hasUsage := true);
      }
      if c.memoryUsage.Some? {
        acc := acc.(memUse := acc.memUse + c.memoryUsage.value, hasUsage := true);
      }
    }
    assert cs[..|cs|] == cs;
  }

  /** aggregation.go, sumPodResources: usage is reported only if some container has it. */
  method SumPodResources(pods: seq<Pod>) returns (t: Totals)
    ensures t == TotalsOf(pods)
  {
    var acc := Acc(0.0, 0, 0.0, 0, 0.0, 0, false);
    for i := 0 to |pods|
      invariant acc == PodsAcc(pods[..i])
    {
      PodsAccStep(pods, i);
      acc := AddPod(acc, pods[i].containers);
    }
    assert pods[..|pods|] == pods;
    t := Totals(acc.cpuReq, acc.memReq, acc.cpuLim, acc.memLim,
      if acc.hasUsage then Some(acc.cpuUse) else None, if acc.hasUsage then Some(acc.memUse) else None);
  }

  function SpecCpu(c: ContainerSpec): real { c.cpuRequest }
  function SpecMemory(c: ContainerSpec): int { c.memoryRequest }

  /** aggregation.go, sumContainerSpecRequests. */
  method SumContainerSpecRequests(specs: seq<ContainerSpec>) returns (cpu: real, mem: int)
    ensures cpu == SumReal(specs, SpecCpu) && mem == SumInt(specs, SpecMemory)
  {
    cpu, mem := 0.0, 0;
    for i := 0 to |specs|
      invariant cpu == SumReal(specs[..i], SpecCpu) && mem == SumInt(specs[..i], SpecMemory)
    {
      RealStep(specs, i, SpecCpu);
      IntStep(specs, i, SpecMemory);
      cpu := cpu + specs[i].cpuRequest;
      mem := mem + specs[i].memoryRequest;
    }
    assert specs[..|specs|] == specs;
  }

  /** A missing key of a Go map reads as the empty list. */
  function PodsAt(groups: map<Key, seq<Pod>>, key: Key): seq<Pod> {
    if key in groups then groups[key] else []
  }

  /** The grouping loop of aggregation.go, Enrich. */
  method GroupPods(pods: seq<Pod>) returns (groups: map<Key, seq<Pod>>)
    ensures forall key :: PodsAt(groups, key) == OwnedPods(pods, key)
  {
    groups := map[];
    for i := 0 to |pods|
      invariant forall key :: PodsAt(groups, key) == OwnedPods(pods[..i], key)
    {
      var p := pods[i];
      assert pods[..i + 1][..i] == pods[..i];
      if p.ownerKind == "" {
        continue;
      }
      if !IsBatchKind(p.ownerKind) && (p.phase == SUCCEEDED || p.phase == FAILED) {
        continue;
      }
      var key := KeyOf(p);
      ghost var before := groups;
      groups := groups[key := PodsAt(groups, key) + [p]];
      assert forall k :: k != key ==> PodsAt(groups, k) == PodsAt(before, k);
    }
    assert pods[..|pods|] == pods;
  }

  function WorkloadWithTotals(w: Workload, t: Totals): Workload {
    w.(cpuRequest := t.cpuRequest, memoryRequest := t.memoryRequest,
       cpuLimit := t.cpuLimit, memoryLimit := t.memoryLimit,
       cpuUsage := t.cpuUsage, memoryUsage := t.memoryUsage)
  }

  /** A Deployment, StatefulSet or DaemonSet with the totals of its pods. */
  function AggregatedWorkload(w: Workload, kind: string, pods: seq<Pod>): Workload {
    WorkloadWithTotals(w, TotalsOf(OwnedPods(pods, Key(w.namespace, kind, w.name))))
  }

  /** The Job's template is used when its pods request nothing. */
  predicate FallsBack(j: Job, pods: seq<Pod>) {
    var t := TotalsOf(OwnedPods(pods, Key(j.namespace, JOB_KIND, j.name)));
    t.cpuRequest == 0.0 && t.memoryRequest == 0 && |j.specs| > 0
  }

  function AggregatedJob(j: Job, pods: seq<Pod>): Job {
    var t := TotalsOf(OwnedPods(pods, Key(j.namespace, JOB_KIND, j.name)));
    j.(cpuRequest := if FallsBack(j, pods) then SumReal(j.specs, SpecCpu) else t.cpuRequest,
       memoryRequest := if FallsBack(j, pods) then SumInt(j.specs, SpecMemory) else t.memoryRequest,
       cpuUsage := t.cpuUsage, memoryUsage := t.memoryUsage)
  }

  ghost predicate Aggregated(after: seq<Workload>, before: seq<Workload>, kind: string, pods: seq<Pod>) {
    && |after| == |before|
    && forall i :: 0 <= i < |after| ==> after[i] == AggregatedWorkload(before[i], kind, pods)
  }

  ghost predicate AggregatedJobs(after: seq<Job>, before: seq<Job>, pods: seq<Pod>) {
    && |after| == |before|
    && forall i :: 0 <= i < |after| ==> after[i] == AggregatedJob(before[i], pods)
  }

  /** The loop of Enrich over the workloads of one kind. */
  method AggregateKind(ws: seq<Workload>, kind: string, groups: map<Key, seq<Pod>>, ghost pods: seq<Pod>)
    returns (r: seq<Workload>)
    requires forall key :: PodsAt(groups, key) == OwnedPods(pods, key)
    ensures Aggregated(r, ws, kind, pods)
  {
    r := ws;
    for i := 0 to |ws|
      invariant |r| == |ws|
      invariant forall k :: 0 <= k < i ==> r[k] == AggregatedWorkload(ws[k], kind, pods)
      invariant forall k :: i <= k < |ws| ==> r[k] == ws[k]
    {
      var t := SumPodResources(PodsAt(groups, Key(r[i].namespace, kind, r[i].name)));
      r := r[i := WorkloadWithTotals(r[i], t)];
    }
  }

  /** The loop of Enrich over the Jobs, with the fallback to the pod template. */
  method AggregateJobList(jobs: seq<Job>, groups: map<Key, seq<Pod>>, ghost pods: seq<Pod>)
    returns (r: seq<Job>)
    requires forall key :: PodsAt(groups, key) == OwnedPods(pods, key)
    ensures AggregatedJobs(r, jobs, pods)
  {
    r := jobs;
    for i := 0 to |jobs|
      invariant |r| == |jobs|
      invariant forall k :: 0 <= k < i ==> r[k] == AggregatedJob(jobs[k], pods)
      invariant forall k :: i <= k < |jobs| ==> r[k] == jobs[k]
    {
      var j := r[i];
      var t := SumPodResources(PodsAt(groups, Key(j.namespace, JOB_KIND, j.name)));
      var cpu, mem := t.cpuRequest, t.memoryRequest;
      if cpu == 0.0 && mem == 0 && |j.specs| > 0 {
        cpu, mem := SumContainerSpecRequests(j.specs);
      }
      r := r[i := j.(cpuRequest := cpu, memoryRequest := mem, cpuUsage := t.cpuUsage, memoryUsage := t.memoryUsage)];
    }
  }

  /** aggregation.go, Enrich. */
  method Enrich(snap: ClusterSnapshot)
    modifies snap`deployments, snap`statefulSets, snap`daemonSets, snap`jobs
    ensures Aggregated(snap.deployments, old(snap.deployments), DEPLOYMENT, snap.pods)
    ensures Aggregated(snap.statefulSets, old(snap.statefulSets), STATEFUL_SET, snap.pods)
    ensures Aggregated(snap.daemonSets, old(snap.daemonSets), DAEMON_SET, snap.pods)
    ensures AggregatedJobs(snap.jobs, old(snap.jobs), snap.pods)
  {
    var groups := GroupPods(snap.pods);
    snap.deployments := AggregateKind(snap.deployments, DEPLOYMENT, groups, snap.pods);
    snap.statefulSets := AggregateKind(snap.statefulSets, STATEFUL_SET, groups, snap.pods);
    snap.daemonSets := AggregateKind(snap.daemonSets, DAEMON_SET, groups, snap.pods);
    snap.jobs := AggregateJobList(snap.jobs, groups, snap.pods);
  }
}
