/** Conservation of requests across the grouping and the per-kind totals. */
module Conservation {
  import opened Prelude
  import opened Model
  import opened Aggregation

  /** CPU and memory requests together. */
  datatype Req = Req(cpu: real, mem: int)

  function Plus(a: Req, b: Req): Req {
    Req(a.cpu + b.cpu, a.mem + b.mem)
  }

  predicate AtMost(a: Req, b: Req) {
    a.cpu <= b.cpu && a.mem <= b.mem
  }

  function PodReq(p: Pod): Req {
    Req(PodCpuRequest(p), PodMemoryRequest(p))
  }

  /** What all containers of all pods request. */
  function Requested(pods: seq<Pod>): Req {
    Req(SumReal(pods, PodCpuRequest), SumInt(pods, PodMemoryRequest))
  }

  /** What the grouped pods with a key in `keys` request. */
  function RequestedBy(pods: seq<Pod>, keys: set<Key>): Req {
    if pods == [] then Req(0.0, 0)
    else
      var last := pods[|pods| - 1];
      var before := RequestedBy(pods[..|pods| - 1], keys);
      if Grouped(last) && KeyOf(last) in keys then Plus(before, PodReq(last)) else before
  }

  /** The pod counts toward no listed workload: it is an orphan, it has finished under a
      long-running owner, or its owner (a Node, a CronJob, an unknown kind, a workload that
      is not listed) has no entry. */
  predicate IsLeftover(p: Pod, keys: set<Key>) {
    || p.ownerKind == ""
    || (!IsBatchKind(p.ownerKind) && (p.phase == SUCCEEDED || p.phase == FAILED))
    || Key(p.namespace, p.ownerKind, p.ownerName) !in keys
  }

  function Leftover(pods: seq<Pod>, keys: set<Key>): Req {
    if pods == [] then Req(0.0, 0)
    else
      var last := pods[|pods| - 1];
      var before := Leftover(pods[..|pods| - 1], keys);
      if IsLeftover(last, keys) then Plus(before, PodReq(last)) else before
  }

  function WorkloadKeys(ws: seq<Workload>, kind: string): set<Key> {
    set w | w in ws :: Key(w.namespace, kind, w.name)
  }

  function JobKeys(jobs: seq<Job>): set<Key> {
    set j | j in jobs :: Key(j.namespace, JOB_KIND, j.name)
  }

  ghost predicate DistinctWorkloads(ws: seq<Workload>) {
    forall i, j :: 0 <= i < j < |ws| ==> ws[i].namespace != ws[j].namespace || ws[i].name != ws[j].name
  }

  ghost predicate DistinctJobs(jobs: seq<Job>) {
    forall i, j :: 0 <= i < j < |jobs| ==>
      jobs[i].namespace != jobs[j].namespace || jobs[i].name != jobs[j].name
  }

  /** The totals the workloads of one kind report. */
  function Reported(ws: seq<Workload>): Req {
    if ws == [] then Req(0.0, 0)
    else
      var w := ws[|ws| - 1];
      Plus(Reported(ws[..|ws| - 1]), Req(w.cpuRequest, w.memoryRequest))
  }

  /** The totals reported by the Jobs that do not fall back to their template. */
  function ReportedByJobs(jobs: seq<Job>, pods: seq<Pod>): Req {
    if jobs == [] then Req(0.0, 0)
    else
      var j := jobs[|jobs| - 1];
      var before := ReportedByJobs(jobs[..|jobs| - 1], pods);
      if FallsBack(j, pods) then before else Plus(before, Req(j.cpuRequest, j.memoryRequest))
  }

  lemma {:induction false} OwnedIsRequestedBy(pods: seq<Pod>, key: Key)
    ensures Requested(OwnedPods(pods, key)) == RequestedBy(pods, {key})
  {
    if pods != [] {
      var p, last := pods[..|pods| - 1], pods[|pods| - 1];
      OwnedIsRequestedBy(p, key);
      var owned := OwnedPods(p, key);
      assert (owned + [last])[..|owned|] == owned;
      assert owned + [] == owned;
    }
  }

  lemma {:induction false} DisjointKeysAdd(pods: seq<Pod>, a: set<Key>, b: set<Key>)
    requires a !! b
    ensures RequestedBy(pods, a + b) == Plus(RequestedBy(pods, a), RequestedBy(pods, b))
  {
    if pods != [] {
      DisjointKeysAdd(pods[..|pods| - 1], a, b);
    }
  }

  lemma {:induction false} NoKeysNothing(pods: seq<Pod>)
    ensures RequestedBy(pods, {}) == Req(0.0, 0)
  {
    if pods != [] {
      NoKeysNothing(pods[..|pods| - 1]);
    }
  }

  lemma {:induction false} GroupedOrLeftover(pods: seq<Pod>, keys: set<Key>)
    ensures Plus(RequestedBy(pods, keys), Leftover(pods, keys)) == Requested(pods)
  {
    if pods != [] {
      GroupedOrLeftover(pods[..|pods| - 1], keys);
    }
  }

  function WorkloadKey(w: Workload, kind: string): Key {
    Key(w.namespace, kind, w.name)
  }

  function WorkloadReq(w: Workload): Req {
    Req(w.cpuRequest, w.memoryRequest)
  }

  ghost predicate ReportsPods(after: seq<Workload>, before: seq<Workload>, kind: string, pods: seq<Pod>) {
    && |after| == |before|
    && forall i :: 0 <= i < |after| ==>
         WorkloadReq(after[i]) == RequestedBy(pods, {WorkloadKey(before[i], kind)})
  }

  lemma {:induction false} ReportsSum(after: seq<Workload>, before: seq<Workload>, kind: string, pods: seq<Pod>)
    requires ReportsPods(after, before, kind, pods) && DistinctWorkloads(before)
    ensures Reported(after) == RequestedBy(pods, WorkloadKeys(before, kind))
  {
    if before == [] {
      assert WorkloadKeys(before, kind) == {};
      NoKeysNothing(pods);
    } else {
      var n := |before| - 1;
      ReportsSum(after[..n], before[..n], kind, pods);
      LastKey(before, kind);
      DisjointKeysAdd(pods, WorkloadKeys(before[..n], kind), {WorkloadKey(before[n], kind)});
    }
  }

  /** One kind: its workloads report what its pods request. */
  lemma {:induction false} KindConserved(after: seq<Workload>, before: seq<Workload>, kind: string, pods: seq<Pod>)
    requires Aggregated(after, before, kind, pods) && DistinctWorkloads(before)
    ensures Reported(after) == RequestedBy(pods, WorkloadKeys(before, kind))
  {
    forall i | 0 <= i < |after|
      ensures WorkloadReq(after[i]) == RequestedBy(pods, {WorkloadKey(before[i], kind)})
    {
      LastWorkload(before[i], kind, pods, after[i]);
      OwnedIsRequestedBy(pods, WorkloadKey(before[i], kind));
    }
    ReportsSum(after, before, kind, pods);
  }

  lemma LastWorkload(w: Workload, kind: string, pods: seq<Pod>, w': Workload)
    requires w' == AggregatedWorkload(w, kind, pods)
    ensures WorkloadReq(w') == Requested(OwnedPods(pods, WorkloadKey(w, kind)))
  {
  }

  lemma LastKey(ws: seq<Workload>, kind: string)
    requires ws != [] && DistinctWorkloads(ws)
    ensures var n := |ws| - 1; var key := WorkloadKey(ws[n], kind);
            && key !in WorkloadKeys(ws[..n], kind)
            && WorkloadKeys(ws, kind) == WorkloadKeys(ws[..n], kind) + {key}
  {
    assert ws == ws[..|ws| - 1] + [ws[|ws| - 1]];
  }

  lemma LastJob(j: Job, pods: seq<Pod>, j': Job)
    requires j' == AggregatedJob(j, pods)
    ensures var requested := Requested(OwnedPods(pods, Key(j.namespace, JOB_KIND, j.name)));
            && FallsBack(j', pods) == FallsBack(j, pods)
            && requested == if FallsBack(j, pods) then Req(0.0, 0) else Req(j'.cpuRequest, j'.memoryRequest)
  {
  }

  /** A Job falls back only when its pods request nothing, so leaving those Jobs out
      loses no pod request. */
  lemma {:induction false} JobsConserved(after: seq<Job>, before: seq<Job>, pods: seq<Pod>)
    requires AggregatedJobs(after, before, pods) && DistinctJobs(before)
    ensures ReportedByJobs(after, pods) == RequestedBy(pods, JobKeys(before))
  {
    if before == [] {
      assert JobKeys(before) == {};
      NoKeysNothing(pods);
    } else {
      var n := |before| - 1;
      var j := before[n];
      var key := Key(j.namespace, JOB_KIND, j.name);
      LastJob(j, pods, after[n]);
      JobsConserved(after[..n], before[..n], pods);
      OwnedIsRequestedBy(pods, key);
      assert before == before[..n] + [j];
      assert JobKeys(before) == JobKeys(before[..n]) + {key};
      DisjointKeysAdd(pods, JobKeys(before[..n]), {key});
    }
  }

  function AllKeys(d: seq<Workload>, s: seq<Workload>, m: seq<Workload>, jobs: seq<Job>): set<Key> {
    WorkloadKeys(d, DEPLOYMENT) + WorkloadKeys(s, STATEFUL_SET) + WorkloadKeys(m, DAEMON_SET) + JobKeys(jobs)
  }

  /** With distinct names per kind, the totals of Deployments, StatefulSets, DaemonSets and
      non-fallback Jobs plus the leftover equal the sum over all pod containers. */
  lemma {:induction false} WorkloadConservation(
    pods: seq<Pod>,
    d: seq<Workload>, s: seq<Workload>, m: seq<Workload>, jobs: seq<Job>,
    d': seq<Workload>, s': seq<Workload>, m': seq<Workload>, jobs': seq<Job>)
    requires Aggregated(d', d, DEPLOYMENT, pods) && DistinctWorkloads(d)
    requires Aggregated(s', s, STATEFUL_SET, pods) && DistinctWorkloads(s)
    requires Aggregated(m', m, DAEMON_SET, pods) && DistinctWorkloads(m)
    requires AggregatedJobs(jobs', jobs, pods) && DistinctJobs(jobs)
    ensures Plus(Plus(Plus(Reported(d'), Reported(s')), Plus(Reported(m'), ReportedByJobs(jobs', pods))),
                 Leftover(pods, AllKeys(d, s, m, jobs)))
         == Requested(pods)
  {
    KindConserved(d', d, DEPLOYMENT, pods);
    KindConserved(s', s, STATEFUL_SET, pods);
    KindConserved(m', m, DAEMON_SET, pods);
    JobsConserved(jobs', jobs, pods);
    KeysDisjoint(d, s, m, jobs);
    FourSetsAdd(pods, WorkloadKeys(d, DEPLOYMENT), WorkloadKeys(s, STATEFUL_SET),
                WorkloadKeys(m, DAEMON_SET), JobKeys(jobs));
    GroupedOrLeftover(pods, AllKeys(d, s, m, jobs));
  }

  lemma {:induction false} FourSetsAdd(pods: seq<Pod>, a: set<Key>, b: set<Key>, c: set<Key>, e: set<Key>)
    requires a !! b !! c !! e
    ensures RequestedBy(pods, a + b + c + e)
         == Plus(Plus(RequestedBy(pods, a), RequestedBy(pods, b)), Plus(RequestedBy(pods, c), RequestedBy(pods, e)))
    ensures RequestedBy(pods, a + b + c)
         == Plus(Plus(RequestedBy(pods, a), RequestedBy(pods, b)), RequestedBy(pods, c))
  {
    DisjointKeysAdd(pods, a, b);
    DisjointKeysAdd(pods, a + b, c);
    DisjointKeysAdd(pods, a + b + c, e);
  }

  lemma KeysDisjoint(d: seq<Workload>, s: seq<Workload>, m: seq<Workload>, jobs: seq<Job>)
    ensures WorkloadKeys(d, DEPLOYMENT) !! WorkloadKeys(s, STATEFUL_SET)
         !! WorkloadKeys(m, DAEMON_SET) !! JobKeys(jobs)
  {
    KindsDiffer();
    assert forall k :: k in WorkloadKeys(d, DEPLOYMENT) ==> k.kind == DEPLOYMENT;
    assert forall k :: k in WorkloadKeys(s, STATEFUL_SET) ==> k.kind == STATEFUL_SET;
    assert forall k :: k in WorkloadKeys(m, DAEMON_SET) ==> k.kind == DAEMON_SET;
    assert forall k :: k in JobKeys(jobs) ==> k.kind == JOB_KIND;
  }

  lemma KindsDiffer()
    ensures DEPLOYMENT != STATEFUL_SET && DEPLOYMENT != DAEMON_SET && DEPLOYMENT != JOB_KIND
    ensures STATEFUL_SET != DAEMON_SET && STATEFUL_SET != JOB_KIND && DAEMON_SET != JOB_KIND
  {
    assert DEPLOYMENT[0] == 'D' && STATEFUL_SET[0] == 'S' && DAEMON_SET[0] == 'D' && JOB_KIND[0] == 'J';
    assert DEPLOYMENT[1] == 'e' && DAEMON_SET[1] == 'a';
  }

  ghost predicate NonNegative(pods: seq<Pod>) {
    forall p, c :: p in pods && c in p.containers ==> c.cpuRequest >= 0.0 && c.memoryRequest >= 0
  }

  lemma {:induction false} ContainersNonNegative(cs: seq<Container>)
    requires forall c :: c in cs ==> c.cpuRequest >= 0.0 && c.memoryRequest >= 0
    ensures SumReal(cs, CpuRequestOf) >= 0.0 && SumInt(cs, MemoryRequestOf) >= 0
  {
    if cs != [] {
      ContainersNonNegative(cs[..|cs| - 1]);
    }
  }

  lemma {:induction false} SubsetAtMost(pods: seq<Pod>, keys: set<Key>)
    requires NonNegative(pods)
    ensures AtMost(RequestedBy(pods, keys), Requested(pods))
  {
    if pods != [] {
      var last := pods[|pods| - 1];
      assert last in pods;
      ContainersNonNegative(last.containers);
      SubsetAtMost(pods[..|pods| - 1], keys);
    }
  }

  /** With non-negative requests the three long-running kinds together never report more
      than the cluster summary's requested totals. */
  lemma {:induction false} LongRunningAtMostRequested(
    pods: seq<Pod>,
    d: seq<Workload>, s: seq<Workload>, m: seq<Workload>,
    d': seq<Workload>, s': seq<Workload>, m': seq<Workload>)
    requires Aggregated(d', d, DEPLOYMENT, pods) && DistinctWorkloads(d)
    requires Aggregated(s', s, STATEFUL_SET, pods) && DistinctWorkloads(s)
    requires Aggregated(m', m, DAEMON_SET, pods) && DistinctWorkloads(m)
    requires NonNegative(pods)
    ensures AtMost(Plus(Plus(Reported(d'), Reported(s')), Reported(m')), Requested(pods))
  {
    KindConserved(d', d, DEPLOYMENT, pods);
    KindConserved(s', s, STATEFUL_SET, pods);
    KindConserved(m', m, DAEMON_SET, pods);
    KeysDisjoint(d, s, m, []);
    var a, b, c := WorkloadKeys(d, DEPLOYMENT), WorkloadKeys(s, STATEFUL_SET), WorkloadKeys(m, DAEMON_SET);
    FourSetsAdd(pods, a, b, c, JobKeys([]));
    SubsetAtMost(pods, a + b + c);
  }
}
