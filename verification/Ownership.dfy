/** The bounded owner walk (internal/enrichment/ownership.go). */
module Ownership {
  import opened Prelude
  import opened Model
  import opened Index

  const MAX_OWNER_DEPTH := 10
  const REPLICA_SET := "ReplicaSet"
  const NODE := "Node"

  datatype Owner = Owner(kind: string, name: string, uid: string)

  datatype Tables = Tables(
    replicaSets: map<string, ReplicaSet>, jobs: map<string, Job>, cronJobs: map<string, CronJob>)

  function OwnerOf(p: Pod): Owner {
    Owner(p.ownerKind, p.ownerName, p.ownerUid)
  }

  function WithOwner(p: Pod, o: Owner): Pod {
    p.(ownerKind := o.kind, ownerName := o.name, ownerUid := o.uid)
  }

  /** One step up the ownership chain, if the owner is a known ReplicaSet or Job that is
      itself owned. A CronJob that is not in the table keeps the Job's UID. */
  function Hop(t: Tables, namespace: string, o: Owner): Option<Owner> {
    var key := JoinKey(namespace, o.name);
    if o.kind == REPLICA_SET then
      if key in t.replicaSets && t.replicaSets[key].ownerKind != "" then
        var rs := t.replicaSets[key];
        Some(Owner(rs.ownerKind, rs.ownerName, rs.ownerUid))
      else None
    else if o.kind == JOB_KIND then
      if key in t.jobs && t.jobs[key].ownerCronJob != "" then
        var cronJob := t.jobs[key].ownerCronJob;
        var cronKey := JoinKey(namespace, cronJob);
        Some(Owner(CRON_JOB_KIND, cronJob, if cronKey in t.cronJobs then t.cronJobs[cronKey].uid else o.uid))
      else None
    else None
  }

  /** At most `n` hops: the chain is cut after `n`, or stops at its end. */
  function Walk(t: Tables, namespace: string, o: Owner, n: nat): Owner
    decreases n
  {
    if n == 0 then o
    else
      match Hop(t, namespace, o)
      case None => o
      case Some(up) => Walk(t, namespace, up, n - 1)
  }

  /** The owner has nothing above it. */
  predicate Terminal(t: Tables, namespace: string, o: Owner) {
    Hop(t, namespace, o).None?
  }

  function Resolved(t: Tables, p: Pod): Pod {
    WithOwner(p, Walk(t, p.namespace, OwnerOf(p), MAX_OWNER_DEPTH))
  }

  /** ownership.go, resolveOwner: the bounded loop over kind, name and uid. */
  method ResolveOwner(p: Pod, t: Tables) returns (r: Pod)
    ensures r == Resolved(t, p)
  {
    if p.ownerKind == "" || p.ownerKind == NODE {
      return p;
    }
    var kind, name, uid, ns := p.ownerKind, p.ownerName, p.ownerUid, p.namespace;
    var depth := 0;
    while depth < MAX_OWNER_DEPTH
      invariant 0 <= depth <= MAX_OWNER_DEPTH
      invariant Walk(t, ns, OwnerOf(p), MAX_OWNER_DEPTH)
             == Walk(t, ns, Owner(kind, name, uid), MAX_OWNER_DEPTH - depth)
    {
      var resolved := false;
      ghost var before := Owner(kind, name, uid);
      var key := JoinKey(ns, name);
      if kind == REPLICA_SET {
        if key in t.replicaSets && t.replicaSets[key].ownerKind != "" {
          var rs := t.replicaSets[key];
          kind, name, uid := rs.ownerKind, rs.ownerName, rs.ownerUid;
          resolved := true;
        }
      } else if kind == JOB_KIND {
        if key in t.jobs && t.jobs[key].ownerCronJob != "" {
          var job := t.jobs[key];
          kind, name := CRON_JOB_KIND, job.ownerCronJob;
          var cronKey := JoinKey(ns, job.ownerCronJob);
          if cronKey in t.cronJobs {
            uid := t.cronJobs[cronKey].uid;
          }
          resolved := true;
        }
      }
      assert resolved ==> Hop(t, ns, before) == Some(Owner(kind, name, uid));
      assert !resolved ==> Hop(t, ns, before) == None && before == Owner(kind, name, uid);
      if !resolved {
        break;
      }
      depth := depth + 1;
    }
    return p.(ownerKind := kind, ownerName := name, ownerUid := uid);
  }

  function ReplicaSetKey(rs: ReplicaSet): string { JoinKey(rs.namespace, rs.name) }
  function ReplicaSetNamespace(rs: ReplicaSet): string { rs.namespace }
  function ReplicaSetName(rs: ReplicaSet): string { rs.name }
  function JobKey(j: Job): string { JoinKey(j.namespace, j.name) }
  function CronJobKey(c: CronJob): string { JoinKey(c.namespace, c.name) }

  /** The tables are the three index builders' results. */
  ghost predicate TablesOf(t: Tables, replicaSets: seq<ReplicaSet>, jobs: seq<Job>, cronJobs: seq<CronJob>) {
    && Indexes(t.replicaSets, replicaSets, ReplicaSetKey)
    && Indexes(t.jobs, jobs, JobKey)
    && Indexes(t.cronJobs, cronJobs, CronJobKey)
  }

  /** ownership.go, Enrich: every pod's owner fields are resolved, nothing else changes. */
  method Enrich(snap: ClusterSnapshot, replicaSets: seq<ReplicaSet>) returns (ghost t: Tables)
    modifies snap`pods
    ensures TablesOf(t, replicaSets, snap.jobs, snap.cronJobs)
    ensures |snap.pods| == |old(snap.pods)|
    ensures forall i :: 0 <= i < |snap.pods| ==> snap.pods[i] == Resolved(t, old(snap.pods)[i])
  {
    var rsMap := BuildIndex(replicaSets, ReplicaSetKey);
    var jobMap := BuildIndex(snap.jobs, JobKey);
    var cronJobMap := BuildIndex(snap.cronJobs, CronJobKey);
    var tables := Tables(rsMap, jobMap, cronJobMap);
    t := tables;
    for i := 0 to |snap.pods|
      invariant |snap.pods| == |old(snap.pods)|
      invariant forall j :: 0 <= j < i ==> snap.pods[j] == Resolved(t, old(snap.pods)[j])
      invariant forall j :: i <= j < |snap.pods| ==> snap.pods[j] == old(snap.pods)[j]
    {
      var r := ResolveOwner(snap.pods[i], tables);
      snap.pods := snap.pods[i := r];
    }
  }

  // ---- Walks ----

  lemma {:induction false} WalkCompose(t: Tables, ns: string, o: Owner, m: nat, n: nat)
    ensures Walk(t, ns, Walk(t, ns, o, m), n) == Walk(t, ns, o, m + n)
    decreases m
  {
    if m > 0 {
      match Hop(t, ns, o) {
        case None =>
        case Some(up) => WalkCompose(t, ns, up, m - 1, n);
      }
    }
  }

  /** Once the end of the chain is reached the walk stays there: `n` hops are
      min(n, chain length) hops. */
  lemma {:induction false} WalkStopsAtEnd(t: Tables, ns: string, o: Owner, k: nat, n: nat)
    requires k <= n && Terminal(t, ns, Walk(t, ns, o, k))
    ensures Walk(t, ns, o, n) == Walk(t, ns, o, k)
  {
    WalkCompose(t, ns, o, k, n - k);
  }

  /** While the end is not reached, every hop of the walk is a real one. */
  lemma {:induction false} WalkHops(t: Tables, ns: string, o: Owner, n: nat)
    requires !Terminal(t, ns, Walk(t, ns, o, n))
    ensures Hop(t, ns, Walk(t, ns, o, n)) == Some(Walk(t, ns, o, n + 1))
  {
    WalkCompose(t, ns, o, n, 1);
  }

  function Passes(t: Tables, p: Pod, n: nat): Pod
    decreases n
  {
    if n == 0 then p else Passes(t, Resolved(t, p), n - 1)
  }

  /** Repeating the enricher n times walks at most 10n hops and touches only the owner. */
  lemma {:induction false} RepeatedPasses(t: Tables, p: Pod, n: nat)
    ensures Passes(t, p, n) == WithOwner(p, Walk(t, p.namespace, OwnerOf(p), MAX_OWNER_DEPTH * n))
    decreases n
  {
    if n > 0 {
      RepeatedPasses(t, Resolved(t, p), n - 1);
      WalkCompose(t, p.namespace, OwnerOf(p), MAX_OWNER_DEPTH, MAX_OWNER_DEPTH * (n - 1));
    }
  }

  // ---- Termination of chains without ReplicaSet cycles ----

  predicate OwnedReplicaSet(t: Tables, ns: string, o: Owner) {
    o.kind == REPLICA_SET && !Terminal(t, ns, o)
  }

  /** No ReplicaSet of the namespace is above itself. */
  ghost predicate Acyclic(t: Tables, ns: string) {
    forall o: Owner, k: nat {:trigger Walk(t, ns, o, k)} :: k > 0 && OwnedReplicaSet(t, ns, o) ==>
      !(Walk(t, ns, o, k).kind == REPLICA_SET && Walk(t, ns, o, k).name == o.name)
  }

  /** The owned ReplicaSets met on the way up have names in `names`. */
  ghost predicate MeetsOnly(t: Tables, ns: string, o: Owner, names: set<string>) {
    forall k: nat {:trigger Walk(t, ns, o, k)} ::
      OwnedReplicaSet(t, ns, Walk(t, ns, o, k)) ==> Walk(t, ns, o, k).name in names
  }

  /** Pigeonhole: each ReplicaSet hop uses up a name, and one more hop leaves a Job. */
  lemma {:induction false} AcyclicWalkEnds(t: Tables, ns: string, o: Owner, names: set<string>, n: nat)
    requires Acyclic(t, ns) && MeetsOnly(t, ns, o, names)
    requires n > |names|
    ensures Terminal(t, ns, Walk(t, ns, o, n))
    decreases n
  {
    assert Walk(t, ns, o, 0) == o;
    match Hop(t, ns, o) {
      case None =>
      case Some(up) =>
        if o.kind == REPLICA_SET {
          assert o.name in names;
          assert |names - {o.name}| == |names| - 1;
          forall k: nat | OwnedReplicaSet(t, ns, Walk(t, ns, up, k))
            ensures Walk(t, ns, up, k).name in names - {o.name}
          {
            assert Walk(t, ns, up, k) == Walk(t, ns, o, k + 1);
          }
          AcyclicWalkEnds(t, ns, up, names - {o.name}, n - 1);
        } else {
          assert up.kind == CRON_JOB_KIND;
          assert Terminal(t, ns, up);
        }
    }
  }

  /** The names of the ReplicaSets of a namespace. */
  function ReplicaSetNames(replicaSets: seq<ReplicaSet>, ns: string): set<string> {
    set rs | rs in replicaSets && rs.namespace == ns :: rs.name
  }

  lemma {:induction false} ScanNamesMember(replicaSets: seq<ReplicaSet>, ns: string, name: string)
    ensures FindLastNamed(replicaSets, ReplicaSetNamespace, ReplicaSetName, ns, name).Some? ==>
              name in ReplicaSetNames(replicaSets, ns)
  {
    if replicaSets != [] {
      ScanNamesMember(replicaSets[..|replicaSets| - 1], ns, name);
      assert replicaSets == replicaSets[..|replicaSets| - 1] + [replicaSets[|replicaSets| - 1]];
      assert replicaSets[|replicaSets| - 1] in replicaSets;
    }
  }

  lemma OwnedNamesKnown(t: Tables, replicaSets: seq<ReplicaSet>, jobs: seq<Job>, cronJobs: seq<CronJob>,
    ns: string, o: Owner)
    requires TablesOf(t, replicaSets, jobs, cronJobs)
    requires '/' !in ns && forall i :: 0 <= i < |replicaSets| ==> '/' !in replicaSets[i].namespace
    requires OwnedReplicaSet(t, ns, o)
    ensures o.name in ReplicaSetNames(replicaSets, ns)
  {
    assert JoinKey(ns, o.name) in t.replicaSets;
    forall i | 0 <= i < |replicaSets|
      ensures !Collide('/', replicaSets[i].namespace, replicaSets[i].name, ns, o.name)
    {
      if Collide('/', replicaSets[i].namespace, replicaSets[i].name, ns, o.name) {
        CollisionNeedsSeparator('/', replicaSets[i].namespace, replicaSets[i].name, ns, o.name);
        assert false;
      }
    }
    JoinedScan(replicaSets, ReplicaSetKey, ReplicaSetNamespace, ReplicaSetName, ns, o.name);
    ScanNamesMember(replicaSets, ns, o.name);
  }

  /** In a namespace with at most nine ReplicaSet names and no ReplicaSet cycle, one pass
      reaches the chain's terminal owner, further passes change nothing, and no other
      field of the pod changes. */
  lemma {:induction false} ResolvesToTerminalOwner(
    t: Tables, replicaSets: seq<ReplicaSet>, jobs: seq<Job>, cronJobs: seq<CronJob>, p: Pod)
    requires TablesOf(t, replicaSets, jobs, cronJobs)
    requires '/' !in p.namespace && forall i :: 0 <= i < |replicaSets| ==> '/' !in replicaSets[i].namespace
    requires Acyclic(t, p.namespace)
    requires |ReplicaSetNames(replicaSets, p.namespace)| <= 9
    ensures Terminal(t, p.namespace, OwnerOf(Resolved(t, p)))
    ensures forall n: nat :: n >= MAX_OWNER_DEPTH ==>
              Walk(t, p.namespace, OwnerOf(p), n) == OwnerOf(Resolved(t, p))
    ensures Resolved(t, Resolved(t, p)) == Resolved(t, p)
    ensures WithOwner(Resolved(t, p), OwnerOf(p)) == p
  {
    var ns, o, names := p.namespace, OwnerOf(p), ReplicaSetNames(replicaSets, p.namespace);
    forall k: nat | OwnedReplicaSet(t, ns, Walk(t, ns, o, k))
      ensures Walk(t, ns, o, k).name in names
    {
      OwnedNamesKnown(t, replicaSets, jobs, cronJobs, ns, Walk(t, ns, o, k));
    }
    AcyclicWalkEnds(t, ns, o, names, MAX_OWNER_DEPTH);
    forall n: nat | n >= MAX_OWNER_DEPTH
      ensures Walk(t, ns, o, n) == Walk(t, ns, o, MAX_OWNER_DEPTH)
    {
      WalkStopsAtEnd(t, ns, o, MAX_OWNER_DEPTH, n);
    }
    WalkCompose(t, ns, o, MAX_OWNER_DEPTH, MAX_OWNER_DEPTH);
  }

  // ---- The chain itself ----

  /** `c` is the whole ownership chain from `o` up: each member owned by the next, the last by
      nothing known. A cyclic graph has none. */
  ghost predicate IsChain(t: Tables, ns: string, o: Owner, c: seq<Owner>) {
    && c != [] && c[0] == o
    && (forall i :: 0 <= i < |c| - 1 ==> Hop(t, ns, c[i]) == Some(c[i + 1]))
    && Terminal(t, ns, c[|c| - 1])
  }

  /** A walk follows the chain and stays at its end. */
  lemma {:induction false} WalkAlongChain(t: Tables, ns: string, o: Owner, c: seq<Owner>, n: nat)
    requires IsChain(t, ns, o, c)
    ensures Walk(t, ns, o, n) == c[if n < |c| then n else |c| - 1]
    decreases n
  {
    if n > 0 && |c| > 1 {
      assert Hop(t, ns, c[0]) == Some(c[1]);
      var rest := c[1..];
      assert forall i :: 0 <= i < |rest| ==> rest[i] == c[i + 1];
      WalkAlongChain(t, ns, c[1], rest, n - 1);
    }
  }

  lemma {:induction false} ChainOfWalk(t: Tables, ns: string, o: Owner, n: nat) returns (c: seq<Owner>)
    requires Terminal(t, ns, Walk(t, ns, o, n))
    ensures IsChain(t, ns, o, c) && |c| <= n + 1
    decreases n
  {
    match Hop(t, ns, o) {
      case None => c := [o];
      case Some(up) =>
        var rest := ChainOfWalk(t, ns, up, n - 1);
        c := [o] + rest;
        assert forall i :: 0 < i < |c| - 1 ==> c[i] == rest[i - 1] && c[i + 1] == rest[i];
    }
  }

  /** Exactly when one pass reaches the top: the pod's ownership chain ends, with at most ten
      links. Then the pod gets the chain's last owner. */
  lemma {:induction false} ResolvesIff(t: Tables, p: Pod)
    ensures Terminal(t, p.namespace, OwnerOf(Resolved(t, p)))
            <==> exists c :: IsChain(t, p.namespace, OwnerOf(p), c) && |c| - 1 <= MAX_OWNER_DEPTH
    ensures forall c :: IsChain(t, p.namespace, OwnerOf(p), c) ==>
              OwnerOf(Resolved(t, p)) == c[if MAX_OWNER_DEPTH < |c| then MAX_OWNER_DEPTH else |c| - 1]
  {
    var ns, o := p.namespace, OwnerOf(p);
    forall c | IsChain(t, ns, o, c)
      ensures Walk(t, ns, o, MAX_OWNER_DEPTH) == c[if MAX_OWNER_DEPTH < |c| then MAX_OWNER_DEPTH else |c| - 1]
    {
      WalkAlongChain(t, ns, o, c, MAX_OWNER_DEPTH);
    }
    if Terminal(t, ns, Walk(t, ns, o, MAX_OWNER_DEPTH)) {
      var c := ChainOfWalk(t, ns, o, MAX_OWNER_DEPTH);
    }
  }
}
