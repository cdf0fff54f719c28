/** The resolved owner of a pod (internal/enrichment/ownership.go, resolveOwner), read off the
    lists of ReplicaSets, Jobs and CronJobs. */
module OwnerChains {
  import opened Prelude
  import opened Model
  import opened Index
  import opened Ownership

  /** The lists the enricher indexes. */
  datatype Lists = Lists(replicaSets: seq<ReplicaSet>, jobs: seq<Job>, cronJobs: seq<CronJob>)

  function ReplicaSetPath(r: ReplicaSet): string { r.namespace + "/" + r.name }
  function JobPath(j: Job): string { j.namespace + "/" + j.name }
  function CronJobPath(c: CronJob): string { c.namespace + "/" + c.name }

  /** The last item of the list with this joined namespace and name. */
  ghost predicate IsReplicaSet(l: Lists, ns: string, name: string, i: int) {
    LastKeyed(l.replicaSets, ReplicaSetPath, ns + "/" + name, i)
  }

  ghost predicate IsJob(l: Lists, ns: string, name: string, i: int) {
    LastKeyed(l.jobs, JobPath, ns + "/" + name, i)
  }

  ghost predicate IsCronJob(l: Lists, ns: string, name: string, i: int) {
    LastKeyed(l.cronJobs, CronJobPath, ns + "/" + name, i)
  }

  /** `up` owns the ReplicaSet or the Job `o`. A listed CronJob has its own UID; one that is not
      listed is given the Job's. */
  ghost predicate OwnedBy(l: Lists, ns: string, o: Owner, up: Owner) {
    if o.kind == "ReplicaSet" then
      exists i :: IsReplicaSet(l, ns, o.name, i)
        && l.replicaSets[i].ownerKind != "" && up.kind == l.replicaSets[i].ownerKind
        && up.name == l.replicaSets[i].ownerName && up.uid == l.replicaSets[i].ownerUid
    else if o.kind == "Job" then
      && (exists i :: IsJob(l, ns, o.name, i)
            && l.jobs[i].ownerCronJob != "" && up.kind == "CronJob" && up.name == l.jobs[i].ownerCronJob)
      && (forall k :: IsCronJob(l, ns, up.name, k) ==> up.uid == l.cronJobs[k].uid)
      && ((forall k :: !IsCronJob(l, ns, up.name, k)) ==> up.uid == o.uid)
    else false
  }

  ghost predicate TablesAre(t: Tables, l: Lists) {
    TablesOf(t, l.replicaSets, l.jobs, l.cronJobs)
  }

  lemma ReplicaSetFound(t: Tables, l: Lists, ns: string, name: string)
    requires TablesAre(t, l)
    ensures JoinKey(ns, name) in t.replicaSets <==> exists i :: IsReplicaSet(l, ns, name, i)
    ensures forall i :: IsReplicaSet(l, ns, name, i) ==>
              JoinKey(ns, name) in t.replicaSets && t.replicaSets[JoinKey(ns, name)] == l.replicaSets[i]
  {
    SlashKey(ns, name);
    FindLastMeaning(l.replicaSets, ReplicaSetPath, ns + "/" + name);
    FindLastSame(l.replicaSets, ReplicaSetPath, ReplicaSetKey, ns + "/" + name);
    if JoinKey(ns, name) in t.replicaSets {
      var i :| LastKeyed(l.replicaSets, ReplicaSetPath, ns + "/" + name, i);
      assert IsReplicaSet(l, ns, name, i);
    }
  }

  lemma JobFound(t: Tables, l: Lists, ns: string, name: string)
    requires TablesAre(t, l)
    ensures JoinKey(ns, name) in t.jobs <==> exists i :: IsJob(l, ns, name, i)
    ensures forall i :: IsJob(l, ns, name, i) ==>
              JoinKey(ns, name) in t.jobs && t.jobs[JoinKey(ns, name)] == l.jobs[i]
  {
    SlashKey(ns, name);
    FindLastMeaning(l.jobs, JobPath, ns + "/" + name);
    FindLastSame(l.jobs, JobPath, JobKey, ns + "/" + name);
    if JoinKey(ns, name) in t.jobs {
      var i :| LastKeyed(l.jobs, JobPath, ns + "/" + name, i);
      assert IsJob(l, ns, name, i);
    }
  }

  lemma CronJobFound(t: Tables, l: Lists, ns: string, name: string)
    requires TablesAre(t, l)
    ensures JoinKey(ns, name) in t.cronJobs <==> exists i :: IsCronJob(l, ns, name, i)
    ensures forall i :: IsCronJob(l, ns, name, i) ==>
              JoinKey(ns, name) in t.cronJobs && t.cronJobs[JoinKey(ns, name)] == l.cronJobs[i]
  {
    SlashKey(ns, name);
    FindLastMeaning(l.cronJobs, CronJobPath, ns + "/" + name);
    FindLastSame(l.cronJobs, CronJobPath, CronJobKey, ns + "/" + name);
    if JoinKey(ns, name) in t.cronJobs {
      var i :| LastKeyed(l.cronJobs, CronJobPath, ns + "/" + name, i);
      assert IsCronJob(l, ns, name, i);
    }
  }

  /** One hop is one link between the lists' entries. */
  lemma HopIsLink(t: Tables, l: Lists, ns: string, o: Owner, up: Owner)
    requires TablesAre(t, l)
    ensures Hop(t, ns, o) == Some(up) <==> OwnedBy(l, ns, o, up)
  {
    ReplicaSetFound(t, l, ns, o.name);
    JobFound(t, l, ns, o.name);
    CronJobFound(t, l, ns, up.name);
  }

  ghost predicate Topmost(l: Lists, ns: string, o: Owner) {
    forall up :: !OwnedBy(l, ns, o, up)
  }

  /** A chain of links from `o`, of at most `n`, that goes as far up as it can. */
  ghost predicate IsClimb(l: Lists, ns: string, o: Owner, n: nat, c: seq<Owner>) {
    && 1 <= |c| <= n + 1 && c[0] == o
    && (forall i :: 0 <= i < |c| - 1 ==> OwnedBy(l, ns, c[i], c[i + 1]))
    && (|c| == n + 1 || Topmost(l, ns, c[|c| - 1]))
  }

  lemma {:induction false} WalkClimbs(t: Tables, l: Lists, ns: string, o: Owner, n: nat) returns (c: seq<Owner>)
    requires TablesAre(t, l)
    ensures IsClimb(l, ns, o, n, c) && c[|c| - 1] == Walk(t, ns, o, n)
    decreases n
  {
    forall up {
      HopIsLink(t, l, ns, o, up);
    }
    if n == 0 || Hop(t, ns, o).None? {
      c := [o];
    } else {
      var up := Hop(t, ns, o).value;
      var rest := WalkClimbs(t, l, ns, up, n - 1);
      c := [o] + rest;
      assert forall i :: 0 < i < |c| - 1 ==> c[i] == rest[i - 1] && c[i + 1] == rest[i];
    }
  }

  /** A link has only one upper end, so there is only one climb. */
  lemma {:induction false} ClimbUnique(t: Tables, l: Lists, ns: string, o: Owner, n: nat, c: seq<Owner>)
    requires TablesAre(t, l) && IsClimb(l, ns, o, n, c)
    ensures c[|c| - 1] == Walk(t, ns, o, n)
    decreases n
  {
    forall up {
      HopIsLink(t, l, ns, o, up);
    }
    if n > 0 {
      assert |c| > 1 ==> OwnedBy(l, ns, c[0], c[1]);
      match Hop(t, ns, o) {
        case None =>
        case Some(up) =>
          var rest := c[1..];
          assert c[1] == up;
          assert forall i :: 0 <= i < |rest| ==> rest[i] == c[i + 1];
          ClimbUnique(t, l, ns, up, n - 1, rest);
      }
    }
  }

  /** A pod is given the owner, with kind, name and UID, at the end of the climb of at most ten
      links from its own owner; nothing else about it changes. */
  lemma ResolvedByLists(t: Tables, l: Lists, p: Pod)
    requires TablesAre(t, l)
    ensures var q, o := Resolved(t, p), Owner(p.ownerKind, p.ownerName, p.ownerUid);
            && q == p.(ownerKind := q.ownerKind, ownerName := q.ownerName, ownerUid := q.ownerUid)
            && (exists c :: IsClimb(l, p.namespace, o, 10, c))
            && forall c :: IsClimb(l, p.namespace, o, 10, c) ==>
                 Owner(q.ownerKind, q.ownerName, q.ownerUid) == c[|c| - 1]
  {
    var o, n := Owner(p.ownerKind, p.ownerName, p.ownerUid), MAX_OWNER_DEPTH;
    var c := WalkClimbs(t, l, p.namespace, o, n);
    forall c | IsClimb(l, p.namespace, o, 10, c)
      ensures OwnerOf(Resolved(t, p)) == c[|c| - 1]
    {
      ClimbUnique(t, l, p.namespace, o, n, c);
    }
  }
}
