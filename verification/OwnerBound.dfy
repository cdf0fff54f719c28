/** The depth limit of the owner walk is exact for nine ReplicaSets: a namespace without a
    ReplicaSet cycle always resolves with nine, and need not with ten
    (internal/enrichment/ownership.go, maxOwnerDepth). */
module OwnerBound {
  import opened Prelude
  import opened Model
  import opened Index
  import opened Ownership

  /** A pod of a snapshot whose namespace has no ReplicaSet cycle and at most `n` names. */
  ghost predicate InScope(
    t: Tables, replicaSets: seq<ReplicaSet>, jobs: seq<Job>, cronJobs: seq<CronJob>, p: Pod, n: int)
  {
    && TablesOf(t, replicaSets, jobs, cronJobs)
    && '/' !in p.namespace && (forall i :: 0 <= i < |replicaSets| ==> '/' !in replicaSets[i].namespace)
    && Acyclic(t, p.namespace)
    && |ReplicaSetNames(replicaSets, p.namespace)| <= n
  }

  // ---- A chain of ten ReplicaSets below a Job that a CronJob owns ----

  function ChainName(i: nat): string
    requires i <= 10
  {
    [('a' as int + i) as char]
  }

  function ChainKey(i: nat): string
    requires i <= 10
  {
    JoinKey("ns", ChainName(i))
  }

  function ChainOwner(i: nat): Owner
    requires i <= 10
  {
    Owner(if i < 10 then REPLICA_SET else JOB_KIND, ChainName(i), "")
  }

  function ChainReplicaSet(i: nat): ReplicaSet
    requires i < 10
  {
    var up := ChainOwner(i + 1);
    ReplicaSet(ChainName(i), "ns", up.kind, up.name, up.uid)
  }

  function ChainList(n: nat): seq<ReplicaSet>
    requires n <= 10
  {
    if n == 0 then [] else ChainList(n - 1) + [ChainReplicaSet(n - 1)]
  }

  function ChainMap(n: nat): map<string, ReplicaSet>
    requires n <= 10
  {
    if n == 0 then map[] else ChainMap(n - 1)[ChainKey(n - 1) := ChainReplicaSet(n - 1)]
  }

  const NIGHTLY := Job(ChainName(10), "ns", "nightly", [], 0.0, 0, None, None)

  function ChainTables(): Tables {
    Tables(ChainMap(10), map[ChainKey(10) := NIGHTLY], map[])
  }

  const CHAIN_POD := Pod("pod", "ns", "", "Running", REPLICA_SET, ChainName(0), "", [])

  lemma ChainNamesDiffer(i: nat, j: nat)
    requires i <= 10 && j <= 10 && i != j
    ensures ChainName(i) != ChainName(j) && ChainKey(i) != ChainKey(j)
  {
    assert ChainName(i)[0] == ('a' as int + i) as char && ChainName(j)[0] == ('a' as int + j) as char;
    assert ChainKey(i)[3] == ChainName(i)[0] && ChainKey(j)[3] == ChainName(j)[0];
  }

  /** The map is the index of the list. */
  lemma {:induction false} ChainIndexed(n: nat)
    requires n <= 10
    ensures Indexes(ChainMap(n), ChainList(n), ReplicaSetKey)
  {
    if n > 0 {
      ChainIndexed(n - 1);
      assert ChainList(n)[..|ChainList(n)| - 1] == ChainList(n - 1);
      assert ReplicaSetKey(ChainReplicaSet(n - 1)) == ChainKey(n - 1);
    }
  }

  lemma ChainTablesBuilt()
    ensures TablesOf(ChainTables(), ChainList(10), [NIGHTLY], [])
  {
    ChainIndexed(10);
    forall key
      ensures FindLast([NIGHTLY], JobKey, key) == if key == ChainKey(10) then Some(NIGHTLY) else None
    {
      assert [NIGHTLY][..0] == [];
      assert JobKey(NIGHTLY) == ChainKey(10);
    }
  }

  function ChainNames(n: nat): set<string>
    requires n <= 10
  {
    if n == 0 then {} else ChainNames(n - 1) + {ChainName(n - 1)}
  }

  /** The names of the first `n` links are `n` different ones. */
  lemma {:induction false} ChainNameCount(n: nat)
    requires n <= 10
    ensures |ChainNames(n)| == n
    ensures forall name :: name in ChainNames(n) ==> |name| == 1 && name[0] as int < 'a' as int + n
  {
    if n > 0 {
      ChainNameCount(n - 1);
      assert ChainName(n - 1)[0] as int == 'a' as int + (n - 1);
    }
  }

  lemma {:induction false} ChainListNames(n: nat)
    requires n <= 10
    ensures ReplicaSetNames(ChainList(n), "ns") == ChainNames(n)
    ensures forall rs :: rs in ChainList(n) ==> rs.namespace == "ns"
  {
    if n > 0 {
      ChainListNames(n - 1);
      NamesSnoc(ChainList(n - 1), ChainReplicaSet(n - 1));
    }
  }

  lemma NamesSnoc(replicaSets: seq<ReplicaSet>, rs: ReplicaSet)
    ensures ReplicaSetNames(replicaSets + [rs], rs.namespace)
         == ReplicaSetNames(replicaSets, rs.namespace) + {rs.name}
  {
    assert rs in replicaSets + [rs];
  }

  lemma {:induction false} ChainMapAt(n: nat, i: nat)
    requires i < n <= 10
    ensures ChainKey(i) in ChainMap(n) && ChainMap(n)[ChainKey(i)] == ChainReplicaSet(i)
  {
    if i < n - 1 {
      ChainMapAt(n - 1, i);
      ChainNamesDiffer(i, n - 1);
    }
  }

  /** Only the names of the chain are in the map. */
  lemma {:induction false} ChainMapKeys(n: nat, name: string)
    requires n <= 10
    ensures JoinKey("ns", name) in ChainMap(n) ==> exists i: nat :: i < n && name == ChainName(i)
  {
    if n > 0 {
      ChainMapKeys(n - 1, name);
      if JoinKey("ns", name) == ChainKey(n - 1) {
        JoinKeyInjective("ns", name, "ns", ChainName(n - 1));
      }
    }
  }

  /** A ReplicaSet's next owner does not depend on the UID recorded for it. */
  lemma ChainHop(o: Owner, i: nat)
    requires i < 10 && o.kind == REPLICA_SET && o.name == ChainName(i)
    ensures Hop(ChainTables(), "ns", o) == Some(ChainOwner(i + 1))
  {
    ChainMapAt(10, i);
  }

  lemma ChainTop()
    ensures Hop(ChainTables(), "ns", ChainOwner(10)) == Some(Owner(CRON_JOB_KIND, "nightly", ""))
    ensures Terminal(ChainTables(), "ns", Owner(CRON_JOB_KIND, "nightly", ""))
  {
  }

  lemma {:induction false} ChainWalk(i: nat, n: nat)
    requires i + n <= 10
    ensures Walk(ChainTables(), "ns", ChainOwner(i), n) == ChainOwner(i + n)
    decreases n
  {
    if n > 0 {
      ChainHop(ChainOwner(i), i);
      ChainWalk(i + 1, n - 1);
    }
  }

  /** A walk from a link never meets a ReplicaSet of that name or an earlier one again. */
  lemma ChainGoesUp(i: nat, n: nat)
    requires i <= 10
    ensures var o := Walk(ChainTables(), "ns", ChainOwner(i), n);
            o.kind == REPLICA_SET ==> i + n < 10 && o.name == ChainName(i + n)
  {
    var t := ChainTables();
    if i + n <= 10 {
      ChainWalk(i, n);
    } else {
      var rest := n - (10 - i);
      ChainWalk(i, 10 - i);
      WalkCompose(t, "ns", ChainOwner(i), 10 - i, rest);
      ChainTop();
      var top := Owner(CRON_JOB_KIND, "nightly", "");
      assert Walk(t, "ns", ChainOwner(10), 1) == top;
      WalkStopsAtEnd(t, "ns", ChainOwner(10), 1, rest);
    }
  }

  /** An owned ReplicaSet is a link of the chain. */
  lemma ChainKnown(o: Owner) returns (i: nat)
    requires OwnedReplicaSet(ChainTables(), "ns", o)
    ensures i < 10 && o.name == ChainName(i)
  {
    ChainMapKeys(10, o.name);
    i :| i < 10 && o.name == ChainName(i);
  }

  lemma ChainNeverReturns(o: Owner, i: nat, k: nat)
    requires i < 10 && k > 0 && o.kind == REPLICA_SET && o.name == ChainName(i)
    ensures var up := Walk(ChainTables(), "ns", o, k); !(up.kind == REPLICA_SET && up.name == o.name)
  {
    ChainHop(o, i);
    ChainGoesUp(i + 1, k - 1);
    if i + k < 10 {
      ChainNamesDiffer(i, i + k);
    }
  }

  lemma {:induction false} ChainAcyclic()
    ensures Acyclic(ChainTables(), "ns")
  {
    forall o: Owner, k: nat | k > 0 && OwnedReplicaSet(ChainTables(), "ns", o)
      ensures !(Walk(ChainTables(), "ns", o, k).kind == REPLICA_SET && Walk(ChainTables(), "ns", o, k).name == o.name)
    {
      var i := ChainKnown(o);
      ChainNeverReturns(o, i, k);
    }
  }

  /** The chain is a snapshot's: built from lists, without a cycle, with ten names. */
  lemma {:induction false} ChainInScope(n: int)
    requires n >= 10
    ensures InScope(ChainTables(), ChainList(10), [NIGHTLY], [], CHAIN_POD, n)
  {
    ChainTablesBuilt();
    ChainAcyclic();
    ChainHasTenNames(ChainList(10), 10);
  }

  lemma ChainHasTenNames(list: seq<ReplicaSet>, n: nat)
    requires n <= 10 && list == ChainList(n)
    ensures |ReplicaSetNames(list, "ns")| == n
    ensures forall i :: 0 <= i < |list| ==> '/' !in list[i].namespace
  {
    ChainListNames(n);
    ChainNameCount(n);
    assert forall i :: 0 <= i < |list| ==> list[i] in list;
  }

  lemma ResolvedOwner(t: Tables, p: Pod)
    ensures OwnerOf(Resolved(t, p)) == Walk(t, p.namespace, OwnerOf(p), MAX_OWNER_DEPTH)
  {
  }

  /** In that snapshot the pass stops at the Job although a CronJob owns it. */
  lemma {:induction false} TenReplicaSetsAreCut()
    ensures OwnerOf(Resolved(ChainTables(), CHAIN_POD)) == ChainOwner(10)
    ensures !Terminal(ChainTables(), "ns", ChainOwner(10))
  {
    var t := ChainTables();
    ResolvedOwner(t, CHAIN_POD);
    ChainWalk(0, 10);
    assert OwnerOf(CHAIN_POD) == ChainOwner(0);
    ChainTop();
  }

  /** Every pod in a namespace without a ReplicaSet cycle and with at most `n` ReplicaSet
      names gets its chain's terminal owner, if and only if `n` is at most nine. */
  lemma {:induction false} ResolvesWithinIff(n: int)
    ensures (forall t, replicaSets, jobs, cronJobs, p :: InScope(t, replicaSets, jobs, cronJobs, p, n) ==>
               Terminal(t, p.namespace, OwnerOf(Resolved(t, p))))
            <==> n <= 9
  {
    if n <= 9 {
      forall t, replicaSets, jobs, cronJobs, p | InScope(t, replicaSets, jobs, cronJobs, p, n)
        ensures Terminal(t, p.namespace, OwnerOf(Resolved(t, p)))
      {
        ResolvesToTerminalOwner(t, replicaSets, jobs, cronJobs, p);
      }
    } else {
      ChainInScope(n);
      TenReplicaSetsAreCut();
    }
  }
}
