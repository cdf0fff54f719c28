/** The phase scheduler of the end-to-end cluster (tests/e2e/cluster/cluster.go): an
    in-place insertion sort and the list of steps with readiness barriers between phases. */
module Phases {

  const PRECONDITIONS := 0

  /** A deployment: its phase, its deploy function, and its readiness check if it has one. */
  datatype Deployment = Deployment(order: int, deploy: nat, hasReady: bool)

  predicate SortedByOrder(s: seq<Deployment>) {
    forall i, j :: 0 <= i < j < |s| ==> s[i].order <= s[j].order
  }

  /** The deployments of one phase, in list order. */
  function OfPhase(s: seq<Deployment>, order: int): seq<Deployment> {
    if s == [] then []
    else
      var last := s[|s| - 1];
      var before := OfPhase(s[..|s| - 1], order);
      if last.order == order then before + [last] else before
  }

  /** Both lists hold the same deployments of every phase in the same order: each is a
      stable rearrangement of the other. */
  ghost predicate SamePhases(a: seq<Deployment>, b: seq<Deployment>) {
    forall order :: OfPhase(a, order) == OfPhase(b, order)
  }

  lemma {:induction false} OfPhaseConcat(a: seq<Deployment>, b: seq<Deployment>, order: int)
    ensures OfPhase(a + b, order) == OfPhase(a, order) + OfPhase(b, order)
  {
    if b == [] {
      assert a + b == a;
    } else {
      assert (a + b)[..|a + b| - 1] == a + b[..|b| - 1];
      OfPhaseConcat(a, b[..|b| - 1], order);
    }
  }

  lemma OfPhaseOne(x: Deployment, order: int)
    ensures OfPhase([x], order) == if x.order == order then [x] else []
  {
    assert [x][..0] == [];
  }

  /** Exchanging neighbours of different phases keeps every phase's list. */
  lemma SwapKeepsPhases(p: seq<Deployment>, x: Deployment, y: Deployment, q: seq<Deployment>)
    requires x.order != y.order
    ensures SamePhases(p + ([x] + [y]) + q, p + ([y] + [x]) + q)
  {
    forall order
      ensures OfPhase(p + ([x] + [y]) + q, order) == OfPhase(p + ([y] + [x]) + q, order)
    {
      PhaseOfPair(p, x, y, q, order);
      PhaseOfPair(p, y, x, q, order);
      OfPhaseOne(x, order);
      OfPhaseOne(y, order);
    }
  }

  lemma PhaseOfPair(p: seq<Deployment>, x: Deployment, y: Deployment, q: seq<Deployment>, order: int)
    ensures OfPhase(p + ([x] + [y]) + q, order)
         == OfPhase(p, order) + (OfPhase([x], order) + OfPhase([y], order)) + OfPhase(q, order)
  {
    OfPhaseConcat([x], [y], order);
    OfPhaseConcat(p, [x] + [y], order);
    OfPhaseConcat(p + ([x] + [y]), q, order);
  }

  /** The array with the key put into the gap at `g`. */
  function Filled(s: seq<Deployment>, g: nat, key: Deployment): seq<Deployment>
    requires g < |s|
  {
    s[g := key]
  }

  /** Moving an element up into the gap below it is an exchange with the key. */
  lemma GapMoves(s: seq<Deployment>, g: nat, key: Deployment, was: seq<Deployment>)
    requires 0 < g < |s| && s[g - 1].order != key.order
    requires SamePhases(Filled(s, g, key), was)
    ensures SamePhases(Filled(s[g := s[g - 1]], g - 1, key), was)
  {
    var p, x, q := s[..g - 1], s[g - 1], s[g + 1..];
    assert Filled(s, g, key) == p + ([x] + [key]) + q;
    assert Filled(s[g := x], g - 1, key) == p + ([key] + [x]) + q;
    SwapKeepsPhases(p, x, key, q);
  }

  /** All but the gap at `g` of the first `n` is sorted, and what is above it is greater than
      the key. */
  ghost predicate SortedAroundGap(s: seq<Deployment>, n: nat, g: nat, key: Deployment) {
    && g < n <= |s|
    && (forall i, j :: 0 <= i < j < n && i != g && j != g ==> s[i].order <= s[j].order)
    && (forall j :: g < j < n ==> s[j].order > key.order)
  }

  lemma GapStaysSorted(s: seq<Deployment>, n: nat, g: nat, key: Deployment)
    requires SortedAroundGap(s, n, g, key) && g > 0 && s[g - 1].order > key.order
    ensures SortedAroundGap(s[g := s[g - 1]], n, g - 1, key)
  {
  }

  lemma FilledIsSorted(s: seq<Deployment>, n: nat, g: nat, key: Deployment)
    requires SortedAroundGap(s, n, g, key) && (g > 0 ==> s[g - 1].order <= key.order)
    ensures SortedByOrder(Filled(s, g, key)[..n])
  {
    forall i, j | 0 <= i < j < n
      ensures Filled(s, g, key)[i].order <= Filled(s, g, key)[j].order
    {
      assert i < g - 1 ==> s[i].order <= s[g - 1].order;
    }
  }

  /** The front is sorted apart from the gap, and filling the gap gives the list `was` up to
      the order of different phases. */
  ghost predicate Inserting(s: seq<Deployment>, n: nat, g: nat, key: Deployment, was: seq<Deployment>) {
    SortedAroundGap(s, n, g, key) && SamePhases(Filled(s, g, key), was)
  }

  lemma InsertStart(s: seq<Deployment>, i: nat)
    requires i < |s| && SortedByOrder(s[..i])
    ensures Inserting(s, i + 1, i, s[i], s)
  {
    assert Filled(s, i, s[i]) == s;
    assert forall m :: 0 <= m < i ==> s[..i][m] == s[m];
  }

  lemma InsertStep(s: seq<Deployment>, n: nat, g: nat, key: Deployment, was: seq<Deployment>)
    requires Inserting(s, n, g, key, was) && g > 0 && s[g - 1].order > key.order
    ensures Inserting(s[g := s[g - 1]], n, g - 1, key, was)
  {
    GapMoves(s, g, key, was);
    GapStaysSorted(s, n, g, key);
  }

  /** The first `n` are sorted, and nothing but the order of different phases has changed. */
  ghost predicate Inserted(s: seq<Deployment>, n: nat, was: seq<Deployment>) {
    n <= |s| && SortedByOrder(s[..n]) && SamePhases(s, was)
  }

  lemma InsertEnd(s: seq<Deployment>, n: nat, g: nat, key: Deployment, was: seq<Deployment>)
    requires Inserting(s, n, g, key, was) && (g > 0 ==> s[g - 1].order <= key.order)
    ensures Inserted(Filled(s, g, key), n, was)
  {
    FilledIsSorted(s, n, g, key);
  }

  /** The list after the key has been moved down past the greater elements from `j` on. */
  function Shifted(s: seq<Deployment>, j: int, key: Deployment): (r: seq<Deployment>)
    requires -1 <= j < |s| - 1
    ensures |r| == |s|
    decreases j + 1
  {
    if j >= 0 && s[j].order > key.order then Shifted(s[j + 1 := s[j]], j - 1, key) else s[j + 1 := key]
  }

  lemma {:induction false} ShiftedInserts(s: seq<Deployment>, n: nat, j: int, key: Deployment, was: seq<Deployment>)
    requires -1 <= j < n - 1 && Inserting(s, n, j + 1, key, was)
    ensures Inserted(Shifted(s, j, key), n, was)
    decreases j + 1
  {
    if j >= 0 && s[j].order > key.order {
      InsertStep(s, n, j + 1, key, was);
      ShiftedInserts(s[j + 1 := s[j]], n, j - 1, key, was);
    } else {
      InsertEnd(s, n, j + 1, key, was);
    }
  }

  /** The inner loop of sortedDeployments: put element i into the front. */
  method InsertInto(a: array<Deployment>, i: nat)
    requires i < a.Length
    modifies a
    ensures a[..] == Shifted(old(a[..]), i - 1, old(a[i]))
  {
    var key := a[i];
    var j := i - 1;
    while j >= 0 && a[j].order > key.order
      invariant -1 <= j < i
      invariant Shifted(a[..], j, key) == Shifted(old(a[..]), i - 1, key)
    {
      ghost var before := a[..];
      a[j + 1] := a[j];
      assert a[..] == before[j + 1 := before[j]];
      j := j - 1;
    }
    ghost var before := a[..];
    a[j + 1] := key;
    assert a[..] == before[j + 1 := key];
  }

  /** Put into a sorted front, the element leaves it sorted and every phase in its order. */
  lemma InsertedInOrder(s: seq<Deployment>, i: nat)
    requires i < |s| && SortedByOrder(s[..i])
    ensures Inserted(Shifted(s, i - 1, s[i]), i + 1, s)
  {
    InsertStart(s, i);
    ShiftedInserts(s, i + 1, i - 1, s[i], s);
  }

  /** cluster.go, sortedDeployments: a stable sort of a copy. */
  method SortedDeployments(deps: seq<Deployment>) returns (sorted: array<Deployment>)
    ensures fresh(sorted)
    ensures SortedByOrder(sorted[..]) && SamePhases(sorted[..], deps)
  {
    sorted := new Deployment[|deps|](i requires 0 <= i < |deps| => deps[i]);
    assert sorted[..] == deps;
    var i := 1;
    while i < sorted.Length
      invariant 1 <= i && (sorted.Length > 0 ==> i <= sorted.Length)
      invariant i <= sorted.Length ==> SortedByOrder(sorted[..][..i])
      invariant SamePhases(sorted[..], deps)
    {
      InsertedInOrder(sorted[..], i);
      InsertInto(sorted, i);
      i := i + 1;
    }
    if sorted.Length > 0 {
      assert sorted[..][..sorted.Length] == sorted[..];
    }
  }

  // ---- What a stable sort is ----

  lemma {:induction false} PhaseMember(s: seq<Deployment>, x: Deployment)
    ensures multiset(OfPhase(s, x.order))[x] == multiset(s)[x]
  {
    if s != [] {
      var p, last := s[..|s| - 1], s[|s| - 1];
      PhaseMember(p, x);
      assert s == p + [last];
      var r := OfPhase(p, x.order);
      assert multiset(r + [last]) == multiset(r) + multiset{last};
      assert r + [] == r;
    }
  }

  /** Equal phase lists make the lists permutations of each other. */
  lemma StableIsPermutation(a: seq<Deployment>, b: seq<Deployment>)
    requires SamePhases(a, b)
    ensures multiset(a) == multiset(b)
  {
    forall x: Deployment
      ensures multiset(a)[x] == multiset(b)[x]
    {
      PhaseMember(a, x);
      PhaseMember(b, x);
    }
  }

  /** Sorted and stable together leave a single possible result. */
  lemma {:induction false} StableSortUnique(a: seq<Deployment>, b: seq<Deployment>)
    requires SortedByOrder(a) && SortedByOrder(b) && SamePhases(a, b)
    ensures a == b
    decreases |a|
  {
    StableIsPermutation(a, b);
    assert |a| == |multiset(a)| && |b| == |multiset(b)|;
    if a != [] {
      var n := |a| - 1;
      LastIsGreatest(a, b);
      var top := a[n].order;
      var pa, pb := OfPhase(a, top), OfPhase(b, top);
      assert pa[|pa| - 1] == a[n] && pb[|pb| - 1] == b[n];
      forall order
        ensures OfPhase(a[..n], order) == OfPhase(b[..n], order)
      {
        assert OfPhase(a, order) == OfPhase(b, order);
        if order == top {
          assert OfPhase(a[..n], order) == pa[..|pa| - 1];
          assert OfPhase(b[..n], order) == pb[..|pb| - 1];
        } else {
          assert OfPhase(a[..n], order) == OfPhase(a, order);
          assert OfPhase(b[..n], order) == OfPhase(b, order);
        }
      }
      StableSortUnique(a[..n], b[..n]);
      assert a == a[..n] + [a[n]] && b == b[..n] + [b[n]];
    }
  }

  lemma LastIsGreatest(a: seq<Deployment>, b: seq<Deployment>)
    requires SortedByOrder(a) && SortedByOrder(b) && multiset(a) == multiset(b) && |a| == |b| && a != []
    ensures a[|a| - 1].order == b[|b| - 1].order
  {
    var x, y := a[|a| - 1], b[|b| - 1];
    assert x in multiset(a) && y in multiset(b);
    assert x in b && y in a;
    var i :| 0 <= i < |b| && b[i] == x;
    var j :| 0 <= j < |a| && a[j] == y;
  }

  // ---- The emitted steps ----

  datatype Emit =
    | Deploy(dep: Deployment) | Check(dep: Deployment)
    | LogReady(order: int) | LogStarting(order: int)

  function DeploysOf(fs: seq<Emit>): seq<Deployment> {
    if fs == [] then []
    else
      var before, e := DeploysOf(fs[..|fs| - 1]), fs[|fs| - 1];
      if e.Deploy? then before + [e.dep] else before
  }

  function ChecksOf(fs: seq<Emit>): seq<Deployment> {
    if fs == [] then []
    else
      var before, e := ChecksOf(fs[..|fs| - 1]), fs[|fs| - 1];
      if e.Check? then before + [e.dep] else before
  }

  /** The deployments that have a readiness check. */
  function WithReady(s: seq<Deployment>): seq<Deployment> {
    if s == [] then []
    else
      var before := WithReady(s[..|s| - 1]);
      if s[|s| - 1].hasReady then before + [s[|s| - 1]] else before
  }

  lemma WithReadyStep(s: seq<Deployment>, d: Deployment)
    ensures WithReady(s + [d]) == if d.hasReady then WithReady(s) + [d] else WithReady(s)
  {
    assert (s + [d])[..|s|] == s;
  }

  function ChecksFor(s: seq<Deployment>): seq<Emit> {
    if s == [] then [] else ChecksFor(s[..|s| - 1]) + [Check(s[|s| - 1])]
  }

  /** A check comes before a deploy exactly when its phase does: after all deploys of its
      own and earlier phases, before all deploys of later ones. */
  ghost predicate Barrier(fs: seq<Emit>) {
    forall i, j :: 0 <= i < |fs| && 0 <= j < |fs| && fs[i].Check? && fs[j].Deploy? ==>
      (i < j <==> fs[i].dep.order < fs[j].dep.order)
  }

  /** What is emitted and what waits are the deployments handled so far. */
  ghost predicate Listed(fs: seq<Emit>, ready: seq<Deployment>, done: seq<Deployment>) {
    DeploysOf(fs) == done && ChecksOf(fs) + ready == WithReady(done)
  }

  /** The phase under way: its checks wait, earlier ones are out. */
  ghost predicate Staged(fs: seq<Emit>, ready: seq<Deployment>, current: int) {
    && Barrier(fs)
    && (forall i :: 0 <= i < |ready| ==> ready[i].order == current)
    && (forall i :: 0 <= i < |fs| && fs[i].Deploy? ==> fs[i].dep.order <= current)
    && (forall i :: 0 <= i < |fs| && fs[i].Check? ==> fs[i].dep.order < current)
  }

  lemma {:induction false} EmitConcat(a: seq<Emit>, b: seq<Emit>)
    ensures DeploysOf(a + b) == DeploysOf(a) + DeploysOf(b)
    ensures ChecksOf(a + b) == ChecksOf(a) + ChecksOf(b)
  {
    if b == [] {
      assert a + b == a;
    } else {
      assert (a + b)[..|a + b| - 1] == a + b[..|b| - 1];
      EmitConcat(a, b[..|b| - 1]);
    }
  }

  lemma EmitStep(fs: seq<Emit>, e: Emit)
    ensures DeploysOf(fs + [e]) == if e.Deploy? then DeploysOf(fs) + [e.dep] else DeploysOf(fs)
    ensures ChecksOf(fs + [e]) == if e.Check? then ChecksOf(fs) + [e.dep] else ChecksOf(fs)
  {
    assert (fs + [e])[..|fs|] == fs;
  }

  lemma {:induction false} ChecksForListed(ready: seq<Deployment>)
    ensures DeploysOf(ChecksFor(ready)) == [] && ChecksOf(ChecksFor(ready)) == ready
  {
    if ready != [] {
      var p, last := ready[..|ready| - 1], ready[|ready| - 1];
      ChecksForListed(p);
      EmitStep(ChecksFor(p), Check(last));
      assert ready == p + [last];
    }
  }

  lemma {:induction false} ChecksForAt(ready: seq<Deployment>)
    ensures |ChecksFor(ready)| == |ready|
    ensures forall i :: 0 <= i < |ready| ==> ChecksFor(ready)[i] == Check(ready[i])
  {
    if ready != [] {
      ChecksForAt(ready[..|ready| - 1]);
    }
  }

  /** The waiting checks and two log lines list nothing but the checks. */
  lemma FlushLists(fs: seq<Emit>, ready: seq<Deployment>, logs: seq<Emit>)
    requires DeploysOf(logs) == [] && ChecksOf(logs) == []
    ensures var out := fs + (ChecksFor(ready) + logs);
            DeploysOf(out) == DeploysOf(fs) && ChecksOf(out) == ChecksOf(fs) + ready
  {
    ChecksForListed(ready);
    EmitConcat(ChecksFor(ready), logs);
    EmitConcat(fs, ChecksFor(ready) + logs);
  }

  /** Emitting the checks of the current phase makes room for a later one. */
  lemma PhaseEnds(fs: seq<Emit>, ready: seq<Deployment>, current: int, tail: seq<Emit>, next: int)
    requires Staged(fs, ready, current)
    requires forall i :: 0 <= i < |tail| ==> !tail[i].Deploy? && (tail[i].Check? ==> tail[i].dep.order == current)
    requires current < next || (fs == [] && forall i :: 0 <= i < |tail| ==> !tail[i].Check?)
    ensures Staged(fs + tail, [], next)
  {
  }

  function PhaseLogs(current: int, next: int): seq<Emit> {
    [LogReady(current), LogStarting(next)]
  }

  lemma PhaseLogsList(current: int, next: int)
    ensures DeploysOf(PhaseLogs(current, next)) == [] && ChecksOf(PhaseLogs(current, next)) == []
  {
    EmitStep([], LogReady(current));
    EmitStep([LogReady(current)], LogStarting(next));
    assert [] + [LogReady(current)] == [LogReady(current)];
    assert PhaseLogs(current, next) == [LogReady(current)] + [LogStarting(next)];
  }

  lemma LogsList(current: int)
    ensures DeploysOf([LogReady(current)]) == [] && ChecksOf([LogReady(current)]) == []
  {
    assert [LogReady(current)][..0] == [];
  }

  /** Starting a later phase once every check of the current one is out. */
  lemma NextPhase(fs: seq<Emit>, ready: seq<Deployment>, current: int, done: seq<Deployment>, next: int)
    requires Listed(fs, ready, done) && Staged(fs, ready, current)
    requires current < next || (fs == [] && ready == [])
    ensures Listed(fs + (ChecksFor(ready) + PhaseLogs(current, next)), [], done)
    ensures Staged(fs + (ChecksFor(ready) + PhaseLogs(current, next)), [], next)
  {
    PhaseLogsList(current, next);
    FlushLists(fs, ready, PhaseLogs(current, next));
    assert ChecksOf(fs) + ready + [] == ChecksOf(fs) + ready;
    ChecksForAt(ready);
    PhaseEnds(fs, ready, current, ChecksFor(ready) + PhaseLogs(current, next), next);
  }

  lemma DeployListed(fs: seq<Emit>, ready: seq<Deployment>, done: seq<Deployment>, d: Deployment)
    requires Listed(fs, ready, done)
    ensures Listed(fs + [Deploy(d)], if d.hasReady then ready + [d] else ready, done + [d])
  {
    EmitStep(fs, Deploy(d));
    WithReadyStep(done, d);
    assert ChecksOf(fs) + (ready + [d]) == ChecksOf(fs) + ready + [d];
  }

  lemma DeployStaged(fs: seq<Emit>, ready: seq<Deployment>, current: int, d: Deployment)
    requires Staged(fs, ready, current) && d.order == current
    ensures Staged(fs + [Deploy(d)], if d.hasReady then ready + [d] else ready, current)
  {
  }

  /** Emitting the last phase's checks completes the list. */
  lemma LastPhase(fs: seq<Emit>, ready: seq<Deployment>, current: int, done: seq<Deployment>, logs: seq<Emit>)
    requires Listed(fs, ready, done) && Staged(fs, ready, current)
    requires DeploysOf(logs) == [] && ChecksOf(logs) == []
    requires forall i :: 0 <= i < |logs| ==> !logs[i].Deploy? && !logs[i].Check?
    ensures var out := fs + (ChecksFor(ready) + logs);
            DeploysOf(out) == done && ChecksOf(out) == WithReady(done) && Barrier(out)
  {
    FlushLists(fs, ready, logs);
    ChecksForAt(ready);
    PhaseEnds(fs, ready, current, ChecksFor(ready) + logs, current + 1);
  }

  /** One pass of the loop of getDeploymentFuncs. */
  method EmitDeployment(fs0: seq<Emit>, ready0: seq<Deployment>, current: int, dep: Deployment,
    ghost done: seq<Deployment>) returns (fs: seq<Emit>, ready: seq<Deployment>)
    requires Listed(fs0, ready0, done) && Staged(fs0, ready0, current)
    requires current <= dep.order || (fs0 == [] && ready0 == [])
    ensures Listed(fs, ready, done + [dep]) && Staged(fs, ready, dep.order)
  {
    fs, ready := fs0, ready0;
    if dep.order != current {
      NextPhase(fs, ready, current, done, dep.order);
      fs := fs + (ChecksFor(ready) + PhaseLogs(current, dep.order));
      ready := [];
    }
    DeployListed(fs, ready, done, dep);
    DeployStaged(fs, ready, dep.order, dep);
    fs := fs + [Deploy(dep)];
    if dep.hasReady {
      ready := ready + [dep];
    }
  }

  /** What follows the loop: the checks still waiting. */
  method EmitWaiting(fs0: seq<Emit>, ready: seq<Deployment>, current: int, ghost done: seq<Deployment>)
    returns (fs: seq<Emit>)
    requires Listed(fs0, ready, done) && Staged(fs0, ready, current)
    ensures DeploysOf(fs) == done && ChecksOf(fs) == WithReady(done) && Barrier(fs)
  {
    if |ready| == 0 {
      assert ChecksOf(fs0) + ready == ChecksOf(fs0);
      return fs0;
    }
    LogsList(current);
    LastPhase(fs0, ready, current, done, [LogReady(current)]);
    fs := fs0 + (ChecksFor(ready) + [LogReady(current)]);
  }

  /** The steps for the sorted deployments. */
  method EmitPhases(sorted: seq<Deployment>) returns (fs: seq<Emit>)
    requires SortedByOrder(sorted)
    ensures DeploysOf(fs) == sorted && ChecksOf(fs) == WithReady(sorted) && Barrier(fs)
  {
    fs := [];
    var current := PRECONDITIONS;
    var ready: seq<Deployment> := [];
    for k := 0 to |sorted|
      invariant Listed(fs, ready, sorted[..k]) && Staged(fs, ready, current)
      invariant k == 0 ==> fs == [] && ready == []
      invariant k > 0 ==> current == sorted[k - 1].order
    {
      fs, ready := EmitDeployment(fs, ready, current, sorted[k], sorted[..k]);
      current := sorted[k].order;
      assert sorted[..k + 1] == sorted[..k] + [sorted[k]];
    }
    assert sorted[..|sorted|] == sorted;
    fs := EmitWaiting(fs, ready, current, sorted);
  }

  /** cluster.go, getDeploymentFuncs: each deploy and each readiness check is emitted exactly
      once, phases in order, with the barrier between them. */
  method GetDeploymentFuncs(deps: seq<Deployment>) returns (fs: seq<Emit>)
    ensures SortedByOrder(DeploysOf(fs)) && SamePhases(DeploysOf(fs), deps)
    ensures ChecksOf(fs) == WithReady(DeploysOf(fs))
    ensures Barrier(fs)
  {
    var sorted := SortedDeployments(deps);
    fs := EmitPhases(sorted[..]);
  }

  lemma {:induction false} WithReadyCounts(s: seq<Deployment>, x: Deployment)
    ensures multiset(WithReady(s))[x] == if x.hasReady then multiset(s)[x] else 0
  {
    if s != [] {
      var p, last := s[..|s| - 1], s[|s| - 1];
      WithReadyCounts(p, x);
      assert s == p + [last];
      var r := WithReady(p);
      assert multiset(r + [last]) == multiset(r) + multiset{last};
      assert r + [] == r;
    }
  }

  /** Each configured deployment is deployed as often as it was added, and checked as often
      if it has a readiness check. */
  lemma EachExactlyOnce(deps: seq<Deployment>, fs: seq<Emit>)
    requires SamePhases(DeploysOf(fs), deps) && ChecksOf(fs) == WithReady(DeploysOf(fs))
    ensures multiset(DeploysOf(fs)) == multiset(deps)
    ensures forall x :: multiset(ChecksOf(fs))[x] == if x.hasReady then multiset(deps)[x] else 0
  {
    StableIsPermutation(DeploysOf(fs), deps);
    forall x {
      WithReadyCounts(DeploysOf(fs), x);
    }
  }
}
