/** The backfill that repairs the race between the concurrent store reads
    (internal/snapshot/builder.go, backfillReferencedNodes). */
module Backfill {
  import opened Prelude
  import opened Model
  import opened Store

  /** The node names that pods refer to and the node list lacks. */
  function Missing(pods: seq<Pod>, names: set<string>): set<string> {
    set p | p in pods && p.nodeName != "" && p.nodeName !in names :: p.nodeName
  }

  function StoredNames(items: map<string, Node>): set<string> {
    set k | k in items :: items[k].name
  }

  /** What the backfill does to the node list, and how many names stay unresolved. */
  ghost predicate Backfilled(
    after: seq<Node>, before: seq<Node>, pods: seq<Pod>, items: map<string, Node>, orphans: nat)
  {
    var missing := Missing(pods, NodeNames(before));
    && |before| <= |after| && after[..|before|] == before
    && (forall i :: |before| <= i < |after| ==> after[i] in items.Values)
    && DistinctNodeNames(after[|before|..])
    && NodeNames(after[|before|..]) == missing * StoredNames(items)
    && orphans == |missing - StoredNames(items)|
  }

  method PresentNames(nodes: seq<Node>) returns (names: set<string>)
    ensures names == NodeNames(nodes)
  {
    names := {};
    for i := 0 to |nodes|
      invariant names == NodeNames(nodes[..i])
    {
      assert nodes[..i + 1] == nodes[..i] + [nodes[i]];
      names := names + {nodes[i].name};
    }
    assert nodes[..|nodes|] == nodes;
  }

  method ReferencedNames(pods: seq<Pod>, present: set<string>) returns (names: set<string>)
    ensures names == Missing(pods, present)
  {
    names := {};
    for i := 0 to |pods|
      invariant names == Missing(pods[..i], present)
    {
      assert pods[..i + 1] == pods[..i] + [pods[i]];
      if pods[i].nodeName == "" || pods[i].nodeName in present {
        continue;
      }
      names := names + {pods[i].nodeName};
    }
    assert pods[..|pods|] == pods;
  }

  ghost predicate IndexedByName(index: map<string, Node>, nodes: seq<Node>) {
    && index.Keys == NodeNames(nodes)
    && forall k :: k in index ==> index[k] in nodes && index[k].name == k
  }

  method IndexByName(nodes: seq<Node>) returns (index: map<string, Node>)
    ensures IndexedByName(index, nodes)
  {
    index := map[];
    for i := 0 to |nodes|
      invariant IndexedByName(index, nodes[..i])
    {
      assert nodes[..i + 1] == nodes[..i] + [nodes[i]];
      index := index[nodes[i].name := nodes[i]];
    }
    assert nodes[..|nodes|] == nodes;
  }

  /** `found` is one indexed node for each indexed name of `names`. */
  ghost predicate FoundNodes(found: seq<Node>, names: set<string>, index: map<string, Node>) {
    && (forall i :: 0 <= i < |found| ==> found[i] in index.Values)
    && DistinctNodeNames(found)
    && NodeNames(found) == names * index.Keys
  }

  lemma FoundMore(found: seq<Node>, names: set<string>, name: string, index: map<string, Node>)
    requires FoundNodes(found, names, index)
    requires name !in names && name in index && index[name].name == name
    ensures FoundNodes(found + [index[name]], names + {name}, index)
  {
    var more := found + [index[name]];
    assert NodeNames(more) == NodeNames(found) + {name};
    forall i | 0 <= i < |found|
      ensures found[i].name != name
    {
      assert found[i] in found;
      assert found[i].name in NodeNames(found);
    }
  }

  /** The state of the loop over the missing names once those in `done` are handled. */
  ghost predicate Split(
    after: seq<Node>, nodes: seq<Node>, found: seq<Node>, orphans: seq<string>,
    done: set<string>, index: map<string, Node>)
  {
    && after == nodes + found
    && FoundNodes(found, done, index)
    && Enumerates(orphans, done - index.Keys)
  }

  lemma SplitFound(
    after: seq<Node>, nodes: seq<Node>, found: seq<Node>, orphans: seq<string>,
    done: set<string>, index: map<string, Node>, name: string)
    requires Split(after, nodes, found, orphans, done, index)
    requires name !in done && name in index && index[name].name == name
    ensures Split(after + [index[name]], nodes, found + [index[name]], orphans, done + {name}, index)
  {
    FoundMore(found, done, name, index);
    assert (done + {name}) - index.Keys == done - index.Keys;
  }

  lemma SplitOrphan(
    after: seq<Node>, nodes: seq<Node>, found: seq<Node>, orphans: seq<string>,
    done: set<string>, index: map<string, Node>, name: string)
    requires Split(after, nodes, found, orphans, done, index)
    requires name !in done && name !in index
    ensures Split(after, nodes, found, orphans + [name], done + {name}, index)
  {
    assert (done + {name}) - index.Keys == (done - index.Keys) + {name};
    assert (done + {name}) * index.Keys == done * index.Keys;
  }

  /** The loop over the missing names, in whatever order the map yields them. */
  method AppendFound(nodes: seq<Node>, referenced: set<string>, index: map<string, Node>)
    returns (after: seq<Node>, orphans: seq<string>, ghost found: seq<Node>)
    requires forall k :: k in index ==> index[k].name == k
    ensures after == nodes + found
    ensures FoundNodes(found, referenced, index)
    ensures Enumerates(orphans, referenced - index.Keys)
  {
    after, orphans, found := nodes, [], [];
    var todo := referenced;
    ghost var done: set<string> := {};
    while todo != {}
      invariant todo !! done && todo + done == referenced
      invariant Split(after, nodes, found, orphans, done, index)
      decreases |todo|
    {
      var name :| name in todo;
      if name in index {
        SplitFound(after, nodes, found, orphans, done, index, name);
        after, found := after + [index[name]], found + [index[name]];
      } else {
        SplitOrphan(after, nodes, found, orphans, done, index, name);
        orphans := orphans + [name];
      }
      todo, done := todo - {name}, done + {name};
    }
    assert done == referenced;
  }

  /** builder.go, backfillReferencedNodes. The result is what is added to the orphan counter. */
  method BackfillReferencedNodes(snap: ClusterSnapshot, store: TypedStore<Node>) returns (orphans: nat)
    modifies snap`nodes
    ensures Backfilled(snap.nodes, old(snap.nodes), snap.pods, store.items, orphans)
  {
    ghost var missing := Missing(snap.pods, NodeNames(snap.nodes));
    if |snap.pods| == 0 {
      assert missing == {};
      NothingMissing(snap.nodes, snap.pods, store.items);
      return 0;
    }
    var present := PresentNames(snap.nodes);
    var referenced := ReferencedNames(snap.pods, present);
    if |referenced| == 0 {
      NothingMissing(snap.nodes, snap.pods, store.items);
      return 0;
    }
    var storeNodes := store.Values();
    var index := IndexByName(storeNodes);
    ReadNames(storeNodes, store.items);
    var after, stillOrphan, found := AppendFound(snap.nodes, referenced, index);
    EnumerationSize(stillOrphan, referenced - index.Keys);
    assert after[|snap.nodes|..] == found;
    assert forall i :: 0 <= i < |found| ==> found[i] in storeNodes;
    snap.nodes := after;
    return |stillOrphan|;
  }

  lemma NothingMissing(nodes: seq<Node>, pods: seq<Pod>, items: map<string, Node>)
    requires Missing(pods, NodeNames(nodes)) == {}
    ensures Backfilled(nodes, nodes, pods, items, 0)
  {
    assert nodes[|nodes|..] == [];
    assert NodeNames([]) == {};
  }

  lemma ReadNames(vals: seq<Node>, items: map<string, Node>)
    requires ListsValues(vals, items)
    ensures NodeNames(vals) == StoredNames(items)
    ensures forall n :: n in vals ==> n in items.Values
  {
    var order :| Enumerates(order, items.Keys) && ValuesInOrder(vals, items, order);
    ReadNamesInOrder(vals, items, order);
  }

  lemma ReadNamesInOrder(vals: seq<Node>, items: map<string, Node>, order: seq<string>)
    requires Enumerates(order, items.Keys) && ValuesInOrder(vals, items, order)
    ensures NodeNames(vals) == StoredNames(items)
    ensures forall n :: n in vals ==> n in items.Values
  {
    forall i | 0 <= i < |vals|
      ensures vals[i] in items.Values && vals[i].name in StoredNames(items)
    {
      assert items[order[i]] == vals[i];
    }
    forall k | k in items
      ensures items[k].name in NodeNames(vals)
    {
      var i :| 0 <= i < |order| && order[i] == k;
      assert vals[i] in vals;
    }
  }

  lemma AppendedDistinct(after: seq<Node>, before: seq<Node>, pods: seq<Pod>, items: map<string, Node>, orphans: nat)
    requires Backfilled(after, before, pods, items, orphans) && DistinctNodeNames(before)
    ensures DistinctNodeNames(after)
  {
    var n, extra := |before|, after[|before|..];
    forall i, j | 0 <= i < j < |after|
      ensures after[i].name != after[j].name
    {
      if j < n {
        assert after[..n][i] == after[i] && after[..n][j] == after[j];
      } else {
        assert extra[j - n] == after[j];
        if i < n {
          assert after[..n][i] == after[i];
          assert before[i] in before && extra[j - n] in extra;
          assert after[j].name in NodeNames(extra);
        } else {
          assert extra[i - n] == after[i];
        }
      }
    }
  }

  // ---- Races ----

  datatype ClusterEvent =
    | OnNode(event: NodeEvent)
    | PodStored(key: string, pod: Pod)
    | PodDeleted(key: string)

  datatype ClusterState = ClusterState(nodes: map<string, Node>, pods: map<string, Pod>)

  function Apply(s: ClusterState, e: ClusterEvent): ClusterState {
    match e
    case OnNode(ev) => s.(nodes := Handled(s.nodes, ev))
    case PodStored(k, p) => s.(pods := s.pods[k := p])
    case PodDeleted(k) => s.(pods := s.pods - {k})
  }

  /** The stores after the first events of a run. */
  function StateAfter(events: seq<ClusterEvent>): ClusterState {
    if events == [] then ClusterState(map[], map[])
    else Apply(StateAfter(events[..|events| - 1]), events[|events| - 1])
  }

  lemma {:induction false} StateKeyed(events: seq<ClusterEvent>)
    ensures KeyedByName(StateAfter(events).nodes)
  {
    if events != [] {
      StateKeyed(events[..|events| - 1]);
    }
  }

  /** Nodes are read after `t1` events, pods after `t2`, and the node store again after
      `t3`, in any interleaving with informer events. After the backfill, every pod's node
      is in the snapshot or gone from the store at the second read; an orphan was missing
      from both reads; names stay distinct, and no node is invented. */
  lemma BackfillUnderRaces(
    events: seq<ClusterEvent>, t1: nat, t2: nat, t3: nat,
    nodes: seq<Node>, pods: seq<Pod>, before: seq<Node>, after: seq<Node>, orphans: nat)
    requires t1 <= t3 <= |events| && t2 <= t3
    requires ListsValues(nodes, StateAfter(events[..t1]).nodes)
    requires ListsValues(pods, StateAfter(events[..t2]).pods)
    // the merges between the reads change no name
    requires |before| == |nodes| && forall i :: 0 <= i < |nodes| ==> before[i].name == nodes[i].name
    requires Backfilled(after, before, pods, StateAfter(events[..t3]).nodes, orphans)
    ensures after[..|before|] == before && DistinctNodeNames(after)
    ensures forall p :: p in pods && p.nodeName != "" ==>
              p.nodeName in NodeNames(after) || p.nodeName !in StateAfter(events[..t3]).nodes
    ensures forall p :: p in pods && p.nodeName != "" && p.nodeName !in NodeNames(after) ==>
              p.nodeName !in StateAfter(events[..t1]).nodes && p.nodeName !in StateAfter(events[..t3]).nodes
    ensures forall i :: |before| <= i < |after| ==>
              && after[i].name in StateAfter(events[..t3]).nodes && StateAfter(events[..t3]).nodes[after[i].name] == after[i]
              && after[i].name != "" && after[i].name !in NodeNames(before)
              && exists p :: p in pods && p.nodeName == after[i].name
    ensures orphans == |set p | p in pods && p.nodeName != "" && p.nodeName !in NodeNames(after) :: p.nodeName|
    ensures NodeNames(after) <= StateAfter(events[..t1]).nodes.Keys + StateAfter(events[..t3]).nodes.Keys
  {
    StateKeyed(events[..t1]);
    StateKeyed(events[..t3]);
    BackfillBetweenReads(StateAfter(events[..t1]).nodes, StateAfter(events[..t3]).nodes,
                         nodes, pods, before, after, orphans);
  }

  /** The same for any two contents of the node store that are keyed by name. */
  lemma BackfillBetweenReads(
    first: map<string, Node>, second: map<string, Node>,
    nodes: seq<Node>, pods: seq<Pod>, before: seq<Node>, after: seq<Node>, orphans: nat)
    requires KeyedByName(first) && KeyedByName(second)
    requires ListsValues(nodes, first)
    requires |before| == |nodes| && forall i :: 0 <= i < |nodes| ==> before[i].name == nodes[i].name
    requires Backfilled(after, before, pods, second, orphans)
    ensures after[..|before|] == before && DistinctNodeNames(after)
    ensures forall p :: p in pods && p.nodeName != "" ==>
              p.nodeName in NodeNames(after) || p.nodeName !in second
    ensures forall p :: p in pods && p.nodeName != "" && p.nodeName !in NodeNames(after) ==>
              p.nodeName !in first && p.nodeName !in second
    ensures forall i :: |before| <= i < |after| ==>
              && after[i].name in second && second[after[i].name] == after[i]
              && after[i].name != "" && after[i].name !in NodeNames(before)
              && exists p :: p in pods && p.nodeName == after[i].name
    ensures orphans == |set p | p in pods && p.nodeName != "" && p.nodeName !in NodeNames(after) :: p.nodeName|
    ensures NodeNames(after) <= first.Keys + second.Keys
  {
    KeyedValuesDistinct(nodes, first);
    SameNames(nodes, before);
    SameDistinct(nodes, before);
    assert StoredNames(second) == second.Keys;
    AppendedDistinct(after, before, pods, second, orphans);
    NamesAfter(after, before);
    MissingAfter(pods, first.Keys, second.Keys, NodeNames(after));
    AppendedReferenced(after, before, pods, second, orphans);
    assert Missing(pods, NodeNames(after))
        == set p | p in pods && p.nodeName != "" && p.nodeName !in NodeNames(after) :: p.nodeName;
  }

  /** Each appended node is the stored one of a name that some pod refers to. */
  lemma AppendedReferenced(after: seq<Node>, before: seq<Node>, pods: seq<Pod>, items: map<string, Node>, orphans: nat)
    requires Backfilled(after, before, pods, items, orphans) && KeyedByName(items)
    ensures forall i :: |before| <= i < |after| ==>
              && after[i].name in items && items[after[i].name] == after[i]
              && after[i].name != "" && after[i].name !in NodeNames(before)
              && exists p :: p in pods && p.nodeName == after[i].name
  {
    forall i | |before| <= i < |after|
      ensures after[i].name in Missing(pods, NodeNames(before))
    {
      assert after[|before|..][i - |before|] == after[i];
      assert after[i] in after[|before|..];
      assert after[i].name in NodeNames(after[|before|..]);
    }
  }

  /** Adding the missing names that a second set has leaves the others missing. */
  lemma MissingAfter(pods: seq<Pod>, first: set<string>, second: set<string>, all: set<string>)
    requires all == first + Missing(pods, first) * second
    ensures Missing(pods, all) == Missing(pods, first) - second
    ensures forall p :: p in pods && p.nodeName != "" ==> p.nodeName in all || p.nodeName !in second
    ensures forall p :: p in pods && p.nodeName != "" && p.nodeName !in all ==>
              p.nodeName !in first && p.nodeName !in second
  {
    forall p | p in pods && p.nodeName != "" && p.nodeName !in all
      ensures p.nodeName !in first && p.nodeName !in second
    {
      assert p.nodeName in Missing(pods, first);
    }
  }

  lemma SameDistinct(a: seq<Node>, b: seq<Node>)
    requires |a| == |b| && forall i :: 0 <= i < |a| ==> a[i].name == b[i].name
    requires DistinctNodeNames(a)
    ensures DistinctNodeNames(b)
  {
  }

  lemma NamesAfter(after: seq<Node>, before: seq<Node>)
    requires |before| <= |after| && after[..|before|] == before
    ensures NodeNames(after) == NodeNames(before) + NodeNames(after[|before|..])
  {
    assert after == before + after[|before|..];
  }

  lemma SameNames(a: seq<Node>, b: seq<Node>)
    requires |a| == |b| && forall i :: 0 <= i < |a| ==> a[i].name == b[i].name
    ensures NodeNames(a) == NodeNames(b)
  {
    forall k
      ensures k in NodeNames(a) <==> k in NodeNames(b)
    {
      if k in NodeNames(a) {
        var n :| n in a && n.name == k;
        var i :| 0 <= i < |a| && a[i] == n;
        assert b[i] in b;
      }
      if k in NodeNames(b) {
        var n :| n in b && n.name == k;
        var i :| 0 <= i < |b| && b[i] == n;
        assert a[i] in a;
      }
    }
  }
}
