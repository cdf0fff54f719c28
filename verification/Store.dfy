/** The in-memory store (internal/store/typed.go) and the node informer's handlers that
    write it (internal/collector/resource/nodes.go). */
module Store {
  import opened Prelude
  import opened Model

  /** `vals` holds the value of every key once, in some order. */
  ghost predicate ListsValues<T>(vals: seq<T>, items: map<string, T>) {
    exists order :: Enumerates(order, items.Keys) && ValuesInOrder(vals, items, order)
  }

  ghost predicate ValuesInOrder<T>(vals: seq<T>, items: map<string, T>, order: seq<string>) {
    && |vals| == |order|
    && forall i :: 0 <= i < |order| ==> order[i] in items && vals[i] == items[order[i]]
  }

  class TypedStore<T> {
    var items: map<string, T>
    var lastUpdated: int

    constructor (now: int)
      ensures items == map[] && lastUpdated == now
    {
      items, lastUpdated := map[], now;
    }

    method Set(key: string, value: T, now: int)
      modifies this
      ensures items == old(items)[key := value] && lastUpdated == now
    {
      items := items[key := value];
      lastUpdated := now;
    }

    /** Deleting an absent key still counts as a modification. */
    method Delete(key: string, now: int)
      modifies this
      ensures items == old(items) - {key} && lastUpdated == now
    {
      items := items - {key};
      lastUpdated := now;
    }

    method Len() returns (n: nat)
      ensures n == |items.Keys|
    {
      n := |items.Keys|;
    }

    method Values() returns (vals: seq<T>)
      ensures ListsValues(vals, items)
    {
      vals := [];
      var todo := items.Keys;
      ghost var order: seq<string> := [];
      while todo != {}
        invariant todo <= items.Keys
        invariant Enumerates(order, items.Keys - todo)
        invariant ValuesInOrder(vals, items, order)
        decreases |todo|
      {
        var k :| k in todo;
        vals := vals + [items[k]];
        order := order + [k];
        todo := todo - {k};
      }
      assert items.Keys - todo == items.Keys;
    }

    /** Clearing does not touch the modification time. */
    method Clear()
      modifies this
      ensures items == map[] && lastUpdated == old(lastUpdated)
    {
      items := map[];
    }
  }

  /** What an informer hands to an event handler. */
  datatype Obj = NodeObj(node: Node) | Tombstone(last: Obj) | OtherObj

  datatype NodeEvent = AddNode(obj: Obj) | UpdateNode(obj: Obj) | DeleteNode(obj: Obj)

  /** The node an event is about: only a delete looks inside a tombstone. */
  function Subject(e: NodeEvent): Option<Node> {
    match e
    case AddNode(NodeObj(n)) => Some(n)
    case UpdateNode(NodeObj(n)) => Some(n)
    case DeleteNode(NodeObj(n)) => Some(n)
    case DeleteNode(Tombstone(NodeObj(n))) => Some(n)
    case _ => None
  }

  function Handled(items: map<string, Node>, e: NodeEvent): map<string, Node> {
    match Subject(e)
    case None => items
    case Some(n) => if e.DeleteNode? then items - {n.name} else items[n.name := n]
  }

  /** nodes.go, the add, update and delete handlers; `gauge` is the new value of the metric
      that counts the stored nodes, if the event reaches it. */
  method HandleNodeEvent(store: TypedStore<Node>, e: NodeEvent, now: int) returns (gauge: Option<nat>)
    modifies store
    ensures store.items == Handled(old(store.items), e)
    ensures store.lastUpdated == if Subject(e).Some? then now else old(store.lastUpdated)
    ensures gauge == if Subject(e).Some? then Some(|store.items.Keys|) else None
  {
    match e {
      case AddNode(obj) =>
        if !obj.NodeObj? {
          return None;
        }
        store.Set(obj.node.name, obj.node, now);
      case UpdateNode(obj) =>
        if !obj.NodeObj? {
          return None;
        }
        store.Set(obj.node.name, obj.node, now);
      case DeleteNode(obj) =>
        var node := obj;
        if !node.NodeObj? {
          if !node.Tombstone? {
            return None;
          }
          node := node.last;
          if !node.NodeObj? {
            return None;
          }
        }
        store.Delete(node.node.name, now);
    }
    var n := store.Len();
    gauge := Some(n);
  }

  /** Every node is stored under its own name. */
  ghost predicate KeyedByName(items: map<string, Node>) {
    forall k :: k in items ==> items[k].name == k
  }

  function History(events: seq<NodeEvent>): map<string, Node> {
    if events == [] then map[] else Handled(History(events[..|events| - 1]), events[|events| - 1])
  }

  /** Whatever the informer delivers, the store stays keyed by node name. */
  lemma {:induction false} HistoryKeyed(events: seq<NodeEvent>)
    ensures KeyedByName(History(events))
  {
    if events != [] {
      HistoryKeyed(events[..|events| - 1]);
    }
  }

  /** An add or update of a node of this name. */
  predicate Stores(e: NodeEvent, name: string) {
    !e.DeleteNode? && e.obj.NodeObj? && e.obj.node.name == name
  }

  /** A delete of one, given as it was or by its last known state. */
  predicate Removes(e: NodeEvent, name: string) {
    && e.DeleteNode?
    && (|| (e.obj.NodeObj? && e.obj.node.name == name)
        || (e.obj.Tombstone? && e.obj.last.NodeObj? && e.obj.last.node.name == name))
  }

  /** Event `i` stored the node, and nothing stored or removed one of its name since. */
  ghost predicate StoredAt(events: seq<NodeEvent>, name: string, i: int) {
    && 0 <= i < |events| && Stores(events[i], name)
    && forall j :: i < j < |events| ==> !Stores(events[j], name) && !Removes(events[j], name)
  }

  lemma HandledKey(items: map<string, Node>, e: NodeEvent, name: string)
    ensures name in Handled(items, e) <==> Stores(e, name) || (name in items && !Removes(e, name))
    ensures Stores(e, name) ==> Handled(items, e)[name] == e.obj.node
    ensures !Stores(e, name) && name in items && !Removes(e, name) ==> Handled(items, e)[name] == items[name]
  {
  }

  lemma StoredStep(p: seq<NodeEvent>, e: NodeEvent, name: string, i: int)
    ensures StoredAt(p + [e], name, i) <==>
            if Stores(e, name) then i == |p| else StoredAt(p, name, i) && !Removes(e, name)
  {
    var q := p + [e];
    assert q[|p|] == e && forall j :: 0 <= j < |p| ==> q[j] == p[j];
  }

  /** What the store holds after any run of events: of each name, the node of its last add or
      update, unless a delete came after. */
  lemma {:induction false} HistoryContents(events: seq<NodeEvent>, name: string)
    ensures name in History(events) <==> exists i :: StoredAt(events, name, i)
    ensures forall i :: StoredAt(events, name, i) ==> name in History(events) && History(events)[name] == events[i].obj.node
  {
    if events != [] {
      var p, e := events[..|events| - 1], events[|events| - 1];
      assert events == p + [e];
      HistoryContents(p, name);
      HandledKey(History(p), e, name);
      forall i
        ensures StoredAt(events, name, i) <==>
                if Stores(e, name) then i == |p| else StoredAt(p, name, i) && !Removes(e, name)
      {
        StoredStep(p, e, name, i);
      }
      assert Stores(e, name) ==> StoredAt(events, name, |p|);
      assert forall i :: StoredAt(p, name, i) ==> p[i] == events[i];
    }
  }

  lemma KeyedValuesDistinct(vals: seq<Node>, items: map<string, Node>)
    requires ListsValues(vals, items) && KeyedByName(items)
    ensures DistinctNodeNames(vals) && NodeNames(vals) == items.Keys
  {
    var order :| Enumerates(order, items.Keys) && ValuesInOrder(vals, items, order);
    OrderedValuesDistinct(vals, items, order);
  }

  lemma OrderedValuesDistinct(vals: seq<Node>, items: map<string, Node>, order: seq<string>)
    requires Enumerates(order, items.Keys) && ValuesInOrder(vals, items, order) && KeyedByName(items)
    ensures DistinctNodeNames(vals) && NodeNames(vals) == items.Keys
  {
    forall i | 0 <= i < |vals|
      ensures vals[i].name == order[i]
    {
      assert order[i] in items;
    }
    NamesListed(vals, order);
  }

  lemma NamesListed(vals: seq<Node>, order: seq<string>)
    requires |vals| == |order| && forall i :: 0 <= i < |vals| ==> vals[i].name == order[i]
    ensures forall k :: k in NodeNames(vals) <==> k in order
  {
    forall k | k in order
      ensures k in NodeNames(vals)
    {
      var i :| 0 <= i < |order| && order[i] == k;
      assert vals[i] in vals;
    }
  }
}
