/** Lookup tables built in one pass over a list, against the naive scan of the list.
    Several steps of the snapshot pipeline key such tables by "namespace/name". */
module Index {
  import opened Prelude

  function JoinKey(namespace: string, name: string): string {
    Joined(namespace, '/', name)
  }

  lemma SlashKey(namespace: string, name: string)
    ensures JoinKey(namespace, name) == namespace + "/" + name
  {
  }

  /** The last item with the given key, found by scanning. */
  function FindLast<T>(items: seq<T>, keyOf: T -> string, key: string): Option<T> {
    if items == [] then None
    else if keyOf(items[|items| - 1]) == key then Some(items[|items| - 1])
    else FindLast(items[..|items| - 1], keyOf, key)
  }

  /** Position `i` holds the last item with the key. */
  ghost predicate LastKeyed<T>(items: seq<T>, keyOf: T -> string, key: string, i: int) {
    && 0 <= i < |items| && keyOf(items[i]) == key
    && forall j :: i < j < |items| ==> keyOf(items[j]) != key
  }

  /** The scan finds the item at that position, and nothing only if no item has the key. */
  lemma {:induction false} FindLastMeaning<T>(items: seq<T>, keyOf: T -> string, key: string)
    ensures forall i :: LastKeyed(items, keyOf, key, i) ==> FindLast(items, keyOf, key) == Some(items[i])
    ensures FindLast(items, keyOf, key).Some? <==> exists i :: LastKeyed(items, keyOf, key, i)
    ensures FindLast(items, keyOf, key).None? <==> forall i :: 0 <= i < |items| ==> keyOf(items[i]) != key
  {
    if items != [] {
      var n := |items| - 1;
      var p := items[..n];
      FindLastMeaning(p, keyOf, key);
      if keyOf(items[n]) == key {
        assert LastKeyed(items, keyOf, key, n);
      } else {
        forall i
          ensures LastKeyed(items, keyOf, key, i) <==> LastKeyed(p, keyOf, key, i)
        {
          assert forall j :: 0 <= j < n ==> p[j] == items[j];
        }
        assert forall i :: 0 <= i < n ==> p[i] == items[i];
      }
    }
  }

  /** Equal key functions find the same. */
  lemma {:induction false} FindLastSame<T>(items: seq<T>, f: T -> string, g: T -> string, key: string)
    requires forall x :: f(x) == g(x)
    ensures FindLast(items, f, key) == FindLast(items, g, key)
  {
    if items != [] {
      FindLastSame(items[..|items| - 1], f, g, key);
    }
  }

  /** The last item with the given namespace and name, found by scanning. */
  function FindLastNamed<T>(
    items: seq<T>, namespaceOf: T -> string, nameOf: T -> string,
    namespace: string, name: string): Option<T>
  {
    if items == [] then None
    else
      var last := items[|items| - 1];
      if namespaceOf(last) == namespace && nameOf(last) == name then Some(last)
      else FindLastNamed(items[..|items| - 1], namespaceOf, nameOf, namespace, name)
  }

  /** The table answers every key as the scan does. */
  ghost predicate Indexes<T>(table: map<string, T>, items: seq<T>, keyOf: T -> string) {
    forall key :: FindLast(items, keyOf, key) == if key in table then Some(table[key]) else None
  }

  method BuildIndex<T>(items: seq<T>, keyOf: T -> string) returns (table: map<string, T>)
    ensures Indexes(table, items, keyOf)
  {
    table := map[];
    for i := 0 to |items|
      invariant Indexes(table, items[..i], keyOf)
    {
      assert items[..i + 1][..i] == items[..i];
      table := table[keyOf(items[i]) := items[i]];
    }
    assert items[..|items|] == items;
  }

  lemma JoinKeyInjective(ns1: string, name1: string, ns2: string, name2: string)
    requires '/' !in ns1 && '/' !in ns2
    requires JoinKey(ns1, name1) == JoinKey(ns2, name2)
    ensures ns1 == ns2 && name1 == name2
  {
    JoinedEqualIff('/', ns1, name1, ns2, name2);
  }

  /** The joined key finds what the scan by namespace and name finds, unless an item shares
      the key of a pair it does not have. */
  lemma {:induction false} JoinedScan<T>(
    items: seq<T>, keyOf: T -> string, namespaceOf: T -> string, nameOf: T -> string,
    namespace: string, name: string)
    requires forall i :: 0 <= i < |items| ==>
               && keyOf(items[i]) == JoinKey(namespaceOf(items[i]), nameOf(items[i]))
               && !Collide('/', namespaceOf(items[i]), nameOf(items[i]), namespace, name)
    ensures FindLast(items, keyOf, JoinKey(namespace, name))
         == FindLastNamed(items, namespaceOf, nameOf, namespace, name)
  {
    if items != [] {
      var last := items[|items| - 1];
      JoinedScan(items[..|items| - 1], keyOf, namespaceOf, nameOf, namespace, name);
      JoinedEqualIff('/', namespaceOf(last), nameOf(last), namespace, name);
    }
  }

  /** An item that shares the key of another pair is found in its place. */
  lemma {:induction false} CollisionFound<T>(
    items: seq<T>, keyOf: T -> string, namespaceOf: T -> string, nameOf: T -> string,
    namespace: string, name: string)
    requires items != []
    requires var last := items[|items| - 1];
             && keyOf(last) == JoinKey(namespaceOf(last), nameOf(last))
             && Collide('/', namespaceOf(last), nameOf(last), namespace, name)
    ensures FindLast(items, keyOf, JoinKey(namespace, name)) == Some(items[|items| - 1])
    ensures FindLastNamed(items, namespaceOf, nameOf, namespace, name) != Some(items[|items| - 1])
  {
    var last := items[|items| - 1];
    JoinedEqualIff('/', namespaceOf(last), nameOf(last), namespace, name);
    ScanIsNamed(items[..|items| - 1], namespaceOf, nameOf, namespace, name);
  }

  lemma {:induction false} ScanIsNamed<T>(
    items: seq<T>, namespaceOf: T -> string, nameOf: T -> string, namespace: string, name: string)
    ensures var r := FindLastNamed(items, namespaceOf, nameOf, namespace, name);
            r.Some? ==> namespaceOf(r.value) == namespace && nameOf(r.value) == name
  {
    if items != [] {
      ScanIsNamed(items[..|items| - 1], namespaceOf, nameOf, namespace, name);
    }
  }

  /** No item with the key of the pair comes after the last item that has the pair. */
  ghost predicate NotHidden<T>(
    items: seq<T>, namespaceOf: T -> string, nameOf: T -> string, namespace: string, name: string)
  {
    forall i :: 0 <= i < |items| && Collide('/', namespaceOf(items[i]), nameOf(items[i]), namespace, name) ==>
      exists j :: i < j < |items| && namespaceOf(items[j]) == namespace && nameOf(items[j]) == name
  }

  /** The finished table answers as the scan does if and only if every item that collides with
      the asked pair is followed by one that has it. */
  lemma {:induction false} JoinedScanIff<T>(
    items: seq<T>, keyOf: T -> string, namespaceOf: T -> string, nameOf: T -> string,
    namespace: string, name: string)
    requires forall i :: 0 <= i < |items| ==>
               keyOf(items[i]) == JoinKey(namespaceOf(items[i]), nameOf(items[i]))
    ensures FindLast(items, keyOf, JoinKey(namespace, name))
            == FindLastNamed(items, namespaceOf, nameOf, namespace, name)
            <==> NotHidden(items, namespaceOf, nameOf, namespace, name)
  {
    if items != [] {
      var n := |items| - 1;
      var p, last := items[..n], items[n];
      JoinedEqualIff('/', namespaceOf(last), nameOf(last), namespace, name);
      if namespaceOf(last) == namespace && nameOf(last) == name {
        NoSelfCollision('/', namespace, name);
      } else if Collide('/', namespaceOf(last), nameOf(last), namespace, name) {
        CollisionFound(items, keyOf, namespaceOf, nameOf, namespace, name);
      } else {
        JoinedScanIff(p, keyOf, namespaceOf, nameOf, namespace, name);
        assert forall i :: 0 <= i < n ==> p[i] == items[i];
        if NotHidden(items, namespaceOf, nameOf, namespace, name) {
          forall i | 0 <= i < n && Collide('/', namespaceOf(p[i]), nameOf(p[i]), namespace, name)
            ensures exists j :: i < j < n && namespaceOf(p[j]) == namespace && nameOf(p[j]) == name
          {
            var j :| i < j < |items| && namespaceOf(items[j]) == namespace && nameOf(items[j]) == name;
            assert p[j] == items[j];
          }
        }
        if NotHidden(p, namespaceOf, nameOf, namespace, name) {
          forall i | 0 <= i < |items| && Collide('/', namespaceOf(items[i]), nameOf(items[i]), namespace, name)
            ensures exists j :: i < j < |items| && namespaceOf(items[j]) == namespace && nameOf(items[j]) == name
          {
            assert p[i] == items[i];
            var j :| i < j < n && namespaceOf(p[j]) == namespace && nameOf(p[j]) == name;
            assert items[j] == p[j];
          }
        }
      }
    }
  }
}
