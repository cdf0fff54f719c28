/** The pollers that fill what a build reads: the metrics-server poller only ever sets entries
    of its store (internal/collector/metrics/server.go), the dcgm-exporter poller replaces its
    whole list (internal/collector/gpu/collector.go). */
module MetricsPolls {
  import opened Prelude
  import opened Model
  import opened Index
  import opened DeviceFold
  import opened Store
  import opened UsageMerge

  /** What one poll of the API returns; a failed one returns nothing. */
  type UsagePoll = Option<seq<PodMetrics>>

  function Listed(items: map<string, PodMetrics>, list: seq<PodMetrics>): map<string, PodMetrics> {
    if list == [] then items
    else
      var last := list[|list| - 1];
      Listed(items, list[..|list| - 1])[PodMetricsKey(last) := last]
  }

  function Polled(items: map<string, PodMetrics>, poll: UsagePoll): map<string, PodMetrics> {
    match poll case Some(list) => Listed(items, list) case None => items
  }

  /** The metrics store after these polls. */
  function StoreAfter(polls: seq<UsagePoll>): map<string, PodMetrics> {
    if polls == [] then map[] else Polled(StoreAfter(polls[..|polls| - 1]), polls[|polls| - 1])
  }

  /** server.go, pollPodMetrics: a failed poll keeps what is there. */
  method PollPodMetrics(store: TypedStore<PodMetrics>, poll: UsagePoll, now: int)
    modifies store
    ensures store.items == Polled(old(store.items), poll)
  {
    if poll.None? {
      return;
    }
    var list := poll.value;
    for i := 0 to |list|
      invariant store.items == Listed(old(store.items), list[..i])
    {
      assert list[..i + 1][..i] == list[..i];
      var key := JoinKey(list[i].namespace, list[i].name);
      store.Set(key, list[i], now);
    }
    assert list[..|list|] == list;
  }

  /** The list of the latest successful poll. */
  function ListAfter(list: seq<GpuDevice>, polls: seq<Option<seq<GpuDevice>>>): seq<GpuDevice> {
    if polls == [] then list else polls[|polls| - 1].Or(ListAfter(list, polls[..|polls| - 1]))
  }

  /** collector.go, poll and GetGPUMetrics: the latest list, kept over failed polls. */
  class GpuPoller {
    var metrics: seq<GpuDevice>

    constructor ()
      ensures metrics == []
    {
      metrics := [];
    }

    method Poll(result: Option<seq<GpuDevice>>)
      modifies this
      ensures metrics == result.Or(old(metrics))
    {
      if result.Some? {
        metrics := result.value;
      }
    }
  }

  // ---- What a reading of the metrics store holds ----

  ghost predicate KeyedByPod(items: map<string, PodMetrics>) {
    forall k :: k in items ==> PodMetricsKey(items[k]) == k
  }

  lemma {:induction false} ListedKeyed(items: map<string, PodMetrics>, list: seq<PodMetrics>)
    requires KeyedByPod(items)
    ensures KeyedByPod(Listed(items, list))
    ensures items.Keys <= Listed(items, list).Keys
    ensures forall key :: (key in Listed(items, list) <==> key in items || FindLast(list, PodMetricsKey, key).Some?)
    ensures forall key :: FindLast(list, PodMetricsKey, key).Some? ==>
              key in Listed(items, list) && Listed(items, list)[key] == FindLast(list, PodMetricsKey, key).value
    ensures forall key :: FindLast(list, PodMetricsKey, key).None? && key in items ==>
              key in Listed(items, list) && Listed(items, list)[key] == items[key]
  {
    if list != [] {
      ListedKeyed(items, list[..|list| - 1]);
    }
  }

  /** The entry of the latest poll that listed the pod, however long ago. */
  function LatestListed(polls: seq<UsagePoll>, key: string): Option<PodMetrics> {
    if polls == [] then None
    else
      var e := match polls[|polls| - 1] case Some(list) => FindLast(list, PodMetricsKey, key) case None => None;
      if e.Some? then e else LatestListed(polls[..|polls| - 1], key)
  }

  lemma {:induction false} StoreHoldsLatest(polls: seq<UsagePoll>)
    ensures KeyedByPod(StoreAfter(polls))
    ensures forall key :: LatestListed(polls, key)
                       == if key in StoreAfter(polls) then Some(StoreAfter(polls)[key]) else None
  {
    if polls != [] {
      var p := polls[..|polls| - 1];
      StoreHoldsLatest(p);
      if polls[|polls| - 1].Some? {
        ListedKeyed(StoreAfter(p), polls[|polls| - 1].value);
      }
    }
  }

  /** A reading of a keyed store finds under each key what the store holds. */
  lemma ReadingFinds(vals: seq<PodMetrics>, items: map<string, PodMetrics>, key: string)
    requires ListsValues(vals, items) && KeyedByPod(items)
    ensures FindLast(vals, PodMetricsKey, key) == if key in items then Some(items[key]) else None
  {
    var order :| Enumerates(order, items.Keys) && ValuesInOrder(vals, items, order);
    OrderedFind(vals, items, order, key);
    if key in items {
      var i :| 0 <= i < |order| && order[i] == key;
    }
  }

  lemma {:induction false} OrderedFind(
    vals: seq<PodMetrics>, items: map<string, PodMetrics>, order: seq<string>, key: string)
    requires KeyedByPod(items) && ValuesInOrder(vals, items, order)
    ensures FindLast(vals, PodMetricsKey, key) == if key in order then Some(items[key]) else None
  {
    if vals != [] {
      var n := |vals| - 1;
      OrderedFind(vals[..n], items, order[..n], key);
      assert order == order[..n] + [order[n]];
    }
  }

  /** What a build reads for a pod is the entry of the latest poll that listed it. */
  lemma ReadingIsLatest(polls: seq<UsagePoll>, vals: seq<PodMetrics>, key: string)
    requires ListsValues(vals, StoreAfter(polls))
    ensures FindLast(vals, PodMetricsKey, key) == LatestListed(polls, key)
  {
    StoreHoldsLatest(polls);
    ReadingFinds(vals, StoreAfter(polls), key);
  }

  /** Nothing leaves the metrics store: a pod listed once is read by every later build. */
  lemma {:induction false} ListedOnce(polls: seq<UsagePoll>, more: seq<UsagePoll>, key: string)
    requires LatestListed(polls, key).Some?
    ensures LatestListed(polls + more, key).Some?
  {
    if more == [] {
      assert polls + more == polls;
    } else {
      assert (polls + more)[..|polls + more| - 1] == polls + more[..|more| - 1];
      ListedOnce(polls, more[..|more| - 1], key);
    }
  }
}
