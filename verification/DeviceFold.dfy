/** The fold of dcgm-exporter samples into one record per GPU
    (internal/collector/gpu/parser.go, ParseDCGMMetrics) against a description of each
    record that mentions no processing order beyond "first" and "last". */
module DeviceFold {
  import opened Prelude
  import opened LabelSchema
  import opened Exposition

  const SENTINEL_THRESHOLD := 1000000000000000.0
  const MIB_TO_BYTES := 1048576.0

  datatype Metric =
    | EngineActive | GpuUtil | TensorActive | MemCopyUtil | FbUsed | FbFree | FbTotal
    | GpuTemp | PowerUsage | MigMode | Unknown

  function MetricOf(name: string): Metric {
    if name == "DCGM_FI_PROF_GR_ENGINE_ACTIVE" then EngineActive
    else if name == "DCGM_FI_DEV_GPU_UTIL" then GpuUtil
    else if name == "DCGM_FI_PROF_PIPE_TENSOR_ACTIVE" then TensorActive
    else if name == "DCGM_FI_DEV_MEM_COPY_UTIL" then MemCopyUtil
    else if name == "DCGM_FI_DEV_FB_USED" then FbUsed
    else if name == "DCGM_FI_DEV_FB_FREE" then FbFree
    else if name == "DCGM_FI_DEV_FB_TOTAL" then FbTotal
    else if name == "DCGM_FI_DEV_GPU_TEMP" then GpuTemp
    else if name == "DCGM_FI_DEV_POWER_USAGE" then PowerUsage
    else if name == "DCGM_FI_DEV_MIG_MODE" then MigMode
    else Unknown
  }

  /** GPUDeviceMetrics: an absent pointer is None. */
  datatype GpuDevice = GpuDevice(
    labels: DcgmLabels,
    migEnabled: Option<bool>,
    utilization: Option<real>, tensorActive: Option<real>, memCopyUtil: Option<real>,
    memoryUsed: Option<int>, memoryFree: Option<int>, memoryTotal: Option<int>,
    temperature: Option<real>, power: Option<real>)

  predicate IsSentinel(v: real) {
    v > SENTINEL_THRESHOLD
  }

  /** The conversion int64(f) of a representable float: truncation toward zero. */
  function Truncate(v: real): int {
    if v >= 0.0 then v.Floor else -((-v).Floor)
  }

  function Bytes(mib: real): int {
    Truncate(mib * MIB_TO_BYTES)
  }

  /** A sample that belongs to a GPU: the UUID identifies it, else the gpu index. */
  datatype Point = Point(key: string, labels: DcgmLabels, metric: Metric, value: real)

  function PointOf(s: Sample): Option<Point> {
    if s.labels.uuid == "" && s.labels.gpu == "" then None
    else
      var key := if s.labels.uuid == "" then s.labels.gpu else s.labels.uuid;
      Some(Point(key, s.labels, MetricOf(s.name), s.value))
  }

  function PointsOf(samples: seq<Sample>): seq<Point> {
    if samples == [] then []
    else
      var before, p := PointsOf(samples[..|samples| - 1]), PointOf(samples[|samples| - 1]);
      if p.Some? then before + [p.value] else before
  }

  predicate IsReading(p: Point, key: string, metric: Metric) {
    p.key == key && p.metric == metric && !IsSentinel(p.value)
  }

  /** The last value of a metric that is not a sentinel. */
  function LastValue(points: seq<Point>, key: string, metric: Metric): Option<real> {
    if points == [] then None
    else
      var p := points[|points| - 1];
      if IsReading(p, key, metric) then Some(p.value)
      else LastValue(points[..|points| - 1], key, metric)
  }

  /** The labels of the key's first sample. */
  function FirstLabels(points: seq<Point>, key: string): Option<DcgmLabels> {
    if points == [] then None
    else
      var before := FirstLabels(points[..|points| - 1], key);
      var p := points[|points| - 1];
      if before.Some? then before else if p.key == key then Some(p.labels) else None
  }

  function Keys(points: seq<Point>): set<string> {
    set p | p in points :: p.key
  }

  function MapReal<T>(v: Option<real>, f: real -> T): Option<T> {
    match v case Some(x) => Some(f(x)) case None => None
  }

  function Percent(ratio: real): real {
    ratio * 100.0
  }

  predicate IsOne(v: real) {
    v == 1.0
  }

  /** What the fold keeps for a key, read off the samples. */
  function Collected(points: seq<Point>, key: string): GpuDevice
    requires FirstLabels(points, key).Some?
  {
    var prof := LastValue(points, key, EngineActive);
    GpuDevice(
      FirstLabels(points, key).value,
      MapReal(LastValue(points, key, MigMode), IsOne),
      if prof.Some? then Some(Percent(prof.value)) else LastValue(points, key, GpuUtil),
      MapReal(LastValue(points, key, TensorActive), Percent),
      LastValue(points, key, MemCopyUtil),
      MapReal(LastValue(points, key, FbUsed), Bytes),
      MapReal(LastValue(points, key, FbFree), Bytes),
      MapReal(LastValue(points, key, FbTotal), Bytes),
      LastValue(points, key, GpuTemp),
      LastValue(points, key, PowerUsage))
  }

  /** The missing total is the sum of used and free when both are known. */
  function Completed(d: GpuDevice): GpuDevice {
    if d.memoryTotal.None? && d.memoryUsed.Some? && d.memoryFree.Some?
    then d.(memoryTotal := Some(d.memoryUsed.value + d.memoryFree.value))
    else d
  }

  function Record(points: seq<Point>, key: string): GpuDevice
    requires FirstLabels(points, key).Some?
  {
    Completed(Collected(points, key))
  }

  lemma {:induction false} FirstLabelsOfKey(points: seq<Point>, key: string)
    ensures FirstLabels(points, key).Some? <==> key in Keys(points)
    ensures FirstLabels(points, key).Some? ==>
              exists p :: p in points && p.key == key && p.labels == FirstLabels(points, key).value
  {
    if points != [] {
      var last := points[|points| - 1];
      FirstLabelsOfKey(points[..|points| - 1], key);
      assert points == points[..|points| - 1] + [last];
    }
  }

  /** `result` holds exactly one record per key, in some order. */
  ghost predicate ListsRecords(result: seq<GpuDevice>, points: seq<Point>) {
    exists order :: Enumerates(order, Keys(points)) && InOrder(result, points, order)
  }

  ghost predicate InOrder(result: seq<GpuDevice>, points: seq<Point>, order: seq<string>) {
    && |result| == |order|
    && forall i :: 0 <= i < |order| ==>
         FirstLabels(points, order[i]).Some? && result[i] == Record(points, order[i])
  }

  /** The state of the sample loop after `points`. */
  ghost predicate Folded(gpus: map<string, GpuDevice>, hasProf: set<string>, points: seq<Point>) {
    && gpus.Keys == Keys(points)
    && (forall k :: k in gpus ==> FirstLabels(points, k).Some? && gpus[k] == Collected(points, k))
    && (forall k :: k in hasProf <==> LastValue(points, k, EngineActive).Some?)
  }

  function NewDevice(labels: DcgmLabels): GpuDevice {
    GpuDevice(labels, None, None, None, None, None, None, None, None, None)
  }

  /** The switch on the metric name: how one sample changes its GPU's record. */
  method UpdateDevice(g: GpuDevice, metric: Metric, value: real, seenProf: bool)
    returns (d: GpuDevice, prof: bool)
    ensures d == Updated(g, metric, value, seenProf)
    ensures prof == (seenProf || (metric == EngineActive && !IsSentinel(value)))
  {
    d, prof := g, seenProf;
    if metric == Unknown || IsSentinel(value) {
      return;
    }
    match metric {
      case EngineActive =>
        d := d.(utilization := Some(value * 100.0));
        prof := true;
      case GpuUtil =>
        if !prof {
          d := d.(utilization := Some(value));
        }
      case TensorActive => d := d.(tensorActive := Some(value * 100.0));
      case MemCopyUtil => d := d.(memCopyUtil := Some(value));
      case FbUsed => d := d.(memoryUsed := Some(Truncate(value * MIB_TO_BYTES)));
      case FbFree => d := d.(memoryFree := Some(Truncate(value * MIB_TO_BYTES)));
      case FbTotal => d := d.(memoryTotal := Some(Truncate(value * MIB_TO_BYTES)));
      case GpuTemp => d := d.(temperature := Some(value));
      case PowerUsage => d := d.(power := Some(value));
      case MigMode => d := d.(migEnabled := Some(value == 1.0));
      case Unknown =>
    }
  }

  function Updated(g: GpuDevice, metric: Metric, value: real, seenProf: bool): GpuDevice {
    if IsSentinel(value) then g
    else
      match metric
      case EngineActive => g.(utilization := Some(Percent(value)))
      case GpuUtil => if seenProf then g else g.(utilization := Some(value))
      case TensorActive => g.(tensorActive := Some(Percent(value)))
      case MemCopyUtil => g.(memCopyUtil := Some(value))
      case FbUsed => g.(memoryUsed := Some(Bytes(value)))
      case FbFree => g.(memoryFree := Some(Bytes(value)))
      case FbTotal => g.(memoryTotal := Some(Bytes(value)))
      case GpuTemp => g.(temperature := Some(value))
      case PowerUsage => g.(power := Some(value))
      case MigMode => g.(migEnabled := Some(IsOne(value)))
      case Unknown => g
  }

  lemma LastValueStep(points: seq<Point>, p: Point, key: string, metric: Metric)
    ensures LastValue(points + [p], key, metric) ==
            if IsReading(p, key, metric) then Some(p.value) else LastValue(points, key, metric)
  {
    assert (points + [p])[..|points|] == points;
  }

  lemma FirstLabelsStep(points: seq<Point>, p: Point, key: string)
    ensures FirstLabels(points + [p], key) ==
            var before := FirstLabels(points, key);
            if before.Some? then before else if p.key == key then Some(p.labels) else None
  {
    assert (points + [p])[..|points|] == points;
  }

  lemma NoPointNoValue(points: seq<Point>, key: string, metric: Metric)
    requires key !in Keys(points)
    ensures LastValue(points, key, metric) == None
  {
    if points != [] {
      var last := points[|points| - 1];
      assert points == points[..|points| - 1] + [last];
      assert last in points;
      NoPointNoValue(points[..|points| - 1], key, metric);
    }
  }

  /** One more sample updates its own record and leaves the others alone. */
  lemma CollectedStep(points: seq<Point>, p: Point, key: string)
    requires FirstLabels(points + [p], key).Some?
    ensures key != p.key ==>
              FirstLabels(points, key).Some? && Collected(points + [p], key) == Collected(points, key)
    ensures key == p.key ==>
              Collected(points + [p], key) ==
              Updated(if FirstLabels(points, key).Some? then Collected(points, key) else NewDevice(p.labels),
                      p.metric, p.value, LastValue(points, key, EngineActive).Some?)
  {
    FirstLabelsStep(points, p, key);
    FirstLabelsOfKey(points, key);
    LastValueStep(points, p, key, EngineActive);
    LastValueStep(points, p, key, GpuUtil);
    LastValueStep(points, p, key, TensorActive);
    LastValueStep(points, p, key, MemCopyUtil);
    LastValueStep(points, p, key, FbUsed);
    LastValueStep(points, p, key, FbFree);
    LastValueStep(points, p, key, FbTotal);
    LastValueStep(points, p, key, GpuTemp);
    LastValueStep(points, p, key, PowerUsage);
    LastValueStep(points, p, key, MigMode);
    if key !in Keys(points) {
      NoPointNoValue(points, key, EngineActive);
      NoPointNoValue(points, key, GpuUtil);
      NoPointNoValue(points, key, TensorActive);
      NoPointNoValue(points, key, MemCopyUtil);
      NoPointNoValue(points, key, FbUsed);
      NoPointNoValue(points, key, FbFree);
      NoPointNoValue(points, key, FbTotal);
      NoPointNoValue(points, key, GpuTemp);
      NoPointNoValue(points, key, PowerUsage);
      NoPointNoValue(points, key, MigMode);
    }
  }

  lemma FoldedStep(
    gpus: map<string, GpuDevice>, hasProf: set<string>, points: seq<Point>, p: Point,
    gpus': map<string, GpuDevice>, hasProf': set<string>)
    requires Folded(gpus, hasProf, points)
    requires gpus' == gpus[p.key := Updated(
                       if p.key in gpus then gpus[p.key] else NewDevice(p.labels),
                       p.metric, p.value, p.key in hasProf)]
    requires hasProf' == if p.metric == EngineActive && !IsSentinel(p.value)
                         then hasProf + {p.key} else hasProf
    ensures Folded(gpus', hasProf', points + [p])
  {
    var next := points + [p];
    assert Keys(next) == Keys(points) + {p.key};
    forall k | k in gpus'
      ensures FirstLabels(next, k).Some? && gpus'[k] == Collected(next, k)
    {
      FirstLabelsOfKey(next, k);
      FirstLabelsOfKey(points, k);
      CollectedStep(points, p, k);
    }
    forall k
      ensures k in hasProf' <==> LastValue(next, k, EngineActive).Some?
    {
      LastValueStep(points, p, k, EngineActive);
    }
  }

  lemma PointsStep(samples: seq<Sample>, n: nat)
    requires n < |samples|
    ensures PointsOf(samples[..n + 1]) ==
            var before, p := PointsOf(samples[..n]), PointOf(samples[n]);
            if p.Some? then before + [p.value] else before
  {
    assert samples[..n + 1][..n] == samples[..n];
  }

  /** One pass of the sample loop for a sample that belongs to a GPU. */
  method AddPoint(gpus: map<string, GpuDevice>, hasProf: set<string>, p: Point, ghost points: seq<Point>)
    returns (gpus': map<string, GpuDevice>, hasProf': set<string>)
    requires Folded(gpus, hasProf, points)
    ensures Folded(gpus', hasProf', points + [p])
  {
    var g := if p.key in gpus then gpus[p.key] else NewDevice(p.labels);
    var d, prof := UpdateDevice(g, p.metric, p.value, p.key in hasProf);
    gpus' := gpus[p.key := d];
    hasProf' := if prof then hasProf + {p.key} else hasProf;
    ghost var expected := if p.metric == EngineActive && !IsSentinel(p.value) then hasProf + {p.key} else hasProf;
    assert hasProf' == expected;
    FoldedStep(gpus, hasProf, points, p, gpus', hasProf');
  }

  /** parser.go, ParseDCGMMetrics: the sample loop, then one pass over the map. */
  method FoldSamples(samples: seq<Sample>) returns (result: seq<GpuDevice>)
    ensures ListsRecords(result, PointsOf(samples))
  {
    var gpus: map<string, GpuDevice> := map[];
    var hasProf: set<string> := {};
    ghost var points: seq<Point> := [];
    for n := 0 to |samples|
      invariant points == PointsOf(samples[..n])
      invariant Folded(gpus, hasProf, points)
    {
      PointsStep(samples, n);
      var p := PointOf(samples[n]);
      if p.Some? {
        gpus, hasProf := AddPoint(gpus, hasProf, p.value, points);
        points := points + [p.value];
      }
    }
    assert samples[..|samples|] == samples;
    result := ListCompleted(gpus);
    ListingOfFolded(gpus, hasProf, points, result);
  }

  lemma ListingOfFolded(
    gpus: map<string, GpuDevice>, hasProf: set<string>, points: seq<Point>,
    result: seq<GpuDevice>)
    requires Folded(gpus, hasProf, points) && ListsCompleted(result, gpus)
    ensures ListsRecords(result, points)
  {
    var order :| Enumerates(order, gpus.Keys) && ListsMap(result, gpus, order);
    assert InOrder(result, points, order);
  }

  /** `result` is the completed records of the map, in the given order. */
  ghost predicate ListsMap(result: seq<GpuDevice>, gpus: map<string, GpuDevice>, order: seq<string>) {
    && |result| == |order|
    && forall i :: 0 <= i < |order| ==> order[i] in gpus && result[i] == Completed(gpus[order[i]])
  }

  ghost predicate ListsCompleted(result: seq<GpuDevice>, gpus: map<string, GpuDevice>) {
    exists order :: Enumerates(order, gpus.Keys) && ListsMap(result, gpus, order)
  }

  /** The final pass over the map, in whatever order the map yields its keys. */
  method ListCompleted(gpus: map<string, GpuDevice>) returns (result: seq<GpuDevice>)
    ensures ListsCompleted(result, gpus)
  {
    ghost var order: seq<string>;
    result := [];
    var todo := gpus.Keys;
    order := [];
    while todo != {}
      invariant todo <= gpus.Keys
      invariant Enumerates(order, gpus.Keys - todo)
      invariant ListsMap(result, gpus, order)
      decreases |todo|
    {
      var k :| k in todo;
      var g := gpus[k];
      if g.memoryTotal.None? && g.memoryUsed.Some? && g.memoryFree.Some? {
        g := g.(memoryTotal := Some(g.memoryUsed.value + g.memoryFree.value));
      }
      result := result + [g];
      order := order + [k];
      todo := todo - {k};
    }
    assert gpus.Keys - todo == gpus.Keys;
  }

  // ---- What the description means, and when order does not matter ----

  /** Position `i` holds the last reading of the metric. */
  ghost predicate LastAt(points: seq<Point>, key: string, metric: Metric, i: int) {
    && 0 <= i < |points| && IsReading(points[i], key, metric)
    && forall j :: i < j < |points| ==> !IsReading(points[j], key, metric)
  }

  /** LastValue is the value at the last position that reads the metric. */
  lemma {:induction false} LastValueMeaning(points: seq<Point>, key: string, metric: Metric)
    ensures forall i :: LastAt(points, key, metric, i) ==> LastValue(points, key, metric) == Some(points[i].value)
    ensures LastValue(points, key, metric).Some? ==> exists i :: LastAt(points, key, metric, i)
  {
    if points != [] {
      var n := |points| - 1;
      var p := points[..n];
      LastValueMeaning(p, key, metric);
      if IsReading(points[n], key, metric) {
        assert LastAt(points, key, metric, n);
      } else {
        forall i
          ensures LastAt(points, key, metric, i) <==> LastAt(p, key, metric, i)
        {
          assert forall j :: 0 <= j < n ==> p[j] == points[j];
        }
      }
    }
  }

  /** Samples of one GPU carry the same labels, and readings of one metric agree
      (in particular when there is at most one sample per GPU and metric). */
  ghost predicate Agreeing(points: seq<Point>) {
    forall p, q :: p in points && q in points && p.key == q.key ==>
      && p.labels == q.labels
      && (p.metric == q.metric && !IsSentinel(p.value) && !IsSentinel(q.value) ==> p.value == q.value)
  }

  lemma {:induction false} LastValueMember(points: seq<Point>, key: string, metric: Metric)
    ensures LastValue(points, key, metric).Some? <==> exists p :: p in points && IsReading(p, key, metric)
    ensures LastValue(points, key, metric).Some? ==>
              exists p :: p in points && IsReading(p, key, metric)
                          && p.value == LastValue(points, key, metric).value
  {
    if points != [] {
      LastValueMember(points[..|points| - 1], key, metric);
      assert points == points[..|points| - 1] + [points[|points| - 1]];
    }
  }

  lemma {:induction false} PointsOfMember(samples: seq<Sample>, p: Point)
    ensures p in PointsOf(samples) <==> exists s :: s in samples && PointOf(s) == Some(p)
  {
    if samples != [] {
      PointsOfMember(samples[..|samples| - 1], p);
      assert samples == samples[..|samples| - 1] + [samples[|samples| - 1]];
    }
  }

  lemma SameValues(a: seq<Point>, b: seq<Point>, key: string, metric: Metric)
    requires forall p :: p in a <==> p in b
    requires Agreeing(a)
    ensures LastValue(a, key, metric) == LastValue(b, key, metric)
  {
    LastValueMember(a, key, metric);
    LastValueMember(b, key, metric);
  }

  lemma SameRecord(a: seq<Point>, b: seq<Point>, key: string)
    requires forall p :: p in a <==> p in b
    requires Agreeing(a) && key in Keys(a)
    ensures FirstLabels(a, key).Some? && FirstLabels(b, key).Some?
    ensures Record(a, key) == Record(b, key)
  {
    FirstLabelsOfKey(a, key);
    FirstLabelsOfKey(b, key);
    SameValues(a, b, key, EngineActive);
    SameValues(a, b, key, GpuUtil);
    SameValues(a, b, key, TensorActive);
    SameValues(a, b, key, MemCopyUtil);
    SameValues(a, b, key, FbUsed);
    SameValues(a, b, key, FbFree);
    SameValues(a, b, key, FbTotal);
    SameValues(a, b, key, GpuTemp);
    SameValues(a, b, key, PowerUsage);
    SameValues(a, b, key, MigMode);
  }

  /** Any reordering (indeed any list with the same samples) of agreeing samples yields
      the same keys with the same records. */
  lemma {:induction false} OrderIndependent(a: seq<Sample>, b: seq<Sample>)
    requires forall s :: s in a <==> s in b
    requires Agreeing(PointsOf(a))
    ensures Keys(PointsOf(a)) == Keys(PointsOf(b))
    ensures forall k :: k in Keys(PointsOf(a)) ==>
              FirstLabels(PointsOf(a), k).Some? && FirstLabels(PointsOf(b), k).Some?
              && Record(PointsOf(a), k) == Record(PointsOf(b), k)
  {
    var pa, pb := PointsOf(a), PointsOf(b);
    forall p
      ensures p in pa <==> p in pb
    {
      PointsOfMember(a, p);
      PointsOfMember(b, p);
    }
    forall k | k in Keys(pa)
      ensures FirstLabels(pa, k).Some? && FirstLabels(pb, k).Some? && Record(pa, k) == Record(pb, k)
    {
      SameRecord(pa, pb, k);
    }
  }

  /** Whatever order the two maps are listed in, the results hold the same records. */
  lemma {:induction false} SameResults(a: seq<Sample>, b: seq<Sample>, ra: seq<GpuDevice>, rb: seq<GpuDevice>)
    requires forall s :: s in a <==> s in b
    requires Agreeing(PointsOf(a))
    requires ListsRecords(ra, PointsOf(a)) && ListsRecords(rb, PointsOf(b))
    ensures |ra| == |rb| && forall d :: d in ra <==> d in rb
  {
    var pa, pb := PointsOf(a), PointsOf(b);
    OrderIndependent(a, b);
    var oa :| Enumerates(oa, Keys(pa)) && InOrder(ra, pa, oa);
    var ob :| Enumerates(ob, Keys(pb)) && InOrder(rb, pb, ob);
    EnumerationSize(oa, Keys(pa));
    EnumerationSize(ob, Keys(pb));
    SameListed(pa, pb, ra, rb, oa, ob);
    SameListed(pb, pa, rb, ra, ob, oa);
  }

  lemma SameListed(
    pa: seq<Point>, pb: seq<Point>, ra: seq<GpuDevice>, rb: seq<GpuDevice>, oa: seq<string>, ob: seq<string>)
    requires InOrder(ra, pa, oa) && InOrder(rb, pb, ob)
    requires forall key :: key in oa ==> key in ob
    requires forall key :: key in oa && FirstLabels(pa, key).Some? && FirstLabels(pb, key).Some? ==>
               Record(pa, key) == Record(pb, key)
    ensures forall d :: d in ra ==> d in rb
  {
    forall d | d in ra
      ensures d in rb
    {
      var i :| 0 <= i < |ra| && ra[i] == d;
      assert oa[i] in oa;
      var j :| 0 <= j < |ob| && ob[j] == oa[i];
      assert rb[j] == d;
    }
  }

  /** A profiling sample, wherever it stands, decides the utilization: the last one does. */
  lemma ProfilingPreferred(points: seq<Point>, i: nat, key: string)
    requires i < |points| && IsReading(points[i], key, EngineActive)
    ensures FirstLabels(points, key).Some?
    ensures exists j :: LastAt(points, key, EngineActive, j)
    ensures forall j :: LastAt(points, key, EngineActive, j) ==>
              Record(points, key).utilization == Some(Percent(points[j].value))
  {
    assert points[i] in points;
    FirstLabelsOfKey(points, key);
    LastValueMember(points, key, EngineActive);
    LastValueMeaning(points, key, EngineActive);
    RecordUtilization(points, key);
  }

  lemma RecordUtilization(points: seq<Point>, key: string)
    requires FirstLabels(points, key).Some?
    ensures Record(points, key).utilization ==
            var prof := LastValue(points, key, EngineActive);
            if prof.Some? then Some(Percent(prof.value)) else LastValue(points, key, GpuUtil)
  {
  }

  /** The total is the last reported one, else used plus free when both were reported. */
  lemma RecordMemoryTotal(points: seq<Point>, key: string)
    requires FirstLabels(points, key).Some?
    ensures var total, used, free := LastValue(points, key, FbTotal), LastValue(points, key, FbUsed),
                                     LastValue(points, key, FbFree);
            Record(points, key).memoryTotal ==
            if total.Some? then Some(Bytes(total.value))
            else if used.Some? && free.Some? then Some(Bytes(used.value) + Bytes(free.value))
            else None
  {
  }

  lemma LastIs(points: seq<Point>, key: string, metric: Metric, i: nat)
    requires LastAt(points, key, metric, i)
    ensures LastValue(points, key, metric) == Some(points[i].value)
  {
    LastValueMeaning(points, key, metric);
  }

  lemma LastExists(points: seq<Point>, key: string, metric: Metric)
    ensures LastValue(points, key, metric).Some? <==> exists i :: LastAt(points, key, metric, i)
  {
    LastValueMeaning(points, key, metric);
  }

  /** A reported total, wherever it stands, wins over used plus free: the last one does. */
  lemma TotalPreferred(points: seq<Point>, i: nat, key: string)
    requires i < |points| && LastAt(points, key, FbTotal, i)
    ensures FirstLabels(points, key).Some?
    ensures Record(points, key).memoryTotal == Some(Bytes(points[i].value))
  {
    assert points[i] in points;
    FirstLabelsOfKey(points, key);
    LastIs(points, key, FbTotal, i);
    RecordMemoryTotal(points, key);
  }

  /** Without one, the total is the sum of the last used and the last free reading, wherever
      they stand, and is absent if either is missing. */
  lemma TotalFromParts(points: seq<Point>, key: string)
    requires FirstLabels(points, key).Some?
    requires forall i :: !LastAt(points, key, FbTotal, i)
    ensures Record(points, key).memoryTotal.Some?
            <==> (exists i :: LastAt(points, key, FbUsed, i)) && exists j :: LastAt(points, key, FbFree, j)
    ensures forall i, j :: LastAt(points, key, FbUsed, i) && LastAt(points, key, FbFree, j) ==>
              Record(points, key).memoryTotal == Some(Bytes(points[i].value) + Bytes(points[j].value))
  {
    LastExists(points, key, FbTotal);
    LastExists(points, key, FbUsed);
    LastExists(points, key, FbFree);
    RecordMemoryTotal(points, key);
    forall i, j | LastAt(points, key, FbUsed, i) && LastAt(points, key, FbFree, j)
      ensures Record(points, key).memoryTotal == Some(Bytes(points[i].value) + Bytes(points[j].value))
    {
      LastIs(points, key, FbUsed, i);
      LastIs(points, key, FbFree, j);
    }
  }

  /** The sentinel test has no lower end: a negative reading is kept. */
  lemma NegativeReadingKept(labels: DcgmLabels)
    ensures var points := [Point("g", labels, FbUsed, -1.0)];
            FirstLabels(points, "g").Some? && Record(points, "g").memoryUsed == Some(-1048576)
  {
    var p := Point("g", labels, FbUsed, -1.0);
    assert [p][..0] == [];
    assert LastValue([p], "g", FbUsed) == Some(-1.0);
    assert Bytes(-1.0) == -1048576;
  }
}
