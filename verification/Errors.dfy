/** The error collector (internal/errors/errors.go): a map that is pruned only when it is
    read, against the plain history of calls. Times are integer nanoseconds. */
module Errors {
  import opened Prelude

  const DEFAULT_TTL := 5 * MINUTE

  datatype AgentError = AgentError(code: string, message: string, component: string, timestamp: int)
  datatype Entry = Entry(err: AgentError, lastReport: int)

  const BACKEND_UNREACHABLE := "BACKEND_UNREACHABLE"

  function ErrorKey(code: string, component: string): string {
    Joined(code, '|', component)
  }

  /** A call on the collector, with the clock's reading. */
  datatype Call = Report(at: int, err: AgentError) | Read(at: int) | Clear(at: int)

  /** The entry of the last report with this key since the last Clear. */
  function LastReport(history: seq<Call>, key: string): Option<Entry> {
    if history == [] then None
    else
      match history[|history| - 1]
      case Clear(_) => None
      case Report(at, err) =>
        if ErrorKey(err.code, err.component) == key then Some(Entry(err, at))
        else LastReport(history[..|history| - 1], key)
      case Read(_) => LastReport(history[..|history| - 1], key)
  }

  /** The same, asked by code and component. */
  function LastReportOf(history: seq<Call>, code: string, component: string): Option<Entry> {
    if history == [] then None
    else
      match history[|history| - 1]
      case Clear(_) => None
      case Report(at, err) =>
        if err.code == code && err.component == component then Some(Entry(err, at))
        else LastReportOf(history[..|history| - 1], code, component)
      case Read(_) => LastReportOf(history[..|history| - 1], code, component)
  }

  /** The clock never goes back from one call to the next. */
  ghost predicate Monotone(history: seq<Call>) {
    forall i, j :: 0 <= i < j < |history| ==> history[i].at <= history[j].at
  }

  predicate Fresh(e: Entry, now: int) {
    now - e.lastReport <= DEFAULT_TTL
  }

  /** The map holds last reports only, and what it lacks had expired by the last call. */
  ghost predicate Refines(entries: map<string, Entry>, history: seq<Call>) {
    && (forall k :: k in entries ==> LastReport(history, k) == Some(entries[k]))
    && (forall k :: LastReport(history, k).Some? && k !in entries ==>
          history != [] && !Fresh(LastReport(history, k).value, history[|history| - 1].at))
  }

  function FreshKeys(entries: map<string, Entry>, now: int): set<string> {
    set k | k in entries && Fresh(entries[k], now)
  }

  function Pruned(entries: map<string, Entry>, now: int): map<string, Entry> {
    map k | k in entries && Fresh(entries[k], now) :: entries[k]
  }

  /** `errs` holds the error of every fresh entry once, in some order. */
  ghost predicate ListsFresh(errs: seq<AgentError>, entries: map<string, Entry>, now: int) {
    exists order :: Enumerates(order, FreshKeys(entries, now)) && ErrorsInOrder(errs, entries, order)
  }

  ghost predicate ErrorsInOrder(errs: seq<AgentError>, entries: map<string, Entry>, order: seq<string>) {
    && |errs| == |order|
    && forall i :: 0 <= i < |order| ==> order[i] in entries && errs[i] == entries[order[i]].err
  }

  function FreshCodes(entries: map<string, Entry>, now: int): set<string> {
    set k | k in entries && Fresh(entries[k], now) :: entries[k].err.code
  }

  /** The map after a run of calls. */
  function AfterCalls(history: seq<Call>): map<string, Entry> {
    if history == [] then map[]
    else
      Applied(AfterCalls(history[..|history| - 1]), history[|history| - 1])
  }

  function Applied(entries: map<string, Entry>, c: Call): map<string, Entry> {
    match c
    case Report(at, err) => entries[ErrorKey(err.code, err.component) := Entry(err, at)]
    case Read(at) => Pruned(entries, at)
    case Clear(_) => map[]
  }

  class ErrorCollector {
    var entries: map<string, Entry>
    ghost var history: seq<Call>

    /** The map is the one the history of calls leaves behind. */
    ghost predicate Valid()
      reads this
    {
      entries == AfterCalls(history)
    }

    constructor ()
      ensures Valid() && history == [] && entries == map[]
    {
      entries, history := map[], [];
    }

    method Report(err: AgentError, now: int)
      requires Valid()
      modifies this
      ensures Valid() && history == old(history) + [Call.Report(now, err)]
      ensures entries == old(entries)[ErrorKey(err.code, err.component) := Entry(err, now)]
    {
      entries := entries[ErrorKey(err.code, err.component) := Entry(err, now)];
      assert (history + [Call.Report(now, err)])[..|history|] == history;
      history := history + [Call.Report(now, err)];
    }

    /** The pass over the map shared by the two readers: delete what expired, list the rest. */
    method Prune(now: int) returns (kept: seq<string>)
      modifies this`entries
      ensures entries == Pruned(old(entries), now)
      ensures Enumerates(kept, FreshKeys(old(entries), now))
    {
      kept := [];
      var todo := entries.Keys;
      ghost var all := entries;
      while todo != {}
        invariant todo <= all.Keys
        invariant entries == map k | k in all && (k in todo || Fresh(all[k], now)) :: all[k]
        invariant Enumerates(kept, FreshKeys(all, now) - todo)
        decreases |todo|
      {
        var k :| k in todo;
        todo := todo - {k};
        var e := entries[k];
        if now - e.lastReport > DEFAULT_TTL {
          entries := entries - {k};
          assert FreshKeys(all, now) - todo == FreshKeys(all, now) - todo - {k};
          continue;
        }
        assert k !in kept;
        kept := kept + [k];
      }
      assert FreshKeys(all, now) - todo == FreshKeys(all, now);
    }

    /** errors.go, GetActiveErrors. */
    method GetActiveErrors(now: int) returns (errs: seq<AgentError>)
      requires Valid()
      modifies this
      ensures Valid() && history == old(history) + [Read(now)]
      ensures entries == Pruned(old(entries), now)
      ensures ListsFresh(errs, old(entries), now)
    {
      ghost var all := entries;
      var kept := Prune(now);
      errs := [];
      for i := 0 to |kept|
        invariant |errs| == i && forall j :: 0 <= j < i ==> kept[j] in all && errs[j] == all[kept[j]].err
      {
        assert kept[i] in FreshKeys(all, now);
        errs := errs + [entries[kept[i]].err];
      }
      assert ErrorsInOrder(errs, all, kept);
      assert (history + [Read(now)])[..|history|] == history;
      history := history + [Read(now)];
    }

    /** errors.go, GetActiveErrorCodes. */
    method GetActiveErrorCodes(now: int) returns (codes: seq<string>)
      requires Valid()
      modifies this
      ensures Valid() && history == old(history) + [Read(now)]
      ensures entries == Pruned(old(entries), now)
      ensures Enumerates(codes, FreshCodes(old(entries), now))
    {
      ghost var all := entries;
      var kept := Prune(now);
      codes := [];
      var seen: set<string> := {};
      ghost var done: set<string> := {};
      for i := 0 to |kept|
        invariant done == set j | 0 <= j < i :: kept[j]
        invariant done <= FreshKeys(all, now)
        invariant seen == set k | k in done :: all[k].err.code
        invariant Enumerates(codes, seen)
      {
        assert kept[i] in FreshKeys(all, now);
        var code := entries[kept[i]].err.code;
        ghost var seen0 := seen;
        if code !in seen {
          assert code !in codes;
          seen := seen + {code};
          codes := codes + [code];
        }
        done := done + {kept[i]};
        assert seen == seen0 + {code};
      }
      assert done == FreshKeys(all, now);
      assert (history + [Read(now)])[..|history|] == history;
      history := history + [Read(now)];
    }

    method Clear(now: int)
      requires Valid()
      modifies this
      ensures Valid() && history == old(history) + [Call.Clear(now)]
      ensures entries == map[]
    {
      entries := map[];
      history := history + [Call.Clear(now)];
    }
  }

  lemma MonotonePrefix(history: seq<Call>, c: Call)
    ensures Monotone(history + [c]) ==> Monotone(history)
    ensures Monotone(history + [c]) && history != [] ==> history[|history| - 1].at <= c.at
  {
    var h := history + [c];
    assert forall i :: 0 <= i < |history| ==> h[i] == history[i];
    if history != [] {
      assert h[|history| - 1].at == history[|history| - 1].at && h[|history|] == c;
    }
  }

  lemma LastReportStep(history: seq<Call>, c: Call, key: string)
    ensures LastReport(history + [c], key) ==
            match c
            case Clear(_) => None
            case Report(at, err) =>
              if ErrorKey(err.code, err.component) == key then Some(Entry(err, at)) else LastReport(history, key)
            case Read(_) => LastReport(history, key)
  {
    assert (history + [c])[..|history|] == history;
  }

  lemma CallRefines(entries: map<string, Entry>, history: seq<Call>, c: Call)
    requires Refines(entries, history) && Monotone(history + [c])
    ensures Refines(Applied(entries, c), history + [c])
  {
    MonotonePrefix(history, c);
    forall k {
      LastReportStep(history, c, k);
    }
  }

  /** After any run of calls under a clock that never goes back, the map refines the plain
      history of reports, although expired entries are deleted only by readers. */
  lemma {:induction false} RunRefines(history: seq<Call>)
    requires Monotone(history)
    ensures Refines(AfterCalls(history), history)
  {
    if history != [] {
      var p, c := history[..|history| - 1], history[|history| - 1];
      assert history == p + [c];
      MonotonePrefix(p, c);
      RunRefines(p);
      CallRefines(AfterCalls(p), p, c);
    }
  }

  // ---- What a reader gets, in terms of the history ----

  /** The keys whose last report since the last Clear is at most five minutes old. */
  ghost predicate ActiveAt(history: seq<Call>, key: string, now: int) {
    LastReport(history, key).Some? && Fresh(LastReport(history, key).value, now)
  }

  /** Lazy deletion is invisible: at a later reading, the fresh entries of the map are
      exactly the active keys of the history, with their last reports. */
  lemma FreshIsActive(entries: map<string, Entry>, history: seq<Call>, now: int)
    requires Refines(entries, history)
    requires history != [] ==> history[|history| - 1].at <= now
    ensures forall k :: k in FreshKeys(entries, now) <==> ActiveAt(history, k, now)
    ensures forall k :: k in FreshKeys(entries, now) ==> LastReport(history, k) == Some(entries[k])
  {
  }

  ghost predicate PlainCodes(history: seq<Call>) {
    forall i :: 0 <= i < |history| && history[i].Report? ==> '|' !in history[i].err.code
  }

  predicate Reports(c: Call, code: string, component: string) {
    c.Report? && c.err.code == code && c.err.component == component
  }

  predicate Shadows(c: Call, code: string, component: string) {
    c.Report? && Collide('|', c.err.code, c.err.component, code, component)
  }

  /** An error of another pair took the pair's key, and neither the pair nor a Clear came after. */
  ghost predicate Hidden(history: seq<Call>, code: string, component: string) {
    exists i :: 0 <= i < |history| && Shadows(history[i], code, component)
      && forall j :: i < j < |history| ==> !Reports(history[j], code, component) && !history[j].Clear?
  }

  /** A report has the key of a pair if it is the pair's or shadows it. */
  lemma KeyTaken(c: Call, code: string, component: string)
    requires c.Report?
    ensures ErrorKey(c.err.code, c.err.component) == ErrorKey(code, component)
            <==> Reports(c, code, component) || Shadows(c, code, component)
    ensures !(Reports(c, code, component) && Shadows(c, code, component))
  {
    JoinedEqualIff('|', c.err.code, c.err.component, code, component);
    NoSelfCollision('|', code, component);
  }

  /** Asking by key and asking by pair differ exactly for hidden pairs. */
  lemma {:induction false} KeyedIsPairedIff(history: seq<Call>, code: string, component: string)
    ensures LastReport(history, ErrorKey(code, component)) == LastReportOf(history, code, component)
            <==> !Hidden(history, code, component)
  {
    if history != [] {
      var p, c := history[..|history| - 1], history[|history| - 1];
      assert history == p + [c];
      KeyedIsPairedIff(p, code, component);
      if c.Report? {
        KeyTaken(c, code, component);
      }
      LastReportHasPair(p, code, component);
      PairedStep(p, c, ErrorKey(code, component), code, component);
    }
  }

  lemma PairedStep(p: seq<Call>, c: Call, key: string, code: string, component: string)
    requires LastReport(p, key) == LastReportOf(p, code, component) <==> !Hidden(p, code, component)
    requires c.Report? ==> (ErrorKey(c.err.code, c.err.component) == key
                            <==> Reports(c, code, component) || Shadows(c, code, component))
    requires !(Reports(c, code, component) && Shadows(c, code, component))
    requires var r := LastReportOf(p, code, component);
             r.Some? ==> r.value.err.code == code && r.value.err.component == component
    ensures LastReport(p + [c], key) == LastReportOf(p + [c], code, component) <==> !Hidden(p + [c], code, component)
  {
    var h := p + [c];
    assert h[..|p|] == p && h[|p|] == c;
    if Shadows(c, code, component) {
      assert LastReport(h, key) == Some(Entry(c.err, c.at));
      assert LastReportOf(h, code, component) == LastReportOf(p, code, component);
      assert !Reports(c, code, component);
      assert Shadows(h[|p|], code, component);
    } else if Reports(c, code, component) || c.Clear? {
      assert !Hidden(h, code, component);
    } else {
      HiddenStep(p, c, code, component);
    }
  }

  /** A call that has nothing to do with the pair does not change whether it is hidden. */
  lemma HiddenStep(p: seq<Call>, c: Call, code: string, component: string)
    requires !Shadows(c, code, component) && !Reports(c, code, component) && !c.Clear?
    ensures Hidden(p + [c], code, component) <==> Hidden(p, code, component)
  {
    var h := p + [c];
    if Hidden(p, code, component) {
      var i :| 0 <= i < |p| && Shadows(p[i], code, component)
        && forall j :: i < j < |p| ==> !Reports(p[j], code, component) && !p[j].Clear?;
      assert h[i] == p[i];
    }
    if Hidden(h, code, component) {
      var i :| 0 <= i < |h| && Shadows(h[i], code, component)
        && forall j :: i < j < |h| ==> !Reports(h[j], code, component) && !h[j].Clear?;
      assert i < |p| && p[i] == h[i];
      assert forall j :: i < j < |p| ==> p[j] == h[j];
    }
  }

  lemma {:induction false} LastReportHasPair(history: seq<Call>, code: string, component: string)
    ensures var r := LastReportOf(history, code, component);
            r.Some? ==> r.value.err.code == code && r.value.err.component == component
  {
    if history != [] {
      LastReportHasPair(history[..|history| - 1], code, component);
    }
  }

  /** A last report under a key is the last report of its own pair. */
  lemma {:induction false} LastOfKeyIsOfPair(history: seq<Call>, code: string, component: string)
    requires var r := LastReport(history, ErrorKey(code, component));
             r.Some? && r.value.err.code == code && r.value.err.component == component
    ensures LastReportOf(history, code, component) == LastReport(history, ErrorKey(code, component))
  {
    var c := history[|history| - 1];
    if !Reports(c, code, component) {
      LastOfKeyIsOfPair(history[..|history| - 1], code, component);
    }
  }

  lemma {:induction false} LastReportOfReported(history: seq<Call>, code: string, component: string)
    requires LastReportOf(history, code, component).Some?
    ensures exists i :: 0 <= i < |history| && history[i].Report?
                        && history[i].err.code == code && history[i].err.component == component
  {
    var n := |history| - 1;
    if !(history[n].Report? && history[n].err.code == code && history[n].err.component == component) {
      LastReportOfReported(history[..n], code, component);
      var i :| 0 <= i < n && history[..n][i].Report?
               && history[..n][i].err.code == code && history[..n][i].err.component == component;
      assert history[i].Report?;
    }
  }

  /** While only codes without '|' are reported, no reported pair is hidden. */
  lemma PlainNotHidden(history: seq<Call>, code: string, component: string)
    requires PlainCodes(history) && LastReportOf(history, code, component).Some?
    ensures !Hidden(history, code, component)
  {
    LastReportOfReported(history, code, component);
    forall i | 0 <= i < |history|
      ensures !Shadows(history[i], code, component)
    {
      if Shadows(history[i], code, component) {
        var e := history[i].err;
        CollisionNeedsSeparator('|', e.code, e.component, code, component);
        assert false;
      }
    }
  }

  lemma {:induction false} LastReportKeyed(history: seq<Call>, key: string)
    requires LastReport(history, key).Some?
    ensures var e := LastReport(history, key).value;
            ErrorKey(e.err.code, e.err.component) == key && Report(e.lastReport, e.err) in history
  {
    var c := history[|history| - 1];
    assert history == history[..|history| - 1] + [c];
    if !(c.Report? && ErrorKey(c.err.code, c.err.component) == key) {
      LastReportKeyed(history[..|history| - 1], key);
    }
  }

  ghost predicate ActivePair(history: seq<Call>, code: string, component: string, now: int) {
    LastReportOf(history, code, component).Some? && Fresh(LastReportOf(history, code, component).value, now)
  }

  /** A reading returns at most one error per (code, component), each of them the last report
      of a pair that is active in the plain history; and it returns the error of an active
      pair if and only if the pair is not hidden. */
  lemma ReadingIsHistory(history: seq<Call>, now: int, errs: seq<AgentError>)
    requires Monotone(history + [Read(now)])
    requires ListsFresh(errs, AfterCalls(history), now)
    ensures forall i, j :: 0 <= i < j < |errs| ==> errs[i].code != errs[j].code || errs[i].component != errs[j].component
    ensures forall i :: 0 <= i < |errs| ==>
              && ActivePair(history, errs[i].code, errs[i].component, now)
              && LastReportOf(history, errs[i].code, errs[i].component).value.err == errs[i]
    ensures forall code, component :: ActivePair(history, code, component, now) ==>
              (LastReportOf(history, code, component).value.err in errs <==> !Hidden(history, code, component))
  {
    var entries := AfterCalls(history);
    var order :| Enumerates(order, FreshKeys(entries, now)) && ErrorsInOrder(errs, entries, order);
    MonotonePrefix(history, Read(now));
    RunRefines(history);
    FreshIsActive(entries, history, now);
    forall i | 0 <= i < |errs|
      ensures ErrorKey(errs[i].code, errs[i].component) == order[i]
      ensures ActivePair(history, errs[i].code, errs[i].component, now)
      ensures LastReportOf(history, errs[i].code, errs[i].component).value.err == errs[i]
    {
      assert order[i] in FreshKeys(entries, now);
      LastReportKeyed(history, order[i]);
      LastOfKeyIsOfPair(history, errs[i].code, errs[i].component);
    }
    forall code, component | ActivePair(history, code, component, now)
      ensures LastReportOf(history, code, component).value.err in errs <==> !Hidden(history, code, component)
    {
      ReturnedIff(history, now, errs, order, code, component);
    }
  }

  lemma ReturnedIff(
    history: seq<Call>, now: int, errs: seq<AgentError>, order: seq<string>, code: string, component: string)
    requires Refines(AfterCalls(history), history) && (history != [] ==> history[|history| - 1].at <= now)
    requires Enumerates(order, FreshKeys(AfterCalls(history), now)) && ErrorsInOrder(errs, AfterCalls(history), order)
    requires forall i :: 0 <= i < |errs| ==> ErrorKey(errs[i].code, errs[i].component) == order[i]
    requires ActivePair(history, code, component, now)
    ensures LastReportOf(history, code, component).value.err in errs <==> !Hidden(history, code, component)
  {
    var k, e := ErrorKey(code, component), LastReportOf(history, code, component).value;
    FreshIsActive(AfterCalls(history), history, now);
    KeyedIsPairedIff(history, code, component);
    LastReportHasPair(history, code, component);
    if !Hidden(history, code, component) {
      assert k in FreshKeys(AfterCalls(history), now);
      var i :| 0 <= i < |order| && order[i] == k;
      assert errs[i] == e.err;
    }
    if e.err in errs {
      var i :| 0 <= i < |errs| && errs[i] == e.err;
      assert order[i] == k && order[i] in FreshKeys(AfterCalls(history), now);
      LastOfKeyIsOfPair(history, code, component);
    }
  }

  /** Call `i` is the last report of the pair, and nothing was cleared since. */
  ghost predicate LastOfPair(history: seq<Call>, code: string, component: string, i: int) {
    && 0 <= i < |history| && Reports(history[i], code, component)
    && forall j :: i < j < |history| ==> !Reports(history[j], code, component) && !history[j].Clear?
  }

  lemma {:induction false} LastOfPairMeaning(history: seq<Call>, code: string, component: string)
    ensures forall i :: LastOfPair(history, code, component, i) ==>
              LastReportOf(history, code, component) == Some(Entry(history[i].err, history[i].at))
    ensures LastReportOf(history, code, component).Some? ==> exists i :: LastOfPair(history, code, component, i)
  {
    if history != [] {
      var n := |history| - 1;
      var p, c := history[..n], history[n];
      LastOfPairMeaning(p, code, component);
      if Reports(c, code, component) {
        assert LastOfPair(history, code, component, n);
      } else if !c.Clear? {
        forall i
          ensures LastOfPair(history, code, component, i) <==> LastOfPair(p, code, component, i)
        {
          assert forall j :: 0 <= j < n ==> p[j] == history[j];
        }
      }
    }
  }

  /** In terms of the calls alone: each error read is the last report of its pair, since which
      nothing was cleared and at most 300 seconds passed; and of the pairs with such a report
      those are read that are not hidden. */
  lemma ReadingByCalls(history: seq<Call>, now: int, errs: seq<AgentError>)
    requires Monotone(history + [Read(now)])
    requires ListsFresh(errs, AfterCalls(history), now)
    ensures forall e :: e in errs ==>
              exists i :: LastOfPair(history, e.code, e.component, i)
                          && history[i].err == e && now - history[i].at <= 300_000_000_000
    ensures forall code, component, i ::
              LastOfPair(history, code, component, i) && now - history[i].at <= 300_000_000_000 ==>
              (history[i].err in errs <==> !Hidden(history, code, component))
  {
    ReadingIsHistory(history, now, errs);
    forall e | e in errs
      ensures exists i :: LastOfPair(history, e.code, e.component, i)
                          && history[i].err == e && now - history[i].at <= 300_000_000_000
    {
      LastOfPairMeaning(history, e.code, e.component);
    }
    forall code, component, i | LastOfPair(history, code, component, i) && now - history[i].at <= 300_000_000_000
      ensures history[i].err in errs <==> !Hidden(history, code, component)
    {
      LastOfPairMeaning(history, code, component);
      assert ActivePair(history, code, component, now);
    }
  }

  /** The codes read at the same instant are the codes of those errors, without repeats. */
  lemma CodesAreErrorCodes(entries: map<string, Entry>, now: int, errs: seq<AgentError>, codes: seq<string>)
    requires ListsFresh(errs, entries, now) && Enumerates(codes, FreshCodes(entries, now))
    ensures forall c :: c in codes <==> exists e :: e in errs && e.code == c
    ensures forall i, j :: 0 <= i < j < |codes| ==> codes[i] != codes[j]
  {
    var order :| Enumerates(order, FreshKeys(entries, now)) && ErrorsInOrder(errs, entries, order);
    forall c | c in codes
      ensures exists e :: e in errs && e.code == c
    {
      var k :| k in entries && Fresh(entries[k], now) && entries[k].err.code == c;
      assert k in FreshKeys(entries, now);
      var i :| 0 <= i < |order| && order[i] == k;
      assert errs[i] in errs;
    }
    forall e | e in errs
      ensures e.code in codes
    {
      var i :| 0 <= i < |errs| && errs[i] == e;
      assert order[i] in FreshKeys(entries, now);
      assert e.code in FreshCodes(entries, now);
    }
  }

  /** Codes with a '|' could share a key, but every code the agent reports is plain. */
  lemma KnownCodesPlain(code: string)
    requires code in KNOWN_CODES
    ensures '|' !in code
  {
  }

  const KNOWN_CODES: seq<string> := [
    "METRICS_UNAVAILABLE", "INFORMER_SYNC_FAILED", "INFORMER_SYNC_TIMEOUT", BACKEND_UNREACHABLE,
    "SNAPSHOT_BUILD_FAILED", "COMPRESSION_FAILED", "AUTH_FAILED", "BUFFER_FULL",
    "CRD_NOT_FOUND", "DISCOVERY_FAILED", "TIMEOUT", "PARTIAL_DATA"]

  /** While only declared codes are reported, every active pair's error is returned. */
  lemma KnownCodesReturned(history: seq<Call>, now: int, errs: seq<AgentError>, code: string, component: string)
    requires Monotone(history + [Read(now)]) && ListsFresh(errs, AfterCalls(history), now)
    requires forall i :: 0 <= i < |history| && history[i].Report? ==> history[i].err.code in KNOWN_CODES
    requires ActivePair(history, code, component, now)
    ensures LastReportOf(history, code, component).value.err in errs
  {
    forall i | 0 <= i < |history| && history[i].Report?
      ensures '|' !in history[i].err.code
    {
      KnownCodesPlain(history[i].err.code);
    }
    PlainNotHidden(history, code, component);
    ReadingIsHistory(history, now, errs);
  }

  /** Two errors of different pairs, reported one after the other, are both returned if and
      only if their pairs do not share a key. */
  lemma BothReturnedIff(e1: AgentError, e2: AgentError, at: int, errs: seq<AgentError>)
    requires e1.code != e2.code || e1.component != e2.component
    requires ListsFresh(errs, AfterCalls([Report(at, e1), Report(at, e2)]), at)
    ensures e1 in errs && e2 in errs <==> !Collide('|', e1.code, e1.component, e2.code, e2.component)
  {
    var k1, k2 := ErrorKey(e1.code, e1.component), ErrorKey(e2.code, e2.component);
    var entries := map[k1 := Entry(e1, at)][k2 := Entry(e2, at)];
    var first, second := Report(at, e1), Report(at, e2);
    assert [first][..0] == [] && [first, second][..1] == [first];
    assert AfterCalls([first]) == map[k1 := Entry(e1, at)];
    assert AfterCalls([first, second]) == entries;
    JoinedEqualIff('|', e1.code, e1.component, e2.code, e2.component);
    var order :| Enumerates(order, FreshKeys(entries, at)) && ErrorsInOrder(errs, entries, order);
    assert k1 in order && k2 in order;
    var j :| 0 <= j < |order| && order[j] == k2;
    assert errs[j] == e2;
    if k1 != k2 {
      var i :| 0 <= i < |order| && order[i] == k1;
      assert errs[i] == e1;
    } else {
      assert forall i :: 0 <= i < |errs| ==> order[i] in order && errs[i] == e2;
    }
  }
}
