/** The counters of the send loop (internal/agent/agent.go, doSnapshot and populateHealth)
    against how each send ended. */
module AgentCounters {
  import opened Prelude
  import opened StateMachine
  import opened AgentLoop

  function Successes(scripts: seq<SendScript>): nat {
    if scripts == [] then 0
    else
      var before := Successes(scripts[..|scripts| - 1]);
      if scripts[|scripts| - 1].ok then before + 1 else before
  }

  function Failures(scripts: seq<SendScript>): nat {
    if scripts == [] then 0
    else
      var before := Failures(scripts[..|scripts| - 1]);
      if scripts[|scripts| - 1].ok then before else before + 1
  }

  /** The sends of a run, in order: those of the ticks that sent. */
  function ScriptsFrom(a: Agent, inputs: seq<Input>): seq<SendScript>
    decreases |inputs|
  {
    if inputs == [] then []
    else
      var b := Step(a, inputs[0]);
      var rest := ScriptsFrom(b, inputs[1..]);
      if inputs[0].Tick? && |b.sends| > |a.sends| then [inputs[0].send] + rest else rest
  }

  /** Report `i` counts the sends before it, and its deltas are the last one's outcome. */
  predicate Counts(r: Report, scripts: seq<SendScript>, i: nat)
    requires i <= |scripts|
  {
    && r.total == i && r.sent == Successes(scripts[..i]) && r.failed == Failures(scripts[..i])
    && r.sentDelta == (if i > 0 && scripts[i - 1].ok then 1 else 0)
    && r.failedDelta == (if i > 0 && !scripts[i - 1].ok then 1 else 0)
    && r.state == Running
  }

  ghost predicate ReportsCount(reports: seq<Report>, scripts: seq<SendScript>) {
    |reports| == |scripts| && forall i :: 0 <= i < |reports| ==> Counts(reports[i], scripts, i)
  }

  /** The agent's own counters after these sends. */
  ghost predicate Tallies(a: Agent, scripts: seq<SendScript>) {
    && a.total == |scripts| && a.sent == Successes(scripts) && a.failed == Failures(scripts)
    && if scripts == [] then a.prevSent == 0 && a.prevFailed == 0
       else
         var before := scripts[..|scripts| - 1];
         a.prevSent == Successes(before) && a.prevFailed == Failures(before)
  }

  ghost predicate Counted(a: Agent, scripts: seq<SendScript>) {
    Tallies(a, scripts) && ReportsCount(a.reports, scripts) && |a.sends| == |scripts|
  }

  lemma CountStep(scripts: seq<SendScript>, s: SendScript)
    ensures Successes(scripts + [s]) == if s.ok then Successes(scripts) + 1 else Successes(scripts)
    ensures Failures(scripts + [s]) == if s.ok then Failures(scripts) else Failures(scripts) + 1
  {
    assert (scripts + [s])[..|scripts|] == scripts;
  }

  lemma ReportsStep(reports: seq<Report>, scripts: seq<SendScript>, r: Report, s: SendScript)
    requires ReportsCount(reports, scripts) && Counts(r, scripts, |scripts|)
    ensures ReportsCount(reports + [r], scripts + [s])
  {
    var all := scripts + [s];
    forall i | 0 <= i <= |reports|
      ensures Counts((reports + [r])[i], all, i)
    {
      assert all[..i] == scripts[..i];
      assert i > 0 ==> all[i - 1] == scripts[i - 1];
    }
  }

  /** What the next report says. */
  lemma NextReport(a: Agent, scripts: seq<SendScript>)
    requires Tallies(a, scripts) && a.sm.state == Running
    ensures Counts(Report(a.total, a.sent, a.failed, a.sent - a.prevSent, a.failed - a.prevFailed,
                          a.sm.state, a.sm.reason), scripts, |scripts|)
  {
    assert scripts[..|scripts|] == scripts;
  }

  lemma NextTallies(a: Agent, scripts: seq<SendScript>, start: SendStart, s: SendScript)
    requires Tallies(a, scripts)
    ensures Tallies(DoSnapshot(a, start, s), scripts + [s])
  {
    CountStep(scripts, s);
    assert (scripts + [s])[..|scripts|] == scripts;
  }

  lemma SnapshotCounted(a: Agent, scripts: seq<SendScript>, start: SendStart, s: SendScript)
    requires Counted(a, scripts) && a.sm.state == Running
    ensures Counted(DoSnapshot(a, start, s), scripts + [s])
  {
    NextReport(a, scripts);
    NextTallies(a, scripts, start, s);
    ReportsStep(a.reports, scripts,
                Report(a.total, a.sent, a.failed, a.sent - a.prevSent, a.failed - a.prevFailed, a.sm.state, a.sm.reason),
                s);
  }

  /** Nothing but a send touches the counters. */
  lemma QuietStep(a: Agent, b: Agent, scripts: seq<SendScript>)
    requires Counted(a, scripts) && b == a.(sm := b.sm, exit := b.exit)
    ensures Counted(b, scripts)
  {
  }

  lemma TickCounted(a: Agent, scripts: seq<SendScript>, at: int, s: SendScript)
    requires Counted(a, scripts) && a.exit == Live
    ensures var b := Step(a, Tick(at, s));
            Counted(b, if |b.sends| > |a.sends| then scripts + [s] else scripts)
  {
    var start, b := SendStart(at, a.sm.state, a.sm.backoffUntil), Step(a, Tick(at, s));
    if a.sm.state == Running {
      SnapshotCounted(a, scripts, start, s);
      QuietStep(DoSnapshot(a, start, s), b, scripts + [s]);
    } else if a.sm.state == Backoff && Expired(a.sm, at) {
      var lifted := a.(sm := Transition(a.sm, Running, "backoff expired"));
      QuietStep(a, lifted, scripts);
      SnapshotCounted(lifted, scripts, start, s);
      QuietStep(DoSnapshot(lifted, start, s), b, scripts + [s]);
    } else {
      QuietStep(a, b, scripts);
    }
  }

  lemma StepCounted(a: Agent, scripts: seq<SendScript>, input: Input)
    requires Counted(a, scripts)
    ensures var b := Step(a, input);
            Counted(b, if input.Tick? && |b.sends| > |a.sends| then scripts + [input.send] else scripts)
  {
    if a.exit == Live && input.Tick? {
      TickCounted(a, scripts, input.at, input.send);
    } else {
      QuietStep(a, Step(a, input), scripts);
    }
  }

  lemma {:induction false} RunCounted(a: Agent, scripts: seq<SendScript>, inputs: seq<Input>)
    requires Counted(a, scripts)
    ensures Counted(RunFrom(a, inputs), scripts + ScriptsFrom(a, inputs))
    decreases |inputs|
  {
    if inputs == [] {
      assert scripts + [] == scripts;
    } else {
      var b := Step(a, inputs[0]);
      StepCounted(a, scripts, inputs[0]);
      if inputs[0].Tick? && |b.sends| > |a.sends| {
        RunCounted(b, scripts + [inputs[0].send], inputs[1..]);
        Assoc(scripts, [inputs[0].send], ScriptsFrom(b, inputs[1..]));
      } else {
        RunCounted(b, scripts, inputs[1..]);
      }
    }
  }

  /** In every run, the i-th report says how many of the first i sends succeeded and how many
      failed, its deltas are the outcome of the send before it, and it is made while running;
      the final counters count all sends. */
  lemma CountersFollowSends(sm: Machine, at: int, first: SendScript, inputs: seq<Input>)
    ensures var a := Started(sm, at, first);
            var r, scripts := RunFrom(a, inputs), [first] + ScriptsFrom(a, inputs);
            && ReportsCount(r.reports, scripts) && |r.sends| == |scripts|
            && r.total == |scripts| && r.sent == Successes(scripts) && r.failed == Failures(scripts)
  {
    var running := Transition(sm.(hasCancel := true), Running, "informers synced");
    SnapshotCounted(Agent(running, 0, 0, 0, 0, 0, [], [], Live), [], SendStart(at, Running, running.backoffUntil), first);
    EmptyLeft([first]);
    RunCounted(Started(sm, at, first), [first], inputs);
  }

  /** The first report gives the start as its reason, one made on lifting a backoff that. */
  ghost predicate ReasonsGiven(a: Agent) {
    && |a.reports| == |a.sends| && a.reports != [] && a.reports[0].reason == "informers synced"
    && forall i :: 1 <= i < |a.sends| && a.sends[i].observed == Backoff ==> a.reports[i].reason == "backoff expired"
  }

  lemma StepReasons(a: Agent, input: Input)
    requires ReasonsGiven(a)
    ensures ReasonsGiven(Step(a, input))
  {
  }

  lemma {:induction false} RunReasons(a: Agent, inputs: seq<Input>)
    requires ReasonsGiven(a)
    ensures ReasonsGiven(RunFrom(a, inputs))
    decreases |inputs|
  {
    if inputs != [] {
      StepReasons(a, inputs[0]);
      RunReasons(Step(a, inputs[0]), inputs[1..]);
    }
  }

  /** In every run, what the reports give as the reason of the running state. */
  lemma ReasonsReported(sm: Machine, at: int, first: SendScript, inputs: seq<Input>)
    ensures ReasonsGiven(RunFrom(Started(sm, at, first), inputs))
  {
    RunReasons(Started(sm, at, first), inputs);
  }

  function TickSends(inputs: seq<Input>): seq<SendScript> {
    if inputs == [] then []
    else if inputs[0].Tick? then [inputs[0].send] + TickSends(inputs[1..])
    else TickSends(inputs[1..])
  }

  lemma {:induction false} CountFirst(s: SendScript, scripts: seq<SendScript>)
    ensures Successes([s] + scripts) == if s.ok then Successes(scripts) + 1 else Successes(scripts)
    ensures Failures([s] + scripts) == if s.ok then Failures(scripts) else Failures(scripts) + 1
  {
    if scripts == [] {
      assert [s] + scripts == [] + [s];
      CountStep([], s);
    } else {
      var p, last := scripts[..|scripts| - 1], scripts[|scripts| - 1];
      CountFirst(s, p);
      CountStep([s] + p, last);
      assert [s] + scripts == [s] + p + [last];
    }
  }

  /** Without statuses from outside, `sent` grows by the number of ticks whose send is ok and
      `failed` by the number of the others. */
  lemma {:induction false} AloneCountsTicks(a: Agent, inputs: seq<Input>)
    requires a.exit == Live && a.sm.state == Running
    requires forall i :: 0 <= i < |inputs| ==> inputs[i].Tick? && inputs[i].send.inFlight == []
    ensures var r := RunFrom(a, inputs);
            && r.sent == a.sent + Successes(TickSends(inputs)) && r.failed == a.failed + Failures(TickSends(inputs))
            && r.total == a.total + |inputs|
    decreases |inputs|
  {
    if inputs != [] {
      assert forall i :: 0 <= i < |inputs[1..]| ==> inputs[1..][i] == inputs[i + 1];
      var b := Step(a, inputs[0]);
      AloneCountsTicks(b, inputs[1..]);
      CountFirst(inputs[0].send, TickSends(inputs[1..]));
    }
  }
}
