/** The snapshot-send loop (internal/agent/agent.go) as a transition system over ticks and
    backend status events, with the class that runs it. */
module AgentLoop {
  import opened StateMachine

  /** A status code delivered to the state machine. */
  datatype Status = Status(at: int, code: int, retryAfter: int)

  /** One call of Send: the statuses delivered while it is in flight, and how it ends. */
  datatype SendScript = SendScript(inFlight: seq<Status>, ok: bool, doneAt: int)

  /** What the loop meets next: a status between ticks, a tick, or the context's end. */
  datatype Input = Backend(status: Status) | Tick(at: int, send: SendScript) | Cancel

  /** The counters a snapshot carries. */
  datatype Report = Report(total: int, sent: int, failed: int, sentDelta: int, failedDelta: int,
    state: AgentState, reason: string)

  /** A send, with what the loop saw when it decided to send. */
  datatype SendStart = SendStart(at: int, observed: AgentState, until: int)

  datatype Exit = Live | Cancelled | Finished

  datatype Agent = Agent(
    sm: Machine, sent: int, failed: int, total: int, prevSent: int, prevFailed: int,
    reports: seq<Report>, sends: seq<SendStart>, exit: Exit)

  function Deliver(m: Machine, statuses: seq<Status>): Machine {
    if statuses == [] then m
    else
      var s := statuses[|statuses| - 1];
      HandleStatus(Deliver(m, statuses[..|statuses| - 1]), s.code, s.retryAfter, s.at)
  }

  function PopulateHealth(a: Agent): Agent {
    a.(reports := a.reports + [Report(a.total, a.sent, a.failed, a.sent - a.prevSent, a.failed - a.prevFailed,
                                      a.sm.state, a.sm.reason)],
       prevSent := a.sent, prevFailed := a.failed)
  }

  /** A successful send counts and sets the state to running, unless the machine stopped. */
  function Complete(a: Agent, script: SendScript): Agent {
    var sm := Deliver(a.sm, script.inFlight);
    if !script.ok then a.(sm := sm, total := a.total + 1, failed := a.failed + 1)
    else
      a.(sm := if IsTerminal(sm.state) then sm else HandleStatus(sm, 200, 0, script.doneAt),
         total := a.total + 1, sent := a.sent + 1)
  }

  function DoSnapshot(a: Agent, start: SendStart, script: SendScript): Agent {
    Complete(PopulateHealth(a).(sends := a.sends + [start]), script)
  }

  /** The switch of the main loop on the state it observes. */
  function OnTick(a: Agent, at: int, script: SendScript): Agent {
    var start := SendStart(at, a.sm.state, a.sm.backoffUntil);
    match a.sm.state
    case Running => DoSnapshot(a, start, script)
    case Backoff =>
      if Expired(a.sm, at)
      then DoSnapshot(a.(sm := Transition(a.sm, Running, "backoff expired")), start, script)
      else a
    case Starting => a
    case _ => a.(exit := Finished)
  }

  function Checked(a: Agent): Agent {
    if IsTerminal(a.sm.state) then a.(exit := Finished) else a
  }

  function Step(a: Agent, input: Input): Agent {
    if a.exit != Live then a
    else
      match input
      case Cancel => a.(exit := Cancelled)
      case Backend(s) => a.(sm := HandleStatus(a.sm, s.code, s.retryAfter, s.at))
      case Tick(at, script) => Checked(OnTick(a, at, script))
  }

  function RunFrom(a: Agent, inputs: seq<Input>): Agent
    decreases |inputs|
  {
    if inputs == [] then a else RunFrom(Step(a, inputs[0]), inputs[1..])
  }

  /** The agent when the main loop begins: running, first snapshot sent whatever the state. */
  function Started(sm: Machine, at: int, first: SendScript): Agent {
    var running := Transition(sm.(hasCancel := true), Running, "informers synced");
    DoSnapshot(Agent(running, 0, 0, 0, 0, 0, [], [], Live), SendStart(at, Running, running.backoffUntil), first)
  }

  // ---- The class ----

  class AgentRunner {
    const stateMachine: StateMachine
    var snapshotsSent: int
    var snapshotsFailed: int
    var snapshotsTotal: int
    var prevSnapshotsSent: int
    var prevSnapshotsFailed: int
    var reports: seq<Report>
    var sends: seq<SendStart>
    var exit: Exit

    function View(): Agent
      reads this, stateMachine
    {
      Agent(stateMachine.View(), snapshotsSent, snapshotsFailed, snapshotsTotal,
            prevSnapshotsSent, prevSnapshotsFailed, reports, sends, exit)
    }

    constructor (sm: StateMachine)
      ensures stateMachine == sm
      ensures View() == Agent(sm.View(), 0, 0, 0, 0, 0, [], [], Live)
    {
      stateMachine := sm;
      snapshotsSent, snapshotsFailed, snapshotsTotal := 0, 0, 0;
      prevSnapshotsSent, prevSnapshotsFailed := 0, 0;
      reports, sends, exit := [], [], Live;
    }

    /** The counter and delta part of agent.go, populateHealth. */
    method FillHealth()
      modifies this
      ensures View() == PopulateHealth(old(View()))
    {
      var h := Report(snapshotsTotal, snapshotsSent, snapshotsFailed,
        snapshotsSent - prevSnapshotsSent, snapshotsFailed - prevSnapshotsFailed,
        stateMachine.state, stateMachine.stateReason);
      prevSnapshotsSent := snapshotsSent;
      prevSnapshotsFailed := snapshotsFailed;
      reports := reports + [h];
    }

    /** Statuses arriving while Send is in flight. */
    method ReceiveInFlight(statuses: seq<Status>)
      modifies stateMachine
      ensures stateMachine.View() == Deliver(old(stateMachine.View()), statuses)
    {
      for i := 0 to |statuses|
        invariant stateMachine.View() == Deliver(old(stateMachine.View()), statuses[..i])
      {
        assert statuses[..i + 1][..i] == statuses[..i];
        stateMachine.HandleHTTPStatus(statuses[i].code, statuses[i].retryAfter, statuses[i].at);
      }
      assert statuses[..|statuses|] == statuses;
    }

    /** agent.go, doSnapshot. */
    method Snapshot(start: SendStart, script: SendScript)
      modifies this, stateMachine
      ensures View() == DoSnapshot(old(View()), start, script)
    {
      FillHealth();
      sends := sends + [start];
      ReceiveInFlight(script.inFlight);
      snapshotsTotal := snapshotsTotal + 1;
      if !script.ok {
        snapshotsFailed := snapshotsFailed + 1;
        return;
      }
      snapshotsSent := snapshotsSent + 1;
      if stateMachine.state == Stopped || stateMachine.state == Exiting {
        return;
      }
      stateMachine.HandleHTTPStatus(200, 0, script.doneAt);
    }

    /** One pass of the main loop after a tick. */
    method HandleTick(at: int, script: SendScript)
      requires exit == Live
      modifies this, stateMachine
      ensures View() == Checked(OnTick(old(View()), at, script))
    {
      var start := SendStart(at, stateMachine.state, stateMachine.backoffUntil);
      match stateMachine.state {
        case Running => Snapshot(start, script);
        case Backoff =>
          var expired := stateMachine.IsBackoffExpired(at);
          if expired {
            stateMachine.TransitionTo(Running, "backoff expired");
            Snapshot(start, script);
          }
        case Starting =>
        case _ =>
          exit := Finished;
          return;
      }
      if stateMachine.state == Stopped || stateMachine.state == Exiting {
        exit := Finished;
      }
    }

    /** agent.go, Run, from the transition to running on. */
    method Run(at: int, first: SendScript, inputs: seq<Input>)
      requires View() == Agent(stateMachine.View(), 0, 0, 0, 0, 0, [], [], Live)
      modifies this, stateMachine
      ensures View() == RunFrom(Started(old(stateMachine.View()), at, first), inputs)
    {
      ghost var sm0 := stateMachine.View();
      stateMachine.SetCancelFunc();
      stateMachine.TransitionTo(Running, "informers synced");
      Snapshot(SendStart(at, Running, stateMachine.backoffUntil), first);
      ghost var begun := View();
      assert begun == Started(sm0, at, first);
      var i := 0;
      assert inputs[0..] == inputs;
      while i < |inputs| && exit == Live
        invariant 0 <= i <= |inputs|
        invariant RunFrom(begun, inputs) == RunFrom(View(), inputs[i..])
      {
        ghost var before := View();
        assert inputs[i..][1..] == inputs[i + 1..];
        match inputs[i] {
          case Cancel => exit := Cancelled;
          case Backend(s) => stateMachine.HandleHTTPStatus(s.code, s.retryAfter, s.at);
          case Tick(t, script) => HandleTick(t, script);
        }
        assert View() == Step(before, inputs[i]);
        i := i + 1;
      }
      if exit != Live {
        ExitIsFinal(View(), inputs[i..]);
      }
    }
  }

  // ---- Whole runs ----

  /** After the loop returns nothing happens any more. */
  lemma {:induction false} ExitIsFinal(a: Agent, inputs: seq<Input>)
    requires a.exit != Live
    ensures RunFrom(a, inputs) == a
    decreases |inputs|
  {
    if inputs != [] {
      ExitIsFinal(a, inputs[1..]);
    }
  }

  lemma {:induction false} RunConcat(a: Agent, xs: seq<Input>, ys: seq<Input>)
    ensures RunFrom(a, xs + ys) == RunFrom(RunFrom(a, xs), ys)
    decreases |xs|
  {
    if xs == [] {
      assert xs + ys == ys;
    } else {
      assert (xs + ys)[0] == xs[0] && (xs + ys)[1..] == xs[1..] + ys;
      RunConcat(Step(a, xs[0]), xs[1..], ys);
    }
  }

  /** Cancellation ends the run at once, whenever it comes: no later input matters. */
  lemma CancelEndsRun(a: Agent, earlier: seq<Input>, later: seq<Input>)
    ensures var before, r := RunFrom(a, earlier), RunFrom(a, earlier + ([Cancel] + later));
            r.exit != Live && r == before.(exit := r.exit)
  {
    RunConcat(a, earlier, [Cancel] + later);
    var b := RunFrom(a, earlier);
    assert ([Cancel] + later)[1..] == later;
    ExitIsFinal(Step(b, Cancel), later);
  }

  predicate Gated(s: SendStart) {
    s.observed == Running || (s.observed == Backoff && s.at > s.until)
  }

  /** Sends are only added, and every added one is gated. */
  lemma {:induction false} RunGated(a: Agent, inputs: seq<Input>)
    ensures a.sends <= RunFrom(a, inputs).sends
    ensures forall i :: |a.sends| <= i < |RunFrom(a, inputs).sends| ==> Gated(RunFrom(a, inputs).sends[i])
    decreases |inputs|
  {
    if inputs != [] {
      var b := Step(a, inputs[0]);
      RunGated(b, inputs[1..]);
      var r := RunFrom(b, inputs[1..]);
      assert a.sends <= b.sends;
      forall i | |a.sends| <= i < |r.sends|
        ensures Gated(r.sends[i])
      {
        if i < |b.sends| {
          assert b.sends[i] == r.sends[i];
        }
      }
    }
  }

  /** In every run, each send after the first starts with the state running, or backing off
      with the time strictly past the backoff's end. */
  lemma SendGating(sm: Machine, at: int, first: SendScript, inputs: seq<Input>)
    ensures var r := RunFrom(Started(sm, at, first), inputs);
            |r.sends| >= 1 && forall i :: 1 <= i < |r.sends| ==> Gated(r.sends[i])
  {
    RunGated(Started(sm, at, first), inputs);
  }

  /** The status can neither set the machine running nor move its deadline. */
  predicate KeepsStopped(s: Status) {
    s.code !in {200, 402, 429}
  }

  predicate NoneResumes(statuses: seq<Status>) {
    forall i :: 0 <= i < |statuses| ==> KeepsStopped(statuses[i])
  }

  predicate NoInputResumes(inputs: seq<Input>) {
    forall i :: 0 <= i < |inputs| && inputs[i].Backend? ==> KeepsStopped(inputs[i].status)
  }

  /** Stopped for good, or backing off until `d`. */
  predicate HeldUntil(m: Machine, d: int) {
    IsTerminal(m.state) || (m.state == Backoff && m.backoffUntil == d)
  }

  lemma {:induction false} HeldDelivery(m: Machine, statuses: seq<Status>, d: int)
    requires HeldUntil(m, d) && NoneResumes(statuses)
    ensures HeldUntil(Deliver(m, statuses), d)
    ensures IsTerminal(m.state) ==> IsTerminal(Deliver(m, statuses).state)
  {
    if statuses != [] {
      var s := statuses[|statuses| - 1];
      HeldDelivery(m, statuses[..|statuses| - 1], d);
      var reached := Deliver(m, statuses[..|statuses| - 1]);
      if IsTerminal(reached.state) {
        TerminalClosedIff(reached, s.code, s.retryAfter, s.at);
      }
    }
  }

  lemma DeliverOne(m: Machine, before: seq<Status>, s: Status)
    ensures Deliver(m, before + [s]) == HandleStatus(Deliver(m, before), s.code, s.retryAfter, s.at)
  {
    assert (before + [s])[..|before|] == before;
  }

  lemma {:induction false} DeliverConcat(m: Machine, xs: seq<Status>, ys: seq<Status>)
    ensures Deliver(m, xs + ys) == Deliver(Deliver(m, xs), ys)
  {
    if ys == [] {
      assert xs + ys == xs;
    } else {
      assert (xs + ys)[..|xs + ys| - 1] == xs + ys[..|ys| - 1];
      DeliverConcat(m, xs, ys[..|ys| - 1]);
    }
  }

  /** What a status left behind holds through the rest of the delivery. */
  lemma HeldAfter(m: Machine, before: seq<Status>, s: Status, rest: seq<Status>, d: int)
    requires NoneResumes(rest)
    requires HeldUntil(HandleStatus(Deliver(m, before), s.code, s.retryAfter, s.at), d)
    ensures var reached := HandleStatus(Deliver(m, before), s.code, s.retryAfter, s.at);
            var r := Deliver(m, before + [s] + rest);
            HeldUntil(r, d) && (IsTerminal(reached.state) ==> IsTerminal(r.state))
  {
    DeliverOne(m, before, s);
    DeliverConcat(m, before + [s], rest);
    HeldDelivery(Deliver(m, before + [s]), rest, d);
  }

  lemma {:induction false} HeldDelaysNextSend(a: Agent, d: int, inputs: seq<Input>)
    requires HeldUntil(a.sm, d) && NoInputResumes(inputs)
    ensures var r := RunFrom(a, inputs); |r.sends| > |a.sends| ==> r.sends[|a.sends|].at > d
    decreases |inputs|
  {
    if inputs != [] {
      var b := Step(a, inputs[0]);
      if |b.sends| > |a.sends| {
        RunGated(b, inputs[1..]);
        assert b.sends[|a.sends|] == RunFrom(a, inputs).sends[|a.sends|];
      } else if b.exit != Live {
        ExitIsFinal(b, inputs[1..]);
      } else {
        assert forall i :: 0 <= i < |inputs[1..]| ==> inputs[1..][i] == inputs[i + 1];
        HeldDelaysNextSend(b, d, inputs[1..]);
      }
    }
  }

  /** While backing off, whatever statuses but 200, 402 and 429 arrive, the next send starts
      strictly after the deadline. */
  lemma BackoffDelaysNextSend(a: Agent, inputs: seq<Input>)
    requires a.sm.state == Backoff && NoInputResumes(inputs)
    ensures var r := RunFrom(a, inputs);
            |r.sends| > |a.sends| ==> r.sends[|a.sends|].at > a.sm.backoffUntil
  {
    HeldDelaysNextSend(a, a.sm.backoffUntil, inputs);
  }

  /** A 402 or 429 between ticks delays the next send past its deadline unless a later 200,
      402 or 429 overrides it; so does one that arrives while a send is in flight that then
      fails. */
  lemma DeadlineRespected(a: Agent, s: Status, later: seq<Input>)
    requires a.exit == Live && s.code in {402, 429} && NoInputResumes(later)
    ensures var r := RunFrom(a, [Backend(s)] + later);
            |r.sends| > |a.sends| ==> r.sends[|a.sends|].at > s.at + BackoffFor(s.code, s.retryAfter)
  {
    var inputs := [Backend(s)] + later;
    assert inputs[1..] == later;
    BackoffDelaysNextSend(Step(a, inputs[0]), later);
  }

  lemma FailedSendHeld(a: Agent, start: SendStart, script: SendScript, d: int)
    requires !script.ok && HeldUntil(Deliver(a.sm, script.inFlight), d)
    ensures HeldUntil(DoSnapshot(a, start, script).sm, d)
  {
  }

  lemma DeadlineRespectedInFlight(
    a: Agent, start: SendStart, before: seq<Status>, s: Status, rest: seq<Status>, doneAt: int, later: seq<Input>)
    requires s.code in {402, 429} && NoneResumes(rest) && NoInputResumes(later)
    ensures var b := DoSnapshot(a, start, SendScript(before + [s] + rest, false, doneAt));
            var r := RunFrom(b, later);
            |r.sends| > |b.sends| ==> r.sends[|b.sends|].at > s.at + BackoffFor(s.code, s.retryAfter)
  {
    var d := s.at + BackoffFor(s.code, s.retryAfter);
    HeldAfter(a.sm, before, s, rest, d);
    FailedSendHeld(a, start, SendScript(before + [s] + rest, false, doneAt), d);
    HeldDelaysNextSend(DoSnapshot(a, start, SendScript(before + [s] + rest, false, doneAt)), d, later);
  }

  /** A success overrides a backoff that arrived while the send was in flight. */
  lemma SuccessOverridesBackoff(a: Agent, start: SendStart, script: SendScript)
    requires script.ok && Deliver(a.sm, script.inFlight).state == Backoff
    ensures DoSnapshot(a, start, script).sm.state == Running
  {
  }

  /** A backoff that arrives during a send which then succeeds is void: whatever statuses but
      402, 429 and a stopping one come in between, the next tick sends, before the deadline
      or after it. */
  lemma VoidBackoffSends(
    a: Agent, start: SendStart, script: SendScript, between: seq<Input>, at: int, next: SendScript)
    requires a.exit == Live && script.ok && Deliver(a.sm, script.inFlight).state == Backoff
    requires forall i :: 0 <= i < |between| ==>
               between[i].Backend? && between[i].status.code !in {401, 402, 403, 410, 429}
    ensures var b := DoSnapshot(a, start, script);
            var r := RunFrom(b, between + [Tick(at, next)]);
            |r.sends| == |b.sends| + 1 && r.sends[|b.sends|].at == at && r.sends[|b.sends|].observed == Running
  {
    SuccessOverridesBackoff(a, start, script);
    StaysRunning(DoSnapshot(a, start, script), between, at, next);
  }

  lemma {:induction false} StaysRunning(b: Agent, between: seq<Input>, at: int, next: SendScript)
    requires b.exit == Live && b.sm.state == Running
    requires forall i :: 0 <= i < |between| ==>
               between[i].Backend? && between[i].status.code !in {401, 402, 403, 410, 429}
    ensures var r := RunFrom(b, between + [Tick(at, next)]);
            |r.sends| == |b.sends| + 1 && r.sends[|b.sends|].at == at && r.sends[|b.sends|].observed == Running
    decreases |between|
  {
    var inputs := between + [Tick(at, next)];
    if between == [] {
      assert inputs[1..] == [];
    } else {
      assert inputs[0] == between[0] && inputs[1..] == between[1..] + [Tick(at, next)];
      assert forall i :: 0 <= i < |between[1..]| ==> between[1..][i] == between[i + 1];
      StaysRunning(Step(b, between[0]), between[1..], at, next);
    }
  }

  /** In Backoff a tick is skipped exactly up to and including the deadline, the one instant
      at which nothing remains and the backoff still holds. */
  lemma SkippedUpToDeadline(a: Agent, at: int, script: SendScript)
    requires a.exit == Live && a.sm.state == Backoff
    ensures Step(a, Tick(at, script)).sends == a.sends <==> at <= a.sm.backoffUntil
    ensures Step(a, Tick(at, script)).sends == a.sends && Remaining(a.sm, at) == 0 <==> at == a.sm.backoffUntil
  {
    ExpiryBoundary(a.sm, at);
    var b := Step(a, Tick(at, script));
    assert at > a.sm.backoffUntil ==> |b.sends| == |a.sends| + 1;
  }

  /** A tick at this time sends. */
  predicate Sends(m: Machine, at: int) {
    m.state == Running || (m.state == Backoff && Expired(m, at))
  }

  /** The machine as the send leaves with it: an expired backoff is lifted first. */
  function Sending(m: Machine): Machine {
    if m.state == Running then m else Transition(m, Running, "backoff expired")
  }

  /** A machine stopped during a send stays stopped when the send succeeds, and the loop
      returns on that tick. */
  lemma SuccessDoesNotRevive(a: Agent, at: int, script: SendScript)
    requires a.exit == Live && Sends(a.sm, at)
    requires IsTerminal(Deliver(Sending(a.sm), script.inFlight).state)
    ensures var b := Step(a, Tick(at, script));
            b.sm == Deliver(Sending(a.sm), script.inFlight) && b.exit == Finished
  {
  }

  lemma StoppedTick(a: Agent, at: int, script: SendScript, later: seq<Input>)
    requires a.exit == Live && Sends(a.sm, at)
    requires IsTerminal(Deliver(Sending(a.sm), script.inFlight).state)
    ensures var r := RunFrom(a, [Tick(at, script)] + later);
            r.exit == Finished && IsTerminal(r.sm.state)
            && r.sends == a.sends + [SendStart(at, a.sm.state, a.sm.backoffUntil)]
  {
    var inputs := [Tick(at, script)] + later;
    assert inputs[1..] == later;
    SuccessDoesNotRevive(a, at, script);
    ExitIsFinal(Step(a, inputs[0]), later);
  }

  /** A 401, 403 or 410 during a send ends the run on that tick, however the send ends, if
      no 200, 402 or 429 follows it in flight: no later input matters. */
  lemma StopInFlightEndsRun(
    a: Agent, at: int, before: seq<Status>, s: Status, rest: seq<Status>, ok: bool, doneAt: int, later: seq<Input>)
    requires a.exit == Live && Sends(a.sm, at)
    requires s.code in {401, 403, 410} && NoneResumes(rest)
    ensures var r := RunFrom(a, [Tick(at, SendScript(before + [s] + rest, ok, doneAt))] + later);
            r.exit == Finished && IsTerminal(r.sm.state)
            && r.sends == a.sends + [SendStart(at, a.sm.state, a.sm.backoffUntil)]
  {
    var m, script := Sending(a.sm), SendScript(before + [s] + rest, ok, doneAt);
    HeldAfter(m, before, s, rest, 0);
    StoppedTick(a, at, script, later);
  }

  /** The same guard holds for the first snapshot, which no tick precedes: a machine stopped
      during it sends nothing else, and the first tick ends the loop. */
  lemma FirstSnapshotDoesNotRevive(sm: Machine, at: int, first: SendScript, later: seq<Input>)
    requires var running := Transition(sm.(hasCancel := true), Running, "informers synced");
             IsTerminal(Deliver(running, first.inFlight).state)
    requires NoInputResumes(later)
    ensures var running := Transition(sm.(hasCancel := true), Running, "informers synced");
            Started(sm, at, first).sm == Deliver(running, first.inFlight)
    ensures |RunFrom(Started(sm, at, first), later).sends| == 1
    ensures (exists i :: 0 <= i < |later| && later[i].Tick?) ==> RunFrom(Started(sm, at, first), later).exit != Live
  {
    StoppedSendsNothing(Started(sm, at, first), later);
  }

  /** Once stopped or exiting, no send ever starts again unless a 200, 402 or 429 arrives,
      and the next tick ends the loop. */
  lemma {:induction false} StoppedSendsNothing(a: Agent, inputs: seq<Input>)
    requires IsTerminal(a.sm.state) && NoInputResumes(inputs)
    ensures RunFrom(a, inputs).sends == a.sends
    ensures a.exit == Live && (exists i :: 0 <= i < |inputs| && inputs[i].Tick?) ==> RunFrom(a, inputs).exit != Live
    decreases |inputs|
  {
    if inputs != [] {
      var b := Step(a, inputs[0]);
      if b.exit != Live {
        ExitIsFinal(b, inputs[1..]);
      } else {
        assert forall i :: 0 <= i < |inputs[1..]| ==> inputs[1..][i] == inputs[i + 1];
        StoppedSendsNothing(b, inputs[1..]);
        if exists i :: 0 <= i < |inputs| && inputs[i].Tick? {
          var i :| 0 <= i < |inputs| && inputs[i].Tick?;
          assert inputs[1..][i - 1].Tick?;
        }
      }
    }
  }

  /** Without statuses from outside (this repository delivers none but its own 200) the
      agent never backs off and never stops: every tick sends. */
  lemma {:induction false} AloneAlwaysSends(a: Agent, inputs: seq<Input>)
    requires a.exit == Live && a.sm.state == Running
    requires forall i :: 0 <= i < |inputs| ==> inputs[i].Tick? && inputs[i].send.inFlight == []
    ensures var r := RunFrom(a, inputs);
            r.exit == Live && r.sm.state == Running && |r.sends| == |a.sends| + |inputs|
    decreases |inputs|
  {
    if inputs != [] {
      assert forall i :: 0 <= i < |inputs[1..]| ==> inputs[1..][i] == inputs[i + 1];
      AloneAlwaysSends(Step(a, inputs[0]), inputs[1..]);
    }
  }

  // ---- Counters ----

  function SentDeltas(reports: seq<Report>): int {
    if reports == [] then 0 else SentDeltas(reports[..|reports| - 1]) + reports[|reports| - 1].sentDelta
  }

  function FailedDeltas(reports: seq<Report>): int {
    if reports == [] then 0 else FailedDeltas(reports[..|reports| - 1]) + reports[|reports| - 1].failedDelta
  }

  /** The i-th report counts i snapshots, and its deltas are those since the previous one. */
  ghost predicate ReportsTelescope(reports: seq<Report>) {
    forall i :: 0 <= i < |reports| ==> Telescopes(reports[i], i, reports[..i + 1])
  }

  predicate Telescopes(r: Report, i: nat, upTo: seq<Report>) {
    && r.total == i == r.sent + r.failed
    && r.sentDelta >= 0 && r.failedDelta >= 0
    && r.sentDelta + r.failedDelta == (if i == 0 then 0 else 1)
    && SentDeltas(upTo) == r.sent && FailedDeltas(upTo) == r.failed
  }

  ghost predicate CountersAgree(a: Agent) {
    && a.total == |a.reports| == a.sent + a.failed
    && a.prevSent <= a.sent && a.prevFailed <= a.failed
    && a.prevSent + a.prevFailed == (if a.total == 0 then 0 else a.total - 1)
    && a.prevSent == SentDeltas(a.reports) && a.prevFailed == FailedDeltas(a.reports)
    && ReportsTelescope(a.reports)
  }

  lemma DeltasStep(reports: seq<Report>, r: Report)
    ensures SentDeltas(reports + [r]) == SentDeltas(reports) + r.sentDelta
    ensures FailedDeltas(reports + [r]) == FailedDeltas(reports) + r.failedDelta
  {
    assert (reports + [r])[..|reports|] == reports;
  }

  lemma TelescopeStep(reports: seq<Report>, r: Report)
    requires ReportsTelescope(reports) && Telescopes(r, |reports|, reports + [r])
    ensures ReportsTelescope(reports + [r])
  {
    var all := reports + [r];
    forall i | 0 <= i < |all|
      ensures Telescopes(all[i], i, all[..i + 1])
    {
      if i < |reports| {
        assert all[i] == reports[i] && all[..i + 1] == reports[..i + 1];
      } else {
        assert all[..i + 1] == all;
      }
    }
  }

  lemma SnapshotCounts(a: Agent, start: SendStart, script: SendScript)
    requires CountersAgree(a)
    ensures CountersAgree(DoSnapshot(a, start, script))
  {
    var r := PopulateHealth(a).reports[|a.reports|];
    DeltasStep(a.reports, r);
    TelescopeStep(a.reports, r);
  }

  /** The counters do not depend on the machine or on the exit flag. */
  lemma CountersOnly(a: Agent, sm: Machine, exit: Exit)
    requires CountersAgree(a)
    ensures CountersAgree(a.(sm := sm, exit := exit))
  {
  }

  lemma TickCounts(a: Agent, at: int, script: SendScript)
    requires CountersAgree(a)
    ensures CountersAgree(OnTick(a, at, script))
  {
    var start := SendStart(at, a.sm.state, a.sm.backoffUntil);
    match a.sm.state {
      case Running => SnapshotCounts(a, start, script);
      case Backoff =>
        var running := Transition(a.sm, Running, "backoff expired");
        CountersOnly(a, running, a.exit);
        SnapshotCounts(a.(sm := running), start, script);
      case _ =>
        CountersOnly(a, a.sm, Finished);
    }
  }

  lemma StepCounts(a: Agent, input: Input)
    requires CountersAgree(a)
    ensures CountersAgree(Step(a, input))
  {
    match input {
      case Tick(at, script) =>
        TickCounts(a, at, script);
        var b := OnTick(a, at, script);
        CountersOnly(b, b.sm, Finished);
      case Backend(s) => CountersOnly(a, HandleStatus(a.sm, s.code, s.retryAfter, s.at), a.exit);
      case Cancel => CountersOnly(a, a.sm, Cancelled);
    }
  }

  lemma {:induction false} RunCounts(a: Agent, inputs: seq<Input>)
    requires CountersAgree(a)
    ensures CountersAgree(RunFrom(a, inputs))
    decreases |inputs|
  {
    if inputs != [] {
      StepCounts(a, inputs[0]);
      RunCounts(Step(a, inputs[0]), inputs[1..]);
    }
  }

  /** In every run, report i carries total i = sent + failed, the deltas up to it add up to
      its totals, and every report after the first accounts for exactly one send. */
  lemma CounterTelescoping(sm: Machine, at: int, first: SendScript, inputs: seq<Input>)
    ensures ReportsTelescope(RunFrom(Started(sm, at, first), inputs).reports)
    ensures |RunFrom(Started(sm, at, first), inputs).reports| == |RunFrom(Started(sm, at, first), inputs).sends|
  {
    var running := Transition(sm.(hasCancel := true), Running, "informers synced");
    var fresh0 := Agent(running, 0, 0, 0, 0, 0, [], [], Live);
    SnapshotCounts(fresh0, SendStart(at, Running, running.backoffUntil), first);
    RunCounts(Started(sm, at, first), inputs);
    OneReportPerSend(Started(sm, at, first), inputs);
  }

  lemma {:induction false} OneReportPerSend(a: Agent, inputs: seq<Input>)
    requires |a.reports| == |a.sends|
    ensures |RunFrom(a, inputs).reports| == |RunFrom(a, inputs).sends|
    decreases |inputs|
  {
    if inputs != [] {
      OneReportPerSend(Step(a, inputs[0]), inputs[1..]);
    }
  }
}
