/** Informer crash recovery (internal/collector/resource/runner.go), the collector's Stop
    and the health check (internal/collector/resource/health.go) as concurrent steps over
    the two channels `stop` and `done`. */
module Informer {
  const MAX_RETRIES := 3
  const BACKOFF_SECONDS := 5

  /** Where the runner goroutine is. */
  datatype Pc =
    | LoopTop    // about to test the attempt counter
    | Sleeping   // in the backoff before a restart
    | Running    // inside informer.Run
    | Returned   // Run came back, stop not yet looked at
    | Leaving    // out of the loop, the deferred close pending
    | Gone

  /** A health check that saw `done` closed and has still to look at `stop`. */
  datatype Probe = Probe(afterStop: bool)

  /** A health check's answer, with what held when it was given. */
  datatype Verdict = Verdict(healthy: bool, afterStop: bool, runsEnded: nat, stopOpen: bool)

  datatype State = State(
    pc: Pc, attempt: nat, stop: bool, done: bool,
    starts: nat, startsAfterStop: nat, runsEnded: nat, closes: nat, slept: nat,
    stopReturned: bool, probes: map<nat, Probe>, verdicts: seq<Verdict>)

  const INITIAL := State(LoopTop, 0, false, false, 0, 0, 0, 0, 0, false, map[], [])

  datatype Action =
    | EnterLoop | Wake | RunReturns | CheckStop | CloseDone  // the runner
    | CloseStop | StopReturns                                // callers of Stop
    | LookAtDone(id: nat) | LookAtStop(id: nat)              // callers of the health check

  predicate IsRunnerAction(a: Action) {
    a.EnterLoop? || a.Wake? || a.RunReturns? || a.CheckStop? || a.CloseDone?
  }

  predicate Enabled(s: State, a: Action) {
    match a
    case EnterLoop => s.pc == LoopTop
    case Wake => s.pc == Sleeping
    case RunReturns => s.pc == Running
    case CheckStop => s.pc == Returned
    case CloseDone => s.pc == Leaving
    case CloseStop => true
    case StopReturns => s.stop && s.done
    case LookAtDone(id) => id !in s.probes
    case LookAtStop(id) => id in s.probes
  }

  function StartRun(s: State): State {
    s.(pc := Running, starts := s.starts + 1,
       startsAfterStop := s.startsAfterStop + if s.stop then 1 else 0)
  }

  /** One atomic step; a step that is not enabled changes nothing. */
  function Next(s: State, a: Action): State {
    if !Enabled(s, a) then s
    else
      match a
      case EnterLoop =>
        if s.attempt > MAX_RETRIES then s.(pc := Leaving)
        else if s.attempt > 0 then s.(pc := Sleeping)
        else StartRun(s)
      case Wake => StartRun(s.(slept := s.slept + s.attempt * BACKOFF_SECONDS))
      case RunReturns => s.(pc := Returned, runsEnded := s.runsEnded + 1)
      case CheckStop => if s.stop then s.(pc := Leaving) else s.(pc := LoopTop, attempt := s.attempt + 1)
      case CloseDone => s.(pc := Gone, done := true, closes := s.closes + 1)
      case CloseStop => s.(stop := true)
      case StopReturns => s.(stopReturned := true)
      case LookAtDone(id) =>
        if s.done then s.(probes := s.probes[id := Probe(s.stopReturned)])
        else s.(verdicts := s.verdicts + [Verdict(true, s.stopReturned, s.runsEnded, !s.stop)])
      case LookAtStop(id) =>
        s.(probes := s.probes - {id},
           verdicts := s.verdicts + [Verdict(s.stop, s.probes[id].afterStop, s.runsEnded, !s.stop)])
  }

  /** The state after any interleaving of the three parties' steps. */
  function After(actions: seq<Action>): State {
    if actions == [] then INITIAL else Next(After(actions[..|actions| - 1]), actions[|actions| - 1])
  }

  /** The backoff slept before the given attempt starts. */
  function SleptBefore(attempt: nat): nat {
    if attempt == 0 then 0 else SleptBefore(attempt - 1) + attempt * BACKOFF_SECONDS
  }

  ghost predicate RunnerInv(s: State) {
    match s.pc
    case LoopTop =>
      && s.attempt <= MAX_RETRIES + 1 && s.starts == s.runsEnded == s.attempt && s.startsAfterStop == 0
      && s.slept == (if s.attempt == 0 then 0 else SleptBefore(s.attempt - 1))
    case Sleeping =>
      && 1 <= s.attempt <= MAX_RETRIES && s.starts == s.runsEnded == s.attempt && s.startsAfterStop == 0
      && s.slept == SleptBefore(s.attempt - 1)
    case Running =>
      && s.attempt <= MAX_RETRIES && s.starts == s.attempt + 1 && s.runsEnded == s.attempt
      && s.slept == SleptBefore(s.attempt)
    case Returned =>
      && s.attempt <= MAX_RETRIES && s.starts == s.runsEnded == s.attempt + 1
      && s.slept == SleptBefore(s.attempt)
    case _ =>
      && s.starts == s.runsEnded && 1 <= s.starts <= MAX_RETRIES + 1
      && (s.stop || s.runsEnded == MAX_RETRIES + 1)
      && s.slept == SleptBefore(s.starts - 1)
  }

  ghost predicate VerdictInv(v: Verdict) {
    && (!v.healthy ==> v.runsEnded == MAX_RETRIES + 1 && v.stopOpen)
    && (v.afterStop ==> v.healthy)
  }

  /** What holds of the channels and of the answers given so far. */
  ghost predicate ObserverInv(s: State) {
    && (s.done <==> s.pc == Gone) && s.closes == (if s.pc == Gone then 1 else 0)
    && s.startsAfterStop <= 1 && (!s.stop ==> s.startsAfterStop == 0)
    && (s.stopReturned ==> s.stop && s.done)
    && (forall id :: id in s.probes ==> s.done && (s.probes[id].afterStop ==> s.stop))
    && (forall i :: 0 <= i < |s.verdicts| ==> VerdictInv(s.verdicts[i]))
  }

  ghost predicate Inv(s: State) {
    RunnerInv(s) && ObserverInv(s)
  }

  lemma EnterKeepsRunner(s: State)
    requires RunnerInv(s) && s.pc == LoopTop
    ensures RunnerInv(Next(s, EnterLoop))
  {
  }

  lemma WakeKeepsRunner(s: State)
    requires RunnerInv(s) && s.pc == Sleeping
    ensures RunnerInv(Next(s, Wake))
  {
  }

  lemma ReturnKeepsRunner(s: State)
    requires RunnerInv(s) && s.pc == Running
    ensures RunnerInv(Next(s, RunReturns))
  {
  }

  lemma CheckKeepsRunner(s: State)
    requires RunnerInv(s) && s.pc == Returned && (!s.stop ==> s.startsAfterStop == 0)
    ensures RunnerInv(Next(s, CheckStop))
  {
  }

  lemma CloseKeepsRunner(s: State)
    requires RunnerInv(s) && s.pc == Leaving
    ensures RunnerInv(Next(s, CloseDone))
  {
  }

  lemma OthersKeepRunner(s: State, a: Action)
    requires RunnerInv(s) && !IsRunnerAction(a)
    ensures RunnerInv(Next(s, a))
  {
  }

  lemma NextKeepsObserver(s: State, a: Action)
    requires Inv(s)
    ensures ObserverInv(Next(s, a))
  {
    var t := Next(s, a);
    if Enabled(s, a) {
      match a {
        case LookAtDone(id) =>
          if !s.done {
            assert VerdictInv(t.verdicts[|s.verdicts|]);
          }
        case LookAtStop(id) =>
          assert VerdictInv(t.verdicts[|s.verdicts|]);
        case _ =>
          assert t.probes == s.probes && t.verdicts == s.verdicts;
      }
    }
  }

  /** No step of any party breaks the invariant. */
  lemma NextKeepsInv(s: State, a: Action)
    requires Inv(s)
    ensures Inv(Next(s, a))
  {
    NextKeepsObserver(s, a);
    if Enabled(s, a) {
      match a {
        case EnterLoop => EnterKeepsRunner(s);
        case Wake => WakeKeepsRunner(s);
        case RunReturns => ReturnKeepsRunner(s);
        case CheckStop => CheckKeepsRunner(s);
        case CloseDone => CloseKeepsRunner(s);
        case _ => OthersKeepRunner(s, a);
      }
    }
  }

  lemma {:induction false} InvHolds(actions: seq<Action>)
    ensures Inv(After(actions))
  {
    if actions != [] {
      InvHolds(actions[..|actions| - 1]);
      NextKeepsInv(After(actions[..|actions| - 1]), actions[|actions| - 1]);
    }
  }

  lemma {:induction false} SleptValue(attempt: nat)
    ensures 2 * SleptBefore(attempt) == 5 * attempt * (attempt + 1)
  {
    if attempt > 0 {
      SleptValue(attempt - 1);
    }
  }

  /** In every interleaving: at most four runs start, at most one of them after stop closed;
      done closes at most once, exactly when the runner is gone, and by then either stop was
      closed or all four runs came back; before the n-th restart the runner sleeps 5n seconds,
      so that all restarts take thirty. */
  lemma RecoveryProtocol(actions: seq<Action>)
    ensures var s := After(actions);
            && s.starts <= 4 && s.startsAfterStop <= 1
            && s.closes <= 1 && (s.done <==> s.closes == 1)
            && (s.done && !s.stop ==> s.starts == 4 && s.runsEnded == 4 && s.slept == 30)
            && (s.starts > 0 ==> 2 * s.slept == 5 * (s.starts - 1) * s.starts)
            && s.slept <= 30
  {
    InvHolds(actions);
    var s := After(actions);
    SleptOfStarts(s);
    if s.starts > 0 {
      SleptValue(s.starts - 1);
      assert s.starts == 1 || s.starts == 2 || s.starts == 3 || s.starts == 4;
    }
  }

  lemma SleptOfStarts(s: State)
    requires Inv(s)
    ensures s.starts <= 4 && s.slept == if s.starts == 0 then 0 else SleptBefore(s.starts - 1)
    ensures s.done && !s.stop ==> s.starts == 4 && s.runsEnded == 4
  {
  }

  lemma AfterOne(actions: seq<Action>, a: Action)
    ensures After(actions + [a]) == Next(After(actions), a)
  {
    assert (actions + [a])[..|actions|] == actions;
  }

  /** A run that comes back while stop is open is restarted after five seconds more than the
      restart before, unless it was the fourth: then the runner leaves and closes done. */
  lemma CrashRestarts(actions: seq<Action>)
    requires After(actions).pc == Returned && !After(actions).stop
    ensures var s := After(actions);
            s.starts < 4 ==>
              var t := After(actions + [CheckStop] + [EnterLoop] + [Wake]);
              t.pc == Running && t.starts == s.starts + 1 && t.slept == s.slept + 5 * s.starts && !t.done
    ensures var s := After(actions);
            s.starts == 4 ==>
              var t := After(actions + [CheckStop] + [EnterLoop] + [CloseDone]);
              t.pc == Gone && t.starts == 4 && t.done
  {
    InvHolds(actions);
    AfterOne(actions, CheckStop);
    AfterOne(actions + [CheckStop], EnterLoop);
    AfterOne(actions + [CheckStop] + [EnterLoop], Wake);
    AfterOne(actions + [CheckStop] + [EnterLoop], CloseDone);
  }

  /** A health check answers "unhealthy" only if all four runs came back while stop was
      still open, and every check that begins after Stop returned answers "healthy". */
  lemma HealthVerdicts(actions: seq<Action>)
    ensures forall i :: 0 <= i < |After(actions).verdicts| ==>
              var v := After(actions).verdicts[i];
              && (!v.healthy ==> v.runsEnded == 4 && v.stopOpen)
              && (v.afterStop ==> v.healthy)
  {
    InvHolds(actions);
    assert forall i :: 0 <= i < |After(actions).verdicts| ==> VerdictInv(After(actions).verdicts[i]);
  }

  /** Steps the runner can still take. */
  function Measure(s: State): int {
    match s.pc
    case LoopTop => (MAX_RETRIES + 1 - s.attempt) * 4 + 2
    case Sleeping => (MAX_RETRIES + 1 - s.attempt) * 4 + 1
    case Running => (MAX_RETRIES + 1 - s.attempt) * 4
    case Returned => (MAX_RETRIES + 1 - s.attempt) * 4 - 1
    case Leaving => 1
    case Gone => 0
  }

  function RunnerSteps(actions: seq<Action>): nat {
    if actions == [] then 0
    else
      var p, a := actions[..|actions| - 1], actions[|actions| - 1];
      RunnerSteps(p) + if IsRunnerAction(a) && Enabled(After(p), a) then 1 else 0
  }

  /** Every runner step uses up at least one; no other party's step adds any. */
  lemma StepMeasure(s: State, a: Action)
    requires Inv(s)
    ensures Measure(Next(s, a)) + (if IsRunnerAction(a) && Enabled(s, a) then 1 else 0) <= Measure(s)
  {
  }

  lemma RunnerEnabled(s: State)
    requires Inv(s)
    ensures Measure(s) >= 0
    ensures s.pc != Gone <==> exists a :: IsRunnerAction(a) && Enabled(s, a)
  {
    var a := match s.pc
      case LoopTop => EnterLoop
      case Sleeping => Wake
      case Running => RunReturns
      case Returned => CheckStop
      case _ => CloseDone;
    assert s.pc != Gone ==> IsRunnerAction(a) && Enabled(s, a);
  }

  /** Provided each Run returns, the runner ends: it is never stuck before it is gone, no
      other party's step sets it back, and it takes at most eighteen steps. */
  lemma {:induction false} RunnerTerminates(actions: seq<Action>)
    ensures RunnerSteps(actions) + Measure(After(actions)) <= 18
    ensures RunnerSteps(actions) <= 18
    ensures After(actions).pc != Gone <==> exists a :: IsRunnerAction(a) && Enabled(After(actions), a)
  {
    InvHolds(actions);
    RunnerEnabled(After(actions));
    if actions != [] {
      var p := actions[..|actions| - 1];
      RunnerTerminates(p);
      InvHolds(p);
      StepMeasure(After(p), actions[|actions| - 1]);
    }
  }

  /** The check as a function of the two channels when nothing moves in between. */
  function InformerHealthy(stopClosed: bool, doneClosed: bool): bool {
    !doneClosed || stopClosed
  }

  /** Two looks in a row give that function's answer. */
  lemma AtomicProbe(s: State, id: nat)
    requires id !in s.probes
    ensures var t := Next(s, LookAtDone(id));
            var u := if id in t.probes then Next(t, LookAtStop(id)) else t;
            |u.verdicts| == |s.verdicts| + 1
            && u.verdicts[|s.verdicts|].healthy == InformerHealthy(s.stop, s.done)
  {
  }
}
