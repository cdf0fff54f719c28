/** The agent's lifecycle state machine (internal/agent/state.go). Times are integer
    nanoseconds since the zero time. */
module StateMachine {
  import opened Prelude
  import opened Text

  datatype AgentState = Starting | Running | Backoff | Stopped | Exiting

  /** The machine's fields; `cancels` counts the calls of the registered cancel function. */
  datatype Machine = Machine(
    state: AgentState, reason: string, backoffUntil: int, hasCancel: bool, cancels: nat)

  const NEW_MACHINE := Machine(Starting, "", 0, false, 0)

  predicate IsTerminal(s: AgentState) {
    s == Stopped || s == Exiting
  }

  /** The wait a 402 or 429 asks for; zero stands for the default of the code. */
  function BackoffFor(code: int, retryAfter: int): int {
    if retryAfter != 0 then retryAfter * SECOND
    else if code == 402 then 5 * MINUTE
    else 30 * SECOND
  }

  function Transition(m: Machine, state: AgentState, reason: string): Machine {
    m.(state := state, reason := reason)
  }

  function HandleStatus(m: Machine, code: int, retryAfter: int, now: int): Machine {
    if code == 200 then Transition(m, Running, "")
    else if code == 401 || code == 403 then Transition(m, Stopped, "authentication failed")
    else if code == 402 then
      Transition(m, Backoff, "quota exceeded").(backoffUntil := now + BackoffFor(402, retryAfter))
    else if code == 410 then
      Transition(m, Exiting, "agent deprecated").(cancels := m.cancels + if m.hasCancel then 1 else 0)
    else if code == 429 then
      Transition(m, Backoff, "rate limited").(backoffUntil := now + BackoffFor(429, retryAfter))
    else if code >= 500 then m.(reason := "server error: " + FormatInt(code))
    else m
  }

  predicate Expired(m: Machine, now: int) {
    now > m.backoffUntil
  }

  function Remaining(m: Machine, now: int): int {
    if m.backoffUntil - now < 0 then 0 else m.backoffUntil - now
  }

  class StateMachine {
    var state: AgentState
    var stateReason: string
    var backoffUntil: int
    var hasCancel: bool
    var cancels: nat

    function View(): Machine
      reads this
    {
      Machine(state, stateReason, backoffUntil, hasCancel, cancels)
    }

    constructor ()
      ensures View() == NEW_MACHINE
    {
      state, stateReason, backoffUntil, hasCancel, cancels := Starting, "", 0, false, 0;
    }

    method SetCancelFunc()
      modifies this
      ensures View() == old(View()).(hasCancel := true)
    {
      hasCancel := true;
    }

    method TransitionTo(next: AgentState, reason: string)
      modifies this
      ensures View() == Transition(old(View()), next, reason)
    {
      state, stateReason := next, reason;
    }

    /** state.go, HandleHTTPStatus. */
    method HandleHTTPStatus(code: int, retryAfter: int, now: int)
      modifies this
      ensures View() == HandleStatus(old(View()), code, retryAfter, now)
      // the state after the status, or the same state
      ensures code == 200 ==> state == Running && stateReason == ""
      ensures code in {401, 403} ==> state == Stopped && stateReason == "authentication failed"
      ensures code == 410 ==> state == Exiting && stateReason == "agent deprecated"
      ensures code == 402 ==> state == Backoff && stateReason == "quota exceeded"
      ensures code == 429 ==> state == Backoff && stateReason == "rate limited"
      ensures code !in {200, 401, 402, 403, 410, 429} ==> state == old(state)
      // the deadline: what the server asks for, or five minutes or thirty seconds
      ensures code == 402 ==> backoffUntil == now + if retryAfter == 0 then 300_000_000_000 else retryAfter * 1_000_000_000
      ensures code == 429 ==> backoffUntil == now + if retryAfter == 0 then 30_000_000_000 else retryAfter * 1_000_000_000
      ensures code !in {402, 429} ==> backoffUntil == old(backoffUntil)
      // only a 410 cancels
      ensures cancels == if code == 410 && hasCancel then old(cancels) + 1 else old(cancels)
    {
      if code == 200 {
        state, stateReason := Running, "";
      } else if code == 401 || code == 403 {
        state, stateReason := Stopped, "authentication failed";
      } else if code == 402 {
        state, stateReason := Backoff, "quota exceeded";
        var backoff := retryAfter * SECOND;
        if backoff == 0 {
          backoff := 5 * MINUTE;
        }
        backoffUntil := now + backoff;
      } else if code == 410 {
        state, stateReason := Exiting, "agent deprecated";
        if hasCancel {
          cancels := cancels + 1;
        }
      } else if code == 429 {
        state, stateReason := Backoff, "rate limited";
        var backoff := retryAfter * SECOND;
        if backoff == 0 {
          backoff := 30 * SECOND;
        }
        backoffUntil := now + backoff;
      } else if code >= 500 {
        stateReason := "server error: " + FormatInt(code);
      }
    }

    method IsBackoffExpired(now: int) returns (b: bool)
      ensures b == Expired(View(), now)
    {
      b := now > backoffUntil;
    }

    method BackoffRemaining(now: int) returns (d: int)
      ensures d == Remaining(View(), now)
    {
      d := backoffUntil - now;
      if d < 0 {
        d := 0;
      }
    }
  }

  /** A terminal state is left exactly by 200, 402 and 429. */
  lemma TerminalClosedIff(m: Machine, code: int, retryAfter: int, now: int)
    requires IsTerminal(m.state)
    ensures IsTerminal(HandleStatus(m, code, retryAfter, now).state) <==> code !in {200, 402, 429}
  {
  }

  /** The backoff is over strictly after its deadline; at the deadline nothing remains,
      yet it has not expired. */
  lemma ExpiryBoundary(m: Machine, now: int)
    ensures Expired(m, now) ==> Remaining(m, now) == 0
    ensures Remaining(m, now) == 0 && !Expired(m, now) <==> now == m.backoffUntil
  {
  }
}
