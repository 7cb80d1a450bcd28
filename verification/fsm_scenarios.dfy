/**
 The two-state machine of the repository's tests: `idle` goes to `running`
 on `start`, `running` goes back to `idle` on `stop`. Each scenario drives a
 machine through its public operations and states what the caller observes.
 */
module FsmScenarios {
  import opened Wrappers
  import opened Fsm
  import opened FsmProperties

  /** `idle`; its onEnter and onExit are always set. */
  function Idle(): State {
    State("idle", true, true, [Transition("start", "running", false)])
  }

  /** `running`; its onEnter and onExit are set only when `spied`. */
  function Running(spied: bool): State {
    State("running", spied, spied, [Transition("stop", "idle", false)])
  }

  function Sample(spied: bool): Definition {
    Definition("idle", [Idle(), Running(spied)])
  }

  /** A new machine reports its initial state. */
  method InitialStateScenario() returns (name: string)
    ensures name == "idle"
  {
    var m := new StateMachine(Sample(false));
    name := m.GetCurrentState();
  }

  /** `start` from `idle` moves to `running` and returns it. */
  method StartScenario() returns (r: Option<string>, name: string)
    ensures r == Some("running") && name == "running"
  {
    var m := new StateMachine(Sample(false));
    r := m.Transition("start");
    name := m.GetCurrentState();
  }

  /** `start` then `stop` brings the machine back to `idle`. */
  method StartStopScenario() returns (name: string)
    ensures name == "idle"
  {
    var m := new StateMachine(Sample(false));
    var _ := m.Transition("start");
    var _ := m.Transition("stop");
    name := m.GetCurrentState();
  }

  /** An event that `running` does not handle returns None and keeps `running`. */
  method InvalidEventScenario() returns (r: Option<string>, name: string)
    ensures r == None && name == "running"
  {
    var m := new StateMachine(Sample(false));
    var _ := m.Transition("start");
    r := m.Transition("invalid");
    name := m.GetCurrentState();
  }

  /** A second `stop` in `idle` is not handled there and keeps `idle`. */
  method RepeatedStopScenario() returns (r: Option<string>, name: string)
    ensures r == None && name == "idle"
  {
    var m := new StateMachine(Sample(false));
    var _ := m.Transition("start");
    var _ := m.Transition("stop");
    r := m.Transition("stop");
    name := m.GetCurrentState();
  }

  /** A machine whose initial state names no state never leaves it. */
  method InvalidMachineScenario() returns (r: Option<string>, name: string)
    ensures r == None && name == "invalid"
  {
    var m := new StateMachine(Definition("invalid", []));
    r := m.Transition("start");
    name := m.GetCurrentState();
  }

  /**
   With every callback set, `start` runs idle's onExit (state 0) and then
   running's onEnter (state 1), both while the machine still reports `idle`,
   and nothing else: neither running's onExit nor idle's onEnter.
   */
  method CallbackScenario() returns (r: Option<string>, ghost calls: seq<Hook>)
    ensures r == Some("running")
    ensures calls == [Exit(0, "idle"), Enter(1, "idle")]
  {
    var m := new StateMachine(Sample(true));
    r := m.Transition("start");
    calls := m.trace;
  }

  /**
   A caller that hands `events` to `m` one after another: the machine ends
   where `RunEvents` says, having returned and run what it says, so the
   lemmas about `RunEvents` hold of the machine itself.
   */
  method TransitionAll(m: StateMachine, events: seq<string>) returns (results: seq<Option<string>>)
    modifies m
    ensures var run := RunEvents(m.def, old(m.current), events);
      results == run.returned && m.current == run.final && m.trace == old(m.trace) + run.hooks
  {
    results := [];
    ghost var run := RunEvents(m.def, m.current, events);
    ghost var start := m.trace;
    var pending := events;
    while pending != []
      invariant run.final == RunEvents(m.def, m.current, pending).final
      invariant run.returned == results + RunEvents(m.def, m.current, pending).returned
      invariant start + run.hooks == m.trace + RunEvents(m.def, m.current, pending).hooks
      decreases |pending|
    {
      ghost var before, done := m.current, m.trace;
      var r := m.Transition(pending[0]);
      RunAdvances(m.def, before, pending, r, m.current, m.trace[|done|..], run, results, start, done);
      assert done + m.trace[|done|..] == m.trace;
      results := results + [r];
      pending := pending[1..];
    }
  }
}
