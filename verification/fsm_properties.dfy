/**
 What `transition` promises: which failure fires when, that lookups are
 first-match, which callbacks run and in what order on success, and what a
 sequence of calls can and cannot do to the current state.
 */
module FsmProperties {
  import opened Wrappers
  import opened Fsm

  /** Some state of the definition is called `name`. */
  ghost predicate HasState(def: Definition, name: string) {
    exists j :: 0 <= j < |def.states| && def.states[j].name == name
  }

  /**
   The callbacks of a successful transition are exactly those set among the
   transition's action, the source's onExit and the destination's onEnter, in
   that order, each once, named by position, and no other.
   */
  lemma HookCallsExact(def: Definition, i: nat, k: nat, j: nat, observed: string)
    requires i < |def.states| && k < |def.states[i].transitions| && j < |def.states|
    ensures var r := HookCalls(def, i, k, j, observed);
      && (forall a, b :: 0 <= a < b < |r| ==> Rank(r[a]) < Rank(r[b]))
      && (Action(i, k, observed) in r <==> def.states[i].transitions[k].hasAction)
      && (Exit(i, observed) in r <==> def.states[i].hasOnExit)
      && (Enter(j, observed) in r <==> def.states[j].hasOnEnter)
      && (forall h :: h in r ==> h == Action(i, k, observed) || h == Exit(i, observed) || h == Enter(j, observed))
  {
  }

  /** The search returns the first match and no other: duplicates lose. */
  lemma FirstIndexIsFirstMatch<T>(s: seq<T>, p: T -> bool, i: int)
    requires IsFirstMatch(s, p, i)
    ensures FirstIndex(s, p) == Some(i)
  {
  }

  /** A definition without a state named `name` makes the first lookup fail. */
  lemma NoMatchIffNoState(def: Definition, name: string)
    ensures NoMatch(def.states, NameIs(name)) <==> !HasState(def, name)
  {
    if HasState(def, name) {
      var j :| 0 <= j < |def.states| && def.states[j].name == name;
      assert NameIs(name)(def.states[j]);
    }
  }

  /** The first failure: the current state names no state of the definition. */
  lemma StepMisconfigured(def: Definition, current: string, event: string)
    ensures Step(def, current, event) == Rejected(MachineMisconfigured) <==> !HasState(def, current)
  {
    NoMatchIffNoState(def, current);
  }

  /** The second failure: the current state has no transition for `event`. */
  lemma StepUnhandled(def: Definition, current: string, event: string, i: nat)
    requires IsFirstMatch(def.states, NameIs(current), i)
    ensures Step(def, current, event) == Rejected(UnhandledEvent)
        <==> forall k :: 0 <= k < |def.states[i].transitions| ==> def.states[i].transitions[k].event != event
  {
    FirstIndexIsFirstMatch(def.states, NameIs(current), i);
    var ts := def.states[i].transitions;
    if FirstIndex(ts, EventIs(event)).Some? {
      var k := FirstIndex(ts, EventIs(event)).value;
      assert ts[k].event == event;
    }
  }

  /** The third failure: the matched transition's target names no state. */
  lemma StepUnresolved(def: Definition, current: string, event: string, i: nat, k: nat)
    requires IsFirstMatch(def.states, NameIs(current), i)
    requires IsFirstMatch(def.states[i].transitions, EventIs(event), k)
    ensures Step(def, current, event) == Rejected(UnresolvedTarget)
        <==> !HasState(def, def.states[i].transitions[k].target)
  {
    FirstIndexIsFirstMatch(def.states, NameIs(current), i);
    FirstIndexIsFirstMatch(def.states[i].transitions, EventIs(event), k);
    NoMatchIffNoState(def, def.states[i].transitions[k].target);
  }

  /**
   Success: with the first state named `current` (i), its first transition
   for `event` (k) and the first state named by that target (j), the machine
   moves to the target. The callbacks run are exactly the present ones among
   the transition's action, the source's onExit and the destination's
   onEnter, in that order, each at most once, and all of them still see
   `current` as the current state. Callbacks are named by position, so a
   state equal to the source or destination but elsewhere in the list runs
   nothing.
   */
  lemma StepMoves(def: Definition, current: string, event: string, i: nat, k: nat, j: nat)
    requires IsFirstMatch(def.states, NameIs(current), i)
    requires IsFirstMatch(def.states[i].transitions, EventIs(event), k)
    requires IsFirstMatch(def.states, NameIs(def.states[i].transitions[k].target), j)
    ensures
      var source, edge, dest := def.states[i], def.states[i].transitions[k], def.states[j];
      var o := Step(def, current, event);
      && o.Moved?
      && o.target == edge.target
      && dest.name == edge.target
      && o.Returned() == Some(edge.target)
      && (forall a, b :: 0 <= a < b < |o.hooks| ==> Rank(o.hooks[a]) < Rank(o.hooks[b]))
      && (Action(i, k, current) in o.hooks <==> edge.hasAction)
      && (Exit(i, current) in o.hooks <==> source.hasOnExit)
      && (Enter(j, current) in o.hooks <==> dest.hasOnEnter)
      && (forall h :: h in o.hooks ==>
            h == Action(i, k, current) || h == Exit(i, current) || h == Enter(j, current))
  {
    FirstIndexIsFirstMatch(def.states, NameIs(current), i);
    FirstIndexIsFirstMatch(def.states[i].transitions, EventIs(event), k);
    FirstIndexIsFirstMatch(def.states, NameIs(def.states[i].transitions[k].target), j);
    HookCallsExact(def, i, k, j, current);
  }

  /** A transition that succeeds lands on a state the definition has. */
  lemma MovedResolves(def: Definition, current: string, event: string)
    requires Step(def, current, event).Moved?
    ensures HasState(def, current)
    ensures HasState(def, Step(def, current, event).target)
  {
    StepMisconfigured(def, current, event);
    var target := Step(def, current, event).target;
    var j := FirstIndex(def.states, NameIs(target)).value;
    assert def.states[j].name == target;
  }

  /** A run of `events[n..]` is the call on `events[n]` followed by the run of the rest. */
  lemma RunEventsUnfold(def: Definition, current: string, events: seq<string>, n: nat)
    requires n < |events|
    ensures var o := Step(def, current, events[n]);
      var rest := RunEvents(def, o.Next(current), events[n + 1..]);
      RunEvents(def, current, events[n..]) == Run(rest.final, [o.Returned()] + rest.returned, o.Calls() + rest.hooks)
  {
    assert events[n..][0] == events[n] && events[n..][1..] == events[n + 1..];
  }

  /**
   Once the current state names no state, the machine is stuck: every later
   call returns None, runs no callback and leaves the current state alone.
   */
  lemma {:induction false} StuckForever(def: Definition, current: string, events: seq<string>)
    requires !HasState(def, current)
    ensures RunEvents(def, current, events).final == current
    ensures RunEvents(def, current, events).hooks == []
    ensures forall n :: 0 <= n < |events| ==> RunEvents(def, current, events).returned[n] == None
    decreases |events|
  {
    if |events| > 0 {
      StepMisconfigured(def, current, events[0]);
      StuckForever(def, current, events[1..]);
      var rest := RunEvents(def, current, events[1..]);
      assert RunEvents(def, current, events).returned == [None] + rest.returned;
    }
  }

  /**
   A machine whose current state is defined keeps a defined current state,
   whatever events it is given.
   */
  lemma {:induction false} StaysResolved(def: Definition, current: string, events: seq<string>)
    requires HasState(def, current)
    ensures HasState(def, RunEvents(def, current, events).final)
    decreases |events|
  {
    if |events| > 0 {
      var o := Step(def, current, events[0]);
      if o.Moved? {
        MovedResolves(def, current, events[0]);
        StaysResolved(def, o.target, events[1..]);
      } else {
        StaysResolved(def, current, events[1..]);
      }
    }
  }

  /**
   One more call keeps a caller's bookkeeping in step with `RunEvents`: if the
   whole run `run` is what was returned so far (`results`), then the run of
   the pending events, the same holds after the call on the first pending
   event, which returned `r`, moved to `next` and ran `added`.
   */
  lemma RunAdvances(def: Definition, current: string, pending: seq<string>, r: Option<string>,
                    next: string, added: seq<Hook>, run: Run, results: seq<Option<string>>,
                    start: seq<Hook>, trace: seq<Hook>)
    requires |pending| > 0
    requires r == Step(def, current, pending[0]).Returned()
    requires next == Step(def, current, pending[0]).Next(current)
    requires added == Step(def, current, pending[0]).Calls()
    requires run.final == RunEvents(def, current, pending).final
    requires run.returned == results + RunEvents(def, current, pending).returned
    requires start + run.hooks == trace + RunEvents(def, current, pending).hooks
    ensures run.final == RunEvents(def, next, pending[1..]).final
    ensures run.returned == (results + [r]) + RunEvents(def, next, pending[1..]).returned
    ensures start + run.hooks == (trace + added) + RunEvents(def, next, pending[1..]).hooks
  {
    var rest := RunEvents(def, next, pending[1..]);
    assert RunEvents(def, current, pending) == Run(rest.final, [r] + rest.returned, added + rest.hooks);
    assert results + ([r] + rest.returned) == (results + [r]) + rest.returned;
    assert trace + (added + rest.hooks) == (trace + added) + rest.hooks;
  }

  /** A sequence of calls that all return None changes nothing and runs no callback. */
  lemma {:induction false} FailedRunChangesNothing(def: Definition, current: string, events: seq<string>)
    requires forall n :: 0 <= n < |events| ==> RunEvents(def, current, events).returned[n] == None
    ensures RunEvents(def, current, events).final == current
    ensures RunEvents(def, current, events).hooks == []
    decreases |events|
  {
    if |events| > 0 {
      var all := RunEvents(def, current, events);
      RunEventsUnfold(def, current, events, 0);
      assert events[0..] == events;
      var o := Step(def, current, events[0]);
      var rest := RunEvents(def, o.Next(current), events[1..]);
      assert all.returned[0] == o.Returned();
      forall n | 0 <= n < |events| - 1
        ensures rest.returned[n] == None
      {
        assert all.returned[n + 1] == rest.returned[n];
      }
      FailedRunChangesNothing(def, current, events[1..]);
    }
  }

  /** A run that ends away from where it began returned its final state at some call. */
  lemma {:induction false} FinalWasReturned(def: Definition, current: string, events: seq<string>)
    requires RunEvents(def, current, events).final != current
    ensures Some(RunEvents(def, current, events).final) in RunEvents(def, current, events).returned
    decreases |events|
  {
    var all := RunEvents(def, current, events);
    var o := Step(def, current, events[0]);
    var rest := RunEvents(def, o.Next(current), events[1..]);
    assert all.returned == [o.Returned()] + rest.returned;
    if rest.final != o.Next(current) {
      FinalWasReturned(def, o.Next(current), events[1..]);
    }
  }

  /** Every value a `transition` call returns names a state of the definition. */
  lemma {:induction false} ReturnsDefinedStates(def: Definition, current: string, events: seq<string>)
    ensures forall n :: 0 <= n < |events| && RunEvents(def, current, events).returned[n].Some? ==>
      HasState(def, RunEvents(def, current, events).returned[n].value)
    decreases |events|
  {
    if |events| > 0 {
      var o := Step(def, current, events[0]);
      var next := o.Next(current);
      ReturnsDefinedStates(def, next, events[1..]);
      if o.Moved? {
        MovedResolves(def, current, events[0]);
      }
      var all := RunEvents(def, current, events);
      var rest := RunEvents(def, next, events[1..]);
      assert all.returned == [o.Returned()] + rest.returned;
      forall n | 0 <= n < |events| && all.returned[n].Some?
        ensures HasState(def, all.returned[n].value)
      {
        if n > 0 {
          assert all.returned[n] == rest.returned[n - 1];
        }
      }
    }
  }
}
