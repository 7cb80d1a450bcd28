/**
 A finite-state-machine engine: a definition (an initial state name and an
 ordered list of states, each with ordered transitions) and a machine that
 tracks the name of its current state and advances it on named events.

 The callbacks of the definition (`onEnter`, `onExit`, `action`) are foreign
 code; the model keeps only whether each is present, and the machine records
 every call it makes to one of them, in order, in a ghost trace.
 */
module Fsm {
  import opened Wrappers

  // ---------------------------------------------------------------------------
  // The definition
  // ---------------------------------------------------------------------------

  /** An edge out of its owning state; `hasAction` says whether `action` is set. */
  datatype Transition = Transition(event: string, target: string, hasAction: bool)

  /** A named node; the flags say whether `onEnter` and `onExit` are set. */
  datatype State = State(name: string, hasOnEnter: bool, hasOnExit: bool, transitions: seq<Transition>)

  /** The machine's configuration: no validation is performed on it. */
  datatype Definition = Definition(initialState: string, states: seq<State>)

  /**
   One call of a callback, naming the callback by where it sits in the
   definition: `Action(i, k, _)` is the action of transition `k` of state `i`,
   `Exit(i, _)` and `Enter(i, _)` the hooks of state `i`. `observed` is the
   current-state value the callback sees when it asks the machine, which it
   receives as its argument.
   */
  datatype Hook =
    | Action(state: nat, transition: nat, observed: string)
    | Exit(state: nat, observed: string)
    | Enter(state: nat, observed: string)

  /** Position of a callback kind in the fixed calling order. */
  function Rank(h: Hook): nat {
    match h
    case Action(_, _, _) => 0
    case Exit(_, _) => 1
    case Enter(_, _) => 2
  }

  /** Why `transition` did nothing; the source only logs these. */
  datatype Failure = MachineMisconfigured | UnhandledEvent | UnresolvedTarget

  /** What one call of `transition` does. */
  datatype Outcome =
    | Moved(target: string, hooks: seq<Hook>)
    | Rejected(failure: Failure)
  {
    /** The value `transition` hands back to its caller. */
    function Returned(): Option<string> {
      if Moved? then Some(target) else None
    }

    /** The current state after the call, given the one before it. */
    function Next(current: string): string {
      if Moved? then target else current
    }

    /** The callbacks the call runs: none unless it moves. */
    function Calls(): seq<Hook> {
      if Moved? then hooks else []
    }
  }

  // ---------------------------------------------------------------------------
  // First-match search, as done by `Array.prototype.find`
  // ---------------------------------------------------------------------------

  /** `i` is the position of the first element of `s` that satisfies `p`. */
  ghost predicate IsFirstMatch<T>(s: seq<T>, p: T -> bool, i: int) {
    0 <= i < |s| && p(s[i]) && forall j :: 0 <= j < i ==> !p(s[j])
  }

  /** No element of `s` satisfies `p`. */
  ghost predicate NoMatch<T>(s: seq<T>, p: T -> bool) {
    forall j :: 0 <= j < |s| ==> !p(s[j])
  }

  /** The position of the first element of `s` that satisfies `p`, if any. */
  function FirstIndex<T>(s: seq<T>, p: T -> bool): (r: Option<nat>)
    ensures r.None? <==> NoMatch(s, p)
    ensures r.Some? ==> IsFirstMatch(s, p, r.value)
  {
    if |s| == 0 then None
    else if p(s[0]) then Some(0)
    else match FirstIndex(s[1..], p)
      case None => None
      case Some(i) => Some(i + 1)
  }

  /** The search predicate of the state lookups. */
  function NameIs(name: string): State -> bool {
    (s: State) => s.name == name
  }

  /** The search predicate of the transition lookup. */
  function EventIs(event: string): Transition -> bool {
    (t: Transition) => t.event == event
  }

  /** A left-to-right scan that stops at the first element satisfying `p`. */
  method Find<T>(s: seq<T>, p: T -> bool) returns (r: Option<nat>)
    ensures r == FirstIndex(s, p)
  {
    var i := 0;
    while i < |s|
      invariant 0 <= i <= |s|
      invariant forall j :: 0 <= j < i ==> !p(s[j])
    {
      if p(s[i]) {
        return Some(i);
      }
      i := i + 1;
    }
    return None;
  }

  // ---------------------------------------------------------------------------
  // What one transition does, as a function of the definition and the state
  // ---------------------------------------------------------------------------

  /**
   The callbacks a successful transition from state `i` along its transition
   `k` to state `j` runs, in the order it runs them: the transition's action,
   then the source's onExit, then the destination's onEnter, each only if set.
   All of them see `observed`, the state before the transition.
   */
  function HookCalls(def: Definition, i: nat, k: nat, j: nat, observed: string): (r: seq<Hook>)
    requires i < |def.states| && k < |def.states[i].transitions| && j < |def.states|
  {
    (if def.states[i].transitions[k].hasAction then [Action(i, k, observed)] else [])
    + (if def.states[i].hasOnExit then [Exit(i, observed)] else [])
    + (if def.states[j].hasOnEnter then [Enter(j, observed)] else [])
  }

  /**
   The effect of `transition(event)` on a machine whose current state is
   `current`: three first-match lookups, each with its own failure.
   */
  function Step(def: Definition, current: string, event: string): (o: Outcome)
    ensures o == Rejected(MachineMisconfigured) <==> NoMatch(def.states, NameIs(current))
    ensures o.Moved? ==> !NoMatch(def.states, NameIs(o.target))
  {
    match FirstIndex(def.states, NameIs(current))
    case None => Rejected(MachineMisconfigured)
    case Some(i) =>
      var source := def.states[i];
      match FirstIndex(source.transitions, EventIs(event))
      case None => Rejected(UnhandledEvent)
      case Some(k) =>
        var edge := source.transitions[k];
        match FirstIndex(def.states, NameIs(edge.target))
        case None => Rejected(UnresolvedTarget)
        case Some(j) => Moved(edge.target, HookCalls(def, i, k, j, current))
  }

  /** What a sequence of `transition` calls leaves behind. */
  datatype Run = Run(final: string, returned: seq<Option<string>>, hooks: seq<Hook>)

  /** The calls `transition(events[0])`, `transition(events[1])`, ... in turn. */
  function RunEvents(def: Definition, current: string, events: seq<string>): (r: Run)
    ensures |r.returned| == |events|
    decreases |events|
  {
    if |events| == 0 then Run(current, [], [])
    else
      var o := Step(def, current, events[0]);
      var rest := RunEvents(def, o.Next(current), events[1..]);
      Run(rest.final, [o.Returned()] + rest.returned, o.Calls() + rest.hooks)
  }

  // ---------------------------------------------------------------------------
  // The machine
  // ---------------------------------------------------------------------------

  class StateMachine {
    /** The definition, taken as an immutable value. */
    const def: Definition
    /** The name of the active state (`currentStateValue`). */
    var current: string
    /** Every callback call made so far, oldest first. */
    ghost var trace: seq<Hook>

    /** Stores the definition and starts in its initial state, unchecked. */
    constructor (definition: Definition)
      ensures def == definition
      ensures current == definition.initialState
      ensures trace == []
    {
      def := definition;
      current := definition.initialState;
      trace := [];
    }

    method GetCurrentState() returns (name: string)
      ensures name == current
    {
      name := current;
    }

    /**
     Looks up the current state, its transition for `event` and that
     transition's target; on any miss returns None and changes nothing.
     Otherwise runs the present callbacks, moves to the target and returns it.
     */
    method Transition(event: string) returns (r: Option<string>)
      modifies this
      ensures r == Step(def, old(current), event).Returned()
      ensures current == Step(def, old(current), event).Next(old(current))
      ensures trace == old(trace) + Step(def, old(current), event).Calls()
    {
      var name := current;
      var i := Find(def.states, NameIs(name));
      if i.None? {
        assert Step(def, name, event) == Rejected(MachineMisconfigured);
        return None;
      }
      var source := def.states[i.value];

      var k := Find(source.transitions, EventIs(event));
      if k.None? {
        assert Step(def, name, event) == Rejected(UnhandledEvent);
        return None;
      }
      var edge := source.transitions[k.value];

      var j := Find(def.states, NameIs(edge.target));
      if j.None? {
        assert Step(def, name, event) == Rejected(UnresolvedTarget);
        return None;
      }
      var dest := def.states[j.value];
      ghost var calls := HookCalls(def, i.value, k.value, j.value, name);
      assert Step(def, name, event) == Moved(edge.target, calls);

      if edge.hasAction {
        trace := trace + [Action(i.value, k.value, current)];
      }
      if source.hasOnExit {
        trace := trace + [Exit(i.value, current)];
      }
      if dest.hasOnEnter {
        trace := trace + [Enter(j.value, current)];
      }

      assert trace == old(trace) + calls;
      current := edge.target;
      r := Some(current);
    }
  }
}
