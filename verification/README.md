# fsm-ts: a verified model of the state-machine engine

The repository is one component, the `StateMachine` class of `lib/fsm.ts`. It
takes a definition: an initial state name and an ordered list of states. Each
state has a name, optional `onEnter`/`onExit` callbacks and an ordered list of
transitions. Each transition has an `event`, a `target` and an optional
`action`. The machine keeps the name of its current state. `transition(event)`
does three first-match lookups: the current state, that state's transition for
the event, and the target state. Each lookup has its own failure, which leaves
the state alone and returns `undefined`. On success the machine runs the present
callbacks (action, then the source's onExit, then the destination's onEnter).
It then writes the target into its current-state field and returns it.

Files:

- `wrappers.dfy`: `Option`, standing for the source's `T | undefined`.
- `fsm.dfy` (module `Fsm`): the definition as datatypes, and the first-match search behind `Array.prototype.find`.
  It also holds `Step`, which says what one `transition` call does, with the three failure kinds as tags.
  `RunEvents` folds `Step` over a sequence of calls.
  The class `StateMachine` has the mutable `current` field and a ghost `trace` of callback calls.
  Its `Transition` method is proved against `Step`.
- `fsm_properties.dfy` (module `FsmProperties`): the lemmas about `Step` and `RunEvents`.
- `fsm_scenarios.dfy` (module `FsmScenarios`): the two-state `idle`/`running` machine of `lib/fsm.test.ts`.
  Its scenarios use the class's public operations.
  `TransitionAll` is a caller that issues events one after another; it ties `RunEvents`, and so the run lemmas, to the class.

Callbacks are modelled by presence flags only. Each call the machine makes is
recorded as `Action(i, k, observed)` (the action of transition `k` of state
`i`), `Exit(i, observed)` or `Enter(i, observed)`. A callback is named by its
position in the definition, so two equal states at different positions are
still told apart. `observed` is the current-state value the callback would read
through the machine it receives. That value is always the old state,
which shows that the field is written only after every callback has run.

## Model

| member | source | states |
|---|---|---|
| Fsm.FirstIndex | lib/fsm.ts:31-32 | The first-match search: None exactly when no element matches. Otherwise the result is a matching position with no match before it. |
| Fsm.Find | lib/fsm.ts:39-40 | The linear scan used for all three lookups returns exactly what `FirstIndex` specifies. |
| Fsm.StateMachine.constructor | lib/fsm.ts:21-24 | The machine keeps the definition, starts in `initialState` unchecked, and has run no callback. |
| Fsm.StateMachine.GetCurrentState | lib/fsm.ts:26-28 | Returns the current-state field and changes nothing. |
| Fsm.StateMachine.Transition | lib/fsm.ts:30-60 | Follows `Step`. On a failure it returns None and leaves the state and the callback trace unchanged. On success it returns the target, makes it the current state, and appends the success callbacks to the trace. |
| Fsm.Step | lib/fsm.ts:30-59 | Its own contract: the "not defined properly" failure happens exactly when no state carries the current name, and a success lands on a named state. The other outcomes are characterised by `StepUnhandled`, `StepUnresolved` and `StepMoves`. |
| Fsm.RunEvents | lib/fsm.ts:30-60 | A run of consecutive calls. Its own contract gives only the number of returned values. What a run does is stated by `StuckForever`, `StaysResolved`, `ReturnsDefinedStates`, `FailedRunChangesNothing` and `FinalWasReturned`. |
| FsmProperties.HookCallsExact | lib/fsm.ts:53-55 | The callbacks of a success are exactly the set ones among the transition's action, the source's onExit and the destination's onEnter. They run in that order, each once, and all observe the old state. No other callback runs, identified by position. |
| FsmProperties.FirstIndexIsFirstMatch | lib/fsm.ts:31-47 | A lookup picks the first element with the wanted name or event, so a later duplicate is never used. |
| FsmProperties.NoMatchIffNoState | lib/fsm.ts:31-34 | The state lookup finds nothing exactly when no state of the definition carries the name. |
| FsmProperties.StepMisconfigured | lib/fsm.ts:31-37 | The "not defined properly" failure happens exactly when the current state names no state. |
| FsmProperties.StepUnhandled | lib/fsm.ts:39-44 | Once the current state is found, the "event not defined" failure happens exactly when none of its transitions has the event. |
| FsmProperties.StepUnresolved | lib/fsm.ts:46-51 | Once the transition is found, the "destination not defined" failure happens exactly when its target names no state. |
| FsmProperties.StepMoves | lib/fsm.ts:53-59 | Given the first-match state, transition and destination, the call moves to the target and returns it. The callbacks run are exactly the present ones among action, source onExit and destination onEnter. They run in that order, each at most once, all still observing the old state. No other callback runs, identified by position. |
| FsmProperties.MovedResolves | lib/fsm.ts:46-57 | A successful call starts from a defined state and lands on a defined state. |
| FsmProperties.StuckForever | lib/fsm.ts:31-37 | If the current state names no state, every later call returns None. The state then never changes and no callback runs. |
| FsmProperties.StaysResolved | lib/fsm.ts:46-57 | A machine whose current state is defined keeps a defined current state under any sequence of events. |
| FsmProperties.ReturnsDefinedStates | lib/fsm.ts:47-59 | Every value that a call returns names a state of the definition. |
| FsmProperties.FailedRunChangesNothing | lib/fsm.ts:30-51 | A sequence of calls that all return None leaves the current state where it was and runs no callback. |
| FsmProperties.FinalWasReturned | lib/fsm.ts:57-59 | A run that ends in a different state returned that state from one of its calls. |
| FsmScenarios.TransitionAll | lib/fsm.ts:30-60 | Consecutive `transition` calls on one machine return, reach and run exactly what `RunEvents` says, so the run lemmas hold of the machine. |
| FsmScenarios.InitialStateScenario | lib/fsm.test.ts:43-46 | A new sample machine reports `idle`. |
| FsmScenarios.StartScenario | lib/fsm.test.ts:48-52 | `start` returns `running` and the machine reports `running`. |
| FsmScenarios.StartStopScenario | lib/fsm.test.ts:54-59 | `start` then `stop` brings the machine back to `idle`. |
| FsmScenarios.InvalidEventScenario | lib/fsm.test.ts:61-66 | An unknown event in `running` returns None and the machine stays in `running`. |
| FsmScenarios.RepeatedStopScenario | lib/fsm.test.ts:68-74 | A `stop` in `idle` returns None and the machine stays in `idle`. |
| FsmScenarios.InvalidMachineScenario | lib/fsm.test.ts:76-83 | A machine with initial state `invalid` and no states returns None and stays in `invalid`. |
| FsmScenarios.CallbackScenario | lib/fsm.test.ts:100-112 | With every callback set, `start` on the machine returns `running`. Its trace is idle's onExit then running's onEnter, both observing `idle`, and nothing else. |

## Left out

- The diagnostic `console.log` calls (lib/fsm.ts:35, 42, 49) are output. They appear only as the `Failure` tag of `Step`. The method returns `Option<string>`, as the source returns `string | undefined`.
- Fsm.StateMachine.Transition: callbacks are assumed to return normally. In the source a callback that throws ends the call (lib/fsm.ts:53-55). The callbacks after it do not run and the state field is not written (lib/fsm.ts:57).
- The bodies of `onEnter`, `onExit` and `action` are foreign code. The model keeps whether each is set, and the order and observed state of each call.
- Reentrant `transition` calls from inside a callback are not modelled. The model assumes callbacks neither call back into the machine nor change the definition.
- Sharing of the definition object is not modelled. The source keeps a live reference that callers may mutate later (lib/fsm.test.ts:93-98). The model holds the definition as an immutable value.
- The machine passed to the callbacks as their argument is represented only by the state value each call observes.
- `jest.config.js` and the test harness are build and test tooling. The tests appear only as the scenarios.
