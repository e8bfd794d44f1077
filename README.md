# Playback run-state store

A Dafny model of the playback store of the Selenium IDE front end
(`src/neo/stores/view/PlaybackState.js`). The store is the state behind test
playback. It records whether a run is playing and which command index is
executing. It holds the running test and suite, the queue of suite tests not
yet started, and the result maps for commands, tests and suites. It also keeps
the `runs` and `failures` counters and the `hasFailed` flag. The command
interpreter calls its actions as commands and tests complete.

- `playback_data.dfy` (module `PlaybackData`) holds the values the store works
  on: commands, tests, suites, the `PlaybackStates` enum and the per-command
  result. It also holds the pure computations behind the store: the `reduce`
  that sums command counts, the `filter` that decides a test's verdict, and
  the count of finished commands. Each is tied to a reference definition by
  a proved contract or lemma.
- `playback_state.dfy` (module `PlaybackStore`) holds the class
  `PlaybackState`. It has the store's fields, and one method per action with
  `modifies this`. Each method states the whole new state in terms of the old
  one. The object invariant `Valid()` keeps a ghost count of the failures
  recorded in the current run. `hasFailed` holds exactly when that count is
  positive, and the count never exceeds `failures`. So `hasFailed` implies
  `failures > 0`.
- `playback_scenarios.dfy` (module `PlaybackScenarios`) holds client runs
  proved from the contracts alone. One is a two-test suite with a failing
  command. One is a repeated single-test run. One is a single test started
  after a suite run was stopped.

Modelling choices that follow the code:

- `currentRunningTest` is an `Option<Test>` and `currentRunningSuite` an
  `Option<SuiteId>`. JavaScript's `null` and `undefined` both become `None`.
  A `null` suite occurs only before the first run, when no test is running
  either, so the two are never told apart.
- `suiteState` is keyed by `Option<SuiteId>`. A finished single-test run
  writes its verdict under `None` (line 88 with the suite set to `undefined` at
  line 57).
- `playNext` on an empty queue does not throw: `shift()` yields `undefined`.
  The model has no precondition there. An empty queue leaves the running test
  absent. For the same reason `StartPlayingSuite` accepts an empty suite.
- `hasFinishedSuccessfully` dereferences each command's recorded result and
  throws on a command with no entry. `HasFinishedSuccessfully` and
  `FinishPlaying` therefore require every command of the running test to be
  recorded (`AllRecorded`). Treating a missing entry as not passed would
  instead let a test with an unrecorded command finish with a Failed verdict;
  the code throws, and the model follows the code.
- The test `this.currentRunningSuite || …` in `startPlaying` uses JavaScript
  truthiness, so an empty suite identifier counts as no suite (`Truthy`).
- When `startPlaying` restarts the same test, it keeps the earlier test
  (as a value: see "## Left out"), `currentPlayingIndex` and `failures`. It does not clear the queue.
  So after `stopPlaying` in the middle of a suite, a single-test run continues
  into the stopped suite's remaining tests once it finishes
  (`StopThenSingleTestScenario`).
- `finishPlaying` first clears `isPlaying`. When it moves to the next queued
  test, `playNext` sets `isPlaying` again. A run ends with `isPlaying` false
  only when the queue was empty.
- `setCommandState` adds one to `failures` for every Failed outcome, even when
  it overwrites an earlier Failed outcome of the same command.

## Model

| member | source | states |
|---|---|---|
| PlaybackStore.PlaybackState.constructor | src/neo/stores/view/PlaybackState.js:5-19 | a new store is idle, with no running test or suite, empty result maps, zero counters and an empty queue, and satisfies the invariant |
| PlaybackStore.PlaybackState.Valid | src/neo/stores/view/PlaybackState.js:97-100 | the object invariant: `hasFailed` holds exactly when a failure was recorded in the current run, each such failure is counted in `failures`, hence `hasFailed` implies `failures > 0` |
| PlaybackStore.PlaybackState.FinishedCommandsCount | src/neo/stores/view/PlaybackState.js:21-31 | the `forEach` count returns the number of recorded commands whose state is not Pending, and at most the number of recorded commands |
| PlaybackStore.PlaybackState.HasFinishedSuccessfully | src/neo/stores/view/PlaybackState.js:33-37 | true exactly when every command of the running test is recorded as Passed |
| PlaybackStore.PlaybackState.StartPlayingSuite | src/neo/stores/view/PlaybackState.js:39-51 | for a different suite: counters and index reset and `runs` is 1; for the same suite: `runs` grows by one and `failures` and the index are kept; command results cleared, `hasFailed` false, `commandsCount` the suite's total command count and at least the running test's count, first test running and selected, the rest queued in order, playing; verdict maps unchanged; the invariant is kept |
| PlaybackStore.PlaybackState.StartPlaying | src/neo/stores/view/PlaybackState.js:53-65 | for a new target (a suite running, no test running, or another test id): counters and index reset, `runs` is 1, no suite, `test` running; otherwise `runs` grows by one and the running test, suite, index and `failures` are kept; command results cleared, `hasFailed` false, `commandsCount` the test's command count, playing; queue and verdict maps unchanged; the invariant is kept |
| PlaybackStore.PlaybackState.PlayNext | src/neo/stores/view/PlaybackState.js:67-71 | the queue's head becomes the running test and is selected, and the queue loses exactly its head; an empty queue leaves no running test; playing; nothing else changes |
| PlaybackStore.PlaybackState.StopPlaying | src/neo/stores/view/PlaybackState.js:73-75 | only `isPlaying` changes, to false; the queue is kept; the invariant is kept |
| PlaybackStore.PlaybackState.AbortPlaying | src/neo/stores/view/PlaybackState.js:77-80 | not playing and the queue emptied; results, verdicts and counters unchanged; the invariant is kept |
| PlaybackStore.PlaybackState.FinishPlaying | src/neo/stores/view/PlaybackState.js:82-90 | the running test's verdict is Passed exactly when all its commands are recorded as Passed; with tests queued, the head runs next, is selected, the queue shrinks by one and play continues; otherwise the suite slot (None after a single test) gets Failed exactly when `hasFailed`, and play stops; counters and command results unchanged |
| PlaybackStore.PlaybackState.SetPlayingIndex | src/neo/stores/view/PlaybackState.js:92-94 | only `currentPlayingIndex` changes, to any given integer; the invariant is kept |
| PlaybackStore.PlaybackState.SetCommandState | src/neo/stores/view/PlaybackState.js:96-102 | the command's entry becomes the given state and message and every other entry is unchanged; a Failed outcome adds exactly one to `failures` and sets `hasFailed`, also when overwriting a Failed entry; any other outcome leaves both alone; the invariant is kept |
| PlaybackStore.PlaybackState.ClearCommandStates | src/neo/stores/view/PlaybackState.js:104-106 | command results become empty, so the finished count is 0; nothing else changes; the invariant is kept |
| PlaybackStore.PlaybackState.ResetState | src/neo/stores/view/PlaybackState.js:108-114 | command results empty, index, `runs` and `failures` zero, `hasFailed` false; running test and suite, queue, `commandsCount` and verdict maps unchanged |
| PlaybackData.ReduceCommandCount | src/neo/stores/view/PlaybackState.js:49 | the `reduce` started at a counter yields that counter plus the total command count of the tests |
| PlaybackData.TestCommandsWithinTotal | src/neo/stores/view/PlaybackState.js:49 | each test of a suite has at most the suite's total command count |
| PlaybackData.PassedCommands | src/neo/stores/view/PlaybackState.js:34-36 | the `filter` keeps exactly the commands of the test that are recorded as Passed, so it is never longer than the test |
| PlaybackData.PassedCommandsComplete | src/neo/stores/view/PlaybackState.js:34-36 | the filtered list is as long as the test exactly when every command of the test is recorded as Passed |
| PlaybackData.TestVerdict | src/neo/stores/view/PlaybackState.js:84 | a test's verdict is never Pending, and is Passed exactly when every command is recorded as Passed |
| PlaybackData.FinishedCount | src/neo/stores/view/PlaybackState.js:21-31 | the number of finished commands is at most the number of recorded commands and is 0 when none are recorded |
| PlaybackData.FinishedCountAfterRecord | src/neo/stores/view/PlaybackState.js:101 | recording one command's result changes the finished count only by that command's change between Pending and finished |
| PlaybackScenarios.SuiteRunScenario | src/neo/stores/view/PlaybackState.js:39-102 | suite S of T1 {c1, c2} and T2 {c3}, with c3 failing: the count is 3, T1 passes, T2 fails, S fails, one failure is counted and play stops |
| PlaybackScenarios.SingleTestScenario | src/neo/stores/view/PlaybackState.js:53-102 | two failing runs of the same test: `runs` and `failures` are both 2, and the run verdict is stored under the absent suite key |
| PlaybackScenarios.StopThenSingleTestScenario | src/neo/stores/view/PlaybackState.js:53-90 | finishing a single test started after a stopped suite run moves on to the suite's next queued test, with no suite running |

## Left out

- MobX reactivity (`@observable`, `@computed`, `@action.bound`) is not modelled. The store is an ordinary constructed object, and getters are recomputed on each call.
- The `window._playbackState` singleton (lines 123-125) is not modelled: clients construct a store.
- `UiState` is not part of this model. The selected test or suite is a parameter of `StartPlaying` and `StartPlayingSuite`. The selection callback in `playNext` is recorded as its first argument, the ghost field `selected`. Its second argument, the suite selected in the UI, is not recorded.
- Calls with nothing selected are excluded by the parameter types. In the source they throw at different points, some after changing the store:
  - `startPlaying` with no test throws at `test.id` on line 55, with no effect, when a test is running and the suite slot is falsy. Otherwise line 55 short-circuits, lines 56-62 reset the counters, clear the suite, the running test and the command results, set `runs` to 1 and clear `hasFailed`, and it throws at `test.commands` on line 63.
  - `startPlayingSuite` with no suite throws at `suite.id` on line 43, after `resetState`, when the suite slot holds an identifier or `null`. When the slot is `undefined` (after a single-test run), line 41 is false, lines 45-47 clear the command results and `hasFailed` and add one to `runs`, and it throws at `suite.tests` on line 48.
- Exceptions part-way through an action are not modelled: the partial effects of the two calls above, and those of `finishPlaying` on a missing command result in `hasFinishedSuccessfully` or with no running test, which both throw with `isPlaying` already false. The model has preconditions instead.
- The command interpreter, timing and asynchrony are outside the store. Only the interpreter's calls into the store are modelled.
- Tests and suites are Dafny values, while the source holds references to the definition store's objects. `currentRunningTest` (lines 58 and 68) and the queued tests are shared with that store, because `[...suite.tests]` on line 48 copies only the array. `hasFinishedSuccessfully` reads the running test's commands when `finishPlaying` runs (line 34). So the model does not capture a test or suite edited in place during a run, or between two runs of the same test. For example, restarting a test whose command list was extended keeps the old list as the running test's commands, while the source judges the edited list.
- Messages are opaque `Option<string>` values with no behaviour.
- `src/neo/components/Menu/index.jsx` and `src/neo/components/ActionButtons/Add/index.jsx` are presentational components with no state logic, and are not modelled.
