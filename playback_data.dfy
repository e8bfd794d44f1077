/**
 The values the playback store works on: the commands, tests and suites it is
 handed by the test-definition store, the outcome enum `PlaybackStates`, the
 per-command result record, and the pure computations the store's getters and
 actions are built from (the `reduce` that sums command counts, the `filter`
 behind `hasFinishedSuccessfully`, and the count behind `finishedCommandsCount`).
 */
module PlaybackData {

  datatype Option<T> = None | Some(value: T)

  /** The outcome enum: "passed", "failed", "pending". */
  datatype PlaybackStates = Passed | Failed | Pending

  type CommandId = string
  type TestId = string
  type SuiteId = string

  /** A recorded step; the store looks only at its identifier. */
  datatype Command = Command(id: CommandId)

  /** A test: an identifier and its commands in execution order. */
  datatype Test = Test(id: TestId, commands: seq<Command>)

  /** A suite: an identifier and its tests in execution order. */
  datatype Suite = Suite(id: SuiteId, tests: seq<Test>)

  /** What `setCommandState` stores for one command; the message is opaque. */
  datatype CommandResult = CommandResult(state: PlaybackStates, message: Option<string>)

  // ---------------------------------------------------------------------------
  // Command counts of a run

  /** Reference definition: the number of commands across `tests`. */
  function TotalCommands(tests: seq<Test>): nat
  {
    if tests == [] then 0 else |tests[0].commands| + TotalCommands(tests[1..])
  }

  /** The accumulating left fold `tests.reduce((counter, test) => counter + test.commands.length, counter)`. */
  function ReduceCommandCount(counter: nat, tests: seq<Test>): (r: nat)
    ensures r == counter + TotalCommands(tests)
    decreases |tests|
  {
    if tests == [] then counter
    else ReduceCommandCount(counter + |tests[0].commands|, tests[1..])
  }

  /** Every test of a run contributes its whole command list to the run's count. */
  lemma {:induction false} TestCommandsWithinTotal(tests: seq<Test>, i: nat)
    requires i < |tests|
    ensures |tests[i].commands| <= TotalCommands(tests)
    decreases |tests|
  {
    if i > 0 {
      TestCommandsWithinTotal(tests[1..], i - 1);
    }
  }

  // ---------------------------------------------------------------------------
  // Verdict of one test

  /** Every command of the list has a recorded result (otherwise the verdict getter dereferences a missing entry). */
  predicate AllRecorded(commands: seq<Command>, results: map<CommandId, CommandResult>)
  {
    forall c :: c in commands ==> c.id in results
  }

  /** The `filter` keeping the commands whose recorded state is Passed, in order. */
  function PassedCommands(commands: seq<Command>, results: map<CommandId, CommandResult>): (r: seq<Command>)
    requires AllRecorded(commands, results)
    ensures |r| <= |commands|
    ensures forall c :: c in r ==> c in commands && results[c.id].state == Passed
    ensures forall c :: c in commands && results[c.id].state == Passed ==> c in r
  {
    if commands == [] then []
    else if results[commands[0].id].state == Passed then
      [commands[0]] + PassedCommands(commands[1..], results)
    else
      PassedCommands(commands[1..], results)
  }

  /** The filter keeps every command exactly when every command is recorded as Passed. */
  lemma {:induction false} PassedCommandsComplete(commands: seq<Command>, results: map<CommandId, CommandResult>)
    requires AllRecorded(commands, results)
    ensures |PassedCommands(commands, results)| == |commands|
            <==> forall c :: c in commands ==> results[c.id].state == Passed
  {
    if commands != [] {
      var rest := commands[1..];
      assert AllRecorded(rest, results);
      PassedCommandsComplete(rest, results);
      assert forall c :: c in commands ==> c == commands[0] || c in rest;
      if results[commands[0].id].state != Passed {
        assert |PassedCommands(commands, results)| <= |rest| < |commands|;
      }
    }
  }

  /** The test verdict: `filter(passed).length === commands.length`. */
  function TestVerdict(commands: seq<Command>, results: map<CommandId, CommandResult>): (v: PlaybackStates)
    requires AllRecorded(commands, results)
    ensures v != Pending
    ensures v == Passed <==> forall c :: c in commands ==> results[c.id].state == Passed
  {
    PassedCommandsComplete(commands, results);
    if |PassedCommands(commands, results)| == |commands| then Passed else Failed
  }

  // ---------------------------------------------------------------------------
  // Progress

  /** The set of commands whose recorded state is no longer Pending. */
  function FinishedIds(results: map<CommandId, CommandResult>): set<CommandId>
  {
    set id | id in results && results[id].state != Pending
  }

  /** The number of finished commands, at most the number of recorded commands. */
  function FinishedCount(results: map<CommandId, CommandResult>): (n: nat)
    ensures n <= |results|
    ensures results == map[] ==> n == 0
  {
    FinishedIdsWithinKeys(results);
    |FinishedIds(results)|
  }

  lemma FinishedIdsWithinKeys(results: map<CommandId, CommandResult>)
    ensures |FinishedIds(results)| <= |results.Keys| == |results|
  {
    SubsetCardinality(FinishedIds(results), results.Keys);
  }

  lemma {:induction false} SubsetCardinality<T>(a: set<T>, b: set<T>)
    requires a <= b
    ensures |a| <= |b|
    decreases b
  {
    if a != {} {
      var x :| x in a;
      SubsetCardinality(a - {x}, b - {x});
    }
  }

  /** Recording one result changes the finished count only by that command's own change of status. */
  lemma FinishedCountAfterRecord(results: map<CommandId, CommandResult>, id: CommandId, r: CommandResult)
    ensures var was := if id in results && results[id].state != Pending then 1 else 0;
            var now := if r.state != Pending then 1 else 0;
            FinishedCount(results[id := r]) == FinishedCount(results) - was + now
  {
    var before := FinishedIds(results);
    var after := FinishedIds(results[id := r]);
    assert after - {id} == before - {id};
    if r.state != Pending {
      assert after == (before - {id}) + {id};
    } else {
      assert after == before - {id};
    }
  }
}
