/**
 The playback run-state store: whether a run is playing, which test and suite
 are running, the queue of tests still to run in a suite, the per-command,
 per-test and per-suite result maps, and the run and failure counters. Every
 action is a synchronous update of the store's fields.

 `UiState`, which the JavaScript store reads the selected test or suite from,
 is replaced by parameters; the selection callback the store makes when it
 moves to the next test is recorded in the ghost field `selected`.
 */
module PlaybackStore {
  import opened PlaybackData

  /** JavaScript truthiness of the running-suite slot: an absent suite and the empty identifier are falsy. */
  predicate Truthy(suite: Option<SuiteId>)
  {
    suite.Some? && suite.value != ""
  }

  /** Whether `startPlaying` treats `test` as a new target: a suite was running, no test was, or another test was. */
  predicate StartsNewTest(runningSuite: Option<SuiteId>, runningTest: Option<Test>, test: Test)
  {
    Truthy(runningSuite) || runningTest.None? || runningTest.value.id != test.id
  }

  class PlaybackState {
    var isPlaying: bool
    var currentPlayingIndex: int
    var currentRunningTest: Option<Test>
    var currentRunningSuite: Option<SuiteId>
    var commandsCount: nat
    var commandState: map<CommandId, CommandResult>
    var testState: map<TestId, PlaybackStates>
    /** Keyed by the running suite, which is absent (None) after a single-test run. */
    var suiteState: map<Option<SuiteId>, PlaybackStates>
    var runs: nat
    var failures: nat
    var hasFailed: bool
    /** The tests of the running suite not yet started, head first. */
    var testsToRun: seq<Test>

    /** Failed outcomes recorded since the current run began. */
    ghost var failedInRun: nat
    /** The last test passed to the selection callback. */
    ghost var selected: Option<Test>

    /** `hasFailed` says whether a failure was recorded in this run, and every such failure is counted in `failures`. */
    ghost predicate Valid()
      reads this
      ensures Valid() ==> (hasFailed ==> failures > 0)
    {
      failedInRun <= failures && (hasFailed <==> failedInRun > 0)
    }

    constructor ()
      ensures Valid()
      ensures !isPlaying && currentPlayingIndex == 0
      ensures currentRunningTest == None && currentRunningSuite == None
      ensures commandsCount == 0 && runs == 0 && failures == 0 && !hasFailed
      ensures commandState == map[] && testState == map[] && suiteState == map[]
      ensures testsToRun == []
    {
      isPlaying := false;
      currentPlayingIndex := 0;
      currentRunningTest := None;
      currentRunningSuite := None;
      commandsCount := 0;
      commandState := map[];
      testState := map[];
      suiteState := map[];
      runs := 0;
      failures := 0;
      hasFailed := false;
      testsToRun := [];
      failedInRun := 0;
      selected := None;
    }

    /** The getter `finishedCommandsCount`: counts the recorded commands that are no longer Pending. */
    method FinishedCommandsCount() returns (counter: nat)
      ensures counter == FinishedCount(commandState)
      ensures counter <= |commandState|
    {
      counter := 0;
      var unvisited := commandState.Keys;
      while unvisited != {}
        invariant unvisited <= commandState.Keys
        invariant counter == |FinishedIds(commandState) - unvisited|
        decreases unvisited
      {
        var id :| id in unvisited;
        ghost var doneBefore := FinishedIds(commandState) - unvisited;
        if commandState[id].state != Pending {
          assert FinishedIds(commandState) - (unvisited - {id}) == doneBefore + {id};
          counter := counter + 1;
        } else {
          assert FinishedIds(commandState) - (unvisited - {id}) == doneBefore;
        }
        unvisited := unvisited - {id};
      }
      assert FinishedIds(commandState) - unvisited == FinishedIds(commandState);
    }

    /** The getter `hasFinishedSuccessfully`: every command of the running test is recorded as Passed. */
    function HasFinishedSuccessfully(): (b: bool)
      reads this
      requires currentRunningTest.Some?
      requires AllRecorded(currentRunningTest.value.commands, commandState)
      ensures b <==> forall c :: c in currentRunningTest.value.commands ==> commandState[c.id].state == Passed
    {
      TestVerdict(currentRunningTest.value.commands, commandState) == Passed
    }

    /** Starts a run of every test of `suite`, in order, keeping the counters when the same suite ran last. */
    method StartPlayingSuite(suite: Suite)
      requires Valid()
      modifies this
      ensures Valid()
      ensures old(currentRunningSuite) != Some(suite.id) ==>
                runs == 1 && failures == 0 && currentPlayingIndex == 0
      ensures old(currentRunningSuite) == Some(suite.id) ==>
                runs == old(runs) + 1 && failures == old(failures) && currentPlayingIndex == old(currentPlayingIndex)
      ensures currentRunningSuite == Some(suite.id)
      ensures commandState == map[] && !hasFailed && failedInRun == 0
      ensures commandsCount == TotalCommands(suite.tests)
      ensures currentRunningTest.Some? ==> |currentRunningTest.value.commands| <= commandsCount
      ensures suite.tests != [] ==>
                currentRunningTest == Some(suite.tests[0]) && testsToRun == suite.tests[1..]
      ensures suite.tests == [] ==> currentRunningTest == None && testsToRun == []
      ensures selected == currentRunningTest
      ensures isPlaying
      ensures testState == old(testState) && suiteState == old(suiteState)
    {
      if currentRunningSuite != Some(suite.id) {
        ResetState();
        currentRunningSuite := Some(suite.id);
      }
      ClearCommandStates();
      hasFailed := false;
      failedInRun := 0;
      runs := runs + 1;
      testsToRun := suite.tests;
      commandsCount := ReduceCommandCount(0, testsToRun);
      if testsToRun != [] {
        TestCommandsWithinTotal(testsToRun, 0);
      }
      PlayNext();
    }

    /** Starts a run of the single test `test`, keeping the counters when the same test ran last outside a suite. */
    method StartPlaying(test: Test)
      requires Valid()
      modifies this
      ensures Valid()
      ensures old(StartsNewTest(currentRunningSuite, currentRunningTest, test)) ==>
                && runs == 1 && failures == 0 && currentPlayingIndex == 0
                && currentRunningSuite == None && currentRunningTest == Some(test)
      ensures !old(StartsNewTest(currentRunningSuite, currentRunningTest, test)) ==>
                && runs == old(runs) + 1 && failures == old(failures)
                && currentPlayingIndex == old(currentPlayingIndex)
                && currentRunningSuite == old(currentRunningSuite)
                && currentRunningTest == old(currentRunningTest)
      ensures currentRunningTest.Some? && currentRunningTest.value.id == test.id
      ensures commandsCount == |test.commands|
      ensures commandState == map[] && !hasFailed && failedInRun == 0
      ensures isPlaying
      ensures testsToRun == old(testsToRun) && selected == old(selected)
      ensures testState == old(testState) && suiteState == old(suiteState)
    {
      if StartsNewTest(currentRunningSuite, currentRunningTest, test) {
        ResetState();
        currentRunningSuite := None;
        currentRunningTest := Some(test);
      }
      ClearCommandStates();
      runs := runs + 1;
      hasFailed := false;
      failedInRun := 0;
      commandsCount := |test.commands|;
      isPlaying := true;
    }

    /** Moves the head of the queue into the running slot (absent when the queue is empty) and selects it. */
    method PlayNext()
      requires Valid()
      modifies this
      ensures Valid()
      ensures old(testsToRun) != [] ==>
                currentRunningTest == Some(old(testsToRun)[0]) && testsToRun == old(testsToRun)[1..]
      ensures old(testsToRun) == [] ==> currentRunningTest == None && testsToRun == []
      ensures selected == currentRunningTest
      ensures isPlaying
      ensures currentPlayingIndex == old(currentPlayingIndex) && currentRunningSuite == old(currentRunningSuite)
      ensures commandsCount == old(commandsCount) && commandState == old(commandState)
      ensures testState == old(testState) && suiteState == old(suiteState)
      ensures runs == old(runs) && failures == old(failures) && hasFailed == old(hasFailed)
      ensures failedInRun == old(failedInRun)
    {
      if testsToRun == [] {
        currentRunningTest := None;
      } else {
        currentRunningTest := Some(testsToRun[0]);
        testsToRun := testsToRun[1..];
      }
      selected := currentRunningTest;
      isPlaying := true;
    }

    /** Stops driving commands; the queue, results and counters stay as they are. */
    method StopPlaying()
      requires Valid()
      modifies this
      ensures Valid()
      ensures !isPlaying
      ensures currentPlayingIndex == old(currentPlayingIndex)
      ensures currentRunningTest == old(currentRunningTest) && currentRunningSuite == old(currentRunningSuite)
      ensures commandsCount == old(commandsCount) && commandState == old(commandState)
      ensures testState == old(testState) && suiteState == old(suiteState)
      ensures runs == old(runs) && failures == old(failures) && hasFailed == old(hasFailed)
      ensures testsToRun == old(testsToRun)
      ensures failedInRun == old(failedInRun) && selected == old(selected)
    {
      isPlaying := false;
    }

    /** Stops driving commands and drops the rest of the suite; results and counters stay as they are. */
    method AbortPlaying()
      requires Valid()
      modifies this
      ensures Valid()
      ensures !isPlaying && testsToRun == []
      ensures currentPlayingIndex == old(currentPlayingIndex)
      ensures currentRunningTest == old(currentRunningTest) && currentRunningSuite == old(currentRunningSuite)
      ensures commandsCount == old(commandsCount) && commandState == old(commandState)
      ensures testState == old(testState) && suiteState == old(suiteState)
      ensures runs == old(runs) && failures == old(failures) && hasFailed == old(hasFailed)
      ensures failedInRun == old(failedInRun) && selected == old(selected)
    {
      isPlaying := false;
      testsToRun := [];
    }

    /**
     Records the verdict of the running test, then either starts the next
     queued test or, when none is left, records the run's verdict under the
     running suite.
     */
    method FinishPlaying()
      requires Valid()
      requires currentRunningTest.Some?
      requires AllRecorded(currentRunningTest.value.commands, commandState)
      modifies this
      ensures Valid()
      ensures testState == old(testState)[old(currentRunningTest).value.id := old(TestVerdict(currentRunningTest.value.commands, commandState))]
      ensures old(testsToRun) != [] ==>
                && currentRunningTest == Some(old(testsToRun)[0]) && testsToRun == old(testsToRun)[1..]
                && selected == currentRunningTest && isPlaying
                && suiteState == old(suiteState)
      ensures old(testsToRun) == [] ==>
                && currentRunningTest == old(currentRunningTest) && testsToRun == []
                && selected == old(selected) && !isPlaying
                && suiteState == old(suiteState)[old(currentRunningSuite) := if old(hasFailed) then Failed else Passed]
      ensures currentPlayingIndex == old(currentPlayingIndex) && currentRunningSuite == old(currentRunningSuite)
      ensures commandsCount == old(commandsCount) && commandState == old(commandState)
      ensures runs == old(runs) && failures == old(failures) && hasFailed == old(hasFailed)
      ensures failedInRun == old(failedInRun)
    {
      isPlaying := false;
      var verdict := if HasFinishedSuccessfully() then Passed else Failed;
      testState := testState[currentRunningTest.value.id := verdict];
      if |testsToRun| > 0 {
        PlayNext();
      } else {
        suiteState := suiteState[currentRunningSuite := if !hasFailed then Passed else Failed];
      }
    }

    /** Records which command of the running test is executing; any integer is accepted. */
    method SetPlayingIndex(index: int)
      requires Valid()
      modifies this
      ensures Valid()
      ensures currentPlayingIndex == index
      ensures isPlaying == old(isPlaying)
      ensures currentRunningTest == old(currentRunningTest) && currentRunningSuite == old(currentRunningSuite)
      ensures commandsCount == old(commandsCount) && commandState == old(commandState)
      ensures testState == old(testState) && suiteState == old(suiteState)
      ensures runs == old(runs) && failures == old(failures) && hasFailed == old(hasFailed)
      ensures testsToRun == old(testsToRun)
      ensures failedInRun == old(failedInRun) && selected == old(selected)
    {
      currentPlayingIndex := index;
    }

    /** Records the outcome of one command, overwriting any earlier one; every Failed outcome is counted. */
    method SetCommandState(commandId: CommandId, state: PlaybackStates, message: Option<string>)
      requires Valid()
      modifies this
      ensures Valid()
      ensures commandState == old(commandState)[commandId := CommandResult(state, message)]
      ensures state == Failed ==> failures == old(failures) + 1 && hasFailed && failedInRun == old(failedInRun) + 1
      ensures state != Failed ==> failures == old(failures) && hasFailed == old(hasFailed) && failedInRun == old(failedInRun)
      ensures isPlaying == old(isPlaying) && currentPlayingIndex == old(currentPlayingIndex)
      ensures currentRunningTest == old(currentRunningTest) && currentRunningSuite == old(currentRunningSuite)
      ensures commandsCount == old(commandsCount)
      ensures testState == old(testState) && suiteState == old(suiteState)
      ensures runs == old(runs) && testsToRun == old(testsToRun) && selected == old(selected)
    {
      if state == Failed {
        hasFailed := true;
        failures := failures + 1;
        failedInRun := failedInRun + 1;
      }
      commandState := commandState[commandId := CommandResult(state, message)];
    }

    /** Forgets every command result. */
    method ClearCommandStates()
      requires Valid()
      modifies this
      ensures Valid()
      ensures commandState == map[]
      ensures isPlaying == old(isPlaying) && currentPlayingIndex == old(currentPlayingIndex)
      ensures currentRunningTest == old(currentRunningTest) && currentRunningSuite == old(currentRunningSuite)
      ensures commandsCount == old(commandsCount)
      ensures testState == old(testState) && suiteState == old(suiteState)
      ensures runs == old(runs) && failures == old(failures) && hasFailed == old(hasFailed)
      ensures testsToRun == old(testsToRun)
      ensures failedInRun == old(failedInRun) && selected == old(selected)
    {
      commandState := map[];
    }

    /** Clears command results and zeroes the index and counters; test and suite verdicts are kept. */
    method ResetState()
      requires Valid()
      modifies this
      ensures Valid()
      ensures commandState == map[] && currentPlayingIndex == 0
      ensures runs == 0 && failures == 0 && !hasFailed && failedInRun == 0
      ensures isPlaying == old(isPlaying)
      ensures currentRunningTest == old(currentRunningTest) && currentRunningSuite == old(currentRunningSuite)
      ensures commandsCount == old(commandsCount)
      ensures testState == old(testState) && suiteState == old(suiteState)
      ensures testsToRun == old(testsToRun) && selected == old(selected)
    {
      ClearCommandStates();
      currentPlayingIndex := 0;
      runs := 0;
      failures := 0;
      hasFailed := false;
      failedInRun := 0;
    }
  }
}
