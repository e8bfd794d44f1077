/**
 Client runs of the playback store, proved from the store's contracts alone:
 a two-test suite with one failing command, a single-test run, and a
 single-test run started after a suite run was stopped midway.
 */
module PlaybackScenarios {
  import opened PlaybackData
  import opened PlaybackStore

  /**
   Suite S holds T1 {c1, c2} and T2 {c3}; c1 and c2 pass, c3 fails. The
   count covers both tests, T1 passes, T2 fails, the suite fails and one
   failure is counted.
   */
  method SuiteRunScenario() returns (count: nat, first: PlaybackStates, second: PlaybackStates,
                                     suiteVerdict: PlaybackStates, failures: nat, playing: bool)
    ensures count == 3
    ensures first == Passed && second == Failed && suiteVerdict == Failed
    ensures failures == 1 && !playing
  {
    var t1 := Test("T1", [Command("c1"), Command("c2")]);
    var t2 := Test("T2", [Command("c3")]);
    var p := new PlaybackState();
    p.StartPlayingSuite(Suite("S", [t1, t2]));
    assert [t1, t2][1..] == [t2] && [t2][1..] == [];
    assert TotalCommands([t2]) == 1;
    assert TotalCommands([t1, t2]) == 3;
    count := p.commandsCount;
    assert p.currentRunningTest == Some(t1);

    p.SetCommandState("c1", Passed, None);
    p.SetCommandState("c2", Passed, None);
    assert AllRecorded(t1.commands, p.commandState);
    p.FinishPlaying();
    assert p.currentRunningTest == Some(t2);

    p.SetCommandState("c3", Failed, Some("element not found"));
    assert AllRecorded(t2.commands, p.commandState);
    p.FinishPlaying();
    first, second := p.testState["T1"], p.testState["T2"];
    suiteVerdict := p.suiteState[Some("S")];
    failures, playing := p.failures, p.isPlaying;
  }

  /**
   Running the single test T twice: the second start keeps the run history,
   and finishing a single test writes the run's verdict under the absent
   suite key.
   */
  method SingleTestScenario() returns (runs: nat, failures: nat, verdict: PlaybackStates, runVerdict: PlaybackStates)
    ensures runs == 2 && failures == 2
    ensures verdict == Failed && runVerdict == Failed
  {
    var t := Test("T", [Command("c")]);
    var p := new PlaybackState();
    p.StartPlaying(t);
    p.SetCommandState("c", Failed, None);
    p.FinishPlaying();
    p.StartPlaying(t);
    p.SetCommandState("c", Failed, None);
    p.FinishPlaying();
    runs, failures := p.runs, p.failures;
    verdict := p.testState["T"];
    runVerdict := p.suiteState[None];
  }

  /**
   A suite run of T1, T2 is stopped while T1 is running and the single test
   U is started: `startPlaying` keeps the queue, so finishing U moves on to
   the stopped suite's T2 while no suite is recorded as running.
   */
  method StopThenSingleTestScenario() returns (next: Option<Test>, suite: Option<SuiteId>, playing: bool)
    ensures next == Some(Test("T2", []))
    ensures suite == None && playing
  {
    var p := new PlaybackState();
    p.StartPlayingSuite(Suite("S", [Test("T1", []), Test("T2", [])]));
    p.StopPlaying();
    p.StartPlaying(Test("U", []));
    p.FinishPlaying();
    next, suite, playing := p.currentRunningTest, p.currentRunningSuite, p.isPlaying;
  }
}
