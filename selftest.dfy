/** The coordinator, `run_media_test` (app/main.py lines 146-154), and the exit
    decision at the top of `main` (lines 157-161). */
module SelfTest {
  import opened Environment
  import opened Runner
  import DisplayProbe
  import AudioProbe

  /** `run_media_test`: the display probe, then the audio probe, then both verdicts ANDed. */
  function RunMediaTest(e: Env, o: Oracle): (r: Report)
    // both probes must pass; there is no partial credit
    ensures r.outcome == Returned(true) <==>
      DisplayProbe.ShowDisplayTest(e, o).outcome == Returned(true)
      && AudioProbe.PlayAudioTest(e, o).outcome == Returned(true)
    // an exception from either probe escapes (see DisplayRaisesFirst for what is then run)
    ensures r.outcome == Raised <==>
      DisplayProbe.ShowDisplayTest(e, o).outcome == Raised
      || AudioProbe.PlayAudioTest(e, o).outcome == Raised
  {
    var display := DisplayProbe.ShowDisplayTest(e, o);
    match display.outcome
    case Raised => Report([Say(MediaTestStarted)] + display.trace, Raised)
    case Returned(_) => Conclude(display, AudioProbe.PlayAudioTest(e, o))
  }

  /** Lines 149-154, once the display probe has returned: the audio probe's report is
      appended and, unless it raised, the summary line is logged with the ANDed verdict. */
  function Conclude(display: Report, audio: Report): Report
    requires display.outcome.Returned?
  {
    var trace := [Say(MediaTestStarted)] + display.trace + audio.trace;
    match audio.outcome
    case Raised => Report(trace, Raised)
    case Returned(audioOk) =>
      var displayOk := display.outcome.ok;
      var summary := if displayOk && audioOk then MediaTestPassed else MediaTestIncomplete(displayOk, audioOk);
      Report(trace + [Say(summary)], Returned(displayOk && audioOk))
  }

  /** Concluding starts nothing of its own: only the two probes' commands, in order. */
  lemma ConcludeAttempts(display: Report, audio: Report)
    requires display.outcome.Returned?
    ensures Attempts(Conclude(display, audio).trace) == Attempts(display.trace) + Attempts(audio.trace)
  {
    SayAttempts(MediaTestStarted);
    AttemptsAppend(display.trace, audio.trace);
    var start := [Say(MediaTestStarted)];
    if audio.outcome.Raised? {
      assert Conclude(display, audio).trace == start + (display.trace + audio.trace) + [];
      AttemptsAround(start, display.trace + audio.trace, []);
    } else {
      var t := Conclude(display, audio).trace;
      var tail := t[|t| - 1];
      assert t == start + (display.trace + audio.trace) + [tail];
      SayAttempts(tail.msg);
      AttemptsAround(start, display.trace + audio.trace, [tail]);
    }
  }

  /** The aggregate law for all four combinations of probe verdicts. */
  lemma AggregateIsConjunction(e: Env, o: Oracle, displayOk: bool, audioOk: bool)
    requires DisplayProbe.ShowDisplayTest(e, o).outcome == Returned(displayOk)
    requires AudioProbe.PlayAudioTest(e, o).outcome == Returned(audioOk)
    ensures RunMediaTest(e, o).outcome == Returned(displayOk && audioOk)
  {
  }

  /** Every display command is started before any audio command, and the test starts
      exactly the commands of the two probes. */
  lemma DisplayBeforeAudio(e: Env, o: Oracle)
    requires DisplayProbe.ShowDisplayTest(e, o).outcome != Raised
    ensures Attempts(RunMediaTest(e, o).trace) ==
      Attempts(DisplayProbe.ShowDisplayTest(e, o).trace) + Attempts(AudioProbe.PlayAudioTest(e, o).trace)
  {
    ConcludeAttempts(DisplayProbe.ShowDisplayTest(e, o), AudioProbe.PlayAudioTest(e, o));
  }

  /** An exception from the display probe escapes at once: the audio probe is never
      called, so only the display probe's commands are started. */
  lemma DisplayRaisesFirst(e: Env, o: Oracle)
    requires DisplayProbe.ShowDisplayTest(e, o).outcome == Raised
    ensures RunMediaTest(e, o).outcome == Raised
    ensures Attempts(RunMediaTest(e, o).trace) == Attempts(DisplayProbe.ShowDisplayTest(e, o).trace)
  {
    SayAttempts(MediaTestStarted);
    AttemptsAppend([Say(MediaTestStarted)], DisplayProbe.ShowDisplayTest(e, o).trace);
  }

  /** How the process ends up. */
  datatype Ending =
    | ExitStatus(code: int)  // sys.exit after the self-test
    | Idle                   // the endless liveness loop
    | Crash                  // an exception escaped from the self-test

  datatype Lifetime = Lifetime(trace: seq<Event>, ending: Ending)

  /** The decision `main` makes before it enters its idle loop. */
  function Start(e: Env, o: Oracle): (m: Lifetime)
    // with exiting enabled, the status is 0 exactly when both probes pass, else 1
    ensures e.config.mediaTestEnabled && e.config.mediaTestExit && RunMediaTest(e, o).outcome != Raised ==>
      m.ending == ExitStatus(if RunMediaTest(e, o).outcome.ok then 0 else 1)
    ensures m.ending == ExitStatus(0) <==>
      e.config.mediaTestEnabled && e.config.mediaTestExit && RunMediaTest(e, o).outcome == Returned(true)
    // the process only exits on its own after a self-test it was told to exit after
    ensures m.ending.ExitStatus? ==> e.config.mediaTestEnabled && e.config.mediaTestExit
    // with the self-test disabled nothing is run at all
    ensures !e.config.mediaTestEnabled ==> m == Lifetime([Say(BotStarted)], Idle)
    // it crashes exactly when an exception escapes the self-test
    ensures m.ending == Crash <==> e.config.mediaTestEnabled && RunMediaTest(e, o).outcome == Raised
    // a self-test that returns, with exiting off, is followed by the idle loop
    ensures e.config.mediaTestEnabled && !e.config.mediaTestExit && RunMediaTest(e, o).outcome != Raised ==>
      m.ending == Idle
  {
    if e.config.mediaTestEnabled then
      var r := RunMediaTest(e, o);
      match r.outcome
      case Raised => Lifetime(r.trace, Crash)
      case Returned(ok) =>
        if e.config.mediaTestExit then Lifetime(r.trace, ExitStatus(if ok then 0 else 1))
        else Lifetime(r.trace + [Say(BotStarted)], Idle)
    else
      Lifetime([Say(BotStarted)], Idle)
  }

  /** With the settings read at start-up, RASPI_AI_MEDIA_TEST set to anything but "1"
      skips the self-test, and the bot goes straight to idling. */
  lemma DisabledByVariable(e: Env, o: Oracle, now: string)
    requires LoadedFrom(e, now)
    requires "RASPI_AI_MEDIA_TEST" in e.vars && e.vars["RASPI_AI_MEDIA_TEST"] != "1"
    ensures Start(e, o) == Lifetime([Say(BotStarted)], Idle)
  {
  }

  /** With the settings read at start-up and RASPI_AI_MEDIA_TEST_EXIT=1 (the self-test on
      by default), the process exits 0 exactly when both probes pass. */
  lemma ExitStatusFromVariables(e: Env, o: Oracle, now: string)
    requires LoadedFrom(e, now)
    requires "RASPI_AI_MEDIA_TEST" !in e.vars
    requires "RASPI_AI_MEDIA_TEST_EXIT" in e.vars && e.vars["RASPI_AI_MEDIA_TEST_EXIT"] == "1"
    requires RunMediaTest(e, o).outcome != Raised
    ensures Start(e, o).ending == ExitStatus(0) <==>
      DisplayProbe.ShowDisplayTest(e, o).outcome == Returned(true)
      && AudioProbe.PlayAudioTest(e, o).outcome == Returned(true)
    ensures Start(e, o).ending.ExitStatus? && Start(e, o).ending.code in {0, 1}
  {
  }
}
