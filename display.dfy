/** The display probe, `show_display_test` (app/main.py lines 37-79): an advisory
    zenity dialog, then a write of the status text to the console device, then an
    ffplay test pattern, then failure. */
module DisplayProbe {
  import opened Environment
  import opened Runner

  /** The dialog is shown when zenity is on the PATH and DISPLAY is set and non-empty. */
  predicate DialogApplies(e: Env) {
    Truthy(e.zenity) && Truthy(Lookup(e.vars, "DISPLAY"))
  }

  /** The zenity info dialog: the status text, closed after RASPI_AI_DISPLAY_DURATION seconds. */
  function DialogCommand(e: Env): (cmd: seq<string>)
    requires e.zenity.Some?
    ensures |cmd| == 6 && cmd[0] == e.zenity.value && cmd[1..3] == ["--info", "--text"]
    ensures cmd[3] == e.config.displayMessage && cmd[4] == "--timeout"
    ensures Lookup(e.vars, "RASPI_AI_DISPLAY_DURATION") == None ==> cmd[5] == "10"
    ensures "RASPI_AI_DISPLAY_DURATION" in e.vars ==> cmd[5] == e.vars["RASPI_AI_DISPLAY_DURATION"]
  {
    [e.zenity.value, "--info", "--text", e.config.displayMessage,
     "--timeout", Getenv(e.vars, "RASPI_AI_DISPLAY_DURATION", "10")]
  }

  /** The dialog step does not raise: either it does not apply or its launch succeeds. */
  predicate DialogLaunches(e: Env, o: Oracle) {
    DialogApplies(e) ==> o.spawn(DialogCommand(e))
  }

  /** What a successful dialog step adds to the trace. */
  function DialogEvents(e: Env): seq<Event> {
    if DialogApplies(e) then [Spawn(DialogCommand(e), Some(":0")), Say(DialogTriggered)] else []
  }

  /** ffplay's generated 640x480 test pattern for RASPI_AI_DISPLAY_DURATION seconds. */
  function PatternCommand(e: Env, ffplay: string): (cmd: seq<string>)
    ensures |cmd| == 10 && cmd[0] == ffplay
    ensures cmd[1..9] == ["-autoexit", "-loglevel", "error", "-f", "lavfi", "-i", "testsrc=size=640x480:rate=30", "-t"]
    ensures Lookup(e.vars, "RASPI_AI_DISPLAY_DURATION") == None ==> cmd[9] == "3"
    ensures "RASPI_AI_DISPLAY_DURATION" in e.vars ==> cmd[9] == e.vars["RASPI_AI_DISPLAY_DURATION"]
  {
    [ffplay, "-autoexit", "-loglevel", "error", "-f", "lavfi", "-i", "testsrc=size=640x480:rate=30",
     "-t", Getenv(e.vars, "RASPI_AI_DISPLAY_DURATION", "3")]
  }

  /** The text written to the console device. */
  function ConsoleText(e: Env): string {
    "\n" + e.config.displayMessage + "\n"
  }

  /** The console write settles the verdict. */
  predicate ConsoleUsable(e: Env) {
    e.ttyExists && e.ttyWrite == Written
  }

  /** The console step hands over to ffplay: no device, or the write was refused. */
  predicate ConsoleFallsThrough(e: Env) {
    !e.ttyExists || e.ttyWrite == PermissionDenied
  }

  /** ffplay is found and its test pattern exits with the given result. */
  predicate PatternEnds(e: Env, o: Oracle, result: RunResult) {
    Truthy(e.ffplay) && o.run(PatternCommand(e, e.ffplay.value)) == result
  }

  /** `show_display_test`. */
  function ShowDisplayTest(e: Env, o: Oracle): (r: Report)
    // it passes exactly when the console write succeeds, or the console hands over
    // and the test pattern exits with 0 (provided the advisory dialog did not raise)
    ensures r.outcome == Returned(true) <==>
      DialogLaunches(e, o) && (ConsoleUsable(e) || (ConsoleFallsThrough(e) && PatternEnds(e, o, Exited(0))))
    // an exception escapes from the dialog launch, the console write or the pattern run
    ensures r.outcome == Raised <==>
      !DialogLaunches(e, o) || (e.ttyExists && e.ttyWrite == WriteRaised)
      || (ConsoleFallsThrough(e) && PatternEnds(e, o, RunRaised))
  {
    if DialogApplies(e) then
      var cmd := DialogCommand(e);
      if o.spawn(cmd) then Prepend([Spawn(cmd, Some(":0")), Say(DialogTriggered)], ConsoleOrPattern(e, o))
      else Report([Spawn(cmd, Some(":0"))], Raised)
    else
      ConsoleOrPattern(e, o)
  }

  /** Lines 52-79: the authoritative part of the chain. */
  function ConsoleOrPattern(e: Env, o: Oracle): Report {
    if e.ttyExists then
      var write := WriteTty(e.config.displayTty, ConsoleText(e));
      match e.ttyWrite
      case Written => Report([write, Say(TtyWritten(e.config.displayTty))], Returned(true))
      case PermissionDenied => Prepend([write, Say(TtyDenied(e.config.displayTty))], PatternOrNothing(e, o))
      case WriteRaised => Report([write], Raised)
    else
      PatternOrNothing(e, o)
  }

  /** Lines 61-79: the ffplay test pattern, or no display path at all. */
  function PatternOrNothing(e: Env, o: Oracle): Report {
    if Truthy(e.ffplay) then RunCommand(o, PatternCommand(e, e.ffplay.value), "ffplay display pattern")
    else Report([Say(NoDisplayCommand)], Returned(false))
  }

  /** The commands the dialog step starts. */
  lemma DialogAttempts(e: Env)
    ensures Attempts(DialogEvents(e)) == if DialogApplies(e) then [DialogCommand(e)] else []
  {
  }

  /** The dialog only prefixes the trace: the rest is what the probe does without zenity. */
  lemma DialogIsAdvisory(e: Env, o: Oracle)
    requires DialogLaunches(e, o)
    ensures ShowDisplayTest(e, o) == Prepend(DialogEvents(e), ShowDisplayTest(e.(zenity := None), o))
  {
  }

  /** Two hosts that differ only in zenity and DISPLAY. */
  ghost predicate SameExceptDialog(e1: Env, e2: Env) {
    e1.(zenity := e2.zenity, vars := e2.vars) == e2
    && forall name :: name != "DISPLAY" ==> Lookup(e1.vars, name) == Lookup(e2.vars, name)
  }

  /** Whether zenity and DISPLAY are present never changes the verdict. */
  lemma VerdictIgnoresDialog(e1: Env, e2: Env, o: Oracle)
    requires SameExceptDialog(e1, e2)
    requires DialogLaunches(e1, o) && DialogLaunches(e2, o)
    ensures ShowDisplayTest(e1, o).outcome == ShowDisplayTest(e2, o).outcome
  {
  }

  /** A successful console write passes the probe and ffplay is never started. */
  lemma ConsoleWriteWins(e: Env, o: Oracle)
    requires DialogLaunches(e, o) && ConsoleUsable(e)
    ensures ShowDisplayTest(e, o).outcome == Returned(true)
    ensures Attempts(ShowDisplayTest(e, o).trace) == if DialogApplies(e) then [DialogCommand(e)] else []
    ensures WriteTty(e.config.displayTty, ConsoleText(e)) in ShowDisplayTest(e, o).trace
  {
    var rest := ConsoleOrPattern(e, o);
    assert rest.trace[1..] == [Say(TtyWritten(e.config.displayTty))];
    assert rest.trace[1..][1..] == [];
    DialogAttempts(e);
    AttemptsAppend(DialogEvents(e), rest.trace);
  }

  /** With no console device, or a refused write, the verdict is ffplay's, and with
      ffplay the test pattern is the one command started after the dialog. */
  lemma ConsoleFallsThroughToPattern(e: Env, o: Oracle)
    requires DialogLaunches(e, o) && ConsoleFallsThrough(e) && Truthy(e.ffplay)
    ensures ShowDisplayTest(e, o).outcome == RunCommand(o, PatternCommand(e, e.ffplay.value), "ffplay display pattern").outcome
    ensures Attempts(ShowDisplayTest(e, o).trace) ==
      (if DialogApplies(e) then [DialogCommand(e)] else []) + [PatternCommand(e, e.ffplay.value)]
  {
    var pattern := PatternOrNothing(e, o);
    var console := if e.ttyExists then [WriteTty(e.config.displayTty, ConsoleText(e)), Say(TtyDenied(e.config.displayTty))] else [];
    assert ConsoleOrPattern(e, o) == Prepend(console, pattern);
    assert ShowDisplayTest(e, o).trace == DialogEvents(e) + (console + pattern.trace);
    assert Attempts(console) == [] by {
      if e.ttyExists {
        assert console[1..][1..] == [];
      } else {
        assert console == [];
      }
    }
    DialogAttempts(e);
    AttemptsAppend(console, pattern.trace);
    AttemptsAppend(DialogEvents(e), console + pattern.trace);
  }

  /** No usable console and no ffplay: the probe fails with "no display command available". */
  lemma NoDisplayPath(e: Env, o: Oracle)
    requires DialogLaunches(e, o) && ConsoleFallsThrough(e) && !Truthy(e.ffplay)
    ensures ShowDisplayTest(e, o).outcome == Returned(false)
    ensures ShowDisplayTest(e, o).trace[|ShowDisplayTest(e, o).trace| - 1] == Say(NoDisplayCommand)
    ensures Attempts(ShowDisplayTest(e, o).trace) == if DialogApplies(e) then [DialogCommand(e)] else []
  {
    var rest := ConsoleOrPattern(e, o);
    var console := if e.ttyExists then [WriteTty(e.config.displayTty, ConsoleText(e)), Say(TtyDenied(e.config.displayTty))] else [];
    assert rest.trace == console + [Say(NoDisplayCommand)];
    assert Attempts(rest.trace) == [] by {
      if e.ttyExists {
        assert rest.trace[1..][1..][1..] == [];
      } else {
        assert rest.trace[1..] == [];
      }
    }
    DialogAttempts(e);
    AttemptsAppend(DialogEvents(e), rest.trace);
  }

  /** RASPI_AI_DISPLAY_COMMAND is read at start-up but never consulted by the probe. */
  lemma DisplayCommandUnused(e: Env, c: Option<string>, o: Oracle)
    ensures ShowDisplayTest(e.(config := e.config.(displayCommand := c)), o) == ShowDisplayTest(e, o)
  {
  }
}
