/** Running external commands (app/main.py `run_command` and `play_audio`).
    Process execution itself is an oracle: for each argument list it says how a
    blocking run ends and whether a detached launch starts. What the program does
    is recorded as a trace of events, log lines included, beside its verdict. */
module Runner {
  import opened Environment

  /** How `subprocess.run(cmd, check=True, ...)` ends. */
  datatype RunResult =
    | Exited(code: int)  // the process ran; a non-zero code raises CalledProcessError
    | CommandNotFound    // FileNotFoundError: the executable cannot be resolved
    | RunRaised          // any other exception, which `run_command` does not catch

  /** The outcome of every external command the program may start. `spawn(cmd)` is
      true when `subprocess.Popen(cmd, ...)` returns a handle and false when it raises. */
  datatype Oracle = Oracle(run: seq<string> -> RunResult, spawn: seq<string> -> bool)

  /** The log lines the program prints, by kind (stderr text and formatting left out). */
  datatype Msg =
    | Succeeded(desc: string)
    | NotFound(desc: string, exe: string)
    | ExitFailed(desc: string, code: int)
    | DialogTriggered
    | TtyWritten(path: string)
    | TtyDenied(path: string)
    | NoDisplayCommand
    | LoopStarted(desc: string)
    | LoopFailed(desc: string)
    | NoAudioCommand
    | MediaTestStarted
    | MediaTestPassed
    | MediaTestIncomplete(displayOk: bool, audioOk: bool)
    | BotStarted

  /** One observable step of the program. */
  datatype Event =
    | Run(cmd: seq<string>)                          // blocking run, output captured
    | Spawn(cmd: seq<string>, display: Option<string>) // detached launch; DISPLAY override if any
    | WriteTty(path: string, text: string)           // open the console device and write to it
    | Say(msg: Msg)

  /** A probe either returns a boolean or lets an exception escape. */
  datatype Outcome = Returned(ok: bool) | Raised

  datatype Report = Report(trace: seq<Event>, outcome: Outcome)

  /** `events` happen first, then everything `r` records. */
  function Prepend(events: seq<Event>, r: Report): Report {
    Report(events + r.trace, r.outcome)
  }

  /** The external commands a trace starts, blocking or detached, in order. */
  function Attempts(t: seq<Event>): (cmds: seq<seq<string>>)
    ensures |cmds| <= |t|
  {
    if t == [] then []
    else
      var here := match t[0]
        case Run(c) => [c]
        case Spawn(c, _) => [c]
        case _ => [];
      here + Attempts(t[1..])
  }

  lemma {:induction false} AttemptsAppend(a: seq<Event>, b: seq<Event>)
    ensures Attempts(a + b) == Attempts(a) + Attempts(b)
  {
    if a == [] {
      assert a + b == b;
    } else {
      var ab := a + b;
      assert ab != [] && ab[0] == a[0];
      assert ab[1..] == a[1..] + b;
      AttemptsAppend(a[1..], b);
      assert Attempts(ab) == Attempts(a[..1]) + Attempts(ab[1..]);
    }
  }

  /** Commands started by a trace with a silent part on either side: only the middle counts. */
  lemma AttemptsAround(pre: seq<Event>, mid: seq<Event>, post: seq<Event>)
    requires Attempts(pre) == [] && Attempts(post) == []
    ensures Attempts(pre + mid + post) == Attempts(mid)
  {
    AttemptsAppend(pre, mid);
    AttemptsAppend(pre + mid, post);
  }

  /** A log line starts nothing. */
  lemma SayAttempts(m: Msg)
    ensures Attempts([Say(m)]) == []
  {
    assert [Say(m)][1..] == [];
  }

  /** `run_command`: run `cmd` to completion and reduce the outcome to a boolean. */
  function RunCommand(o: Oracle, cmd: seq<string>, desc: string): (r: Report)
    // true exactly when the command exits with code 0
    ensures r.outcome == Returned(true) <==> o.run(cmd) == Exited(0)
    // a missing executable and a non-zero exit both give false ...
    ensures r.outcome == Returned(false) <==>
      (o.run(cmd).Exited? && o.run(cmd).code != 0) || (o.run(cmd) == CommandNotFound && cmd != [])
    // ... and only the log line tells them apart
    ensures r.outcome == Returned(false) ==>
      |r.trace| == 2 && r.trace[1].Say? && (r.trace[1].msg.NotFound? <==> o.run(cmd) == CommandNotFound)
    // exactly one blocking run of exactly this command, and nothing else
    ensures r.trace != [] && r.trace[0] == Run(cmd) && Attempts(r.trace) == [cmd]
  {
    var t := [Run(cmd)];
    match o.run(cmd)
    case Exited(code) =>
      if code == 0 then Report(t + [Say(Succeeded(desc))], Returned(true))
      else Report(t + [Say(ExitFailed(desc, code))], Returned(false))
    case CommandNotFound =>
      // the handler's log line names cmd[0], which raises IndexError on an empty command
      if cmd == [] then Report(t, Raised)
      else Report(t + [Say(NotFound(desc, cmd[0]))], Returned(false))
    case RunRaised =>
      Report(t, Raised)
  }

  /** `play_audio`: a detached launch in loop mode, otherwise `run_command`. */
  function PlayAudio(o: Oracle, cmd: seq<string>, desc: string, loop: bool): (r: Report)
    // in loop mode the verdict is whether the launch itself succeeded; the child's exit is never consulted
    ensures loop ==> r.outcome == Returned(o.spawn(cmd))
    ensures loop ==> r.trace != [] && r.trace[0] == Spawn(cmd, None) && Attempts(r.trace) == [cmd]
    ensures !loop ==> r == RunCommand(o, cmd, desc)
  {
    if loop then
      var started := o.spawn(cmd);
      Report([Spawn(cmd, None), Say(if started then LoopStarted(desc) else LoopFailed(desc))], Returned(started))
    else
      RunCommand(o, cmd, desc)
  }

  /** Detached playback ignores how the child would end if it were waited for. */
  lemma LoopIgnoresExitStatus(o1: Oracle, o2: Oracle, cmd: seq<string>, desc: string)
    requires o1.spawn(cmd) == o2.spawn(cmd)
    ensures PlayAudio(o1, cmd, desc, true) == PlayAudio(o2, cmd, desc, true)
  {
  }

  /** A first-applicable choice over an ordered list of (strategy, applies) pairs:
      the earliest strategy that applies, or `none` when no strategy does. */
  function FirstApplicable<S>(cands: seq<(S, bool)>, none: S): (s: S)
    ensures (forall i :: 0 <= i < |cands| ==> !cands[i].1) ==> s == none
    ensures forall i :: 0 <= i < |cands| && cands[i].1 && (forall j :: 0 <= j < i ==> !cands[j].1) ==>
      s == cands[i].0
  {
    if cands == [] then none
    else if cands[0].1 then cands[0].0
    else FirstApplicable(cands[1..], none)
  }

  /** On POSIX, `subprocess.run([])` and `subprocess.Popen([])` raise IndexError while
      starting, so an oracle that models them answers an empty command that way. */
  predicate EmptyCommandRaises(o: Oracle) {
    o.run([]) == RunRaised && !o.spawn([])
  }

  /** An empty command escapes `run_command` as an exception, and a looping
      `play_audio` reports it as a failed start. */
  lemma EmptyCommand(o: Oracle, desc: string)
    requires EmptyCommandRaises(o)
    ensures RunCommand(o, [], desc).outcome == Raised
    ensures PlayAudio(o, [], desc, false).outcome == Raised
    ensures PlayAudio(o, [], desc, true).outcome == Returned(false)
  {
  }
}
