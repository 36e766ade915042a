/** The audio probe, `play_audio_test` (app/main.py lines 95-143): the custom
    command, then an ffplay loop, then aplay of the sample, then a speaker-test tone,
    then an ffplay sine tone, then failure. */
module AudioProbe {
  import opened Environment
  import opened Runner

  /** RASPI_AI_AUDIO_TONE, 880 Hz when unset. */
  function Tone(e: Env): (tone: string)
    ensures Lookup(e.vars, "RASPI_AI_AUDIO_TONE") == None ==> tone == "880"
    ensures "RASPI_AI_AUDIO_TONE" in e.vars ==> tone == e.vars["RASPI_AI_AUDIO_TONE"]
  {
    Getenv(e.vars, "RASPI_AI_AUDIO_TONE", "880")
  }

  /** The arguments the loop command starts with, after the ffplay path. */
  const LoopArgs: seq<string> := ["-loop", "0", "-nodisp", "-loglevel", "error"]

  /** The endless ffplay playback: the sample if it exists, else a generated sine tone. */
  function LoopCommand(e: Env, ffplay: string): (cmd: seq<string>)
    ensures |cmd| == if e.sampleExists then 7 else 10
    ensures cmd[..6] == [ffplay] + LoopArgs
    ensures e.sampleExists ==> cmd[6..] == [e.config.audioSample]
    ensures !e.sampleExists ==> cmd[6..] == ["-f", "lavfi", "-i", "sine=frequency=" + Tone(e)]
  {
    [ffplay] + LoopArgs + (if e.sampleExists then [e.config.audioSample] else ["-f", "lavfi", "-i", "sine=frequency=" + Tone(e)])
  }

  /** Lines 104-113: the loop command, built by appending to a list. */
  method BuildLoopCommand(e: Env, ffplay: string) returns (cmd: seq<string>)
    ensures cmd == LoopCommand(e, ffplay)
  {
    cmd := [ffplay, "-loop", "0", "-nodisp", "-loglevel", "error"];
    if e.sampleExists {
      cmd := cmd + [e.config.audioSample];
    } else {
      cmd := cmd + ["-f", "lavfi", "-i", "sine=frequency=" + Tone(e)];
    }
  }

  /** aplay of the sample, against aplay's default device. */
  function AplayCommand(e: Env): seq<string> {
    ["aplay", e.config.audioSample]
  }

  /** One loop of speaker-test's sine tone. */
  function SpeakerTestCommand(e: Env, speakerTest: string): (cmd: seq<string>)
    ensures |cmd| == 7 && cmd[0] == speakerTest && cmd[1..4] == ["-t", "sine", "-f"]
    ensures cmd[4] == Tone(e) && cmd[5..] == ["-l", "1"]
  {
    [speakerTest, "-t", "sine", "-f", Tone(e), "-l", "1"]
  }

  /** A two-second generated sine tone through ffplay. */
  function SineCommand(e: Env, ffplay: string): (cmd: seq<string>)
    ensures |cmd| == 9 && cmd[0] == ffplay
    ensures cmd[1..8] == ["-autoexit", "-nodisp", "-loglevel", "error", "-f", "lavfi", "-i"]
    ensures cmd[8] == "sine=frequency=" + Tone(e) + ":duration=2"
  {
    [ffplay, "-autoexit", "-nodisp", "-loglevel", "error", "-f", "lavfi", "-i",
     "sine=frequency=" + Tone(e) + ":duration=2"]
  }

  /** `play_audio_test`. */
  function PlayAudioTest(e: Env, o: Oracle): (r: Report)
    // a custom command is played and decides the verdict on its own ...
    ensures Truthy(e.config.audioCommand) && e.audioTokens.Some? ==>
      r == PlayAudio(o, e.audioTokens.value, "Custom audio command", e.config.audioLoop)
    // ... and one that cannot be split raises before anything is started
    ensures Truthy(e.config.audioCommand) && e.audioTokens.None? ==> r == Report([], Raised)
    // whichever strategy is taken, at most one command is started
    ensures |Attempts(r.trace)| <= 1
  {
    if Truthy(e.config.audioCommand) then
      match e.audioTokens
      case Some(tokens) => PlayAudio(o, tokens, "Custom audio command", e.config.audioLoop)
      case None => Report([], Raised)
    else if e.config.audioLoop && Truthy(e.ffplay) then
      PlayAudio(o, LoopCommand(e, e.ffplay.value), "ffplay loop", true)
    else
      BlockingChain(e, o)
  }

  /** Lines 117-143: the blocking strategies, tried in a fixed order. */
  function BlockingChain(e: Env, o: Oracle): (r: Report)
  {
    if e.sampleExists then
      RunCommand(o, AplayCommand(e), "aplay sample")
    else if Truthy(e.speakerTest) then
      RunCommand(o, SpeakerTestCommand(e, e.speakerTest.value), "speaker-test tone")
    else if Truthy(e.ffplay) then
      RunCommand(o, SineCommand(e, e.ffplay.value), "ffplay sine tone")
    else
      Report([Say(NoAudioCommand)], Returned(false))
  }

  /** The audio strategies, in priority order. */
  datatype Strategy = CustomCommand | FfplayLoop | AplaySample | SpeakerTestTone | FfplaySineTone | NoAudio

  /** Each strategy paired with whether it applies on this host. */
  function Candidates(e: Env): seq<(Strategy, bool)> {
    [(CustomCommand, Truthy(e.config.audioCommand)),
     (FfplayLoop, e.config.audioLoop && Truthy(e.ffplay)),
     (AplaySample, e.sampleExists),
     (SpeakerTestTone, Truthy(e.speakerTest)),
     (FfplaySineTone, Truthy(e.ffplay))]
  }

  /** The first strategy that applies, or NoAudio. */
  function Chosen(e: Env): Strategy {
    FirstApplicable(Candidates(e), NoAudio)
  }

  /** The commands a strategy starts. */
  function StrategyCommands(s: Strategy, e: Env): seq<seq<string>>
    requires s in {FfplayLoop, FfplaySineTone} ==> e.ffplay.Some?
    requires s == SpeakerTestTone ==> e.speakerTest.Some?
  {
    match s
    case CustomCommand => if e.audioTokens.Some? then [e.audioTokens.value] else []
    case FfplayLoop => [LoopCommand(e, e.ffplay.value)]
    case AplaySample => [AplayCommand(e)]
    case SpeakerTestTone => [SpeakerTestCommand(e, e.speakerTest.value)]
    case FfplaySineTone => [SineCommand(e, e.ffplay.value)]
    case NoAudio => []
  }

  /** Strategies that start a command detached rather than wait for it. */
  predicate Detached(s: Strategy, e: Env) {
    s == FfplayLoop || (s == CustomCommand && e.config.audioLoop && e.audioTokens.Some?)
  }

  /** The probe runs the first applicable strategy in the fixed order, and nothing else. */
  lemma FollowsPriority(e: Env, o: Oracle)
    ensures Chosen(e) in {FfplayLoop, FfplaySineTone} ==> e.ffplay.Some?
    ensures Chosen(e) == SpeakerTestTone ==> e.speakerTest.Some?
    ensures Attempts(PlayAudioTest(e, o).trace) == StrategyCommands(Chosen(e), e)
    ensures Detached(Chosen(e), e) <==> (PlayAudioTest(e, o).trace != [] && PlayAudioTest(e, o).trace[0].Spawn?)
  {
    var c := Candidates(e);
    if !c[0].1 && !c[1].1 && !c[2].1 && !c[3].1 && !c[4].1 {
      var r := PlayAudioTest(e, o);
      assert r.trace[1..] == [];
    }
  }

  /** The verdict is the chosen strategy's: launch success when it is detached, a zero
      exit status when it is waited for, and false when no strategy applies. */
  lemma VerdictOfChosen(e: Env, o: Oracle)
    ensures Chosen(e) in {FfplayLoop, FfplaySineTone} ==> e.ffplay.Some?
    ensures Chosen(e) == SpeakerTestTone ==> e.speakerTest.Some?
    ensures PlayAudioTest(e, o).outcome == Returned(true) <==>
      var cmds := StrategyCommands(Chosen(e), e);
      cmds != [] && (if Detached(Chosen(e), e) then o.spawn(cmds[0]) else o.run(cmds[0]) == Exited(0))
    // it raises when the custom command cannot be split, or when the chosen blocking run raises
    ensures PlayAudioTest(e, o).outcome == Raised <==>
      var cmds := StrategyCommands(Chosen(e), e);
      (Chosen(e) == CustomCommand && e.audioTokens.None?)
      || (cmds != [] && !Detached(Chosen(e), e)
          && (o.run(cmds[0]) == RunRaised || (o.run(cmds[0]) == CommandNotFound && cmds[0] == [])))
  {
    var c := Candidates(e);
    if c[0].1 {
      assert Chosen(e) == CustomCommand;
    } else if c[1].1 {
      assert Chosen(e) == FfplayLoop;
    } else if c[2].1 {
      assert Chosen(e) == AplaySample;
    } else if c[3].1 {
      assert Chosen(e) == SpeakerTestTone;
    } else if c[4].1 {
      assert Chosen(e) == FfplaySineTone;
    } else {
      assert Chosen(e) == NoAudio;
    }
  }

  /** Loop mode needs ffplay: without it the custom-free probe is the blocking chain. */
  lemma LoopWithoutFfplayBlocks(e: Env, o: Oracle)
    requires !Truthy(e.config.audioCommand) && e.config.audioLoop && !Truthy(e.ffplay)
    ensures PlayAudioTest(e, o) == PlayAudioTest(e.(config := e.config.(audioLoop := false)), o)
    ensures PlayAudioTest(e, o) == BlockingChain(e, o)
  {
  }

  /** Loop mode with ffplay launches the loop command detached; the verdict is the launch. */
  lemma LoopPlaysDetached(e: Env, o: Oracle)
    requires !Truthy(e.config.audioCommand) && e.config.audioLoop && Truthy(e.ffplay)
    ensures PlayAudioTest(e, o).trace[0] == Spawn(LoopCommand(e, e.ffplay.value), None)
    ensures PlayAudioTest(e, o).outcome == Returned(o.spawn(LoopCommand(e, e.ffplay.value)))
    ensures Attempts(PlayAudioTest(e, o).trace) == [LoopCommand(e, e.ffplay.value)]
  {
  }

  /** An existing sample (outside loop mode) means one aplay run whose result is final:
      a failed aplay is not retried and no tone is tried after it. */
  lemma SampleIsFinal(e: Env, o: Oracle)
    requires !Truthy(e.config.audioCommand) && !(e.config.audioLoop && Truthy(e.ffplay)) && e.sampleExists
    ensures Attempts(PlayAudioTest(e, o).trace) == [["aplay", e.config.audioSample]]
    ensures PlayAudioTest(e, o).outcome == Returned(true) <==> o.run(["aplay", e.config.audioSample]) == Exited(0)
  {
  }

  /** Nothing applies: the probe fails without starting anything. */
  lemma NoAudioPath(e: Env, o: Oracle)
    requires !Truthy(e.config.audioCommand) && !e.sampleExists && !Truthy(e.speakerTest) && !Truthy(e.ffplay)
    ensures PlayAudioTest(e, o) == Report([Say(NoAudioCommand)], Returned(false))
  {
  }
}
