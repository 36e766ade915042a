/** The host as the self-test sees it: the configuration read once at start-up
    (app/main.py lines 9-19) and everything the probes look up later (environment
    variables, tools found on the PATH, the console device, the sample file).
    It is one immutable value; nothing in the model changes it. */
module Environment {

  datatype Option<+T> = None | Some(value: T)

  /** Python's truth value of an optional string: None and "" are false. */
  predicate Truthy(s: Option<string>) {
    s.Some? && s.value != ""
  }

  /** `os.getenv(name)`: the variable's value, or None when it is unset. */
  function Lookup(vars: map<string, string>, name: string): Option<string> {
    if name in vars then Some(vars[name]) else None
  }

  /** `os.getenv(name, default)`. */
  function Getenv(vars: map<string, string>, name: string, default: string): string {
    match Lookup(vars, name)
    case Some(v) => v
    case None => default
  }

  /** A flag that is on exactly when its variable (or, when unset, its default) is "1". */
  predicate Flag(vars: map<string, string>, name: string, default: string) {
    Getenv(vars, name, default) == "1"
  }

  const DefaultTty: string := "/dev/tty1"
  const DefaultSample: string := "/usr/share/sounds/alsa/Front_Center.wav"

  /** The status text shown when RASPI_AI_DISPLAY_MESSAGE is unset; `now` is `time.ctime()`. */
  function DefaultMessage(now: string): string {
    "=== AUTO DEPLOY SUCCESS ===\nNow showing on your desktop!\nUpdate time: " + now
      + "\n=========================="
  }

  /** The module-level settings of the program, fixed for its whole lifetime. */
  datatype Config = Config(
    mediaTestEnabled: bool,
    mediaTestExit: bool,
    displayTty: string,
    displayMessage: string,
    displayCommand: Option<string>,
    audioCommand: Option<string>,
    audioSample: string,
    audioLoop: bool)

  /** Reads the settings from the process environment at start-up. */
  function LoadConfig(vars: map<string, string>, now: string): (c: Config)
    // the self-test is on unless the variable is set to something other than "1"
    ensures c.mediaTestEnabled <==> ("RASPI_AI_MEDIA_TEST" !in vars || vars["RASPI_AI_MEDIA_TEST"] == "1")
    // exiting after the test and looping audio are off unless the variable is exactly "1"
    ensures c.mediaTestExit <==> ("RASPI_AI_MEDIA_TEST_EXIT" in vars && vars["RASPI_AI_MEDIA_TEST_EXIT"] == "1")
    ensures c.audioLoop <==> ("RASPI_AI_AUDIO_LOOP" in vars && vars["RASPI_AI_AUDIO_LOOP"] == "1")
    ensures "RASPI_AI_DISPLAY_TTY" !in vars ==> c.displayTty == DefaultTty
    ensures "RASPI_AI_DISPLAY_MESSAGE" !in vars ==> c.displayMessage == DefaultMessage(now)
    ensures "RASPI_AI_AUDIO_SAMPLE" !in vars ==> c.audioSample == DefaultSample
    // the two command overrides have no default
    ensures c.displayCommand.Some? <==> "RASPI_AI_DISPLAY_COMMAND" in vars
    ensures c.audioCommand.Some? <==> "RASPI_AI_AUDIO_COMMAND" in vars
    ensures "RASPI_AI_DISPLAY_COMMAND" in vars ==> c.displayCommand == Some(vars["RASPI_AI_DISPLAY_COMMAND"])
    ensures "RASPI_AI_AUDIO_COMMAND" in vars ==> c.audioCommand == Some(vars["RASPI_AI_AUDIO_COMMAND"])
    // a variable that is set always wins over the default
    ensures "RASPI_AI_DISPLAY_TTY" in vars ==> c.displayTty == vars["RASPI_AI_DISPLAY_TTY"]
    ensures "RASPI_AI_DISPLAY_MESSAGE" in vars ==> c.displayMessage == vars["RASPI_AI_DISPLAY_MESSAGE"]
    ensures "RASPI_AI_AUDIO_SAMPLE" in vars ==> c.audioSample == vars["RASPI_AI_AUDIO_SAMPLE"]
  {
    Config(
      mediaTestEnabled := Flag(vars, "RASPI_AI_MEDIA_TEST", "1"),
      mediaTestExit := Flag(vars, "RASPI_AI_MEDIA_TEST_EXIT", "0"),
      displayTty := Getenv(vars, "RASPI_AI_DISPLAY_TTY", DefaultTty),
      displayMessage := Getenv(vars, "RASPI_AI_DISPLAY_MESSAGE", DefaultMessage(now)),
      displayCommand := Lookup(vars, "RASPI_AI_DISPLAY_COMMAND"),
      audioCommand := Lookup(vars, "RASPI_AI_AUDIO_COMMAND"),
      audioSample := Getenv(vars, "RASPI_AI_AUDIO_SAMPLE", DefaultSample),
      audioLoop := Flag(vars, "RASPI_AI_AUDIO_LOOP", "0"))
  }

  /** What writing the status text to the console device does. */
  datatype TtyWrite =
    | Written           // open and write succeed
    | PermissionDenied  // PermissionError, which the display probe catches
    | WriteRaised       // any other OSError, which nothing catches

  /** Everything the probes consult, as one immutable record. */
  datatype Env = Env(
    config: Config,
    vars: map<string, string>,    // os.environ when the probes run (DISPLAY, durations, tone)
    zenity: Option<string>,       // shutil.which("zenity")
    ffplay: Option<string>,       // shutil.which("ffplay")
    speakerTest: Option<string>,  // shutil.which("speaker-test")
    ttyExists: bool,              // Path(DISPLAY_TTY).exists()
    ttyWrite: TtyWrite,           // what opening and writing DISPLAY_TTY does
    sampleExists: bool,           // Path(AUDIO_SAMPLE).exists()
    audioTokens: Option<seq<string>>) // shlex.split(AUDIO_COMMAND); None when it raises ValueError

  /** The settings the probes see are the ones read from the same environment at start-up. */
  predicate LoadedFrom(e: Env, now: string) {
    e.config == LoadConfig(e.vars, now)
  }
}
