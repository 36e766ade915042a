# raspi-ai peripheral self-test, modelled in Dafny

At start-up the raspi-ai bot checks that its display and its audio output work.
It then either exits with a status code or idles. Each check is a
fallback chain of external tools:

- The display probe first shows an advisory zenity dialog. It then writes
  the status text to the console device. Failing that, it plays an ffplay
  test pattern. With none of these, it fails.
- The audio probe first plays a custom command. It then tries an ffplay
  loop, then aplay of the sample file, then a speaker-test tone, then an
  ffplay sine tone. With none of these, it fails.
- The coordinator ANDs the two verdicts, and `main` turns the result into an
  exit status.

The model makes the host one immutable record, `Environment.Env`. It holds:

- the start-up settings (`Config`, read by `LoadConfig`);
- the environment variables the probes read later;
- which of zenity, ffplay and speaker-test are on the PATH;
- whether the console device and the sample file exist;
- what writing to the console does;
- the tokens of the custom audio command, or none when splitting it fails.

External processes are an oracle, `Runner.Oracle`. It says how a blocking run of
an argument list ends, assuming it does end: exit code, command not found, or
another exception. It
also says whether a detached launch starts. Each operation returns a `Report`:
the trace of what it did (blocking runs, detached launches, console writes and
the kind of each log line) and its outcome. The outcome is a boolean, or
`Raised` when an exception escapes. `Runner.Attempts` extracts the commands
started from a trace. The lemmas use it to state precedence and "nothing else
was tried".

Modules: `Environment` (configuration and host), `Runner` (`run_command`,
`play_audio`), `DisplayProbe` (`show_display_test`), `AudioProbe`
(`play_audio_test`), `SelfTest` (`run_media_test`, the exit decision of `main`).

Two things the code does not do:

- The display command override (RASPI_AI_DISPLAY_COMMAND) is read at
  app/main.py:16, but the display probe never uses it.
  `DisplayProbe.DisplayCommandUnused` proves the verdict does not depend on it.
- aplay runs once, against its default device. There is no retry on a
  second device. `AudioProbe.SampleIsFinal` proves a failed aplay ends the probe.

Exceptions can escape a probe, and the model keeps them as `Raised`;
`SelfTest.Start` turns them into `Crash`. They are:

- a failed zenity launch;
- an OSError other than PermissionError on the console;
- a custom audio command that `shlex.split` rejects (ValueError);
- an exception from `subprocess.run` other than the two `run_command` catches.

A custom audio command that splits into no tokens gives an empty argument
list. On POSIX, `subprocess.run([])` and `subprocess.Popen([])` raise while
starting. `Runner.EmptyCommandRaises` says an oracle answers that way, and
`Runner.EmptyCommand` proves the blocking run then raises and the looping
launch reports failure. For any other oracle, `Runner.RunCommand` still
follows line 28: a "not found" answer for an empty list raises, because the
log line reads `cmd[0]`.

## Model

| member | source | states |
|---|---|---|
| `Environment.LoadConfig` | app/main.py:9-19 | the self-test is on unless its variable is set to something other than "1"; exiting and looping are on only for exactly "1"; the console defaults to /dev/tty1, the sample to the ALSA Front_Center.wav, the message to the deploy banner with the current time; the two command overrides have no default and are exactly the variable's value when set; a set variable always wins |
| `Runner.RunCommand` | app/main.py:22-34 | true exactly when the command exits 0; false exactly for a non-zero exit or a missing executable, which are told apart only by the log line; exactly one blocking run of exactly that command |
| `Runner.PlayAudio` | app/main.py:82-92 | in loop mode one detached launch whose verdict is whether the launch succeeded; otherwise identical to `run_command` on the same command |
| `Runner.EmptyCommand` | app/main.py:22-34 | with an oracle that raises on an empty argument list, `run_command` of it raises and a looping `play_audio` of it returns false |
| `Runner.LoopIgnoresExitStatus` | app/main.py:83-91 | a looping launch's result does not depend on how the child would exit |
| `DisplayProbe.DialogCommand` | app/main.py:40-47 | the zenity dialog: `--info --text <message> --timeout <duration>`, the duration being RASPI_AI_DISPLAY_DURATION when set and 10 otherwise |
| `DisplayProbe.PatternCommand` | app/main.py:64-75 | the ffplay 640x480 test pattern with `-t <duration>`, the duration being RASPI_AI_DISPLAY_DURATION when set and 3 otherwise |
| `DisplayProbe.ShowDisplayTest` | app/main.py:37-79 | passes exactly when the console write succeeds, or the console is missing or refused and the test pattern exits 0; raises exactly when the dialog launch, a non-permission console error or the pattern run raises |
| `DisplayProbe.DialogIsAdvisory` | app/main.py:38-50 | the dialog branch never returns: it only puts one detached launch (with DISPLAY=:0) and its log line in front of what the probe does without zenity |
| `DisplayProbe.VerdictIgnoresDialog` | app/main.py:38-50 | two hosts that differ only in zenity and DISPLAY get the same verdict |
| `DisplayProbe.ConsoleWriteWins` | app/main.py:52-57 | a successful console write passes the probe, writes the message, and starts nothing but the dialog (ffplay is never run) |
| `DisplayProbe.ConsoleFallsThroughToPattern` | app/main.py:52-76 | with no console or a refused write and ffplay present, the verdict is `run_command` of the test pattern, the one command started after the dialog |
| `DisplayProbe.NoDisplayPath` | app/main.py:61-79 | no usable console and no ffplay: false, with "no display command available" logged last and nothing started but the dialog |
| `DisplayProbe.DisplayCommandUnused` | app/main.py:16 | changing the display command override leaves the probe's trace and verdict unchanged |
| `AudioProbe.Tone` | app/main.py:113 | the tone frequency is RASPI_AI_AUDIO_TONE when set and 880 otherwise |
| `AudioProbe.LoopCommand` | app/main.py:104-113 | `ffplay -loop 0 -nodisp -loglevel error` followed by the sample path if it exists, else `-f lavfi -i sine=frequency=<tone>` |
| `AudioProbe.BuildLoopCommand` | app/main.py:104-113 | the list built by append/extend is exactly `LoopCommand` |
| `AudioProbe.SpeakerTestCommand` | app/main.py:125 | `speaker-test -t sine -f <tone> -l 1` on the resolved path |
| `AudioProbe.SineCommand` | app/main.py:129-139 | `ffplay -autoexit -nodisp -loglevel error -f lavfi -i sine=frequency=<tone>:duration=2` on the resolved path |
| `AudioProbe.PlayAudioTest` | app/main.py:95-143 | a set custom command is played (blocking or detached by the loop flag) and decides alone; one that `shlex.split` rejects raises before anything starts; at most one command is ever started |
| `AudioProbe.FollowsPriority` | app/main.py:95-143 | the commands started are exactly those of the first applicable strategy in the order custom, ffplay loop, aplay, speaker-test, ffplay sine; the first event is a detached launch exactly when that strategy is a loop |
| `AudioProbe.VerdictOfChosen` | app/main.py:95-143 | the verdict is the chosen strategy's: launch success when detached, exit 0 when blocking, false when none applies; it raises exactly when the custom command cannot be split or the chosen blocking run raises |
| `AudioProbe.LoopWithoutFfplayBlocks` | app/main.py:102-143 | loop mode without ffplay behaves exactly as with loop mode off: the blocking chain |
| `AudioProbe.LoopPlaysDetached` | app/main.py:102-115 | loop mode with ffplay launches the loop command detached, and nothing else; the verdict is the launch |
| `AudioProbe.SampleIsFinal` | app/main.py:117-121 | an existing sample outside loop mode means exactly one aplay run, whose exit status is the verdict; nothing is retried or tried after it |
| `AudioProbe.NoAudioPath` | app/main.py:123-143 | no sample, no speaker-test and no ffplay: false with only the "no audio playback command" log line |
| `SelfTest.RunMediaTest` | app/main.py:146-154 | passes exactly when both probes pass; raises exactly when either probe raises |
| `SelfTest.AggregateIsConjunction` | app/main.py:150-154 | for every pair of probe verdicts, the aggregate is their AND |
| `SelfTest.DisplayBeforeAudio` | app/main.py:146-149 | when the display probe returns, the commands started are the display probe's followed by the audio probe's: audio runs after display, even when display failed |
| `SelfTest.ConcludeAttempts` | app/main.py:149-154 | once the display probe has returned, the self-test starts exactly the display probe's commands followed by the audio probe's; the start and summary log lines start nothing |
| `SelfTest.DisplayRaisesFirst` | app/main.py:146-149 | when the display probe raises, the self-test raises and the audio probe is never called: only the display probe's commands are started |
| `SelfTest.Start` | app/main.py:157-161 | with exiting enabled the status is 0 exactly when both probes pass, else 1; the process only exits when self-test and exit are both enabled; it crashes exactly when the self-test raises; a self-test that returns with exiting off is followed by idling; with the self-test disabled nothing is run |
| `SelfTest.DisabledByVariable` | app/main.py:157-163 | with the settings read from the environment, RASPI_AI_MEDIA_TEST set to anything but "1" skips the self-test and the bot idles |
| `SelfTest.ExitStatusFromVariables` | app/main.py:157-161 | with the settings read from the environment, the self-test unset and RASPI_AI_MEDIA_TEST_EXIT=1, when no exception escapes the self-test, the process exits with 0 or 1, and 0 exactly when both probes pass |

## Left out

- Process execution, output capture and stderr decoding are the oracle. Decoding
  stderr can itself raise, and that is not modelled.
- The text of the log lines. The model records each line's kind and its
  arguments; the captured stderr is not recorded.
- `shlex.split` is the `audioTokens` field of the host record: its tokens, or
  none when it raises. How it tokenises is not modelled. `shutil.which` and
  the existence checks are fields too.
- `Path` normalisation of the console and sample paths (str(Path(s))) is taken
  as the identity.
- Reading the environment and `time.ctime()`: `LoadConfig` takes the variables
  and the time as inputs.
- Runner.Oracle: blocking runs that never end are not modelled. `subprocess.run` is called without a timeout,
  so a custom audio command that never exits (loop flag off) or an aplay stuck
  on a busy device hangs the self-test forever: the process then neither exits
  nor idles. The oracle gives every blocking run an ending, so `SelfTest.Start`
  always reaches `ExitStatus`, `Idle` or `Crash`; the model assumes every
  blocking run terminates.
- The endless liveness loop at the end of `main` is the `Idle` ending. Its
  periodic log line is not modelled.
- The environment passed to the zenity launch is recorded only as its DISPLAY
  override. The rest of it is the process environment.
