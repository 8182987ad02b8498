# gomodo — a Dafny model of the pomodoro timer's decision logic

gomodo is a command-line pomodoro timer written in Go (`main.go`). At start-up it
reads its settings from environment variables, falling back to built-in defaults,
and then runs a fixed number of work/break cycles: each cycle counts in for three
seconds, runs the work timer, plays the work sound, and then runs a break timer
and plays the break sound. Every break is short except the one after the last
cycle, which is the long break.

This project models the two pieces of that program that make decisions:

- **Configuration defaulting** (`config.dfy`, module `Config`): `getEnvDuration`,
  `getEnvInt` and the three sound-path defaults of `main`. The environment is a
  `map<string, string>` in which a missing key reads as `""`, as `os.Getenv`
  does. `time.ParseDuration` and `strconv.Atoi` are parameters of type
  `string -> Option<int>`: any parser may be plugged in, and every property
  holds for all of them. Durations are integers counting nanoseconds, like
  `time.Duration`. The warning printed for an unparsable value is a `Warning`
  record holding the key and the default used instead. Loading returns those
  warnings, in order, beside the `Config` value.
- **The session loop** (`session.dfy`, module `Session`): the `for` loop of
  `main` is the method `RunSession`. Its `while` loop appends `Event` values
  (`CountIn(delay)`, `Timer(phase, length)`, `Sound(path)`) to a trace. The loop
  invariant ties the trace to the recursive function `Schedule(c, k)`, the
  events of the first `k` cycles. `EventAt` is an independent definition of the
  `j`-th event from its position alone, and `ScheduleAt` proves the two agree.
  `Iterations` (the number of loop iterations, `max(count, 0)`, from the guard
  at main.go:41), `BreakAfter` (the choice at main.go:49), `PhaseLength` and
  `PhaseSound` are specification helpers used by these definitions.
  The properties of the trace are proved about `Trace`: its length, the shape
  of each cycle, where the long break falls, the number of breaks of each kind,
  and what every work timer is followed by.
  Counts are unbounded integers. This is exact for every Go `int` count:
  `pomodoroCount-1` is only evaluated inside the loop, where the count is at
  least 1, so it cannot overflow.
- **The program** (`pomodoro.dfy`, module `Pomodoro`): `Run` is `main` after
  the environment file has been read. It loads the configuration once and
  passes it to the loop. Two lemmas give whole runs: one with an empty
  environment, one with a single cycle of one-millisecond intervals.

## Model

| member | source | states |
|---|---|---|
| Config.GetEnvDuration | main.go:59-70 | the value is the parsed duration when the variable is non-empty and `time.ParseDuration` accepts it, and the default otherwise; a warning naming the key and the default is produced exactly when the value is non-empty and rejected; it is total, so reading never aborts |
| Config.GetEnvInt | main.go:72-83 | the same three cases for an integer setting read with `strconv.Atoi`: unset or empty gives the default, rejected gives the default plus a warning, accepted gives the parsed integer |
| Config.ReadSetting | main.go:60-69 | the shared reading step: unset or empty gives `Setting(default, None)`; non-empty and rejected gives `Setting(default, Some(Warning(key, default)))`; non-empty and accepted gives no warning and the parsed value |
| Config.ResolvesIsFunctional | main.go:59-83 | the reference meaning `Resolves` of a numeric setting determines one value, so the contracts above fix the setting completely |
| Config.EmptyGivesDefault | main.go:60-63 | an unset or empty variable yields the supplied default, with no warning, for duration and integer settings alike |
| Config.RejectedGivesDefault | main.go:64-68 | a value the parser rejects yields the supplied default and exactly the warning for that key and default |
| Config.AcceptedGivesParsed | main.go:69 | a value the parser accepts is the setting unchanged, with no warning |
| Config.SoundPath | main.go:26-39 | a sound path is the variable verbatim when it is non-empty and the fixed default file name otherwise; so it is never empty |
| Config.Printed | main.go:64-81 | a reading prints at most one warning: exactly the one its setting carries, once, and none when it carries none (the prints of `getEnvDuration` and `getEnvInt`) |
| Config.PrintedFor | main.go:21-24 | among the warnings of the four numeric readings, a warning whose key has rank `k` in reading order is present exactly when the `k`-th reading produced it |
| Config.PrintedInOrder | main.go:21-24 | appending the warning of a later reading keeps the warning list in strictly increasing key order |
| Config.LoadWarnings | main.go:21-24 | the warnings printed while reading the numeric settings: the warning for a key, carrying that key's default, is present exactly when that key's value is malformed; no other warning appears; the list is in reading order (work, short break, long break, count) with each key at most once, so it is fully determined |
| Config.Load | main.go:21-39 | each of the four numeric settings resolves against its own key, parser and default (25m, 5m, 30m, 4); each sound path resolves against its own key and default ("work.mp3", "shortbreak.mp3", "longbreak.mp3"); the warnings are exactly those of the malformed numeric keys, each with its own default, once each and in reading order |
| Config.EmptyEnvGivesDefaults | main.go:21-39 | with no environment values (no keys, or every key set to "") the configuration equals the defaults 25 minutes, 5 minutes, 30 minutes, 4 cycles and the three default file names, and no warning is printed |
| Session.RunSession | main.go:41-56 | the loop's trace is exactly `Trace(c)`, the recursive schedule of `max(count, 0)` cycles, and has five events per cycle |
| Session.ScheduleLength | main.go:41-56 | the first `k` cycles give exactly `5 * k` events |
| Session.ScheduleAt | main.go:41-56 | every event of the schedule is the one `EventAt` names from its position: cycle `j / 5`, step `j % 5` |
| Session.TraceLength | main.go:41 | a run has `5 * max(count, 0)` events; a count of zero or less gives an empty trace |
| Session.CycleShape | main.go:42-55 | cycle `i` is a 3-second count-in, the work timer and the work sound, in that order, then one break timer and that break's sound; its break is short if and only if `i < count - 1` and long if and only if `i` is the last cycle |
| Session.LastEventIsLongBreakSound | main.go:52-55 | when the count is at least 1, the trace ends with the long-break timer followed by the long-break sound |
| Session.WorkIsFollowedByOneBreak | main.go:46-56 | every work timer is at once followed by the work sound, one break timer and that break's sound, and then either the next count-in or the end of the run |
| Session.CountsAppend | main.go:41-56 | timer and sound counts add up over concatenated traces |
| Session.CycleCounts | main.go:46-55 | one cycle holds one work timer, one short-break timer exactly when `i < count - 1`, one long-break timer otherwise, and two sounds |
| Session.ScheduleCounts | main.go:41-56 | the first `k` cycles of `n` hold `k` work timers, `k` short breaks while `k < n` and `n - 1` once all are done, one long break only once all `n >= 1` are done, and `2k` sounds |
| Session.BreakCounts | main.go:41-56 | a run with count `n >= 1` has `n` work timers, `n - 1` short breaks, exactly one long break and `2n` sounds; a count of zero or less has none |
| Pomodoro.Run | main.go:15-57 | `main` loads the configuration once and runs the loop with it: its warnings are those of `Load` (at most four) and its trace is `Trace` of the loaded configuration |
| Pomodoro.DefaultRun | main.go:21-56 | with nothing set, a run is 20 events: four 25-minute work timers, three 5-minute short breaks, one 30-minute long break, and the long-break sound "longbreak.mp3" last |
| Pomodoro.SingleCycleRun | main.go:21-56 | with POMODORO_COUNT parsed as 1 and 1 ms work and long-break durations, the trace is count-in, work timer, work sound, long-break timer, long-break sound: two sounds and no short break |

## Left out

- Loading the `.env` file (`godotenv.Load`) and its notice when the file is missing: file I/O; the model starts from the environment it would produce.
- `os.Getenv` itself: the environment is an input map, and an absent key reads as the empty string.
- The parsing rules of `time.ParseDuration` and `strconv.Atoi`: library code; they are arbitrary parameters, so every property holds for any parser.
- The text of every message (`fmt.Println`, `fmt.Printf`): only the key and the default of each parse warning are recorded.
- `time.Sleep` in the count-in and in `runTimer`: the event records the requested duration, not elapsed wall-clock time.
- `playSound` (main.go:91-117): opening the file, mp3 decoding, speaker initialisation and the wait on the completion channel. These are audio-library calls and concurrency. The model records a `Sound(path)` event. Every failure path of that function prints and returns, so the loop always goes on; this is what the trace assumes.
