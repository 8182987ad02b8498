/** The whole program: load the configuration once, then run the session loop with it. */
module Pomodoro {
  import opened Wrappers
  import opened Config
  import opened Session

  const Millisecond: Duration := 1_000_000

  /** `main` after the environment file is loaded: the warnings printed while configuring, then the events of the run. */
  method Run(env: Env, parseDuration: Parser, atoi: Parser) returns (warnings: seq<Warning>, trace: seq<Event>)
    ensures warnings == Load(env, parseDuration, atoi).warnings
    ensures trace == Trace(Load(env, parseDuration, atoi).config)
    ensures |warnings| <= 4
    ensures |trace| == 5 * Iterations(Load(env, parseDuration, atoi).config.count)
  {
    var loaded := Load(env, parseDuration, atoi);
    warnings := loaded.warnings;
    trace := RunSession(loaded.config);
  }

  /**
   * With nothing set, a run is four cycles: twenty events, three short breaks
   * of five minutes, then one long break of thirty minutes as the last timer.
   */
  lemma DefaultRun(parseDuration: Parser, atoi: Parser)
    ensures Trace(Load(map[], parseDuration, atoi).config) == Trace(Defaults())
    ensures |Trace(Defaults())| == 20
    ensures forall i :: 0 <= i < 4 ==> Trace(Defaults())[5 * i + 1] == Timer(Work, 25 * Minute)
    ensures forall i :: 0 <= i < 3 ==> Trace(Defaults())[5 * i + 3] == Timer(ShortBreak, 5 * Minute)
    ensures TimerCount(Trace(Defaults()), Work) == 4
    ensures TimerCount(Trace(Defaults()), ShortBreak) == 3
    ensures TimerCount(Trace(Defaults()), LongBreak) == 1
    ensures Trace(Defaults())[18] == Timer(LongBreak, 30 * Minute)
    ensures Trace(Defaults())[19] == Sound("longbreak.mp3")
  {
    EmptyEnvGivesDefaults(map[], parseDuration, atoi);
    TraceLength(Defaults());
    forall i | 0 <= i < 4
      ensures Trace(Defaults())[5 * i + 1] == Timer(Work, 25 * Minute)
      ensures i < 3 ==> Trace(Defaults())[5 * i + 3] == Timer(ShortBreak, 5 * Minute)
    {
      CycleShape(Defaults(), i);
    }
    BreakCounts(Defaults());
    LastEventIsLongBreakSound(Defaults());
  }

  /**
   * POMODORO_COUNT=1, WORK_DURATION=1ms, LONG_BREAK_DURATION=1ms: one work
   * interval followed by one long break; two sounds, work then long break,
   * and no short break.
   */
  lemma SingleCycleRun(env: Env, parseDuration: Parser, atoi: Parser)
    requires Getenv(env, CountKey) != "" && atoi(Getenv(env, CountKey)) == Some(1)
    requires Getenv(env, WorkKey) != "" && parseDuration(Getenv(env, WorkKey)) == Some(Millisecond)
    requires Getenv(env, LongBreakKey) != "" && parseDuration(Getenv(env, LongBreakKey)) == Some(Millisecond)
    ensures var c := Load(env, parseDuration, atoi).config;
      Trace(c) == [CountIn(3 * Second), Timer(Work, Millisecond), Sound(c.workSound),
                   Timer(LongBreak, Millisecond), Sound(c.longBreakSound)]
    ensures var c := Load(env, parseDuration, atoi).config;
      TimerCount(Trace(c), ShortBreak) == 0 && SoundCount(Trace(c)) == 2
  {
    var c := Load(env, parseDuration, atoi).config;
    assert c.count == 1 && c.work == Millisecond && c.longBreak == Millisecond;
    TraceLength(c);
    CycleShape(c, 0);
    BreakCounts(c);
  }
}
