/**
 * Configuration loading of the pomodoro timer: every setting is read from an
 * optional environment variable and falls back to a built-in default when the
 * variable is unset, empty or unparsable. Loading never fails; an unparsable
 * value only produces a warning.
 */
module Config {
  import opened Wrappers

  /** A `time.Duration`: a count of nanoseconds. */
  type Duration = int

  const Second: Duration := 1_000_000_000
  const Minute: Duration := 60 * Second

  /** The process environment. A key that is not present reads as "". */
  type Env = map<string, string>

  /** A string parser that may reject its input (`time.ParseDuration`, `strconv.Atoi`). */
  type Parser = string -> Option<int>

  const WorkKey := "WORK_DURATION"
  const ShortBreakKey := "SHORT_BREAK_DURATION"
  const LongBreakKey := "LONG_BREAK_DURATION"
  const CountKey := "POMODORO_COUNT"
  const WorkSoundKey := "WORK_SOUND_FILE"
  const ShortBreakSoundKey := "SHORT_BREAK_SOUND_FILE"
  const LongBreakSoundKey := "LONG_BREAK_SOUND_FILE"

  const DefaultWork: Duration := 25 * Minute
  const DefaultShortBreak: Duration := 5 * Minute
  const DefaultLongBreak: Duration := 30 * Minute
  const DefaultCount := 4
  const DefaultWorkSound := "work.mp3"
  const DefaultShortBreakSound := "shortbreak.mp3"
  const DefaultLongBreakSound := "longbreak.mp3"

  /** The settings the session loop runs with. */
  datatype Config = Config(
    work: Duration,
    shortBreak: Duration,
    longBreak: Duration,
    count: int,
    workSound: string,
    shortBreakSound: string,
    longBreakSound: string)

  /** The warning printed when a variable is set but cannot be parsed: the key and the default used instead. */
  datatype Warning = Warning(key: string, fallback: int)

  /** A numeric setting as read, and the warning its reading printed, if any. */
  datatype Setting = Setting(value: int, warning: Option<Warning>)

  /** The configuration together with the warnings printed while loading it, in order. */
  datatype Loaded = Loaded(config: Config, warnings: seq<Warning>)

  /** `os.Getenv`: the value of `key`, or "" when it is not set. */
  function Getenv(env: Env, key: string): string
  {
    if key in env then env[key] else ""
  }

  function Defaults(): Config
  {
    Config(DefaultWork, DefaultShortBreak, DefaultLongBreak, DefaultCount,
           DefaultWorkSound, DefaultShortBreakSound, DefaultLongBreakSound)
  }

  /** A raw value that is set but rejected by the parser. */
  predicate Malformed(raw: string, parse: Parser)
  {
    raw != "" && parse(raw).None?
  }

  /**
   * Reference meaning of a numeric setting: `v` is the parsed value when the raw
   * string is set and accepted, and the default in every other case.
   */
  predicate Resolves(raw: string, default: int, parse: Parser, v: int)
  {
    if raw != "" && parse(raw).Some? then v == parse(raw).value else v == default
  }

  /** Reading a numeric variable through `parse`, falling back to `default`. */
  function ReadSetting(env: Env, key: string, default: int, parse: Parser): (s: Setting)
    ensures Getenv(env, key) == "" ==> s == Setting(default, None)
    ensures Malformed(Getenv(env, key), parse) ==> s == Setting(default, Some(Warning(key, default)))
    ensures Getenv(env, key) != "" && parse(Getenv(env, key)) == Some(s.value) ==> s.warning == None
    ensures Resolves(Getenv(env, key), default, parse, s.value)
    ensures s.warning.Some? <==> Malformed(Getenv(env, key), parse)
    ensures s.warning.Some? ==> s.warning.value == Warning(key, default)
  {
    var raw := Getenv(env, key);
    if raw == "" then
      Setting(default, None)
    else
      match parse(raw)
      case None => Setting(default, Some(Warning(key, default)))
      case Some(v) => Setting(v, None)
  }

  /** `getEnvDuration`: a duration variable read with `time.ParseDuration`. */
  function GetEnvDuration(env: Env, key: string, default: Duration, parseDuration: Parser): (s: Setting)
    ensures Resolves(Getenv(env, key), default, parseDuration, s.value)
    ensures s.warning.Some? <==> Malformed(Getenv(env, key), parseDuration)
    ensures s.warning.Some? ==> s.warning.value == Warning(key, default)
  {
    ReadSetting(env, key, default, parseDuration)
  }

  /** `getEnvInt`: an integer variable read with `strconv.Atoi`. */
  function GetEnvInt(env: Env, key: string, default: int, atoi: Parser): (s: Setting)
    ensures Resolves(Getenv(env, key), default, atoi, s.value)
    ensures s.warning.Some? <==> Malformed(Getenv(env, key), atoi)
    ensures s.warning.Some? ==> s.warning.value == Warning(key, default)
  {
    ReadSetting(env, key, default, atoi)
  }

  /** A sound file path: the variable verbatim when it is non-empty, the default file name otherwise. */
  function SoundPath(env: Env, key: string, default: string): (p: string)
    requires default != ""
    ensures p != ""
    ensures Getenv(env, key) != "" ==> p == Getenv(env, key)
    ensures Getenv(env, key) == "" ==> p == default
  {
    var raw := Getenv(env, key);
    if raw == "" then default else raw
  }

  /** The warnings a reading printed: none, or the one it carries. */
  function Printed(s: Setting): (ws: seq<Warning>)
    ensures |ws| <= 1
    ensures forall w :: w in ws <==> s.warning == Some(w)
  {
    if s.warning.Some? then [s.warning.value] else []
  }

  /**
   * The warnings `main` prints while reading the four numeric settings: one for
   * each malformed value, carrying that key's default, in reading order.
   */
  function LoadWarnings(env: Env, parseDuration: Parser, atoi: Parser): (ws: seq<Warning>)
    ensures |ws| <= 4
    ensures Warning(WorkKey, DefaultWork) in ws <==> Malformed(Getenv(env, WorkKey), parseDuration)
    ensures Warning(ShortBreakKey, DefaultShortBreak) in ws <==> Malformed(Getenv(env, ShortBreakKey), parseDuration)
    ensures Warning(LongBreakKey, DefaultLongBreak) in ws <==> Malformed(Getenv(env, LongBreakKey), parseDuration)
    ensures Warning(CountKey, DefaultCount) in ws <==> Malformed(Getenv(env, CountKey), atoi)
    ensures forall w :: w in ws ==> w in NumericWarnings()
    ensures InKeyOrder(ws)
  {
    var work := GetEnvDuration(env, WorkKey, DefaultWork, parseDuration);
    var shortBreak := GetEnvDuration(env, ShortBreakKey, DefaultShortBreak, parseDuration);
    var longBreak := GetEnvDuration(env, LongBreakKey, DefaultLongBreak, parseDuration);
    var count := GetEnvInt(env, CountKey, DefaultCount, atoi);
    KeyRanks();
    PrintedInOrder([], work, 0);
    PrintedInOrder(Printed(work), shortBreak, 1);
    PrintedInOrder(Printed(work) + Printed(shortBreak), longBreak, 2);
    PrintedInOrder(Printed(work) + Printed(shortBreak) + Printed(longBreak), count, 3);
    PrintedFor(work, shortBreak, longBreak, count, Warning(WorkKey, DefaultWork));
    PrintedFor(work, shortBreak, longBreak, count, Warning(ShortBreakKey, DefaultShortBreak));
    PrintedFor(work, shortBreak, longBreak, count, Warning(LongBreakKey, DefaultLongBreak));
    PrintedFor(work, shortBreak, longBreak, count, Warning(CountKey, DefaultCount));
    var ws := Printed(work) + Printed(shortBreak) + Printed(longBreak) + Printed(count);
    ws
  }

  /** The configuration step at the start of `main`: four numeric settings then three sound paths. */
  function Load(env: Env, parseDuration: Parser, atoi: Parser): (l: Loaded)
    ensures Resolves(Getenv(env, WorkKey), DefaultWork, parseDuration, l.config.work)
    ensures Resolves(Getenv(env, ShortBreakKey), DefaultShortBreak, parseDuration, l.config.shortBreak)
    ensures Resolves(Getenv(env, LongBreakKey), DefaultLongBreak, parseDuration, l.config.longBreak)
    ensures Resolves(Getenv(env, CountKey), DefaultCount, atoi, l.config.count)
    ensures SoundResolves(Getenv(env, WorkSoundKey), DefaultWorkSound, l.config.workSound)
    ensures SoundResolves(Getenv(env, ShortBreakSoundKey), DefaultShortBreakSound, l.config.shortBreakSound)
    ensures SoundResolves(Getenv(env, LongBreakSoundKey), DefaultLongBreakSound, l.config.longBreakSound)
    ensures |l.warnings| <= 4
    ensures Warning(WorkKey, DefaultWork) in l.warnings <==> Malformed(Getenv(env, WorkKey), parseDuration)
    ensures Warning(ShortBreakKey, DefaultShortBreak) in l.warnings <==> Malformed(Getenv(env, ShortBreakKey), parseDuration)
    ensures Warning(LongBreakKey, DefaultLongBreak) in l.warnings <==> Malformed(Getenv(env, LongBreakKey), parseDuration)
    ensures Warning(CountKey, DefaultCount) in l.warnings <==> Malformed(Getenv(env, CountKey), atoi)
    ensures forall w :: w in l.warnings ==> w in NumericWarnings()
    ensures InKeyOrder(l.warnings)
  {
    Loaded(
      Config(GetEnvDuration(env, WorkKey, DefaultWork, parseDuration).value,
             GetEnvDuration(env, ShortBreakKey, DefaultShortBreak, parseDuration).value,
             GetEnvDuration(env, LongBreakKey, DefaultLongBreak, parseDuration).value,
             GetEnvInt(env, CountKey, DefaultCount, atoi).value,
             SoundPath(env, WorkSoundKey, DefaultWorkSound),
             SoundPath(env, ShortBreakSoundKey, DefaultShortBreakSound),
             SoundPath(env, LongBreakSoundKey, DefaultLongBreakSound)),
      LoadWarnings(env, parseDuration, atoi))
  }

  /** The only warnings loading can print: one per numeric key, carrying that key's default. */
  function NumericWarnings(): set<Warning>
  {
    {Warning(WorkKey, DefaultWork), Warning(ShortBreakKey, DefaultShortBreak),
     Warning(LongBreakKey, DefaultLongBreak), Warning(CountKey, DefaultCount)}
  }

  /** The order in which `main` reads the numeric keys, and so prints their warnings. */
  function KeyRank(key: string): int
  {
    if key == WorkKey then 0
    else if key == ShortBreakKey then 1
    else if key == LongBreakKey then 2
    else if key == CountKey then 3
    else 4
  }

  /** Warnings listed with strictly increasing key rank: each key at most once, in reading order. */
  predicate InKeyOrder(ws: seq<Warning>)
  {
    forall i, j :: 0 <= i < j < |ws| ==> KeyRank(ws[i].key) < KeyRank(ws[j].key)
  }

  lemma KeyRanks()
    ensures KeyRank(WorkKey) == 0 && KeyRank(ShortBreakKey) == 1
    ensures KeyRank(LongBreakKey) == 2 && KeyRank(CountKey) == 3
  {
  }

  /** Appending the warning of a setting read after every warning in `ws` keeps the list in key order. */
  lemma PrintedInOrder(ws: seq<Warning>, s: Setting, r: int)
    requires InKeyOrder(ws) && forall w :: w in ws ==> KeyRank(w.key) < r
    requires s.warning.Some? ==> KeyRank(s.warning.value.key) == r
    ensures InKeyOrder(ws + Printed(s))
    ensures forall w :: w in ws + Printed(s) ==> KeyRank(w.key) <= r
  {
  }

  /**
   * A warning for the key of rank `k` is among the printed warnings of the four
   * readings exactly when the `k`-th reading produced it.
   */
  lemma PrintedFor(a: Setting, b: Setting, c: Setting, d: Setting, w: Warning)
    requires a.warning.Some? ==> KeyRank(a.warning.value.key) == 0
    requires b.warning.Some? ==> KeyRank(b.warning.value.key) == 1
    requires c.warning.Some? ==> KeyRank(c.warning.value.key) == 2
    requires d.warning.Some? ==> KeyRank(d.warning.value.key) == 3
    ensures w in Printed(a) + Printed(b) + Printed(c) + Printed(d) <==>
      match KeyRank(w.key)
      case 0 => a.warning == Some(w)
      case 1 => b.warning == Some(w)
      case 2 => c.warning == Some(w)
      case 3 => d.warning == Some(w)
      case _ => false
  {
  }

  /** Reference meaning of a sound path setting. */
  predicate SoundResolves(raw: string, default: string, p: string)
  {
    p == if raw != "" then raw else default
  }

  /** A setting of a numeric variable has exactly one value: `Resolves` is functional. */
  lemma ResolvesIsFunctional(raw: string, default: int, parse: Parser, v1: int, v2: int)
    requires Resolves(raw, default, parse, v1) && Resolves(raw, default, parse, v2)
    ensures v1 == v2
  {
  }

  /** Unset or empty variables give the default, with no warning. */
  lemma EmptyGivesDefault(env: Env, key: string, default: int, parse: Parser)
    requires Getenv(env, key) == ""
    ensures GetEnvDuration(env, key, default, parse) == Setting(default, None)
    ensures GetEnvInt(env, key, default, parse) == Setting(default, None)
  {
  }

  /** A value the parser rejects gives the default and a warning naming the key and the default. */
  lemma RejectedGivesDefault(env: Env, key: string, default: int, parse: Parser)
    requires Getenv(env, key) != "" && parse(Getenv(env, key)) == None
    ensures GetEnvDuration(env, key, default, parse) == Setting(default, Some(Warning(key, default)))
    ensures GetEnvInt(env, key, default, parse) == Setting(default, Some(Warning(key, default)))
  {
  }

  /** A value the parser accepts is the setting, unchanged, with no warning. */
  lemma AcceptedGivesParsed(env: Env, key: string, default: int, parse: Parser, v: int)
    requires Getenv(env, key) != "" && parse(Getenv(env, key)) == Some(v)
    ensures GetEnvDuration(env, key, default, parse) == Setting(v, None)
    ensures GetEnvInt(env, key, default, parse) == Setting(v, None)
  {
  }

  /**
   * With no environment values (no keys, or every key set to "") the
   * configuration is the documented defaults and nothing is printed.
   */
  lemma EmptyEnvGivesDefaults(env: Env, parseDuration: Parser, atoi: Parser)
    requires forall k :: k in env ==> env[k] == ""
    ensures Load(env, parseDuration, atoi) == Loaded(Defaults(), [])
    ensures Defaults().work == 25 * 60 * 1_000_000_000
    ensures Defaults().shortBreak == 5 * 60 * 1_000_000_000
    ensures Defaults().longBreak == 30 * 60 * 1_000_000_000
    ensures Defaults().count == 4
  {
  }
}
