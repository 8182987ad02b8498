/**
 * The work/break loop of the pomodoro timer, as the trace of events it
 * performs: each of the configured number of cycles counts in for three
 * seconds, runs the work timer, plays the work sound, then runs a break timer
 * and plays its sound. The break is short on every cycle but the last, which
 * ends with the long break.
 */
module Session {
  import opened Config

  /** Which timer runs: the label `runTimer` is called with. */
  datatype Phase = Work | ShortBreak | LongBreak

  /** One observable step of the loop: a count-in sleep, a timer, or a sound played. */
  datatype Event = CountIn(delay: Duration) | Timer(phase: Phase, length: Duration) | Sound(path: string)

  const CountInDelay: Duration := 3 * Second

  /** Number of times the loop body runs for a configured count `n`. */
  function Iterations(n: int): nat
  {
    if n <= 0 then 0 else n
  }

  /** The break taken after cycle `i` of `n`. */
  function BreakAfter(n: int, i: int): Phase
  {
    if i < n - 1 then ShortBreak else LongBreak
  }

  function PhaseLength(c: Config, p: Phase): Duration
  {
    match p
    case Work => c.work
    case ShortBreak => c.shortBreak
    case LongBreak => c.longBreak
  }

  function PhaseSound(c: Config, p: Phase): string
  {
    match p
    case Work => c.workSound
    case ShortBreak => c.shortBreakSound
    case LongBreak => c.longBreakSound
  }

  /** The events of cycle `i`. */
  function Cycle(c: Config, i: int): seq<Event>
  {
    var b := BreakAfter(c.count, i);
    [CountIn(CountInDelay), Timer(Work, c.work), Sound(c.workSound), Timer(b, PhaseLength(c, b)), Sound(PhaseSound(c, b))]
  }

  /** The events of the first `k` cycles, in order. */
  function Schedule(c: Config, k: nat): seq<Event>
  {
    if k == 0 then [] else Schedule(c, k - 1) + Cycle(c, k - 1)
  }

  /** The whole trace of a run with configuration `c`. */
  function Trace(c: Config): seq<Event>
  {
    Schedule(c, Iterations(c.count))
  }

  /**
   * Reference definition of the `j`-th event of a run, from the position
   * alone: cycle `j / 5`, step `j % 5` of that cycle.
   */
  function EventAt(c: Config, j: nat): Event
  {
    var i := j / 5;
    match j % 5
    case 0 => CountIn(CountInDelay)
    case 1 => Timer(Work, c.work)
    case 2 => Sound(c.workSound)
    case 3 => Timer(BreakAfter(c.count, i), PhaseLength(c, BreakAfter(c.count, i)))
    case _ => Sound(PhaseSound(c, BreakAfter(c.count, i)))
  }

  /** The loop of `main`, appending the events it performs to `trace`. */
  method RunSession(c: Config) returns (trace: seq<Event>)
    ensures trace == Trace(c)
    ensures |trace| == 5 * Iterations(c.count)
  {
    trace := [];
    var i := 0;
    while i < c.count
      invariant 0 <= i <= Iterations(c.count)
      invariant trace == Schedule(c, i)
      invariant |trace| == 5 * i
    {
      trace := trace + [CountIn(CountInDelay)];
      trace := trace + [Timer(Work, c.work)];
      trace := trace + [Sound(c.workSound)];
      if i < c.count - 1 {
        trace := trace + [Timer(ShortBreak, c.shortBreak)];
        trace := trace + [Sound(c.shortBreakSound)];
      } else {
        trace := trace + [Timer(LongBreak, c.longBreak)];
        trace := trace + [Sound(c.longBreakSound)];
      }
      i := i + 1;
    }
  }

  lemma {:induction false} ScheduleLength(c: Config, k: nat)
    ensures |Schedule(c, k)| == 5 * k
  {
    if k > 0 {
      ScheduleLength(c, k - 1);
    }
  }

  /** Every position of the schedule holds the event the reference definition names. */
  lemma {:induction false} ScheduleAt(c: Config, k: nat, j: nat)
    requires j < 5 * k
    ensures |Schedule(c, k)| == 5 * k
    ensures Schedule(c, k)[j] == EventAt(c, j)
  {
    ScheduleLength(c, k);
    ScheduleLength(c, k - 1);
    if j < 5 * (k - 1) {
      ScheduleAt(c, k - 1, j);
    } else {
      assert j / 5 == k - 1;
      assert Schedule(c, k)[j] == Cycle(c, k - 1)[j - 5 * (k - 1)];
    }
  }

  /** A run has five events per iteration, and none at all when the count is not positive. */
  lemma TraceLength(c: Config)
    ensures |Trace(c)| == 5 * Iterations(c.count)
    ensures c.count <= 0 ==> Trace(c) == []
  {
    ScheduleLength(c, Iterations(c.count));
  }

  /**
   * Iteration `i` consists of a count-in, the work timer and the work sound in
   * that order, followed by one break timer and its sound; the break is short
   * if and only if `i < count - 1`, and long if and only if `i` is the last iteration.
   */
  lemma CycleShape(c: Config, i: nat)
    requires i < Iterations(c.count)
    ensures |Trace(c)| >= 5 * i + 5
    ensures Trace(c)[5 * i] == CountIn(3 * Second)
    ensures Trace(c)[5 * i + 1] == Timer(Work, c.work)
    ensures Trace(c)[5 * i + 2] == Sound(c.workSound)
    ensures Trace(c)[5 * i + 3] == Timer(ShortBreak, c.shortBreak) <==> i < c.count - 1
    ensures Trace(c)[5 * i + 3] == Timer(LongBreak, c.longBreak) <==> i == c.count - 1
    ensures Trace(c)[5 * i + 3].Timer? && Trace(c)[5 * i + 3].phase != Work
    ensures Trace(c)[5 * i + 4] == Sound(PhaseSound(c, Trace(c)[5 * i + 3].phase))
  {
    var k := Iterations(c.count);
    ScheduleAt(c, k, 5 * i);
    ScheduleAt(c, k, 5 * i + 1);
    ScheduleAt(c, k, 5 * i + 2);
    ScheduleAt(c, k, 5 * i + 3);
    ScheduleAt(c, k, 5 * i + 4);
  }

  /** When the loop runs at all, the trace ends with the long-break timer and the long-break sound. */
  lemma LastEventIsLongBreakSound(c: Config)
    requires c.count >= 1
    ensures |Trace(c)| >= 2
    ensures Trace(c)[|Trace(c)| - 2] == Timer(LongBreak, c.longBreak)
    ensures Trace(c)[|Trace(c)| - 1] == Sound(c.longBreakSound)
  {
    TraceLength(c);
    CycleShape(c, c.count - 1);
  }

  /**
   * Every work timer is at once followed by the work sound, one break timer,
   * that break's sound, and then either the next count-in or the end of the run.
   */
  lemma WorkIsFollowedByOneBreak(c: Config, j: nat)
    requires j < |Trace(c)| && Trace(c)[j].Timer? && Trace(c)[j].phase == Work
    ensures j + 3 < |Trace(c)|
    ensures Trace(c)[j + 1] == Sound(c.workSound)
    ensures Trace(c)[j + 2].Timer? && Trace(c)[j + 2].phase != Work
    ensures Trace(c)[j + 3] == Sound(PhaseSound(c, Trace(c)[j + 2].phase))
    ensures j + 4 == |Trace(c)| || Trace(c)[j + 4] == CountIn(CountInDelay)
  {
    var k := Iterations(c.count);
    TraceLength(c);
    ScheduleAt(c, k, j);
    assert j % 5 == 1;
    CycleShape(c, j / 5);
    if j + 4 < |Trace(c)| {
      CycleShape(c, j / 5 + 1);
    }
  }

  /** Number of timers of phase `p` in `t`. */
  function TimerCount(t: seq<Event>, p: Phase): nat
  {
    if t == [] then 0 else (if t[0].Timer? && t[0].phase == p then 1 else 0) + TimerCount(t[1..], p)
  }

  /** Number of sounds played in `t`. */
  function SoundCount(t: seq<Event>): nat
  {
    if t == [] then 0 else (if t[0].Sound? then 1 else 0) + SoundCount(t[1..])
  }

  lemma {:induction false} CountsAppend(s: seq<Event>, t: seq<Event>, p: Phase)
    ensures TimerCount(s + t, p) == TimerCount(s, p) + TimerCount(t, p)
    ensures SoundCount(s + t) == SoundCount(s) + SoundCount(t)
  {
    if s != [] {
      assert (s + t)[1..] == s[1..] + t;
      CountsAppend(s[1..], t, p);
    } else {
      assert s + t == t;
    }
  }

  /** The timers and sounds of the first `k` of `n` iterations, for `k <= n`. */
  lemma {:induction false} ScheduleCounts(c: Config, k: nat)
    requires k <= Iterations(c.count)
    ensures TimerCount(Schedule(c, k), Work) == k
    ensures TimerCount(Schedule(c, k), ShortBreak) == if k == c.count && k > 0 then k - 1 else k
    ensures TimerCount(Schedule(c, k), LongBreak) == if k == c.count && k > 0 then 1 else 0
    ensures SoundCount(Schedule(c, k)) == 2 * k
  {
    if k > 0 {
      ScheduleCounts(c, k - 1);
      CountsAppend(Schedule(c, k - 1), Cycle(c, k - 1), Work);
      CountsAppend(Schedule(c, k - 1), Cycle(c, k - 1), ShortBreak);
      CountsAppend(Schedule(c, k - 1), Cycle(c, k - 1), LongBreak);
      CycleCounts(c, k - 1);
    }
  }

  /** One iteration holds one work timer, one break timer of the kind `BreakAfter` names, and two sounds. */
  lemma CycleCounts(c: Config, i: int)
    ensures TimerCount(Cycle(c, i), Work) == 1
    ensures TimerCount(Cycle(c, i), ShortBreak) == if i < c.count - 1 then 1 else 0
    ensures TimerCount(Cycle(c, i), LongBreak) == if i < c.count - 1 then 0 else 1
    ensures SoundCount(Cycle(c, i)) == 2
  {
    var b := BreakAfter(c.count, i);
    var s4 := [Sound(PhaseSound(c, b))];
    var s3 := [Timer(b, PhaseLength(c, b))] + s4;
    var s2 := [Sound(c.workSound)] + s3;
    var s1 := [Timer(Work, c.work)] + s2;
    var s0 := [CountIn(CountInDelay)] + s1;
    assert s4[1..] == [] && s3[1..] == s4 && s2[1..] == s3 && s1[1..] == s2 && s0[1..] == s1;
    assert Cycle(c, i) == s0;
    assert SoundCount(s4) == 1;
    assert SoundCount(s3) == 1;
    assert SoundCount(s2) == 2;
    forall p: Phase
      ensures TimerCount(s0, p) == (if p == Work then 1 else 0) + (if p == b then 1 else 0)
    {
      assert TimerCount(s4, p) == 0;
      assert TimerCount(s3, p) == (if p == b then 1 else 0);
      assert TimerCount(s2, p) == (if p == b then 1 else 0);
    }
  }

  /**
   * A run with count `n >= 1` has `n` work timers, `n - 1` short breaks,
   * exactly one long break and `2n` sounds; a run with `n <= 0` has none of them.
   */
  lemma BreakCounts(c: Config)
    ensures TimerCount(Trace(c), Work) == Iterations(c.count)
    ensures TimerCount(Trace(c), ShortBreak) == if c.count >= 1 then c.count - 1 else 0
    ensures TimerCount(Trace(c), LongBreak) == if c.count >= 1 then 1 else 0
    ensures SoundCount(Trace(c)) == 2 * Iterations(c.count)
  {
    ScheduleCounts(c, Iterations(c.count));
  }
}
