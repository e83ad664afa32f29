/**
 * The timing utilities of easydel/utils/helpers.py: the `Timer` state
 * machine (the clock is a parameter), the `Timers` name-to-timer registry
 * with `write`/`log`, the unit chosen to print a duration, and the choice of
 * cache directory.
 */
module Helpers {
  import opened Wrappers

  datatype TimerError =
    | AlreadyRunning          // `start` on a running timer
    | NotRunning              // `stop` on a stopped timer
    | UnknownTimer            // `self.timers[name]` for a name never created
    | NonPositiveNormalizer   // `assert normalizer > 0.0`

  /** The three fields of a `Timer` that change. */
  datatype TimerState = TimerState(elapsed: real, started: bool, startTime: real)

  /** A new or reset timer. */
  function Cleared(): TimerState
  {
    TimerState(0.0, false, 0.0)
  }

  /** `start` at time `now`. */
  function StartStep(s: TimerState, now: real): (r: Result<TimerState, TimerError>)
    ensures r.Err? <==> s.started
    ensures r.Err? ==> r.error == AlreadyRunning
    ensures r.Ok? ==> r.value.started && r.value.startTime == now && r.value.elapsed == s.elapsed
  {
    if s.started then Err(AlreadyRunning) else Ok(TimerState(s.elapsed, true, now))
  }

  /** `stop` at time `now`: the running interval is added to the total. */
  function StopStep(s: TimerState, now: real): (r: Result<TimerState, TimerError>)
    ensures r.Err? <==> !s.started
    ensures r.Err? ==> r.error == NotRunning
    ensures r.Ok? ==> !r.value.started && r.value.startTime == s.startTime
    ensures r.Ok? ==> r.value.elapsed - s.elapsed == now - s.startTime
  {
    if !s.started then Err(NotRunning) else Ok(TimerState(s.elapsed + (now - s.startTime), false, s.startTime))
  }

  /** What `elapsed_time` returns and the state it leaves. */
  datatype Reading = Reading(total: real, after: TimerState)

  /** `elapsed_time(reset)` at time `now`: stop if running, read the total, optionally reset. */
  function ElapsedStep(s: TimerState, now: real, reset: bool): (r: Reading)
    ensures r.total == s.elapsed + (if s.started then now - s.startTime else 0.0)
    ensures !r.after.started
    ensures reset ==> r.after == Cleared()
    ensures !reset ==> r.after.elapsed == r.total && r.after.startTime == s.startTime
  {
    var stopped := if s.started then StopStep(s, now).value else s;
    Reading(stopped.elapsed, if reset then Cleared() else stopped)
  }

  class Timer {
    const name: string
    var elapsed: real
    var started: bool
    var startTime: real

    function State(): TimerState
      reads this
    {
      TimerState(elapsed, started, startTime)
    }

    constructor (name: string)
      ensures this.name == name && State() == Cleared()
    {
      this.name := name;
      elapsed := 0.0;
      started := false;
      startTime := 0.0;
    }

    method Start(now: real) returns (r: Option<TimerError>)
      modifies this
      ensures StartStep(old(State()), now).Err? ==> r == Some(AlreadyRunning) && State() == old(State())
      ensures StartStep(old(State()), now).Ok? ==> r == None && State() == StartStep(old(State()), now).value
    {
      if started {
        return Some(AlreadyRunning);
      }
      startTime := now;
      started := true;
      r := None;
    }

    method Stop(now: real) returns (r: Option<TimerError>)
      modifies this
      ensures StopStep(old(State()), now).Err? ==> r == Some(NotRunning) && State() == old(State())
      ensures StopStep(old(State()), now).Ok? ==> r == None && State() == StopStep(old(State()), now).value
    {
      if !started {
        return Some(NotRunning);
      }
      elapsed := elapsed + (now - startTime);
      started := false;
      r := None;
    }

    method Reset()
      modifies this
      ensures State() == Cleared()
    {
      elapsed := 0.0;
      started := false;
      startTime := 0.0;
    }

    method ElapsedTime(now: real, reset: bool) returns (total: real)
      modifies this
      ensures total == ElapsedStep(old(State()), now, reset).total
      ensures State() == ElapsedStep(old(State()), now, reset).after
    {
      if started {
        var _ := Stop(now);
      }
      total := elapsed;
      if reset {
        Reset();
      }
    }
  }

  /** Starting a stopped timer at `t0` and stopping it at `t1` adds exactly `t1 - t0`. */
  lemma StartThenStop(s: TimerState, t0: real, t1: real)
    requires !s.started
    ensures StartStep(s, t0).Ok? && StopStep(StartStep(s, t0).value, t1).Ok?
    ensures StopStep(StartStep(s, t0).value, t1).value.elapsed == s.elapsed + (t1 - t0)
  {
  }

  /** A run of start/stop pairs, one per interval. */
  function RunIntervals(s: TimerState, intervals: seq<(real, real)>): (r: Result<TimerState, TimerError>)
    decreases |intervals|
  {
    if intervals == [] then Ok(s)
    else
      var p :- RunIntervals(s, intervals[..|intervals| - 1]);
      var last := intervals[|intervals| - 1];
      var q :- StartStep(p, last.0);
      StopStep(q, last.1)
  }

  function Durations(intervals: seq<(real, real)>): real
    decreases |intervals|
  {
    if intervals == [] then 0.0
    else Durations(intervals[..|intervals| - 1]) + (intervals[|intervals| - 1].1 - intervals[|intervals| - 1].0)
  }

  /**
   * The total of a stopped timer after any number of start/stop pairs is
   * its old total plus the lengths of the intervals, and it ends stopped.
   */
  lemma {:induction false} AccumulatesIntervals(s: TimerState, intervals: seq<(real, real)>)
    requires !s.started
    ensures RunIntervals(s, intervals).Ok?
    ensures !RunIntervals(s, intervals).value.started
    ensures RunIntervals(s, intervals).value.elapsed == s.elapsed + Durations(intervals)
    decreases |intervals|
  {
    if intervals != [] {
      AccumulatesIntervals(s, intervals[..|intervals| - 1]);
    }
  }

  /** Reading with `reset=True` twice: the second reading is zero. */
  lemma ReadTwiceAfterReset(s: TimerState, t0: real, t1: real)
    ensures ElapsedStep(ElapsedStep(s, t0, true).after, t1, true).total == 0.0
  {
  }

  /** Timers by name. */
  class Timers {
    var timers: map<string, Timer>

    /** Every timer is stored under its own name, so different names hold different timers. */
    ghost predicate Valid()
      reads this
    {
      forall n :: n in timers ==> timers[n].name == n
    }

    ghost function Snapshot(): map<string, TimerState>
      reads this, timers.Values
    {
      map n | n in timers :: timers[n].State()
    }

    constructor ()
      ensures timers == map[] && Valid()
    {
      timers := map[];
    }

    /** `Timers(name)`: the stored timer, or a new one stored under that name alone. */
    method Get(name: string) returns (t: Timer)
      requires Valid()
      modifies this
      ensures Valid()
      ensures name in old(timers) ==> t == old(timers[name]) && timers == old(timers)
      ensures name !in old(timers) ==> fresh(t) && t.State() == Cleared() && timers == old(timers)[name := t]
      ensures t.name == name
    {
      if name !in timers {
        var created := new Timer(name);
        timers := timers[name := created];
      }
      t := timers[name];
    }

    /** The reading loop shared by `write` and `log`: `elapsed_time(reset) * scale / normalizer` for each name. */
    method ReadAll(names: seq<string>, now: real, scale: real, normalizer: real, reset: bool)
      returns (values: seq<real>, error: Option<TimerError>)
      requires Valid() && normalizer > 0.0
      modifies timers.Values
      ensures Valid()
      ensures var spec := ReadSpec(old(Snapshot()), names, now, scale, normalizer, reset);
        values == spec.values && error == (if spec.failed then Some(UnknownTimer) else None) && Snapshot() == spec.states
    {
      ghost var start := Snapshot();
      values := [];
      var failed := false;
      var i := 0;
      while i < |names| && !failed
        invariant 0 <= i <= |names|
        invariant Valid() && timers.Keys == start.Keys
        invariant ReadSpec(start, names[..i], now, scale, normalizer, reset) == ReadOut(values, Snapshot(), failed)
      {
        var name := names[i];
        ReadSpecNext(start, names, i, now, scale, normalizer, reset);
        if name in timers {
          var total := ReadOne(name, now, reset);
          values := values + [Scaled(total, scale, normalizer)];
        } else {
          failed := true;
        }
        i := i + 1;
      }
      if failed {
        ReadSpecStaysFailed(start, names, i, now, scale, normalizer, reset);
      } else {
        assert names[..i] == names;
      }
      error := if failed then Some(UnknownTimer) else None;
    }

    /** `self.timers[name].elapsed_time(reset)` for a stored name: only that timer changes. */
    method ReadOne(name: string, now: real, reset: bool) returns (total: real)
      requires Valid() && name in timers
      modifies timers[name]
      ensures var reading := ElapsedStep(old(Snapshot())[name], now, reset);
        total == reading.total && Snapshot() == old(Snapshot())[name := reading.after]
    {
      var t := timers[name];
      ghost var before := Snapshot();
      total := t.ElapsedTime(now, reset);
      SnapshotAfterUpdate(before, name, t);
    }

    /** Updating one timer changes only its own entry of the snapshot. */
    lemma SnapshotAfterUpdate(before: map<string, TimerState>, name: string, t: Timer)
      requires Valid() && name in timers && timers[name] == t
      requires before.Keys == timers.Keys
      requires forall n :: n in timers && n != name ==> before[n] == timers[n].State()
      ensures Snapshot() == before[name := t.State()]
    {
    }

    /** `write`: the per-name values sent to the loggers. */
    method Write(names: seq<string>, now: real, normalizer: real, reset: bool)
      returns (r: Result<seq<real>, TimerError>)
      requires Valid()
      modifies timers.Values
      ensures Valid()
      ensures normalizer <= 0.0 ==> r == Err(NonPositiveNormalizer) && Snapshot() == old(Snapshot())
      ensures normalizer > 0.0 ==>
        var spec := ReadSpec(old(Snapshot()), names, now, 1.0, normalizer, reset);
        Snapshot() == spec.states && r == (if spec.failed then Err(UnknownTimer) else Ok(spec.values))
    {
      if normalizer <= 0.0 {
        return Err(NonPositiveNormalizer);
      }
      var values, error := ReadAll(names, now, 1.0, normalizer, reset);
      r := if error.Some? then Err(UnknownTimer) else Ok(values);
    }

    /** `log`: one name or several, each reported in milliseconds and printed in its unit. */
    method Log(names: Names, now: real, normalizer: real, reset: bool)
      returns (r: Result<seq<Printed>, TimerError>)
      requires Valid()
      modifies timers.Values
      ensures Valid()
      ensures normalizer <= 0.0 ==> r == Err(NonPositiveNormalizer) && Snapshot() == old(Snapshot())
      ensures normalizer > 0.0 ==>
        var spec := ReadSpec(old(Snapshot()), names.AsList(), now, 1000.0, normalizer, reset);
        Snapshot() == spec.states &&
        r == (if spec.failed then Err(UnknownTimer) else Ok(PrintAll(names.AsList(), spec.values)))
    {
      if normalizer <= 0.0 {
        return Err(NonPositiveNormalizer);
      }
      var values, error := ReadAll(names.AsList(), now, 1000.0, normalizer, reset);
      r := if error.Some? then Err(UnknownTimer) else Ok(PrintAll(names.AsList(), values));
    }
  }

  /** One reported value: a timer's total times `scale`, divided by `normalizer`. */
  function Scaled(total: real, scale: real, normalizer: real): real
    requires normalizer > 0.0
  {
    total * scale / normalizer
  }

  /** What the reading loop has produced after some names, and whether a missing name stopped it. */
  datatype ReadOut = ReadOut(values: seq<real>, states: map<string, TimerState>, failed: bool)

  /** Reading the names in order; a missing name stops the loop, keeping the effects of the names before it. */
  function ReadSpec(states: map<string, TimerState>, names: seq<string>, now: real, scale: real, normalizer: real,
                    reset: bool): (r: ReadOut)
    requires normalizer > 0.0
    ensures r.states.Keys == states.Keys
    ensures |r.values| <= |names|
    ensures !r.failed ==> |r.values| == |names|
    decreases |names|
  {
    if names == [] then ReadOut([], states, false)
    else
      var p := ReadSpec(states, names[..|names| - 1], now, scale, normalizer, reset);
      var name := names[|names| - 1];
      if p.failed then p
      else if name !in p.states then ReadOut(p.values, p.states, true)
      else
        var reading := ElapsedStep(p.states[name], now, reset);
        ReadOut(p.values + [Scaled(reading.total, scale, normalizer)], p.states[name := reading.after], false)
  }

  /** The loop fails exactly when some name has no timer. */
  lemma {:induction false} ReadSpecFails(states: map<string, TimerState>, names: seq<string>, now: real, scale: real,
                                         normalizer: real, reset: bool)
    requires normalizer > 0.0
    ensures ReadSpec(states, names, now, scale, normalizer, reset).failed <==> exists i :: 0 <= i < |names| && names[i] !in states
    decreases |names|
  {
    if names != [] {
      var init := names[..|names| - 1];
      ReadSpecFails(states, init, now, scale, normalizer, reset);
      if !ReadSpec(states, init, now, scale, normalizer, reset).failed {
        assert forall i :: 0 <= i < |init| ==> init[i] in states;
        assert forall i :: 0 <= i < |names| - 1 ==> names[i] == init[i];
      } else {
        var i :| 0 <= i < |init| && init[i] !in states;
        assert names[i] == init[i];
      }
    }
  }

  /**
   * With distinct names that all have timers, each value is that timer's
   * own total scaled by `scale / normalizer`, and each timer is left as
   * `elapsed_time` leaves it.
   */
  lemma {:induction false} ReadSpecDistinct(states: map<string, TimerState>, names: seq<string>, now: real, scale: real,
                                            normalizer: real, reset: bool)
    requires normalizer > 0.0
    requires forall i :: 0 <= i < |names| ==> names[i] in states
    requires forall i, j :: 0 <= i < j < |names| ==> names[i] != names[j]
    ensures ReadsEach(states, names, ReadSpec(states, names, now, scale, normalizer, reset), now, scale, normalizer, reset)
    decreases |names|
  {
    if names != [] {
      var init := names[..|names| - 1];
      ReadSpecDistinct(states, init, now, scale, normalizer, reset);
      ReadsEachStep(states, init, names[|names| - 1], ReadSpec(states, init, now, scale, normalizer, reset),
                    now, scale, normalizer, reset);
      assert init + [names[|names| - 1]] == names;
    }
  }

  /** The outcome `ReadSpecDistinct` states: one value per name, each from that name's own timer. */
  ghost predicate ReadsEach(states: map<string, TimerState>, names: seq<string>, r: ReadOut, now: real, scale: real,
                            normalizer: real, reset: bool)
    requires normalizer > 0.0
  {
    !r.failed && |r.values| == |names| && r.states.Keys == states.Keys &&
    (forall i :: 0 <= i < |names| ==>
       names[i] in states &&
       r.values[i] == Scaled(ElapsedStep(states[names[i]], now, reset).total, scale, normalizer) &&
       r.states[names[i]] == ElapsedStep(states[names[i]], now, reset).after) &&
    (forall n :: n in states && n !in names ==> r.states[n] == states[n])
  }

  lemma ReadsEachStep(states: map<string, TimerState>, init: seq<string>, name: string, p: ReadOut, now: real,
                      scale: real, normalizer: real, reset: bool)
    requires normalizer > 0.0
    requires forall i :: 0 <= i < |init| ==> init[i] in states
    requires name in states && name !in init
    requires ReadsEach(states, init, p, now, scale, normalizer, reset)
    ensures var reading := ElapsedStep(p.states[name], now, reset);
      ReadsEach(states, init + [name],
                ReadOut(p.values + [Scaled(reading.total, scale, normalizer)], p.states[name := reading.after], false),
                now, scale, normalizer, reset)
  {
    var names := init + [name];
    assert p.states[name] == states[name];
    forall i | 0 <= i < |init|
      ensures names[i] == init[i] && names[i] != name
    {
    }
  }

  /** One more name: the loop either stops at it or reads its timer. */
  lemma ReadSpecNext(states: map<string, TimerState>, names: seq<string>, i: nat, now: real, scale: real,
                     normalizer: real, reset: bool)
    requires normalizer > 0.0 && i < |names|
    requires !ReadSpec(states, names[..i], now, scale, normalizer, reset).failed
    ensures var p := ReadSpec(states, names[..i], now, scale, normalizer, reset);
      var r := ReadSpec(states, names[..i + 1], now, scale, normalizer, reset);
      if names[i] in p.states then
        var reading := ElapsedStep(p.states[names[i]], now, reset);
        r == ReadOut(p.values + [Scaled(reading.total, scale, normalizer)], p.states[names[i] := reading.after], false)
      else r == ReadOut(p.values, p.states, true)
  {
    assert names[..i + 1][..i] == names[..i];
  }

  /** Once a missing name has stopped the loop, the names after it change nothing. */
  lemma {:induction false} ReadSpecStaysFailed(states: map<string, TimerState>, names: seq<string>, k: nat, now: real,
                                               scale: real, normalizer: real, reset: bool)
    requires normalizer > 0.0 && k <= |names|
    requires ReadSpec(states, names[..k], now, scale, normalizer, reset).failed
    ensures ReadSpec(states, names, now, scale, normalizer, reset) == ReadSpec(states, names[..k], now, scale, normalizer, reset)
    decreases |names| - k
  {
    if k < |names| {
      assert names[..|names| - 1][..k] == names[..k];
      ReadSpecStaysFailed(states, names[..|names| - 1], k, now, scale, normalizer, reset);
    } else {
      assert names[..k] == names;
    }
  }

  /** The `names` argument of `log`: a single string or a list. */
  datatype Names = Single(name: string) | List(names: seq<string>) {
    function AsList(): (r: seq<string>)
      ensures Single? ==> r == [name]
      ensures List? ==> r == names
    {
      match this
      case Single(n) => [n]
      case List(ns) => ns
    }
  }

  datatype TimeUnit = Ms | Sec | Min | Hr

  /** The unit `_print_log` prints a duration in, and the divisor of the printed amount. */
  function UnitFor(milliseconds: real): (u: TimeUnit)
  {
    if milliseconds < 1000.0 then Ms
    else if milliseconds < 60000.0 then Sec
    else if milliseconds < 3600000.0 then Min
    else Hr
  }

  function Divisor(u: TimeUnit): (d: real)
    ensures d >= 1.0
  {
    match u
    case Ms => 1.0
    case Sec => 1000.0
    case Min => 60000.0
    case Hr => 3600000.0
  }

  /** One line `_print_log` writes: the timer's name, the unit and the amount in that unit. */
  datatype Printed = Printed(name: string, unit: TimeUnit, amount: real)

  function Print(name: string, milliseconds: real): (p: Printed)
    ensures p.name == name && p.unit == UnitFor(milliseconds)
    ensures p.amount * Divisor(p.unit) == milliseconds
  {
    var u := UnitFor(milliseconds);
    Printed(name, u, milliseconds / Divisor(u))
  }

  function PrintAll(names: seq<string>, values: seq<real>): (r: seq<Printed>)
    requires |values| <= |names|
    ensures |r| == |values|
    ensures forall i :: 0 <= i < |r| ==> r[i] == Print(names[i], values[i])
  {
    seq(|values|, i requires 0 <= i < |values| => Print(names[i], values[i]))
  }

  /**
   * The unit is the largest whose threshold the duration reaches: a
   * non-negative duration is printed as an amount below 1000 ms, below 60
   * seconds or below 60 minutes, and at least 1 in any unit but ms.
   */
  lemma UnitBounds(milliseconds: real)
    requires milliseconds >= 0.0
    ensures var p := Print("", milliseconds);
      0.0 <= p.amount &&
      (p.unit == Ms ==> p.amount < 1000.0) &&
      (p.unit == Sec ==> 1.0 <= p.amount < 60.0) &&
      (p.unit == Min ==> 1.0 <= p.amount < 60.0) &&
      (p.unit == Hr ==> 1.0 <= p.amount)
  {
    var p := Print("", milliseconds);
    assert p.amount * Divisor(p.unit) == milliseconds;
  }

  /** `os.name`, with `sys.platform` for posix systems. */
  datatype OsName = Nt | Posix(platform: string) | OtherOs

  /** A path as its components. */
  type Path = seq<string>

  /** `s` occurs in `t` starting at position `i`. */
  ghost predicate OccursAt(t: string, s: string, i: int)
  {
    0 <= i <= |t| - |s| && t[i..i + |s|] == s
  }

  /** `s` occurs in `t` as a contiguous substring (Python's `in` on strings). */
  function Contains(t: string, s: string): (b: bool)
    ensures b <==> exists i :: OccursAt(t, s, i)
    decreases |t|
  {
    if |t| < |s| then false
    else if t[..|s|] == s then assert OccursAt(t, s, 0); true
    else
      var b := Contains(t[1..], s);
      assert b ==> exists i :: OccursAt(t, s, i) by {
        if b {
          var j :| OccursAt(t[1..], s, j);
          assert t[j + 1..j + 1 + |s|] == t[1..][j..j + |s|];
          assert OccursAt(t, s, j + 1);
        }
      }
      assert (exists i :: OccursAt(t, s, i)) ==> b by {
        if exists i :: OccursAt(t, s, i) {
          var i :| OccursAt(t, s, i);
          assert i != 0;
          assert t[i..i + |s|] == t[1..][i - 1..i - 1 + |s|];
          assert OccursAt(t[1..], s, i - 1);
        }
      }
      b
  }

  /** `get_cache_dir`, without creating the directory; `localAppData` is the `LOCALAPPDATA` variable. */
  function CacheDir(os: OsName, home: Path, localAppData: Option<Path>): (p: Path)
    ensures |p| > 0 && p[|p| - 1] == "easydel"
    ensures os.Nt? && localAppData.Some? ==> p == localAppData.value + ["easydel"]
    ensures os.Nt? && localAppData.None? ==> p == home + ["AppData", "Local", "easydel"]
    ensures os.Posix? && Contains(os.platform, "darwin") ==> p == home + ["Library", "Caches", "easydel"]
    ensures (os.Posix? && !Contains(os.platform, "darwin")) || os.OtherOs? ==> p == home + [".cache", "easydel"]
  {
    match os
    case Nt => localAppData.GetOr(home + ["AppData", "Local"]) + ["easydel"]
    case Posix(platform) =>
      if Contains(platform, "darwin") then home + ["Library", "Caches", "easydel"] else home + [".cache", "easydel"]
    case OtherOs => home + [".cache", "easydel"]
  }
}
