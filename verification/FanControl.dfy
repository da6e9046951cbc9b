/** bbbfancontrol: fan speed from temperature readings, with hysteresis. */
module FanControl {

  datatype Settings = Settings(tmin: int, tmax: int, cooldown: int, fmin: int, fmax: int, kickstart: int)
  {
    /** The sanity check of the arguments. It lets tmin == tmax pass, unlike its message. */
    predicate Accepted() { cooldown <= tmin <= tmax }

    predicate Sensible() { cooldown <= tmin < tmax && 0 < fmin <= fmax }
  }

  /** Go's integer division, towards zero. */
  function TruncDiv(a: int, b: int): int
    requires b != 0
  {
    if (a >= 0) == (b > 0) then Abs(a) / Abs(b) else -(Abs(a) / Abs(b))
  }

  function Abs(a: int): nat { if a < 0 then -a else a }

  /** Degrees from a reading in thousandths. */
  function Degrees(reading: int): int { TruncDiv(reading, 1000) }

  /** Main result: when a reading counts as at least `t` degrees. Because the division truncates
      towards zero, the threshold lies almost one degree lower for t <= 0. */
  lemma DegreesAtLeast(reading: int, t: int)
    ensures Degrees(reading) >= t <==> if t > 0 then reading >= 1000 * t else reading > 1000 * t - 1000
  {}

  // --- what the history asks for ---------------------------------------------------------------

  /** Some reading was at least tmin and none since was below cooldown. */
  predicate Hot(c: Settings, history: seq<int>) {
    exists i :: 0 <= i < |history| && Degrees(history[i]) >= c.tmin
                && forall j :: i <= j < |history| ==> Degrees(history[j]) >= c.cooldown
  }

  /** The fan speed on the line through (tmin, fmin), its slope truncated. */
  function Line(c: Settings, degrees: int): int
    requires c.tmin < c.tmax
  {
    c.fmin + TruncDiv(c.fmax - c.fmin, c.tmax - c.tmin) * (degrees - c.tmin)
  }

  function Min(a: int, b: int): int { if a <= b then a else b }
  function Max(a: int, b: int): int { if a <= b then b else a }

  /** The fan speed a non-empty history calls for. */
  function Level(c: Settings, history: seq<int>): int
    requires c.tmin < c.tmax && history != []
  {
    var n := |history| - 1;
    var capped := Min(Line(c, Degrees(history[n])), c.fmax);
    if !Hot(c, history) then 0
    else if Hot(c, history[..n]) then Max(capped, c.fmin)
    else capped
  }

  /** The values written to the fan while the last reading of the history is handled. */
  function Writes(c: Settings, history: seq<int>): seq<int>
    requires c.tmin < c.tmax && history != []
  {
    var started := Hot(c, history) && !Hot(c, history[..|history| - 1]);
    (if started && c.kickstart > 0 then [c.fmax] else []) + [Level(c, history)]
  }

  function AllWrites(c: Settings, history: seq<int>): seq<int>
    requires c.tmin < c.tmax
  {
    if history == [] then [] else AllWrites(c, history[..|history| - 1]) + Writes(c, history)
  }

  lemma HotNext(c: Settings, history: seq<int>, reading: int)
    requires c.Accepted()
    ensures Hot(c, history + [reading])
        <==> Degrees(reading) >= c.tmin || (Hot(c, history) && Degrees(reading) >= c.cooldown)
  {
    var next := history + [reading];
    var n := |history|;
    assert next[n] == reading && forall j :: 0 <= j < n ==> next[j] == history[j];
    if Hot(c, history) && Degrees(reading) >= c.cooldown {
      var i :| 0 <= i < n && Degrees(history[i]) >= c.tmin && forall j :: i <= j < n ==> Degrees(history[j]) >= c.cooldown;
      assert Degrees(next[i]) >= c.tmin && forall j :: i <= j < |next| ==> Degrees(next[j]) >= c.cooldown;
    }
    if Hot(c, next) {
      var i :| 0 <= i < |next| && Degrees(next[i]) >= c.tmin && forall j :: i <= j < |next| ==> Degrees(next[j]) >= c.cooldown;
      if i < n {
        assert Degrees(next[n]) >= c.cooldown;
        assert forall j :: i <= j < n ==> Degrees(history[j]) == Degrees(next[j]);
      }
    }
  }

  lemma HistoryNext(c: Settings, history: seq<int>, reading: int)
    requires c.Accepted() && c.tmin < c.tmax
    ensures var next, capped := history + [reading], Min(Line(c, Degrees(reading)), c.fmax);
            var level := if !Hot(c, next) then 0 else if Hot(c, history) then Max(capped, c.fmin) else capped;
            AllWrites(c, next)
            == AllWrites(c, history) + (if Hot(c, next) && !Hot(c, history) && c.kickstart > 0 then [c.fmax] else []) + [level]
  {
    var next := history + [reading];
    assert next[..|next| - 1] == history && next[|next| - 1] == reading;
  }

  // --- the control loop --------------------------------------------------------------------------

  datatype Outcome = Refused | Divided | Running(cooling: bool)

  /** One cycle: the values written to the fan and the new hysteresis state. */
  method Cycle(c: Settings, cooling: bool, reading: int, ghost history: seq<int>)
    returns (written: seq<int>, stillCooling: bool)
    requires c.Accepted() && c.tmin < c.tmax && cooling == Hot(c, history)
    ensures stillCooling == Hot(c, history + [reading])
    ensures AllWrites(c, history + [reading]) == AllWrites(c, history) + written
  {
    HotNext(c, history, reading);
    HistoryNext(c, history, reading);
    written, stillCooling := [], cooling;
    var tempCur := TruncDiv(reading, 1000);
    var fanPWM := c.fmin + TruncDiv(c.fmax - c.fmin, c.tmax - c.tmin) * (tempCur - c.tmin);
    assert fanPWM == Line(c, tempCur);
    if fanPWM > c.fmax { fanPWM := c.fmax; }
    if cooling {
      if fanPWM < c.fmin { fanPWM := c.fmin; }
      if tempCur < c.cooldown { fanPWM, stillCooling := 0, false; }
    } else if tempCur >= c.tmin {
      stillCooling := true;
      if c.kickstart > 0 { written := [c.fmax]; }
    } else {
      fanPWM := 0;
    }
    written := written + [fanPWM];
  }

  /** The program, as long as readings come: the values it writes to the fan, in order. */
  method Control(c: Settings, readings: seq<int>) returns (written: seq<int>, outcome: Outcome)
    ensures outcome.Refused? <==> c.cooldown > c.tmin || c.tmin > c.tmax
    ensures outcome.Divided? <==> c.cooldown <= c.tmin == c.tmax && readings != []
    ensures outcome.Running? && c.tmin < c.tmax ==> written == AllWrites(c, readings) && outcome.cooling == Hot(c, readings)
    ensures !outcome.Running? || readings == [] ==> written == []
  {
    written := [];
    if c.cooldown > c.tmin || c.tmin > c.tmax {
      return written, Refused;
    }
    var cooling := false;
    for i := 0 to |readings|
      invariant i > 0 ==> c.tmin < c.tmax
      invariant i == 0 ==> written == []
      invariant c.tmin < c.tmax ==> written == AllWrites(c, readings[..i])
      invariant cooling == Hot(c, readings[..i])
    {
      if c.tmax == c.tmin {
        return written, Divided;
      }
      assert readings[..i + 1] == readings[..i] + [readings[i]];
      var level;
      level, cooling := Cycle(c, cooling, readings[i], readings[..i]);
      written := written + level;
    }
    assert readings[..|readings|] == readings;
    outcome := Running(cooling);
  }

  // --- hysteresis ----------------------------------------------------------------------------------

  lemma SlopeIsFlat(c: Settings)
    requires c.tmin < c.tmax && c.fmin <= c.fmax
    ensures TruncDiv(c.fmax - c.fmin, c.tmax - c.tmin) == (c.fmax - c.fmin) / (c.tmax - c.tmin) >= 0
  {}

  lemma ProductIsMonotone(slope: nat, a: int, b: int)
    requires a <= b
    ensures slope * a <= slope * b
  {}

  /** A higher temperature never means a slower fan. */
  lemma LineIsMonotone(c: Settings, a: int, b: int)
    requires c.tmin < c.tmax && c.fmin <= c.fmax && a <= b
    ensures Line(c, a) <= Line(c, b)
    ensures Line(c, c.tmin) == c.fmin
  {
    SlopeIsFlat(c);
    ProductIsMonotone((c.fmax - c.fmin) / (c.tmax - c.tmin), a - c.tmin, b - c.tmin);
  }

  lemma HotNow(c: Settings, history: seq<int>)
    requires c.Accepted() && history != [] && Hot(c, history) && !Hot(c, history[..|history| - 1])
    ensures Degrees(history[|history| - 1]) >= c.tmin
  {
    var n := |history| - 1;
    assert history == history[..n] + [history[n]];
    HotNext(c, history[..n], history[n]);
  }

  /** Main result: over every history the fan is off or between fmin and fmax, and it is on if and
      only if some reading was at least tmin and none since was below cooldown. */
  lemma FanIsOnWhileHot(c: Settings, history: seq<int>)
    requires c.Sensible() && history != []
    ensures Level(c, history) == 0 || c.fmin <= Level(c, history) <= c.fmax
    ensures Level(c, history) != 0 <==> Hot(c, history)
  {
    var t := Degrees(history[|history| - 1]);
    if Hot(c, history) && !Hot(c, history[..|history| - 1]) {
      HotNow(c, history);
      LineIsMonotone(c, c.tmin, t);
    }
  }

  /** Main result: with the fan on, the level depends on the last reading alone, and a higher reading
      never means a lower level. */
  lemma LevelIsMonotone(c: Settings, a: seq<int>, b: seq<int>)
    requires c.Sensible() && a != [] && b != [] && Hot(c, a) && Hot(c, b)
    requires Degrees(a[|a| - 1]) <= Degrees(b[|b| - 1])
    ensures Level(c, a) <= Level(c, b)
  {
    var s, t := Degrees(a[|a| - 1]), Degrees(b[|b| - 1]);
    LineIsMonotone(c, s, t);
    if !Hot(c, a[..|a| - 1]) { HotNow(c, a); }
    if !Hot(c, b[..|b| - 1]) { HotNow(c, b); }
    if s >= c.tmin { LineIsMonotone(c, c.tmin, s); }
    if t >= c.tmin { LineIsMonotone(c, c.tmin, t); }
  }

  // --- how far the truncated slope falls short --------------------------------------------------------

  lemma Distribute(slope: int, width: int, rest: int, x: int)
    ensures (slope * width + rest) * x == slope * x * width + rest * x
  {}

  lemma LineBelowIdeal(c: Settings, t: int)
    requires c.Sensible()
    ensures Line(c, t) * (c.tmax - c.tmin) + (c.fmax - c.fmin) % (c.tmax - c.tmin) * (t - c.tmin)
         == c.fmin * (c.tmax - c.tmin) + (c.fmax - c.fmin) * (t - c.tmin)
  {
    var rise, width, x := c.fmax - c.fmin, c.tmax - c.tmin, t - c.tmin;
    var slope := rise / width;
    SlopeIsFlat(c);
    assert rise == slope * width + rise % width;
    Distribute(slope, width, rise % width, x);
    assert (c.fmin + slope * x) * width == c.fmin * width + slope * x * width;
  }

  lemma LineUnderCap(c: Settings, t: int)
    requires c.Sensible() && c.tmin <= t <= c.tmax
    ensures c.fmin <= Line(c, t) <= c.fmax
    ensures t == c.tmax ==> (Line(c, t) == c.fmax <==> (c.fmax - c.fmin) % (c.tmax - c.tmin) == 0)
  {
    var rise, width := c.fmax - c.fmin, c.tmax - c.tmin;
    SlopeIsFlat(c);
    LineIsMonotone(c, c.tmin, t);
    ProductIsMonotone(rise / width, t - c.tmin, width);
    assert rise == rise / width * width + rise % width;
  }

  /** Main result: between tmin and tmax the speed of a running fan lies below the ideal line by
      exactly (fmax - fmin) mod (tmax - tmin) times (T - tmin), over tmax - tmin, and the fan reaches
      fmax at tmax if and only if tmax - tmin divides fmax - fmin. */
  lemma LevelBelowIdeal(c: Settings, history: seq<int>)
    requires c.Sensible() && history != [] && Hot(c, history)
    requires c.tmin <= Degrees(history[|history| - 1]) <= c.tmax
    ensures var t, width, rise := Degrees(history[|history| - 1]), c.tmax - c.tmin, c.fmax - c.fmin;
            && Level(c, history) * width + rise % width * (t - c.tmin) == c.fmin * width + rise * (t - c.tmin)
            && (t == c.tmax ==> (Level(c, history) == c.fmax <==> rise % width == 0))
  {
    var t := Degrees(history[|history| - 1]);
    LineUnderCap(c, t);
    LineBelowIdeal(c, t);
    assert Level(c, history) == Line(c, t);
  }

  lemma Scaled(a: int, b: int, width: int)
    requires width > 0
    ensures a <= b <==> a * width <= b * width
  {}

  lemma LevelOnLine(c: Settings, history: seq<int>)
    requires c.Sensible() && history != [] && Hot(c, history)
    ensures var t := Degrees(history[|history| - 1]);
            && (t <= c.tmin ==> Level(c, history) == c.fmin)
            && (t >= c.tmin ==> Level(c, history) == Min(Line(c, t), c.fmax))
  {
    var t := Degrees(history[|history| - 1]);
    if !Hot(c, history[..|history| - 1]) { HotNow(c, history); }
    if t <= c.tmin { LineIsMonotone(c, t, c.tmin); }
    if t >= c.tmin { LineIsMonotone(c, c.tmin, t); }
  }

  lemma LineScaled(c: Settings, t: int)
    requires c.Sensible()
    ensures Line(c, t) * (c.tmax - c.tmin)
         == c.fmin * (c.tmax - c.tmin) + (c.fmax - c.fmin - (c.fmax - c.fmin) % (c.tmax - c.tmin)) * (t - c.tmin)
  {
    LineBelowIdeal(c, t);
    Distribute(1, c.fmax - c.fmin, -((c.fmax - c.fmin) % (c.tmax - c.tmin)), t - c.tmin);
  }

  /** Main result: above tmin the truncated line goes on, up to fmax and not beyond; below, a running fan keeps fmin. */
  lemma LevelOutside(c: Settings, history: seq<int>)
    requires c.Sensible() && history != [] && Hot(c, history)
    ensures var t, width, rise := Degrees(history[|history| - 1]), c.tmax - c.tmin, c.fmax - c.fmin;
            && (t <= c.tmin ==> Level(c, history) == c.fmin)
            && (t >= c.tmin ==>
                  var line := c.fmin * width + (rise - rise % width) * (t - c.tmin);
                  Level(c, history) * width == if line <= c.fmax * width then line else c.fmax * width)
  {
    var t := Degrees(history[|history| - 1]);
    LevelOnLine(c, history);
    LineScaled(c, t);
    Scaled(Line(c, t), c.fmax, c.tmax - c.tmin);
  }

  /** Main result: while a reading is handled the fan is first set to fmax for the kickstart exactly if it goes from
      off to on with a kickstart configured, and then to its level. */
  lemma KickstartWrites(c: Settings, history: seq<int>)
    requires c.Sensible() && history != []
    ensures var before := history[..|history| - 1];
            Writes(c, history)
            == if Level(c, history) != 0 && (before == [] || Level(c, before) == 0) && c.kickstart > 0
               then [c.fmax, Level(c, history)] else [Level(c, history)]
  {
    var before := history[..|history| - 1];
    FanIsOnWhileHot(c, history);
    if before != [] { FanIsOnWhileHot(c, before); }
  }
}
