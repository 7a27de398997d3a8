/**
  The clap onset detector of clap.js (`ClapDetector`).

  Once per animation frame the detector reads a window of time-domain samples,
  measures its peak and its energy, classifies it as loud or not, and runs a
  one-bit "armed" latch: a loud window fires one clap when the latch is armed
  and two timing gates (cooldown since the last clap, minimum gap since the
  last peak) are open; firing disarms the latch, and only a clearly quiet
  window re-arms it. The clock is a parameter, samples are reals, and the
  callback becomes the returned `Signal`.
*/
module Clap {

  /** A constructor option as the source tests it: `typeof v === "number"`
      or anything else (missing, a string, ...). */
  datatype Option = NotANumber | Number(value: real)

  /** The `opts` object handed to the constructor. */
  datatype Options = Options(
    sensitivity: Option,
    cooldownMs: Option,
    minClapGapMs: Option,
    floor: Option,
    threshold: Option)

  /** The tunables. `threshold` is the base level that `sensitivity` scales;
      `floor` is the noise floor of the RMS test. */
  datatype Config = Config(
    sensitivity: real,
    cooldownMs: real,
    minClapGapMs: real,
    floor: real,
    threshold: real)

  /** `_armed`, `_lastClapAt`, `_lastPeakAt` and `_running`. */
  datatype State = State(armed: bool, lastClapAt: real, lastPeakAt: real, running: bool)

  datatype Detector = Detector(config: Config, state: State)

  /** What one tick hands to `onClap`, if anything: the source passes
      `{ rms, peak, thr }`; the model passes the mean square instead of its
      square root. */
  datatype Signal = Quiet | Clap(peak: real, meanSquare: real, thr: real)

  datatype TickResult = TickResult(state: State, signal: Signal)

  const DefaultSensitivity: real := 1.0
  const DefaultCooldownMs: real := 320.0
  const DefaultMinClapGapMs: real := 80.0
  const DefaultFloor: real := 0.012
  const DefaultThreshold: real := 0.06

  const MinSensitivity: real := 0.2
  const MaxSensitivity: real := 3.0

  function OrDefault(o: Option, default: real): real
  {
    match o
    case Number(v) => v
    case NotANumber => default
  }

  /** The constructor: every numeric option is taken as given (sensitivity is
      NOT clamped here), every other value falls back to its default; the
      detector starts armed, with both timestamps 0, not running. */
  function Create(opts: Options): (d: Detector)
    ensures d.state == State(true, 0.0, 0.0, false)
    ensures opts.sensitivity.Number? ==> d.config.sensitivity == opts.sensitivity.value
    ensures opts.sensitivity.NotANumber? ==> d.config.sensitivity == 1.0
    ensures opts.cooldownMs.Number? ==> d.config.cooldownMs == opts.cooldownMs.value
    ensures opts.cooldownMs.NotANumber? ==> d.config.cooldownMs == 320.0
    ensures opts.minClapGapMs.Number? ==> d.config.minClapGapMs == opts.minClapGapMs.value
    ensures opts.minClapGapMs.NotANumber? ==> d.config.minClapGapMs == 80.0
    ensures opts.floor.Number? ==> d.config.floor == opts.floor.value
    ensures opts.floor.NotANumber? ==> d.config.floor == 0.012
    ensures opts.threshold.Number? ==> d.config.threshold == opts.threshold.value
    ensures opts.threshold.NotANumber? ==> d.config.threshold == 0.06
  {
    Detector(
      Config(
        OrDefault(opts.sensitivity, DefaultSensitivity),
        OrDefault(opts.cooldownMs, DefaultCooldownMs),
        OrDefault(opts.minClapGapMs, DefaultMinClapGapMs),
        OrDefault(opts.floor, DefaultFloor),
        OrDefault(opts.threshold, DefaultThreshold)),
      State(true, 0.0, 0.0, false))
  }

  /** `setSensitivity(v)`: `Math.max(0.2, Math.min(3.0, v))`. */
  function SetSensitivity(c: Config, v: real): (c': Config)
    ensures MinSensitivity <= c'.sensitivity <= MaxSensitivity
    ensures MinSensitivity <= v <= MaxSensitivity ==> c'.sensitivity == v
    ensures v < MinSensitivity ==> c'.sensitivity == MinSensitivity
    ensures v > MaxSensitivity ==> c'.sensitivity == MaxSensitivity
    ensures c' == c.(sensitivity := c'.sensitivity)
  {
    var upper := if MaxSensitivity < v then MaxSensitivity else v;
    c.(sensitivity := if MinSensitivity > upper then MinSensitivity else upper)
  }

  /** The setter is idempotent: calling it twice with the same value, or
      storing the stored sensitivity again, changes nothing. */
  lemma SetSensitivityIdempotent(c: Config, v: real)
    ensures SetSensitivity(SetSensitivity(c, v), v) == SetSensitivity(c, v)
    ensures SetSensitivity(SetSensitivity(c, v), SetSensitivity(c, v).sensitivity) == SetSensitivity(c, v)
  {
  }

  /** The synchronous part of `start()`: a running detector is left alone,
      otherwise `_running` is set before the microphone is requested. Latch and
      timestamps are not reset. */
  function Start(s: State): (s': State)
    ensures s'.running
    ensures s' == s.(running := true)
  {
    if s.running then s else s.(running := true)
  }

  /** `stop()`: clears `_running`; the rest is resource release. Latch and
      timestamps survive a stop, so a later start resumes the same debounce. */
  function Stop(s: State): (s': State)
    ensures !s'.running
    ensures s'.armed == s.armed && s'.lastClapAt == s.lastClapAt && s'.lastPeakAt == s.lastPeakAt
  {
    s.(running := false)
  }

  lemma StopIdempotent(s: State)
    ensures Stop(Stop(s)) == Stop(s)
  {
  }

  function Abs(x: real): (r: real)
    ensures r >= 0.0 && (r == x || r == -x)
  {
    if x < 0.0 then -x else x
  }

  /** The running maximum of `|x|` of the sample loop, starting from 0. */
  function Peak(w: seq<real>): (p: real)
    ensures p >= 0.0
    ensures forall i :: 0 <= i < |w| ==> Abs(w[i]) <= p
    ensures p == 0.0 || exists i :: 0 <= i < |w| && p == Abs(w[i])
    decreases |w|
  {
    if |w| == 0 then 0.0
    else
      var front := w[..|w| - 1];
      var p := Peak(front);
      var a := Abs(w[|w| - 1]);
      assert forall i :: 0 <= i < |front| ==> front[i] == w[i];
      if a > p then a else p
  }

  function Square(x: real): (r: real)
    ensures r >= 0.0
  {
    MulNonnegative(Abs(x), Abs(x));
    x * x
  }

  /** The running sum of `x * x` of the sample loop. */
  function SumSq(w: seq<real>): (s: real)
    ensures s >= 0.0
    decreases |w|
  {
    if |w| == 0 then 0.0
    else
      SumSq(w[..|w| - 1]) + Square(w[|w| - 1])
  }

  /** The single pass of `_tick` over the buffer, accumulating both features
      at once. */
  method Measure(w: seq<real>) returns (peak: real, sum: real)
    ensures peak == Peak(w) && sum == SumSq(w)
  {
    sum := 0.0;
    peak := 0.0;
    var i := 0;
    while i < |w|
      invariant 0 <= i <= |w|
      invariant peak == Peak(w[..i])
      invariant sum == SumSq(w[..i])
    {
      var x := w[i];
      var ax := Abs(x);
      FeaturesSnoc(w, i);
      sum := sum + Square(x);
      if ax > peak {
        peak := ax;
      }
      i := i + 1;
    }
    assert w[..i] == w;
  }

  lemma FeaturesSnoc(w: seq<real>, i: nat)
    requires i < |w|
    ensures Peak(w[..i + 1]) == if Abs(w[i]) > Peak(w[..i]) then Abs(w[i]) else Peak(w[..i])
    ensures SumSq(w[..i + 1]) == SumSq(w[..i]) + Square(w[i])
  {
    assert w[..i + 1][..i] == w[..i];
  }

  /** `thr = threshold * sensitivity`, the effective trigger level. */
  function Thr(c: Config): real
  {
    c.threshold * c.sensitivity
  }

  /** `rms > bound` where `rms = Math.sqrt(sum / n)`, decided without the
      square root. With `n == 0` the source computes `sqrt(0 / 0)`, which is
      NaN, and every comparison with NaN is false. */
  predicate RmsAbove(sum: real, n: nat, bound: real)
  {
    n > 0 && (bound < 0.0 || sum / (n as real) > bound * bound)
  }

  /** `RmsAbove` agrees with comparing the true root mean square. */
  lemma RmsAboveIsSqrtComparison(sum: real, n: nat, bound: real, rms: real)
    requires n > 0 && sum >= 0.0
    requires rms >= 0.0 && rms * rms == sum / (n as real)
    ensures RmsAbove(sum, n, bound) <==> rms > bound
  {
    if bound >= 0.0 {
      if rms > bound {
        MulPositive(rms - bound, rms + bound);
        assert rms * rms - bound * bound == (rms - bound) * (rms + bound);
      } else {
        MulNonnegative(bound - rms, bound + rms);
        assert bound * bound - rms * rms == (bound - rms) * (bound + rms);
      }
    }
  }

  lemma MulNonnegative(x: real, y: real)
    requires x >= 0.0 && y >= 0.0
    ensures x * y >= 0.0
  {
  }

  lemma MulPositive(x: real, y: real)
    requires x > 0.0 && y > 0.0
    ensures x * y > 0.0
  {
  }

  /** `isLoud`: the peak clears `thr` and the RMS clears `floor + thr/4`. */
  predicate IsLoud(c: Config, peak: real, sum: real, n: nat)
  {
    peak > Thr(c) && RmsAbove(sum, n, c.floor + Thr(c) * 0.25)
  }

  /** The re-arm condition: not loud, and the peak below 55% of `thr`. */
  predicate Rearms(c: Config, peak: real, sum: real, n: nat)
  {
    !IsLoud(c, peak, sum, n) && peak < Thr(c) * 0.55
  }

  predicate WindowLoud(c: Config, w: seq<real>)
  {
    IsLoud(c, Peak(w), SumSq(w), |w|)
  }

  predicate WindowRearms(c: Config, w: seq<real>)
  {
    Rearms(c, Peak(w), SumSq(w), |w|)
  }

  /** Both timing gates are open at time `now`. */
  predicate GatesOpen(c: Config, s: State, now: real)
  {
    now - s.lastClapAt >= c.cooldownMs && now - s.lastPeakAt >= c.minClapGapMs
  }

  /** The decision logic of one `_tick` at clock reading `now`. */
  function Tick(c: Config, s: State, w: seq<real>, now: real): (r: TickResult)
    ensures !s.running ==> r == TickResult(s, Quiet)
    ensures r.state.running == s.running
    ensures r.signal.Clap? <==> s.running && WindowLoud(c, w) && s.armed && GatesOpen(c, s, now)
    ensures r.signal.Clap? ==>
      && r.state.lastClapAt == now && r.state.lastPeakAt == now && !r.state.armed
      && r.signal == Clap(Peak(w), SumSq(w) / (|w| as real), Thr(c))
    ensures r.signal.Quiet? ==> r.state.lastClapAt == s.lastClapAt && r.state.lastPeakAt == s.lastPeakAt
    ensures r.state.armed <==> (s.running && WindowRearms(c, w)) || (s.armed && r.signal.Quiet?)
    ensures !(r.signal.Clap? && WindowRearms(c, w))
  {
    if !s.running then TickResult(s, Quiet)
    else
      var peak := Peak(w);
      var sum := SumSq(w);
      var thr := Thr(c);
      var loud := IsLoud(c, peak, sum, |w|);
      var fire := loud && s.armed && now - s.lastClapAt >= c.cooldownMs && now - s.lastPeakAt >= c.minClapGapMs;
      var fired := if fire then s.(lastClapAt := now, lastPeakAt := now, armed := false) else s;
      var rearmed := if !loud && peak < thr * 0.55 then fired.(armed := true) else fired;
      TickResult(rearmed, if fire then Clap(peak, sum / (|w| as real), thr) else Quiet)
  }

  function Max(a: real, b: real): real
  {
    if a < b then b else a
  }

  /** While the two timestamps agree (which every tick keeps), the cooldown and
      the minimum peak gap collapse into one gate of `max(cooldownMs,
      minClapGapMs)`. */
  lemma SingleGate(c: Config, s: State, w: seq<real>, now: real)
    requires s.lastClapAt == s.lastPeakAt
    ensures Tick(c, s, w, now).state.lastClapAt == Tick(c, s, w, now).state.lastPeakAt
    ensures Tick(c, s, w, now).signal.Clap? <==>
      s.running && WindowLoud(c, w) && s.armed && now - s.lastClapAt >= Max(c.cooldownMs, c.minClapGapMs)
  {
  }

  /** With a positive base threshold, raising the sensitivity raises `thr`, so
      it can only turn a loud window quiet, never a quiet one loud. */
  lemma HigherSensitivityIsStricter(c: Config, lower: real, higher: real, peak: real, sum: real, n: nat)
    requires c.threshold > 0.0 && lower <= higher
    ensures Thr(c.(sensitivity := lower)) <= Thr(c.(sensitivity := higher))
    ensures lower < higher ==> Thr(c.(sensitivity := lower)) < Thr(c.(sensitivity := higher))
    ensures IsLoud(c.(sensitivity := higher), peak, sum, n) ==> IsLoud(c.(sensitivity := lower), peak, sum, n)
  {
    var lo := c.(sensitivity := lower);
    var hi := c.(sensitivity := higher);
    assert Thr(lo) <= Thr(hi) by {
      MulNonnegative(c.threshold, higher - lower);
      assert Thr(hi) - Thr(lo) == c.threshold * (higher - lower);
    }
    var bLo := c.floor + Thr(lo) * 0.25;
    var bHi := c.floor + Thr(hi) * 0.25;
    if IsLoud(hi, peak, sum, n) && bLo >= 0.0 {
      assert bLo * bLo <= bHi * bHi by {
        MulNonnegative(bHi - bLo, bHi + bLo);
        assert bHi * bHi - bLo * bLo == (bHi - bLo) * (bHi + bLo);
      }
    }
  }

  /** The RMS gate: with the default settings, a window of peak 0.08 and RMS
      0.02 clears the peak test (0.08 > 0.06) but not the RMS test
      (0.02 <= 0.012 + 0.015), so it is not loud. */
  lemma RmsGateRejectsThinPeak()
    ensures Thr(Create(Options(NotANumber, NotANumber, NotANumber, NotANumber, NotANumber)).config) == 0.06
    ensures !IsLoud(Create(Options(NotANumber, NotANumber, NotANumber, NotANumber, NotANumber)).config, 0.08, 0.0004, 1)
  {
  }

  /** The direction is strict: with the game's settings (base threshold 0.055)
      a window of peak 0.1 and RMS 0.05 is loud at sensitivity 1.0 and quiet at
      sensitivity 2.0. */
  lemma SensitivityCanSilence()
    ensures IsLoud(Config(1.0, 320.0, 80.0, 0.012, 0.055), 0.1, 0.0025, 1)
    ensures !IsLoud(Config(2.0, 320.0, 80.0, 0.012, 0.055), 0.1, 0.0025, 1)
  {
  }
}
