/**
  Runs of the clap detector: a sequence of calls (ticks at given clock
  readings, `start`, `stop`, `setSensitivity`) folded over a detector, and the
  properties that only show across several ticks — debounce spacing, the
  re-arm that must separate two claps, and the invariant that keeps the two
  timestamps equal.
*/
module ClapRun {
  import opened Clap

  /** One call into the detector. `TickAt` is one `_tick` that found the
      window `window` in the analyser at clock reading `now`. */
  datatype Event =
    | TickAt(window: seq<real>, now: real)
    | StartCall
    | StopCall
    | SetSensitivityCall(v: real)

  datatype Stepped = Stepped(detector: Detector, fired: bool)

  function Step(d: Detector, e: Event): (r: Stepped)
    ensures r.fired ==> e.TickAt?
    ensures r.detector.config.cooldownMs == d.config.cooldownMs
    ensures r.detector.config.minClapGapMs == d.config.minClapGapMs
  {
    match e
    case TickAt(w, now) =>
      var t := Tick(d.config, d.state, w, now);
      Stepped(Detector(d.config, t.state), t.signal.Clap?)
    case StartCall => Stepped(d.(state := Start(d.state)), false)
    case StopCall => Stepped(d.(state := Stop(d.state)), false)
    case SetSensitivityCall(v) => Stepped(d.(config := SetSensitivity(d.config, v)), false)
  }

  /** The detector after all of `es`, in order. */
  function Replay(d: Detector, es: seq<Event>): Detector
    decreases |es|
  {
    if |es| == 0 then d else Step(Replay(d, es[..|es| - 1]), es[|es| - 1]).detector
  }

  /** The detector just before event `k`. */
  function Before(d: Detector, es: seq<Event>, k: nat): Detector
    requires k <= |es|
  {
    Replay(d, es[..k])
  }

  /** Event `k` invoked `onClap`. */
  predicate FiredAt(d: Detector, es: seq<Event>, k: nat)
    requires k < |es|
  {
    Step(Before(d, es, k), es[k]).fired
  }

  /** Event `k` is a running tick whose window meets the re-arm condition. */
  predicate RearmedAt(d: Detector, es: seq<Event>, k: nat)
    requires k < |es|
  {
    es[k].TickAt? && Before(d, es, k).state.running && WindowRearms(Before(d, es, k).config, es[k].window)
  }

  /** `_lastClapAt == _lastPeakAt`. */
  predicate Synced(s: State)
  {
    s.lastClapAt == s.lastPeakAt
  }

  lemma BeforeNext(d: Detector, es: seq<Event>, k: nat)
    requires k < |es|
    ensures Before(d, es, k + 1) == Step(Before(d, es, k), es[k]).detector
  {
    assert es[..k + 1][..k] == es[..k];
  }

  /** `setSensitivity` is the only call that changes the configuration, so the
      two timing gates keep their constructor values through any run. */
  lemma {:induction false} ReplayKeepsGates(d: Detector, es: seq<Event>, k: nat)
    requires k <= |es|
    ensures Before(d, es, k).config.cooldownMs == d.config.cooldownMs
    ensures Before(d, es, k).config.minClapGapMs == d.config.minClapGapMs
  {
    if k > 0 {
      ReplayKeepsGates(d, es, k - 1);
      BeforeNext(d, es, k - 1);
    }
  }

  /** The two timestamps agree initially and after every call. */
  lemma {:induction false} ReplayKeepsSynced(opts: Options, es: seq<Event>, k: nat)
    requires k <= |es|
    ensures Synced(Before(Create(opts), es, k).state)
  {
    if k > 0 {
      ReplayKeepsSynced(opts, es, k - 1);
      BeforeNext(Create(opts), es, k - 1);
    }
  }

  /** After a clap at event `i`, as long as no further clap fires, both
      timestamps stay at the clock reading of event `i`. */
  lemma {:induction false} StampsHoldAfterClap(d: Detector, es: seq<Event>, i: nat, k: nat)
    requires i < k <= |es|
    requires FiredAt(d, es, i)
    requires forall m :: i < m < k ==> !FiredAt(d, es, m)
    ensures es[i].TickAt?
    ensures Before(d, es, k).state.lastClapAt == es[i].now
    ensures Before(d, es, k).state.lastPeakAt == es[i].now
    decreases k - i
  {
    BeforeNext(d, es, k - 1);
    if k > i + 1 {
      StampsHoldAfterClap(d, es, i, k - 1);
      assert !FiredAt(d, es, k - 1);
    }
  }

  /** After a clap at event `i` the latch stays disarmed up to event `k`
      unless some tick in between met the re-arm condition. */
  lemma {:induction false} StaysDisarmed(d: Detector, es: seq<Event>, i: nat, k: nat)
    requires i < k <= |es|
    requires FiredAt(d, es, i)
    requires forall m :: i < m < k ==> !RearmedAt(d, es, m)
    ensures !Before(d, es, k).state.armed
    decreases k - i
  {
    BeforeNext(d, es, k - 1);
    if k > i + 1 {
      StaysDisarmed(d, es, i, k - 1);
      assert !RearmedAt(d, es, k - 1);
    }
  }

  /** Debounce: two consecutive claps are at least `max(cooldownMs,
      minClapGapMs)` apart, whatever the clock does in between. */
  lemma ClapsSpaced(d: Detector, es: seq<Event>, i: nat, j: nat)
    requires i < j < |es|
    requires FiredAt(d, es, i) && FiredAt(d, es, j)
    requires forall m :: i < m < j ==> !FiredAt(d, es, m)
    ensures es[i].TickAt? && es[j].TickAt?
    ensures es[j].now - es[i].now >= Max(d.config.cooldownMs, d.config.minClapGapMs)
  {
    StampsHoldAfterClap(d, es, i, j);
    ReplayKeepsGates(d, es, j);
  }

  /** Between two claps some tick met the re-arm condition (not loud, peak
      below 55% of the threshold): a sustained loud sound claps once. */
  lemma RearmBetweenClaps(d: Detector, es: seq<Event>, i: nat, j: nat)
    requires i < j < |es|
    requires FiredAt(d, es, i) && FiredAt(d, es, j)
    ensures exists m :: i < m < j && RearmedAt(d, es, m)
  {
    if forall m :: i < m < j ==> !RearmedAt(d, es, m) {
      StaysDisarmed(d, es, i, j);
      assert false;
    }
  }

  /** With a non-negative cooldown, `_lastClapAt` never decreases, even if
      the clock jumps backwards. */
  lemma {:induction false} LastClapNeverDecreases(d: Detector, es: seq<Event>, j: nat, k: nat)
    requires d.config.cooldownMs >= 0.0
    requires j <= k <= |es|
    ensures Before(d, es, j).state.lastClapAt <= Before(d, es, k).state.lastClapAt
    decreases k - j
  {
    if j < k {
      LastClapNeverDecreases(d, es, j, k - 1);
      BeforeNext(d, es, k - 1);
      ReplayKeepsGates(d, es, k - 1);
    }
  }

  /** A run with the default settings in which two claps fire: a loud window
      at 400 ms, a silent one that re-arms at 500 ms, and a loud one at 800 ms.
      The hypotheses of `ClapsSpaced` and `RearmBetweenClaps` can be met. */
  lemma TwoClapRun()
    ensures var d := Create(Options(NotANumber, NotANumber, NotANumber, NotANumber, NotANumber));
      var es := [StartCall, TickAt([0.5], 400.0), TickAt([0.0], 500.0), TickAt([0.5], 800.0)];
      && FiredAt(d, es, 1) && !FiredAt(d, es, 2) && FiredAt(d, es, 3)
      && RearmedAt(d, es, 2)
  {
    var d := Create(Options(NotANumber, NotANumber, NotANumber, NotANumber, NotANumber));
    var es := [StartCall, TickAt([0.5], 400.0), TickAt([0.0], 500.0), TickAt([0.5], 800.0)];
    assert es[..0] == [];
    BeforeNext(d, es, 0);
    BeforeNext(d, es, 1);
    BeforeNext(d, es, 2);
  }
}
