/**
 * The loading screen's progress ramp (components/ui/loading-screen.jsx).
 *
 * A 30 ms interval feeds the previous progress value through a step
 * function: below 100 it picks a status label and adds a threshold-based
 * increment, capped at 100; at 100 it stays put and schedules the hide
 * timeout. A second, 500 ms interval cycles a dot counter through 0..3.
 */
module LoadingScreen {

  /** The status words the screen can show, in the order they appear. */
  datatype Label = Initializing | Loading | Processing | Finalizing | Complete

  function Rank(l: Label): nat {
    match l
    case Initializing => 0
    case Loading => 1
    case Processing => 2
    case Finalizing => 3
    case Complete => 4
  }

  /** Increment applied to a progress value below 100: slow, fast, slow, slower. */
  function Increment(prev: real): (inc: real)
    ensures 0.3 <= inc <= 1.5
  {
    if prev < 30.0 then 0.8
    else if prev < 70.0 then 1.5
    else if prev < 90.0 then 0.6
    else 0.3
  }

  /** Label chosen from the previous progress value (thresholds 30, 60, 90). */
  function LabelFor(prev: real): (l: Label)
    ensures l != Initializing
    ensures l == Complete <==> prev >= 90.0
  {
    if prev < 30.0 then Loading
    else if prev < 60.0 then Processing
    else if prev < 90.0 then Finalizing
    else Complete
  }

  /** What one progress tick produces: the next value, the label set (if any), and whether the hide timeout is scheduled. */
  datatype Tick = Tick(progress: real, status: Option<Label>, scheduleHide: bool)

  datatype Option<T> = None | Some(value: T)

  /** The updater the progress interval passes to setProgress. */
  function Step(prev: real): Tick {
    if prev >= 100.0 then Tick(100.0, None, true)
    else
      var next := prev + Increment(prev);
      Tick(if next < 100.0 then next else 100.0, Some(LabelFor(prev)), false)
  }

  /** A tick never yields more than 100, and below 100 it strictly increases by the scheduled increment (capped). */
  lemma StepBounded(prev: real)
    ensures Step(prev).progress <= 100.0
    ensures prev < 100.0 ==> prev < Step(prev).progress
    ensures prev < 100.0 ==> Step(prev).progress == Min(prev + Increment(prev), 100.0)
    ensures prev < 100.0 ==> Step(prev).status == Some(LabelFor(prev)) && !Step(prev).scheduleHide
  {
  }

  /** At 100 the ramp is at a fixed point: the value stays, no label is set and the hide timeout is scheduled. */
  lemma StepFixedPoint(prev: real)
    requires prev >= 100.0
    ensures Step(prev) == Tick(100.0, None, true)
    ensures Step(Step(prev).progress) == Step(prev)
  {
  }

  function Min(a: real, b: real): real {
    if a < b then a else b
  }

  /** Progress after n ticks of the interval, starting from p. */
  function Run(p: real, n: nat): real
    decreases n
  {
    if n == 0 then p else Run(Step(p).progress, n - 1)
  }

  /** Every tick adds at least 0.3 until 100, and nothing passes 100. */
  lemma {:induction false} RunProgresses(p: real, n: nat)
    requires 0.0 <= p <= 100.0
    ensures p <= Run(p, n) <= 100.0
    ensures Run(p, n) >= Min(100.0, p + 0.3 * n as real)
    decreases n
  {
    if n > 0 {
      var q := Step(p).progress;
      StepBounded(p);
      RunProgresses(q, n - 1);
      if p < 100.0 {
        assert q >= Min(100.0, p + 0.3);
      }
    }
  }

  /** Running m ticks and then n more is running m + n ticks. */
  lemma {:induction false} RunSplit(p: real, m: nat, n: nat)
    ensures Run(p, m + n) == Run(Run(p, m), n)
    decreases m
  {
    if m > 0 {
      RunSplit(Step(p).progress, m - 1, n);
    }
  }

  /**
   * While the value stays in a band [lo, hi) where the increment is a
   * constant inc, and the cap is not reached, k ticks add exactly k * inc.
   */
  lemma {:induction false} RunPhase(p: real, k: nat, inc: real, lo: real, hi: real)
    requires lo <= p && 0.0 < inc && hi <= 100.0
    requires forall x :: lo <= x < hi ==> Increment(x) == inc
    requires k == 0 || p + inc * (k - 1) as real < hi
    requires p + inc * k as real <= 100.0
    ensures Run(p, k) == p + inc * k as real
    decreases k
  {
    if k > 0 {
      assert p < hi;
      assert Increment(p) == inc;
      assert Step(p).progress == p + inc;
      RunPhase(p + inc, k - 1, inc, lo, hi);
    }
  }

  /**
   * From 0 the ramp takes 38 ticks at 0.8 to 30.4, 27 at 1.5 to 70.9, 32 at
   * 0.6 to 90.1 and 33 at 0.3 to 100: it shows 99.7 after 129 ticks and
   * reaches exactly 100 on tick 130, about 3.9 seconds at 30 ms.
   */
  lemma CompletesFromZero()
    ensures Run(0.0, 129) < 100.0 && Run(0.0, 130) == 100.0
  {
    RunPhase(0.0, 38, 0.8, 0.0, 30.0);
    RunSplit(0.0, 38, 27);
    RunPhase(30.4, 27, 1.5, 30.0, 70.0);
    assert Run(0.0, 65) == 70.9;
    RunSplit(0.0, 65, 32);
    RunPhase(70.9, 32, 0.6, 70.0, 90.0);
    assert Run(0.0, 97) == 90.1;
    RunSplit(0.0, 97, 32);
    RunPhase(90.1, 32, 0.3, 90.0, 100.0);
    assert Run(0.0, 129) == 99.7;
    RunSplit(0.0, 129, 1);
    assert Run(99.7, 1) == 100.0;
  }

  /** Once 100 is reached, any further number of ticks leaves it at 100. */
  lemma {:induction false} StaysComplete(n: nat)
    ensures Run(100.0, n) == 100.0
  {
    if n > 0 {
      StaysComplete(n - 1);
    }
  }

  /** The label set by a tick never goes back: a later (larger) progress value gets a label of equal or higher rank. */
  lemma LabelMonotone(p: real, q: real)
    requires p <= q
    ensures Rank(LabelFor(p)) <= Rank(LabelFor(q))
  {
  }

  /** The dot string: `dotCount` copies of '.'. */
  function Dots(n: nat): (s: string)
    ensures |s| == n
    ensures forall i :: 0 <= i < |s| ==> s[i] == '.'
  {
    if n == 0 then "" else Dots(n - 1) + "."
  }

  /** The dot interval's updater: `(prev + 1) % 4`. */
  function NextDot(prev: nat): (d: nat)
    ensures d < 4
    ensures prev < 3 ==> d == prev + 1
    ensures prev == 3 ==> d == 0
  {
    (prev + 1) % 4
  }

  /** The displayed percentage `Math.floor(progress)`. */
  function Percent(progress: real): (r: int)
    requires 0.0 <= progress <= 100.0
    ensures 0 <= r <= 100
    ensures r as real <= progress < r as real + 1.0
  {
    progress.Floor
  }

  /** The on-screen state the two intervals overwrite. */
  class Loader {
    var progress: real
    var status: Label
    var dotCount: nat
    var visible: bool
    var hideScheduled: bool

    ghost predicate Valid()
      reads this
    {
      0.0 <= progress <= 100.0 && dotCount < 4
    }

    constructor ()
      ensures Valid()
      ensures progress == 0.0 && status == Initializing && dotCount == 0
      ensures visible && !hideScheduled
    {
      progress, status, dotCount := 0.0, Initializing, 0;
      visible, hideScheduled := true, false;
    }

    /** One firing of the 30 ms progress interval. */
    method ProgressTick()
      requires Valid()
      modifies this
      ensures Valid()
      ensures progress == Step(old(progress)).progress
      ensures old(progress) <= progress
      ensures status == (if old(progress) < 100.0 then LabelFor(old(progress)) else old(status))
      ensures hideScheduled == (old(hideScheduled) || old(progress) >= 100.0)
      ensures dotCount == old(dotCount) && visible == old(visible)
    {
      var t := Step(progress);
      StepBounded(progress);
      progress := t.progress;
      if t.status.Some? {
        status := t.status.value;
      }
      if t.scheduleHide {
        hideScheduled := true;
      }
    }

    /** One firing of the 500 ms dot interval. */
    method DotTick()
      requires Valid()
      modifies this
      ensures Valid()
      ensures dotCount == NextDot(old(dotCount))
      ensures progress == old(progress) && status == old(status)
      ensures visible == old(visible) && hideScheduled == old(hideScheduled)
    {
      dotCount := NextDot(dotCount);
    }

    /** The 500 ms completion timeout firing: the screen is hidden. */
    method HideTimeout()
      requires Valid() && hideScheduled
      modifies this
      ensures Valid()
      ensures !visible
      ensures progress == old(progress) && status == old(status) && dotCount == old(dotCount)
      ensures hideScheduled == old(hideScheduled)
    {
      visible := false;
    }

    /** The text rendered beside the label. */
    function DotText(): (s: string)
      reads this
      requires Valid()
      ensures |s| == dotCount <= 3
    {
      Dots(dotCount)
    }

    /** The percentage rendered beside the bar. */
    function Shown(): (r: int)
      reads this
      requires Valid()
      ensures 0 <= r <= 100
      ensures r == 100 <==> progress == 100.0
    {
      Percent(progress)
    }
  }
}
