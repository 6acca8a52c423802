/**
 * The splash screen shown while the site loads
 * (src/components/shared/SplashScreen.tsx).
 *
 * An interval adds 6 to a progress counter on every tick, caps it at 100 and
 * clears itself on the tick that reaches the cap; a separate timer ends the
 * animation and later calls the completion callback. Thirty falling leaves
 * are generated from random draws, passed in here as parameters in [0, 1).
 */
module SplashScreen {
  import Theme
  import opened RandomDraws

  // ---------------------------------------------------------------------------
  // The progress updater passed to `setProgress`.
  // ---------------------------------------------------------------------------

  const ProgressStep := 6
  const ProgressCap := 100

  /** What one run of the updater yields: the new progress, and whether it cleared the interval. */
  datatype TickResult = TickResult(progress: int, clearInterval: bool)

  function Min(a: int, b: int): int {
    if a <= b then a else b
  }

  /** One tick of the interval, as a function of the previous progress. */
  function ProgressTick(prev: int): (t: TickResult)
    ensures t.progress == Min(prev + ProgressStep, ProgressCap)
    ensures t.progress <= ProgressCap
    ensures t.clearInterval <==> t.progress == ProgressCap
    ensures prev <= ProgressCap ==> prev <= t.progress
    ensures prev == ProgressCap ==> t == TickResult(ProgressCap, true)
  {
    var next := prev + ProgressStep;
    if next >= ProgressCap then TickResult(ProgressCap, true) else TickResult(next, false)
  }

  /** The progress after `n` ticks from the initial 0. */
  function ProgressAfter(n: nat): int {
    if n == 0 then 0 else ProgressTick(ProgressAfter(n - 1)).progress
  }

  lemma {:induction false} ProgressAfterClosedForm(n: nat)
    ensures ProgressAfter(n) == Min(ProgressStep * n, ProgressCap)
  {
    if n > 0 {
      ProgressAfterClosedForm(n - 1);
    }
  }

  /** Progress never decreases from tick to tick and never passes 100. */
  lemma ProgressMonotone(m: nat, n: nat)
    requires m <= n
    ensures 0 <= ProgressAfter(m) <= ProgressAfter(n) <= ProgressCap
  {
    ProgressAfterClosedForm(m);
    ProgressAfterClosedForm(n);
  }

  /** Ticks 1 to 16 stay below 100 (the 16th gives 96); the 17th gives 100 and clears the interval. */
  lemma SeventeenthTickCompletes()
    ensures forall n: nat :: n < 17 ==> ProgressAfter(n) < ProgressCap
    ensures ProgressAfter(16) == 96
    ensures ProgressTick(ProgressAfter(16)) == TickResult(ProgressCap, true)
    ensures ProgressAfter(17) == ProgressCap
  {
    forall n: nat | n < 17
      ensures ProgressAfter(n) < ProgressCap
    {
      ProgressAfterClosedForm(n);
    }
    ProgressAfterClosedForm(16);
  }

  /** Every reachable progress value is a multiple of 6 or the cap itself. */
  predicate ValidProgress(p: int) {
    0 <= p <= ProgressCap && (p == ProgressCap || p % ProgressStep == 0)
  }

  lemma ReachableProgress(n: nat)
    ensures ValidProgress(ProgressAfter(n))
  {
    ProgressAfterClosedForm(n);
  }

  /**
   * The component's state: the progress counter, the `isAnimating` flag, and
   * which of the scheduled callbacks are still pending. Timers fire as
   * explicit method calls.
   */
  class Splash {
    var progress: int
    var isAnimating: bool
    /** The 66 ms interval is still running. */
    var intervalActive: bool
    /** The 3333 ms timer has not fired and has not been cleared. */
    var timerPending: bool
    /** The 333 ms timeout that calls `onAnimationComplete` is scheduled. */
    var completionPending: bool
    /** How many ticks the interval has run. */
    ghost var ticks: nat

    ghost predicate Valid()
      reads this
    {
      progress == ProgressAfter(ticks) && (intervalActive ==> progress < ProgressCap)
    }

    /** Mounting: progress 0, animating, the interval and the timer started. */
    constructor ()
      ensures Valid()
      ensures progress == 0 && ticks == 0 && isAnimating
      ensures intervalActive && timerPending && !completionPending
    {
      progress := 0;
      isAnimating := true;
      intervalActive := true;
      timerPending := true;
      completionPending := false;
      ticks := 0;
    }

    /** The interval fires: a running interval applies the updater and clears itself at the cap. */
    method IntervalTick()
      requires Valid()
      modifies this
      ensures Valid()
      ensures old(intervalActive) ==> progress == ProgressTick(old(progress)).progress && ticks == old(ticks) + 1
      ensures old(intervalActive) ==> (intervalActive <==> progress < ProgressCap)
      ensures !old(intervalActive) ==> progress == old(progress) && ticks == old(ticks) && !intervalActive
      ensures old(progress) <= progress <= ProgressCap
      ensures isAnimating == old(isAnimating) && timerPending == old(timerPending)
      ensures completionPending == old(completionPending)
    {
      if intervalActive {
        var t := ProgressTick(progress);
        progress := t.progress;
        ticks := ticks + 1;
        if t.clearInterval {
          intervalActive := false;
        }
      }
    }

    /** The 3333 ms timer fires: the splash stops animating and schedules the completion callback. */
    method AnimationTimeout()
      requires Valid()
      modifies this
      ensures Valid()
      ensures old(timerPending) ==> !isAnimating && !timerPending && completionPending
      ensures !old(timerPending) ==>
                isAnimating == old(isAnimating) && !timerPending && completionPending == old(completionPending)
      ensures progress == old(progress) && ticks == old(ticks) && intervalActive == old(intervalActive)
    {
      if timerPending {
        isAnimating := false;
        timerPending := false;
        completionPending := true;
      }
    }

    /** The 333 ms timeout fires: `onAnimationComplete` is called when it was scheduled. */
    method CompletionTimeout() returns (callback: bool)
      requires Valid()
      modifies this
      ensures Valid()
      ensures callback == old(completionPending) && !completionPending
      ensures progress == old(progress) && ticks == old(ticks) && intervalActive == old(intervalActive)
      ensures isAnimating == old(isAnimating) && timerPending == old(timerPending)
    {
      callback := completionPending;
      completionPending := false;
    }

    /** Unmounting clears the interval and the 3333 ms timer, but not an already scheduled completion. */
    method Unmount()
      requires Valid()
      modifies this
      ensures Valid()
      ensures !intervalActive && !timerPending
      ensures progress == old(progress) && ticks == old(ticks) && isAnimating == old(isAnimating)
      ensures completionPending == old(completionPending)
    {
      intervalActive := false;
      timerPending := false;
    }
  }

  // ---------------------------------------------------------------------------
  // generateLeaves
  // ---------------------------------------------------------------------------

  const LeafCount := 30

  datatype LeafIcon = OakLeaf | MapleLeaf

  const LeafIcons: seq<LeafIcon> := [OakLeaf, MapleLeaf]
  const LeafColors: seq<string> := [Theme.Primary, Theme.Highlight, Theme.Secondary]

  /** A leaf; `leftPercent` is the number rendered as the `left` percentage. */
  datatype LeafItem = LeafItem(
    id: int, top: string, leftPercent: real, delay: real, duration: real,
    size: real, rotate: real, icon: LeafIcon, color: string)

  /** The seven `Math.random()` draws one leaf consumes, in the order the source makes them. */
  datatype LeafDraws = LeafDraws(
    left: real, delay: real, duration: real, size: real, rotate: real, icon: real, color: real)

  predicate ValidLeafDraws(d: LeafDraws) {
    IsUnitDraw(d.left) && IsUnitDraw(d.delay) && IsUnitDraw(d.duration) && IsUnitDraw(d.size)
    && IsUnitDraw(d.rotate) && IsUnitDraw(d.icon) && IsUnitDraw(d.color)
  }

  /** `Math.floor(r * n)`: an index into an array of length `n`. */
  function PickIndex(r: real, n: nat): (k: nat)
    requires IsUnitDraw(r) && n > 0
    ensures k < n
  {
    UnitScaleBelow(r, n as real, r * (n as real));
    (r * (n as real)).Floor
  }

  function NewLeaf(i: int, d: LeafDraws): LeafItem
    requires ValidLeafDraws(d)
  {
    LeafItem(
      i, "-50px", d.left * 100.0, d.delay * 1.33, 1.67 + d.duration * 2.67,
      20.0 + d.size * 50.0, d.rotate * 360.0,
      LeafIcons[PickIndex(d.icon, |LeafIcons|)], LeafColors[PickIndex(d.color, |LeafColors|)])
  }

  /** The ranges every leaf lies in, whatever the draws. */
  predicate LeafInRange(leaf: LeafItem) {
    leaf.top == "-50px"
    && 0.0 <= leaf.leftPercent < 100.0
    && 0.0 <= leaf.delay < 1.33
    && 1.67 <= leaf.duration < 1.67 + 2.67
    && 20.0 <= leaf.size < 70.0
    && 0.0 <= leaf.rotate < 360.0
    && leaf.icon in LeafIcons
    && leaf.color in LeafColors
  }

  lemma NewLeafInRange(i: int, d: LeafDraws)
    requires ValidLeafDraws(d)
    ensures NewLeaf(i, d).id == i
    ensures LeafInRange(NewLeaf(i, d))
  {
    UnitScaleBelow(d.left, 100.0, d.left * 100.0);
    UnitScaleBelow(d.delay, 1.33, d.delay * 1.33);
    UnitScaleBelow(d.duration, 2.67, d.duration * 2.67);
    UnitScaleBelow(d.size, 50.0, d.size * 50.0);
    UnitScaleBelow(d.rotate, 360.0, d.rotate * 360.0);
  }

  /** The loop of `generateLeaves`: leaf `i` is built from the `i`-th group of draws. */
  method GenerateLeaves(draws: seq<LeafDraws>) returns (leaves: seq<LeafItem>)
    requires |draws| == LeafCount
    requires forall k :: 0 <= k < |draws| ==> ValidLeafDraws(draws[k])
    ensures |leaves| == LeafCount
    ensures forall k :: 0 <= k < |leaves| ==> leaves[k].id == k && LeafInRange(leaves[k])
    ensures forall k :: 0 <= k < |leaves| ==> leaves[k] == NewLeaf(k, draws[k])
  {
    leaves := [];
    for i := 0 to LeafCount
      invariant |leaves| == i
      invariant forall k :: 0 <= k < i ==> leaves[k] == NewLeaf(k, draws[k])
      invariant forall k :: 0 <= k < i ==> leaves[k].id == k && LeafInRange(leaves[k])
    {
      var leaf := NewLeaf(i, draws[i]);
      NewLeafInRange(i, draws[i]);
      leaves := leaves + [leaf];
    }
  }
}
