/**
 * The scroll-reveal hook (src/hooks/useScrollAnimation.tsx).
 *
 * The hook owns an `isVisible` flag that starts false. While an element is
 * attached, an intersection observer watches it, and the first entry that
 * reports the element as intersecting sets the flag; nothing ever clears it.
 * Observer entries arrive here as explicit calls.
 */
module ScrollAnimation {
  import opened Wrappers

  const DefaultThreshold := 0.2
  const DefaultRootMargin := "0px"

  /** The options object with the defaults filled in for missing fields. */
  datatype Options = Options(threshold: real, rootMargin: string)

  function ResolveOptions(threshold: Option<real>, rootMargin: Option<string>): (o: Options)
    ensures threshold.None? ==> o.threshold == DefaultThreshold
    ensures threshold.Some? ==> o.threshold == threshold.value
    ensures rootMargin.None? ==> o.rootMargin == DefaultRootMargin
    ensures rootMargin.Some? ==> o.rootMargin == rootMargin.value
  {
    Options(
      if threshold.Some? then threshold.value else DefaultThreshold,
      if rootMargin.Some? then rootMargin.value else DefaultRootMargin)
  }

  /** The flag after a run of entries (true for an intersecting one), starting from `visible`. */
  function VisibleAfter(visible: bool, entries: seq<bool>): bool
    decreases entries
  {
    if entries == [] then visible
    else VisibleAfter(visible || entries[0], entries[1..])
  }

  /** From the initial false, the flag is set exactly when some entry intersected. */
  lemma {:induction false} VisibleIffSomeIntersecting(visible: bool, entries: seq<bool>)
    ensures VisibleAfter(visible, entries) <==> visible || exists k :: 0 <= k < |entries| && entries[k]
    decreases entries
  {
    if entries != [] {
      VisibleIffSomeIntersecting(visible || entries[0], entries[1..]);
      if exists k :: 0 <= k < |entries[1..]| && entries[1..][k] {
        var k :| 0 <= k < |entries[1..]| && entries[1..][k];
        assert entries[k + 1];
      }
      if exists k :: 0 <= k < |entries| && entries[k] {
        var k :| 0 <= k < |entries| && entries[k];
        if k > 0 {
          assert entries[1..][k - 1];
        }
      }
    }
  }

  /** Once set, the flag stays set whatever entries follow. */
  lemma {:induction false} VisibleStaysVisible(entries: seq<bool>)
    ensures VisibleAfter(true, entries)
  {
    if entries != [] {
      VisibleStaysVisible(entries[1..]);
    }
  }

  class ScrollReveal {
    const options: Options
    /** `ref.current` is set: an element is attached. */
    var attached: bool
    /** An observer is watching the attached element. */
    var observing: bool
    var isVisible: bool

    ghost predicate Valid()
      reads this
    {
      observing ==> attached
    }

    /** The hook's first render, before its effect runs. */
    constructor (threshold: Option<real>, rootMargin: Option<string>, attached: bool)
      ensures Valid()
      ensures options == ResolveOptions(threshold, rootMargin)
      ensures this.attached == attached && !observing && !isVisible
    {
      options := ResolveOptions(threshold, rootMargin);
      this.attached := attached;
      observing := false;
      isVisible := false;
    }

    /**
     * The effect, run after mounting and after every change of `isVisible`:
     * the previous observer (if any) stops, and a new one starts only when an
     * element is attached.
     */
    method RunEffect()
      requires Valid()
      modifies this`observing
      ensures Valid()
      ensures observing == attached
    {
      observing := attached;
    }

    /** The cleanup on unmount unobserves the element. */
    method Cleanup()
      requires Valid()
      modifies this`observing
      ensures Valid()
      ensures !observing
    {
      observing := false;
    }

    /** An observer entry: an intersecting one sets the flag; nothing clears it. */
    method OnEntry(isIntersecting: bool)
      requires Valid()
      modifies this`isVisible
      ensures Valid()
      ensures isVisible == (old(isVisible) || (observing && isIntersecting))
      ensures isVisible == VisibleAfter(old(isVisible), [observing && isIntersecting])
    {
      if observing && isIntersecting && !isVisible {
        isVisible := true;
      }
    }
  }
}
