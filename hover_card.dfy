/**
 * The tilting card (src/components/shared/HoverCard.tsx).
 *
 * On a pointer move the card tilts away from the pointer: the rotation about
 * each axis is the pointer's offset from the card centre, as a fraction of
 * half the card's size, times the `intensity` prop. A highlight follows the
 * pointer. Leaving the card flattens it and hides the highlight. The card's
 * bounding rectangle, a DOM measurement, is passed in.
 */
module HoverCard {
  import opened Wrappers
  import opened RealMath

  const DefaultIntensity := 10.0
  /** The intensity the project cards pass. */
  const ProjectCardIntensity := 5.0

  datatype Tilt = Tilt(rotateX: real, rotateY: real)

  /** The angles `handleMouseMove` computes for a pointer at (relX, relY) inside a w-by-h card. */
  function TiltAngles(relX: real, relY: real, w: real, h: real, intensity: real): Tilt
    requires w > 0.0 && h > 0.0
  {
    var centerX := w / 2.0;
    var centerY := h / 2.0;
    Tilt((relY - centerY) / (h / 2.0) * intensity, (centerX - relX) / (w / 2.0) * intensity)
  }

  /** The pointer at the centre leaves the card flat. */
  lemma CentreIsFlat(w: real, h: real, intensity: real)
    requires w > 0.0 && h > 0.0
    ensures TiltAngles(w / 2.0, h / 2.0, w, h, intensity) == Tilt(0.0, 0.0)
  {
  }

  /** The offset from the centre over the half size: in [-1, 1] for a position inside the span. */
  lemma OffsetFraction(pos: real, size: real)
    requires size > 0.0 && 0.0 <= pos <= size
    ensures -1.0 <= (pos - size / 2.0) / (size / 2.0) <= 1.0
  {
    var half := size / 2.0;
    var t := (pos - half) / half;
    assert t * half == pos - half;
  }

  lemma ScaleFraction(t: real, intensity: real)
    requires -1.0 <= t <= 1.0
    ensures -Abs(intensity) <= t * intensity <= Abs(intensity)
  {
    var a := Abs(intensity);
    assert (1.0 - t) * a >= 0.0;
    assert (1.0 + t) * a >= 0.0;
    if intensity < 0.0 {
      assert t * intensity == -(t * a);
    }
  }

  /** For a pointer inside the card, both angles lie within the intensity. */
  lemma TiltBounded(relX: real, relY: real, w: real, h: real, intensity: real)
    requires w > 0.0 && h > 0.0
    requires 0.0 <= relX <= w && 0.0 <= relY <= h
    ensures -Abs(intensity) <= TiltAngles(relX, relY, w, h, intensity).rotateX <= Abs(intensity)
    ensures -Abs(intensity) <= TiltAngles(relX, relY, w, h, intensity).rotateY <= Abs(intensity)
  {
    OffsetFraction(relY, h);
    ScaleFraction((relY - h / 2.0) / (h / 2.0), intensity);
    OffsetFraction(relX, w);
    var tx := (relX - w / 2.0) / (w / 2.0);
    assert (w / 2.0 - relX) / (w / 2.0) == -tx;
    ScaleFraction(-tx, intensity);
  }

  /** The top edge tilts by -intensity about X, the left edge by +intensity about Y; the far edges by the opposite. */
  lemma TiltAtEdges(w: real, h: real, intensity: real, relX: real, relY: real)
    requires w > 0.0 && h > 0.0
    ensures TiltAngles(relX, 0.0, w, h, intensity).rotateX == -intensity
    ensures TiltAngles(relX, h, w, h, intensity).rotateX == intensity
    ensures TiltAngles(0.0, relY, w, h, intensity).rotateY == intensity
    ensures TiltAngles(w, relY, w, h, intensity).rotateY == -intensity
  {
    assert (0.0 - h / 2.0) / (h / 2.0) == -1.0;
    assert (h - h / 2.0) / (h / 2.0) == 1.0;
    assert (w / 2.0 - 0.0) / (w / 2.0) == 1.0;
    assert (w / 2.0 - w) / (w / 2.0) == -1.0;
  }

  class TiltCard {
    const intensity: real
    /** `cardRef.current` is set. */
    var attached: bool
    var rotateX: real
    var rotateY: real
    var mouseX: real
    var mouseY: real
    var highlightOpacity: real

    constructor (intensity: Option<real>, attached: bool)
      ensures this.intensity == (if intensity.Some? then intensity.value else DefaultIntensity)
      ensures this.attached == attached
      ensures rotateX == 0.0 && rotateY == 0.0 && mouseX == 0.0 && mouseY == 0.0 && highlightOpacity == 0.0
    {
      this.intensity := if intensity.Some? then intensity.value else DefaultIntensity;
      this.attached := attached;
      rotateX, rotateY, mouseX, mouseY, highlightOpacity := 0.0, 0.0, 0.0, 0.0, 0.0;
    }

    /** `handleMouseMove` with the pointer at (clientX, clientY) and the card's bounding rectangle. */
    method HandleMouseMove(clientX: real, clientY: real, left: real, top: real, width: real, height: real)
      requires attached ==> width > 0.0 && height > 0.0
      modifies this
      ensures attached == old(attached)
      ensures !attached ==>
                rotateX == old(rotateX) && rotateY == old(rotateY) && mouseX == old(mouseX)
                && mouseY == old(mouseY) && highlightOpacity == old(highlightOpacity)
      ensures attached ==>
                Tilt(rotateX, rotateY) == TiltAngles(clientX - left, clientY - top, width, height, intensity)
                && mouseX == clientX - left && mouseY == clientY - top && highlightOpacity == 1.0
    {
      if !attached {
        return;
      }
      var relX := clientX - left;
      var relY := clientY - top;
      var tilt := TiltAngles(relX, relY, width, height, intensity);
      rotateX, rotateY := tilt.rotateX, tilt.rotateY;
      mouseX, mouseY := relX, relY;
      highlightOpacity := 1.0;
    }

    /** `handleMouseLeave`: flat again and no highlight; the highlight keeps its last position. */
    method HandleMouseLeave()
      modifies this
      ensures rotateX == 0.0 && rotateY == 0.0 && highlightOpacity == 0.0
      ensures mouseX == old(mouseX) && mouseY == old(mouseY) && attached == old(attached)
    {
      rotateX, rotateY := 0.0, 0.0;
      highlightOpacity := 0.0;
    }
  }
}
