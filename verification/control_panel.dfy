/**
 * The composer's control panel: slider handlers that write one axis of the overlay's position or
 * rotation, or its scale, into the composer state, the reset and share buttons, and the
 * condition that would disable the share button.
 */
module ControlPanel {
  import opened Scene
  import opened ARContext

  /** The panel, bound to the composer state it reads and writes through `useAR()`. */
  class Panel {
    const ar: Composer

    constructor(ar: Composer)
      ensures this.ar == ar
    {
      this.ar := ar;
    }

    /**
     * `handlePositionChange(axis, value)`: the position's `axis` component becomes the slider's
     * first value; the other two components and every other cell are unchanged.
     */
    method HandlePositionChange(axis: Axis, value: seq<Num>)
      requires |value| > 0
      modifies ar
      ensures ar.State() == old(ar.State()).(overlayPosition := WithAxis(old(ar.overlayPosition), axis, value[0]))
      ensures Component(ar.overlayPosition, axis) == value[0]
      ensures forall b: Axis | b != axis :: Component(ar.overlayPosition, b) == Component(old(ar.overlayPosition), b)
    {
      ar.SetOverlayPosition(WithAxis(ar.overlayPosition, axis, value[0]));
    }

    /**
     * `handleRotationChange(axis, value)`: the rotation's `axis` component becomes the slider's
     * first value; the other two components and every other cell are unchanged.
     */
    method HandleRotationChange(axis: Axis, value: seq<Num>)
      requires |value| > 0
      modifies ar
      ensures ar.State() == old(ar.State()).(overlayRotation := WithAxis(old(ar.overlayRotation), axis, value[0]))
      ensures Component(ar.overlayRotation, axis) == value[0]
      ensures forall b: Axis | b != axis :: Component(ar.overlayRotation, b) == Component(old(ar.overlayRotation), b)
    {
      ar.SetOverlayRotation(WithAxis(ar.overlayRotation, axis, value[0]));
    }

    /** `handleScaleChange(value)`: the scale becomes the slider's first value, as given. */
    method HandleScaleChange(value: seq<Num>)
      requires |value| > 0
      modifies ar
      ensures ar.State() == old(ar.State()).(overlayScale := value[0])
    {
      ar.SetOverlayScale(value[0]);
    }

    /** `handleReset`: exactly `resetAR`. */
    method HandleReset()
      modifies ar
      ensures ar.State() == Initial
    {
      ar.ResetAR();
    }

    /** `handleShare`: sharing is switched on and nothing else changes. */
    method HandleShare()
      modifies ar
      ensures ar.State() == old(ar.State()).(shareEnabled := true)
    {
      ar.SetShareEnabled(true);
    }
  }

  /**
   * The "Generate QR" button's `disabled` condition, `!shareEnabled && (!position || !rotation)`.
   * Position and rotation are always objects, and objects are truthy, so it is always false.
   */
  function ShareDisabled(s: ComposerState): (disabled: bool)
    ensures !disabled
  {
    // Both are `{ x, y, z }` objects, and every object is truthy in JavaScript.
    var positionTruthy, rotationTruthy := true, true;
    !s.shareEnabled && (!positionTruthy || !rotationTruthy)
  }
}
