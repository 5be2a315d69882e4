/** The screen-dimensions hook: the window's size classified into a width
    breakpoint and an orientation. The window size and the two safe-area
    insets are read from the host and are parameters here. */
module ScreenDimensions {

  datatype Dimensions = Dimensions(
    width: int, height: int,
    isSmallScreen: bool, isMediumScreen: bool, isLargeScreen: bool,
    isPortrait: bool, isLandscape: bool,
    safeAreaTop: int, safeAreaBottom: int)

  /** The record both the initial state and `updateDimensions` build. */
  function Measure(width: int, height: int, safeAreaTop: int, safeAreaBottom: int): (d: Dimensions)
    ensures d.width == width && d.height == height
    ensures d.isSmallScreen <==> width < 640
    ensures d.isMediumScreen <==> 640 <= width < 1024
    ensures d.isLargeScreen <==> width >= 1024
    ensures d.isPortrait <==> height > width
    ensures d.isLandscape <==> width > height
    ensures d.safeAreaTop == safeAreaTop && d.safeAreaBottom == safeAreaBottom
  {
    Dimensions(width, height,
      width < 640, width >= 640 && width < 1024, width >= 1024,
      height > width, width > height,
      safeAreaTop, safeAreaBottom)
  }

  /** Exactly one breakpoint holds for any width. */
  lemma ExactlyOneBreakpoint(width: int, height: int, top: int, bottom: int)
    ensures var d := Measure(width, height, top, bottom);
      (d.isSmallScreen || d.isMediumScreen || d.isLargeScreen) &&
      !(d.isSmallScreen && d.isMediumScreen) && !(d.isSmallScreen && d.isLargeScreen) &&
      !(d.isMediumScreen && d.isLargeScreen)
  {
  }

  /** Portrait and landscape never hold together; a square window is
      neither, any other window is one of them. */
  lemma Orientation(width: int, height: int, top: int, bottom: int)
    ensures var d := Measure(width, height, top, bottom);
      !(d.isPortrait && d.isLandscape) &&
      (width == height <==> !d.isPortrait && !d.isLandscape)
  {
  }

  /** Turning the window swaps portrait and landscape. */
  lemma RotationSwapsOrientation(width: int, height: int, top: int, bottom: int)
    ensures Measure(height, width, top, bottom).isPortrait == Measure(width, height, top, bottom).isLandscape
    ensures Measure(height, width, top, bottom).isLandscape == Measure(width, height, top, bottom).isPortrait
  {
  }

  /** The breakpoint never comes down as the window widens. */
  lemma BreakpointMonotone(w1: int, w2: int, h: int, top: int, bottom: int)
    requires w1 <= w2
    ensures Measure(w2, h, top, bottom).isSmallScreen ==> Measure(w1, h, top, bottom).isSmallScreen
    ensures Measure(w1, h, top, bottom).isLargeScreen ==> Measure(w2, h, top, bottom).isLargeScreen
  {
  }

  /** The hook's state. The window listeners are not modelled; each call of
      `Update` stands for one resize or orientation event. */
  class ScreenDimensionsHook {
    var dimensions: Dimensions

    /** The lazy initial state. */
    constructor (width: int, height: int, safeAreaTop: int, safeAreaBottom: int)
      ensures dimensions == Measure(width, height, safeAreaTop, safeAreaBottom)
    {
      dimensions := Measure(width, height, safeAreaTop, safeAreaBottom);
    }

    /** `updateDimensions`: the same classification as the initial state,
        of the size read now. Nothing of the previous state survives. */
    method Update(width: int, height: int, safeAreaTop: int, safeAreaBottom: int)
      modifies this
      ensures dimensions == Measure(width, height, safeAreaTop, safeAreaBottom)
    {
      dimensions := Measure(width, height, safeAreaTop, safeAreaBottom);
    }
  }
}
