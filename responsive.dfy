/** Viewport classification and adaptive window placement
    (src/hooks/useResponsive.ts). Viewport widths and heights are whole
    pixels; computed positions are exact rationals. */
module Responsive {
  import opened Util
  import opened Strings

  datatype Orientation = Portrait | Landscape

  /** What useResponsive reports about the viewport. */
  datatype ResponsiveState = ResponsiveState(
    isMobile: bool,
    isTablet: bool,
    isDesktop: bool,
    screenWidth: int,
    screenHeight: int,
    orientation: Orientation,
    touchDevice: bool)

  /** The viewport as the browser reports it: inner size and touch support. */
  datatype Viewport = Viewport(width: int, height: int, touch: bool)

  const MobileBelow: int := 768
  const DesktopFrom: int := 1024

  /** The state derived from one viewport reading. */
  function Measure(v: Viewport): (r: ResponsiveState)
    ensures r.screenWidth == v.width && r.screenHeight == v.height && r.touchDevice == v.touch
    ensures (r.isMobile && !r.isTablet && !r.isDesktop)
         || (!r.isMobile && r.isTablet && !r.isDesktop)
         || (!r.isMobile && !r.isTablet && r.isDesktop)
    ensures r.isMobile <==> v.width < MobileBelow
    ensures r.isDesktop <==> v.width >= DesktopFrom
    ensures r.orientation == Portrait <==> v.height > v.width
  {
    ResponsiveState(
      v.width < 768,
      v.width >= 768 && v.width < 1024,
      v.width >= 1024,
      v.width,
      v.height,
      if v.height > v.width then Portrait else Landscape,
      v.touch)
  }

  /** The first state: the live viewport, or a 1024 by 768 non-touch screen when
      there is no window object. */
  function InitialState(window: Option<Viewport>): (r: ResponsiveState)
    ensures window.Some? ==> r == Measure(window.value)
    ensures window.None? ==> r.isDesktop && r.orientation == Landscape && !r.touchDevice
  {
    match window
    case Some(v) => Measure(v)
    case None => Measure(Viewport(1024, 768, false))
  }

  /** A square viewport counts as landscape. */
  lemma {:induction false} SquareIsLandscape(side: int, touch: bool)
    ensures Measure(Viewport(side, side, touch)).orientation == Landscape
  {
  }

  // ------------------------------------------------------------ breakpoints

  datatype Breakpoint = Sm | Md | Lg | Xl | Xxl

  function Threshold(b: Breakpoint): (t: int)
    ensures 640 <= t <= 1536
  {
    match b
    case Sm => 640
    case Md => 768
    case Lg => 1024
    case Xl => 1280
    case Xxl => 1536
  }

  /** The breakpoints' order from smallest to largest. */
  function Rank(b: Breakpoint): (k: nat)
    ensures k < 5
  {
    match b
    case Sm => 0
    case Md => 1
    case Lg => 2
    case Xl => 3
    case Xxl => 4
  }

  /** useBreakpoint: the screen is at least as wide as the breakpoint. */
  function UseBreakpoint(screenWidth: int, b: Breakpoint): (reached: bool)
    ensures reached ==> screenWidth >= 640
    ensures screenWidth >= 1536 ==> reached
    ensures b == Sm ==> (reached <==> screenWidth >= 640)
    ensures b == Xxl ==> (reached <==> screenWidth >= 1536)
  {
    screenWidth >= Threshold(b)
  }

  /** The thresholds ascend with the rank. */
  lemma {:induction false} ThresholdsAscend(a: Breakpoint, b: Breakpoint)
    requires Rank(a) < Rank(b)
    ensures Threshold(a) < Threshold(b)
  {
  }

  /** Reaching a breakpoint means reaching every smaller one. */
  lemma {:induction false} BreakpointMonotone(a: Breakpoint, b: Breakpoint, screenWidth: int)
    requires Rank(a) <= Rank(b) && UseBreakpoint(screenWidth, b)
    ensures UseBreakpoint(screenWidth, a)
  {
    if Rank(a) < Rank(b) {
      ThresholdsAscend(a, b);
    }
  }

  /** The md and lg breakpoints are the mobile and desktop boundaries of the classification. */
  lemma {:induction false} BreakpointsMatchClasses(v: Viewport)
    ensures UseBreakpoint(v.width, Md) <==> !Measure(v).isMobile
    ensures UseBreakpoint(v.width, Lg) <==> Measure(v).isDesktop
    ensures UseBreakpoint(v.width, Md) && !UseBreakpoint(v.width, Lg) <==> Measure(v).isTablet
  {
  }

  // -------------------------------------------------------- mobile features

  datatype WindowSize = WindowSize(width: int, height: int)

  datatype MobileFeatures = MobileFeatures(
    base: ResponsiveState,
    isSmallMobile: bool,
    isLargeMobile: bool,
    shouldUseFullscreen: bool,
    shouldHideResizeHandles: bool,
    preferredWindowSize: WindowSize,
    supportsPinchZoom: bool,
    supportsHover: bool)

  /** useMobileFeatures: the state plus the flags derived from it. */
  function MobileFeaturesOf(r: ResponsiveState): (m: MobileFeatures)
    ensures m.base == r
    ensures m.shouldUseFullscreen == r.isMobile && m.shouldHideResizeHandles == r.isMobile
    ensures m.supportsPinchZoom == r.touchDevice && m.supportsHover != r.touchDevice
    ensures r.isMobile ==> m.preferredWindowSize == WindowSize(r.screenWidth - 20, r.screenHeight - 60)
    ensures !r.isMobile ==> m.preferredWindowSize == WindowSize(800, 600)
  {
    MobileFeatures(
      r,
      r.screenWidth < 480,
      r.screenWidth >= 480 && r.screenWidth < 768,
      r.isMobile,
      r.isMobile,
      if r.isMobile then WindowSize(r.screenWidth - 20, r.screenHeight - 60) else WindowSize(800, 600),
      r.touchDevice,
      !r.touchDevice)
  }

  /** Small and large phones are disjoint and together are exactly the mobile widths. */
  lemma {:induction false} MobileSplitsInTwo(v: Viewport)
    ensures var m := MobileFeaturesOf(Measure(v));
      && !(m.isSmallMobile && m.isLargeMobile)
      && (m.isSmallMobile || m.isLargeMobile <==> m.base.isMobile)
  {
  }

  /** On a phone the preferred window leaves a 20-pixel margin across and 60 down. */
  lemma {:induction false} PreferredSizeFitsPhone(v: Viewport)
    requires v.width < 768
    ensures var s := MobileFeaturesOf(Measure(v)).preferredWindowSize;
      s.width + 20 == v.width && s.height + 60 == v.height
  {
  }

  // ------------------------------------------------------------- placement

  datatype Point = Point(x: real, y: real)

  function RMin(a: real, b: real): (r: real)
    ensures r <= a && r <= b && (r == a || r == b)
  {
    if a <= b then a else b
  }

  function RMax(a: real, b: real): (r: real)
    ensures r >= a && r >= b && (r == a || r == b)
  {
    if a >= b then a else b
  }

  /** parseInt(id.slice(-1)) || 0: the last character's digit, or 0 when the
      id is empty or ends in a non-digit. */
  function LastDigit(id: string): (d: int)
    ensures 0 <= d <= 9
    ensures id != [] && IsDigit(id[|id| - 1]) ==> d == DigitValue(id[|id| - 1])
    ensures id == [] || !IsDigit(id[|id| - 1]) ==> d == 0
  {
    if id != [] && IsDigit(id[|id| - 1]) then DigitValue(id[|id| - 1]) else 0
  }

  /** The cascade offset of a window: 50 pixels plus 30 per digit. */
  function CascadeOffset(id: string): (o: int)
    ensures 50 <= o <= 320 && (o - 50) % 30 == 0
  {
    50 + LastDigit(id) * 30
  }

  /** getOptimalPosition. On a phone: centred across but at least 10 from the
      left, and a tenth of the screen down but at most 60. Elsewhere: the
      cascade offset, pulled back so that the window ends 50 pixels short of
      the right and bottom edges. */
  function OptimalPosition(r: ResponsiveState, windowId: string, size: WindowSize): (p: Point)
    ensures r.isMobile ==> p.x >= 10.0 && p.x >= (r.screenWidth - size.width) as real / 2.0
    ensures r.isMobile ==> p.x == 10.0 || p.x == (r.screenWidth - size.width) as real / 2.0
    ensures r.isMobile ==> p.y <= 60.0
    ensures r.isMobile && r.screenHeight <= 600 ==> p.y == r.screenHeight as real / 10.0
    ensures r.isMobile && r.screenHeight > 600 ==> p.y == 60.0
    ensures !r.isMobile ==> p.x <= CascadeOffset(windowId) as real && p.y <= CascadeOffset(windowId) as real
    ensures !r.isMobile ==> p.x + size.width as real <= (r.screenWidth - 50) as real
    ensures !r.isMobile ==> p.y + size.height as real <= (r.screenHeight - 50) as real
    ensures !r.isMobile ==> p.x == (Min(CascadeOffset(windowId), r.screenWidth - size.width - 50)) as real
    ensures !r.isMobile ==> p.y == (Min(CascadeOffset(windowId), r.screenHeight - size.height - 50)) as real
  {
    if r.isMobile then
      Point(RMax(10.0, (r.screenWidth - size.width) as real / 2.0), RMin(60.0, r.screenHeight as real * 0.1))
    else
      var offset := CascadeOffset(windowId);
      Point(Min(offset, r.screenWidth - size.width - 50) as real,
            Min(offset, r.screenHeight - size.height - 50) as real)
  }

  /** When a phone screen is at least 20 pixels wider than the window, the
      window is centred horizontally. */
  lemma {:induction false} PhoneWindowCentred(r: ResponsiveState, windowId: string, size: WindowSize)
    requires r.isMobile && r.screenWidth - size.width >= 20
    ensures var p := OptimalPosition(r, windowId, size);
      p.x + size.width as real / 2.0 == r.screenWidth as real / 2.0
  {
  }

  /** On a large enough desktop screen the window sits exactly at its cascade
      offset, and windows whose ids end in consecutive digits are 30 pixels apart. */
  lemma {:induction false} DesktopCascade(r: ResponsiveState, id1: string, id2: string, size: WindowSize)
    requires !r.isMobile
    requires r.screenWidth - size.width - 50 >= 320 && r.screenHeight - size.height - 50 >= 320
    requires LastDigit(id2) == LastDigit(id1) + 1
    ensures OptimalPosition(r, id1, size) == Point(CascadeOffset(id1) as real, CascadeOffset(id1) as real)
    ensures OptimalPosition(r, id2, size).x == OptimalPosition(r, id1, size).x + 30.0
    ensures OptimalPosition(r, id2, size).y == OptimalPosition(r, id1, size).y + 30.0
  {
  }

  /** getConstrainedPosition: each coordinate at most screen minus window, then at least 0. */
  function ConstrainedPosition(r: ResponsiveState, position: Point, size: WindowSize): (p: Point)
    ensures p.x >= 0.0 && p.y >= 0.0
    ensures size.width <= r.screenWidth ==> p.x + size.width as real <= r.screenWidth as real
    ensures size.height <= r.screenHeight ==> p.y + size.height as real <= r.screenHeight as real
    ensures 0.0 <= position.x && position.x + size.width as real <= r.screenWidth as real ==> p.x == position.x
    ensures 0.0 <= position.y && position.y + size.height as real <= r.screenHeight as real ==> p.y == position.y
  {
    Point(RMax(0.0, RMin(position.x, (r.screenWidth - size.width) as real)),
          RMax(0.0, RMin(position.y, (r.screenHeight - size.height) as real)))
  }

  /** Constraining twice is the same as constraining once. */
  lemma {:induction false} ConstrainIdempotent(r: ResponsiveState, position: Point, size: WindowSize)
    ensures var p := ConstrainedPosition(r, position, size);
      ConstrainedPosition(r, p, size) == p
  {
  }

  /** A window larger than the screen is pinned to the top-left corner. */
  lemma {:induction false} OversizedPinnedToCorner(r: ResponsiveState, position: Point, size: WindowSize)
    requires size.width > r.screenWidth && size.height > r.screenHeight
    ensures ConstrainedPosition(r, position, size) == Point(0.0, 0.0)
  {
  }
}
