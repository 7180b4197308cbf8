/** PlacementCalculator: the top-left corner `update_position` gives the clock
    window (app3.py:170-216, app4.py:150-187). Everything is integer; the
    float estimate of app3.py:193-196 is written in its exact integer form. */
module Placement {

  const SideMargin: int := 10
  const TaskbarMargin: int := 40

  /** The corner used for a mode the table does not list. */
  const FallbackX: int := 50
  const FallbackY: int := 50

  /** `len("00:00:00 AM")`, the text width the estimate assumes. */
  const EstimateChars: int := 11

  /** The screen size and the window's requested size as Tk reports them. */
  datatype Metrics = Metrics(screenWidth: int, screenHeight: int, reqWidth: int, reqHeight: int)

  /** A corner, or the `ValueError` that `max()` of no font sizes raises. */
  datatype Spot = At(x: int, y: int) | EmptyMax

  predicate NamedMode(mode: string) {
    mode == "topleft" || mode == "topright" || mode == "bottomleft" ||
    mode == "bottomright" || mode == "center"
  }

  function Max(s: seq<int>): (m: int)
    requires |s| > 0
    ensures exists i :: 0 <= i < |s| && s[i] == m
    ensures forall i :: 0 <= i < |s| ==> s[i] <= m
  {
    if |s| == 1 then s[0]
    else
      var rest := Max(s[1..]);
      assert forall i :: 1 <= i < |s| ==> s[i] == s[1..][i - 1];
      if s[0] >= rest then s[0] else rest
  }

  function Sum(s: seq<int>): int {
    if s == [] then 0 else s[0] + Sum(s[1..])
  }

  /** Python's `int()` of `n / 10`: the quotient truncated toward zero. */
  function TruncTenth(n: int): (q: int)
    ensures 0 <= n ==> 10 * q <= n < 10 * q + 10
    ensures n < 0 ==> 10 * q - 10 < n <= 10 * q
  {
    if n >= 0 then n / 10 else -((-n) / 10)
  }

  /** `int(11 * max(font sizes) * 0.6)`. */
  function EstimatedWidth(sizes: seq<int>): int
    requires |sizes| > 0
  {
    TruncTenth(EstimateChars * 6 * Max(sizes))
  }

  /** `int(sum(2 * size * 1.5))`. */
  function EstimatedHeight(sizes: seq<int>): int {
    3 * Sum(sizes)
  }

  /** The `positions` dictionary and its `.get(mode, (50, 50))`. */
  function Corner(mode: string, screenW: int, screenH: int, w: int, h: int): (int, int) {
    if mode == "topleft" then (SideMargin, SideMargin)
    else if mode == "topright" then (screenW - w - SideMargin, SideMargin)
    else if mode == "bottomleft" then (SideMargin, screenH - h - TaskbarMargin)
    else if mode == "bottomright" then (screenW - w - SideMargin, screenH - h - TaskbarMargin)
    else if mode == "center" then ((screenW - w) / 2, (screenH - h) / 2)
    else (FallbackX, FallbackY)
  }

  /** The content size placement works with: the measured one, or the estimate
      for both dimensions when either measurement is at most 1. */
  predicate Unmeasured(m: Metrics) {
    m.reqWidth <= 1 || m.reqHeight <= 1
  }

  /** `update_position`: custom mode returns the stored coordinates; any other
      mode looks the corner up for the (measured or estimated) content size. */
  function Place(mode: string, customX: int, customY: int, m: Metrics, sizes: seq<int>): Spot {
    if mode == "custom" then At(customX, customY)
    else if Unmeasured(m) then
      if sizes == [] then EmptyMax
      else
        var c := Corner(mode, m.screenWidth, m.screenHeight, EstimatedWidth(sizes), EstimatedHeight(sizes));
        At(c.0, c.1)
    else
      var c := Corner(mode, m.screenWidth, m.screenHeight, m.reqWidth, m.reqHeight);
      At(c.0, c.1)
  }

  /** What each named corner means: the window's edges keep the side margin
      from the screen's edges and the taskbar margin from its bottom; center
      leaves equal gaps up to the one pixel integer division drops. */
  lemma CornerMargins(mode: string, screenW: int, screenH: int, w: int, h: int)
    ensures var (x, y) := Corner(mode, screenW, screenH, w, h);
      (mode == "topleft" ==> x == SideMargin && y == SideMargin) &&
      (mode == "topright" ==> screenW - (x + w) == SideMargin && y == SideMargin) &&
      (mode == "bottomleft" ==> x == SideMargin && screenH - (y + h) == TaskbarMargin) &&
      (mode == "bottomright" ==> screenW - (x + w) == SideMargin && screenH - (y + h) == TaskbarMargin) &&
      (mode == "center" ==> 0 <= (screenW - w - x) - x <= 1 && 0 <= (screenH - h - y) - y <= 1) &&
      (!NamedMode(mode) ==> x == FallbackX && y == FallbackY)
  {
  }

  /** Custom mode ignores the screen and the content entirely. */
  lemma CustomIgnoresMetrics(customX: int, customY: int, m1: Metrics, m2: Metrics, s1: seq<int>, s2: seq<int>)
    ensures Place("custom", customX, customY, m1, s1) == Place("custom", customX, customY, m2, s2)
    ensures Place("custom", customX, customY, m1, s1) == At(customX, customY)
  {
  }

  /** Placement fails exactly when it has to estimate from no zones; when it
      estimates, both dimensions come from the font sizes and the measured
      ones play no part. */
  lemma EstimateRule(mode: string, customX: int, customY: int, m: Metrics, sizes: seq<int>)
    ensures Place(mode, customX, customY, m, sizes) == EmptyMax <==>
              mode != "custom" && Unmeasured(m) && sizes == []
    ensures mode != "custom" && Unmeasured(m) && sizes != [] ==>
              forall w, h :: w <= 1 || h <= 1 ==>
                Place(mode, customX, customY, Metrics(m.screenWidth, m.screenHeight, w, h), sizes) ==
                Place(mode, customX, customY, m, sizes)
  {
  }

  /** The estimate's width is 6.6 times the largest font size, truncated, and
      its height three times the sum of the font sizes. */
  lemma EstimateSize(sizes: seq<int>)
    requires |sizes| > 0 && Max(sizes) >= 0
    ensures 10 * EstimatedWidth(sizes) <= 66 * Max(sizes) < 10 * EstimatedWidth(sizes) + 10
  {
  }

  /** With positive font sizes the estimated height grows by at least three
      pixels per zone. */
  lemma {:induction false} SumOfPositiveAtLeastCount(sizes: seq<int>)
    requires forall i :: 0 <= i < |sizes| ==> sizes[i] > 0
    ensures EstimatedHeight(sizes) >= 3 * |sizes|
  {
    if sizes != [] {
      assert forall i :: 0 <= i < |sizes[1..]| ==> sizes[1..][i] == sizes[i + 1];
      SumOfPositiveAtLeastCount(sizes[1..]);
    }
  }

  /** A 1920x1080 screen with a 200x80 clock. */
  lemma WorkedExample()
    ensures var m := Metrics(1920, 1080, 200, 80);
      Place("topleft", 0, 0, m, [12]) == At(10, 10) &&
      Place("topright", 0, 0, m, [12]) == At(1710, 10) &&
      Place("bottomleft", 0, 0, m, [12]) == At(10, 960) &&
      Place("bottomright", 0, 0, m, [12]) == At(1710, 960) &&
      Place("center", 0, 0, m, [12]) == At(860, 500) &&
      Place("custom", 300, 400, m, [12]) == At(300, 400)
  {
  }
}
