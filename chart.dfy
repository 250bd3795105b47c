/**
 * The candlestick chart of the single-coin screen (drawSingle,
 * src/main.cpp:408-451) as geometry: the vertical scale taken from the
 * bars, the clamped price-to-row mapping toY, and the wick and body each
 * slot draws. Prices are reals standing for the firmware's floats.
 */
module Chart {

  import opened Screen
  import opened Market

  /** Height of the chart area in rows (chartH). */
  const CHART_H: int := CHART_BOTTOM - CHART_TOP

  /** Width of one slot (slotW = TFT_W / KCOUNT). */
  const SLOT_W: int := TFT_W / KCOUNT as int

  /** Width of a candle body (slotW - 6, never below 4). */
  const BODY_W: int := if SLOT_W - 6 < 4 then 4 else SLOT_W - 6

  /** Below this width the price range is replaced by 1. */
  const MIN_RANGE: real := 0.0001

  /** Each bound of the scale is moved out by this share of the range. */
  const PAD: real := 0.06

  /** Lowest low of the bars, kept as the firmware's scan keeps it (a new value only when strictly lower). */
  function MinLow(bars: seq<Bar>): (m: real)
    requires |bars| > 0
    ensures forall i :: 0 <= i < |bars| ==> m <= bars[i].low
    ensures exists i :: 0 <= i < |bars| && m == bars[i].low
  {
    if |bars| == 1 then bars[0].low
    else
      var m := MinLow(bars[..|bars| - 1]);
      var last := bars[|bars| - 1].low;
      assert forall i :: 0 <= i < |bars| - 1 ==> bars[..|bars| - 1][i] == bars[i];
      if last < m then last else m
  }

  /** Highest high of the bars, kept as the firmware's scan keeps it. */
  function MaxHigh(bars: seq<Bar>): (m: real)
    requires |bars| > 0
    ensures forall i :: 0 <= i < |bars| ==> bars[i].high <= m
    ensures exists i :: 0 <= i < |bars| && m == bars[i].high
  {
    if |bars| == 1 then bars[0].high
    else
      var m := MaxHigh(bars[..|bars| - 1]);
      var last := bars[|bars| - 1].high;
      assert forall i :: 0 <= i < |bars| - 1 ==> bars[..|bars| - 1][i] == bars[i];
      if last > m then last else m
  }

  /** The padded vertical scale: the top and bottom prices and their difference. */
  datatype Scale = Scale(ymin: real, ymax: real, range: real)

  /**
   * The scale drawSingle sets up from the lowest low and the highest high:
   * a range below 0.0001 is taken as 1, and both bounds move out by 6% of
   * it. The padding is the same on both sides: 0.06 each for a flat range
   * (so the padded range is 0.12, not 1), 6% of hi - lo otherwise. When
   * lo <= hi the padded range is positive and strictly encloses [lo, hi].
   */
  function PadScale(lo: real, hi: real): (s: Scale)
    ensures s.range == s.ymax - s.ymin
    ensures lo - s.ymin == s.ymax - hi
    ensures hi - lo < MIN_RANGE ==> s.range == hi - lo + 2.0 * PAD
    ensures hi - lo >= MIN_RANGE ==> s.range == (hi - lo) * (1.0 + 2.0 * PAD)
    ensures lo <= hi ==> s.range > 0.0 && s.ymin < lo && hi < s.ymax
  {
    var r0 := hi - lo;
    var r := if r0 < MIN_RANGE then 1.0 else r0;
    var ymin := lo - r * PAD;
    var ymax := hi + r * PAD;
    Scale(ymin, ymax, ymax - ymin)
  }

  /** The padded scale of the bars' lowest low and highest high. */
  function ScaleOf(bars: seq<Bar>): (s: Scale)
    requires |bars| > 0
    ensures s.range == s.ymax - s.ymin
  {
    PadScale(MinLow(bars), MaxHigh(bars))
  }

  /** The padded scale strictly encloses the lowest low and the highest high, whatever the bars. */
  lemma ScaleOfEncloses(bars: seq<Bar>)
    requires |bars| > 0
    ensures ScaleOf(bars).ymin < MinLow(bars) && MaxHigh(bars) < ScaleOf(bars).ymax
  {
  }

  /** Bars whose low is not above their high, as an exchange reports them. */
  predicate WellFormed(bars: seq<Bar>) {
    forall i :: 0 <= i < |bars| ==> bars[i].low <= bars[i].high
  }

  /** For well-formed bars the chart's range is strictly positive. */
  lemma ScaleOfWellFormed(bars: seq<Bar>)
    requires |bars| > 0 && WellFormed(bars)
    ensures ScaleOf(bars).range > 0.0
    ensures forall i :: 0 <= i < |bars| ==> ScaleOf(bars).ymin < bars[i].low <= bars[i].high < ScaleOf(bars).ymax
  {
    assert bars[0].low <= bars[0].high;
  }

  /** C's (int) cast of a float: truncation toward zero. */
  function Trunc(x: real): (n: int)
    ensures x >= 0.0 ==> n as real <= x < n as real + 1.0
    ensures x < 0.0 ==> n as real - 1.0 < x <= n as real
  {
    if x >= 0.0 then x.Floor else -((-x).Floor)
  }

  function Clamp(y: int): (c: int)
    ensures CHART_TOP <= c <= CHART_BOTTOM
    ensures CHART_TOP <= y <= CHART_BOTTOM ==> c == y
  {
    if y < CHART_TOP then CHART_TOP else if y > CHART_BOTTOM then CHART_BOTTOM else y
  }

  /**
   * toY: the row of price v, CHART_TOP at the top of the scale and
   * CHART_BOTTOM at its bottom, truncated and clamped to the chart area.
   * A zero range (possible only when some low exceeds some high) would
   * divide by zero; the model requires it away.
   */
  function ToY(s: Scale, v: real): (y: int)
    requires s.range != 0.0
    ensures CHART_TOP <= y <= CHART_BOTTOM
  {
    var t := (s.ymax - v) / s.range;
    Clamp(CHART_TOP + Trunc(t * CHART_H as real))
  }

  lemma TruncMonotone(x: real, y: real)
    requires x <= y
    ensures Trunc(x) <= Trunc(y)
  {
  }

  /** A higher price never maps to a lower row: toY is non-increasing when the range is positive. */
  lemma ToYAntitone(s: Scale, v: real, w: real)
    requires s.range > 0.0 && v <= w
    ensures ToY(s, w) <= ToY(s, v)
  {
    var tv := (s.ymax - v) / s.range;
    var tw := (s.ymax - w) / s.range;
    assert tw <= tv by {
      assert s.ymax - w <= s.ymax - v;
      DivMonotone(s.ymax - w, s.ymax - v, s.range);
    }
    assert tw * CHART_H as real <= tv * CHART_H as real;
    TruncMonotone(tw * CHART_H as real, tv * CHART_H as real);
  }

  lemma DivMonotone(a: real, b: real, d: real)
    requires a <= b && d > 0.0
    ensures a / d <= b / d
  {
    assert b / d - a / d == (b - a) / d;
  }

  /** The top of the scale maps to the chart's top row and the bottom to its bottom row. */
  lemma ToYEnds(s: Scale)
    requires s.range > 0.0 && s.range == s.ymax - s.ymin
    ensures ToY(s, s.ymax) == CHART_TOP
    ensures ToY(s, s.ymin) == CHART_BOTTOM
  {
    assert (s.ymax - s.ymax) / s.range == 0.0;
    assert (s.ymax - s.ymin) / s.range == 1.0;
  }

  /** Because of the clamp, truncation and flooring give the same row. */
  lemma ToYFloor(s: Scale, v: real)
    requires s.range != 0.0
    ensures ToY(s, v) == Clamp(CHART_TOP + (((s.ymax - v) / s.range) * CHART_H as real).Floor)
  {
  }

  /** A candle's colour: green when it closed at or above its open. */
  function CandleColor(b: Bar): (c: Color)
    ensures c == Green || c == Red
  {
    if b.close >= b.open then Green else Red
  }

  /** Centre column of slot i (xCenter); the body starts half a body width to its left. */
  function XCenter(i: int): int {
    i * SLOT_W + SLOT_W / 2
  }

  /** The centre of slot i lies strictly inside the slot, as far from its left edge as from its right. */
  lemma XCenterInSlot(i: int)
    ensures XCenter(i) - i * SLOT_W == (i + 1) * SLOT_W - XCenter(i)
    ensures i * SLOT_W < XCenter(i) < (i + 1) * SLOT_W
  {
  }

  function Abs(x: int): (a: nat)
    ensures a == x || a == -x
  {
    if x < 0 then -x else x
  }

  /**
   * The two calls slot i makes: a light grey wick from the high's row to
   * the low's row at the slot's centre, then a body from the higher of the
   * open and close rows, at least 2 rows tall.
   */
  function Candle(s: Scale, i: int, b: Bar): (ops: seq<DrawOp>)
    requires s.range != 0.0
    ensures |ops| == 2
  {
    var xCenter := XCenter(i);
    var xLeft := xCenter - BODY_W / 2;
    var yH := ToY(s, b.high);
    var yL := ToY(s, b.low);
    var yO := ToY(s, b.open);
    var yC := ToY(s, b.close);
    var top := if yO < yC then yO else yC;
    var h := if Abs(yO - yC) < 2 then 2 else Abs(yO - yC);
    [VLine(xCenter, yH, (yL - yH) + 1, LightGrey), FillRect(xLeft, top, BODY_W, h, CandleColor(b))]
  }

  /** The candles of slots 0 .. |bars|-1, in slot order. */
  function Candles(s: Scale, bars: seq<Bar>): (ops: seq<DrawOp>)
    requires s.range != 0.0
    ensures |ops| == 2 * |bars|
  {
    if bars == [] then [] else Candles(s, bars[..|bars| - 1]) + Candle(s, |bars| - 1, bars[|bars| - 1])
  }

  /**
   * What drawSingle draws below the second divider once the bars are
   * ready: the chart area cleared, then one candle per slot. With a zero
   * range no candle is drawn (see ToY).
   */
  function ChartOps(bars: seq<Bar>): (ops: seq<DrawOp>)
    requires |bars| > 0
    ensures |ops| >= 1 && ops[0] == FillRect(0, CHART_TOP, TFT_W, CHART_BOTTOM - CHART_TOP, Black)
    ensures ScaleOf(bars).range != 0.0 ==> |ops| == 1 + 2 * |bars|
    ensures ScaleOf(bars).range == 0.0 ==> |ops| == 1
  {
    var s := ScaleOf(bars);
    [FillRect(0, CHART_TOP, TFT_W, CHART_BOTTOM - CHART_TOP, Black)]
      + (if s.range != 0.0 then Candles(s, bars) else [])
  }

  /** The draw calls of slot i sit at positions 2i and 2i+1: the chart is drawn slot by slot, left to right. */
  lemma {:induction false} CandlesAt(s: Scale, bars: seq<Bar>, i: int)
    requires s.range != 0.0 && 0 <= i < |bars|
    ensures Candles(s, bars)[2 * i..2 * i + 2] == Candle(s, i, bars[i])
  {
    var init := bars[..|bars| - 1];
    var ops := Candles(s, bars);
    assert ops == Candles(s, init) + Candle(s, |bars| - 1, bars[|bars| - 1]);
    if i < |bars| - 1 {
      CandlesAt(s, init, i);
      assert ops[2 * i..2 * i + 2] == Candles(s, init)[2 * i..2 * i + 2];
    }
  }

  /**
   * The geometry of every candle: the body is 18 wide and lies inside its
   * own 24-column slot (so bodies of different slots never overlap) and
   * inside the panel; its top is the higher of the open and close rows and
   * its height max(|yO - yC|, 2); the wick stands at the slot's centre,
   * inside the body's columns; the colour is green exactly when the bar
   * closed at or above its open. For a bar whose low is not above its high
   * the wick is at least one row long.
   */
  lemma CandleGeometry(s: Scale, i: int, b: Bar)
    requires s.range != 0.0 && 0 <= i < KCOUNT
    ensures var ops := Candle(s, i, b);
      var yO := ToY(s, b.open);
      var yC := ToY(s, b.close);
      && ops[1].FillRect? && ops[1].w == 18
      && i * 24 <= ops[1].x && ops[1].x + ops[1].w <= (i + 1) * 24 <= TFT_W
      && ops[1].y == (if yO < yC then yO else yC)
      && ops[1].h == (if Abs(yO - yC) < 2 then 2 else Abs(yO - yC))
      && ops[1].h >= 2 && CHART_TOP <= ops[1].y <= CHART_BOTTOM
      && (ops[1].color == Green <==> b.close >= b.open)
      && ops[0].VLine? && ops[0].x == 24 * i + 12 && ops[0].color == LightGrey
      && ops[1].x <= ops[0].x < ops[1].x + ops[1].w
      && (s.range > 0.0 && b.low <= b.high ==> ops[0].h >= 1)
  {
    assert SLOT_W == 24 && BODY_W == 18;
    if s.range > 0.0 && b.low <= b.high {
      ToYAntitone(s, b.low, b.high);
    }
  }

  /** A tie (close == open) is drawn green, as a price that did not move would be. */
  lemma FlatCandleIsGreen(b: Bar)
    requires b.close == b.open
    ensures CandleColor(b) == Green
  {
  }
}
