/**
 * The 240x240 TFT panel as the firmware uses it: a handful of colours and the
 * drawing calls the renderers issue. A rendered frame is the list of calls in
 * the order they are made; pixels and fonts are not modelled.
 */
module Screen {

  import opened Wrappers

  const TFT_W: int := 240

  /** Fixed rows of the single-coin layout. */
  const TITLE_Y: int := 4
  const DIV1_Y: int := 22
  const PRICE_Y: int := 26
  const DIV2_Y: int := 56
  const CHART_TOP: int := 62
  const CHART_BOTTOM: int := 235

  datatype Color = Black | White | Green | Red | Cyan | Orange | LightGrey | DarkGrey

  /**
   * What a print call shows. Numbers keep their value: the text that
   * snprintf makes of a float is not modelled.
   *  - Literal: a plain string (a symbol, a fixed message)
   *  - Price: formatPrice, "$" and the value with `decimals` fraction digits
   *  - SignedMoney: formatPL, the sign prefix ("+$" or "-$") and a non-negative magnitude
   *  - Percent: formatPercent, "+" when `plus`, then the value and "%";
   *    None is the float NaN, which prints as "nan"
   *  - Position: the holdings info line "amount@$buyPrice"
   *  - Seconds: the countdown "T-<n>s"
   *  - DecimalsTag: the triple screen's "d:<n>"
   */
  datatype Text =
    | Literal(s: string)
    | Price(value: real, decimals: nat)
    | SignedMoney(negative: bool, magnitude: real)
    | Percent(plus: bool, pct: Option<real>)
    | Position(amount: real, buyPrice: real)
    | Seconds(n: nat)
    | DecimalsTag(d: nat)

  /**
   * One drawing call. Print draws with its left edge at x; PrintRight draws
   * so that its right edge is at xRight (the firmware measures the text with
   * textWidth and sets the cursor to xRight minus that width).
   */
  datatype DrawOp =
    | FillScreen(color: Color)
    | FillRect(x: int, y: int, w: int, h: int, color: Color)
    | HLine(x: int, y: int, w: int, color: Color)
    | VLine(x: int, y: int, h: int, color: Color)
    | Print(x: int, y: int, font: nat, fg: Color, text: Text)
    | PrintRight(xRight: int, y: int, font: nat, fg: Color, text: Text)

  type Scene = seq<DrawOp>

  /** drawDivider: a dark grey line across the whole panel. */
  function Divider(y: int): (d: DrawOp)
    ensures d.HLine? && d.y == y && d.color == DarkGrey
    ensures d.x == 0 && d.x + d.w == TFT_W
  {
    HLine(0, y, TFT_W, DarkGrey)
  }
}
