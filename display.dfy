/**
 * What the three screens show (drawSingle, drawTriple and drawHoldings,
 * src/main.cpp:375-550): the price colour, the holdings profit and loss,
 * the choice of sign and decimals when numbers are printed, and each
 * screen as the list of drawing calls it makes.
 */
module Display {

  import opened Wrappers
  import opened Screen
  import opened Market
  import opened Chart

  /** formatPrice prints at most this many decimals. */
  const MAX_DECIMALS: nat := 6

  /** Height of one row of the triple and holdings screens. */
  const ROW_H: int := 80

  /** Right edge of the right-aligned texts of the holdings screen. */
  const RIGHT_EDGE: int := 236

  /**
   * The colour a price is drawn in: white while there is no previous price
   * (lastPrice < 0), otherwise green when the price did not fall and red
   * when it did.
   */
  function PriceColor(q: Quote): (c: Color)
    ensures c == White <==> q.lastPrice < 0.0
    ensures q.lastPrice >= 0.0 ==> (c == Green <==> q.price >= q.lastPrice)
    ensures c == White || c == Green || c == Red
  {
    if q.lastPrice >= 0.0 then (if q.price >= q.lastPrice then Green else Red) else White
  }

  /** A symbol just set is drawn in white until its price has been fetched. */
  lemma PriceColorAfterSetSymbol(q: Quote, sym: string)
    ensures PriceColor(SetSymbol(q, sym)) == White
  {
  }

  /**
   * After a successful fetch from a non-negative price, the colour compares
   * the new price with the one it replaced: rising or flat is green,
   * falling is red. This is the same tie rule as a candle's colour.
   */
  lemma PriceColorAfterFetch(q: Quote, reply: Reply<PriceBody>)
    requires q.price >= 0.0 && PriceFetched(true, reply)
    ensures var r := FetchPrice(q, true, reply).0;
      PriceColor(r) == CandleColor(Bar(q.price, 0.0, 0.0, r.price))
  {
  }

  /** The decimals formatPrice uses: more than 6 are cut to 6. */
  function FormatPrice(v: real, d: nat): (t: Text)
    ensures t.Price? && t.value == v && t.decimals <= MAX_DECIMALS
    ensures d <= MAX_DECIMALS ==> t.decimals == d
    ensures d > MAX_DECIMALS ==> t.decimals == MAX_DECIMALS
  {
    Price(v, if d > MAX_DECIMALS then MAX_DECIMALS else d)
  }

  /**
   * formatPL: "+$" and the value when it is not negative, "-$" and its
   * negation otherwise; the printed magnitude and sign give back the value.
   */
  function FormatPL(v: real): (t: Text)
    ensures t.SignedMoney? && t.magnitude >= 0.0
    ensures t.negative <==> v < 0.0
    ensures (if t.negative then -t.magnitude else t.magnitude) == v
  {
    if v >= 0.0 then SignedMoney(false, v) else SignedMoney(true, -v)
  }

  /**
   * formatPercent: a "+" in front when the value is not negative. NaN (None)
   * fails the test pct >= 0 and is printed without a sign.
   */
  function FormatPercent(pct: Option<real>): (t: Text)
    ensures t.Percent? && t.pct == pct
    ensures t.plus <==> pct.Some? && pct.value >= 0.0
  {
    match pct
    case None => Percent(false, None)
    case Some(p) => Percent(p >= 0.0, pct)
  }

  /** Profit or loss of a position in USDT, and in percent of its cost; None is the float NaN. */
  datatype PL = PL(usdt: real, percent: Option<real>)

  /**
   * drawHoldings' arithmetic: cost = buyPrice * amount, value = price *
   * amount, P/L = value - cost, percent = P/L / cost * 100 when the buy
   * price is positive and 0 otherwise. With a positive buy price and no
   * amount the cost is 0 and the percent is 0/0, NaN. Otherwise the
   * percent is the price change relative to the buy price.
   */
  function HoldingPL(h: Holding): (r: PL)
    ensures r.usdt == (h.quote.price - h.buyPrice) * h.amount
    ensures h.buyPrice <= 0.0 ==> r.percent == Some(0.0)
    ensures r.percent.None? <==> h.buyPrice > 0.0 && h.amount == 0.0
    ensures h.buyPrice > 0.0 && h.amount != 0.0 ==>
      r.percent == Some((h.quote.price - h.buyPrice) / h.buyPrice * 100.0)
  {
    var cost := h.buyPrice * h.amount;
    var current := h.quote.price * h.amount;
    var pl := current - cost;
    if h.buyPrice <= 0.0 then PL(pl, Some(0.0))
    else if cost == 0.0 then PL(pl, None)
    else
      RatioCancels(h.quote.price, h.buyPrice, h.amount);
      assert pl / cost == (h.quote.price - h.buyPrice) / h.buyPrice;
      PL(pl, Some(pl / cost * 100.0))
  }

  lemma RatioCancels(p: real, b: real, a: real)
    requires b != 0.0 && a != 0.0
    ensures (p * a - b * a) / (b * a) == (p - b) / b
  {
    assert p * a - b * a == (p - b) * a;
    assert ((p - b) / b) * (b * a) == (p - b) * a;
  }

  /** The P/L colour: green when the position is not at a loss. */
  function PLColor(pl: real): (c: Color)
    ensures c == Green <==> pl >= 0.0
    ensures c == Green || c == Red
  {
    if pl >= 0.0 then Green else Red
  }

  /** For a long position the P/L is green exactly when the price is at or above the buy price. */
  lemma PLColorOfLong(h: Holding)
    requires h.amount > 0.0
    ensures PLColor(HoldingPL(h).usdt) == Green <==> h.quote.price >= h.buyPrice
  {
    var d := h.quote.price - h.buyPrice;
    if d < 0.0 {
      assert d * h.amount < 0.0;
    }
  }

  /** Bought 0.1 at 50000, now at 55000: +500 USDT, +10%. */
  lemma HoldingPLExample()
    ensures HoldingPL(Holding(Quote("BTCUSDT", 55000.0, UNSET, 2), 50000.0, 0.1)) == PL(500.0, Some(10.0))
  {
  }

  /** handleSingleDec / handleTripleConfig / handleHoldingsConfig: a decimals argument clamped to [0, 6]. */
  function ClampDecimals(d: int): (r: nat)
    ensures r <= MAX_DECIMALS
    ensures 0 <= d <= MAX_DECIMALS ==> r == d
    ensures d < 0 ==> r == 0
    ensures d > MAX_DECIMALS ==> r == MAX_DECIMALS
  {
    if d < 0 then 0 else if d > MAX_DECIMALS then MAX_DECIMALS else d
  }

  /** Clamping is idempotent and formatPrice never clamps a clamped value again. */
  lemma ClampDecimalsStable(d: int)
    ensures ClampDecimals(ClampDecimals(d)) == ClampDecimals(d)
    ensures FormatPrice(0.0, ClampDecimals(d)).decimals == ClampDecimals(d)
  {
  }

  /** The top of the single screen: title, divider, coloured price, divider. */
  function SingleHeader(q: Quote): (ops: seq<DrawOp>)
    ensures |ops| == 5 && ops[0] == FillScreen(Black)
    ensures ops[1].Print? && ops[1].text == Literal(q.symbol)
    ensures ops[3].Print? && ops[3].fg == PriceColor(q)
    ensures ops[3].text.Price? && ops[3].text.value == q.price && ops[3].text.decimals <= MAX_DECIMALS
  {
    [ FillScreen(Black),
      Print(6, TITLE_Y, 2, Cyan, Literal(q.symbol)),
      Divider(DIV1_Y),
      Print(8, PRICE_Y, 4, PriceColor(q), FormatPrice(q.price, q.decimals)),
      Divider(DIV2_Y) ]
  }

  /**
   * drawSingle: the header, then either "kline not ready" in orange or the
   * candlestick chart of the ten bars.
   */
  function SingleScene(q: Quote, kReady: bool, bars: seq<Bar>): (ops: seq<DrawOp>)
    requires |bars| == KCOUNT
    ensures |ops| >= 6 && ops[..5] == SingleHeader(q)
    ensures !kReady ==> |ops| == 6 && ops[5].Print? && ops[5].fg == Orange
    ensures kReady ==> ops[5..] == ChartOps(bars)
  {
    SingleHeader(q)
      + if kReady then ChartOps(bars) else [Print(8, CHART_TOP + 10, 2, Orange, Literal("kline not ready"))]
  }

  /**
   * The single screen always draws its header first; without bars it
   * draws nothing below it but the notice, and with bars it clears the
   * chart area and draws exactly ten candles (two calls each) whenever the
   * bars are well formed.
   */
  lemma SingleSceneShape(q: Quote, kReady: bool, bars: seq<Bar>)
    requires |bars| == KCOUNT
    ensures var sc := SingleScene(q, kReady, bars);
      && sc[..5] == SingleHeader(q)
      && (!kReady ==> |sc| == 6 && sc[5].Print? && sc[5].fg == Orange)
      && (kReady && WellFormed(bars) ==> |sc| == 6 + 2 * KCOUNT && sc[5] == FillRect(0, CHART_TOP, TFT_W, CHART_BOTTOM - CHART_TOP, Black))
  {
    if kReady && WellFormed(bars) {
      ScaleOfWellFormed(bars);
    }
  }

  /** Row i of the triple screen: divider, symbol, coloured price, "d:<decimals>". */
  function TripleRow(i: int, q: Quote): (ops: seq<DrawOp>)
    ensures |ops| == 4
    ensures forall k :: 0 <= k < 4 ==> !ops[k].FillScreen? && i * ROW_H <= ops[k].y < (i + 1) * ROW_H
    ensures ops[2].Print? && ops[2].fg == PriceColor(q) && ops[2].text == FormatPrice(q.price, q.decimals)
  {
    var y := i * ROW_H;
    [ Divider(y + 22),
      Print(6, y + 2, 2, Cyan, Literal(q.symbol)),
      Print(8, y + 30, 4, PriceColor(q), FormatPrice(q.price, q.decimals)),
      Print(190, y + 34, 2, LightGrey, DecimalsTag(q.decimals)) ]
  }

  /** The rows for the first |qs| coins, top to bottom. */
  function TripleRows(qs: seq<Quote>): (ops: seq<DrawOp>)
    ensures |ops| == 4 * |qs|
  {
    if qs == [] then [] else TripleRows(qs[..|qs| - 1]) + TripleRow(|qs| - 1, qs[|qs| - 1])
  }

  /** drawTriple: the screen cleared, then one 80-pixel row per coin. */
  function TripleScene(qs: seq<Quote>): (ops: seq<DrawOp>)
    ensures |ops| == 1 + 4 * |qs| && ops[0] == FillScreen(Black)
  {
    [FillScreen(Black)] + TripleRows(qs)
  }

  /** Row i of the holdings screen: symbol, divider, price, P/L, position and percent. */
  function HoldingRow(i: int, h: Holding): (ops: seq<DrawOp>)
    ensures |ops| == 6
    ensures forall k :: 0 <= k < 6 ==> !ops[k].FillScreen? && i * ROW_H <= ops[k].y < (i + 1) * ROW_H
    ensures ops[2].Print? && ops[2].fg == PriceColor(h.quote) && ops[2].text == FormatPrice(h.quote.price, h.quote.decimals)
  {
    var y := i * ROW_H;
    var pl := HoldingPL(h);
    var plCol := PLColor(pl.usdt);
    [ Print(4, y + 1, 2, Cyan, Literal(h.quote.symbol)),
      Divider(y + 18),
      Print(4, y + 22, 4, PriceColor(h.quote), FormatPrice(h.quote.price, h.quote.decimals)),
      PrintRight(RIGHT_EDGE, y + 22, 4, plCol, FormatPL(pl.usdt)),
      Print(4, y + 54, 2, LightGrey, Position(h.amount, h.buyPrice)),
      PrintRight(RIGHT_EDGE, y + 54, 2, plCol, FormatPercent(pl.percent)) ]
  }

  function HoldingRows(hs: seq<Holding>): (ops: seq<DrawOp>)
    ensures |ops| == 6 * |hs|
  {
    if hs == [] then [] else HoldingRows(hs[..|hs| - 1]) + HoldingRow(|hs| - 1, hs[|hs| - 1])
  }

  /** drawHoldings: the screen cleared, then one 80-pixel row per position. */
  function HoldingsScene(hs: seq<Holding>): (ops: seq<DrawOp>)
    ensures |ops| == 1 + 6 * |hs| && ops[0] == FillScreen(Black)
  {
    [FillScreen(Black)] + HoldingRows(hs)
  }

  /**
   * Each holdings row shows the P/L and the percent right-aligned in the
   * same colour, green exactly when the position is not at a loss, and
   * the P/L text gives back the P/L value.
   */
  lemma HoldingRowShows(i: int, h: Holding)
    ensures var ops := HoldingRow(i, h); var pl := HoldingPL(h);
      && ops[3].PrintRight? && ops[5].PrintRight? && ops[3].fg == ops[5].fg
      && (ops[3].fg == Green <==> (h.quote.price - h.buyPrice) * h.amount >= 0.0)
      && ops[3].text.SignedMoney?
      && (if ops[3].text.negative then -ops[3].text.magnitude else ops[3].text.magnitude) == pl.usdt
      && ops[5].text == FormatPercent(pl.percent)
  {
  }

  /** Row i of a screen's rows sits at positions k*i .. k*i+k-1 of the list (k calls per row). */
  lemma {:induction false} TripleRowsAt(qs: seq<Quote>, i: int)
    requires 0 <= i < |qs|
    ensures TripleRows(qs)[4 * i..4 * i + 4] == TripleRow(i, qs[i])
  {
    var init := qs[..|qs| - 1];
    var ops := TripleRows(qs);
    if i < |qs| - 1 {
      TripleRowsAt(init, i);
      assert ops[4 * i..4 * i + 4] == TripleRows(init)[4 * i..4 * i + 4];
    }
  }

  lemma {:induction false} HoldingRowsAt(hs: seq<Holding>, i: int)
    requires 0 <= i < |hs|
    ensures HoldingRows(hs)[6 * i..6 * i + 6] == HoldingRow(i, hs[i])
  {
    var init := hs[..|hs| - 1];
    var ops := HoldingRows(hs);
    if i < |hs| - 1 {
      HoldingRowsAt(init, i);
      assert ops[6 * i..6 * i + 6] == HoldingRows(init)[6 * i..6 * i + 6];
    }
  }
}
