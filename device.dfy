/**
 * The firmware's global state and what changes it (src/main.cpp:21-69,
 * 337-550, 727-938): the display mode, the single coin, the three coins
 * of the triple screen, the three holdings, the candlestick arrays
 * kO/kH/kL/kC with their ready flag, the settings and the two timers.
 *
 * Each web handler and each pass of loop is a method. The network is
 * given to a method as the replies its requests get; the drawing is
 * returned as the list of calls made.
 */
module Device {

  import opened Wrappers
  import opened Screen
  import opened Symbols
  import opened Market
  import opened Chart
  import opened Timing
  import opened Display
  import opened Config
  import opened Report

  datatype Mode = Single | Triple | Holdings

  /** handleMode: the mode an "m" argument names, if any. */
  function ModeArg(m: string): (r: Option<Mode>)
    ensures r.Some? <==> m == "single" || m == "triple" || m == "holdings"
    ensures r == Some(Single) <==> m == "single"
    ensures r == Some(Triple) <==> m == "triple"
    ensures r == Some(Holdings) <==> m == "holdings"
  {
    if m == "single" then Some(Single)
    else if m == "triple" then Some(Triple)
    else if m == "holdings" then Some(Holdings)
    else None
  }

  /** The replies to the three price requests of one refresh (the single screen uses only the first). */
  datatype PriceReplies = PriceReplies(r0: Reply<PriceBody>, r1: Reply<PriceBody>, r2: Reply<PriceBody>)
  {
    function At(i: int): Reply<PriceBody> {
      if i == 0 then r0 else if i == 1 then r1 else r2
    }
  }

  /** The /triple arguments for one coin: symbol and decimals (cN, dN). */
  datatype CoinArg = CoinArg(sym: string, decimals: int)

  /** The /holdings arguments for one position: symbol, buy price, amount and decimals (sN, bN, aN, dN). */
  datatype HoldingArg = HoldingArg(sym: string, buyPrice: real, amount: real, decimals: int)

  /** What one pass of loop did, in order. */
  datatype TickEvent =
    | CountdownDrawn(ops: seq<DrawOp>)
    | StatusPushed(result: PostResult)
    | Refreshed(scene: seq<DrawOp>)

  /** drawCountdown's two calls: clear the corner, print "T-<n>s". */
  function CountdownOps(n: nat): (ops: seq<DrawOp>)
    ensures |ops| == 2 && ops[0].FillRect? && ops[0].color == Black && ops[0].x + ops[0].w == TFT_W
    ensures ops[1].Print? && ops[1].text == Seconds(n)
    ensures ops[0].x <= ops[1].x < ops[0].x + ops[0].w && ops[0].y <= ops[1].y < ops[0].y + ops[0].h
  {
    [FillRect(170, 0, 70, 18, Black), Print(178, 2, 2, Cyan, Seconds(n))]
  }

  /** The bars after fetchKlines10: the new window on success, the old bars on any failure. */
  function KlinesAfter(bars: seq<Bar>, apiReady: bool, reply: Reply<KlineBody>): (r: seq<Bar>)
    requires |bars| == KCOUNT
    ensures |r| == KCOUNT
    ensures KlineRows(apiReady, reply).None? ==> r == bars
    ensures KlineRows(apiReady, reply).Some? ==> r == Window(reply.body.rows)
  {
    match KlineRows(apiReady, reply)
    case None => bars
    case Some(rows) => Window(rows)
  }

  /** A coin after /triple: symbol normalised twice, previous price forgotten, decimals clamped. */
  function ConfigureCoin(q: Quote, a: CoinArg): (r: Quote)
    ensures r.symbol == Normalize(Normalize(a.sym)) && |r.symbol| <= MAX_SYMBOL
    ensures r.lastPrice == UNSET && r.price == q.price
    ensures r.decimals == ClampDecimals(a.decimals) && r.decimals <= MAX_DECIMALS
  {
    SetSymbol(q, Normalize(a.sym)).(decimals := ClampDecimals(a.decimals))
  }

  /** A position after /holdings: as a coin, plus the new buy price and amount. */
  function ConfigureHolding(h: Holding, a: HoldingArg): (r: Holding)
    ensures r.quote.symbol == Normalize(Normalize(a.sym)) && |r.quote.symbol| <= MAX_SYMBOL
    ensures r.quote.lastPrice == UNSET && r.quote.price == h.quote.price
    ensures r.quote.decimals == ClampDecimals(a.decimals) && r.quote.decimals <= MAX_DECIMALS
    ensures r.buyPrice == a.buyPrice && r.amount == a.amount
  {
    Holding(SetSymbol(h.quote, Normalize(a.sym)).(decimals := ClampDecimals(a.decimals)), a.buyPrice, a.amount)
  }

  /** The three coins after /triple, configured slot by slot. */
  function ConfigureCoins(qs: seq<Quote>, c0: CoinArg, c1: CoinArg, c2: CoinArg): (r: seq<Quote>)
    requires |qs| == 3
    ensures |r| == 3
    ensures r[0] == ConfigureCoin(qs[0], c0) && r[1] == ConfigureCoin(qs[1], c1) && r[2] == ConfigureCoin(qs[2], c2)
  {
    qs[0 := ConfigureCoin(qs[0], c0)][1 := ConfigureCoin(qs[1], c1)][2 := ConfigureCoin(qs[2], c2)]
  }

  /** The three positions after /holdings, configured slot by slot. */
  function ConfigureHoldings(hs: seq<Holding>, a0: HoldingArg, a1: HoldingArg, a2: HoldingArg): (r: seq<Holding>)
    requires |hs| == 3
    ensures |r| == 3
    ensures r[0] == ConfigureHolding(hs[0], a0) && r[1] == ConfigureHolding(hs[1], a1) && r[2] == ConfigureHolding(hs[2], a2)
  {
    hs[0 := ConfigureHolding(hs[0], a0)][1 := ConfigureHolding(hs[1], a1)][2 := ConfigureHolding(hs[2], a2)]
  }

  /** The three coins after one price request each. */
  function FetchCoins(qs: seq<Quote>, apiReady: bool, replies: PriceReplies): (r: seq<Quote>)
    requires |qs| == 3
    ensures |r| == 3
  {
    seq(3, i requires 0 <= i < 3 => FetchPrice(qs[i], apiReady, replies.At(i)).0)
  }

  /** The three positions after one price request each. */
  function FetchHoldings(hs: seq<Holding>, apiReady: bool, replies: PriceReplies): (r: seq<Holding>)
    requires |hs| == 3
    ensures |r| == 3
  {
    seq(3, i requires 0 <= i < 3 => hs[i].(quote := FetchPrice(hs[i].quote, apiReady, replies.At(i)).0))
  }

  /**
   * A configured coin carries the twice-normalised symbol and the clamped
   * decimals, keeps its price, and has no previous price; after the fetch
   * that follows, its previous price is still unset when the fetch failed
   * and is the price it had before when it succeeded.
   */
  lemma ConfigureThenFetch(q: Quote, a: CoinArg, apiReady: bool, reply: Reply<PriceBody>)
    ensures var c := ConfigureCoin(q, a); var f := FetchPrice(c, apiReady, reply);
      && c.symbol == Normalize(Normalize(a.sym)) && |c.symbol| <= MAX_SYMBOL
      && c.decimals <= MAX_DECIMALS && c.price == q.price && c.lastPrice == UNSET
      && f.0.symbol == c.symbol && f.0.decimals == c.decimals
      && (f.1 ==> f.0.lastPrice == q.price)
      && (!f.1 ==> f.0.lastPrice == UNSET && PriceColor(f.0) == White)
  {
  }

  /** A canonical symbol argument is stored as given, the double normalisation notwithstanding. */
  lemma ConfigureCanonical(q: Quote, a: CoinArg)
    requires |a.sym| <= MAX_SYMBOL && EndsWithSuffix(a.sym) && NoLower(a.sym) && !IsSpace(a.sym[0])
    ensures ConfigureCoin(q, a).symbol == a.sym
  {
    NormalizeKeepsCanonical(a.sym);
    NormalizeKeepsCanonical(a.sym);
  }

  class Device {

    var mode: Mode
    var single: Quote
    const triple: array<Quote>
    const holdings: array<Holding>
    const kO: array<real>
    const kH: array<real>
    const kL: array<real>
    const kC: array<real>
    var kReady: bool
    /** cfg in RAM and the record in the EEPROM. */
    var cfg: AppConfig
    var eeprom: AppConfig
    var lastFetch: int
    var lastSysPush: int

    /** The fixed arrays have their sizes and the four candle arrays are distinct. */
    predicate Arrays() {
      && triple.Length == 3 && holdings.Length == 3
      && kO.Length == KCOUNT && kH.Length == KCOUNT && kL.Length == KCOUNT && kC.Length == KCOUNT
      && kO != kH && kO != kL && kO != kC && kH != kL && kH != kC && kL != kC
    }

    predicate Valid()
      reads this
    {
      Arrays() && IsU32(lastFetch) && IsU32(lastSysPush)
    }

    /** The ten bars held in kO/kH/kL/kC. */
    function Bars(): (bs: seq<Bar>)
      requires Arrays()
      reads kO, kH, kL, kC
      ensures |bs| == KCOUNT
    {
      seq(KCOUNT, i requires 0 <= i < KCOUNT reads kO, kH, kL, kC => Bar(kO[i], kH[i], kL[i], kC[i]))
    }

    /**
     * The state before setup(): the static initialisers, zeroed candle
     * arrays and an all-zero cfg; `stored` is what the EEPROM holds.
     */
    constructor (stored: AppConfig)
      ensures Valid() && fresh(triple) && fresh(holdings) && fresh(kO) && fresh(kH) && fresh(kL) && fresh(kC)
      ensures mode == Single && single == Quote("BTCUSDT", 0.0, UNSET, 2)
      ensures triple[..] == [Quote("BTCUSDT", 0.0, UNSET, 0), Quote("ETHUSDT", 0.0, UNSET, 2), Quote("FILUSDT", 0.0, UNSET, 3)]
      ensures holdings[..] == [
        Holding(Quote("BTCUSDT", 0.0, UNSET, 2), 50000.0, 0.1),
        Holding(Quote("ETHUSDT", 0.0, UNSET, 2), 3000.0, 1.0),
        Holding(Quote("SOLUSDT", 0.0, UNSET, 2), 100.0, 10.0)]
      ensures !kReady && Bars() == Repeat(Bar(0.0, 0.0, 0.0, 0.0), KCOUNT)
      ensures cfg == AppConfig(0, "", "") && eeprom == stored
      ensures lastFetch == 0 && lastSysPush == 0
    {
      mode := Single;
      single := Quote("BTCUSDT", 0.0, UNSET, 2);
      triple := new Quote[3] [Quote("BTCUSDT", 0.0, UNSET, 0), Quote("ETHUSDT", 0.0, UNSET, 2), Quote("FILUSDT", 0.0, UNSET, 3)];
      holdings := new Holding[3] [
        Holding(Quote("BTCUSDT", 0.0, UNSET, 2), 50000.0, 0.1),
        Holding(Quote("ETHUSDT", 0.0, UNSET, 2), 3000.0, 1.0),
        Holding(Quote("SOLUSDT", 0.0, UNSET, 2), 100.0, 10.0)];
      kO := new real[KCOUNT](_ => 0.0);
      kH := new real[KCOUNT](_ => 0.0);
      kL := new real[KCOUNT](_ => 0.0);
      kC := new real[KCOUNT](_ => 0.0);
      kReady := false;
      cfg := AppConfig(0, "", "");
      eeprom := stored;
      lastFetch := 0;
      lastSysPush := 0;
    }

    /**
     * fetchKlines10: on each failure path kReady is cleared and the arrays
     * are left alone; on success slot i gets fields 1..4 of row
     * min(i, n-1) and kReady is set.
     */
    method FetchKlines10(reply: Reply<KlineBody>) returns (ok: bool)
      requires Valid()
      modifies kO, kH, kL, kC, this`kReady
      ensures Valid()
      ensures ok == kReady && (ok <==> KlineRows(ApiReady(cfg), reply).Some?)
      ensures !ok ==> unchanged(kO, kH, kL, kC)
      ensures ok ==> Bars() == Window(KlineRows(ApiReady(cfg), reply).value)
      ensures Bars() == KlinesAfter(old(Bars()), ApiReady(cfg), reply)
    {
      var rows := KlineRows(ApiReady(cfg), reply);
      if rows.None? {
        kReady := false;
        return false;
      }
      var arr := rows.value;
      var n := |arr|;
      for i := 0 to KCOUNT
        invariant forall j :: 0 <= j < i ==> Bar(kO[j], kH[j], kL[j], kC[j]) == BarOf(arr[SlotRow(arr, j)])
      {
        var idx := if i < n then i else n - 1;
        kO[i] := Field(arr[idx], 1);
        kH[i] := Field(arr[idx], 2);
        kL[i] := Field(arr[idx], 3);
        kC[i] := Field(arr[idx], 4);
      }
      kReady := true;
      ok := true;
    }

    /** drawSingle: the header, then the notice or the chart, made by its two loops. */
    method DrawSingle() returns (scene: seq<DrawOp>)
      requires Arrays()
      ensures scene == SingleScene(single, kReady, Bars())
    {
      var header := SingleHeader(single);
      if !kReady {
        scene := header + [Print(8, CHART_TOP + 10, 2, Orange, Literal("kline not ready"))];
        return;
      }
      var chart := DrawChart();
      scene := header + chart;
    }

    /** drawSingle's chart part: the padded scale from the first loop, then the candles. */
    method DrawChart() returns (chart: seq<DrawOp>)
      requires Arrays()
      ensures chart == ChartOps(Bars())
    {
      var ymin, ymax := ScanRange();
      var s := PadRange(ymin, ymax);
      chart := [FillRect(0, CHART_TOP, TFT_W, CHART_BOTTOM - CHART_TOP, Black)];
      if s.range != 0.0 {
        var candles := DrawCandles(s);
        chart := chart + candles;
      }
    }

    /** drawSingle's padding of the scanned range: a flat range counts as 1, then 6% on each side. */
    method PadRange(lo: real, hi: real) returns (s: Scale)
      ensures s == PadScale(lo, hi)
    {
      var ymin, ymax := lo, hi;
      var range := ymax - ymin;
      if range < MIN_RANGE { range := 1.0; }
      ymin := ymin - range * PAD;
      ymax := ymax + range * PAD;
      range := ymax - ymin;
      s := Scale(ymin, ymax, range);
    }

    /** drawSingle's first loop: the lowest low and the highest high of the ten bars. */
    method ScanRange() returns (ymin: real, ymax: real)
      requires Arrays()
      ensures ymin == MinLow(Bars()) && ymax == MaxHigh(Bars())
    {
      ghost var bars := Bars();
      ymin := kL[0];
      ymax := kH[0];
      for i := 1 to KCOUNT
        invariant ymin == MinLow(bars[..i]) && ymax == MaxHigh(bars[..i])
      {
        assert bars[..i + 1][..i] == bars[..i];
        if kL[i] < ymin { ymin := kL[i]; }
        if kH[i] > ymax { ymax := kH[i]; }
      }
      assert bars[..KCOUNT] == bars;
    }

    /** drawSingle's second loop: wick and body of each slot, left to right. */
    method DrawCandles(s: Scale) returns (ops: seq<DrawOp>)
      requires Arrays() && s.range != 0.0
      ensures ops == Candles(s, Bars())
    {
      ghost var bars := Bars();
      ops := [];
      for i := 0 to KCOUNT
        invariant ops == Candles(s, bars[..i])
      {
        assert bars[..i + 1][..i] == bars[..i];
        ops := ops + Candle(s, i, Bar(kO[i], kH[i], kL[i], kC[i]));
      }
      assert bars[..KCOUNT] == bars;
    }

    /** drawTriple: the screen cleared, then one row per coin. */
    method DrawTriple() returns (scene: seq<DrawOp>)
      requires Valid()
      ensures scene == TripleScene(triple[..])
    {
      scene := [FillScreen(Black)];
      for i := 0 to 3
        invariant scene == [FillScreen(Black)] + TripleRows(triple[..i])
      {
        assert triple[..i + 1][..i] == triple[..i];
        scene := scene + TripleRow(i, triple[i]);
      }
      assert triple[..3] == triple[..];
    }

    /** drawHoldings: the screen cleared, then one row per position. */
    method DrawHoldings() returns (scene: seq<DrawOp>)
      requires Valid()
      ensures scene == HoldingsScene(holdings[..])
    {
      scene := [FillScreen(Black)];
      for i := 0 to 3
        invariant scene == [FillScreen(Black)] + HoldingRows(holdings[..i])
      {
        assert holdings[..i + 1][..i] == holdings[..i];
        scene := scene + HoldingRow(i, holdings[i]);
      }
      assert holdings[..3] == holdings[..];
    }

    /** The single screen's refresh: fetchPrice, fetchKlines10, drawSingle. */
    method RefreshSingle(price: Reply<PriceBody>, klines: Reply<KlineBody>) returns (scene: seq<DrawOp>)
      requires Valid()
      modifies this`single, this`kReady, kO, kH, kL, kC
      ensures Valid()
      ensures single == FetchPrice(old(single), ApiReady(cfg), price).0
      ensures kReady <==> KlineRows(ApiReady(cfg), klines).Some?
      ensures Bars() == KlinesAfter(old(Bars()), ApiReady(cfg), klines)
      ensures scene == SingleScene(single, kReady, Bars())
    {
      var fetched := FetchPrice(single, ApiReady(cfg), price);
      single := fetched.0;
      var _ := FetchKlines10(klines);
      scene := DrawSingle();
    }

    /** The triple screen's refresh: fetchPrice for each coin, then drawTriple. */
    method RefreshTriple(replies: PriceReplies) returns (scene: seq<DrawOp>)
      requires Valid()
      modifies triple
      ensures Valid()
      ensures triple[..] == FetchCoins(old(triple[..]), ApiReady(cfg), replies)
      ensures scene == TripleScene(triple[..])
    {
      for i := 0 to 3
        invariant forall j :: 0 <= j < i ==> triple[j] == FetchPrice(old(triple[j]), ApiReady(cfg), replies.At(j)).0
        invariant forall j :: i <= j < 3 ==> triple[j] == old(triple[j])
      {
        triple[i] := FetchPrice(triple[i], ApiReady(cfg), replies.At(i)).0;
      }
      scene := DrawTriple();
    }

    /** The holdings screen's refresh: fetchHoldingPrice for each position, then drawHoldings. */
    method RefreshHoldings(replies: PriceReplies) returns (scene: seq<DrawOp>)
      requires Valid()
      modifies holdings
      ensures holdings[..] == FetchHoldings(old(holdings[..]), ApiReady(cfg), replies)
      ensures scene == HoldingsScene(holdings[..])
    {
      for i := 0 to 3
        invariant forall j :: 0 <= j < i ==>
          holdings[j] == old(holdings[j]).(quote := FetchPrice(old(holdings[j]).quote, ApiReady(cfg), replies.At(j)).0)
        invariant forall j :: i <= j < 3 ==> holdings[j] == old(holdings[j])
      {
        var h := holdings[i];
        holdings[i] := h.(quote := FetchPrice(h.quote, ApiReady(cfg), replies.At(i)).0);
      }
      scene := DrawHoldings();
    }

    /** The refresh of the current screen, as the 15-second branch of loop runs it. */
    method Refresh(prices: PriceReplies, klines: Reply<KlineBody>) returns (scene: seq<DrawOp>)
      requires Valid()
      modifies this`single, this`kReady, kO, kH, kL, kC, triple, holdings
      ensures Valid()
      ensures mode == Single ==>
        && single == FetchPrice(old(single), ApiReady(cfg), prices.r0).0
        && Bars() == KlinesAfter(old(Bars()), ApiReady(cfg), klines)
        && (kReady <==> KlineRows(ApiReady(cfg), klines).Some?)
        && unchanged(triple, holdings)
        && scene == SingleScene(single, kReady, Bars())
      ensures mode == Triple ==>
        && triple[..] == FetchCoins(old(triple[..]), ApiReady(cfg), prices)
        && single == old(single) && kReady == old(kReady) && unchanged(kO, kH, kL, kC, holdings)
        && scene == TripleScene(triple[..])
      ensures mode == Holdings ==>
        && holdings[..] == FetchHoldings(old(holdings[..]), ApiReady(cfg), prices)
        && single == old(single) && kReady == old(kReady) && unchanged(kO, kH, kL, kC, triple)
        && scene == HoldingsScene(holdings[..])
    {
      if mode == Single {
        scene := RefreshSingle(prices.r0, klines);
      } else if mode == Triple {
        scene := RefreshTriple(prices);
      } else {
        scene := RefreshHoldings(prices);
      }
    }

    /**
     * setup() once Wi-Fi is up: cfgLoad (writing the defaults back when
     * the stored record is not ours), both timers started, then the single
     * screen fetched and drawn.
     */
    method Setup(now: int, price: Reply<PriceBody>, klines: Reply<KlineBody>) returns (scene: seq<DrawOp>)
      requires Valid() && IsU32(now)
      modifies this`cfg, this`eeprom, this`lastFetch, this`lastSysPush, this`single, this`kReady, kO, kH, kL, kC
      ensures Valid()
      ensures cfg == Load(old(eeprom)).0
      ensures eeprom == (if Load(old(eeprom)).1 then cfg else old(eeprom))
      ensures lastFetch == now && lastSysPush == now
      ensures single == FetchPrice(old(single), ApiReady(cfg), price).0
      ensures Bars() == KlinesAfter(old(Bars()), ApiReady(cfg), klines)
      ensures kReady <==> KlineRows(ApiReady(cfg), klines).Some?
      ensures scene == SingleScene(single, kReady, Bars())
    {
      var loaded := Load(eeprom);
      cfg := loaded.0;
      if loaded.1 {
        eeprom := cfg;
      }
      lastFetch := now;
      lastSysPush := now;
      scene := RefreshSingle(price, klines);
    }

    /** /mode: switch to a named mode; anything else keeps the mode. Nothing is fetched or drawn. */
    method HandleMode(m: string) returns (status: int)
      requires Valid()
      modifies this`mode
      ensures Valid()
      ensures status == 200
      ensures mode == (if ModeArg(m).Some? then ModeArg(m).value else old(mode))
    {
      if m == "single" { mode := Single; }
      if m == "triple" { mode := Triple; }
      if m == "holdings" { mode := Holdings; }
      status := 200;
    }

    /**
     * /single: a symbol shorter than 2 characters is refused with 400 and
     * nothing changes. Otherwise the symbol is normalised and set (which
     * normalises again and forgets the previous price), the bars are
     * marked not ready, the mode becomes single, and the screen is
     * refreshed.
     */
    method HandleSingle(sym: string, price: Reply<PriceBody>, klines: Reply<KlineBody>) returns (status: int, scene: seq<DrawOp>)
      requires Valid()
      modifies this`single, this`kReady, this`mode, kO, kH, kL, kC
      ensures Valid()
      ensures |sym| < 2 ==> (status == 400 && scene == []
        && single == old(single) && kReady == old(kReady) && mode == old(mode) && unchanged(kO, kH, kL, kC))
      ensures |sym| >= 2 ==> (status == 200 && mode == Single
        && single == FetchPrice(SetSymbol(old(single), Normalize(sym)), ApiReady(cfg), price).0
        && (kReady <==> KlineRows(ApiReady(cfg), klines).Some?)
        && Bars() == KlinesAfter(old(Bars()), ApiReady(cfg), klines)
        && scene == SingleScene(single, kReady, Bars()))
    {
      if |sym| < 2 {
        return 400, [];
      }
      var s := NormalizeSymbol(sym);
      single := SetSymbol(single, s);
      kReady := false;
      mode := Single;
      scene := RefreshSingle(price, klines);
      status := 200;
    }

    /** /singleDec: the decimals clamped to [0, 6]; the single screen is redrawn when it is showing. */
    method HandleSingleDec(d: int) returns (status: int, scene: seq<DrawOp>)
      requires Valid()
      modifies this`single
      ensures Valid()
      ensures single == old(single).(decimals := ClampDecimals(d))
      ensures status == 200
      ensures scene == if mode == Single then SingleScene(single, kReady, Bars()) else []
    {
      var dd := d;
      if dd < 0 { dd := 0; }
      if dd > 6 { dd := 6; }
      single := single.(decimals := dd);
      scene := [];
      if mode == Single {
        scene := DrawSingle();
      }
      status := 200;
    }

    /** One coin of /triple: normalizeSymbol, setCoinSymbol, then the clamped decimals. */
    method ConfigureCoinAt(i: nat, a: CoinArg)
      requires Valid() && i < 3
      modifies triple
      ensures Valid()
      ensures triple[..] == old(triple[..])[i := ConfigureCoin(old(triple[i]), a)]
    {
      var s := NormalizeSymbol(a.sym);
      triple[i] := SetSymbol(triple[i], s);
      triple[i] := triple[i].(decimals := ClampDecimals(a.decimals));
    }

    /** One position of /holdings: the symbol as for a coin, then buy price, amount and clamped decimals. */
    method ConfigureHoldingAt(i: nat, a: HoldingArg)
      requires Valid() && i < 3
      modifies holdings
      ensures holdings[..] == old(holdings[..])[i := ConfigureHolding(old(holdings[i]), a)]
    {
      var s := NormalizeSymbol(a.sym);
      holdings[i] := holdings[i].(quote := SetSymbol(holdings[i].quote, s));
      holdings[i] := holdings[i].(buyPrice := a.buyPrice);
      holdings[i] := holdings[i].(amount := a.amount);
      holdings[i] := holdings[i].(quote := holdings[i].quote.(decimals := ClampDecimals(a.decimals)));
    }

    /**
     * /triple: if any symbol is shorter than 2 characters the request is
     * refused with 400 and nothing changes. Otherwise each coin is
     * configured, the mode becomes triple, and the screen is refreshed.
     */
    method HandleTripleConfig(c0: CoinArg, c1: CoinArg, c2: CoinArg, replies: PriceReplies) returns (status: int, scene: seq<DrawOp>)
      requires Valid()
      modifies triple, this`mode
      ensures Valid()
      ensures |c0.sym| < 2 || |c1.sym| < 2 || |c2.sym| < 2 ==>
        status == 400 && scene == [] && unchanged(triple) && mode == old(mode)
      ensures |c0.sym| >= 2 && |c1.sym| >= 2 && |c2.sym| >= 2 ==>
        && status == 200 && mode == Triple
        && triple[..] == FetchCoins(ConfigureCoins(old(triple[..]), c0, c1, c2), ApiReady(cfg), replies)
        && scene == TripleScene(triple[..])
    {
      if |c0.sym| < 2 || |c1.sym| < 2 || |c2.sym| < 2 {
        return 400, [];
      }
      ConfigureCoinAt(0, c0);
      ConfigureCoinAt(1, c1);
      ConfigureCoinAt(2, c2);
      mode := Triple;
      scene := RefreshTriple(replies);
      status := 200;
    }

    /**
     * /holdings: if any symbol is shorter than 2 characters the request is
     * refused with 400 and nothing changes. Otherwise each position is
     * configured, the mode becomes holdings, and the screen is refreshed.
     */
    method HandleHoldingsConfig(a0: HoldingArg, a1: HoldingArg, a2: HoldingArg, replies: PriceReplies) returns (status: int, scene: seq<DrawOp>)
      requires Valid()
      modifies holdings, this`mode
      ensures Valid()
      ensures |a0.sym| < 2 || |a1.sym| < 2 || |a2.sym| < 2 ==>
        status == 400 && scene == [] && unchanged(holdings) && mode == old(mode)
      ensures |a0.sym| >= 2 && |a1.sym| >= 2 && |a2.sym| >= 2 ==>
        && status == 200 && mode == Holdings
        && holdings[..] == FetchHoldings(ConfigureHoldings(old(holdings[..]), a0, a1, a2), ApiReady(cfg), replies)
        && scene == HoldingsScene(holdings[..])
    {
      if |a0.sym| < 2 || |a1.sym| < 2 || |a2.sym| < 2 {
        return 400, [];
      }
      ConfigureHoldingAt(0, a0);
      ConfigureHoldingAt(1, a1);
      ConfigureHoldingAt(2, a2);
      mode := Holdings;
      scene := RefreshHoldings(replies);
      status := 200;
    }

    /** /cfg: update the settings and save them. */
    method HandleCfgSet(api: string, wh: string) returns (status: int)
      requires Valid()
      modifies this`cfg, this`eeprom
      ensures Valid()
      ensures cfg == CfgSet(old(cfg), api, wh) && eeprom == cfg
      ensures status == 200
    {
      cfg := CfgSet(cfg, api, wh);
      eeprom := cfg;
      status := 200;
    }

    /** /push: push a status report now and answer 200 or 500 with the outcome. */
    method HandlePushSys(env: PostEnv) returns (status: int, result: PostResult)
      ensures result == PostText(cfg.webhook, env)
      ensures status == 200 <==> result.ok
      ensures status == 200 || status == 500
    {
      result := PostText(cfg.webhook, env);
      status := PushStatus(result);
    }

    /** The status push of loop: sent, and its timer restarted, once ten minutes have passed. */
    method PushIfDue(now: int, env: PostEnv) returns (pushed: seq<TickEvent>)
      requires Valid() && IsU32(now)
      modifies this`lastSysPush
      ensures Valid()
      ensures var pushDue := Due(now, old(lastSysPush), SYS_PUSH_MS);
        && (pushDue ==> pushed == [StatusPushed(PostText(cfg.webhook, env))] && lastSysPush == now)
        && (!pushDue ==> pushed == [] && lastSysPush == old(lastSysPush))
    {
      pushed := [];
      if Sub32(now, lastSysPush) >= SYS_PUSH_MS {
        lastSysPush := now;
        pushed := [StatusPushed(PostText(cfg.webhook, env))];
      }
    }

    /** The screen refresh of loop: run, and its timer restarted, once 15 seconds have passed. */
    method RefreshIfDue(now: int, prices: PriceReplies, klines: Reply<KlineBody>) returns (refreshed: seq<TickEvent>)
      requires Valid() && IsU32(now)
      modifies this`lastFetch, this`single, this`kReady, kO, kH, kL, kC, triple, holdings
      ensures Valid()
      ensures var refreshDue := Due(now, old(lastFetch), REFRESH_MS);
        && (refreshDue ==> |refreshed| == 1 && refreshed[0].Refreshed? && lastFetch == now)
        && (!refreshDue ==> (refreshed == [] && lastFetch == old(lastFetch) && single == old(single) && kReady == old(kReady)
              && unchanged(kO, kH, kL, kC, triple, holdings)))
      ensures Due(now, old(lastFetch), REFRESH_MS) && mode == Single ==>
        && single == FetchPrice(old(single), ApiReady(cfg), prices.r0).0
        && Bars() == KlinesAfter(old(Bars()), ApiReady(cfg), klines)
        && (kReady <==> KlineRows(ApiReady(cfg), klines).Some?)
        && unchanged(triple, holdings)
        && refreshed == [Refreshed(SingleScene(single, kReady, Bars()))]
      ensures Due(now, old(lastFetch), REFRESH_MS) && mode == Triple ==>
        && triple[..] == FetchCoins(old(triple[..]), ApiReady(cfg), prices)
        && single == old(single) && kReady == old(kReady) && unchanged(kO, kH, kL, kC, holdings)
        && refreshed == [Refreshed(TripleScene(triple[..]))]
      ensures Due(now, old(lastFetch), REFRESH_MS) && mode == Holdings ==>
        && holdings[..] == FetchHoldings(old(holdings[..]), ApiReady(cfg), prices)
        && single == old(single) && kReady == old(kReady) && unchanged(kO, kH, kL, kC, triple)
        && refreshed == [Refreshed(HoldingsScene(holdings[..]))]
    {
      refreshed := [];
      if Sub32(now, lastFetch) >= REFRESH_MS {
        lastFetch := now;
        var scene := Refresh(prices, klines);
        refreshed := [Refreshed(scene)];
      }
    }

    /**
     * One pass of loop at time `now`: the countdown is drawn; then, if ten
     * minutes have passed since the last status push, a push is made; then,
     * if 15 seconds have passed since the last fetch, the current screen is
     * fetched and redrawn. The push is checked before the refresh.
     */
    method Tick(now: int, env: PostEnv, prices: PriceReplies, klines: Reply<KlineBody>) returns (events: seq<TickEvent>)
      requires Valid() && IsU32(now)
      modifies this`lastSysPush, this`lastFetch, this`single, this`kReady, kO, kH, kL, kC, triple, holdings
      ensures Valid()
      ensures |events| >= 1 && events[0] == CountdownDrawn(CountdownOps(Countdown(now, old(lastFetch))))
      ensures var pushDue := Due(now, old(lastSysPush), SYS_PUSH_MS);
        var refreshDue := Due(now, old(lastFetch), REFRESH_MS);
        && |events| == 1 + (if pushDue then 1 else 0) + (if refreshDue then 1 else 0)
        && (pushDue ==> events[1] == StatusPushed(PostText(cfg.webhook, env)) && lastSysPush == now)
        && (!pushDue ==> lastSysPush == old(lastSysPush))
        && (refreshDue ==> events[|events| - 1].Refreshed? && lastFetch == now)
        && (!refreshDue ==> (lastFetch == old(lastFetch) && single == old(single) && kReady == old(kReady)
              && unchanged(kO, kH, kL, kC, triple, holdings)))
      ensures Due(now, old(lastFetch), REFRESH_MS) && mode == Single ==>
        && single == FetchPrice(old(single), ApiReady(cfg), prices.r0).0
        && Bars() == KlinesAfter(old(Bars()), ApiReady(cfg), klines)
        && (kReady <==> KlineRows(ApiReady(cfg), klines).Some?)
        && unchanged(triple, holdings)
        && events[|events| - 1] == Refreshed(SingleScene(single, kReady, Bars()))
      ensures Due(now, old(lastFetch), REFRESH_MS) && mode == Triple ==>
        && triple[..] == FetchCoins(old(triple[..]), ApiReady(cfg), prices)
        && single == old(single) && kReady == old(kReady) && unchanged(kO, kH, kL, kC, holdings)
        && events[|events| - 1] == Refreshed(TripleScene(triple[..]))
      ensures Due(now, old(lastFetch), REFRESH_MS) && mode == Holdings ==>
        && holdings[..] == FetchHoldings(old(holdings[..]), ApiReady(cfg), prices)
        && single == old(single) && kReady == old(kReady) && unchanged(kO, kH, kL, kC, triple)
        && events[|events| - 1] == Refreshed(HoldingsScene(holdings[..]))
    {
      events := [CountdownDrawn(CountdownOps(Countdown(now, lastFetch)))];
      var pushed := PushIfDue(now, env);
      var refreshed := RefreshIfDue(now, prices, klines);
      events := events + pushed + refreshed;
    }
  }
}
