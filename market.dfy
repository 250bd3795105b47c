/**
 * The market data the firmware keeps: the Coin and Holding records
 * (src/main.cpp:30-44), the symbol setters (src/main.cpp:143-155), the
 * outcome of a price request (fetchPrice / fetchHoldingPrice,
 * src/main.cpp:289-335) and the ten-slot candlestick window that
 * fetchKlines10 fills (src/main.cpp:337-373).
 *
 * The HTTP exchange and the JSON parse are not modelled: a request is
 * described by the reply it gets, and a parsed body by the values the
 * firmware reads out of it.
 */
module Market {

  import opened Wrappers
  import opened Symbols

  /** lastPrice = -1 marks "no previous price": the price is then drawn in white. */
  const UNSET: real := -1.0

  /** Number of candlestick slots (KCOUNT). */
  const KCOUNT: nat := 10

  /**
   * The fields a Coin and a Holding share: the symbol (at most 11
   * characters, it lives in a 12-byte buffer), the latest and the previous
   * price, and the number of decimals the price is drawn with.
   */
  datatype Quote = Quote(symbol: string, price: real, lastPrice: real, decimals: nat)

  /** A position: its quote plus the average buy price and the amount held. */
  datatype Holding = Holding(quote: Quote, buyPrice: real, amount: real)

  /**
   * setCoinSymbol / setHoldingSymbol: the symbol is normalised (again) and
   * copied into the 12-byte buffer, and the previous price is forgotten,
   * whether or not the symbol changed. Price and decimals stay.
   */
  function SetSymbol(q: Quote, sym: string): (r: Quote)
    ensures r.symbol == Normalize(sym) && |r.symbol| <= MAX_SYMBOL
    ensures r.lastPrice == UNSET && r.lastPrice < 0.0
    ensures r.price == q.price && r.decimals == q.decimals
  {
    q.(symbol := Normalize(sym), lastPrice := UNSET)
  }

  /** What became of an HTTP request: http.begin refused it, or a status code and a body came back. */
  datatype Reply<B> = BeginFailed | Answered(code: int, body: B)

  /**
   * The body of a /price reply as the firmware sees it: not valid JSON, or
   * a JSON document whose "price" member is a number or missing.
   */
  datatype PriceBody = Unparsable | PriceJson(price: Option<real>)

  /** doc["price"].as<float>(): a missing member reads as 0. */
  function PriceOf(body: PriceBody): (p: real)
    requires body.PriceJson?
    ensures body.price.Some? ==> p == body.price.value
    ensures body.price.None? ==> p == 0.0
  {
    match body.price
    case Some(p) => p
    case None => 0.0
  }

  /** A price request succeeds when the API base is set, the status is 200 and the body parses. */
  function PriceFetched(apiReady: bool, reply: Reply<PriceBody>): (ok: bool)
    ensures ok ==> apiReady && reply.Answered? && reply.code == 200
    ensures reply.Answered? && reply.body.Unparsable? ==> !ok
    ensures apiReady && reply.Answered? && reply.code == 200 && reply.body.PriceJson? ==> ok
  {
    apiReady && reply.Answered? && reply.code == 200 && reply.body.PriceJson?
  }

  /**
   * fetchPrice / fetchHoldingPrice: on success the old price becomes the
   * previous price and the reply's price becomes the price; on any failure
   * the quote is left as it was.
   */
  function FetchPrice(q: Quote, apiReady: bool, reply: Reply<PriceBody>): (r: (Quote, bool))
    ensures r.1 <==> PriceFetched(apiReady, reply)
    ensures r.1 ==> r.0 == q.(lastPrice := q.price, price := PriceOf(reply.body))
    ensures !r.1 ==> r.0 == q
  {
    if !apiReady then (q, false)
    else if reply.BeginFailed? then (q, false)
    else if reply.code != 200 then (q, false)
    else if reply.body.Unparsable? then (q, false)
    else (q.(lastPrice := q.price, price := PriceOf(reply.body)), true)
  }

  /** A reply with no "price" member still counts as a success and sets the price to 0. */
  lemma MissingPriceReadsZero(q: Quote)
    ensures FetchPrice(q, true, Answered(200, PriceJson(None))) == (q.(lastPrice := q.price, price := 0.0), true)
  {
  }

  /**
   * "No previous price" lasts only until the first successful fetch: after
   * it, the previous price is the price the quote had before, so it is
   * unset again only if that price was itself negative.
   */
  lemma {:induction false} UnsetEndsAtFirstFetch(q: Quote, sym: string, reply: Reply<PriceBody>)
    requires q.price >= 0.0 && PriceFetched(true, reply)
    ensures SetSymbol(q, sym).lastPrice < 0.0
    ensures FetchPrice(SetSymbol(q, sym), true, reply).0.lastPrice >= 0.0
  {
  }

  /** One candle as the firmware stores it in kO/kH/kL/kC. */
  datatype Bar = Bar(open: real, high: real, low: real, close: real)

  /**
   * The body of a /klines reply as the firmware sees it: not valid JSON,
   * valid JSON that is not an array (as<JsonArray>() then gives an empty
   * array), or an array of rows. A row holds the numbers it has; an element
   * that is missing or not a number reads as 0.
   */
  datatype KlineBody = Unparsable | NotAnArray | Rows(rows: seq<seq<real>>)

  /** arr[idx][j].as<float>(): 0 when the row has no element j. */
  function Field(row: seq<real>, j: nat): (v: real)
    ensures j < |row| ==> v == row[j]
    ensures j >= |row| ==> v == 0.0
  {
    if j < |row| then row[j] else 0.0
  }

  /** Fields 1..4 of a row are open, high, low and close (field 0, the open time, is ignored). */
  function BarOf(row: seq<real>): (b: Bar)
    ensures |row| >= 5 ==> b == Bar(row[1], row[2], row[3], row[4])
    ensures |row| <= 1 ==> b == Bar(0.0, 0.0, 0.0, 0.0)
  {
    Bar(Field(row, 1), Field(row, 2), Field(row, 3), Field(row, 4))
  }

  /**
   * The rows fetchKlines10 goes on to copy, or None on each of its failure
   * paths: API base blank, begin failed, status not 200, parse error, and
   * an array that is empty (or not an array at all).
   */
  function KlineRows(apiReady: bool, reply: Reply<KlineBody>): (r: Option<seq<seq<real>>>)
    ensures r.Some? <==> apiReady && reply.Answered? && reply.code == 200 && reply.body.Rows? && |reply.body.rows| > 0
    ensures r.Some? ==> r.value == reply.body.rows
  {
    if !apiReady then None
    else if reply.BeginFailed? then None
    else if reply.code != 200 then None
    else if !reply.body.Rows? then None
    else if |reply.body.rows| <= 0 then None
    else Some(reply.body.rows)
  }

  /** Slot i of the window: row i while there is one, else the last row. */
  function SlotRow(rows: seq<seq<real>>, i: nat): nat
    requires |rows| > 0
  {
    if i < |rows| then i else |rows| - 1
  }

  /** The ten bars fetchKlines10 writes for a non-empty array of rows. */
  function Window(rows: seq<seq<real>>): (w: seq<Bar>)
    requires |rows| > 0
    ensures |w| == KCOUNT
  {
    seq(KCOUNT, i requires 0 <= i < KCOUNT => BarOf(rows[SlotRow(rows, i)]))
  }

  function BarsOf(rows: seq<seq<real>>): (bs: seq<Bar>)
    ensures |bs| == |rows|
  {
    seq(|rows|, i requires 0 <= i < |rows| => BarOf(rows[i]))
  }

  function Repeat(b: Bar, k: nat): (bs: seq<Bar>)
    ensures |bs| == k && forall i :: 0 <= i < k ==> bs[i] == b
  {
    seq(k, i => b)
  }

  /**
   * The window is the first min(n, 10) rows in order, followed, when there
   * are fewer than ten rows, by copies of the last row: rows beyond the
   * tenth are dropped and missing slots repeat bar n-1 at the end.
   */
  lemma WindowShape(rows: seq<seq<real>>)
    requires |rows| > 0
    ensures var m := if |rows| < KCOUNT then |rows| else KCOUNT;
      Window(rows) == BarsOf(rows[..m]) + Repeat(BarOf(rows[|rows| - 1]), KCOUNT - m)
  {
    var m := if |rows| < KCOUNT then |rows| else KCOUNT;
    var rhs := BarsOf(rows[..m]) + Repeat(BarOf(rows[|rows| - 1]), KCOUNT - m);
    forall i | 0 <= i < KCOUNT
      ensures Window(rows)[i] == rhs[i]
    {
      if i < m {
        assert rhs[i] == BarsOf(rows[..m])[i];
      } else {
        assert rhs[i] == Repeat(BarOf(rows[|rows| - 1]), KCOUNT - m)[i - m];
      }
    }
  }

  /** A reply with a single row fills all ten slots with that row's bar. */
  lemma WindowOfOneRow(row: seq<real>)
    ensures Window([row]) == Repeat(BarOf(row), KCOUNT)
  {
  }
}
