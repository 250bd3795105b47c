# ESP8266 coin price display: a verified model of the firmware core

The firmware (`src/main.cpp`) drives a 240x240 TFT on an ESP8266. It shows
one of three screens:

- a single coin, with its price and a ten-bar candlestick chart;
- three coins, with their prices;
- three holdings, with their profit and loss.

Prices and candles come from an HTTP API. A small web server changes the
screen and the settings. Every ten minutes a status report goes to a
webhook.

This project models the firmware's state and decision logic in Dafny and
proves what it does:

| module | file | what it covers |
|---|---|---|
| `Symbols` | `symbols.dfy` | `normalizeSymbol` (trim, upper-case, append "USDT", cut to 11), as a function and as the in-place method the firmware runs |
| `Market` | `market.dfy` | coins and holdings as values; the symbol setters; the outcome of `fetchPrice`/`fetchHoldingPrice`; the ten-slot window `fetchKlines10` fills |
| `Chart` | `chart.dfy` | the geometry of `drawSingle`'s chart: range scan, padding, `toY` with C truncation and clamping, wick and body of each candle |
| `Timing` | `timing.dfy` | `millis()` arithmetic modulo 2^32, `drawCountdown`, and `formatUptime` with its round trip |
| `Display` | `display.dfy` | price colour, holding P/L and percent, formatting decisions, and the draw calls of the three screens |
| `Config` | `config.dfy` | `cfgDefaults`, `cfgLoad` with the magic check, `handleCfgSet`, `apiReady` |
| `Report` | `report.dfy` | how `postFeishuText` classifies its outcome; the `/push` status |
| `Device` | `device.dfy` | a class holding the globals; the web handlers, `setup`, and one pass of `loop` as methods that update it in place |

Other choices in the model:

- Outside the device, the network appears only as the replies each request
  gets (`Reply`, `PostEnv`).
- Drawing is the list of calls made (`Screen.DrawOp`).
- `float` is modelled as `real`.
- Characters stand for bytes.
- The four kline arrays and the triple and holdings tables stay arrays,
  written element by element as in the firmware.

Two facts of the code that the model keeps:

- `loop` checks the status push before the display refresh
  (src/main.cpp:919, 924).
- `normalizeSymbol` is not idempotent. Normalising twice, as `handleSingle`,
  `handleTripleConfig` and `handleHoldingsConfig` do, changes a symbol whose
  cut to 11 characters ends in whitespace (`Symbols.NormalizeIdempotentIff`,
  `Symbols.NormalizeNotIdempotentExample`).

## Model

| member | source | states |
|---|---|---|
| Symbols.UpperChar | src/main.cpp:138 | toupper maps each of 'a'..'z' to its upper-case letter (the code 32 below), keeps every other byte, and leaves no lower-case byte |
| Symbols.Upper | src/main.cpp:138 | String::toUpperCase keeps the length, leaves no lower-case letter, and maps each byte by toupper |
| Symbols.TrimStart | src/main.cpp:137 | the leading-whitespace cut is no longer than its input and does not start with whitespace |
| Symbols.TrimEnd | src/main.cpp:137 | the trailing-whitespace cut is no longer than its input and does not end with whitespace |
| Symbols.Trim | src/main.cpp:137 | String::trim leaves no whitespace at either end and never lengthens |
| Symbols.TrimStartDropsSpace | src/main.cpp:137 | TrimStart keeps a suffix of its input and everything it drops is whitespace |
| Symbols.TrimEndDropsSpace | src/main.cpp:137 | TrimEnd keeps a prefix of its input and everything it drops is whitespace |
| Symbols.TrimStartAt | src/main.cpp:137 | TrimStart stops at the first non-whitespace byte |
| Symbols.TrimEndAt | src/main.cpp:137 | TrimEnd stops after the last non-whitespace byte |
| Symbols.TrimOfEdgeless | src/main.cpp:137 | a string with no whitespace at either end is its own trim |
| Symbols.TrimDropsTrailingSpace | src/main.cpp:137 | a string that starts with a non-space and ends with whitespace loses a non-empty run of whitespace and keeps a prefix |
| Symbols.TrimEmptyIff | src/main.cpp:137 | the trim is empty exactly when every byte is whitespace |
| Symbols.UpperOfNoLower | src/main.cpp:138 | upper-casing a string with no lower-case letter changes nothing |
| Symbols.AddSuffixAndCut | src/main.cpp:139-140 | appending the missing "USDT" and cutting gives 4 to 11 bytes, adds no lower-case letter and keeps a non-space first byte |
| Symbols.AddSuffixAndCutSuffix | src/main.cpp:139-140 | the result ends in "USDT" unless it was cut to 11 bytes |
| Symbols.AddSuffixAndCutFixes | src/main.cpp:139-140 | a string of at most 11 bytes that ends in "USDT", or has exactly 11 bytes, passes unchanged |
| Symbols.AddSuffixAndCutDiffers | src/main.cpp:139-140 | after a proper prefix that the longer string continues with whitespace, the step cannot give back the longer string |
| Symbols.Normalize | src/main.cpp:136-141 | a normalised symbol has 4 to 11 bytes, no lower-case letter and no leading whitespace |
| Symbols.NormalizeSuffix | src/main.cpp:136-141 | a normalised symbol ends in "USDT" unless it was cut to 11 bytes |
| Symbols.StringTrim | src/main.cpp:137 | the in-place trim with a begin and an end index computes Trim |
| Symbols.StringToUpper | src/main.cpp:138 | the byte-by-byte rewrite computes Upper |
| Symbols.NormalizeSymbol | src/main.cpp:136-141 | the in-place sequence trim, toUpperCase, append when endsWith fails, substring computes Normalize |
| Symbols.NormalizeKeepsCanonical | src/main.cpp:136-141 | an upper-case symbol of at most 11 bytes that ends in "USDT" and starts with a non-space is returned unchanged |
| Symbols.NormalizeIdempotentIff | src/main.cpp:136-141 | normalising a normalised symbol again changes nothing exactly when it does not end in whitespace |
| Symbols.NormalizeFixesEdgeless | src/main.cpp:136-141 | a candidate normal form with no whitespace at either end is a fixed point |
| Symbols.NormalizeMovesTrailingSpace | src/main.cpp:136-141 | a candidate that ends in whitespace is not a fixed point |
| Symbols.NormalizeExampleBtc | src/main.cpp:136-141 | "btc" becomes "BTCUSDT" |
| Symbols.NormalizeExampleEmpty | src/main.cpp:136-141 | "" becomes "USDT" |
| Symbols.NormalizeExampleEth | src/main.cpp:136-141 | " eth " becomes "ETHUSDT" |
| Symbols.NormalizeExampleAlready | src/main.cpp:136-141 | "alreadyUSDT" becomes "ALREADYUSDT" |
| Symbols.NormalizeNotIdempotentExample | src/main.cpp:136-141 | "abcdefghij k" becomes "ABCDEFGHIJ " and then "ABCDEFGHIJU" |
| Symbols.NormalizeCutExample | src/main.cpp:136-141 | "abcdefghij k" is cut to "ABCDEFGHIJ ", which ends in a space |
| Symbols.NormalizeRecutExample | src/main.cpp:136-141 | "ABCDEFGHIJ " normalises to "ABCDEFGHIJU" |
| Market.SetSymbol | src/main.cpp:143-155 | setCoinSymbol/setHoldingSymbol store the normalised symbol, set the previous price to the unset marker -1 whether or not the symbol changed, and keep price and decimals |
| Market.FetchPrice | src/main.cpp:289-335 | a fetch succeeds exactly when the API is configured, begin succeeds, the code is 200 and the body parses; on success the previous price becomes the old price and the price the body's value; on failure nothing changes |
| Market.PriceOf | src/main.cpp:309 | the reply's price when the JSON has one, 0 when the member is missing |
| Market.PriceFetched | src/main.cpp:290-306 | a fetch succeeds only with a configured API and a 200 reply; an unparsable body fails it; a 200 reply with a parsed body on a configured API succeeds |
| Market.MissingPriceReadsZero | src/main.cpp:308-309 | a 200 reply whose JSON has no "price" still succeeds and sets the price to 0 |
| Market.UnsetEndsAtFirstFetch | src/main.cpp:143-148 | the unset previous price lasts only until the first successful fetch |
| Market.Field | src/main.cpp:364-367 | a missing field of a row reads as 0, a present one as its value |
| Market.BarOf | src/main.cpp:364-367 | a row of at least five fields gives the bar of fields 1..4; a row without them reads as zeros |
| Market.KlineRows | src/main.cpp:338-360 | the rows are used exactly when the API is configured, begin succeeds, the code is 200, the body is a JSON array and the array is not empty |
| Market.Window | src/main.cpp:362-369 | the window always has ten slots |
| Market.WindowShape | src/main.cpp:362-369 | the window is the first min(n, 10) rows followed by repeats of row n-1 |
| Market.WindowOfOneRow | src/main.cpp:362-369 | with a single row, all ten slots hold that row |
| Market.BarsOf | src/main.cpp:362-369 | one bar per row |
| Market.Repeat | src/main.cpp:363 | k copies of one bar |
| Device.Device.FetchKlines10 | src/main.cpp:337-373 | on every failure path kReady becomes false and the arrays are unchanged; on success slot i holds fields 1..4 of row min(i, n-1) and kReady becomes true |
| Device.KlinesAfter | src/main.cpp:337-373 | the bars after a fetch keep ten slots: the new window when the rows are usable, the old bars on every failure |
| Chart.MinLow | src/main.cpp:408-412 | the scan's minimum is a lower bound of every low and is one of them |
| Chart.MaxHigh | src/main.cpp:408-412 | the scan's maximum is an upper bound of every high and is one of them |
| Chart.PadScale | src/main.cpp:413-417 | both bounds move out by the same amount: the padded range is hi - lo + 0.12 when hi - lo is below 0.0001, and 1.12 (hi - lo) otherwise; for lo <= hi it is positive and strictly encloses lo and hi |
| Chart.ScaleOf | src/main.cpp:408-417 | the range of the bars' padded scale is the distance between its padded bounds |
| Chart.ScaleOfEncloses | src/main.cpp:408-417 | the padded scale strictly encloses the lowest low and the highest high, whatever the bars |
| Chart.ScaleOfWellFormed | src/main.cpp:408-417 | for bars whose lows do not exceed their highs, the padded range is positive and strictly encloses every bar |
| Chart.Trunc | src/main.cpp:428 | C's (int) cast truncates toward zero |
| Chart.TruncMonotone | src/main.cpp:428 | truncation is monotone |
| Chart.Clamp | src/main.cpp:429-430 | the clamp lands in [62, 235] and leaves rows already inside unchanged |
| Chart.ToY | src/main.cpp:426-432 | toY is always within [62, 235] |
| Chart.ToYAntitone | src/main.cpp:426-432 | a higher price never maps to a lower row |
| Chart.ToYEnds | src/main.cpp:426-432 | the padded maximum maps to row 62 and the padded minimum to row 235 |
| Chart.ToYFloor | src/main.cpp:426-432 | with the clamp, truncation and floor give the same row |
| Chart.CandleColor | src/main.cpp:443 | every candle is green or red |
| Chart.FlatCandleIsGreen | src/main.cpp:443 | a bar that closed at its open is green |
| Chart.XCenterInSlot | src/main.cpp:435 | the x centre of slot i lies strictly inside the 24-pixel slot, as far from its left edge as from its right |
| Chart.Candle | src/main.cpp:434-453 | each slot makes exactly two draw calls |
| Chart.Candles | src/main.cpp:434-453 | the candles of n slots are 2n draw calls |
| Chart.CandlesAt | src/main.cpp:434-453 | slot i's wick and body are calls 2i and 2i+1: the slots are drawn left to right |
| Chart.CandleGeometry | src/main.cpp:421-451 | the body is 18 wide inside its own 24-column slot; its top is min(yO, yC) and its height max(abs(yO - yC), 2); the wick stands at the slot centre; the body is green exactly when close >= open |
| Chart.ChartOps | src/main.cpp:419-453 | the chart starts by clearing the chart area; then two calls per bar follow when the range is non-zero, and nothing when it is zero |
| Device.Device.PadRange | src/main.cpp:413-417 | the padding as drawSingle computes it in place gives exactly PadScale of the scanned bounds |
| Device.Device.ScanRange | src/main.cpp:408-412 | the first loop computes the minimum low and the maximum high of the ten bars |
| Device.Device.DrawCandles | src/main.cpp:434-453 | the second loop emits the candles of the ten bars in slot order |
| Device.Device.DrawChart | src/main.cpp:413-453 | the chart is the cleared chart area followed by the candles on the padded scale |
| Device.Device.DrawSingle | src/main.cpp:375-454 | drawSingle draws the header, then either "kline not ready" or the chart of the stored bars |
| Display.SingleSceneShape | src/main.cpp:375-454 | the header comes first; without bars only the orange notice follows; with well-formed bars the cleared chart area and ten candles follow |
| Screen.Divider | src/main.cpp:120-122 | a divider is a dark grey horizontal line at y spanning the whole panel width |
| Display.SingleHeader | src/main.cpp:375-398 | the single screen's header clears the screen, prints the symbol, and prints the price in its price colour with at most 6 decimals |
| Display.SingleScene | src/main.cpp:375-454 | after the header come only the orange notice when the bars are not ready, or exactly the chart when they are |
| Display.PriceColor | src/main.cpp:388-391 | the price is white exactly when the previous price is unset (< 0); otherwise it is green exactly when it did not fall |
| Display.PriceColorAfterSetSymbol | src/main.cpp:388-391 | right after a symbol is set, the price is drawn white |
| Display.PriceColorAfterFetch | src/main.cpp:388-391 | after a successful fetch, the price colour is the candle colour of a move from the old price to the new one |
| Display.FormatPrice | src/main.cpp:103-108 | the price is shown with its decimals clamped to at most 6 |
| Display.FormatPL | src/main.cpp:110-113 | the sign is "-" exactly for a negative P/L, and sign with magnitude give back the value |
| Display.FormatPercent | src/main.cpp:115-118 | a "+" is added exactly for a non-negative percent |
| Display.HoldingPL | src/main.cpp:517-520 | the P/L is (price - buy) * amount; the percent is 0 when buy <= 0, undefined (0/0) exactly when buy > 0 and amount == 0, and (price - buy) / buy * 100 otherwise |
| Display.PLColor | src/main.cpp:522 | the P/L is green exactly when it is >= 0 |
| Display.PLColorOfLong | src/main.cpp:517-522 | for a positive amount the P/L is green exactly when the price is at or above the buy price |
| Display.HoldingPLExample | src/main.cpp:517-520 | 0.1 bought at 50000 and now at 55000 gives +500 and +10% |
| Display.HoldingRowShows | src/main.cpp:491-550 | a holdings row shows the P/L and the percent right-aligned in one colour, green exactly when not at a loss, and the P/L text gives back the value |
| Display.ClampDecimals | src/main.cpp:783-784 | decimals are clamped to [0, 6] |
| Display.ClampDecimalsStable | src/main.cpp:103-108 | clamping is idempotent, and formatPrice keeps clamped decimals |
| Display.TripleRow | src/main.cpp:459-488 | coin i's four calls all lie in its 80-pixel band, and its price is printed in its price colour |
| Display.TripleScene | src/main.cpp:456-489 | the triple screen clears the screen, then makes four calls per coin |
| Display.TripleRows | src/main.cpp:459-488 | four draw calls per coin |
| Display.TripleRowsAt | src/main.cpp:459-488 | coin i's row is calls 4i .. 4i+3 |
| Display.HoldingRow | src/main.cpp:494-549 | position i's six calls all lie in its 80-pixel band, and its price is printed in its price colour |
| Display.HoldingsScene | src/main.cpp:491-550 | the holdings screen clears the screen, then makes six calls per position |
| Display.HoldingRows | src/main.cpp:494-549 | six draw calls per position |
| Display.HoldingRowsAt | src/main.cpp:494-549 | position i's row is calls 6i .. 6i+5 |
| Device.Device.DrawTriple | src/main.cpp:456-489 | drawTriple clears the screen and draws the rows of the three coins in order |
| Device.Device.DrawHoldings | src/main.cpp:491-550 | drawHoldings clears the screen and draws the rows of the three positions in order |
| Timing.Sub32 | src/main.cpp:125 | uint32 subtraction is the difference modulo 2^32 |
| Timing.AsI32 | src/main.cpp:126 | (int32_t) is negative exactly above 2^31 - 1 |
| Timing.Remain | src/main.cpp:125 | remain is at most (2^32 - 1) / 1000 |
| Timing.Countdown | src/main.cpp:124-127 | the countdown as written is at most 99 |
| Timing.CountdownNegativeBranchDead | src/main.cpp:126 | the (int32_t)remain < 0 test never fires |
| Timing.CountdownNotDue | src/main.cpp:124-127 | with elapsed <= 15000 ms the countdown is (15000 - elapsed) / 1000 |
| Timing.CountdownOverdueShows99 | src/main.cpp:124-127 | for 15000 < elapsed <= 4294883296 the countdown shows 99 |
| Timing.CountdownFarOverdue | src/main.cpp:124-127 | beyond 4294883296 ms the wrapped value drops below 99 again |
| Timing.CountdownIntended | src/main.cpp:124-127 | the corrected countdown is at most 15 and is 0 once the refresh is due |
| Timing.CountdownsAgreeUntilDue | src/main.cpp:124-127 | the two countdowns agree while the refresh is not overdue |
| Timing.CountdownOverdueExample | src/main.cpp:124-127 | 15001 ms after the last fetch the firmware shows 99 where 0 is meant |
| Timing.Due | src/main.cpp:924 | a timer is due when the elapsed time reaches the period, the elapsed time being now - last, or now + 2^32 - last once millis() has wrapped |
| Timing.DueAcrossWrap | src/main.cpp:924 | the due test measures elapsed time across the wrap of millis() |
| Timing.UptimeOf | src/main.cpp:158-161 | s < 60, m < 60, h < 24 and d*86400 + h*3600 + m*60 + s == ms / 1000 |
| Timing.Dec | src/main.cpp:163 | String(d) is decimal digits without a leading zero |
| Timing.DecRoundTrip | src/main.cpp:163 | reading String(d) back gives d |
| Timing.Pad2 | src/main.cpp:165 | %02lu of a number below 100 is two digits |
| Timing.Pad2RoundTrip | src/main.cpp:165 | reading the two digits back gives the number |
| Timing.FormatUptime | src/main.cpp:157-169 | the uptime text has at least 8 characters, and more exactly when the uptime reaches one day (86400000 ms) |
| Timing.DaysIff | src/main.cpp:158-163 | the day count is positive exactly when ms reaches 86400000 |
| Timing.Clock | src/main.cpp:164-166 | the clock text is eight bytes: three two-digit fields separated by ':' |
| Timing.ClockRoundTrip | src/main.cpp:164-166 | the "hh:mm:ss" text reads back to the seconds within the day |
| Timing.FormatUptimeShape | src/main.cpp:157-169 | the text ends in "hh:mm:ss" after a "<d>d " prefix that appears exactly when d > 0 |
| Timing.UptimeRoundTrip | src/main.cpp:157-169 | the uptime text can be read back to ms / 1000: it loses only the milliseconds |
| Timing.FormatUptimeExample | src/main.cpp:157-169 | 90061000 ms is "1d 01:01:01" |
| Config.ToBuffer | src/main.cpp:746-751 | toCharArray keeps a prefix of at most size - 1 bytes: all of a short string, exactly size - 1 bytes of a long one |
| Config.Load | src/main.cpp:87-95 | cfgLoad keeps a record whose magic matches; otherwise it takes the defaults and writes them back; the result always carries the magic |
| Config.LoadIdempotent | src/main.cpp:87-95 | loading what a load left behind changes and writes nothing |
| Config.Defaults | src/main.cpp:80-85 | the defaults carry the magic, the placeholder API base whole, and an empty webhook |
| Config.ApiReady | src/main.cpp:283-287 | the API is configured exactly when its base URL holds a non-whitespace byte |
| Config.DefaultsState | src/main.cpp:80-85 | the placeholder API base counts as configured and the default webhook is blank |
| Config.CfgSet | src/main.cpp:740-755 | both values are trimmed; the API base is replaced only by a non-blank value, the webhook always; each is cut to 95 and 191 bytes; the magic is set |
| Config.ApiReadyAfterSet | src/main.cpp:740-755 | after /cfg the API is configured exactly when the new value is non-blank or it was configured before |
| Config.LoadAfterSave | src/main.cpp:87-101 | what /cfg saves is what the next boot loads |
| Config.CfgSetKeepsShortValues | src/main.cpp:740-755 | short values are stored trimmed and whole |
| Config.BlankWebhookClears | src/main.cpp:749-750 | a blank webhook argument clears the webhook |
| Report.PostText | src/main.cpp:200-242 | no webhook gives -3, no Wi-Fi -1, a refused begin -2, in that order; otherwise the server's code and body come back, and the push succeeded exactly when 0 < code < 300 |
| Report.Accepted | src/main.cpp:241 | every 1xx and 2xx code is accepted; no code of 300 or above, no non-positive code and none of postFeishuText's own failure codes is |
| Report.InformationalCountsAsSuccess | src/main.cpp:241 | a 1xx answer counts as success |
| Report.BlankWebhookIgnoresNetwork | src/main.cpp:201-208 | with no webhook the network state does not matter |
| Report.FailedPushCode | src/main.cpp:200-242 | a failed push never reports an accepted code |
| Report.ClearedWebhookDisablesPush | src/main.cpp:200-208 | after /cfg with a blank webhook every push gives -3 |
| Report.PushStatus | src/main.cpp:256 | /push answers 200 exactly when the push succeeded, 500 otherwise |
| Device.Device.HandlePushSys | src/main.cpp:244-257 | /push reports postFeishuText's outcome for the stored webhook, with status 200 or 500 |
| Device.ModeArg | src/main.cpp:757-763 | the mode argument names a mode exactly for "single", "triple" and "holdings" |
| Device.Device.HandleMode | src/main.cpp:757-763 | /mode sets a named mode, keeps the mode for anything else, always answers 200, and fetches and draws nothing |
| Device.Device.HandleSingle | src/main.cpp:765-779 | /single refuses a symbol shorter than 2 with 400 and changes nothing; otherwise it stores the twice-normalised symbol with the previous price unset, switches to single, and fetches and draws |
| Device.Device.HandleSingleDec | src/main.cpp:781-789 | /singleDec stores the clamped decimals and redraws only when the single screen is showing |
| Device.Device.ConfigureCoinAt | src/main.cpp:801-819 | one coin gets the twice-normalised symbol, an unset previous price and the clamped decimals; the other coins are unchanged |
| Device.Device.ConfigureHoldingAt | src/main.cpp:838-864 | one position gets the symbol as a coin does, plus the new buy price, amount and clamped decimals; the others are unchanged |
| Device.Device.HandleTripleConfig | src/main.cpp:791-826 | /triple refuses any symbol shorter than 2 with 400 and changes nothing; otherwise it configures all three coins, switches to triple, and fetches and draws |
| Device.Device.HandleHoldingsConfig | src/main.cpp:828-871 | /holdings refuses any symbol shorter than 2 with 400 and changes nothing; otherwise it configures all three positions, switches to holdings, and fetches and draws |
| Device.ConfigureCoins | src/main.cpp:801-819 | the three coins after /triple are each configured from their own slot's arguments |
| Device.ConfigureCoin | src/main.cpp:801-819 | a configured coin has the twice-normalised symbol (at most 11 bytes), an unset previous price, its old price, and the clamped decimals |
| Device.ConfigureHoldings | src/main.cpp:838-864 | the three positions after /holdings are each configured from their own slot's arguments |
| Device.ConfigureHolding | src/main.cpp:838-864 | a configured position is configured as a coin is, and takes the new buy price and amount |
| Device.ConfigureThenFetch | src/main.cpp:801-822 | a configured coin has the twice-normalised symbol, the clamped decimals and an unset previous price; after the fetch that follows, it keeps the previous price unset (drawn white) on failure and takes the old price on success |
| Device.ConfigureCanonical | src/main.cpp:136-148 | a canonical symbol argument is stored exactly as given |
| Device.FetchCoins | src/main.cpp:932 | the three coins after one fetch each |
| Device.FetchHoldings | src/main.cpp:935 | the three positions after one fetch each |
| Device.Device.RefreshSingle | src/main.cpp:928-930 | the single refresh fetches the price and the klines, then draws the single screen |
| Device.Device.RefreshTriple | src/main.cpp:932-933 | the triple refresh fetches each coin, then draws the triple screen |
| Device.Device.RefreshHoldings | src/main.cpp:935-936 | the holdings refresh fetches each position, then draws the holdings screen |
| Device.Device.HandleCfgSet | src/main.cpp:740-755 | /cfg stores CfgSet of the old settings in RAM and in the EEPROM, and answers 200 |
| Device.Device.constructor | src/main.cpp:21-69 | the static initial values of the globals |
| Device.Device.Setup | src/main.cpp:873-911 | setup loads the settings (writing the defaults back when the magic is wrong), starts both timers, then fetches and draws the single screen |
| Device.CountdownOps | src/main.cpp:129-133 | the countdown clears a black corner at the right edge of the panel and prints "T-<n>s" inside it |
| Device.Device.PushIfDue | src/main.cpp:919-922 | the status push is sent, and lastSysPush set to now, exactly when ten minutes have passed; otherwise nothing is sent and the timer is kept |
| Device.Device.Refresh | src/main.cpp:927-938 | the current mode's screen is fetched and drawn: price, bars and chart in single mode, three coins or three positions otherwise, and the other screens' data is left alone |
| Device.Device.RefreshIfDue | src/main.cpp:924-939 | the current screen is refreshed, and lastFetch set to now, exactly when 15 seconds have passed; otherwise no state changes |
| Device.Device.Tick | src/main.cpp:913-941 | one pass of loop draws the countdown as written (Timing.Countdown), then pushes if ten minutes have passed, then refreshes the current screen if 15 seconds have passed; each timer restarts only when its action runs |

## Left out

- Pixels, fonts and text widths of the TFT are not modelled. A screen is the list of draw calls with their coordinates, colours and texts.
- The number formatting of snprintf (`%.*f`, `%.2f`, `%.3f`) is not modelled. A text records the value and the choices made: decimals, sign, "+" prefix.
- IEEE single-precision rounding is not modelled: prices, P/L and the chart arithmetic are over reals. The float NaN of 0/0 is `None`.
- Chart.ToY: a padded range of exactly 0.0 can only come from inconsistent bars. In the firmware it divides by zero; the model draws no candles in that case.
- HTTP, HTTPS, BearSSL and the JSON parsing are not modelled. Each request is represented by its outcome: begin refused, or a status code with a body that did or did not parse.
- EEPROM.begin/get/put/commit are not modelled. The EEPROM is a field holding the stored record.
- WiFiManager provisioning, server routing and `handleClient` are platform plumbing and are not modelled. The same holds for the hardware set-up in `setup` and `delay`/`yield`. Each handler is a method called with its arguments.
- The parsing of numeric arguments (`toInt`, `toFloat`) is not modelled. The handlers take the parsed numbers.
- `handleRoot`, `handleCfgGet` and the embedded HTML/JavaScript page (src/main.cpp:552-738) only serve text and are not modelled.
- `buildSysReportText` and `handleSysJson` (src/main.cpp:171-198, 259-281) read system metrics through foreign calls and are not modelled. The text pushed by `loop` and `/push` is not modelled; only the outcome of the push is.
- The C strings' 12-byte symbol buffers and the NUL terminator are implicit. A String containing a NUL byte, which toCharArray would cut short, is not modelled.

## Findings

| source | as written | input that shows it | evidently intended | confidence | as-written member | corrected member |
|---|---|---|---|---|---|---|
| src/main.cpp:124-127 | `remain = (REFRESH_MS - (now - lastFetch)) / 1000` on uint32_t, then `if ((int32_t)remain < 0) remain = 0; if (remain > 99) remain = 99` | now - lastFetch = 15001 ms (refresh overdue by 1 ms): the subtraction wraps to 4294967295, remain = 4294967, which is positive as int32, and the countdown shows "T-99s" | show 0 once the refresh is due, as the negative test shows was meant; the test can never fire because remain is at most 4294967 | high, not executed | Timing.CountdownOverdueExample | Timing.CountdownIntended |

`Device.Device.Tick` draws `Timing.Countdown`, the countdown as the firmware
computes it. `Timing.CountdownIntended` is the corrected formula: it is proved
to stay at most 15 and to be 0 once the refresh is due.
