/**
 * The firmware's clock arithmetic: millis() is a 32-bit unsigned counter,
 * so elapsed times are differences modulo 2^32. Covers the refresh
 * countdown drawn in the corner of the screen (drawCountdown,
 * src/main.cpp:123-134), the "is it due" tests of loop
 * (src/main.cpp:919, 924) and the uptime text (formatUptime,
 * src/main.cpp:157-169).
 */
module Timing {

  const U32: int := 0x1_0000_0000
  const I32_MAX: int := 0x7FFF_FFFF

  /** REFRESH_MS: prices are fetched again every 15 seconds. */
  const REFRESH_MS: nat := 15000

  /** SYS_PUSH_MS: the status report is pushed every 10 minutes. */
  const SYS_PUSH_MS: nat := 10 * 60 * 1000

  /** The largest number the countdown shows. */
  const MAX_SHOWN: nat := 99

  /** A uint32_t value. */
  predicate IsU32(x: int) {
    0 <= x < U32
  }

  /** a - b on uint32_t: wraps modulo 2^32. */
  function Sub32(a: int, b: int): (r: int)
    ensures IsU32(r)
    ensures IsU32(a) && IsU32(b) && b <= a ==> r == a - b
    ensures IsU32(a) && IsU32(b) && a < b ==> r == a - b + U32
  {
    (a - b) % U32
  }

  /** now - last >= period, on uint32_t: correct across one wrap of millis(). */
  function Due(now: int, last: int, period: nat): (due: bool)
    ensures IsU32(now) && IsU32(last) && last <= now ==> (due <==> now - last >= period)
    ensures IsU32(now) && IsU32(last) && now < last ==> (due <==> now + (U32 - last) >= period)
  {
    Sub32(now, last) >= period
  }

  /** (int32_t)x: the same 32 bits read as a signed number. */
  function AsI32(x: int): (r: int)
    requires IsU32(x)
    ensures -I32_MAX - 1 <= r <= I32_MAX
    ensures r < 0 <==> x > I32_MAX
  {
    if x > I32_MAX then x - U32 else x
  }

  /** The unclamped remain of drawCountdown: (REFRESH_MS - (now - lastFetch)) / 1000 on uint32_t. */
  function Remain(now: int, lastFetch: int): (r: int)
    ensures 0 <= r <= (U32 - 1) / 1000
  {
    Sub32(REFRESH_MS, Sub32(now, lastFetch)) / 1000
  }

  /**
   * drawCountdown as written: the seconds shown after "T-". The negative
   * test on the signed reinterpretation and the cap at 99 are applied in
   * the firmware's order.
   */
  function Countdown(now: int, lastFetch: int): (r: nat)
    ensures r <= MAX_SHOWN
  {
    var remain := Remain(now, lastFetch);
    var remain' := if AsI32(remain) < 0 then 0 else remain;
    if remain' > MAX_SHOWN then MAX_SHOWN else remain'
  }

  /** The test (int32_t)remain < 0 never holds: remain is at most 4294967, far below 2^31. */
  lemma CountdownNegativeBranchDead(now: int, lastFetch: int)
    ensures AsI32(Remain(now, lastFetch)) >= 0
  {
  }

  /** Before the refresh is due the countdown shows the whole seconds left. */
  lemma CountdownNotDue(now: int, lastFetch: int)
    requires Sub32(now, lastFetch) <= REFRESH_MS
    ensures Countdown(now, lastFetch) == (REFRESH_MS - Sub32(now, lastFetch)) / 1000
  {
  }

  /**
   * Once the refresh is overdue the subtraction wraps: for an elapsed time
   * from 15001 up to 4294883296 ms the countdown shows 99, not 0.
   */
  lemma CountdownOverdueShows99(now: int, lastFetch: int)
    requires REFRESH_MS < Sub32(now, lastFetch) <= 4294883296
    ensures Countdown(now, lastFetch) == MAX_SHOWN
  {
    var e := Sub32(now, lastFetch);
    assert Sub32(REFRESH_MS, e) == REFRESH_MS - e + U32;
  }

  /** Beyond 4294883296 ms the wrapped value drops below 99 again and counts down. */
  lemma CountdownFarOverdue(now: int, lastFetch: int)
    requires Sub32(now, lastFetch) > 4294883296
    ensures Countdown(now, lastFetch) == (U32 + REFRESH_MS - Sub32(now, lastFetch)) / 1000 < MAX_SHOWN
  {
    var e := Sub32(now, lastFetch);
    assert Sub32(REFRESH_MS, e) == REFRESH_MS - e + U32;
  }

  /**
   * The countdown as the negative test shows it was meant: 0 once the
   * refresh is due. The device model draws Countdown; this is the
   * corrected formula.
   */
  function CountdownIntended(now: int, lastFetch: int): (r: nat)
    ensures r <= REFRESH_MS / 1000
    ensures Due(now, lastFetch, REFRESH_MS) ==> r == 0
  {
    var e := Sub32(now, lastFetch);
    if e >= REFRESH_MS then 0 else (REFRESH_MS - e) / 1000
  }

  /** The intended countdown agrees with the written one whenever the refresh is not overdue. */
  lemma CountdownsAgreeUntilDue(now: int, lastFetch: int)
    requires Sub32(now, lastFetch) <= REFRESH_MS
    ensures CountdownIntended(now, lastFetch) == Countdown(now, lastFetch)
  {
    CountdownNotDue(now, lastFetch);
  }

  /** One millisecond overdue: the written countdown shows 99, the intended one 0. */
  lemma CountdownOverdueExample()
    ensures Countdown(15001, 0) == 99
    ensures CountdownIntended(15001, 0) == 0
  {
    CountdownOverdueShows99(15001, 0);
  }

  /** Elapsed time is measured across the wrap of millis(). */
  lemma DueAcrossWrap()
    ensures Due(10000, U32 - 5000, REFRESH_MS)
    ensures !Due(9999, U32 - 5000, REFRESH_MS)
  {
  }

  /** Days, hours, minutes and seconds of an uptime. */
  datatype Uptime = Uptime(days: nat, hours: nat, minutes: nat, seconds: nat)

  /**
   * formatUptime's decomposition: whole seconds, then minutes, hours and
   * days by successive division, each remainder kept.
   */
  function UptimeOf(ms: nat): (u: Uptime)
    ensures u.hours < 24 && u.minutes < 60 && u.seconds < 60
    ensures u.days * 86400 + u.hours * 3600 + u.minutes * 60 + u.seconds == ms / 1000
  {
    var s := ms / 1000;
    var m := s / 60;
    var h := m / 60;
    var d := h / 24;
    DecomposeSeconds(s);
    Uptime(d, h % 24, m % 60, s % 60)
  }

  lemma DecomposeSeconds(s: nat)
    ensures (s / 60 / 60 / 24) * 86400 + (s / 60 / 60 % 24) * 3600 + (s / 60 % 60) * 60 + s % 60 == s
  {
    var m := s / 60;
    var h := m / 60;
    var d := h / 24;
    assert s == m * 60 + s % 60;
    assert m == h * 60 + m % 60;
    assert h == d * 24 + h % 24;
    calc {
      d * 86400 + (h % 24) * 3600 + (m % 60) * 60 + s % 60;
      (d * 24 + h % 24) * 3600 + (m % 60) * 60 + s % 60;
      h * 3600 + (m % 60) * 60 + s % 60;
      (h * 60 + m % 60) * 60 + s % 60;
      m * 60 + s % 60;
    }
  }

  function Digit(n: nat): (c: char)
    requires n < 10
    ensures '0' <= c <= '9'
  {
    ('0' as int + n) as char
  }

  predicate IsDigit(c: char) {
    '0' <= c <= '9'
  }

  function DigitValue(c: char): nat
    requires IsDigit(c)
  {
    c as int - '0' as int
  }

  predicate AllDigits(s: string) {
    forall i :: 0 <= i < |s| ==> IsDigit(s[i])
  }

  /** String(n) for an unsigned number: its decimal digits, no leading zero. */
  function Dec(n: nat): (s: string)
    ensures |s| >= 1 && AllDigits(s)
    ensures s[0] == '0' ==> n == 0
  {
    if n < 10 then [Digit(n)] else Dec(n / 10) + [Digit(n % 10)]
  }

  /** The number a string of decimal digits spells. */
  function DecValue(s: string): nat
    requires AllDigits(s)
  {
    if s == [] then 0 else DecValue(s[..|s| - 1]) * 10 + DigitValue(s[|s| - 1])
  }

  /** Reading back the digits of n gives n. */
  lemma {:induction false} DecRoundTrip(n: nat)
    ensures DecValue(Dec(n)) == n
  {
    if n >= 10 {
      var s := Dec(n);
      assert s[..|s| - 1] == Dec(n / 10);
      DecRoundTrip(n / 10);
    }
  }

  /** "%02lu" of a number below 100: exactly two digits. */
  function Pad2(n: nat): (s: string)
    requires n < 100
    ensures |s| == 2 && AllDigits(s)
  {
    [Digit(n / 10), Digit(n % 10)]
  }

  lemma Pad2RoundTrip(n: nat)
    requires n < 100
    ensures DecValue(Pad2(n)) == n
  {
    var s := Pad2(n);
    assert s[..1] == [Digit(n / 10)] && s[..1][..0] == [];
    assert DecValue(s[..1]) == n / 10;
  }

  /** "hh:mm:ss" of the hours, minutes and seconds. */
  function Clock(u: Uptime): (c: string)
    requires u.hours < 24 && u.minutes < 60 && u.seconds < 60
    ensures |c| == 8 && c[2] == ':' && c[5] == ':'
    ensures forall k :: 0 <= k < 8 && k != 2 && k != 5 ==> IsDigit(c[k])
  {
    Pad2(u.hours) + ":" + Pad2(u.minutes) + ":" + Pad2(u.seconds)
  }

  /** formatUptime: "<d>d " when there is at least one day, then "hh:mm:ss". */
  function FormatUptime(ms: nat): (r: string)
    ensures |r| >= 8
    ensures |r| > 8 <==> ms >= 86400000
  {
    var u := UptimeOf(ms);
    DaysIff(ms);
    (if u.days > 0 then Dec(u.days) + "d " else "") + Clock(u)
  }

  /** There is at least one full day exactly when ms reaches 86400000. */
  lemma DaysIff(ms: nat)
    ensures UptimeOf(ms).days > 0 <==> ms >= 86400000
  {
    var u := UptimeOf(ms);
    assert u.hours * 3600 + u.minutes * 60 + u.seconds < 86400;
    if u.days > 0 {
      assert u.days * 86400 >= 86400;
    }
  }

  /**
   * The text is "hh:mm:ss", zero-padded, after a "<d>d " prefix that
   * appears exactly when there is at least one full day.
   */
  lemma FormatUptimeShape(ms: nat)
    ensures var r := FormatUptime(ms); var u := UptimeOf(ms);
      && |r| >= 8
      && r[|r| - 8..] == Clock(u)
      && (|r| > 8 <==> u.days > 0)
      && (u.days > 0 ==> r[..|r| - 8] == Dec(u.days) + "d ")
  {
  }

  /** Reads an uptime text back into whole seconds. */
  function ParseUptime(r: string): nat
  {
    if |r| < 8 then 0
    else
      var c := r[|r| - 8..];
      var days := r[..|r| - 8];
      var secs := Pair(c, 0) * 3600 + Pair(c, 3) * 60 + Pair(c, 6);
      if |days| >= 3 && AllDigits(days[..|days| - 2]) then DecValue(days[..|days| - 2]) * 86400 + secs else secs
  }

  function Pair(c: string, i: nat): nat
    requires i + 2 <= |c|
  {
    if AllDigits(c[i..i + 2]) then DecValue(c[i..i + 2]) else 0
  }

  /** The "hh:mm:ss" part reads back to the seconds within the day. */
  lemma ClockRoundTrip(u: Uptime)
    requires u.hours < 24 && u.minutes < 60 && u.seconds < 60
    ensures var c := Clock(u); Pair(c, 0) * 3600 + Pair(c, 3) * 60 + Pair(c, 6) == u.hours * 3600 + u.minutes * 60 + u.seconds
  {
    var c := Clock(u);
    assert c[0..2] == Pad2(u.hours) && c[3..5] == Pad2(u.minutes) && c[6..8] == Pad2(u.seconds);
    Pad2RoundTrip(u.hours);
    Pad2RoundTrip(u.minutes);
    Pad2RoundTrip(u.seconds);
  }

  /** The uptime text carries exactly the whole seconds of ms: formatUptime loses nothing but the milliseconds. */
  lemma UptimeRoundTrip(ms: nat)
    ensures ParseUptime(FormatUptime(ms)) == ms / 1000
  {
    var u := UptimeOf(ms);
    var r := FormatUptime(ms);
    FormatUptimeShape(ms);
    ClockRoundTrip(u);
    var days := r[..|r| - 8];
    if u.days > 0 {
      var ds := Dec(u.days);
      assert days[..|days| - 2] == ds;
      DecRoundTrip(u.days);
    } else {
      assert |days| == 0;
    }
  }

  /** 90061000 ms is one day, one hour, one minute and one second. */
  lemma FormatUptimeExample()
    ensures FormatUptime(90061000) == "1d 01:01:01"
  {
  }
}
