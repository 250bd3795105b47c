/**
 * normalizeSymbol and the symbol setters (src/main.cpp:136-155).
 *
 * The firmware's canonical form of a trading symbol: Arduino's String::trim
 * drops the leading and trailing bytes that C's isspace accepts,
 * toUpperCase maps 'a'..'z' to 'A'..'Z', the quote suffix "USDT" is
 * appended when it is missing, and the result is cut to 11 characters (a
 * symbol buffer holds 12 bytes with the terminator). Characters stand for
 * bytes.
 */
module Symbols {

  const MAX_SYMBOL: nat := 11
  const QUOTE_SUFFIX: string := "USDT"

  /** C's isspace in the "C" locale: space, \t, \n, \v, \f and \r. */
  predicate IsSpace(c: char) {
    c == ' ' || c == '\t' || c == '\n' || c == '\U{000B}' || c == '\U{000C}' || c == '\r'
  }

  predicate IsLower(c: char) {
    'a' <= c <= 'z'
  }

  /** C's toupper in the "C" locale. */
  function UpperChar(c: char): (u: char)
    ensures !IsLower(u)
    ensures IsSpace(u) <==> IsSpace(c)
    ensures !IsLower(c) ==> u == c
    ensures IsLower(c) ==> 'A' <= u <= 'Z' && u as int == c as int - 32
  {
    if IsLower(c) then (c as int - 32) as char else c
  }

  predicate NoLower(s: string) {
    forall i :: 0 <= i < |s| ==> !IsLower(s[i])
  }

  /** String::toUpperCase. */
  function Upper(s: string): (r: string)
    ensures |r| == |s| && NoLower(r)
    ensures forall i :: 0 <= i < |s| ==> r[i] == UpperChar(s[i])
  {
    seq(|s|, i requires 0 <= i < |s| => UpperChar(s[i]))
  }

  /** Leading whitespace removed: a suffix of s that does not start with whitespace. */
  function TrimStart(s: string): (r: string)
    ensures |r| <= |s|
    ensures r == [] || !IsSpace(r[0])
  {
    if |s| > 0 && IsSpace(s[0]) then TrimStart(s[1..]) else s
  }

  /** Trailing whitespace removed: a prefix of s that does not end with whitespace. */
  function TrimEnd(s: string): (r: string)
    ensures |r| <= |s|
    ensures r == [] || !IsSpace(r[|r| - 1])
  {
    if |s| > 0 && IsSpace(s[|s| - 1]) then TrimEnd(s[..|s| - 1]) else s
  }

  /** String::trim: a slice of s with no whitespace at either end. */
  function Trim(s: string): (r: string)
    ensures |r| <= |s|
    ensures r == [] || (!IsSpace(r[0]) && !IsSpace(r[|r| - 1]))
  {
    TrimEndDropsSpace(TrimStart(s));
    TrimEnd(TrimStart(s))
  }

  predicate EndsWithSuffix(s: string) {
    |s| >= 4 && s[|s| - 4..] == QUOTE_SUFFIX
  }

  /** The last two steps of normalizeSymbol: append the suffix if missing, cut to 11. */
  function AddSuffixAndCut(u: string): (r: string)
    ensures 4 <= |r| <= MAX_SYMBOL
    ensures NoLower(u) ==> NoLower(r)
    ensures (u == [] || !IsSpace(u[0])) ==> !IsSpace(r[0])
  {
    var v := if EndsWithSuffix(u) then u else u + QUOTE_SUFFIX;
    if |v| > MAX_SYMBOL then v[..MAX_SYMBOL] else v
  }

  /** The suffix-and-cut step ends in "USDT" unless the cut removed (part of) it. */
  lemma AddSuffixAndCutSuffix(u: string)
    ensures var r := AddSuffixAndCut(u); EndsWithSuffix(r) || |r| == MAX_SYMBOL
  {
    if !EndsWithSuffix(u) && |u| + 4 <= MAX_SYMBOL {
      var v := u + QUOTE_SUFFIX;
      assert v[|v| - 4..] == QUOTE_SUFFIX;
    }
  }

  /**
   * normalizeSymbol as a value: between 4 and 11 characters, no lower-case
   * letter and no leading whitespace (NormalizeSuffix states how it ends).
   */
  function Normalize(s: string): (r: string)
    ensures 4 <= |r| <= MAX_SYMBOL
    ensures NoLower(r)
    ensures !IsSpace(r[0])
  {
    AddSuffixAndCut(Upper(Trim(s)))
  }

  /** A normalised symbol ends with "USDT" unless the cut to 11 characters removed (part of) the suffix. */
  lemma NormalizeSuffix(s: string)
    ensures var r := Normalize(s); EndsWithSuffix(r) || |r| == MAX_SYMBOL
  {
    AddSuffixAndCutSuffix(Upper(Trim(s)));
  }

  /** String::trim as the firmware runs it: a begin and an end index move over whitespace. */
  method StringTrim(s: string) returns (r: string)
    ensures r == Trim(s)
  {
    var begin := 0;
    while begin < |s| && IsSpace(s[begin])
      invariant 0 <= begin <= |s|
      invariant TrimStart(s) == TrimStart(s[begin..])
    {
      assert s[begin..][1..] == s[begin + 1..];
      begin := begin + 1;
    }
    assert TrimStart(s) == s[begin..] == s[begin..|s|];
    var end := |s|;
    while end > begin && IsSpace(s[end - 1])
      invariant begin <= end <= |s|
      invariant Trim(s) == TrimEnd(s[begin..end])
    {
      assert s[begin..end][..end - 1 - begin] == s[begin..end - 1];
      end := end - 1;
    }
    r := s[begin..end];
  }

  /** String::toUpperCase as the firmware runs it: the buffer is rewritten character by character. */
  method StringToUpper(s: string) returns (r: string)
    ensures r == Upper(s)
  {
    r := s;
    var i := 0;
    while i < |r|
      invariant 0 <= i <= |r| == |s|
      invariant forall k :: 0 <= k < i ==> r[k] == UpperChar(s[k])
      invariant forall k :: i <= k < |r| ==> r[k] == s[k]
    {
      r := r[i := UpperChar(r[i])];
      i := i + 1;
    }
  }

  /**
   * normalizeSymbol as the firmware runs it, editing one string in place:
   * trim, toUpperCase, append the suffix when endsWith fails, substring.
   */
  method NormalizeSymbol(s: string) returns (r: string)
    ensures r == Normalize(s)
  {
    r := StringTrim(s);
    r := StringToUpper(r);
    if !EndsWithSuffix(r) {
      r := r + QUOTE_SUFFIX;
    }
    if |r| > MAX_SYMBOL {
      r := r[..MAX_SYMBOL];
    }
  }

  /** TrimStart keeps a suffix of s and what it drops is whitespace. */
  lemma {:induction false} TrimStartDropsSpace(s: string)
    ensures TrimStart(s) == s[|s| - |TrimStart(s)|..]
    ensures forall i :: 0 <= i < |s| - |TrimStart(s)| ==> IsSpace(s[i])
  {
    if |s| > 0 && IsSpace(s[0]) {
      TrimStartDropsSpace(s[1..]);
    }
  }

  /** TrimEnd keeps a prefix of s and what it drops is whitespace. */
  lemma {:induction false} TrimEndDropsSpace(s: string)
    ensures TrimEnd(s) == s[..|TrimEnd(s)|]
    ensures forall i :: |TrimEnd(s)| <= i < |s| ==> IsSpace(s[i])
  {
    if |s| > 0 && IsSpace(s[|s| - 1]) {
      TrimEndDropsSpace(s[..|s| - 1]);
    }
  }

  lemma UpperOfNoLower(s: string)
    requires NoLower(s)
    ensures Upper(s) == s
  {
  }

  /** A string with no whitespace at either end is its own trim. */
  lemma TrimOfEdgeless(s: string)
    requires s == [] || (!IsSpace(s[0]) && !IsSpace(s[|s| - 1]))
    ensures Trim(s) == s
  {
  }

  /**
   * Trimming a string that starts with a non-space and ends with whitespace
   * drops a non-empty run of trailing whitespace, and keeps a prefix.
   */
  lemma TrimDropsTrailingSpace(s: string)
    requires |s| > 0 && !IsSpace(s[0]) && IsSpace(s[|s| - 1])
    ensures |Trim(s)| < |s| && Trim(s) == s[..|Trim(s)|]
    ensures forall i :: |Trim(s)| <= i < |s| ==> IsSpace(s[i])
  {
    assert TrimStart(s) == s;
    assert TrimEnd(s) == TrimEnd(s[..|s| - 1]);
    TrimEndDropsSpace(s);
  }

  /**
   * Trimming finds nothing exactly when every character is whitespace; this
   * is the test apiReady and postFeishuText apply to the configured URLs.
   */
  lemma {:induction false} TrimEmptyIff(s: string)
    ensures Trim(s) == [] <==> forall i :: 0 <= i < |s| ==> IsSpace(s[i])
  {
    TrimStartDropsSpace(s);
    if Trim(s) == [] {
      var t := TrimStart(s);
      if t != [] {
        TrimEndDropsSpace(t);
        assert false;
      }
    } else {
      var t := TrimStart(s);
      assert !IsSpace(t[0]);
      assert s[|s| - |t|] == t[0];
    }
  }

  /** A canonical symbol passes the suffix-and-cut step unchanged. */
  lemma AddSuffixAndCutFixes(t: string)
    requires |t| <= MAX_SYMBOL && (EndsWithSuffix(t) || |t| == MAX_SYMBOL)
    ensures AddSuffixAndCut(t) == t
  {
    if !EndsWithSuffix(t) {
      assert (t + QUOTE_SUFFIX)[..MAX_SYMBOL] == t;
    }
  }

  /**
   * After a proper prefix p of t that t continues with whitespace, the
   * suffix-and-cut step puts a 'U' or stops short: it cannot give back t.
   */
  lemma AddSuffixAndCutDiffers(p: string, t: string)
    requires |p| < |t| <= MAX_SYMBOL && p == t[..|p|] && IsSpace(t[|p|])
    ensures AddSuffixAndCut(p) != t
  {
    var r := AddSuffixAndCut(p);
    if !EndsWithSuffix(p) {
      assert r[|p|] == 'U';
    }
  }

  /**
   * A symbol already in canonical form (upper case, at most 11 characters,
   * ending in "USDT", no leading whitespace) is returned unchanged.
   */
  lemma NormalizeKeepsCanonical(s: string)
    requires |s| <= MAX_SYMBOL && EndsWithSuffix(s) && NoLower(s) && !IsSpace(s[0])
    ensures Normalize(s) == s
  {
    TrimOfEdgeless(s);
    UpperOfNoLower(s);
    AddSuffixAndCutFixes(s);
  }

  /**
   * Normalising twice (handleSingle, handleTripleConfig and
   * handleHoldingsConfig normalise and then call a setter that normalises
   * again) gives the same symbol exactly when the first result does not end
   * in whitespace. It can end in whitespace only when the cut to 11
   * characters lands right after a space inside the input.
   */
  lemma {:induction false} NormalizeIdempotentIff(s: string)
    ensures var t := Normalize(s); Normalize(t) == t <==> !IsSpace(t[|t| - 1])
  {
    var t := Normalize(s);
    if !IsSpace(t[|t| - 1]) {
      NormalizeSuffix(s);
      NormalizeFixesEdgeless(t);
    } else {
      NormalizeMovesTrailingSpace(t);
    }
  }

  /** A normal form that does not end in whitespace is a fixed point. */
  lemma NormalizeFixesEdgeless(t: string)
    requires 0 < |t| <= MAX_SYMBOL && (EndsWithSuffix(t) || |t| == MAX_SYMBOL) && NoLower(t)
    requires !IsSpace(t[0]) && !IsSpace(t[|t| - 1])
    ensures Normalize(t) == t
  {
    TrimOfEdgeless(t);
    UpperOfNoLower(t);
    AddSuffixAndCutFixes(t);
  }

  /** A candidate symbol that ends in whitespace is not a fixed point: the trim shortens it. */
  lemma NormalizeMovesTrailingSpace(t: string)
    requires 0 < |t| <= MAX_SYMBOL && NoLower(t) && !IsSpace(t[0]) && IsSpace(t[|t| - 1])
    ensures Normalize(t) != t
  {
    TrimDropsTrailingSpace(t);
    var p := Trim(t);
    PrefixNoLower(p, t);
    UpperOfNoLower(p);
    AddSuffixAndCutDiffers(p, t);
  }

  lemma PrefixNoLower(p: string, t: string)
    requires NoLower(t) && |p| <= |t| && p == t[..|p|]
    ensures NoLower(p)
  {
    forall i | 0 <= i < |p| ensures !IsLower(p[i]) {
      assert p[i] == t[i];
    }
  }

  /** TrimStart stops at the first non-space: this is the loop of String::trim that moves `begin`. */
  lemma {:induction false} TrimStartAt(s: string, b: nat)
    requires b <= |s| && (forall k :: 0 <= k < b ==> IsSpace(s[k])) && (b < |s| ==> !IsSpace(s[b]))
    ensures TrimStart(s) == s[b..]
  {
    if b > 0 {
      assert s[1..][b - 1..] == s[b..];
      TrimStartAt(s[1..], b - 1);
    }
  }

  /** TrimEnd stops after the last non-space: the loop of String::trim that moves `end`. */
  lemma {:induction false} TrimEndAt(s: string, e: nat)
    requires e <= |s| && (forall k :: e <= k < |s| ==> IsSpace(s[k])) && (e > 0 ==> !IsSpace(s[e - 1]))
    ensures TrimEnd(s) == s[..e]
  {
    if e < |s| {
      assert s[..|s| - 1][..e] == s[..e];
      TrimEndAt(s[..|s| - 1], e);
    }
  }

  /** "btc" becomes "BTCUSDT". */
  lemma NormalizeExampleBtc()
    ensures Normalize("btc") == "BTCUSDT"
  {
    TrimOfEdgeless("btc");
    assert Upper("btc") == "BTC" by {
      assert UpperChar('b') == 'B' && UpperChar('t') == 'T' && UpperChar('c') == 'C';
    }
    assert AddSuffixAndCut("BTC") == "BTCUSDT" by {
      assert !EndsWithSuffix("BTC");
    }
  }

  /** The empty input becomes the bare suffix "USDT". */
  lemma NormalizeExampleEmpty()
    ensures Normalize("") == QUOTE_SUFFIX
  {
    assert Trim("") == "";
  }

  /** " eth " is trimmed first and becomes "ETHUSDT". */
  lemma NormalizeExampleEth()
    ensures Normalize(" eth ") == "ETHUSDT"
  {
    var s := " eth ";
    var t := s[1..4];
    assert Trim(s) == t by {
      TrimStartAt(s, 1);
      assert s[1..] == "eth ";
      TrimEndAt(s[1..], 3);
    }
    assert Upper(t) == "ETH" by {
      assert UpperChar('e') == 'E' && UpperChar('t') == 'T' && UpperChar('h') == 'H';
    }
    assert AddSuffixAndCut("ETH") == "ETHUSDT" by {
      assert !EndsWithSuffix("ETH");
    }
  }

  /** "alreadyUSDT" already ends with the suffix and is only upper-cased. */
  lemma NormalizeExampleAlready()
    ensures Normalize("alreadyUSDT") == "ALREADYUSDT"
  {
    TrimOfEdgeless("alreadyUSDT");
    assert Upper("alreadyUSDT") == "ALREADYUSDT" by {
      assert UpperChar('a') == 'A' && UpperChar('l') == 'L' && UpperChar('r') == 'R';
      assert UpperChar('e') == 'E' && UpperChar('d') == 'D' && UpperChar('y') == 'Y';
    }
    assert AddSuffixAndCut("ALREADYUSDT") == "ALREADYUSDT" by {
      assert EndsWithSuffix("ALREADYUSDT");
    }
  }

  /**
   * "abcdefghij k" is cut to "ABCDEFGHIJ " on the first pass, which the
   * second pass trims and turns into "ABCDEFGHIJU".
   */
  lemma NormalizeNotIdempotentExample()
    ensures Normalize("abcdefghij k") == "ABCDEFGHIJ "
    ensures Normalize("ABCDEFGHIJ ") == "ABCDEFGHIJU"
  {
    NormalizeCutExample();
    NormalizeRecutExample();
  }

  lemma NormalizeCutExample()
    ensures Normalize("abcdefghij k") == "ABCDEFGHIJ "
  {
    TrimOfEdgeless("abcdefghij k");
    assert Upper("abcdefghij k") == "ABCDEFGHIJ K" by {
      assert UpperChar('a') == 'A' && UpperChar('b') == 'B' && UpperChar('c') == 'C';
      assert UpperChar('d') == 'D' && UpperChar('e') == 'E' && UpperChar('f') == 'F';
      assert UpperChar('g') == 'G' && UpperChar('h') == 'H' && UpperChar('i') == 'I';
      assert UpperChar('j') == 'J' && UpperChar('k') == 'K';
    }
    assert AddSuffixAndCut("ABCDEFGHIJ K") == "ABCDEFGHIJ " by {
      assert !EndsWithSuffix("ABCDEFGHIJ K");
    }
  }

  lemma NormalizeRecutExample()
    ensures Normalize("ABCDEFGHIJ ") == "ABCDEFGHIJU"
  {
    var s := "ABCDEFGHIJ ";
    var t := s[..10];
    assert Trim(s) == t by {
      TrimStartAt(s, 0);
      TrimEndAt(s, 10);
    }
    assert Upper(t) == t by {
      UpperOfNoLower(t);
    }
    assert AddSuffixAndCut(t) == "ABCDEFGHIJU" by {
      assert t[|t| - 4..][0] == 'G' != QUOTE_SUFFIX[0];
      assert (t + QUOTE_SUFFIX)[..MAX_SYMBOL] == t + ['U'];
    }
  }
}
