/**
 * The persisted settings (AppConfig, src/main.cpp:71-101): the API base URL
 * prices and candles are fetched from and the webhook status reports are
 * pushed to. Covers the defaults, loading with the magic-number check,
 * the /cfg update (handleCfgSet, src/main.cpp:740-755) and the "is the API
 * configured" test (apiReady, src/main.cpp:283-287). The EEPROM itself is
 * a value: what was stored, and what is stored next.
 */
module Config {

  import opened Symbols

  /** Marks a stored record as written by this firmware. */
  const CFG_MAGIC: int := 0xC0A11CE6

  /** Buffer sizes of apiBase and webhook, terminator included. */
  const API_BASE_SIZE: nat := 96
  const WEBHOOK_SIZE: nat := 192

  const DEFAULT_API_BASE: string := "http://YOUR_API_HOST:8000"

  datatype AppConfig = AppConfig(magic: int, apiBase: string, webhook: string)

  /**
   * String::toCharArray / strncpy into a buffer of `size` bytes: at most
   * size - 1 characters are kept, a prefix of the string.
   */
  function ToBuffer(s: string, size: nat): (r: string)
    requires size >= 1
    ensures |r| <= size - 1 && |r| <= |s| && r == s[..|r|]
    ensures |s| < size ==> r == s
    ensures |s| >= size ==> |r| == size - 1
  {
    if |s| < size then s else s[..size - 1]
  }

  /** cfgDefaults: the placeholder API base and no webhook. */
  function Defaults(): (c: AppConfig)
    ensures c.magic == CFG_MAGIC && c.apiBase == DEFAULT_API_BASE && c.webhook == []
  {
    AppConfig(CFG_MAGIC, ToBuffer(DEFAULT_API_BASE, API_BASE_SIZE), ToBuffer("", WEBHOOK_SIZE))
  }

  /**
   * cfgLoad: the stored record when its magic matches, the defaults
   * otherwise; the second component says whether the defaults are written
   * back to the EEPROM.
   */
  function Load(stored: AppConfig): (r: (AppConfig, bool))
    ensures r.0.magic == CFG_MAGIC
    ensures r.1 <==> stored.magic != CFG_MAGIC
    ensures !r.1 ==> r.0 == stored
    ensures r.1 ==> r.0 == Defaults()
  {
    if stored.magic != CFG_MAGIC then (Defaults(), true) else (stored, false)
  }

  /** Loading what a load left behind changes nothing and writes nothing. */
  lemma LoadIdempotent(stored: AppConfig)
    ensures var c := Load(stored).0; Load(c) == (c, false)
  {
  }

  /** apiReady: the API base is not blank once trimmed, that is, it holds a non-whitespace byte. */
  function ApiReady(c: AppConfig): (ready: bool)
    ensures ready <==> exists i :: 0 <= i < |c.apiBase| && !IsSpace(c.apiBase[i])
  {
    TrimEmptyIff(c.apiBase);
    Trim(c.apiBase) != []
  }

  /**
   * Out of the box the placeholder API base counts as configured (requests
   * are made to it) and the blank webhook keeps pushes off.
   */
  lemma DefaultsState()
    ensures ApiReady(Defaults())
    ensures Trim(Defaults().webhook) == []
  {
    var d := DEFAULT_API_BASE;
    assert d[0] == 'h';
    TrimEmptyIff(d);
    TrimEmptyIff("");
  }

  /**
   * handleCfgSet followed by cfgSave: both arguments are trimmed; the API
   * base is replaced only by a non-blank value, the webhook is replaced
   * always (its guard length() >= 0 cannot fail), each cut to its buffer;
   * the magic is set.
   */
  function CfgSet(c: AppConfig, api: string, wh: string): (r: AppConfig)
    ensures r.magic == CFG_MAGIC
    ensures Trim(api) != [] ==> r.apiBase == ToBuffer(Trim(api), API_BASE_SIZE)
    ensures Trim(api) == [] ==> r.apiBase == c.apiBase
    ensures r.webhook == ToBuffer(Trim(wh), WEBHOOK_SIZE) && |r.webhook| < WEBHOOK_SIZE
  {
    var api' := Trim(api);
    var wh' := Trim(wh);
    var apiBase := if |api'| > 0 then ToBuffer(api', API_BASE_SIZE) else c.apiBase;
    var webhook := if |wh'| >= 0 then ToBuffer(wh', WEBHOOK_SIZE) else c.webhook;
    AppConfig(CFG_MAGIC, apiBase, webhook)
  }

  /** A prefix of a string that starts with a non-space is not blank. */
  lemma PrefixNotBlank(t: string, n: nat)
    requires 0 < n <= |t| && !IsSpace(t[0])
    ensures Trim(t[..n]) != []
  {
    TrimEmptyIff(t[..n]);
    assert t[..n][0] == t[0];
  }

  /**
   * After /cfg the API is configured exactly when the new value is not
   * blank or it was configured before: a blank value never unsets it.
   */
  lemma ApiReadyAfterSet(c: AppConfig, api: string, wh: string)
    ensures ApiReady(CfgSet(c, api, wh)) <==> Trim(api) != [] || ApiReady(c)
  {
    var t := Trim(api);
    if t != [] {
      var r := CfgSet(c, api, wh);
      assert r.apiBase == t[..|r.apiBase|];
      PrefixNotBlank(t, |r.apiBase|);
    }
  }

  /** What /cfg saves is what the next boot loads. */
  lemma LoadAfterSave(c: AppConfig, api: string, wh: string)
    ensures var saved := CfgSet(c, api, wh); Load(saved) == (saved, false)
  {
  }

  /** A short value survives /cfg trimmed and whole. */
  lemma CfgSetKeepsShortValues(c: AppConfig, api: string, wh: string)
    requires Trim(api) != [] && |Trim(api)| < API_BASE_SIZE && |Trim(wh)| < WEBHOOK_SIZE
    ensures CfgSet(c, api, wh).apiBase == Trim(api)
    ensures CfgSet(c, api, wh).webhook == Trim(wh)
  {
  }

  /** A blank webhook argument clears the webhook. */
  lemma BlankWebhookClears(c: AppConfig, api: string, wh: string)
    requires forall i :: 0 <= i < |wh| ==> IsSpace(wh[i])
    ensures CfgSet(c, api, wh).webhook == []
  {
    TrimEmptyIff(wh);
  }
}
