/**
 * The module-level settings read from the environment, and the static endpoint table.
 * The environment itself is not modelled: each parser takes the variable's value, or
 * `None` when the variable is unset.
 */
module Settings {
  import opened Outcomes
  import opened Text

  const DefaultDailyLimit: int := 500
  const DefaultPageLimit: int := 100

  // ---------------------------------------------------------------------------
  // Python's int() on a decimal string

  /**
   * The whitespace `int()` skips around a number: every character of `PySpace` except the four
   * ASCII separators U+001C..U+001F, which `str.isspace()` accepts but `int()` rejects.
   */
  const IntSpace: set<char> := PySpace - {'\U{1C}', '\U{1D}', '\U{1E}', '\U{1F}'}

  predicate IsDigit(c: char) {
    '0' <= c <= '9'
  }

  /** Python's digit run with optional single underscores between digits: `digit (["_"] digit)*`. */
  predicate IsDigitRun(d: string) {
    && |d| > 0
    && IsDigit(d[0]) && IsDigit(d[|d| - 1])
    && (forall i :: 0 <= i < |d| ==> IsDigit(d[i]) || d[i] == '_')
    && (forall i :: 0 <= i < |d| - 1 ==> d[i] == '_' ==> d[i + 1] != '_')
  }

  /** The value of a digit run, underscores ignored. */
  function DigitsValue(d: string): nat {
    if d == [] then 0
    else if d[|d| - 1] == '_' then DigitsValue(d[..|d| - 1])
    else DigitsValue(d[..|d| - 1]) * 10 + DigitValue(d[|d| - 1])
  }

  function DigitValue(c: char): nat {
    if IsDigit(c) then c as int - '0' as int else 0
  }

  /**
   * `int(s)` for ASCII decimal text: surrounding `IntSpace`, an optional sign, then a digit run.
   * `None` stands for the `ValueError` that anything else raises.
   */
  function PyInt(s: string): Option<int> {
    var t := Strip(s, IntSpace);
    if t != [] && (t[0] == '+' || t[0] == '-') then
      var magnitude: int := DigitsValue(t[1..]);
      (if IsDigitRun(t[1..]) then Some(if t[0] == '-' then -magnitude else magnitude) else None)
    else if IsDigitRun(t) then Some(DigitsValue(t))
    else None
  }

  /** The canonical decimal spelling of a natural number, the inverse partner of `PyInt`. */
  function DecimalString(n: nat): (s: string)
    ensures |s| > 0
    ensures forall i :: 0 <= i < |s| ==> IsDigit(s[i])
    decreases n
  {
    if n < 10 then [DigitChar(n)] else DecimalString(n / 10) + [DigitChar(n % 10)]
  }

  function DigitChar(n: nat): (c: char)
    requires n < 10
    ensures IsDigit(c) && DigitValue(c) == n
  {
    ('0' as int + n) as char
  }

  lemma {:induction false} DecimalStringValue(n: nat)
    ensures DigitsValue(DecimalString(n)) == n
    decreases n
  {
    if n >= 10 {
      var s := DecimalString(n);
      var prefix := DecimalString(n / 10);
      assert s[..|s| - 1] == prefix;
      DecimalStringValue(n / 10);
    }
  }

  /** `int()` reads back every decimal spelling. */
  lemma PyIntRoundTrip(n: nat)
    ensures PyInt(DecimalString(n)) == Some(n)
  {
    var s := DecimalString(n);
    DecimalStringValue(n);
    DigitNotSpace(s[0]);
    DigitNotSpace(s[|s| - 1]);
    StripKeeps(s, IntSpace);
  }

  /** `int()` reads back every decimal spelling behind a minus sign as the negative number. */
  lemma PyIntRoundTripNegative(n: nat)
    ensures PyInt("-" + DecimalString(n)) == Some(-(n as int))
  {
    var s := DecimalString(n);
    DecimalStringValue(n);
    DigitNotSpace(s[|s| - 1]);
    var m := "-" + s;
    assert m[|m| - 1] == s[|s| - 1];
    StripKeeps(m, IntSpace);
    assert m[1..] == s;
  }

  lemma DigitNotSpace(c: char)
    requires IsDigit(c)
    ensures c !in IntSpace
  {
  }

  // ---------------------------------------------------------------------------
  // The environment flags

  /** `YARASP_API_DAILY_LIMIT`: the integer it spells, 500 when unset or not an integer. */
  function ParseDailyLimit(v: Option<string>): (limit: int)
    ensures v.Some? && PyInt(v.value).None? ==> limit == DefaultDailyLimit
    ensures v.Some? && PyInt(v.value).Some? ==> limit == PyInt(v.value).value
  {
    match PyInt(v.GetOr("500"))
    case Some(n) => n
    case None => DefaultDailyLimit
  }

  /** `YARASP_SAFE_MODE`: on unless the lower-cased value is "0" or "false"; on when unset. */
  function ParseSafeMode(v: Option<string>): bool {
    Lower(v.GetOr("1")) !in ["0", "false"]
  }

  /** `YARASP_VERBOSE`: on only when the lower-cased value is "1", "true" or "yes"; off when unset. */
  function ParseVerbose(v: Option<string>): bool {
    Lower(v.GetOr("0")) in ["1", "true", "yes"]
  }

  /** Safe mode is off exactly for the two spellings of "off", in any letter case, and on by default. */
  lemma SafeModeFlag(v: string)
    ensures ParseSafeMode(None)
    ensures !ParseSafeMode(Some(v)) <==> Lower(v) == "0" || Lower(v) == "false"
    ensures !ParseSafeMode(Some("FALSE")) && ParseSafeMode(Some("off"))
  {
    LowerKeeps("1");
    LowerKeeps("off");
    assert Lower("FALSE") == "false";
  }

  /** Verbose mode is on exactly for the three spellings of "on", in any letter case, and off by default. */
  lemma VerboseFlag(v: string)
    ensures !ParseVerbose(None)
    ensures ParseVerbose(Some(v)) <==> Lower(v) == "1" || Lower(v) == "true" || Lower(v) == "yes"
    ensures ParseVerbose(Some("Yes")) && !ParseVerbose(Some("on"))
  {
    LowerKeeps("0");
    LowerKeeps("on");
    assert Lower("Yes") == "yes";
  }

  lemma DecimalFiveHundred()
    ensures DecimalString(500) == "500"
  {
    assert DecimalString(5) == "5";
    assert DecimalString(50) == "50";
  }

  /** The daily limit is 500 when the variable is unset. */
  lemma DailyLimitDefault()
    ensures ParseDailyLimit(None) == 500
  {
    DecimalFiveHundred();
    PyIntRoundTrip(500);
  }

  /** The daily limit is the number itself when the value spells one. */
  lemma DailyLimitFlag(n: nat)
    ensures ParseDailyLimit(Some(DecimalString(n))) == n
    ensures ParseDailyLimit(Some("-" + DecimalString(n))) == -(n as int)
  {
    PyIntRoundTrip(n);
    PyIntRoundTripNegative(n);
  }

  /** An empty value is a parse error, so the limit falls back to 500. */
  lemma DailyLimitEmpty()
    ensures ParseDailyLimit(Some("")) == 500
  {
    StripKeeps("", IntSpace);
  }

  /** A doubled underscore is a parse error, so the limit falls back to 500. */
  lemma DailyLimitDoubleUnderscore()
    ensures ParseDailyLimit(Some("1__0")) == 500
  {
    StripKeeps("1__0", IntSpace);
    DoubleUnderscoreNotDigitRun();
    assert PyInt("1__0") == None;
  }

  /**
   * `int()` rejects any text holding a character that is neither a digit, an underscore, a
   * sign nor whitespace it skips, so such a limit falls back to 500.
   */
  lemma PyIntRejects(s: string, k: int)
    requires 0 <= k < |s|
    requires !IsDigit(s[k]) && s[k] != '_' && s[k] != '+' && s[k] != '-' && s[k] !in IntSpace
    ensures PyInt(s) == None
    ensures ParseDailyLimit(Some(s)) == DefaultDailyLimit
  {
    StripIsMiddle(s, IntSpace);
    var i := |s| - |TrimLeft(s, IntSpace)|;
    var t := Strip(s, IntSpace);
    assert i <= k < i + |t|;
    assert t[k - i] == s[k];
    if t[0] == '+' || t[0] == '-' {
      assert t[1..][k - i - 1] == s[k];
    }
  }

  /**
   * Surrounding whitespace is skipped, but an information separator such as U+001C is not,
   * so a value starting with one falls back to 500.
   */
  lemma DailyLimitSeparators()
    ensures ParseDailyLimit(Some(" 7\n")) == 7
    ensures ParseDailyLimit(Some("\U{1C}7")) == 500
  {
    var t := Strip(" 7\n", IntSpace);
    StripIsMiddle(" 7\n", IntSpace);
    assert " 7\n"[1] !in IntSpace;
    assert t == "7";
    assert IsDigitRun("7") && DigitsValue("7") == 7;
    StripKeeps("\U{1C}7", IntSpace);
    assert !IsDigitRun("\U{1C}7");
  }

  lemma DoubleUnderscoreNotDigitRun()
    ensures !IsDigitRun("1__0")
  {
    assert "1__0"[1] == '_' && "1__0"[2] == '_';
  }

  // ---------------------------------------------------------------------------
  // The endpoint table

  /** `(auto_paginate, result_key)` of one endpoint. */
  datatype EndpointPolicy = EndpointPolicy(autoPaginate: bool, resultKey: Option<string>)

  /** `_get_endpoints_config`. */
  function EndpointsConfig(): map<string, EndpointPolicy> {
    map[
      "search" := EndpointPolicy(true, Some("segments")),
      "schedule" := EndpointPolicy(true, Some("schedule")),
      "nearest_stations" := EndpointPolicy(true, Some("stations")),
      "thread" := EndpointPolicy(false, None),
      "nearest_settlement" := EndpointPolicy(false, None),
      "carrier" := EndpointPolicy(false, None),
      "stations_list" := EndpointPolicy(false, None),
      "copyright" := EndpointPolicy(false, None)
    ]
  }

  /**
   * Eight endpoints; exactly search, schedule and nearest_stations paginate, and an endpoint
   * has a result key exactly when it paginates.
   */
  lemma EndpointTable()
    ensures EndpointsConfig().Keys == {"search", "schedule", "nearest_stations", "thread",
      "nearest_settlement", "carrier", "stations_list", "copyright"}
    ensures forall e :: e in EndpointsConfig() ==>
      (EndpointsConfig()[e].autoPaginate <==> e in {"search", "schedule", "nearest_stations"})
    ensures forall e :: e in EndpointsConfig() ==>
      (EndpointsConfig()[e].autoPaginate <==> EndpointsConfig()[e].resultKey.Some?)
  {
  }
}
