// Month keys "YYYY-MM": the previous-month computation of the fetch routine
// (src/hooks/useMonthlyData.ts:64-66), the key formatting and month arithmetic
// of the analytics window (src/hooks/useAnalytics.ts:30-33) and the chart
// label (src/hooks/useAnalytics.ts:60). Calendar months are (year, month)
// pairs; a JavaScript `Date` is replaced by its month index year * 12 + month - 1.

module MonthKeys {
  import opened Types
  import opened Digits

  /** A calendar month; `month` is 1-based. Parsed keys may carry any month number. */
  datatype YearMonth = YearMonth(year: int, month: int)

  predicate ValidMonth(ym: YearMonth) {
    1 <= ym.month <= 12
  }

  /** Months elapsed since January of year 0. */
  function MonthIndex(ym: YearMonth): int {
    ym.year * 12 + ym.month - 1
  }

  /** The calendar month with the given index (floor division, as `Date` normalises). */
  function FromIndex(i: int): (ym: YearMonth)
    ensures ValidMonth(ym) && MonthIndex(ym) == i
  {
    YearMonth(i / 12, i % 12 + 1)
  }

  /** `k` months after `ym` (before it when `k` is negative): date-fns `addMonths`/`subMonths`. */
  function AddMonths(ym: YearMonth, k: int): (r: YearMonth)
    ensures ValidMonth(r) && MonthIndex(r) == MonthIndex(ym) + k
  {
    FromIndex(MonthIndex(ym) + k)
  }

  /** The calendar rule for the month before `ym`: January goes back to December of the prior year. */
  function PreviousMonth(ym: YearMonth): YearMonth {
    if ym.month == 1 then YearMonth(ym.year - 1, 12) else YearMonth(ym.year, ym.month - 1)
  }

  // ---------------------------------------------------------------------------
  // `split('-')`

  /** The text before the first '-' (the first piece of `split('-')`). */
  function BeforeDash(s: string): (r: string)
    ensures r <= s && '-' !in r
    ensures |r| < |s| ==> s[|r|] == '-'
  {
    if s == [] || s[0] == '-' then [] else [s[0]] + BeforeDash(s[1..])
  }

  /** The text after the first '-', or None when there is no '-'. */
  function AfterDash(s: string): (r: Option<string>)
    ensures r.None? <==> '-' !in s
    ensures r.Some? ==> s == BeforeDash(s) + "-" + r.value
  {
    var head := BeforeDash(s);
    if |head| == |s| then
      assert head == s;
      None
    else
      assert s == head + "-" + s[|head| + 1..];
      Some(s[|head| + 1..])
  }

  /** `year` and `month` of `const [year, m] = month.split('-').map(Number)`, when both are runs of 1 to 4 digits. */
  function ParseMonthKey(key: string): (r: Option<YearMonth>)
    ensures r.Some? ==> 0 <= r.value.year <= 9999 && 0 <= r.value.month <= 9999
  {
    var yearText := BeforeDash(key);
    match AfterDash(key)
    case None => None
    case Some(rest) =>
      var monthText := BeforeDash(rest);
      if 1 <= |yearText| <= 4 && AllDigits(yearText) && 1 <= |monthText| <= 4 && AllDigits(monthText) then
        DigitsValueBound(yearText);
        DigitsValueBound(monthText);
        assert Pow10(|yearText|) <= 10000 && Pow10(|monthText|) <= 10000 by { Pow10Mono(|yearText|, 4); Pow10Mono(|monthText|, 4); }
        Some(YearMonth(DigitsValue(yearText), DigitsValue(monthText)))
      else
        None
  }

  lemma Pow10Mono(j: nat, k: nat)
    requires j <= k
    ensures Pow10(j) <= Pow10(k)
  {
    if j < k {
      Pow10Mono(j, k - 1);
    }
  }

  // ---------------------------------------------------------------------------
  // Formatting

  /** A month number as two digits, `String(m).padStart(2, '0')`. */
  function MonthText(m: nat): string {
    PadZeros(NatToString(m), 2)
  }

  /** The year date-fns prints for 'yyyy': years before 1 are counted backwards from 1 BC. */
  function EraYear(y: int): nat {
    if y > 0 then y else 1 - y
  }

  /** date-fns `format(date, 'yyyy-MM')`. */
  function FormatKey(ym: YearMonth): string
    requires ValidMonth(ym)
  {
    PadZeros(NatToString(EraYear(ym.year)), 4) + "-" + MonthText(ym.month)
  }

  /** `new Date(year, ...)` reads a year from 0 to 99 as 1900 to 1999. */
  function JsYear(y: int): int {
    if 0 <= y <= 99 then 1900 + y else y
  }

  /**
   * The key of the month before `key`, computed as the fetch routine does it:
   * `new Date(year, m - 2, 1)`, then the unpadded full year, '-', and the
   * two-digit month. An unreadable key makes an invalid date, printed "NaN-NaN".
   */
  function PreviousMonthKey(key: string): string {
    match ParseMonthKey(key)
    case None => "NaN-NaN"
    case Some(ym) =>
      var prev := AddMonths(YearMonth(JsYear(ym.year), ym.month), -1);
      NatToString(prev.year) + "-" + MonthText(prev.month)
  }

  /** The previous key is "NaN-NaN" exactly when the key cannot be read: a readable key gives a year of at least 99. */
  lemma PreviousMonthKeyInvalid(key: string)
    ensures PreviousMonthKey(key) == "NaN-NaN" <==> ParseMonthKey(key).None?
  {
    match ParseMonthKey(key)
    case None =>
    case Some(ym) =>
      var prev := AddMonths(YearMonth(JsYear(ym.year), ym.month), -1);
      assert prev.year >= 99;
      var r := NatToString(prev.year) + "-" + MonthText(prev.month);
      assert r[0] != 'N';
  }

  /** `String(parseInt(s))` for a text that starts with digits, and "NaN" when it does not. */
  function ParseIntText(s: string): string {
    var d := LeadingDigits(s);
    if d == [] then "NaN" else NatToString(DigitsValue(d))
  }

  /** The chart label `T${parseInt(m.split('-')[1])}/${m.split('-')[0].slice(2)}`. */
  function MonthDisplay(key: string): string {
    var yearText := BeforeDash(key);
    var monthLabel := match AfterDash(key)
      case None => "NaN"
      case Some(rest) => ParseIntText(BeforeDash(rest));
    var yearTail := if |yearText| >= 2 then yearText[2..] else "";
    "T" + monthLabel + "/" + yearTail
  }

  /** The label a calendar month should get: "T", the month without leading zero, "/", the year modulo 100 as two digits. */
  function Label(ym: YearMonth): string
    requires ValidMonth(ym)
  {
    "T" + NatToString(ym.month) + "/" + PadZeros(NatToString(ym.year % 100), 2)
  }

  // ---------------------------------------------------------------------------
  // Lemmas

  /** A calendar month is determined by its index. */
  lemma MonthIndexInjective(a: YearMonth, b: YearMonth)
    requires ValidMonth(a) && ValidMonth(b) && MonthIndex(a) == MonthIndex(b)
    ensures a == b
  {
  }

  /** Going back one month by index is the calendar's previous month. */
  lemma {:induction false} PreviousMonthByIndex(ym: YearMonth)
    requires ValidMonth(ym)
    ensures AddMonths(ym, -1) == PreviousMonth(ym)
  {
    var p := PreviousMonth(ym);
    assert ValidMonth(p) && MonthIndex(p) == MonthIndex(ym) - 1;
    MonthIndexInjective(AddMonths(ym, -1), p);
  }

  /** Splitting `y + "-" + m` at the first dash gives back `y` and `m`. */
  lemma SplitAtDash(y: string, m: string)
    requires '-' !in y
    ensures BeforeDash(y + "-" + m) == y
    ensures AfterDash(y + "-" + m) == Some(m)
  {
    var s := y + "-" + m;
    var h := BeforeDash(s);
    assert forall i :: 0 <= i < |y| ==> s[i] == y[i] && s[i] != '-';
    assert forall i :: 0 <= i < |h| ==> s[i] == h[i];
    assert s[|y|] == '-';
    assert |h| == |y|;
    assert h == s[..|y|] == y;
    assert s[|h| + 1..] == m;
  }

  lemma DigitsHaveNoDash(s: string)
    requires AllDigits(s)
    ensures '-' !in s
  {
  }

  /** The four-digit year text of a year from 1 to 9999. */
  lemma YearTextFacts(y: int)
    requires 1 <= y <= 9999
    ensures var t := PadZeros(NatToString(EraYear(y)), 4);
      |t| == 4 && AllDigits(t) && DigitsValue(t) == y
  {
    NumDigitsAtMost(y);
    PadZerosValue(NatToString(y), 4);
  }

  lemma MonthTextFacts(m: nat)
    requires m <= 99
    ensures |MonthText(m)| == 2 && AllDigits(MonthText(m)) && DigitsValue(MonthText(m)) == m
  {
    NumDigitsAtMost(m);
    PadZerosValue(NatToString(m), 2);
  }

  /** Reading back a formatted key gives the month it was made from. */
  lemma {:induction false} ParseFormatKey(ym: YearMonth)
    requires ValidMonth(ym) && 1 <= ym.year <= 9999
    ensures ParseMonthKey(FormatKey(ym)) == Some(ym)
  {
    var yt := PadZeros(NatToString(EraYear(ym.year)), 4);
    var mt := MonthText(ym.month);
    YearTextFacts(ym.year);
    MonthTextFacts(ym.month);
    DigitsHaveNoDash(yt);
    DigitsHaveNoDash(mt);
    SplitAtDash(yt, mt);
    assert BeforeDash(mt + "") == mt by { SplitAtDashEnd(mt); }
  }

  lemma SplitAtDashEnd(m: string)
    requires '-' !in m
    ensures BeforeDash(m) == m
  {
  }

  /**
   * For a key of a year from 1000 to 9999 (January of 1000 excluded, whose
   * previous year has three digits), the fetch routine's previous-month key
   * is the key of the calendar's previous month, zero-padded like any key.
   * Below year 1000 it is not: the year is written unpadded ("0999-05" gives
   * "999-04"), and years 0 to 99 are read as 1900 to 1999 ("0099-01" gives
   * "1998-12").
   */
  lemma {:induction false} PreviousMonthKeyOfKey(ym: YearMonth)
    requires ValidMonth(ym) && 1000 <= ym.year <= 9999
    requires ym.month == 1 ==> ym.year >= 1001
    ensures PreviousMonthKey(FormatKey(ym)) == FormatKey(PreviousMonth(ym))
  {
    ParseFormatKey(ym);
    assert JsYear(ym.year) == ym.year;
    PreviousMonthByIndex(ym);
    var p := PreviousMonth(ym);
    NumDigitsFour(p.year);
    assert PadZeros(NatToString(EraYear(p.year)), 4) == NatToString(p.year);
  }

  /** The previous key of a formatted key, by the parts it is made of. */
  lemma PreviousMonthKeyParts(key: string, ym: YearMonth, prev: YearMonth)
    requires ValidMonth(ym) && 1 <= ym.year <= 9999 && key == FormatKey(ym)
    requires AddMonths(YearMonth(JsYear(ym.year), ym.month), -1) == prev
    ensures PreviousMonthKey(key) == NatToString(prev.year) + "-" + MonthText(prev.month)
  {
    ParseFormatKey(ym);
  }

  lemma Text999()
    ensures FormatKey(YearMonth(999, 5)) == "0999-05"
    ensures NatToString(999) + "-" + MonthText(4) == "999-04"
  {
    assert NatToString(99) == "99" by { assert NatToString(9) == "9"; }
    assert NatToString(999) == "999";
  }

  lemma Text99()
    ensures FormatKey(YearMonth(99, 1)) == "0099-01"
  {
    assert NatToString(99) == "99" by { assert NatToString(9) == "9"; }
  }

  lemma Text1998()
    ensures NatToString(1998) + "-" + MonthText(12) == "1998-12"
  {
    assert NatToString(199) == "199" by {
      assert NatToString(19) == "19" by { assert NatToString(1) == "1"; }
    }
    assert NatToString(12) == "12" by { assert NatToString(1) == "1"; }
  }

  /** Below year 1000 the previous key is written without padding: "0999-05" gives "999-04". */
  lemma PreviousMonthKeyUnpadded()
    ensures PreviousMonthKey("0999-05") == "999-04"
  {
    Text999();
    PreviousMonthByIndex(YearMonth(999, 5));
    PreviousMonthKeyParts("0999-05", YearMonth(999, 5), YearMonth(999, 4));
  }

  /** A year from 0 to 99 is read as 1900 to 1999: "0099-01" gives "1998-12". */
  lemma PreviousMonthKeyTwoDigitYear()
    ensures PreviousMonthKey("0099-01") == "1998-12"
  {
    Text99();
    Text1998();
    PreviousMonthByIndex(YearMonth(1999, 1));
    PreviousMonthKeyParts("0099-01", YearMonth(99, 1), YearMonth(1998, 12));
  }

  /** January rolls back to December of the year before. */
  lemma PreviousMonthKeyOfJanuary(year: int)
    requires 1001 <= year <= 9999
    ensures PreviousMonthKey(FormatKey(YearMonth(year, 1))) == FormatKey(YearMonth(year - 1, 12))
  {
    PreviousMonthKeyOfKey(YearMonth(year, 1));
  }

  lemma LeadingDigitsOfDigits(s: string)
    requires AllDigits(s)
    ensures LeadingDigits(s) == s
  {
  }

  /** The last two digits of a four-digit year text denote the year modulo 100. */
  lemma {:induction false} YearTail(y: int)
    requires 1 <= y <= 9999
    ensures var t := PadZeros(NatToString(EraYear(y)), 4);
      |t| == 4 && t[2..] == PadZeros(NatToString(y % 100), 2)
  {
    var t := PadZeros(NatToString(EraYear(y)), 4);
    YearTextFacts(y);
    var high, low := t[..2], t[2..];
    assert t == high + low;
    DigitsValueAppend(high, low);
    DigitsValueBound(low);
    assert Pow10(|low|) == 100;
    LowDigits(DigitsValue(high), DigitsValue(low), y);
    MonthTextFacts(y % 100);
    DigitsValueInjective(low, MonthText(y % 100));
  }

  lemma LowDigits(high: int, low: int, y: int)
    requires 0 <= low < 100 && y == high * 100 + low
    ensures y % 100 == low
  {
  }

  /**
   * The chart label of a formatted key: "T", the month without leading zero,
   * "/", and the two-digit year modulo 100 ("2025-03" gives "T3/25").
   */
  lemma {:induction false} MonthDisplayOfKey(ym: YearMonth)
    requires ValidMonth(ym) && 1 <= ym.year <= 9999
    ensures MonthDisplay(FormatKey(ym)) == Label(ym)
  {
    var yt := PadZeros(NatToString(EraYear(ym.year)), 4);
    var mt := MonthText(ym.month);
    YearTextFacts(ym.year);
    MonthTextFacts(ym.month);
    DigitsHaveNoDash(yt);
    DigitsHaveNoDash(mt);
    SplitAtDash(yt, mt);
    SplitAtDashEnd(mt);
    LeadingDigitsOfDigits(mt);
    YearTail(ym.year);
  }
}
