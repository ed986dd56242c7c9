// The six-month overview of src/hooks/useAnalytics.ts: the window of month
// keys around a base month, the rows of those months, and for every month the
// electricity usage and revenue of rooms 1 to 4 and their total.

module Analytics {
  import opened Types
  import opened Digits
  import opened MonthKeys
  import opened Billing
  import opened Store

  /** One room's figures for one month. */
  datatype RoomStat = RoomStat(room_id: int, usage: int, revenue: int)

  /** One month of the overview: its key, its chart label, rooms 1 to 4 and the month's total. */
  datatype AnalyticsData = AnalyticsData(month: string, monthDisplay: string, rooms: seq<RoomStat>, totalRevenue: int)

  /** The rooms every month lists, in this order. */
  const ROOM_IDS: seq<int> := [1, 2, 3, 4]

  // ---------------------------------------------------------------------------
  // The window of months

  /** The keys of the window: from three months before the base month to two months after, oldest first. */
  function Window(base: YearMonth): seq<string> {
    seq(6, j => FormatKey(AddMonths(base, j - 3)))
  }

  /** The loop that pushes `format(subMonths(baseDate, i), 'yyyy-MM')` for i from 3 down to -2. */
  method MonthWindow(base: YearMonth) returns (months: seq<string>)
    ensures months == Window(base)
  {
    months := [];
    var i := 3;
    while i >= -2
      invariant -3 <= i <= 3
      invariant months == Window(base)[..3 - i]
    {
      assert Window(base)[..3 - i + 1] == Window(base)[..3 - i] + [FormatKey(AddMonths(base, -i))];
      months := months + [FormatKey(AddMonths(base, -i))];
      i := i - 1;
    }
  }

  /**
   * Every key of the window reads back as a calendar month, and the six
   * months are consecutive, the base month fourth (years 1 to 9999).
   */
  lemma WindowMonths(base: YearMonth)
    requires ValidMonth(base) && 2 <= base.year <= 9998
    ensures forall j :: 0 <= j < 6 ==>
      && ParseMonthKey(Window(base)[j]).Some?
      && MonthIndex(ParseMonthKey(Window(base)[j]).value) == MonthIndex(base) + j - 3
  {
    forall j | 0 <= j < 6
      ensures ParseMonthKey(Window(base)[j]) == Some(AddMonths(base, j - 3))
    {
      WindowYear(base, j - 3);
      ParseFormatKey(AddMonths(base, j - 3));
    }
  }

  /** Every month of the window falls in the years 1 to 9999. */
  lemma WindowYear(base: YearMonth, k: int)
    requires ValidMonth(base) && 2 <= base.year <= 9998 && -3 <= k <= 2
    ensures 1 <= AddMonths(base, k).year <= 9999
  {
    var ym := AddMonths(base, k);
    assert MonthIndex(ym) == base.year * 12 + base.month - 1 + k;
  }

  /** The six keys of the window are different months. */
  lemma WindowDistinct(base: YearMonth)
    requires ValidMonth(base) && 2 <= base.year <= 9998
    ensures forall i, j :: 0 <= i < j < 6 ==> Window(base)[i] != Window(base)[j]
  {
    WindowMonths(base);
  }

  /** The fourth key of the window is the base month's own key. */
  lemma WindowCenter(base: YearMonth)
    requires ValidMonth(base)
    ensures Window(base)[3] == FormatKey(base)
  {
    MonthIndexInjective(AddMonths(base, 0), base);
  }

  // ---------------------------------------------------------------------------
  // The query and the grouping

  /** `.in('month_key', months)`: the stored rows of the listed months, in table order. */
  function InMonths(table: seq<MonthlyBill>, months: seq<string>): (r: seq<MonthlyBill>)
    ensures forall b :: b in r <==> b in table && b.month_key in months
  {
    if table == [] then []
    else
      var rest := InMonths(table[1..], months);
      assert forall b :: b in table <==> b == table[0] || b in table[1..];
      if table[0].month_key in months then [table[0]] + rest else rest
  }

  /** The position of the first bill of room `roomId`, or `|bills|` when there is none. */
  function FindIndex(bills: seq<MonthlyBill>, roomId: int): (i: nat)
    ensures i <= |bills|
    ensures forall k :: 0 <= k < i ==> bills[k].room_id != roomId
    ensures i < |bills| ==> bills[i].room_id == roomId
  {
    if bills == [] then 0
    else if bills[0].room_id == roomId then 0
    else 1 + FindIndex(bills[1..], roomId)
  }

  /** `monthBills.find(b => b.room_id === roomId)`. */
  function FindRoom(bills: seq<MonthlyBill>, roomId: int): Option<MonthlyBill> {
    var i := FindIndex(bills, roomId);
    if i < |bills| then Some(bills[i]) else None
  }

  /**
   * One room's figures: with no bill, no usage and no revenue; otherwise the
   * usage of its readings and the rent, water and electricity it is charged.
   */
  function RoomStatFor(monthBills: seq<MonthlyBill>, roomId: int): RoomStat {
    var bill := FindRoom(monthBills, roomId);
    var usage := match bill
      case None => 0
      case Some(b) => Usage(b.electricity_old.GetOr(0), b.electricity_new.GetOr(0));
    var occupants := match bill
      case None => 0
      case Some(b) => b.occupants.GetOr(0);
    RoomStat(roomId, usage, occupants * 1000000 + occupants * 80000 + usage * 5000)
  }

  /** `roomData.reduce((sum, r) => sum + r.revenue, 0)`, folded from the left. */
  function SumRevenue(rooms: seq<RoomStat>): int {
    if rooms == [] then 0 else SumRevenue(rooms[..|rooms| - 1]) + rooms[|rooms| - 1].revenue
  }

  /** One month of the overview, read from the fetched rows. */
  function MonthSummary(bills: seq<MonthlyBill>, m: string): AnalyticsData {
    var monthBills := RowsOfMonth(bills, m);
    var rooms := seq(|ROOM_IDS|, k requires 0 <= k < |ROOM_IDS| => RoomStatFor(monthBills, ROOM_IDS[k]));
    AnalyticsData(m, MonthDisplay(m), rooms, SumRevenue(rooms))
  }

  /** `months.map(m => ...)`: one summary per month of the window, in the window's order. */
  function Group(bills: seq<MonthlyBill>, months: seq<string>): seq<AnalyticsData> {
    seq(|months|, i requires 0 <= i < |months| => MonthSummary(bills, months[i]))
  }

  /** What a successful fetch publishes for the store `table` and the base month. */
  function Overview(table: seq<MonthlyBill>, base: YearMonth): seq<AnalyticsData> {
    var months := Window(base);
    Group(InMonths(table, months), months)
  }

  // ---------------------------------------------------------------------------
  // Properties of the grouping

  /** The first bill of a room, when there is one, belongs to that room and is among the bills; there is none only when no bill is that room's. */
  lemma FindRoomFound(bills: seq<MonthlyBill>, roomId: int)
    ensures FindRoom(bills, roomId).None? <==> forall b :: b in bills ==> b.room_id != roomId
    ensures FindRoom(bills, roomId).Some? ==>
      FindRoom(bills, roomId).value in bills && FindRoom(bills, roomId).value.room_id == roomId
  {
  }

  /**
   * The overview agrees with the bill calculator: a room's usage and revenue
   * are the electricity usage and total bill of its first bill of the month,
   * and a room without a bill counts 0 and 0.
   */
  lemma RoomStatIsBill(monthBills: seq<MonthlyBill>, roomId: int)
    ensures RoomStatFor(monthBills, roomId).room_id == roomId
    ensures match FindRoom(monthBills, roomId)
      case None => RoomStatFor(monthBills, roomId).usage == 0 && RoomStatFor(monthBills, roomId).revenue == 0
      case Some(b) =>
        && RoomStatFor(monthBills, roomId).usage == CalculateBill(b).electricityUsage
        && RoomStatFor(monthBills, roomId).revenue == CalculateBill(b).totalBill
  {
  }

  /**
   * Every month lists exactly rooms 1, 2, 3 and 4, in that order, each with
   * the figures of its first bill of the month, and the month's total is the
   * sum of the four revenues.
   */
  lemma {:induction false} MonthSummaryRooms(bills: seq<MonthlyBill>, m: string)
    ensures var s := MonthSummary(bills, m);
      && s.month == m && s.monthDisplay == MonthDisplay(m)
      && |s.rooms| == 4
      && (forall k :: 0 <= k < 4 ==> s.rooms[k] == RoomStatFor(RowsOfMonth(bills, m), k + 1))
      && s.totalRevenue == s.rooms[0].revenue + s.rooms[1].revenue + s.rooms[2].revenue + s.rooms[3].revenue
  {
    var r := MonthSummary(bills, m).rooms;
    assert r == [r[0]] + [r[1]] + [r[2]] + [r[3]];
    SumRevenueSnoc([], r[0]);
    SumRevenueSnoc([r[0]], r[1]);
    SumRevenueSnoc([r[0]] + [r[1]], r[2]);
    SumRevenueSnoc([r[0]] + [r[1]] + [r[2]], r[3]);
  }

  /** Folding one more room adds its revenue. */
  lemma SumRevenueSnoc(rooms: seq<RoomStat>, x: RoomStat)
    ensures SumRevenue(rooms + [x]) == SumRevenue(rooms) + x.revenue
  {
    assert (rooms + [x])[..|rooms|] == rooms;
  }

  /** A month without rows shows rooms 1 to 4 with no usage and no revenue. */
  lemma MonthWithoutRows(bills: seq<MonthlyBill>, m: string)
    requires forall b :: b in bills ==> b.month_key != m
    ensures var s := MonthSummary(bills, m);
      && (forall k :: 0 <= k < 4 ==> s.rooms[k] == RoomStat(k + 1, 0, 0))
      && s.totalRevenue == 0
  {
    MonthSummaryRooms(bills, m);
  }

  /** Restricting the rows to the listed months first does not change the rows of any listed month. */
  lemma {:induction false} RowsOfMonthInMonths(table: seq<MonthlyBill>, months: seq<string>, m: string)
    requires m in months
    ensures RowsOfMonth(InMonths(table, months), m) == RowsOfMonth(table, m)
  {
    if table != [] {
      RowsOfMonthInMonths(table[1..], months, m);
      var rest := InMonths(table[1..], months);
      if table[0].month_key in months {
        assert ([table[0]] + rest)[1..] == rest;
      }
    }
  }

  /** The `.in('month_key', months)` filter of the query does not change the overview. */
  lemma GroupIgnoresPrefilter(table: seq<MonthlyBill>, months: seq<string>)
    ensures Group(InMonths(table, months), months) == Group(table, months)
  {
    forall i | 0 <= i < |months|
      ensures MonthSummary(InMonths(table, months), months[i]) == MonthSummary(table, months[i])
    {
      RowsOfMonthInMonths(table, months, months[i]);
    }
  }

  /**
   * The chart labels of the window: "T", the month without leading zero, "/"
   * and the two-digit year of each month ("2025-03" is labelled "T3/25").
   */
  lemma WindowLabels(base: YearMonth)
    requires ValidMonth(base) && 2 <= base.year <= 9998
    ensures forall j :: 0 <= j < 6 ==>
      MonthDisplay(Window(base)[j]) == Label(AddMonths(base, j - 3))
  {
    forall j | 0 <= j < 6
      ensures MonthDisplay(Window(base)[j]) == Label(AddMonths(base, j - 3))
    {
      WindowLabel(base, j);
    }
  }

  /** The label of month `j` of the window. */
  lemma WindowLabel(base: YearMonth, j: int)
    requires ValidMonth(base) && 2 <= base.year <= 9998 && 0 <= j < 6
    ensures MonthDisplay(Window(base)[j]) == Label(AddMonths(base, j - 3))
  {
    WindowYear(base, j - 3);
    MonthDisplayOfKey(AddMonths(base, j - 3));
    assert Window(base)[j] == FormatKey(AddMonths(base, j - 3));
  }

  /**
   * The published overview: six months, oldest first, from three months
   * before the base month to two after; each is the summary of that month's
   * stored rows, under that month's label.
   */
  lemma OverviewMonths(table: seq<MonthlyBill>, base: YearMonth)
    requires ValidMonth(base) && 2 <= base.year <= 9998
    ensures var d := Overview(table, base);
      && |d| == 6
      && forall j :: 0 <= j < 6 ==>
        && d[j] == MonthSummary(table, FormatKey(AddMonths(base, j - 3)))
        && d[j].monthDisplay == Label(AddMonths(base, j - 3))
  {
    forall j | 0 <= j < 6
      ensures Overview(table, base)[j] == MonthSummary(table, FormatKey(AddMonths(base, j - 3)))
      ensures Overview(table, base)[j].monthDisplay == Label(AddMonths(base, j - 3))
    {
      OverviewEntry(table, base, j);
      WindowLabel(base, j);
      assert Window(base)[j] == FormatKey(AddMonths(base, j - 3));
    }
  }

  /** Entry `j` of the overview summarises month j - 3 from the base month. */
  lemma OverviewEntry(table: seq<MonthlyBill>, base: YearMonth, j: int)
    requires 0 <= j < 6
    ensures |Overview(table, base)| == 6
    ensures Overview(table, base)[j] == MonthSummary(table, Window(base)[j])
    ensures Overview(table, base)[j].monthDisplay == MonthDisplay(Window(base)[j])
  {
    var w := Window(base);
    RowsOfMonthInMonths(table, w, w[j]);
  }

  // ---------------------------------------------------------------------------
  // The hook's state

  class AnalyticsHook {
    var data: seq<AnalyticsData>
    var loading: bool

    /** No data and not loading before the first fetch. */
    constructor ()
      ensures data == [] && !loading
    {
      data := [];
      loading := false;
    }

    /**
     * `fetchAnalytics()`. `base` is the month of the base date, None when that
     * date is invalid (formatting it throws before any query); `queryFails`
     * says whether the query reports an error. A failure keeps the old data.
     */
    method FetchAnalytics(base: Option<YearMonth>, table: seq<MonthlyBill>, queryFails: bool)
      modifies this
      ensures !loading
      ensures base.Some? && !queryFails ==> data == Overview(table, base.value)
      ensures base.None? || queryFails ==> data == old(data)
    {
      loading := true;
      if base.None? {
        loading := false;
        return;
      }
      var months := MonthWindow(base.value);
      if queryFails {
        loading := false;
        return;
      }
      var bills := InMonths(table, months);
      data := Group(bills, months);
      loading := false;
    }
  }
}
