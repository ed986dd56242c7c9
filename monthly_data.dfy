// The monthly-data hook (src/hooks/useMonthlyData.ts): the selected month, the
// bills shown for it, the loading flag, and the fetch / seed / roll-over routine
// and the optimistic single-bill update that drive them. The remote table is
// held in the object as well (Store); whether each remote call fails is a
// parameter (Faults), since it depends on the network.

module MonthlyData {
  import opened Types
  import opened MonthKeys
  import opened Store

  /** Which of the fetch routine's three remote calls fail. */
  datatype Faults = Faults(currentQuery: bool, previousQuery: bool, insert: bool)

  const NO_FAULTS: Faults := Faults(false, false, false)

  /** A row to insert: it names the room, month, occupants and readings and nothing else. */
  function Draft(roomId: int, month: string, occupants: Option<int>, oldReading: Option<int>, newReading: Option<int>): MonthlyBill {
    MonthlyBill(None, roomId, month, occupants, oldReading, newReading, None, None, None, None, None)
  }

  /**
   * The seed taken from last month's rows: one draft per row, in the same order,
   * keeping room and occupants; last month's closing reading opens the new month.
   */
  function SeedFromPrevious(prevRows: seq<MonthlyBill>, month: string): (drafts: seq<MonthlyBill>)
    ensures |drafts| == |prevRows|
    ensures forall i :: 0 <= i < |prevRows| ==>
      && drafts[i].id.None?
      && drafts[i].room_id == prevRows[i].room_id
      && drafts[i].month_key == month
      && drafts[i].occupants == prevRows[i].occupants
      && drafts[i].electricity_old == prevRows[i].electricity_new
      && drafts[i].electricity_new == Some(0)
      && drafts[i].electricity_rate.None? && drafts[i].water_rate.None?
      && drafts[i].is_paid.None? && drafts[i].notes.None? && drafts[i].room_name.None?
  {
    seq(|prevRows|, i requires 0 <= i < |prevRows| =>
      Draft(prevRows[i].room_id, month, prevRows[i].occupants, prevRows[i].electricity_new, Some(0)))
  }

  /** The seed with no history: rooms 1 to 4, empty and with both readings at zero. */
  function DefaultSeed(month: string): (drafts: seq<MonthlyBill>)
    ensures |drafts| == 4
    ensures forall i :: 0 <= i < 4 ==> drafts[i] == Draft(i + 1, month, Some(0), Some(0), Some(0))
  {
    seq(4, i => Draft(i + 1, month, Some(0), Some(0), Some(0)))
  }

  /** What is inserted for an empty month, given last month's rows. */
  function SeedFor(prevRows: seq<MonthlyBill>, month: string): (drafts: seq<MonthlyBill>)
    ensures |drafts| > 0
    ensures forall i :: 0 <= i < |drafts| ==> drafts[i].month_key == month
  {
    if |prevRows| > 0 then SeedFromPrevious(prevRows, month) else DefaultSeed(month)
  }

  /** The store and the bills shown, as one value. */
  datatype Snapshot = Snapshot(table: seq<MonthlyBill>, nextId: int, bills: seq<MonthlyBill>)

  ghost predicate ValidStore(s: Snapshot) {
    IdsBelow(s.table, s.nextId) && IdsUnique(s.table)
  }

  /** Whether `fetchMonthData(month)` runs to the end without a remote call failing. */
  predicate FetchSucceeds(table: seq<MonthlyBill>, month: string, f: Faults) {
    !f.currentQuery && (|Select(table, month)| > 0 || (!f.previousQuery && !f.insert))
  }

  /**
   * `fetchMonthData(month)` on a snapshot, where `prevKey` is the key the
   * routine computes for the month before (`PreviousMonthKey(month)`): publish
   * the month's rows if it has any; otherwise seed it from last month's rows
   * (or from the default rooms), insert the seed with fresh ids and publish
   * the inserted rows, ordered by room. A failed call changes nothing.
   */
  function Fetch(s: Snapshot, month: string, prevKey: string, f: Faults): (r: Snapshot)
    ensures |s.table| <= |r.table| && r.table[..|s.table|] == s.table
    ensures !FetchSucceeds(s.table, month, f) ==> r == s
  {
    if f.currentQuery then s
    else
      var current := Select(s.table, month);
      if |current| > 0 then s.(bills := current)
      else if f.previousQuery || f.insert then s
      else
        var rows := Stamp(SeedFor(Select(s.table, prevKey), month), s.nextId);
        var r := Snapshot(s.table + rows, s.nextId + |rows|, SortByRoom(rows));
        assert r.table[..|s.table|] == s.table;
        r
  }

  /** Once seeded rows are stored, reading the month gives exactly those rows, ordered by room. */
  lemma SeededMonthReadsBack(table: seq<MonthlyBill>, rows: seq<MonthlyBill>, month: string)
    requires forall i :: 0 <= i < |rows| ==> rows[i].month_key == month
    requires |Select(table, month)| == 0
    ensures Select(table + rows, month) == SortByRoom(rows)
  {
    RowsOfMonthAppend(table, rows, month);
    RowsOfMonthAll(rows, month);
    assert RowsOfMonth(table, month) == [] by {
      assert forall b :: b in RowsOfMonth(table, month) ==> b in table && b.month_key == month;
    }
    assert RowsOfMonth(table, month) + rows == rows;
  }

  /** After a fetch that succeeded, the bills shown are the month's rows as the store now holds them, and there are some. */
  lemma FetchShowsMonth(s: Snapshot, month: string, prevKey: string, f: Faults)
    requires FetchSucceeds(s.table, month, f)
    ensures var r := Fetch(s, month, prevKey, f);
      r.bills == Select(r.table, month) && |r.bills| > 0
  {
    if |Select(s.table, month)| == 0 {
      var drafts := SeedFor(Select(s.table, prevKey), month);
      var rows := Stamp(drafts, s.nextId);
      SeededMonthReadsBack(s.table, rows, month);
    }
  }

  /** A fetch keeps every stored id below the counter and every stored id unique. */
  lemma FetchKeepsValid(s: Snapshot, month: string, prevKey: string, f: Faults)
    requires ValidStore(s)
    ensures ValidStore(Fetch(s, month, prevKey, f))
  {
    if FetchSucceeds(s.table, month, f) && |Select(s.table, month)| == 0 {
      StampKeepsIds(s.table, s.nextId, SeedFor(Select(s.table, prevKey), month));
    }
  }

  // ---------------------------------------------------------------------------
  // Properties of the fetch routine

  /**
   * No duplicate seeding: after a fetch that succeeded, the month has rows, so
   * fetching it again inserts nothing and, if its query succeeds, shows the same bills.
   */
  lemma {:induction false} FetchTwiceSeedsOnce(s: Snapshot, month: string, prevKey: string, f: Faults, g: Faults)
    requires FetchSucceeds(s.table, month, f)
    ensures var r := Fetch(s, month, prevKey, f);
      && Fetch(r, month, prevKey, g).table == r.table
      && Fetch(r, month, prevKey, g).nextId == r.nextId
      && (!g.currentQuery ==> Fetch(r, month, prevKey, g) == r)
  {
    FetchShowsMonth(s, month, prevKey, f);
  }

  /** A month that has rows is shown as stored, and nothing is inserted. */
  lemma FetchExistingMonth(s: Snapshot, month: string, prevKey: string, f: Faults)
    requires !f.currentQuery && |Select(s.table, month)| > 0
    ensures Fetch(s, month, prevKey, f) == s.(bills := Select(s.table, month))
  {
  }

  /** An empty month, fetched with no remote call failing, gets the seed inserted and shown. */
  lemma FetchSeeds(s: Snapshot, month: string, prevKey: string, f: Faults, drafts: seq<MonthlyBill>)
    requires |Select(s.table, month)| == 0
    requires !f.currentQuery && !f.previousQuery && !f.insert
    requires SeedFor(Select(s.table, prevKey), month) == drafts
    ensures Fetch(s, month, prevKey, f).table == s.table + Stamp(drafts, s.nextId)
    ensures Fetch(s, month, prevKey, f).nextId == s.nextId + |drafts|
    ensures Fetch(s, month, prevKey, f).bills == SortByRoom(Stamp(drafts, s.nextId))
  {
  }

  /** Rows copied from last month's ordered rows are already ordered by room. */
  lemma RolledRowsSorted(prev: seq<MonthlyBill>, month: string, firstId: int)
    requires SortedByRoom(prev)
    ensures SortByRoom(Stamp(SeedFromPrevious(prev, month), firstId)) == Stamp(SeedFromPrevious(prev, month), firstId)
  {
    var rows := Stamp(SeedFromPrevious(prev, month), firstId);
    SameRoomsSorted(prev, rows);
    SortByRoomSorted(rows);
  }

  /**
   * The rows a roll-over inserts: one per row of last month, in the same
   * order, with consecutive fresh ids, the same room and occupants, and last
   * month's closing reading as the opening reading.
   */
  lemma RolledRows(prev: seq<MonthlyBill>, month: string, firstId: int)
    ensures var rows := Stamp(SeedFromPrevious(prev, month), firstId);
      && |rows| == |prev|
      && (forall i :: 0 <= i < |prev| ==>
            && rows[i].id == Some(firstId + i)
            && rows[i].room_id == prev[i].room_id
            && rows[i].month_key == month
            && rows[i].occupants == prev[i].occupants
            && rows[i].electricity_old == prev[i].electricity_new
            && rows[i].electricity_new == Some(0))
  {
  }

  /**
   * Roll-over: an empty month after a month with rows stores and shows the
   * rows rolled over from last month's rows (RolledRows), in that order.
   */
  lemma {:induction false} FetchRollsOver(s: Snapshot, month: string, prevKey: string)
    requires |Select(s.table, month)| == 0
    requires |Select(s.table, prevKey)| > 0
    ensures var prev := Select(s.table, prevKey);
      var r := Fetch(s, month, prevKey, NO_FAULTS);
      && r.bills == Stamp(SeedFromPrevious(prev, month), s.nextId)
      && r.table == s.table + r.bills
      && r.nextId == s.nextId + |prev|
  {
    var prev := Select(s.table, prevKey);
    FetchSeeds(s, month, prevKey, NO_FAULTS, SeedFromPrevious(prev, month));
    RolledRowsSorted(prev, month, s.nextId);
  }

  /** The default rooms are listed in room order. */
  lemma DefaultRowsSorted(month: string, firstId: int)
    ensures SortByRoom(Stamp(DefaultSeed(month), firstId)) == Stamp(DefaultSeed(month), firstId)
  {
    var rows := Stamp(DefaultSeed(month), firstId);
    SortedByRoomPairwise(rows);
    SortByRoomSorted(rows);
  }

  /** The default seed as stored: rooms 1, 2, 3, 4 in that order, with consecutive fresh ids, empty and zeroed. */
  lemma DefaultRows(month: string, firstId: int)
    ensures var rows := Stamp(DefaultSeed(month), firstId);
      && |rows| == 4
      && forall i :: 0 <= i < 4 ==> rows[i] == Draft(i + 1, month, Some(0), Some(0), Some(0)).(id := Some(firstId + i))
  {
  }

  /** With no history at all, the month stores and shows the default rows (DefaultRows). */
  lemma {:induction false} FetchDefaultSeed(s: Snapshot, month: string, prevKey: string)
    requires |Select(s.table, month)| == 0
    requires |Select(s.table, prevKey)| == 0
    ensures var r := Fetch(s, month, prevKey, NO_FAULTS);
      && r.bills == Stamp(DefaultSeed(month), s.nextId)
      && r.table == s.table + r.bills
      && r.nextId == s.nextId + 4
  {
    FetchSeeds(s, month, prevKey, NO_FAULTS, DefaultSeed(month));
    DefaultRowsSorted(month, s.nextId);
  }

  /**
   * A cleared month picker selects the month "". Its previous key is "NaN-NaN",
   * and when neither key has rows the fetch stores four default rows under "".
   */
  lemma ClearedMonthSeedsDefaults(s: Snapshot)
    requires |Select(s.table, "")| == 0
    requires |Select(s.table, "NaN-NaN")| == 0
    ensures PreviousMonthKey("") == "NaN-NaN"
    ensures var r := Fetch(s, "", PreviousMonthKey(""), NO_FAULTS);
      && |r.table| == |s.table| + 4
      && forall i :: |s.table| <= i < |r.table| ==> r.table[i].month_key == ""
  {
    PreviousMonthKeyInvalid("");
    FetchDefaultSeed(s, "", "NaN-NaN");
  }

  /** The optimistic update shows what the store holds once the same update has been applied there. */
  lemma OptimisticUpdateMatchesStore(table: seq<MonthlyBill>, month: string, id: int, patch: BillPatch)
    requires KeepsPlace(patch)
    ensures ApplyUpdate(Select(table, month), id, patch) == Select(ApplyUpdate(table, id, patch), month)
  {
    SelectUpdate(table, month, id, patch);
  }

  // ---------------------------------------------------------------------------
  // The hook's state

  class MonthlyDataHook {
    var selectedMonth: string
    var bills: seq<MonthlyBill>
    var loading: bool
    /** The remote `monthly_bills` table and its id counter. */
    var table: seq<MonthlyBill>
    var nextId: int

    ghost predicate Valid()
      reads this
    {
      ValidStore(Snapshot(table, nextId, bills))
    }

    ghost function State(): Snapshot
      reads this
    {
      Snapshot(table, nextId, bills)
    }

    /** The hook's initial state over an existing store: December 2025, no bills, not loading. */
    constructor (store: seq<MonthlyBill>, storeNextId: int)
      requires IdsBelow(store, storeNextId) && IdsUnique(store)
      ensures Valid()
      ensures selectedMonth == "2025-12" && bills == [] && !loading
      ensures table == store && nextId == storeNextId
    {
      selectedMonth := "2025-12";
      bills := [];
      loading := false;
      table := store;
      nextId := storeNextId;
    }

    /** `fetchMonthData(month)`. */
    method FetchMonthData(month: string, f: Faults)
      requires Valid()
      modifies this
      ensures Valid()
      ensures State() == Fetch(old(State()), month, PreviousMonthKey(month), f)
      ensures !loading && selectedMonth == old(selectedMonth)
    {
      loading := true;
      if f.currentQuery {
        loading := false;
        return;
      }
      var current := Select(table, month);
      if |current| > 0 {
        bills := current;
        loading := false;
        return;
      }
      var prevKey := PreviousMonthKey(month);
      if f.previousQuery {
        loading := false;
        return;
      }
      var prev := Select(table, prevKey);
      var payload;
      if |prev| > 0 {
        payload := SeedFromPrevious(prev, month);
      } else {
        payload := DefaultSeed(month);
      }
      if f.insert {
        loading := false;
        return;
      }
      InsertRows(payload);
      loading := false;
      assert State() == Fetch(old(State()), month, prevKey, f) by {
        FetchSeeds(old(State()), month, prevKey, f, payload);
      }
    }

    /** The `insert(payload).select()` call: the drafts are stored with fresh ids and the inserted rows, ordered by room, are shown. */
    method InsertRows(payload: seq<MonthlyBill>)
      requires Valid()
      modifies this
      ensures Valid()
      ensures table == old(table) + Stamp(payload, old(nextId)) && nextId == old(nextId) + |payload|
      ensures bills == SortByRoom(Stamp(payload, old(nextId)))
      ensures selectedMonth == old(selectedMonth) && loading == old(loading)
    {
      StampKeepsIds(table, nextId, payload);
      var inserted := Stamp(payload, nextId);
      table, nextId, bills := table + inserted, nextId + |payload|, SortByRoom(inserted);
    }

    /**
     * `setSelectedMonth(month)` followed by the effect that fetches the newly
     * selected month. Setting the month it already holds changes nothing, so
     * the effect does not run then.
     */
    method SelectMonth(month: string, f: Faults)
      requires Valid()
      modifies this
      ensures Valid()
      ensures selectedMonth == month
      ensures month != old(selectedMonth) ==>
        State() == Fetch(old(State()), month, PreviousMonthKey(month), f) && !loading
      ensures month == old(selectedMonth) ==> State() == old(State()) && loading == old(loading)
    {
      if month != selectedMonth {
        selectedMonth := month;
        FetchMonthData(month, f);
      }
    }

    /**
     * `updateBill(id, patch)`: merge the patch into the shown bill with that id
     * at once, then update the stored row; if the store reports an error, fetch
     * the selected month again.
     */
    method UpdateBill(id: int, patch: BillPatch, updateFails: bool, refetch: Faults)
      requires Valid()
      modifies this
      ensures selectedMonth == old(selectedMonth)
      ensures !updateFails ==>
        && bills == ApplyUpdate(old(bills), id, patch)
        && table == ApplyUpdate(old(table), id, patch)
        && nextId == old(nextId) && loading == old(loading)
      ensures updateFails ==>
        && State() == Fetch(Snapshot(old(table), old(nextId), ApplyUpdate(old(bills), id, patch)), selectedMonth, PreviousMonthKey(selectedMonth), refetch)
        && !loading
      ensures updateFails || patch.id.None? ==> Valid()
    {
      bills := ApplyUpdate(bills, id, patch);
      if updateFails {
        FetchMonthData(selectedMonth, refetch);
      } else {
        var before := table;
        table := ApplyUpdate(table, id, patch);
        if patch.id.None? {
          assert forall i :: 0 <= i < |table| ==> IdOf(table, i) == IdOf(before, i);
        }
      }
    }
  }
}
