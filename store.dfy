// The `monthly_bills` table as the hooks use it, held in memory: a sequence of
// rows and the next id the store will hand out. Queries, the batch insert and
// the update by id are the ones issued at src/hooks/useMonthlyData.ts:42-46,
// 68-72, 106-110 and 135-138.

module Store {
  import opened Types

  // ---------------------------------------------------------------------------
  // Reading

  /** `.eq('month_key', key)`: the rows of one month, in table order. */
  function RowsOfMonth(table: seq<MonthlyBill>, key: string): (r: seq<MonthlyBill>)
    ensures forall b :: b in r <==> b in table && b.month_key == key
    ensures |r| <= |table|
  {
    if table == [] then []
    else
      var rest := RowsOfMonth(table[1..], key);
      assert table == [table[0]] + table[1..];
      if table[0].month_key == key then [table[0]] + rest else rest
  }

  /** Each row's room id is at most the next row's. */
  predicate SortedByRoom(s: seq<MonthlyBill>)
    decreases |s|
  {
    |s| < 2 || (s[0].room_id <= s[1].room_id && SortedByRoom(s[1..]))
  }

  /** Puts `x` before the first row of `s` whose room id is not smaller. */
  function InsertByRoom(x: MonthlyBill, s: seq<MonthlyBill>): (r: seq<MonthlyBill>)
    requires SortedByRoom(s)
    ensures SortedByRoom(r)
    ensures |r| == |s| + 1 && (r[0] == x || (|s| > 0 && r[0] == s[0]))
  {
    if s == [] || x.room_id <= s[0].room_id then
      var r := [x] + s;
      assert r[1..] == s;
      r
    else
      var rest := InsertByRoom(x, s[1..]);
      var r := [s[0]] + rest;
      assert r[1..] == rest;
      assert s == [s[0]] + s[1..];
      r
  }

  /**
   * `.order('room_id')`: the rows ordered by room id. The store leaves rows of
   * equal room id in no particular order; this model keeps their order.
   */
  function SortByRoom(s: seq<MonthlyBill>): (r: seq<MonthlyBill>)
    ensures SortedByRoom(r) && |r| == |s|
  {
    if s == [] then []
    else
      assert s == [s[0]] + s[1..];
      InsertByRoom(s[0], SortByRoom(s[1..]))
  }

  /** `.select('*').eq('month_key', key).order('room_id')`. */
  function Select(table: seq<MonthlyBill>, key: string): (r: seq<MonthlyBill>)
    ensures SortedByRoom(r)
    ensures |r| == 0 <==> forall b :: b in table ==> b.month_key != key
  {
    var rows := RowsOfMonth(table, key);
    var r := SortByRoom(rows);
    assert |rows| > 0 ==> rows[0] in table;
    r
  }

  /** The rows of one month: each row of the month as often as the table holds it, and no other row. */
  lemma SelectRows(table: seq<MonthlyBill>, key: string)
    ensures forall b {:trigger multiset(Select(table, key))[b]} ::
      multiset(Select(table, key))[b] == if b.month_key == key then multiset(table)[b] else 0
  {
    RowsOfMonthCount(table, key);
    SortByRoomPermutes(RowsOfMonth(table, key));
  }

  /** Filtering keeps each row of the month as often as the table holds it and drops every other row. */
  lemma {:induction false} RowsOfMonthCount(table: seq<MonthlyBill>, key: string)
    ensures forall b {:trigger multiset(RowsOfMonth(table, key))[b]} ::
      multiset(RowsOfMonth(table, key))[b] == if b.month_key == key then multiset(table)[b] else 0
  {
    if table != [] {
      RowsOfMonthCount(table[1..], key);
      assert table == [table[0]] + table[1..];
    }
  }

  /** Inserting adds exactly `x`: the result is a permutation of `s` plus `x`. */
  lemma {:induction false} InsertByRoomPermutes(x: MonthlyBill, s: seq<MonthlyBill>)
    requires SortedByRoom(s)
    ensures multiset(InsertByRoom(x, s)) == multiset(s) + multiset{x}
  {
    if s != [] && x.room_id > s[0].room_id {
      InsertByRoomPermutes(x, s[1..]);
      assert s == [s[0]] + s[1..];
    }
  }

  /** Ordering by room is a permutation. */
  lemma {:induction false} SortByRoomPermutes(s: seq<MonthlyBill>)
    ensures multiset(SortByRoom(s)) == multiset(s)
  {
    if s != [] {
      SortByRoomPermutes(s[1..]);
      InsertByRoomPermutes(s[0], SortByRoom(s[1..]));
      assert s == [s[0]] + s[1..];
    }
  }

  // ---------------------------------------------------------------------------
  // Ids

  /** The id of row `i`. */
  function IdOf(table: seq<MonthlyBill>, i: int): Option<int>
    requires 0 <= i < |table|
  {
    table[i].id
  }

  /** Every id in the table was handed out before `nextId`. */
  ghost predicate IdsBelow(table: seq<MonthlyBill>, nextId: int) {
    forall i :: 0 <= i < |table| && IdOf(table, i).Some? ==> IdOf(table, i).value < nextId
  }

  /** No two rows share an id. */
  ghost predicate IdsUnique(table: seq<MonthlyBill>) {
    forall i, j :: 0 <= i < j < |table| && IdOf(table, i).Some? ==> IdOf(table, i) != IdOf(table, j)
  }

  /** The rows a batch insert stores: each draft gets the next id in turn. */
  function Stamp(drafts: seq<MonthlyBill>, firstId: int): (rows: seq<MonthlyBill>)
    ensures |rows| == |drafts|
    ensures forall i :: 0 <= i < |drafts| ==> rows[i] == drafts[i].(id := Some(firstId + i))
  {
    seq(|drafts|, i requires 0 <= i < |drafts| => drafts[i].(id := Some(firstId + i)))
  }

  /** Inserting stamped rows keeps every id below the counter and every id unique. */
  lemma StampKeepsIds(table: seq<MonthlyBill>, nextId: int, drafts: seq<MonthlyBill>)
    requires IdsBelow(table, nextId) && IdsUnique(table)
    ensures IdsBelow(table + Stamp(drafts, nextId), nextId + |drafts|)
    ensures IdsUnique(table + Stamp(drafts, nextId))
  {
    var t := table + Stamp(drafts, nextId);
    forall i | 0 <= i < |t| && IdOf(t, i).Some?
      ensures IdOf(t, i).value < nextId + |drafts|
    {
      if i < |table| { assert IdOf(t, i) == IdOf(table, i); }
    }
    forall i, j | 0 <= i < j < |t| && IdOf(t, i).Some?
      ensures IdOf(t, i) != IdOf(t, j)
    {
      if j < |table| {
        assert IdOf(t, i) == IdOf(table, i) && IdOf(t, j) == IdOf(table, j);
      } else if i < |table| {
        assert IdOf(t, i) == IdOf(table, i);
        assert IdOf(t, i).value < nextId <= IdOf(t, j).value;
      }
    }
  }

  // ---------------------------------------------------------------------------
  // Update by id

  /** One row after `b.id === id ? { ...b, ...patch } : b`. */
  function UpdateRow(b: MonthlyBill, id: int, patch: BillPatch): MonthlyBill {
    if b.id == Some(id) then MergeBill(b, patch) else b
  }

  /** `rows.map(b => b.id === id ? { ...b, ...patch } : b)`, and `.update(patch).eq('id', id)` on the table. */
  function ApplyUpdate(rows: seq<MonthlyBill>, id: int, patch: BillPatch): (r: seq<MonthlyBill>)
    ensures |r| == |rows|
    ensures forall i :: 0 <= i < |rows| && rows[i].id != Some(id) ==> r[i] == rows[i]
    ensures forall i :: 0 <= i < |rows| && rows[i].id == Some(id) ==> r[i] == MergeBill(rows[i], patch)
  {
    if rows == [] then [] else [UpdateRow(rows[0], id, patch)] + ApplyUpdate(rows[1..], id, patch)
  }

  // ---------------------------------------------------------------------------
  // Lemmas

  /** Reading one month of two concatenated tables. */
  lemma {:induction false} RowsOfMonthAppend(a: seq<MonthlyBill>, b: seq<MonthlyBill>, key: string)
    ensures RowsOfMonth(a + b, key) == RowsOfMonth(a, key) + RowsOfMonth(b, key)
  {
    if a != [] {
      assert (a + b)[1..] == a[1..] + b;
      RowsOfMonthAppend(a[1..], b, key);
    } else {
      assert a + b == b;
    }
  }

  /** A table whose rows all belong to `key` is its own month. */
  lemma {:induction false} RowsOfMonthAll(rows: seq<MonthlyBill>, key: string)
    requires forall i :: 0 <= i < |rows| ==> rows[i].month_key == key
    ensures RowsOfMonth(rows, key) == rows
  {
    if rows != [] {
      RowsOfMonthAll(rows[1..], key);
    }
  }

  /** Ordering rows that are already ordered by room id changes nothing. */
  lemma {:induction false} SortByRoomSorted(s: seq<MonthlyBill>)
    requires SortedByRoom(s)
    ensures SortByRoom(s) == s
  {
    if s != [] {
      SortByRoomSorted(s[1..]);
      assert s == [s[0]] + s[1..];
    }
  }

  /** Sorted by room means every row's room id is at most every later row's. */
  lemma {:induction false} SortedByRoomPairwise(s: seq<MonthlyBill>)
    ensures SortedByRoom(s) <==> forall i, j :: 0 <= i < j < |s| ==> s[i].room_id <= s[j].room_id
  {
    if |s| >= 2 {
      SortedByRoomPairwise(s[1..]);
      if SortedByRoom(s) {
        forall i, j | 0 <= i < j < |s| ensures s[i].room_id <= s[j].room_id {
          if i > 0 {
            assert s[i] == s[1..][i - 1] && s[j] == s[1..][j - 1];
          } else if j > 1 {
            assert s[1] == s[1..][0] && s[j] == s[1..][j - 1];
          }
        }
      }
      if forall i, j :: 0 <= i < j < |s| ==> s[i].room_id <= s[j].room_id {
        forall i, j | 0 <= i < j < |s[1..]| ensures s[1..][i].room_id <= s[1..][j].room_id {
          assert s[1..][i] == s[i + 1] && s[1..][j] == s[j + 1];
        }
      }
    }
  }

  /** Rows with the same room ids, position by position, are sorted together. */
  lemma {:induction false} SameRoomsSorted(a: seq<MonthlyBill>, b: seq<MonthlyBill>)
    requires SortedByRoom(a) && |a| == |b|
    requires forall i :: 0 <= i < |a| ==> a[i].room_id == b[i].room_id
    ensures SortedByRoom(b)
  {
    if |a| >= 2 {
      forall i | 0 <= i < |a| - 1 ensures a[1..][i].room_id == b[1..][i].room_id {
        assert a[1..][i] == a[i + 1] && b[1..][i] == b[i + 1];
      }
      SameRoomsSorted(a[1..], b[1..]);
      assert a[0].room_id == b[0].room_id && a[1].room_id == b[1].room_id;
    }
  }

  /** An update of an id no row carries changes nothing. */
  lemma {:induction false} ApplyUpdateAbsent(rows: seq<MonthlyBill>, id: int, patch: BillPatch)
    requires forall b :: b in rows ==> b.id != Some(id)
    ensures ApplyUpdate(rows, id, patch) == rows
  {
    if rows != [] {
      ApplyUpdateAbsent(rows[1..], id, patch);
    }
  }

  /** With unique ids an update touches at most one row. */
  lemma ApplyUpdateOneRow(rows: seq<MonthlyBill>, id: int, patch: BillPatch, i: int, j: int)
    requires IdsUnique(rows)
    requires 0 <= i < j < |rows|
    ensures ApplyUpdate(rows, id, patch)[i] == rows[i] || ApplyUpdate(rows, id, patch)[j] == rows[j]
  {
    assert IdOf(rows, i) == rows[i].id && IdOf(rows, j) == rows[j].id;
  }

  /** A patch that leaves the month and the room alone. */
  predicate KeepsPlace(patch: BillPatch) {
    patch.month_key.None? && patch.room_id.None?
  }

  lemma {:induction false} RowsOfMonthUpdate(table: seq<MonthlyBill>, key: string, id: int, patch: BillPatch)
    requires KeepsPlace(patch)
    ensures RowsOfMonth(ApplyUpdate(table, id, patch), key) == ApplyUpdate(RowsOfMonth(table, key), id, patch)
  {
    if table != [] {
      RowsOfMonthUpdate(table[1..], key, id, patch);
      assert ApplyUpdate(table, id, patch)[1..] == ApplyUpdate(table[1..], id, patch);
    }
  }

  lemma ApplyUpdateSorted(s: seq<MonthlyBill>, id: int, patch: BillPatch)
    requires KeepsPlace(patch) && SortedByRoom(s)
    ensures SortedByRoom(ApplyUpdate(s, id, patch))
  {
    var r := ApplyUpdate(s, id, patch);
    assert forall i :: 0 <= i < |s| ==> r[i].room_id == s[i].room_id;
    SameRoomsSorted(s, r);
  }

  lemma {:induction false} InsertByRoomUpdate(x: MonthlyBill, s: seq<MonthlyBill>, id: int, patch: BillPatch)
    requires KeepsPlace(patch) && SortedByRoom(s)
    ensures SortedByRoom(ApplyUpdate(s, id, patch))
    ensures InsertByRoom(UpdateRow(x, id, patch), ApplyUpdate(s, id, patch))
         == ApplyUpdate(InsertByRoom(x, s), id, patch)
  {
    ApplyUpdateSorted(s, id, patch);
    var t := ApplyUpdate(s, id, patch);
    var y := UpdateRow(x, id, patch);
    if s == [] {
      ApplyUpdateCons(x, s, id, patch);
    } else {
      assert s == [s[0]] + s[1..];
      ApplyUpdateCons(s[0], s[1..], id, patch);
      assert t[0].room_id == s[0].room_id && t[1..] == ApplyUpdate(s[1..], id, patch);
      if x.room_id <= s[0].room_id {
        ApplyUpdateCons(x, s, id, patch);
        assert InsertByRoom(y, t) == [y] + t;
      } else {
        InsertByRoomUpdate(x, s[1..], id, patch);
        var rest := InsertByRoom(x, s[1..]);
        ApplyUpdateCons(s[0], rest, id, patch);
        assert InsertByRoom(x, s) == [s[0]] + rest;
        assert InsertByRoom(y, t) == [t[0]] + InsertByRoom(y, t[1..]);
      }
    }
  }

  lemma ApplyUpdateCons(b: MonthlyBill, rest: seq<MonthlyBill>, id: int, patch: BillPatch)
    ensures ApplyUpdate([b] + rest, id, patch) == [UpdateRow(b, id, patch)] + ApplyUpdate(rest, id, patch)
  {
    assert ([b] + rest)[1..] == rest;
  }

  lemma {:induction false} SortByRoomUpdate(s: seq<MonthlyBill>, id: int, patch: BillPatch)
    requires KeepsPlace(patch)
    ensures SortByRoom(ApplyUpdate(s, id, patch)) == ApplyUpdate(SortByRoom(s), id, patch)
  {
    if s != [] {
      SortByRoomUpdate(s[1..], id, patch);
      assert ApplyUpdate(s, id, patch)[1..] == ApplyUpdate(s[1..], id, patch);
      InsertByRoomUpdate(s[0], SortByRoom(s[1..]), id, patch);
    }
  }

  /**
   * Updating rows by id and then reading a month gives the month read before
   * and updated after, as long as the patch moves no row to another month or room.
   */
  lemma SelectUpdate(table: seq<MonthlyBill>, key: string, id: int, patch: BillPatch)
    requires KeepsPlace(patch)
    ensures Select(ApplyUpdate(table, id, patch), key) == ApplyUpdate(Select(table, key), id, patch)
  {
    RowsOfMonthUpdate(table, key, id, patch);
    SortByRoomUpdate(RowsOfMonth(table, key), id, patch);
  }
}
