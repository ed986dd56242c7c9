// Record shapes and fixed rates shared by the billing hooks (src/types/index.ts).

module Types {

  /** An optional value: a column that may be NULL, or a field that may be absent. */
  datatype Option<+T> = None | Some(value: T) {
    /** The value, or `default` when absent (the `??` operator). */
    function GetOr(default: T): T {
      match this
      case Some(v) => v
      case None => default
    }
  }

  /** The display name of each room (`ROOM_NAMES`). */
  const ROOM_NAMES: map<int, string> :=
    map[1 := "Phòng 1", 2 := "Phòng 2", 3 := "Phòng 3", 4 := "Phòng 4"]

  /** VND per kWh of electricity. */
  const DEFAULT_ELECTRICITY_RATE: int := 5000
  /** VND of water charged per occupant. */
  const DEFAULT_WATER_RATE: int := 80000
  /** VND of rent charged per occupant. */
  const DEFAULT_ROOM_RENT: int := 1000000

  /**
   * One row of the `monthly_bills` table: one room's bill for one month.
   * The readings and the occupant count are optional as well, because the
   * hooks read them through `?? 0` (a NULL column counts as zero).
   */
  datatype MonthlyBill = MonthlyBill(
    id: Option<int>,
    room_id: int,
    month_key: string,
    occupants: Option<int>,
    electricity_old: Option<int>,
    electricity_new: Option<int>,
    electricity_rate: Option<int>,
    water_rate: Option<int>,
    is_paid: Option<bool>,
    notes: Option<string>,
    room_name: Option<string>)

  /** A `Partial<MonthlyBill>`: every field that is `Some` overrides the bill's. */
  datatype BillPatch = BillPatch(
    id: Option<Option<int>>,
    room_id: Option<int>,
    month_key: Option<string>,
    occupants: Option<Option<int>>,
    electricity_old: Option<Option<int>>,
    electricity_new: Option<Option<int>>,
    electricity_rate: Option<Option<int>>,
    water_rate: Option<Option<int>>,
    is_paid: Option<Option<bool>>,
    notes: Option<Option<string>>,
    room_name: Option<Option<string>>)

  /** The patch that sets nothing. */
  const NO_CHANGES: BillPatch :=
    BillPatch(None, None, None, None, None, None, None, None, None, None, None)

  /** The object spread `{ ...b, ...p }`. */
  function MergeBill(b: MonthlyBill, p: BillPatch): MonthlyBill {
    MonthlyBill(
      p.id.GetOr(b.id),
      p.room_id.GetOr(b.room_id),
      p.month_key.GetOr(b.month_key),
      p.occupants.GetOr(b.occupants),
      p.electricity_old.GetOr(b.electricity_old),
      p.electricity_new.GetOr(b.electricity_new),
      p.electricity_rate.GetOr(b.electricity_rate),
      p.water_rate.GetOr(b.water_rate),
      p.is_paid.GetOr(b.is_paid),
      p.notes.GetOr(b.notes),
      p.room_name.GetOr(b.room_name))
  }

  /** Merging a patch twice is the same as merging it once. */
  lemma MergeBillIdempotent(b: MonthlyBill, p: BillPatch)
    ensures MergeBill(MergeBill(b, p), p) == MergeBill(b, p)
  {
  }

  /** The empty patch changes nothing. */
  lemma MergeBillNoChanges(b: MonthlyBill)
    ensures MergeBill(b, NO_CHANGES) == b
  {
  }

  /** What the calculator reports for one bill (`BillCalculation`). */
  datatype BillCalculation = BillCalculation(
    electricityUsage: int,
    electricityCost: int,
    waterCost: int,
    roomRent: int,
    totalBill: int,
    perPerson: real)
}
