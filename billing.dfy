// The bill calculator of the monthly-data hook (src/hooks/useMonthlyData.ts:12-34).
// The rates are literals written into the calculator, equal to the constants
// of src/types/index.ts:34-36, which it does not read; the bill's own
// `electricity_rate` and `water_rate` are not read either. The per-person share is a
// JavaScript floating-point division, modelled as exact division over `real`.

module Billing {
  import opened Types

  /** Electricity used between two readings, `Math.max(0, newReading - oldReading)`. */
  function Usage(oldReading: int, newReading: int): (u: int)
    ensures u >= 0 && u >= newReading - oldReading
    ensures u == 0 || u == newReading - oldReading
  {
    if newReading > oldReading then newReading - oldReading else 0
  }

  /**
   * The calculator on the three numbers it reads. Rent and water are charged
   * per occupant; electricity by the kWh; the per-person share is the fixed
   * per-occupant charge plus an even split of the electricity.
   */
  function Calculate(occupants: int, oldReading: int, newReading: int): (c: BillCalculation)
    ensures c.electricityUsage == Usage(oldReading, newReading)
    ensures c.electricityCost == c.electricityUsage * DEFAULT_ELECTRICITY_RATE
    ensures c.waterCost == occupants * DEFAULT_WATER_RATE
    ensures c.roomRent == occupants * DEFAULT_ROOM_RENT
    ensures c.totalBill == c.roomRent + c.waterCost + c.electricityCost
    ensures occupants <= 0 ==> c.perPerson == 0.0
    ensures occupants > 0 ==> c.perPerson * occupants as real == c.totalBill as real
  {
    var usage := Usage(oldReading, newReading);
    var electricityCost := usage * 5000;
    var waterCost := occupants * 80000;
    var roomRent := occupants * 1000000;
    var totalBill := roomRent + waterCost + electricityCost;
    var perPerson :=
      if occupants > 0 then (1000000 + 80000) as real + electricityCost as real / occupants as real
      else 0.0;
    assert occupants > 0 ==> perPerson * occupants as real == totalBill as real by {
      if occupants > 0 { PerPersonShare(occupants, electricityCost, perPerson); }
    }
    BillCalculation(usage, electricityCost, waterCost, roomRent, totalBill, perPerson)
  }

  /** The fixed share plus an even split of the electricity, times the head count, is the room total. */
  lemma PerPersonShare(occupants: int, electricityCost: int, perPerson: real)
    requires occupants > 0
    requires perPerson == (1000000 + 80000) as real + electricityCost as real / occupants as real
    ensures perPerson * occupants as real
         == (occupants * 1000000 + occupants * 80000 + electricityCost) as real
  {
    var n := occupants as real;
    var e := electricityCost as real;
    calc {
      perPerson * n;
      (1080000.0 + e / n) * n;
      1080000.0 * n + (e / n) * n;
      1080000.0 * n + e;
    }
  }

  /** `calculateBill(bill)`: absent occupants and readings count as 0; the rate fields play no part. */
  function CalculateBill(bill: MonthlyBill): (c: BillCalculation)
    ensures c == Calculate(bill.occupants.GetOr(0), bill.electricity_old.GetOr(0), bill.electricity_new.GetOr(0))
    ensures bill.occupants.None? ==> c.waterCost == 0 && c.roomRent == 0 && c.perPerson == 0.0
  {
    var occupants := bill.occupants.GetOr(0);
    Calculate(occupants, bill.electricity_old.GetOr(0), bill.electricity_new.GetOr(0))
  }

  /**
   * With one or two occupants the per-person share is a whole number of VND:
   * the electricity cost is a multiple of 5000, so it splits evenly.
   */
  lemma {:induction false} PerPersonExact(occupants: int, oldReading: int, newReading: int)
    requires occupants == 1 || occupants == 2
    ensures var c := Calculate(occupants, oldReading, newReading);
      c.electricityCost % occupants == 0 &&
      c.perPerson == (1080000 + c.electricityCost / occupants) as real
  {
    var c := Calculate(occupants, oldReading, newReading);
    var half := c.electricityUsage * 2500;
    assert c.electricityCost == half * 2;
    var share := c.electricityCost / occupants;
    assert share * occupants == c.electricityCost;
    assert c.perPerson * occupants as real == (1080000 * occupants + c.electricityCost) as real;
    assert (1080000 + share) as real * occupants as real == (1080000 * occupants + c.electricityCost) as real;
    RealCancel(c.perPerson, (1080000 + share) as real, occupants as real);
  }

  lemma RealCancel(x: real, y: real, n: real)
    requires n > 0.0 && x * n == y * n
    ensures x == y
  {
    assert (x - y) * n == 0.0;
  }

  /** The worked example: two occupants, readings 100 and 150. */
  lemma CalculateExample()
    ensures Calculate(2, 100, 150) == BillCalculation(50, 250000, 160000, 2000000, 2410000, 1205000.0)
  {
  }
}
