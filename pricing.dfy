/** Booking-cost arithmetic: the rental-day count the catalog computes from the
    chosen dates, and the driver surcharge and total the payment page shows and
    sends. Dates are integer milliseconds; amounts are integers. */
module Pricing {
  /** `1000 * 60 * 60 * 24`. */
  const MsPerDay: int := 86400000
  /** Rs. 500 per driver per day. */
  const DriverRatePerDay: int := 500

  /** `Math.ceil((end - start) / MsPerDay)`, written with Euclidean division:
      `ceil(d / k) == -((-d) / k)` for every integer `d` when `k > 0`. The result
      is the least whole number of days that covers the span. */
  function CalculateDays(startMs: int, endMs: int): (days: int)
    ensures (days - 1) * MsPerDay < endMs - startMs <= days * MsPerDay
  {
    -((startMs - endMs) / MsPerDay)
  }

  /** The ceiling is unique: any day count that covers the span exactly as
      tightly is the one `CalculateDays` returns. */
  lemma CalculateDaysUnique(startMs: int, endMs: int, n: int)
    requires (n - 1) * MsPerDay < endMs - startMs <= n * MsPerDay
    ensures CalculateDays(startMs, endMs) == n
  {
  }

  lemma CalculateDaysSameDate(t: int)
    ensures CalculateDays(t, t) == 0
  {
    CalculateDaysUnique(t, t, 0);
  }

  /** A span of exactly `n` days counts as `n` days. */
  lemma CalculateDaysExact(t: int, n: int)
    ensures CalculateDays(t, t + n * MsPerDay) == n
  {
    CalculateDaysUnique(t, t + n * MsPerDay, n);
  }

  /** Any part of a day started counts as a whole day. */
  lemma CalculateDaysPartial(t: int, n: int, extra: int)
    requires 0 < extra < MsPerDay
    ensures CalculateDays(t, t + n * MsPerDay + extra) == n + 1
  {
    CalculateDaysUnique(t, t + n * MsPerDay + extra, n + 1);
  }

  /** `driverDays * 500 * rentalDays`. */
  function DriverCost(driverDays: int, rentalDays: int): (cost: int)
    ensures driverDays == 0 || rentalDays == 0 ==> cost == 0
    ensures driverDays >= 0 && rentalDays >= 0 ==> cost >= 0
  {
    driverDays * DriverRatePerDay * rentalDays
  }

  /** `rentalDays * pricePerDay + driverCost`. */
  function TotalAmount(rentalDays: int, pricePerDay: int, driverDays: int): (total: int)
    ensures driverDays == 0 ==> total == rentalDays * pricePerDay
    ensures driverDays >= 0 && rentalDays >= 0 ==> total >= rentalDays * pricePerDay
  {
    rentalDays * pricePerDay + DriverCost(driverDays, rentalDays)
  }

  /** The driver surcharge compounds: every extra rental day adds another
      Rs. 500 for each driver-day, so the charge scales with both counts. */
  lemma DriverCostCompounds(driverDays: int, rentalDays: int)
    ensures DriverCost(driverDays, rentalDays + 1) == DriverCost(driverDays, rentalDays) + DriverRatePerDay * driverDays
  {
    calc {
      DriverCost(driverDays, rentalDays + 1);
      (driverDays * DriverRatePerDay) * (rentalDays + 1);
      (driverDays * DriverRatePerDay) * rentalDays + driverDays * DriverRatePerDay;
    }
  }

  /** It is not a flat Rs. 500 per driver-day: 2 driver-days on a 5-day rental cost 5000, not 1000. */
  lemma DriverCostNotFlat()
    ensures DriverCost(2, 5) == 5000 != 2 * DriverRatePerDay
    ensures TotalAmount(5, 100, 2) == 5500
  {
  }

  lemma TotalMonotoneInDriverDays(rentalDays: int, pricePerDay: int, d1: int, d2: int)
    requires rentalDays >= 0 && d1 <= d2
    ensures TotalAmount(rentalDays, pricePerDay, d1) <= TotalAmount(rentalDays, pricePerDay, d2)
  {
    assert (d2 - d1) * DriverRatePerDay * rentalDays >= 0;
    assert DriverCost(d2, rentalDays) - DriverCost(d1, rentalDays) == (d2 - d1) * DriverRatePerDay * rentalDays;
  }

  lemma TotalMonotoneInPrice(rentalDays: int, p1: int, p2: int, driverDays: int)
    requires rentalDays >= 0 && p1 <= p2
    ensures TotalAmount(rentalDays, p1, driverDays) <= TotalAmount(rentalDays, p2, driverDays)
  {
    assert rentalDays * p2 - rentalDays * p1 == rentalDays * (p2 - p1);
  }
}
