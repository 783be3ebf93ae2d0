/** The cost of a booking: the charger's hourly rate times the booked duration, to two decimals. */
module Cost {

  /** The source's scale factor (25/9)·1e-7, an exact rational here. */
  const Scale: real := (25.0 / 9.0) * 0.0000001

  /** The scale converts milliseconds to hours. */
  lemma ScaleIsPerHour()
    ensures Scale * 3600000.0 == 1.0
  {
  }

  /** rate · (end − start) · Scale before rounding. */
  function ExactCost(rate: real, timeStart: int, timeEnd: int): real
  {
    rate * ((timeEnd - timeStart) as real) * Scale
  }

  /**
   * The integer n with n/100 the value `x.toFixed(2)` denotes, taken on exact rationals:
   * the hundredth nearest to x, and on a tie the one farther from zero.
   */
  function Hundredths(x: real): (n: int)
    ensures 100.0 * x - 0.5 <= n as real <= 100.0 * x + 0.5
    ensures x >= 0.0 ==> 100.0 * x - 0.5 < n as real
    ensures x < 0.0 ==> n as real < 100.0 * x + 0.5
    ensures x >= 0.0 ==> n >= 0
    ensures x <= 0.0 ==> n <= 0
  {
    if x >= 0.0 then (100.0 * x + 0.5).Floor else -((-100.0 * x + 0.5).Floor)
  }

  /** Rounding to hundredths never reverses an order. */
  lemma HundredthsMonotone(x: real, y: real)
    requires x <= y
    ensures Hundredths(x) <= Hundredths(y)
  {
  }

  /** The stored cost of a booking, in hundredths. */
  function BookingCost(rate: real, timeStart: int, timeEnd: int): (c: int)
    ensures 100.0 * ExactCost(rate, timeStart, timeEnd) - 0.5 <= c as real <= 100.0 * ExactCost(rate, timeStart, timeEnd) + 0.5
    ensures rate >= 0.0 && timeStart <= timeEnd ==> c >= 0
  {
    var x := ExactCost(rate, timeStart, timeEnd);
    assert rate >= 0.0 && timeStart <= timeEnd ==> x >= 0.0 by {
      if rate >= 0.0 && timeStart <= timeEnd {
        assert rate * ((timeEnd - timeStart) as real) >= 0.0;
      }
    }
    Hundredths(x)
  }

  /** A longer window at a non-negative rate never costs less. */
  lemma CostMonotone(rate: real, timeStart: int, end1: int, end2: int)
    requires rate >= 0.0 && end1 <= end2
    ensures BookingCost(rate, timeStart, end1) <= BookingCost(rate, timeStart, end2)
  {
    var d1, d2 := (end1 - timeStart) as real, (end2 - timeStart) as real;
    assert rate * d1 <= rate * d2 by {
      assert rate * (d2 - d1) >= 0.0;
    }
    assert ExactCost(rate, timeStart, end1) <= ExactCost(rate, timeStart, end2);
    HundredthsMonotone(ExactCost(rate, timeStart, end1), ExactCost(rate, timeStart, end2));
  }

  /** Worked examples: one hour at rate 10 costs 10.00; 3600 ms at rate 10 costs 0.01. */
  lemma CostExamples()
    ensures BookingCost(10.0, 0, 3600000) == 1000
    ensures BookingCost(10.0, 0, 3600) == 1
  {
    assert ExactCost(10.0, 0, 3600000) == 10.0;
    assert ExactCost(10.0, 0, 3600) == 0.01;
  }
}
