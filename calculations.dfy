/**
 * The pricing calculator (src/utils/calculations.ts): a total function from a
 * system configuration to size, base price, GST and total payable, over exact
 * reals.
 */
module Pricing {
  import opened Types

  /** JavaScript's Math.round: the nearest integer, halves toward +infinity. */
  function Round(x: real): (r: int)
    ensures x - 0.5 < r as real <= x + 0.5
  {
    (x + 0.5).Floor
  }

  /** Round is the only integer in the half-open window (x - 1/2, x + 1/2]. */
  lemma RoundUnique(x: real, n: int)
    requires x - 0.5 < n as real <= x + 0.5
    ensures Round(x) == n
  {
  }

  lemma RoundMonotone(x: real, y: real)
    requires x <= y
    ensures Round(x) <= Round(y)
  {
  }

  /** The four unrounded figures. */
  function RawSystemSize(c: SystemConfiguration): real {
    (c.wattPeak * c.numberOfPanels) / 1000.0
  }

  function RawBasePrice(c: SystemConfiguration): real {
    RawSystemSize(c) * c.basePricePerKw
  }

  function RawGst(c: SystemConfiguration): real {
    (RawBasePrice(c) * c.gstPercentage) / 100.0
  }

  function RawTotal(c: SystemConfiguration): real {
    RawBasePrice(c) + RawGst(c) + c.cleaningCharges - c.subsidy
  }

  predicate IsWhole(x: real) {
    x.Floor as real == x
  }

  /**
   * calculateSystemMetrics. The size is kept to two decimals and lies within
   * 1/200 of the raw size; the three money figures are whole and lie within
   * 1/2 of their raw values, the total being rounded once from the raw total.
   */
  function CalculateSystemMetrics(c: SystemConfiguration): (r: Calculations)
    ensures IsWhole(r.systemSize * 100.0)
    ensures RawSystemSize(c) - 0.005 < r.systemSize <= RawSystemSize(c) + 0.005
    ensures IsWhole(r.totalBasePrice) && RawBasePrice(c) - 0.5 < r.totalBasePrice <= RawBasePrice(c) + 0.5
    ensures IsWhole(r.gstAmount) && RawGst(c) - 0.5 < r.gstAmount <= RawGst(c) + 0.5
    ensures IsWhole(r.totalPayableAmount) && RawTotal(c) - 0.5 < r.totalPayableAmount <= RawTotal(c) + 0.5
  {
    Calculations(
      Round(RawSystemSize(c) * 100.0) as real / 100.0,
      Round(RawBasePrice(c)) as real,
      Round(RawGst(c)) as real,
      Round(RawTotal(c)) as real)
  }

  /** Zero GST yields a zero GST amount. */
  lemma ZeroGstGivesZeroAmount(c: SystemConfiguration)
    requires c.gstPercentage == 0.0
    ensures CalculateSystemMetrics(c).gstAmount == 0.0
  {
    assert RawGst(c) == 0.0;
    RoundUnique(RawGst(c), 0);
  }

  /** With non-negative inputs, size, base price and GST amount are non-negative. */
  lemma NonNegativeFigures(c: SystemConfiguration)
    requires c.wattPeak >= 0.0 && c.numberOfPanels >= 0.0
    requires c.basePricePerKw >= 0.0 && c.gstPercentage >= 0.0
    ensures CalculateSystemMetrics(c).systemSize >= 0.0
    ensures CalculateSystemMetrics(c).totalBasePrice >= 0.0
    ensures CalculateSystemMetrics(c).gstAmount >= 0.0
  {
    assert RawSystemSize(c) >= 0.0;
    assert RawBasePrice(c) >= 0.0;
    assert RawGst(c) >= 0.0;
    RoundMonotone(0.0, RawSystemSize(c) * 100.0);
    RoundMonotone(0.0, RawBasePrice(c));
    RoundMonotone(0.0, RawGst(c));
    RoundUnique(0.0, 0);
  }

  /** A larger subsidy never raises the total payable. */
  lemma TotalNonIncreasingInSubsidy(c: SystemConfiguration, subsidy: real)
    requires c.subsidy <= subsidy
    ensures CalculateSystemMetrics(c.(subsidy := subsidy)).totalPayableAmount
            <= CalculateSystemMetrics(c).totalPayableAmount
  {
    assert RawBasePrice(c.(subsidy := subsidy)) == RawBasePrice(c);
    assert RawGst(c.(subsidy := subsidy)) == RawGst(c);
    RoundMonotone(RawTotal(c.(subsidy := subsidy)), RawTotal(c));
  }

  /** Larger cleaning charges never lower the total payable. */
  lemma TotalNonDecreasingInCleaning(c: SystemConfiguration, cleaning: real)
    requires c.cleaningCharges <= cleaning
    ensures CalculateSystemMetrics(c).totalPayableAmount
            <= CalculateSystemMetrics(c.(cleaningCharges := cleaning)).totalPayableAmount
  {
    assert RawBasePrice(c.(cleaningCharges := cleaning)) == RawBasePrice(c);
    assert RawGst(c.(cleaningCharges := cleaning)) == RawGst(c);
    RoundMonotone(RawTotal(c), RawTotal(c.(cleaningCharges := cleaning)));
  }

  /**
   * Rounding the raw total is not the same as adding the rounded parts, but
   * with whole cleaning charges and subsidy the two differ by at most one.
   */
  lemma TotalWithinOneOfRoundedParts(c: SystemConfiguration)
    requires IsWhole(c.cleaningCharges) && IsWhole(c.subsidy)
    ensures var m := CalculateSystemMetrics(c);
      var parts := m.totalBasePrice + m.gstAmount + c.cleaningCharges - c.subsidy;
      parts - 1.0 <= m.totalPayableAmount <= parts + 1.0
  {
    var m := CalculateSystemMetrics(c);
    var b, g, t := Round(RawBasePrice(c)), Round(RawGst(c)), Round(RawTotal(c));
    var k, s := c.cleaningCharges.Floor, c.subsidy.Floor;
    assert t - (b + g + k - s) < 2;
    assert (b + g + k - s) - t < 2;
  }

  /**
   * The four figures are pinned down by the rounding windows alone: any four
   * integers inside them are what the calculator returns.
   */
  lemma MetricsFromRaw(c: SystemConfiguration, size: int, base: int, gst: int, total: int)
    requires RawSystemSize(c) * 100.0 - 0.5 < size as real <= RawSystemSize(c) * 100.0 + 0.5
    requires RawBasePrice(c) - 0.5 < base as real <= RawBasePrice(c) + 0.5
    requires RawGst(c) - 0.5 < gst as real <= RawGst(c) + 0.5
    requires RawTotal(c) - 0.5 < total as real <= RawTotal(c) + 0.5
    ensures CalculateSystemMetrics(c) == Calculations(size as real / 100.0, base as real, gst as real, total as real)
  {
    RoundUnique(RawSystemSize(c) * 100.0, size);
    RoundUnique(RawBasePrice(c), base);
    RoundUnique(RawGst(c), gst);
    RoundUnique(RawTotal(c), total);
  }

  /**
   * A valid configuration on which the total is one less than the sum of the
   * rounded parts: base 2.5 and GST 0.5 both round up, their raw sum 3 does not.
   */
  lemma TotalDiffersFromRoundedParts()
    ensures CalculateSystemMetrics(SystemConfiguration("X", 1000.0, 1.0, 2.5, 20.0, 0.0, 0.0))
            == Calculations(1.0, 3.0, 1.0, 3.0)
  {
    MetricsFromRaw(SystemConfiguration("X", 1000.0, 1.0, 2.5, 20.0, 0.0, 0.0), 100, 3, 1, 3);
  }

  /** The worked example with the default settings' price and GST. */
  lemma DefaultSettingsExample()
    ensures CalculateSystemMetrics(SystemConfiguration("Any", 540.0, 20.0, 50000.0, 13.8, 5000.0, 10000.0))
            == Calculations(10.8, 540000.0, 74520.0, 609520.0)
  {
    MetricsFromRaw(SystemConfiguration("Any", 540.0, 20.0, 50000.0, 13.8, 5000.0, 10000.0), 1080, 540000, 74520, 609520);
  }
}
