/** Whole-cent amounts and the rounding that the database applies when it stores them. */
module Money {

  /** Rounding to a whole number, halves away from zero: what a `numeric` column does. */
  function RoundHalfAway(x: real): int {
    if x >= 0.0 then (x + 0.5).Floor else -((0.5 - x).Floor)
  }

  /** A price in ISK, as the nearest whole number of cents. */
  function ToCents(isk: real): int {
    RoundHalfAway(isk * 100.0)
  }

  /** A tip rate as stored: `numeric(5,4)` keeps four decimals. */
  function StoredTipPct(pct: real): real {
    RoundHalfAway(pct * 10000.0) as real / 10000.0
  }

  function TipOf(subtotal: int, pct: real): int {
    RoundHalfAway(subtotal as real * pct)
  }

  function TotalOf(subtotal: int, pct: real): int {
    RoundHalfAway(subtotal as real * (1.0 + pct))
  }

  /** The whole number nearest to an amount; half a unit goes up. */
  predicate IsNearest(whole: int, exact: real) {
    -0.5 < whole as real - exact <= 0.5
  }

  lemma RoundsToNearest(x: real)
    ensures x >= 0.0 ==> IsNearest(RoundHalfAway(x), x)
    ensures RoundHalfAway(-x) == -RoundHalfAway(x)
  {
  }

  /** A rate with four decimals, as near to the given one as those get. */
  predicate IsNearestRate(stored: real, pct: real) {
    && (stored * 10000.0).Floor as real == stored * 10000.0
    && -0.00005 < stored - pct <= 0.00005
  }

  lemma StoredIsNearest(pct: real)
    requires pct >= 0.0
    ensures IsNearestRate(StoredTipPct(pct), pct)
  {
    RoundsToNearest(pct * 10000.0);
  }

  /** The three amounts of a reimbursement at the given rate, to the cent. */
  predicate AmountsAtRate(subtotal: int, tip: int, total: int, pct: real) {
    IsNearest(tip, subtotal as real * pct) && total == subtotal + tip
  }

  lemma AmountsAreAtRate(subtotal: nat, pct: real)
    requires pct >= 0.0
    ensures AmountsAtRate(subtotal, TipOf(subtotal, pct), TotalOf(subtotal, pct), pct)
  {
    TotalIsSubtotalPlusTip(subtotal, pct);
    TipIsNearest(subtotal as real, pct);
  }

  lemma TipIsNearest(subtotal: real, pct: real)
    requires subtotal >= 0.0 && pct >= 0.0
    ensures IsNearest(RoundHalfAway(subtotal * pct), subtotal * pct)
  {
    assert subtotal * pct >= 0.0;
    RoundsToNearest(subtotal * pct);
  }

  /** Tip and total are rounded independently, yet they never drift apart by a cent:
      a whole-cent subtotal shifts the rounding of the tip without changing it. */
  lemma TotalIsSubtotalPlusTip(subtotal: nat, pct: real)
    requires pct >= 0.0
    ensures TotalOf(subtotal, pct) == subtotal + TipOf(subtotal, pct)
    ensures TipOf(subtotal, pct) >= 0
  {
  }
}
