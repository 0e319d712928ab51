/** Splitting a wallet payout over the reimbursements of a contract, in whole cents. */
module WalletShares {

  /** The quotient rounded to the nearest integer, halves to the even one. */
  function RoundHalfEven(n: nat, d: nat): (q: nat)
    requires d > 0
    ensures -(d as int) <= 2 * (d * q - n) <= d
    ensures 2 * (d * q - n) == d || 2 * (d * q - n) == -(d as int) ==> q % 2 == 0
  {
    var q, r := n / d, n % d;
    assert n == d * q + r;
    assert d * (q + 1) == d * q + d;
    if 2 * r < d || (2 * r == d && q % 2 == 0) then q else q + 1
  }

  function Share(payout: nat, total: nat, sum: nat): nat {
    if sum > 0 then RoundHalfEven(payout * total, sum) else 0
  }

  function Delta(payout: nat, total: nat, sum: nat): int {
    Share(payout, total, sum) - total
  }

  function Sum(amounts: seq<int>): int {
    if amounts == [] then 0 else amounts[0] + Sum(amounts[1..])
  }

  function Deltas(payout: nat, totals: seq<nat>, sum: nat): seq<int> {
    if totals == [] then [] else [Delta(payout, totals[0], sum)] + Deltas(payout, totals[1..], sum)
  }

  lemma {:induction false} DeltasSnoc(payout: nat, totals: seq<nat>, sum: nat, last: nat)
    ensures Deltas(payout, totals + [last], sum) == Deltas(payout, totals, sum) + [Delta(payout, last, sum)]
    decreases |totals|
  {
    if totals == [] {
      assert totals + [last] == [last];
    } else {
      assert (totals + [last])[1..] == totals[1..] + [last];
      DeltasSnoc(payout, totals[1..], sum, last);
    }
  }

  lemma {:induction false} SumIsNonNegative(totals: seq<nat>)
    ensures Sum(totals) >= 0
    decreases |totals|
  {
    if totals != [] {
      SumIsNonNegative(totals[1..]);
    }
  }

  lemma {:induction false} SumSnoc(amounts: seq<int>, last: int)
    ensures Sum(amounts + [last]) == Sum(amounts) + last
    decreases |amounts|
  {
    if amounts == [] {
      assert amounts + [last] == [last];
    } else {
      assert (amounts + [last])[1..] == amounts[1..] + [last];
      SumSnoc(amounts[1..], last);
    }
  }

  /** The loop that pushes one delta after the other. */
  method Split(payout: nat, totals: seq<nat>) returns (deltas: seq<int>)
    ensures Sum(totals) >= 0 && deltas == Deltas(payout, totals, Sum(totals))
  {
    SumIsNonNegative(totals);
    var sum: int := 0;
    for i := 0 to |totals|
      invariant sum == Sum(totals[..i])
    {
      SumSnoc(totals[..i], totals[i]);
      assert totals[..i + 1] == totals[..i] + [totals[i]];
      sum := sum + totals[i];
    }
    assert totals[..|totals|] == totals;
    deltas := [];
    for i := 0 to |totals|
      invariant deltas == Deltas(payout, totals[..i], sum)
    {
      var share := if sum > 0 then RoundHalfEven(payout * totals[i], sum) else 0;
      DeltasSnoc(payout, totals[..i], sum, totals[i]);
      assert totals[..i + 1] == totals[..i] + [totals[i]];
      deltas := deltas + [share - totals[i]];
    }
  }

  // ── Rounding ──────────────────────────────────────────────────────────────

  lemma Distribute(a: int, b: int, c: int)
    ensures a * (b + c) == a * b + a * c && a * (b - c) == a * b - a * c
  {
  }

  lemma Scale(a: nat, b: int, c: int)
    requires b <= c
    ensures a * b <= a * c
  {
  }

  /** A multiple of the divisor is not rounded at all. */
  lemma RoundExact(q: nat, d: nat)
    requires d > 0
    ensures RoundHalfEven(d * q, d) == q
  {
  }

  lemma QuotientsOrdered(n: nat, m: nat, d: nat, qn: nat, qm: nat, rn: nat, rm: nat)
    requires n == d * qn + rn && m == d * qm + rm && rn < d && rm < d && n <= m
    ensures qn <= qm && (qn == qm ==> rn <= rm)
  {
    if qn > qm {
      Distribute(d, qm, 1);
      Scale(d, qm + 1, qn);
    }
  }

  /** A larger amount is never rounded to a smaller one. */
  lemma RoundMonotone(n: nat, m: nat, d: nat)
    requires d > 0 && n <= m
    ensures RoundHalfEven(n, d) <= RoundHalfEven(m, d)
  {
    QuotientsOrdered(n, m, d, n / d, m / d, n % d, m % d);
  }

  // ── What the split guarantees ─────────────────────────────────────────────

  lemma DeltaAt(payout: nat, totals: seq<nat>, sum: nat, i: nat)
    requires i < |totals|
    ensures |Deltas(payout, totals, sum)| == |totals| && Deltas(payout, totals, sum)[i] == Delta(payout, totals[i], sum)
    decreases |totals|
  {
    if i > 0 {
      DeltaAt(payout, totals[1..], sum, i - 1);
    } else if |totals| > 1 {
      DeltaAt(payout, totals[1..], sum, 0);
    }
  }

  /** One more row adds at most half of `sum` to the scaled deviation. */
  lemma OneMoreRow(payout: nat, sum: nat, t: nat, share: nat, rest: int, deltas: int, n: nat)
    requires -(sum as int) <= 2 * (sum * share - payout * t) <= sum
    requires -(sum * n) <= 2 * (sum * deltas - (payout * rest - sum * rest)) <= sum * n
    ensures -(sum * (n + 1))
            <= 2 * (sum * (share - t + deltas) - (payout * (t + rest) - sum * (t + rest)))
            <= sum * (n + 1)
  {
  }

  lemma {:induction false} ScaledSum(payout: nat, totals: seq<nat>, sum: nat)
    requires sum > 0
    ensures -(sum * |totals|)
            <= 2 * (sum * Sum(Deltas(payout, totals, sum)) - (payout * Sum(totals) - sum * Sum(totals)))
            <= sum * |totals|
    decreases |totals|
  {
    hide RoundHalfEven;
    if totals != [] {
      var t, rest := totals[0], totals[1..];
      ScaledSum(payout, rest, sum);
      assert Deltas(payout, totals, sum)[1..] == Deltas(payout, rest, sum);
      OneMoreRow(payout, sum, t, RoundHalfEven(payout * t, sum), Sum(rest), Sum(Deltas(payout, rest, sum)), |rest|);
    }
  }

  lemma Unscale(sum: nat, off: int, n: nat)
    requires sum > 0 && -(sum * n) <= 2 * (sum * off) <= sum * n
    ensures -(n as int) <= 2 * off <= n
  {
  }

  /** The deltas add up to the payout minus the total, within half a cent per row. */
  lemma DeltasAddUp(payout: nat, totals: seq<nat>)
    requires Sum(totals) > 0
    ensures -(|totals| / 2) <= Sum(Deltas(payout, totals, Sum(totals))) - (payout - Sum(totals)) <= |totals| / 2
  {
    hide Deltas, Sum;
    var sum := Sum(totals);
    var deltas := Sum(Deltas(payout, totals, sum));
    ScaledSum(payout, totals, sum);
    Distribute(sum, deltas, payout - sum);
    Distribute(sum, payout, sum);
    Unscale(sum, deltas - (payout - sum), |totals|);
  }

  lemma SmallestSum(totals: seq<nat>, i: nat)
    requires i < |totals|
    ensures totals[i] <= Sum(totals)
    decreases |totals|
  {
    SumIsNonNegative(totals[1..]);
    if i > 0 {
      SmallestSum(totals[1..], i - 1);
    }
  }

  /** Every delta has the sign of payout minus total, or is zero; a payout that equals the
      total gives zeros only, and so does a contract whose reimbursements are all zero. */
  lemma DeltaSign(payout: nat, totals: seq<nat>, i: nat)
    requires i < |totals|
    ensures Sum(totals) >= 0 && |Deltas(payout, totals, Sum(totals))| == |totals|
    ensures var d := Deltas(payout, totals, Sum(totals))[i];
            && (payout >= Sum(totals) ==> d >= 0)
            && (payout <= Sum(totals) ==> d <= 0)
            && (Sum(totals) == 0 ==> d == 0)
  {
    hide RoundHalfEven, Sum, Deltas;
    SumIsNonNegative(totals);
    var sum, t := Sum(totals), totals[i];
    DeltaAt(payout, totals, sum, i);
    SmallestSum(totals, i);
    if sum > 0 {
      RoundExact(t, sum);
      if payout >= sum {
        Scale(t, sum, payout);
        RoundMonotone(sum * t, payout * t, sum);
      }
      if payout <= sum {
        Scale(t, payout, sum);
        RoundMonotone(payout * t, sum * t, sum);
      }
    }
  }

  /** A larger reimbursement never gets a smaller share. */
  lemma SharesAreMonotone(payout: nat, small: nat, large: nat, sum: nat)
    requires small <= large
    ensures Share(payout, small, sum) <= Share(payout, large, sum)
  {
    hide RoundHalfEven;
    if sum > 0 {
      Scale(payout, small, large);
      RoundMonotone(payout * small, payout * large, sum);
    }
  }

  lemma HalfIsNothing(k: nat)
    requires k > 0
    ensures Share(k, 1, 2 * k) == 0 == Share(k, 0, 2 * k)
  {
  }

  lemma {:induction false} Ones(k: nat, n: nat)
    requires k > 0
    ensures var ones := seq(n, _ => 1);
            Sum(ones) == n && Sum(Deltas(k, ones, 2 * k)) == -(n as int)
    decreases n
  {
    hide Share;
    var ones := seq(n, _ => 1);
    if n > 0 {
      Ones(k, n - 1);
      assert ones[1..] == seq(n - 1, _ => 1);
      HalfIsNothing(k);
      assert Deltas(k, ones, 2 * k)[1..] == Deltas(k, ones[1..], 2 * k);
    }
  }

  /** No bound is better, whatever the number of rows: when 2k rows of one cent share k cents,
      every half cent is rounded down to nothing, and a further row of zero changes nothing. */
  lemma BoundIsReached(n: nat) returns (payout: nat, totals: seq<nat>)
    requires n > 0
    ensures |totals| == n && Sum(totals) > 0
    ensures Sum(Deltas(payout, totals, Sum(totals))) - (payout - Sum(totals)) == -(n / 2)
  {
    if n == 1 {
      payout, totals := 1, [1];
      DeltasAddUp(payout, totals);
    } else {
      hide Deltas, Sum, Share;
      payout, totals := n / 2, seq(n / 2 * 2, _ => 1);
      Ones(payout, 2 * payout);
      if n % 2 == 1 {
        SumSnoc(totals, 0);
        DeltasSnoc(payout, totals, 2 * payout, 0);
        SumSnoc(Deltas(payout, totals, 2 * payout), Delta(payout, 0, 2 * payout));
        HalfIsNothing(payout);
        totals := totals + [0];
      }
    }
  }
}
