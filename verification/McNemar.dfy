/**
 The exact two-sided test on flip counts. Under the null each of n discordant pairs is the toss of
 a coin, and the p-value is the share of all 2^n outcomes at least as lopsided as the one seen.
 */
module McNemar {

  function Comb(n: nat, k: nat): nat {
    if k == 0 then 1
    else if n == 0 then 0
    else Comb(n - 1, k - 1) + Comb(n - 1, k)
  }

  function Pow2(n: nat): (r: nat)
    ensures r >= 1
  {
    if n == 0 then 1 else 2 * Pow2(n - 1)
  }

  // The sum of Comb(n, i) over lo <= i < hi.
  function SumComb(n: nat, lo: nat, hi: nat): nat
    decreases hi
  {
    if hi <= lo then 0 else SumComb(n, lo, hi - 1) + Comb(n, hi - 1)
  }

  function Larger(a: nat, b: nat): nat {
    if a < b then b else a
  }

  // Twice the upper tail, before it is cut off at 1.
  function TwiceTail(lost: nat, gained: nat): real {
    var n := lost + gained;
    2.0 * (SumComb(n, Larger(lost, gained), n + 1) as real / Pow2(n) as real)
  }

  function PValue(lost: nat, gained: nat): real {
    if lost + gained == 0 then 1.0
    else if TwiceTail(lost, gained) < 1.0 then TwiceTail(lost, gained)
    else 1.0
  }

  // ---- Outcomes, counted one by one --------------------------------------------------------

  // The outcomes of n tosses are the numbers below 2^n: each binary digit is a toss.
  function Heads(outcome: nat): nat {
    if outcome == 0 then 0 else Heads(outcome / 2) + outcome % 2
  }

  // How many outcomes below `m` have a number of heads satisfying `p`.
  function CountWhere(m: nat, p: nat -> bool): nat {
    if m == 0 then 0 else CountWhere(m - 1, p) + if p(Heads(m - 1)) then 1 else 0
  }

  // The sum of Comb(n, i) over those i < hi that satisfy `p`.
  function SumWhere(n: nat, p: nat -> bool, hi: nat): nat {
    if hi == 0 then 0 else SumWhere(n, p, hi - 1) + if p(hi - 1) then Comb(n, hi - 1) else 0
  }

  // Splitting outcomes by the last toss.
  lemma {:induction false} OutcomesSplit(m: nat, p: nat -> bool)
    ensures CountWhere(2 * m, p) == CountWhere(m, p) + CountWhere(m, (h: nat) => p(h + 1))
  {
    if m > 0 {
      OutcomesSplit(m - 1, p);
      assert Heads(2 * m - 1) == Heads(m - 1) + 1;
      assert Heads(2 * m - 2) == Heads(m - 1);
      assert CountWhere(2 * m, p) == CountWhere(2 * m - 1, p) + if p(Heads(2 * m - 1)) then 1 else 0;
      assert CountWhere(2 * m - 1, p) == CountWhere(2 * m - 2, p) + if p(Heads(2 * m - 2)) then 1 else 0;
    }
  }

  // Splitting the sum by Pascal's rule.
  lemma {:induction false} SumSplits(n: nat, p: nat -> bool, hi: nat)
    requires n > 0
    ensures SumWhere(n, p, hi + 1) == SumWhere(n - 1, (h: nat) => p(h + 1), hi) + SumWhere(n - 1, p, hi + 1)
  {
    if hi > 0 {
      SumSplits(n, p, hi - 1);
    }
  }

  lemma {:induction false} CombBeyond(n: nat, k: nat)
    requires k > n
    ensures Comb(n, k) == 0
  {
    if n > 0 {
      CombBeyond(n - 1, k - 1);
      CombBeyond(n - 1, k);
    }
  }

  /** Outcomes counted by heads: Comb(n, i) of them have i. */
  lemma {:induction false} OutcomesCounted(n: nat, p: nat -> bool)
    ensures CountWhere(Pow2(n), p) == SumWhere(n, p, n + 1)
  {
    if n == 0 {
      assert CountWhere(1, p) == CountWhere(0, p) + if p(Heads(0)) then 1 else 0;
      assert SumWhere(0, p, 1) == SumWhere(0, p, 0) + if p(0) then 1 else 0;
    } else {
      OutcomesSplit(Pow2(n - 1), p);
      OutcomesCounted(n - 1, (h: nat) => p(h + 1));
      OutcomesCounted(n - 1, p);
      SumSplits(n, p, n);
      CombBeyond(n - 1, n);
    }
  }

  // ---- The tail ----------------------------------------------------------------------------

  lemma {:induction false} CombMirrors(n: nat, k: nat)
    requires k <= n
    ensures Comb(n, k) == Comb(n, n - k)
  {
    if 0 < k < n {
      CombMirrors(n - 1, k - 1);
      CombMirrors(n - 1, k);
    } else {
      CombAll(n);
    }
  }

  lemma {:induction false} CombAll(n: nat)
    ensures Comb(n, n) == 1
  {
    if n > 0 {
      CombAll(n - 1);
      CombBeyond(n - 1, n);
    }
  }

  // The lower tail up to m is the upper tail from n - m.
  lemma {:induction false} TailsMirror(n: nat, m: nat)
    requires m <= n
    ensures SumComb(n, 0, m + 1) == SumComb(n, n - m, n + 1)
  {
    CombMirrors(n, m);
    if m > 0 {
      TailsMirror(n, m - 1);
      SumFromBelow(n, n - m, n + 1);
    } else {
      assert SumComb(n, n, n + 1) == SumComb(n, n, n) + Comb(n, n);
      assert SumComb(n, 0, 1) == SumComb(n, 0, 0) + Comb(n, 0);
    }
  }

  lemma {:induction false} SumFromBelow(n: nat, lo: nat, hi: nat)
    requires lo < hi
    ensures SumComb(n, lo, hi) == Comb(n, lo) + SumComb(n, lo + 1, hi)
    decreases hi
  {
    if lo + 1 < hi {
      SumFromBelow(n, lo, hi - 1);
    } else {
      assert SumComb(n, lo, lo) == 0;
    }
  }

  // At least as lopsided as a difference of `d` heads and tails among `n`.
  predicate Lopsided(n: nat, d: nat, heads: nat) {
    2 * heads - n >= d || n - 2 * heads >= d
  }

  function LopsidedAs(n: nat, d: nat): nat -> bool {
    (heads: nat) => Lopsided(n, d, heads)
  }

  // Both tails, summed upwards: below the gap, through it, and above it.
  lemma {:induction false} BothTails(n: nat, low: nat, hi: nat)
    requires 2 * low < n && hi <= n + 1
    ensures SumWhere(n, LopsidedAs(n, n - 2 * low), hi)
            == SumComb(n, 0, if hi < low + 1 then hi else low + 1) + SumComb(n, n - low, hi)
  {
    if hi > 0 {
      BothTails(n, low, hi - 1);
    }
  }

  lemma {:induction false} AllOutcomes(n: nat, hi: nat)
    ensures SumWhere(n, LopsidedAs(n, 0), hi) == SumComb(n, 0, hi)
  {
    if hi > 0 {
      AllOutcomes(n, hi - 1);
    }
  }

  lemma {:induction false} CountAll(m: nat, n: nat)
    ensures CountWhere(m, LopsidedAs(n, 0)) == m
  {
    if m > 0 {
      CountAll(m - 1, n);
    }
  }

  lemma {:induction false} CountAtMost(m: nat, p: nat -> bool)
    ensures CountWhere(m, p) <= m
  {
    if m > 0 {
      CountAtMost(m - 1, p);
    }
  }

  // How many of the 2^n outcomes are at least as lopsided as the flips seen.
  function LopsidedOutcomes(lost: nat, gained: nat): nat {
    var d := if lost < gained then gained - lost else lost - gained;
    CountWhere(Pow2(lost + gained), LopsidedAs(lost + gained, d))
  }

  // Unequal counts: the two tails are apart and mirror each other.
  lemma UnequalCounts(lost: nat, gained: nat)
    requires lost != gained
    ensures LopsidedOutcomes(lost, gained) == 2 * SumComb(lost + gained, Larger(lost, gained), lost + gained + 1)
  {
    var n := lost + gained;
    var low := n - Larger(lost, gained);
    BothTails(n, low, n + 1);
    TailsMirror(n, low);
    OutcomesCounted(n, LopsidedAs(n, n - 2 * low));
  }

  // Equal counts: every outcome is at least as lopsided, and the tails overlap in the middle.
  lemma EqualCounts(m: nat)
    ensures LopsidedOutcomes(m, m) == Pow2(2 * m)
    ensures 2 * SumComb(2 * m, m, 2 * m + 1) == Pow2(2 * m) + Comb(2 * m, m)
  {
    var n := 2 * m;
    CountAll(Pow2(n), n);
    OutcomesCounted(n, LopsidedAs(n, 0));
    AllOutcomes(n, n + 1);
    TailsMirror(n, m);
    TailsMeet(n, m, n + 1);
  }

  lemma {:induction false} TailsMeet(n: nat, m: nat, hi: nat)
    requires m < hi
    ensures SumComb(n, 0, m + 1) + SumComb(n, m, hi) == SumComb(n, 0, hi) + Comb(n, m)
    decreases hi
  {
    if m + 1 < hi {
      TailsMeet(n, m, hi - 1);
    } else {
      assert SumComb(n, m, m + 1) == SumComb(n, m, m) + Comb(n, m);
    }
  }

  lemma {:induction false} CombPositive(n: nat, k: nat)
    requires k <= n
    ensures Comb(n, k) >= 1
  {
    if 0 < k {
      CombPositive(n - 1, k - 1);
    }
  }

  lemma ShareOfOne(x: real, y: real)
    requires y > 0.0
    ensures x < y <==> x / y < 1.0
    ensures x == y <==> x / y == 1.0
  {
    var r := x / y;
    assert x == r * y;
    if r < 1.0 {
      assert (1.0 - r) * y > 0.0;
    } else if r > 1.0 {
      assert (r - 1.0) * y > 0.0;
    }
  }

  lemma TwiceShare(x: real, y: real)
    requires y > 0.0
    ensures 2.0 * (x / y) == (2.0 * x) / y
  {
  }

  lemma TwiceRatio(s: nat, b: nat)
    requires b >= 1
    ensures var t := 2.0 * (s as real / b as real);
            && t == (2 * s) as real / b as real
            && (t < 1.0 <==> 2 * s < b) && (t > 1.0 <==> 2 * s > b)
    ensures b as real / b as real == 1.0
  {
    TwiceShare(s as real, b as real);
    assert 2.0 * s as real == (2 * s) as real;
    ShareOfOne((2 * s) as real, b as real);
    ShareOfOne(b as real, b as real);
  }

  /**
   The p-value is the share of outcomes at least as lopsided as the one seen, for all counts; and
   the cut at 1 takes something off exactly when the counts are equal and not zero.
   */
  lemma PValueIsTheShare(lost: nat, gained: nat)
    ensures PValue(lost, gained) == LopsidedOutcomes(lost, gained) as real / Pow2(lost + gained) as real
    ensures lost + gained > 0 ==> (TwiceTail(lost, gained) > 1.0 <==> lost == gained)
  {
    hide Pow2, SumComb, LopsidedOutcomes;
    var n := lost + gained;
    TwiceRatio(SumComb(n, Larger(lost, gained), n + 1), Pow2(n));
    if lost == gained {
      EqualCounts(lost);
      CombPositive(n, lost);
    } else {
      UnequalCounts(lost, gained);
      AtMostAll(lost, gained);
    }
  }

  lemma AtMostAll(lost: nat, gained: nat)
    ensures LopsidedOutcomes(lost, gained) <= Pow2(lost + gained)
  {
    CountAtMost(Pow2(lost + gained), LopsidedAs(lost + gained, if lost < gained then gained - lost else lost - gained));
  }

  /** It does not matter which way the flips went, and the value is a probability above zero. */
  lemma PValueIsSymmetric(lost: nat, gained: nat)
    ensures PValue(lost, gained) == PValue(gained, lost)
    ensures 0.0 < PValue(lost, gained) <= 1.0
  {
    var n := lost + gained;
    CombPositive(n, n);
    assert SumComb(n, Larger(lost, gained), n + 1) == SumComb(n, Larger(lost, gained), n) + Comb(n, n);
  }
}
