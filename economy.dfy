/**
 * The dynamic prices of App.tsx: each is `Math.floor(base * Math.pow(rate, level))`,
 * computed with exact reals.
 */
module Economy {

  /** `Math.pow(r, n)` for a natural exponent. */
  function Pow(r: real, n: nat): (p: real)
    requires r >= 1.0
    ensures p >= 1.0
  {
    if n == 0 then 1.0 else r * Pow(r, n - 1)
  }

  /** `Math.pow(r, e)` for an integer exponent (a negative level gives a fraction). */
  function Power(r: real, e: int): (p: real)
    requires r >= 1.0
    ensures p > 0.0
    ensures e >= 0 ==> p == Pow(r, e)
  {
    if e >= 0 then Pow(r, e) else 1.0 / Pow(r, -e)
  }

  /** `Math.floor(base * Math.pow(rate, level))`. */
  function Price(base: nat, rate: real, level: int): (c: int)
    requires rate >= 1.0
    ensures c >= 0
    ensures level >= 0 ==> c >= base
  {
    (base as real * Power(rate, level)).Floor
  }

  /** The price of the next custom item (App.tsx:98). */
  function CustomItemCost(customItemCount: int): int {
    Price(1000, 1.5, customItemCount)
  }

  /** The price of the next decoration (App.tsx:102). */
  function DecorationCost(unlockedCount: nat): int {
    Price(2000, 1.8, unlockedCount)
  }

  /** The price of the next combo-limit upgrade (App.tsx:106-107). */
  function ComboUpgradeCost(maxCombo: int): int {
    Price(5000, 1.5, maxCombo - 10)
  }

  /** The price of the next pet (App.tsx:110). */
  function PetCost(petCount: nat): int {
    Price(5000, 1.4, petCount)
  }

  /** One more level raises the price by at least one whole point when base * (rate - 1) >= 1. */
  lemma PriceStep(base: nat, rate: real, n: nat)
    requires rate >= 1.0 && base as real * (rate - 1.0) >= 1.0
    ensures Price(base, rate, n) < Price(base, rate, n + 1)
  {
    var x := base as real * Pow(rate, n);
    var y := base as real * Pow(rate, n + 1);
    assert y == x * rate;
    assert y - x == x * (rate - 1.0);
    assert x >= base as real;
    assert x * (rate - 1.0) >= base as real * (rate - 1.0);
    assert y >= x + 1.0;
  }

  /** A price is strictly increasing in its level. */
  lemma {:induction false} PriceIncreasing(base: nat, rate: real, m: nat, n: nat)
    requires rate >= 1.0 && base as real * (rate - 1.0) >= 1.0
    requires m < n
    ensures Price(base, rate, m) < Price(base, rate, n)
    decreases n - m
  {
    PriceStep(base, rate, n - 1);
    if m < n - 1 {
      PriceIncreasing(base, rate, m, n - 1);
    }
  }

  /** Each of the four prices grows strictly with the counter that drives it. */
  lemma PricesStrictlyIncreasing(m: nat, n: nat)
    requires m < n
    ensures CustomItemCost(m) < CustomItemCost(n)
    ensures DecorationCost(m) < DecorationCost(n)
    ensures ComboUpgradeCost(10 + m) < ComboUpgradeCost(10 + n)
    ensures PetCost(m) < PetCost(n)
  {
    PriceIncreasing(1000, 1.5, m, n);
    PriceIncreasing(2000, 1.8, m, n);
    PriceIncreasing(5000, 1.5, m, n);
    PriceIncreasing(5000, 1.4, m, n);
  }

  /**
   * The opening prices, and a few prices one or more levels on, in exact arithmetic. All but
   * the pet price at two pets agree with IEEE double arithmetic; there `Math.pow(1.4, 2)` falls
   * just below 1.96, so the program floors to 9799 where the exact value is 9800.
   */
  lemma PriceExamples()
    ensures CustomItemCost(0) == 1000 && CustomItemCost(3) == 3375
    ensures DecorationCost(0) == 2000 && DecorationCost(1) == 3600
    ensures ComboUpgradeCost(10) == 5000 && ComboUpgradeCost(11) == 7500
    ensures PetCost(0) == 5000 && PetCost(1) == 7000 && PetCost(2) == 9800
  {
    assert Pow(1.5, 3) == 3.375;
    assert Pow(1.4, 2) == 1.96;
  }
}
