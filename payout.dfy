/**
  The settlement arithmetic shared by the goal/max and the compensative buyouts:
  the per-payer share of the surplus collected beyond the goal, the discount a
  late payer receives at pay time, and the facts that keep the campaign's escrow
  from going negative.

  The store invariant speaks of products and quotients through `Mul` and `Div`,
  defined by repeated addition and subtraction. Only the lemmas below relate
  them to `*` and `/`, so that proofs about the store never face nonlinear
  arithmetic.
 */
module Payout {

  function Min(a: nat, b: nat): (m: nat)
    ensures m <= a && m <= b && (m == a || m == b)
  {
    if a <= b then a else b
  }

  /** `a` times `b`. */
  function Mul(a: nat, b: nat): nat {
    if a == 0 then 0 else b + Mul(a - 1, b)
  }

  /** `n` divided by `d`, rounded down. */
  function Div(n: nat, d: nat): nat
    requires d > 0
    decreases n
  {
    if n < d then 0 else 1 + Div(n - d, d)
  }

  lemma {:induction false} MulIsProduct(a: nat, b: nat)
    ensures Mul(a, b) == a * b
  {
    if a > 0 {
      MulIsProduct(a - 1, b);
      assert (a - 1) * b + b == a * b;
    }
  }

  lemma {:induction false} DivIsQuotient(n: nat, d: nat)
    requires d > 0
    ensures Div(n, d) == n / d
    decreases n
  {
    if n >= d {
      DivIsQuotient(n - d, d);
      QuotientStep(n, d);
    }
  }

  /** Taking `d` away from `n` takes one from the quotient. */
  lemma QuotientStep(n: nat, d: nat)
    requires 0 < d <= n
    ensures n / d == (n - d) / d + 1
  {
    var q, r := (n - d) / d, (n - d) % d;
    assert n == (q + 1) * d + r;
    DivAbove(q + 1, n, d);
    DivStrictlyBelow(n, d, q + 2);
  }

  /** The cumulative amount each of `curr` payers may have drawn back from a
      campaign with goal `goal` and unit price `price`: the surplus
      `(curr - goal) * price` split evenly over all payers, rounded down. */
  function Entitlement(curr: nat, goal: nat, price: nat): (e: nat)
    ensures curr <= goal ==> e == 0
  {
    if curr <= goal then 0 else Div(Mul(curr - goal, price), curr)
  }

  /** The share in ordinary arithmetic. */
  lemma EntitlementValue(curr: nat, goal: nat, price: nat)
    requires curr > goal
    ensures Entitlement(curr, goal, price) == (curr - goal) * price / curr
  {
    MulIsProduct(curr - goal, price);
    DivIsQuotient((curr - goal) * price, curr);
  }

  /** The share is the floor of the even split: the `curr` shares together
      never exceed the surplus, and one more unit each would. */
  lemma EntitlementIsFloor(curr: nat, goal: nat, price: nat)
    requires curr > goal
    ensures var e := Entitlement(curr, goal, price);
      e * curr <= (curr - goal) * price < (e + 1) * curr
  {
    EntitlementValue(curr, goal, price);
    var n := (curr - goal) * price;
    assert n == (n / curr) * curr + n % curr;
  }

  /** A payer's share never exceeds the price, and stays below it once
      there is a goal and a price. */
  lemma EntitlementBelowPrice(curr: nat, goal: nat, price: nat)
    ensures Entitlement(curr, goal, price) <= price
    ensures goal > 0 && price > 0 ==> Entitlement(curr, goal, price) < price
  {
    if curr > goal {
      EntitlementValue(curr, goal, price);
      ShareBelowPrice(curr, goal, price);
    }
  }

  /** The amount knocked off the price of the payer who raises the count from
      `curr` to `curr + 1` (the "withdrawable" of `pay`): nothing while the
      count is below the goal, otherwise `(curr + 1 - goal) * price / (curr + 1)`.
      It is the share every payer is due once the new payer is counted, and
      it never reaches the price. */
  function Discount(curr: nat, goal: nat, price: nat): (d: nat)
    ensures d == Entitlement(curr + 1, goal, price)
    ensures d <= price
    ensures goal > 0 && price > 0 ==> d < price
  {
    EntitlementBelowPrice(curr + 1, goal, price);
    if curr < goal then 0 else Div(Mul(curr + 1 - goal, price), curr + 1)
  }

  lemma ShareBelowPrice(n: nat, goal: nat, price: nat)
    requires goal < n
    ensures (n - goal) * price / n <= price
    ensures goal > 0 && price > 0 ==> (n - goal) * price / n < price
  {
    MulMonotone(n - goal, n, price);
    DivBelow((n - goal) * price, n, price);
    if goal > 0 && price > 0 {
      assert (n - goal) * price < n * price;
      DivStrictlyBelow((n - goal) * price, n, price);
    }
  }

  /** If `n <= d * b` then `n / d <= b`. */
  lemma DivBelow(n: nat, d: nat, b: nat)
    requires d > 0 && n <= d * b
    ensures n / d <= b
  {
  }

  /** If `n < d * b` then `n / d < b`. */
  lemma DivStrictlyBelow(n: nat, d: nat, b: nat)
    requires d > 0 && n < d * b
    ensures n / d < b
  {
  }

  /** If `q * d <= n` then `q <= n / d`. */
  lemma DivAbove(q: nat, n: nat, d: nat)
    requires d > 0 && q * d <= n
    ensures q <= n / d
  {
    assert n == (n / d) * d + n % d;
    assert q * d < (n / d + 1) * d;
    MulCancelLess(q, n / d + 1, d);
  }

  lemma MulCancelLess(a: nat, b: nat, d: nat)
    requires d > 0 && a * d < b * d
    ensures a < b
  {
  }

  lemma MulMonotone(a: nat, b: nat, c: nat)
    requires a <= b
    ensures a * c <= b * c && c * a <= c * b
  {
    assert b * c == a * c + (b - a) * c;
  }

  /** A payer's share never shrinks as more payers join: the property that
      makes the pay-time discount, stored as the payer's withdrawal, at most
      what the payer may later claim. */
  lemma EntitlementMonotone(c1: nat, c2: nat, goal: nat, price: nat)
    requires c1 <= c2
    ensures Entitlement(c1, goal, price) <= Entitlement(c2, goal, price)
  {
    if c1 > goal {
      var q := Entitlement(c1, goal, price);
      EntitlementIsFloor(c1, goal, price);
      QuotientGrows(c1 - goal, c1, c2 - goal, c2, price, q);
      DivAbove(q, (c2 - goal) * price, c2);
      EntitlementValue(c2, goal, price);
    }
  }

  /** If `q` parts of `c` fit in `n` parts of `p`, with `n <= c`, then adding
      the same number of units to both sides keeps them fitting. */
  lemma QuotientGrows(n: nat, c: nat, n': nat, c': nat, p: nat, q: nat)
    requires 0 < c && n <= c && c <= c' && c' - c == n' - n
    requires q * c <= n * p
    ensures q * c' <= n' * p
  {
    MulMonotone(n, c, p);
    MulCancelLe(q, p, c);
    MulMonotone(q, p, c' - c);
    assert q * c' == q * c + q * (c' - c);
    assert n' * p == n * p + (c' - c) * p;
  }

  /** If `a * d <= b * d` and `d > 0` then `a <= b`. */
  lemma MulCancelLe(a: nat, b: nat, d: nat)
    requires d > 0 && a * d <= b * d
    ensures a <= b
  {
    if a > b {
      MulMonotone(b + 1, a, d);
    }
  }

  /** The owner's share of a campaign with `curr` payers plus every payer's
      full entitlement never exceeds what the payers were charged at full
      price: `min(curr, goal) * price + curr * floor((curr - goal) * price / curr) <= curr * price`. */
  lemma EntitlementCovered(curr: nat, goal: nat, price: nat)
    ensures Min(curr, goal) * price + curr * Entitlement(curr, goal, price) <= curr * price
  {
    var e := Entitlement(curr, goal, price);
    if curr > goal {
      EntitlementIsFloor(curr, goal, price);
      assert curr * e <= (curr - goal) * price;
      assert goal * price + (curr - goal) * price == curr * price;
    }
  }

  /** `Mul` distributes over a sum of counts. */
  lemma {:induction false} MulAdd(a: nat, b: nat, c: nat)
    ensures Mul(a, c) + Mul(b, c) == Mul(a + b, c)
  {
    if a > 0 {
      MulAdd(a - 1, b, c);
    }
  }

  lemma MulLe(a: nat, b: nat, c: nat)
    requires a <= b
    ensures Mul(a, c) <= Mul(b, c)
  {
    MulAdd(a, b - a, c);
  }

  /** Escrow never goes negative: when the owner has drawn `wc <= min(curr, goal)`
      units and the payers together `claimed <= curr * Entitlement(curr)`, the
      owner's remaining units, the units drawn and the payers' claims together
      cost at most the full-price total `curr * price`. */
  lemma ObligationsCovered(curr: nat, goal: nat, price: nat, wc: nat, claimed: nat)
    requires wc <= Min(curr, goal)
    requires claimed <= Mul(curr, Entitlement(curr, goal, price))
    ensures Mul(Min(curr, goal) - wc, price) + Mul(wc, price) == Mul(Min(curr, goal), price)
    ensures Mul(Min(curr, goal), price) + claimed <= Mul(curr, price)
  {
    MulAdd(Min(curr, goal) - wc, wc, price);
    MulIsProduct(Min(curr, goal), price);
    MulIsProduct(curr, Entitlement(curr, goal, price));
    MulIsProduct(curr, price);
    EntitlementCovered(curr, goal, price);
  }

  /** One payer's top-up is covered: if the other `curr - 1` payers together
      hold at most `(curr - 1) * Entitlement(curr)`, then raising this payer
      to the full entitlement keeps the owner's draws and all claims within
      `curr * price`. */
  lemma TopUpCovered(curr: nat, goal: nat, price: nat, wc: nat, others: nat)
    requires curr > 0
    requires wc <= Min(curr, goal)
    requires others <= Mul(curr - 1, Entitlement(curr, goal, price))
    ensures Mul(wc, price) + others + Entitlement(curr, goal, price) <= Mul(curr, price)
  {
    var e := Entitlement(curr, goal, price);
    ObligationsCovered(curr, goal, price, wc, others + e);
    MulLe(wc, Min(curr, goal), price);
  }
}
