/**
  Fixed-point decimals as the keepers use them: a non-negative integer scaled by 10^18.
  Quotients and products are rounded half to even; only `Truncate` rounds down.
*/
module Dec {

  const ONE: int := 1_000_000_000_000_000_000

  /** Drops eighteen digits, rounding half to even. */
  function ChopRound(x: nat): (r: nat)
    ensures 2 * x - ONE <= 2 * (r * ONE) <= 2 * x + ONE
  {
    var q, rem := x / ONE, x % ONE;
    if 2 * rem < ONE then q
    else if 2 * rem > ONE then q + 1
    else if q % 2 == 0 then q
    else q + 1
  }

  function FromInt(n: nat): nat {
    n * ONE
  }

  function Mul(x: nat, y: nat): nat {
    ChopRound(x * y)
  }

  function Quo(x: nat, y: nat): nat
    requires y > 0
  {
    ChopRound(Divided(x, y))
  }

  /** A quotient with eighteen digits to spare. */
  function Divided(x: nat, y: nat): nat
    requires y > 0
  {
    x * ONE * ONE / y
  }

  function Truncate(x: nat): nat {
    x / ONE
  }

  /** The decimal quotient of two integer amounts. */
  function Ratio(part: nat, whole: nat): nat
    requires whole > 0
  {
    Quo(FromInt(part), FromInt(whole))
  }

  /** An integer amount scaled by a decimal ratio, rounded down to an integer. */
  function Portion(amount: nat, ratio: nat): nat {
    Truncate(Mul(FromInt(amount), ratio))
  }

  lemma DivBounds(x: nat, y: nat)
    requires y > 0
    ensures x - y < x / y * y <= x
  {
    assert x == x / y * y + x % y;
  }

  lemma ChopRoundExact(n: nat)
    ensures ChopRound(n * ONE) == n
  {
  }

  /** Scaling an integer loses nothing until the final truncation. */
  lemma PortionExact(amount: nat, ratio: nat)
    ensures Portion(amount, ratio) == amount * ratio / ONE
  {
    assert FromInt(amount) * ratio == (amount * ratio) * ONE;
    ChopRoundExact(amount * ratio);
  }

  lemma PortionBounds(amount: nat, ratio: nat)
    ensures Portion(amount, ratio) * ONE <= amount * ratio < (Portion(amount, ratio) + 1) * ONE
  {
    PortionExact(amount, ratio);
  }

  /** A rounded ratio is within half a unit in the last place, give or take the inner truncation. */
  lemma RatioBounds(part: nat, whole: nat)
    requires 0 < whole < ONE * 2
    ensures 2 * (Ratio(part, whole) * whole) <= 2 * (part * ONE) + whole
    ensures 2 * (part * ONE) <= 2 * (Ratio(part, whole) * whole) + whole + 3
  {
    hide Divided, ChopRound;
    var quo, r := Divided(FromInt(part), FromInt(whole)), Ratio(part, whole);
    assert r == ChopRound(quo);
    QuoBounds(part, whole, quo);
    RoundBounds(quo, r, whole);
    Unscaled(part, quo * whole, r * whole, whole);
  }

  lemma Unscaled(part: nat, quoWhole: nat, ratioWhole: nat, whole: nat)
    requires 0 < whole < ONE * 2
    requires quoWhole <= part * ONE * ONE < quoWhole + whole
    requires 2 * quoWhole - ONE * whole <= 2 * ratioWhole * ONE <= 2 * quoWhole + ONE * whole
    ensures 2 * ratioWhole <= 2 * (part * ONE) + whole
    ensures 2 * (part * ONE) <= 2 * ratioWhole + whole + 3
  {
  }

  lemma QuoBounds(part: nat, whole: nat, quo: nat)
    requires 0 < whole && quo == Divided(FromInt(part), FromInt(whole))
    ensures quo * whole <= part * ONE * ONE < quo * whole + whole
  {
    var num := FromInt(part) * ONE * ONE;
    DivBounds(num, FromInt(whole));
    assert quo * (whole * ONE) == quo * whole * ONE;
    assert num == part * ONE * ONE * ONE;
  }

  lemma RoundBounds(quo: nat, r: nat, whole: nat)
    requires 2 * quo - ONE <= 2 * (r * ONE) <= 2 * quo + ONE
    ensures 2 * (quo * whole) - ONE * whole <= 2 * (r * whole) * ONE <= 2 * (quo * whole) + ONE * whole
  {
    Scale(2 * quo - ONE, 2 * (r * ONE), whole);
    Scale(2 * (r * ONE), 2 * quo + ONE, whole);
  }

  lemma Scale(x: int, y: int, k: nat)
    requires x <= y
    ensures x * k <= y * k
  {
  }

  /** A part no larger than the whole has ratio at most one. */
  lemma RatioAtMostOne(part: nat, whole: nat)
    requires 0 < whole && part <= whole
    ensures Ratio(part, whole) <= ONE
  {
    hide Divided;
    var quo := Divided(FromInt(part), FromInt(whole));
    QuoBounds(part, whole, quo);
    Scale(part, whole, ONE * ONE);
    if quo > ONE * ONE {
      Scale(ONE * ONE + 1, quo, whole);
    }
  }
}
