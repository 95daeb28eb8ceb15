/**
  Splitting a reimbursement over the providers. Each provider keeps aside its share of the
  purchased shield and pays its share of the loss, both truncated, plus one unit of each
  where that still fits its collateral.
*/
module Reimbursement {
  import opened Dec
  import opened Split

  datatype Demand = Demand(purchased: nat, payout: nat)

  /** What one provider sets aside and pays, given what is still to be covered and paid. */
  function DemandOn(collateral: nat, purchaseRatio: nat, payoutRatio: nat, toCover: nat, toPay: nat): (d: Demand)
    ensures d.purchased <= toCover && d.payout <= toPay
  {
    var purchased := Min(Portion(collateral, purchaseRatio), toCover);
    var payout := Min(Portion(collateral, payoutRatio), toPay);
    var purchased := if purchased < toCover && collateral > payout + purchased then purchased + 1 else purchased;
    var payout := if payout < toPay && collateral > payout + purchased then payout + 1 else payout;
    Demand(purchased, payout)
  }

  /** The demands on the providers in iteration order, until nothing remains to be paid. */
  function Demands(collaterals: seq<nat>, purchaseRatio: nat, payoutRatio: nat, toCover: nat, toPay: nat): (ds: seq<Demand>)
    ensures |ds| <= |collaterals|
  {
    if collaterals == [] || toPay == 0 then [] else
    var d := DemandOn(collaterals[0], purchaseRatio, payoutRatio, toCover, toPay);
    [d] + Demands(collaterals[1..], purchaseRatio, payoutRatio, toCover - d.purchased, toPay - d.payout)
  }

  function Paid(ds: seq<Demand>): nat {
    if ds == [] then 0 else ds[0].payout + Paid(ds[1..])
  }

  /** The share of purchased shield a provider sets aside while the loss is not yet paid. */
  function SetAside(collateral: nat, purchaseRatio: nat, payoutRatio: nat, toCover: nat): (y: nat)
    ensures y <= toCover
  {
    var purchased := Min(Portion(collateral, purchaseRatio), toCover);
    if purchased < toCover && collateral > Portion(collateral, payoutRatio) + purchased then purchased + 1 else purchased
  }

  /** The truncated shares of the loss, plus one unit for every provider left with a spare unit. */
  function Capacity(collaterals: seq<nat>, purchaseRatio: nat, payoutRatio: nat, toCover: nat): nat {
    if collaterals == [] then 0 else
    var aside := SetAside(collaterals[0], purchaseRatio, payoutRatio, toCover);
    var share := Portion(collaterals[0], payoutRatio);
    share + (if collaterals[0] > share + aside then 1 else 0)
    + Capacity(collaterals[1..], purchaseRatio, payoutRatio, toCover - aside)
  }

  /** Never more than the loss is paid, and all of it exactly when the capacity covers it. */
  lemma {:induction false} PaidIffCapacity(collaterals: seq<nat>, purchaseRatio: nat, payoutRatio: nat, toCover: nat, toPay: nat)
    ensures var ds := Demands(collaterals, purchaseRatio, payoutRatio, toCover, toPay);
            && Paid(ds) <= toPay
            && (Paid(ds) == toPay <==> toPay <= Capacity(collaterals, purchaseRatio, payoutRatio, toCover))
  {
    if collaterals != [] && toPay != 0 {
      var d := DemandOn(collaterals[0], purchaseRatio, payoutRatio, toCover, toPay);
      var ds := Demands(collaterals, purchaseRatio, payoutRatio, toCover, toPay);
      assert ds[1..] == Demands(collaterals[1..], purchaseRatio, payoutRatio, toCover - d.purchased, toPay - d.payout);
      PaidIffCapacity(collaterals[1..], purchaseRatio, payoutRatio, toCover - d.purchased, toPay - d.payout);
      if Portion(collaterals[0], payoutRatio) < toPay {
        assert d.purchased == SetAside(collaterals[0], purchaseRatio, payoutRatio, toCover);
      }
    }
  }

  // ----- Demands fit the collateral -----

  /** Two rounded ratios of parts that fit the whole exceed one by at most one unit in the last place. */
  lemma RatiosFit(purchased: nat, payout: nat, whole: nat)
    requires 0 < whole < ONE && purchased + payout <= whole
    ensures Ratio(purchased, whole) + Ratio(payout, whole) <= ONE + 1
  {
    RatioBounds(purchased, whole);
    RatioBounds(payout, whole);
    SumOfRatios(Ratio(purchased, whole), Ratio(payout, whole), purchased, payout, whole);
  }

  lemma SumOfRatios(r: nat, s: nat, p: nat, q: nat, whole: nat)
    requires whole > 0 && p + q <= whole
    requires 2 * (r * whole) <= 2 * (p * ONE) + whole
    requires 2 * (s * whole) <= 2 * (q * ONE) + whole
    ensures r + s <= ONE + 1
  {
    assert (r + s) * whole == r * whole + s * whole;
    if r + s > ONE + 1 {
      Scale(ONE + 2, r + s, whole);
      assert false;
    }
  }

  lemma SumOfPortions(a: nat, b: nat, r: nat, s: nat, c: nat)
    requires a * ONE <= c * r && b * ONE <= c * s
    requires c < ONE && r + s <= ONE + 1
    ensures a + b <= c
  {
    Scale(r + s, ONE + 1, c);
    assert (r + s) * c == c * r + c * s;
  }

  lemma PortionsFit(collateral: nat, purchaseRatio: nat, payoutRatio: nat)
    requires collateral < ONE && purchaseRatio + payoutRatio <= ONE + 1
    ensures Portion(collateral, purchaseRatio) + Portion(collateral, payoutRatio) <= collateral
  {
    PortionBounds(collateral, purchaseRatio);
    PortionBounds(collateral, payoutRatio);
    SumOfPortions(Portion(collateral, purchaseRatio), Portion(collateral, payoutRatio), purchaseRatio, payoutRatio, collateral);
  }

  lemma DemandFits(collateral: nat, purchaseRatio: nat, payoutRatio: nat, toCover: nat, toPay: nat)
    requires collateral < ONE && purchaseRatio + payoutRatio <= ONE + 1
    ensures var d := DemandOn(collateral, purchaseRatio, payoutRatio, toCover, toPay);
            d.purchased + d.payout <= collateral
  {
    PortionsFit(collateral, purchaseRatio, payoutRatio);
  }

  // ----- When the loss is paid in full -----

  /** Every funded provider keeps a spare unit whatever it is asked to set aside. */
  ghost predicate Roomy(collaterals: seq<nat>, purchaseRatio: nat, payoutRatio: nat, spare: nat) {
    forall i :: 0 <= i < |collaterals| && collaterals[i] > 0 ==>
      collaterals[i] >= Portion(collaterals[i], purchaseRatio) + Portion(collaterals[i], payoutRatio) + spare
  }

  lemma {:induction false} RoomyCapacity(collaterals: seq<nat>, purchaseRatio: nat, payoutRatio: nat, toCover: nat)
    requires Roomy(collaterals, purchaseRatio, payoutRatio, if toCover == 0 then 1 else 2)
    ensures Capacity(collaterals, purchaseRatio, payoutRatio, toCover) * ONE >= Sum(collaterals) * payoutRatio
  {
    if collaterals != [] {
      var c, rest := collaterals[0], collaterals[1..];
      var aside := SetAside(c, purchaseRatio, payoutRatio, toCover);
      RoomyRest(collaterals, purchaseRatio, payoutRatio, if toCover == 0 then 1 else 2, if toCover == aside then 1 else 2);
      RoomyCapacity(rest, purchaseRatio, payoutRatio, toCover - aside);
      RoomyUnit(c, purchaseRatio, payoutRatio, toCover);
      Distribute(c, Sum(rest), payoutRatio);
    }
  }

  lemma Distribute(x: nat, y: nat, k: nat)
    ensures (x + y) * k == x * k + y * k
  {
  }

  lemma RoomyRest(collaterals: seq<nat>, purchaseRatio: nat, payoutRatio: nat, spare: nat, less: nat)
    requires collaterals != [] && less <= spare && Roomy(collaterals, purchaseRatio, payoutRatio, spare)
    ensures Roomy(collaterals[1..], purchaseRatio, payoutRatio, less)
  {
    forall i | 0 <= i < |collaterals[1..]| && collaterals[1..][i] > 0
      ensures collaterals[1..][i] >= Portion(collaterals[1..][i], purchaseRatio) + Portion(collaterals[1..][i], payoutRatio) + less
    {
      assert collaterals[1..][i] == collaterals[i + 1];
    }
  }

  /** A roomy provider's contribution to the capacity is at least its exact share. */
  lemma RoomyUnit(c: nat, purchaseRatio: nat, payoutRatio: nat, toCover: nat)
    requires c > 0 ==> c >= Portion(c, purchaseRatio) + Portion(c, payoutRatio) + if toCover == 0 then 1 else 2
    ensures var share := Portion(c, payoutRatio);
            (share + if c > share + SetAside(c, purchaseRatio, payoutRatio, toCover) then 1 else 0) * ONE >= c * payoutRatio
  {
    PortionBounds(c, payoutRatio);
    if c == 0 {
      assert c * payoutRatio == 0;
    }
  }

  /** Two spare units beyond the truncated shares make the payout complete. */
  lemma RoomyPaysInFull(collaterals: seq<nat>, purchased: nat, payout: nat)
    requires 0 < Sum(collaterals) < SPLIT_LIMIT && payout <= Sum(collaterals)
    requires var whole := Sum(collaterals);
             Roomy(collaterals, Ratio(purchased, whole), Ratio(payout, whole), 2)
    ensures var whole := Sum(collaterals);
            payout <= Capacity(collaterals, Ratio(purchased, whole), Ratio(payout, whole), purchased)
  {
    var whole := Sum(collaterals);
    RatioSlack(payout, whole);
    RoomyCapacity(collaterals, Ratio(purchased, whole), Ratio(payout, whole), purchased);
  }

  /** With no shield outstanding the loss is always paid in full. */
  lemma UnsoldPaysInFull(collaterals: seq<nat>, payout: nat)
    requires 0 < Sum(collaterals) < SPLIT_LIMIT && payout < Sum(collaterals)
    ensures var whole := Sum(collaterals);
            payout <= Capacity(collaterals, Ratio(0, whole), Ratio(payout, whole), 0)
  {
    var whole := Sum(collaterals);
    RatioSlack(payout, whole);
    var r := Ratio(payout, whole);
    RatioBelowOne(payout, whole);
    RatioBounds(0, whole);
    assert Ratio(0, whole) == 0 by {
      if Ratio(0, whole) >= 1 { Scale(1, Ratio(0, whole), whole); }
    }
    forall i | 0 <= i < |collaterals| && collaterals[i] > 0
      ensures collaterals[i] >= Portion(collaterals[i], 0) + Portion(collaterals[i], r) + 1
    {
      PortionExact(collaterals[i], 0);
      PortionBounds(collaterals[i], r);
      Scale(r, ONE - 1, collaterals[i]);
    }
    RoomyCapacity(collaterals, 0, r, 0);
  }

  lemma RatioBelowOne(part: nat, whole: nat)
    requires part < whole && 0 < whole < SPLIT_LIMIT
    ensures Ratio(part, whole) < ONE
  {
    RatioBounds(part, whole);
    var r := Ratio(part, whole);
    if r >= ONE {
      Scale(ONE, r, whole);
      assert false;
    }
  }

  /** A provider of three units, all of them needed: it sets two aside and pays one. */
  lemma TightProvider(rest: seq<nat>, toCover: nat)
    requires toCover >= 2
    ensures Capacity([3] + rest, ONE / 2, ONE / 2, toCover) == 1 + Capacity(rest, ONE / 2, ONE / 2, toCover - 2)
  {
    PortionExact(3, ONE / 2);
    assert ([3] + rest)[1..] == rest;
  }

  /** Fully used collateral can leave the loss short although shield and loss fit the collateral exactly. */
  lemma PayoutFallsShort()
    ensures var collaterals: seq<nat> := [3, 3, 3, 3, 12];
            && Sum(collaterals) == 24
            && Capacity(collaterals, Ratio(12, 24), Ratio(12, 24), 12) == 11
  {
    assert Ratio(12, 24) == ONE / 2;
    LastProvider();
    TightProvider([12], 6);
    TightProvider([3] + [12], 8);
    TightProvider([3] + ([3] + [12]), 10);
    TightProvider([3] + ([3] + ([3] + [12])), 12);
    assert [3, 3, 3, 3, 12] == [3] + ([3] + ([3] + ([3] + [12])));
    assert Sum([3, 3, 3, 3, 12]) == 24 by {
      assert [3, 3, 3, 3, 12][1..] == [3, 3, 3, 12];
      assert [3, 3, 3, 12][1..] == [3, 3, 12];
      assert [3, 3, 12][1..] == [3, 12];
      assert [3, 12][1..] == [12];
      assert Sum([12]) == 12;
    }
  }

  /**
    More shield than collateral: the loss is within what can be asked for, but the one provider is
    asked to keep ninety units covered while it pays all of its ten.
  */
  lemma DemandOutgrowsCollateral()
    ensures var collaterals: seq<nat> := [10];
            && Sum(collaterals) == 10
            && Demands(collaterals, Ratio(90, 10), Ratio(10, 10), 90, 10) == [Demand(90, 10)]
            && 10 <= Capacity(collaterals, Ratio(90, 10), Ratio(10, 10), 90)
  {
    var collaterals: seq<nat> := [10];
    assert collaterals[1..] == [];
    assert Ratio(90, 10) == 9 * ONE && Ratio(10, 10) == ONE;
    PortionExact(10, 9 * ONE);
    PortionExact(10, ONE);
    PaidIffCapacity(collaterals, Ratio(90, 10), Ratio(10, 10), 90, 10);
    assert [Demand(90, 10)][1..] == [];
  }

  /** And a loss that is paid in full, within every provider's collateral, although shield and loss together exceed it. */
  lemma PaidBeyondCover()
    ensures var collaterals: seq<nat> := [1, 1];
            Sum(collaterals) == 2 && Demands(collaterals, Ratio(1, 2), Ratio(2, 2), 1, 2) == [Demand(0, 1), Demand(0, 1)]
  {
    var collaterals: seq<nat> := [1, 1];
    assert collaterals[1..] == [1];
    assert collaterals[1..][1..] == [];
    assert Sum(collaterals[1..]) == 1;
    assert Ratio(1, 2) == ONE / 2 && Ratio(2, 2) == ONE;
    PortionExact(1, ONE / 2);
    PortionExact(1, ONE);
    assert Demands(collaterals[1..], ONE / 2, ONE, 1, 1) == [Demand(0, 1)];
  }

  lemma LastProvider()
    ensures Capacity([12], ONE / 2, ONE / 2, 4) == 7
  {
    var last: seq<nat> := [12];
    PortionExact(12, ONE / 2);
    assert last[1..] == [];
  }
}
