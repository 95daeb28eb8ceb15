/** A whole reimbursement: the demands on the providers, met one provider after the other. */
module Reimbursed {
  import opened Dec
  import opened Split
  import opened Totals
  import opened WithdrawQueue
  import opened Collateral
  import opened Payout
  import opened QueuePayout
  import opened Reimbursement

  /** Any part of a provider's stake can be split over its delegations, and its unbondings are not empty entries. */
  ghost predicate StakeOk(l: Ledger, a: Address) {
    a in l.providers && Splittable(DelegationsOf(l, a)) && Positive(UnbondingsOf(l, a))
  }

  /** The collateral of a provider is never negative. */
  ghost predicate Solvent(l: Ledger, order: seq<Address>) {
    forall a :: a in order ==> a in l.providers && l.providers[a].collateral >= 0
  }

  /** The providers' collaterals in iteration order. */
  ghost function Amounts(l: Ledger, order: seq<Address>): (r: seq<nat>)
    requires Solvent(l, order)
    ensures |r| == |order| && forall i :: 0 <= i < |r| ==> r[i] == l.providers[order[i]].collateral
  {
    if order == [] then [] else [l.providers[order[0]].collateral] + Amounts(l, order[1..])
  }

  lemma {:induction false} AmountsListed(l: Ledger, order: seq<Address>)
    requires Solvent(l, order)
    ensures Sum(Amounts(l, order)) == Listed(l.providers, CollateralOf, order)
  {
    if order != [] {
      AmountsListed(l, order[1..]);
      assert Amounts(l, order)[1..] == Amounts(l, order[1..]);
    }
  }

  /** However the providers are listed, their collaterals add up to the stored total. */
  lemma AmountsTotal(l: Ledger, order: seq<Address>)
    requires Inv(l) && Enumerates(order, l.providers)
    ensures Solvent(l, order)
    ensures Sum(Amounts(l, order)) == l.totalCollateral
  {
    forall a | a in order
      ensures a in l.providers && l.providers[a].collateral >= 0
    {
      assert Backed(l, a);
    }
    AmountsListed(l, order);
    TotalListed(l.providers, CollateralOf, order);
  }

  /** The demands of a loss on the providers. */
  ghost function LossDemands(l: Ledger, order: seq<Address>, totalShield: nat, loss: nat): seq<Demand>
    requires Solvent(l, order) && 0 < l.totalCollateral
  {
    Demands(Amounts(l, order), Ratio(totalShield, l.totalCollateral), Ratio(loss, l.totalCollateral), totalShield, loss)
  }

  // ----- Meeting the demands one after the other -----

  /** What the first `k` demands pay. */
  function PaidUpto(ds: seq<Demand>, k: nat): nat
    requires k <= |ds|
  {
    if k == 0 then 0 else PaidUpto(ds, Before(k)) + ds[Before(k)].payout
  }

  function Before(k: nat): nat
    requires k > 0
  {
    k - 1
  }

  lemma {:induction false} PaidUptoAll(ds: seq<Demand>, k: nat)
    requires k <= |ds|
    ensures Paid(ds) == PaidUpto(ds, k) + Paid(ds[k..])
    decreases k
  {
    if k == 0 {
      assert ds[0..] == ds;
    } else {
      PaidUptoAll(ds, k - 1);
      assert ds[k - 1..][1..] == ds[k..];
    }
  }

  /** The first `k` providers of `order` have met the demands on them. */
  ghost predicate Met(l: Ledger, l': Ledger, order: seq<Address>, ds: seq<Demand>, k: nat)
    decreases k
  {
    if k == 0 then l' == l else exists n, m :: Met(l, n, order, ds, Before(k)) && MetOne(n, m, l', order, ds, Before(k))
  }

  /** The `k`-th provider meets its demand: first its collateral is booked, then its tokens are taken. */
  ghost predicate MetOne(n: Ledger, m: Ledger, l': Ledger, order: seq<Address>, ds: seq<Demand>, k: nat) {
    && k < |ds| <= |order|
    && CollateralPaid(n, m, order[k], ds[k].purchased, ds[k].payout)
    && TokensPaid(m, l', order[k], ds[k].purchased, ds[k].payout)
  }

  /** The demands are on different providers. */
  ghost predicate Asked(l: Ledger, order: seq<Address>, ds: seq<Demand>) {
    && |ds| <= |order|
    && (forall i, j :: 0 <= i < j < |order| ==> order[i] != order[j])
    && (forall i :: 0 <= i < |order| ==> order[i] in l.providers)
  }

  /** Every demand is within its provider's collateral. */
  ghost predicate Fits(l: Ledger, order: seq<Address>, ds: seq<Demand>) {
    && Asked(l, order, ds)
    && (forall i :: 0 <= i < |ds| ==> ds[i].purchased + ds[i].payout <= l.providers[order[i]].collateral)
  }

  /** A provider asked to pay has the collateral to pay and still cover its part of the shield. */
  ghost predicate CollateralMeets(l: Ledger, a: Address, d: Demand) {
    d.payout > 0 && a in l.providers ==> d.purchased + d.payout <= l.providers[a].collateral
  }

  /** Its delegations and unbondings together hold what is asked of them, too. */
  ghost predicate StakeMeets(l: Ledger, a: Address, d: Demand) {
    d.payout > 0 && a in l.providers ==> d.purchased + d.payout <= l.providers[a].bonded + Measure(UnbondingsOf(l, a), Amount())
  }

  ghost predicate Meets(l: Ledger, a: Address, d: Demand) {
    CollateralMeets(l, a, d) && StakeMeets(l, a, d)
  }

  ghost predicate MeetUpto(l: Ledger, order: seq<Address>, ds: seq<Demand>, k: nat) {
    k <= |ds| <= |order| && forall i :: 0 <= i < k ==> Meets(l, order[i], ds[i])
  }

  ghost predicate AllMeet(l: Ledger, order: seq<Address>, ds: seq<Demand>) {
    MeetUpto(l, order, ds, |ds|)
  }

  /** Providers from the `k`-th on are as they were. */
  ghost predicate Untouched(l: Ledger, l': Ledger, order: seq<Address>, k: nat) {
    && l'.providers.Keys == l.providers.Keys
    && forall i :: k <= i < |order| && order[i] in l.providers ==>
         SameProvider(l, l', order[i])
  }

  ghost predicate SameProvider(l: Ledger, l': Ledger, a: Address) {
    && a in l.providers && a in l'.providers && l'.providers[a] == l.providers[a]
    && DelegationsOf(l', a) == DelegationsOf(l, a) && UnbondingsOf(l', a) == UnbondingsOf(l, a)
  }

  /** What holds between two providers: accounts balance up to what was paid, and later providers are untouched. */
  ghost predicate Between(l: Ledger, l': Ledger, order: seq<Address>, k: nat, paid: nat) {
    && InvOwing(l', paid)
    && l'.totalCollateral == l.totalCollateral
    && Untouched(l, l', order, k)
  }

  lemma MetOneKeeps(l: Ledger, n: Ledger, m: Ledger, l': Ledger, order: seq<Address>, ds: seq<Demand>, k: nat, paid: nat, k': nat, paid': nat)
    requires Asked(l, order, ds) && k < |ds| && k' == k + 1 && paid' == paid + ds[k].payout
    requires CollateralMeets(l, order[k], ds[k])
    requires Between(l, n, order, k, paid) && MetOne(n, m, l', order, ds, k)
    ensures Between(l, l', order, k', paid')
  {
    var a, d := order[k], ds[k];
    assert Backed(n, a);
    PayoutKeeps(n, m, l', a, d.purchased, d.payout, paid);
    UntouchedNext(l, n, m, l', order, ds, k, k');
    hide InvOwing, Untouched;
  }

  lemma UntouchedNext(l: Ledger, n: Ledger, m: Ledger, l': Ledger, order: seq<Address>, ds: seq<Demand>, k: nat, k': nat)
    requires Asked(l, order, ds) && k < |ds| && k' == k + 1 && Untouched(l, n, order, k) && MetOne(n, m, l', order, ds, k)
    ensures Untouched(l, l', order, k') && l'.totalCollateral == n.totalCollateral
  {
    forall i | k' <= i < |order| && order[i] in l.providers
      ensures SameProvider(l, l', order[i])
    {
      assert order[i] != order[k] && SameProvider(l, n, order[i]);
    }
  }

  lemma {:induction false} MetKeeps(l: Ledger, l': Ledger, order: seq<Address>, ds: seq<Demand>, k: nat)
    requires Inv(l) && Asked(l, order, ds) && MeetUpto(l, order, ds, k) && Met(l, l', order, ds, k)
    ensures Between(l, l', order, k, PaidUpto(ds, k))
    decreases k
  {
    if k > 0 {
      var n, m :| Met(l, n, order, ds, Before(k)) && MetOne(n, m, l', order, ds, Before(k));
      MetKeeps(l, n, order, ds, Before(k));
      assert Meets(l, order[Before(k)], ds[Before(k)]);
      MetOneKeeps(l, n, m, l', order, ds, Before(k), PaidUpto(ds, Before(k)), k, PaidUpto(ds, k));
    }
  }

  /** Stake that covers all collateral still does after the payouts. */
  lemma {:induction false} MetCovers(l: Ledger, l': Ledger, order: seq<Address>, ds: seq<Demand>, k: nat)
    requires Inv(l) && Asked(l, order, ds) && MeetUpto(l, order, ds, k) && Met(l, l', order, ds, k)
    requires forall b :: StakeCovers(l, b)
    ensures forall b :: StakeCovers(l', b)
    decreases k
  {
    if k > 0 {
      var n, m :| Met(l, n, order, ds, Before(k)) && MetOne(n, m, l', order, ds, Before(k));
      MetKeeps(l, n, order, ds, Before(k));
      MetCovers(l, n, order, ds, Before(k));
      var i := Before(k);
      assert Backed(n, order[i]) && SameProvider(l, n, order[i]) && Meets(l, order[i], ds[i]);
      StakeStillCovers(n, m, l', order[i], ds[i].purchased, ds[i].payout);
    }
  }

  lemma MetOneDue(n: Ledger, m: Ledger, l': Ledger, order: seq<Address>, ds: seq<Demand>, k: nat, t: int)
    requires MetOne(n, m, l', order, ds, k)
    ensures Measure(l'.queue, DueBy(t)) <= Measure(n.queue, DueBy(t))
  {
    var p, d := n.providers[order[k]], ds[k];
    var skip, take := LeftInQueue(p, d.purchased), FromQueue(p, d.purchased, d.payout);
    assert l'.queue == m.queue;
    assert TrimmedFor(n.queue, m.queue, order[k], skip, take);
    hide MetOne, TrimmedFor, CollateralPaid, TokensPaid;
    TrimmedDue(n.queue, m.queue, order[k], skip, take, t);
  }

  /** Paying brings no withdrawal forward. */
  lemma {:induction false} MetDue(l: Ledger, l': Ledger, order: seq<Address>, ds: seq<Demand>, k: nat, t: int)
    requires Met(l, l', order, ds, k)
    ensures Measure(l'.queue, DueBy(t)) <= Measure(l.queue, DueBy(t))
    decreases k
  {
    hide MetOne;
    if k > 0 {
      var n, m :| Met(l, n, order, ds, Before(k)) && MetOne(n, m, l', order, ds, Before(k));
      MetDue(l, n, order, ds, Before(k), t);
      MetOneDue(n, m, l', order, ds, Before(k), t);
    }
  }

  lemma MeetNext(l: Ledger, order: seq<Address>, ds: seq<Demand>, k: nat, k': nat)
    requires MeetUpto(l, order, ds, k) && k < |ds| && k' == k + 1
    ensures Meets(l, order[k], ds[k]) ==> MeetUpto(l, order, ds, k')
    ensures !Meets(l, order[k], ds[k]) ==> !AllMeet(l, order, ds)
  {
  }

  /** Stake that covers all collateral is enough for any demands that fit it. */
  lemma CoveringStakesMeet(l: Ledger, order: seq<Address>, ds: seq<Demand>)
    requires Fits(l, order, ds) && forall b :: StakeCovers(l, b)
    ensures AllMeet(l, order, ds)
  {
    forall i | 0 <= i < |ds|
      ensures Meets(l, order[i], ds[i])
    {
      assert StakeCovers(l, order[i]);
    }
  }

  lemma MetNext(l: Ledger, n: Ledger, m: Ledger, l': Ledger, order: seq<Address>, ds: seq<Demand>, k: nat, k': nat)
    requires Met(l, n, order, ds, k) && MetOne(n, m, l', order, ds, k) && k' == k + 1
    ensures Met(l, l', order, ds, k')
  {
    assert Before(k') == k;
  }

  /** The demands from the `i`-th on follow from what is still to cover and to pay. */
  ghost predicate Pending(cs: seq<nat>, r: nat, s: nat, all: seq<Demand>, i: nat, toCover: nat, toPay: nat) {
    i <= |cs| && i <= |all| && all[i..] == Demands(cs[i..], r, s, toCover, toPay)
  }

  lemma PendingNext(cs: seq<nat>, r: nat, s: nat, all: seq<Demand>, i: nat, toCover: nat, toPay: nat,
                    d: Demand, i': nat, toCover': nat, toPay': nat)
    requires Pending(cs, r, s, all, i, toCover, toPay) && i < |cs| && toPay > 0
    requires d == DemandOn(cs[i], r, s, toCover, toPay)
    requires toCover' == toCover - d.purchased && toPay' == toPay - d.payout && i' == i + 1
    ensures i < |all| && all[i] == d && Pending(cs, r, s, all, i', toCover', toPay')
  {
    assert cs[i..][1..] == cs[i'..];
    assert all[i..][1..] == all[i'..];
  }

  lemma PendingDone(cs: seq<nat>, r: nat, s: nat, all: seq<Demand>, i: nat, toCover: nat, toPay: nat)
    requires Pending(cs, r, s, all, i, toCover, toPay) && (i == |cs| || toPay == 0)
    ensures i == |all| && Paid(all) == PaidUpto(all, i)
  {
    PaidUptoAll(all, i);
  }

  function Settled(l: Ledger, loss: nat): Ledger {
    l.(totalCollateral := l.totalCollateral - loss)
  }

  function Unsettled(l: Ledger, loss: nat): Ledger {
    l.(totalCollateral := l.totalCollateral + loss)
  }

  /** The ledger once the loss, paid in full, is taken off the total. */
  ghost predicate ReimbursedIn(l: Ledger, l': Ledger, order: seq<Address>, totalShield: nat, loss: nat) {
    && Enumerates(order, l.providers) && Solvent(l, order) && 0 < l.totalCollateral
    && Paid(LossDemands(l, order, totalShield, loss)) == loss
    && var ds := LossDemands(l, order, totalShield, loss);
       AllMeet(l, order, ds) && Met(l, Unsettled(l', loss), order, ds, |ds|)
  }

  lemma LossAsked(l: Ledger, order: seq<Address>, totalShield: nat, loss: nat)
    requires Enumerates(order, l.providers) && Solvent(l, order) && 0 < l.totalCollateral
    ensures Asked(l, order, LossDemands(l, order, totalShield, loss))
  {
    assert forall i :: 0 <= i < |order| ==> order[i] in l.providers;
  }

  lemma {:induction false} DemandsFit(cs: seq<nat>, r: nat, s: nat, toCover: nat, toPay: nat)
    requires forall i :: 0 <= i < |cs| ==> cs[i] < ONE
    requires r + s <= ONE + 1
    ensures var ds := Demands(cs, r, s, toCover, toPay);
            forall i :: 0 <= i < |ds| ==> ds[i].purchased + ds[i].payout <= cs[i]
    decreases |cs|
  {
    if cs != [] && toPay != 0 {
      var d := DemandOn(cs[0], r, s, toCover, toPay);
      DemandFits(cs[0], r, s, toCover, toPay);
      DemandsFit(cs[1..], r, s, toCover - d.purchased, toPay - d.payout);
      var ds := Demands(cs, r, s, toCover, toPay);
      assert ds[1..] == Demands(cs[1..], r, s, toCover - d.purchased, toPay - d.payout);
      forall i | 0 <= i < |ds|
        ensures ds[i].purchased + ds[i].payout <= cs[i]
      {
        if i > 0 {
          assert ds[i] == ds[1..][i - 1] && cs[i] == cs[1..][i - 1];
        }
      }
    }
  }

  /** Every demand of a covered loss fits its provider's collateral. */
  lemma LossFits(l: Ledger, order: seq<Address>, totalShield: nat, loss: nat)
    requires Inv(l) && Enumerates(order, l.providers) && Solvent(l, order)
    requires 0 < l.totalCollateral < ONE && totalShield + loss <= l.totalCollateral
    ensures Fits(l, order, LossDemands(l, order, totalShield, loss))
  {
    AmountsTotal(l, order);
    var cs := Amounts(l, order);
    forall i | 0 <= i < |cs|
      ensures cs[i] < ONE
    {
      SumMember(cs, i);
    }
    RatiosFit(totalShield, loss, l.totalCollateral);
    DemandsFit(cs, Ratio(totalShield, l.totalCollateral), Ratio(loss, l.totalCollateral), totalShield, loss);
    LossAsked(l, order, totalShield, loss);
  }

  lemma SettledKeeps(m: Ledger, loss: nat)
    requires InvOwing(m, loss)
    ensures Inv(Settled(m, loss))
  {
    var l' := Settled(m, loss);
    forall a | a in l'.providers
      ensures Backed(l', a)
    {
      assert Backed(m, a);
    }
  }

  /** A reimbursement takes exactly the loss from the providers together and keeps every account balanced. */
  lemma ReimbursedKeeps(l: Ledger, l': Ledger, order: seq<Address>, totalShield: nat, loss: nat)
    requires Inv(l)
    requires ReimbursedIn(l, l', order, totalShield, loss)
    ensures Inv(l')
    ensures l'.providers.Keys == l.providers.Keys
    ensures l'.totalCollateral == l.totalCollateral - loss
    ensures Total(l'.providers, CollateralOf) == Total(l.providers, CollateralOf) - loss
  {
    LossAsked(l, order, totalShield, loss);
    var m := Unsettled(l', loss);
    var ds := LossDemands(l, order, totalShield, loss);
    MetKeeps(l, m, order, ds, |ds|);
    PaidUptoAll(ds, |ds|);
    SettledKeeps(m, loss);
    assert Settled(m, loss) == l';
  }

  /** Stake that covers all collateral still does after a reimbursement. */
  lemma ReimbursedCovers(l: Ledger, l': Ledger, order: seq<Address>, totalShield: nat, loss: nat)
    requires Inv(l) && (forall b :: StakeCovers(l, b))
    requires ReimbursedIn(l, l', order, totalShield, loss)
    ensures forall b :: StakeCovers(l', b)
  {
    LossAsked(l, order, totalShield, loss);
    var m := Unsettled(l', loss);
    var ds := LossDemands(l, order, totalShield, loss);
    hide Inv, Met, Asked, MeetUpto;
    MetCovers(l, m, order, ds, |ds|);
    forall b
      ensures StakeCovers(l', b)
    {
      assert StakeCovers(m, b);
    }
  }
}
