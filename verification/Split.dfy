/**
  Pro-rata splits: every holder contributes its truncated share of a total, plus one unit
  where both the remaining total and the holder allow it.
*/
module Split {
  import opened Dec

  function Sum(xs: seq<nat>): nat {
    if xs == [] then 0 else xs[0] + Sum(xs[1..])
  }

  lemma {:induction false} SumAppend(xs: seq<nat>, ys: seq<nat>)
    ensures Sum(xs + ys) == Sum(xs) + Sum(ys)
  {
    if xs == [] {
      assert xs + ys == ys;
    } else {
      assert (xs + ys)[1..] == xs[1..] + ys;
      SumAppend(xs[1..], ys);
    }
  }

  lemma {:induction false} SumMember(xs: seq<nat>, i: nat)
    requires i < |xs|
    ensures xs[i] <= Sum(xs)
  {
    if i > 0 {
      SumMember(xs[1..], i - 1);
    }
  }

  lemma {:induction false} SumUpdate(xs: seq<nat>, i: nat, v: nat)
    requires i < |xs|
    ensures Sum(xs[i := v]) == Sum(xs) - xs[i] + v
  {
    if i == 0 {
      assert xs[i := v][1..] == xs[1..];
    } else {
      assert xs[i := v][1..] == xs[1..][i - 1 := v];
      SumUpdate(xs[1..], i - 1, v);
    }
  }

  function Min(x: int, y: int): int {
    if x < y then x else y
  }

  function Max(x: int, y: int): int {
    if x < y then y else x
  }

  /** One holder's contribution to what remains. */
  function Bumped(holding: nat, ratio: nat, remaining: nat): (share: nat)
    ensures share <= remaining
  {
    var share := Min(Portion(holding, ratio), remaining);
    if share < remaining && share < holding then share + 1 else share
  }

  /** The contributions of the holders in iteration order. */
  function Shares(holdings: seq<nat>, ratio: nat, remaining: nat): (shares: seq<nat>)
    ensures |shares| == |holdings|
  {
    if holdings == [] then [] else
    var share := Bumped(holdings[0], ratio, remaining);
    [share] + Shares(holdings[1..], ratio, remaining - share)
  }

  /** As `Shares`, but the last holder takes whatever remains, and nobody is asked once nothing does. */
  function LastTakesRest(holdings: seq<nat>, ratio: nat, remaining: nat): (shares: seq<nat>)
    ensures |shares| == |holdings|
  {
    if holdings == [] then [] else
    var share := if |holdings| == 1 then remaining else Bumped(holdings[0], ratio, remaining);
    [share] + LastTakesRest(holdings[1..], ratio, remaining - share)
  }

  /** No contribution exceeds its holder's holding. */
  predicate Within(shares: seq<nat>, holdings: seq<nat>) {
    && |shares| == |holdings|
    && forall i :: 0 <= i < |holdings| ==> shares[i] <= holdings[i]
  }

  /** A contribution never falls below the holder's exact share unless it finishes the split. */
  lemma BumpedCovers(holding: nat, ratio: nat, remaining: nat)
    requires ratio <= ONE
    ensures Bumped(holding, ratio, remaining) <= holding
    ensures Bumped(holding, ratio, remaining) == remaining
         || Bumped(holding, ratio, remaining) * ONE >= holding * ratio
  {
    PortionBounds(holding, ratio);
    var p := Portion(holding, ratio);
    Scale(ratio, ONE, holding);
    assert holding * ratio == ratio * holding;
    assert p * ONE <= holding * ONE;
  }

  /** One contribution keeps what remains within the exact share of the holders still to come. */
  lemma ShareStep(holdings: seq<nat>, ratio: nat, remaining: nat, slack: nat)
    requires holdings != [] && ratio <= ONE
    requires remaining * ONE <= Sum(holdings) * ratio + slack
    ensures Bumped(holdings[0], ratio, remaining) <= holdings[0]
    ensures (remaining - Bumped(holdings[0], ratio, remaining)) * ONE <= Sum(holdings[1..]) * ratio + slack
  {
    BumpedCovers(holdings[0], ratio, remaining);
    StepArithmetic(holdings[0], Sum(holdings[1..]), ratio, remaining, slack, Bumped(holdings[0], ratio, remaining));
  }

  lemma StepArithmetic(holding: nat, rest: nat, ratio: nat, remaining: nat, slack: nat, share: nat)
    requires remaining * ONE <= (holding + rest) * ratio + slack
    requires share == remaining || share * ONE >= holding * ratio
    ensures (remaining - share) * ONE <= rest * ratio + slack
  {
    assert (holding + rest) * ratio == holding * ratio + rest * ratio;
    assert 0 <= rest * ratio;
  }

  lemma {:induction false} SharesExhaust(holdings: seq<nat>, ratio: nat, remaining: nat, slack: nat)
    requires ratio <= ONE && slack < ONE
    requires remaining * ONE <= Sum(holdings) * ratio + slack
    ensures Sum(Shares(holdings, ratio, remaining)) == remaining
    ensures Within(Shares(holdings, ratio, remaining), holdings)
  {
    if holdings == [] {
      assert remaining == 0;
    } else {
      var share := Bumped(holdings[0], ratio, remaining);
      ShareStep(holdings, ratio, remaining, slack);
      SharesExhaust(holdings[1..], ratio, remaining - share, slack);
      assert Shares(holdings, ratio, remaining)[1..] == Shares(holdings[1..], ratio, remaining - share);
    }
  }

  lemma {:induction false} LastTakesRestExhausts(holdings: seq<nat>, ratio: nat, remaining: nat, slack: nat)
    requires holdings != []
    requires ratio <= ONE && slack < ONE
    requires remaining * ONE <= Sum(holdings) * ratio + slack
    ensures Sum(LastTakesRest(holdings, ratio, remaining)) == remaining
    ensures Within(LastTakesRest(holdings, ratio, remaining), holdings)
  {
    var all := LastTakesRest(holdings, ratio, remaining);
    if |holdings| == 1 {
      assert holdings[1..] == [];
      assert Sum(holdings) == holdings[0];
      Scale(ratio, ONE, holdings[0]);
      assert holdings[0] * ratio == ratio * holdings[0];
      assert all == [remaining];
    } else {
      var share := Bumped(holdings[0], ratio, remaining);
      ShareStep(holdings, ratio, remaining, slack);
      LastTakesRestExhausts(holdings[1..], ratio, remaining - share, slack);
      assert all[1..] == LastTakesRest(holdings[1..], ratio, remaining - share);
    }
  }

  /** Once nothing remains nobody is asked for anything. */
  lemma {:induction false} LastTakesRestNothing(holdings: seq<nat>, ratio: nat)
    ensures forall i :: 0 <= i < |holdings| ==> LastTakesRest(holdings, ratio, 0)[i] == 0
  {
    if holdings != [] {
      LastTakesRestNothing(holdings[1..], ratio);
    }
  }

  /** What the holders keep after paying their shares. */
  function Less(holdings: seq<nat>, shares: seq<nat>): (r: seq<nat>)
    requires Within(shares, holdings)
    ensures |r| == |holdings|
    ensures forall i :: 0 <= i < |r| ==> r[i] == holdings[i] - shares[i]
  {
    if holdings == [] then [] else [holdings[0] - shares[0]] + Less(holdings[1..], shares[1..])
  }

  lemma {:induction false} SumLess(holdings: seq<nat>, shares: seq<nat>)
    requires Within(shares, holdings)
    ensures Sum(Less(holdings, shares)) == Sum(holdings) - Sum(shares)
  {
    if holdings != [] {
      SumLess(holdings[1..], shares[1..]);
      assert Less(holdings, shares)[1..] == Less(holdings[1..], shares[1..]);
    }
  }

  /** The first `i` shares, with nothing asked of the other holders yet. */
  function Upto(shares: seq<nat>, i: nat): (r: seq<nat>)
    ensures |r| == |shares|
    ensures forall j :: 0 <= j < |r| ==> r[j] == if j < i then shares[j] else 0
  {
    seq(|shares|, j requires 0 <= j < |shares| => if j < i then shares[j] else 0)
  }

  lemma UptoStep(holdings: seq<nat>, shares: seq<nat>, i: nat)
    requires Within(shares, holdings) && i < |shares|
    ensures Sum(Upto(shares, i + 1)) == Sum(Upto(shares, i)) + shares[i]
    ensures Less(holdings, Upto(shares, i + 1)) == Less(holdings, Upto(shares, i))[i := holdings[i] - shares[i]]
  {
    hide Less, Sum, Upto;
    UptoUpdate(shares, i);
    UptoAt(shares, i);
    SumUpdate(Upto(shares, i), i, shares[i]);
    LessUpdate(holdings, Upto(shares, i), i, shares[i]);
  }

  lemma UptoAt(shares: seq<nat>, i: nat)
    requires i < |shares|
    ensures Upto(shares, i)[i] == 0
  {
  }

  lemma UptoUpdate(shares: seq<nat>, i: nat)
    requires i < |shares|
    ensures Upto(shares, i + 1) == Upto(shares, i)[i := shares[i]]
  {
  }

  lemma LessUpdate(holdings: seq<nat>, shares: seq<nat>, i: nat, share: nat)
    requires Within(shares, holdings) && i < |shares| && share <= holdings[i]
    ensures Within(shares[i := share], holdings)
    ensures Less(holdings, shares[i := share]) == Less(holdings, shares)[i := holdings[i] - share]
  {
    hide Less, Sum, Portion;
  }

  /** Nothing more is asked when the shares from `i` on are all zero. */
  lemma UptoAll(shares: seq<nat>, i: nat)
    requires forall j :: i <= j < |shares| ==> shares[j] == 0
    ensures Upto(shares, i) == shares == Upto(shares, |shares|)
  {
  }

  lemma {:induction false} UptoNone(holdings: seq<nat>, shares: seq<nat>)
    requires Within(shares, holdings)
    ensures Less(holdings, Upto(shares, 0)) == holdings
    ensures Sum(Upto(shares, 0)) == 0
  {
    SumZeros(Upto(shares, 0));
  }

  lemma {:induction false} SumZeros(xs: seq<nat>)
    requires forall i :: 0 <= i < |xs| ==> xs[i] == 0
    ensures Sum(xs) == 0
  {
    if xs != [] {
      SumZeros(xs[1..]);
    }
  }

  /** The next share follows from what remains, and so do the shares after it. */
  method NextShare(holdings: seq<nat>, ratio: nat, i: nat, remaining: nat, ghost shares: seq<nat>) returns (share: nat, left: nat)
    requires |shares| == |holdings| && i < |holdings|
    requires shares[i..] == LastTakesRest(holdings[i..], ratio, remaining)
    ensures share == shares[i] && left == remaining - share
    ensures shares[i + 1..] == LastTakesRest(holdings[i + 1..], ratio, left)
  {
    share := remaining;
    if i < |holdings| - 1 {
      share := Min(Portion(holdings[i], ratio), remaining);
      if share < remaining && share < holdings[i] {
        share := share + 1;
      }
    }
    left := remaining - share;
    assert shares[i..][1..] == shares[i + 1..];
    assert holdings[i..][1..] == holdings[i + 1..];
  }

  /** The shares from the `i`-th holder on follow from what remains. */
  ghost predicate Follow(shares: seq<nat>, holdings: seq<nat>, ratio: nat, i: nat, remaining: nat) {
    |shares| == |holdings| && i <= |holdings| && shares[i..] == Shares(holdings[i..], ratio, remaining)
  }

  /** One holder's truncated share, bumped where possible. */
  method NextBumped(holding: nat, ratio: nat, remaining: nat, ghost shares: seq<nat>, ghost holdings: seq<nat>, i: nat)
    returns (share: nat, left: nat, i': nat)
    requires Follow(shares, holdings, ratio, i, remaining) && i < |holdings| && holding == holdings[i]
    ensures share == shares[i] && left == remaining - share && i' == i + 1
    ensures Follow(shares, holdings, ratio, i', left)
  {
    share := Min(Portion(holding, ratio), remaining);
    if share < remaining && share < holding {
      share := share + 1;
    }
    left, i' := remaining - share, i + 1;
    assert shares[i..][1..] == shares[i'..];
    assert holdings[i..][1..] == holdings[i'..];
  }

  /** The loop over the holders stops only when nothing more is asked of anyone. */
  lemma LastTakesRestDone(holdings: seq<nat>, ratio: nat, shares: seq<nat>, i: nat, remaining: nat)
    requires |shares| == |holdings| && i <= |holdings| && (i == |holdings| || remaining == 0)
    requires shares[i..] == LastTakesRest(holdings[i..], ratio, remaining)
    ensures forall j :: i <= j < |shares| ==> shares[j] == 0
  {
    LastTakesRestNothing(holdings[i..], ratio);
    assert forall j :: i <= j < |shares| ==> shares[j] == shares[i..][j - i];
  }

  // ----- When the splits are exact -----

  /** The most a holder is asked for: its truncated share, and one unit more if it holds one. */
  function Cap(holding: nat, ratio: nat): nat {
    Portion(holding, ratio) + if Portion(holding, ratio) < holding then 1 else 0
  }

  function Caps(holdings: seq<nat>, ratio: nat): nat {
    if holdings == [] then 0 else Cap(holdings[0], ratio) + Caps(holdings[1..], ratio)
  }

  lemma CapWithin(holding: nat, ratio: nat)
    requires ratio <= ONE
    ensures Cap(holding, ratio) <= holding
  {
    PortionBounds(holding, ratio);
    Scale(ratio, ONE, holding);
  }

  /** The split comes to the total or to all that can be asked for, whichever is less; with a ratio up to one nobody is overasked. */
  lemma {:induction false} SharesSum(holdings: seq<nat>, ratio: nat, remaining: nat)
    ensures Sum(Shares(holdings, ratio, remaining)) == Min(remaining, Caps(holdings, ratio))
    ensures ratio <= ONE ==> Within(Shares(holdings, ratio, remaining), holdings)
  {
    if holdings != [] {
      hide Portion;
      var share := Bumped(holdings[0], ratio, remaining);
      SharesSum(holdings[1..], ratio, remaining - share);
      assert Shares(holdings, ratio, remaining)[1..] == Shares(holdings[1..], ratio, remaining - share);
      if ratio <= ONE {
        CapWithin(holdings[0], ratio);
      }
    }
  }

  /** All but the last are asked for what they can give, and the last for the rest. */
  ghost predicate LastFits(holdings: seq<nat>, ratio: nat, total: nat) {
    holdings != [] && total <= Caps(holdings[..|holdings| - 1], ratio) + holdings[|holdings| - 1]
  }

  /** The split whose last holder takes the rest always comes to the total, and overasks nobody exactly when the rest is within what the last one holds. */
  lemma {:induction false} LastTakesRestIff(holdings: seq<nat>, ratio: nat, remaining: nat)
    requires holdings != [] && ratio <= ONE
    ensures Sum(LastTakesRest(holdings, ratio, remaining)) == remaining
    ensures Within(LastTakesRest(holdings, ratio, remaining), holdings) <==> LastFits(holdings, ratio, remaining)
  {
    hide Portion, Cap;
    var all := LastTakesRest(holdings, ratio, remaining);
    if |holdings| == 1 {
      assert holdings[..0] == [] && holdings[1..] == [];
      assert all == [remaining];
    } else {
      var share := Bumped(holdings[0], ratio, remaining);
      BumpedCap(holdings[0], ratio, remaining);
      LastTakesRestIff(holdings[1..], ratio, remaining - share);
      assert all[1..] == LastTakesRest(holdings[1..], ratio, remaining - share);
      CapWithin(holdings[0], ratio);
      assert holdings[..|holdings| - 1][1..] == holdings[1..][..|holdings| - 2];
      WithinRest(all, holdings);
    }
  }

  lemma BumpedCap(holding: nat, ratio: nat, remaining: nat)
    ensures Bumped(holding, ratio, remaining) == Min(remaining, Cap(holding, ratio))
  {
  }

  lemma WithinRest(shares: seq<nat>, holdings: seq<nat>)
    requires |shares| == |holdings| && holdings != [] && shares[0] <= holdings[0]
    ensures Within(shares, holdings) <==> Within(shares[1..], holdings[1..])
  {
    if Within(shares[1..], holdings[1..]) {
      forall i | 0 <= i < |holdings|
        ensures shares[i] <= holdings[i]
      {
        if i > 0 {
          assert shares[1..][i - 1] <= holdings[1..][i - 1];
        }
      }
    }
  }

  /** A covered total is secured in full exactly when it is within what can be asked for. */
  lemma SharesExactIff(holdings: seq<nat>, total: nat)
    requires total <= Sum(holdings) && 0 < Sum(holdings)
    ensures var shares := Shares(holdings, Ratio(total, Sum(holdings)), total);
            && (Sum(shares) == total <==> total <= Caps(holdings, Ratio(total, Sum(holdings))))
            && Within(shares, holdings)
  {
    RatioAtMostOne(total, Sum(holdings));
    SharesSum(holdings, Ratio(total, Sum(holdings)), total);
  }

  /** Holdings below this total are split exactly; the supply of the native coin is far below it. */
  const SPLIT_LIMIT: int := 2 * ONE - 3

  lemma RatioSlack(total: nat, whole: nat)
    requires total <= whole && 0 < whole < SPLIT_LIMIT
    ensures Ratio(total, whole) <= ONE
    ensures total * ONE <= whole * Ratio(total, whole) + (ONE - 1)
  {
    RatioAtMostOne(total, whole);
    RatioBounds(total, whole);
  }

  /** The split of a covered total is exact: it sums to the total and asks nobody for more than they hold. */
  lemma SharesExact(holdings: seq<nat>, total: nat)
    requires total <= Sum(holdings) && 0 < Sum(holdings) < SPLIT_LIMIT
    ensures Sum(Shares(holdings, Ratio(total, Sum(holdings)), total)) == total
    ensures Within(Shares(holdings, Ratio(total, Sum(holdings)), total), holdings)
  {
    RatioSlack(total, Sum(holdings));
    SharesExhaust(holdings, Ratio(total, Sum(holdings)), total, ONE - 1);
  }

  /** The same for the split whose last holder takes the rest: even the last one can pay. */
  lemma LastTakesRestExact(holdings: seq<nat>, total: nat)
    requires total <= Sum(holdings) && 0 < Sum(holdings) < SPLIT_LIMIT
    ensures Sum(LastTakesRest(holdings, Ratio(total, Sum(holdings)), total)) == total
    ensures Within(LastTakesRest(holdings, Ratio(total, Sum(holdings)), total), holdings)
    ensures LastFits(holdings, Ratio(total, Sum(holdings)), total)
  {
    RatioSlack(total, Sum(holdings));
    LastTakesRestIff(holdings, Ratio(total, Sum(holdings)), total);
    LastTakesRestExhausts(holdings, Ratio(total, Sum(holdings)), total, ONE - 1);
  }

  /** Any part of the holdings can be split with the last holder taking the rest. */
  ghost predicate Splittable(holdings: seq<nat>) {
    forall total: nat :: 0 < total <= Sum(holdings) ==> LastFits(holdings, Ratio(total, Sum(holdings)), total)
  }

  lemma BelowTheLimitSplittable(holdings: seq<nat>)
    requires Sum(holdings) < SPLIT_LIMIT
    ensures Splittable(holdings)
  {
    forall total: nat | 0 < total <= Sum(holdings)
      ensures LastFits(holdings, Ratio(total, Sum(holdings)), total)
    {
      LastTakesRestExact(holdings, total);
    }
  }

  /** Past the limit the eighteen digits of the ratio no longer suffice. */
  lemma SharesFallShortPastTheLimit()
    ensures var holdings: seq<nat> := [5 * ONE];
            2 <= Sum(holdings) && Sum(Shares(holdings, Ratio(2, Sum(holdings)), 2)) == 1
  {
    var holdings: seq<nat> := [5 * ONE];
    assert holdings[1..] == [];
    assert Sum(holdings) == 5 * ONE;
    assert FromInt(2) * ONE * ONE / FromInt(5 * ONE) == 400_000_000_000_000_000;
    assert Ratio(2, 5 * ONE) == 0;
    PortionExact(5 * ONE, 0);
    assert Shares(holdings, 0, 2) == [1];
  }

  /** And then the last of two holders is asked for two units although it holds one. */
  lemma LastOveraskedPastTheLimit()
    ensures var holdings: seq<nat> := [7 * ONE, 1];
            3 <= Sum(holdings) && LastTakesRest(holdings, Ratio(3, Sum(holdings)), 3) == [1, 2]
  {
    var holdings: seq<nat> := [7 * ONE, 1];
    assert holdings[1..] == [1];
    assert holdings[1..][1..] == [];
    assert Sum(holdings[1..]) == 1;
    assert Sum(holdings) == 7 * ONE + 1;
    assert FromInt(3) * ONE * ONE / FromInt(7 * ONE + 1) == 428_571_428_571_428_571;
    assert Ratio(3, 7 * ONE + 1) == 0;
    PortionExact(7 * ONE, 0);
    assert LastTakesRest(holdings[1..], 0, 2) == [2];
  }
}
