/** What a tally decides, in the stake round and in the certifier round. */
module Decision {
  import opened Tally

  datatype Params = Params(quorum: real, threshold: real, veto: real)

  datatype Verdict = Passed | Rejected | Vetoed

  ghost predicate Fractions(params: Params) {
    0.0 <= params.quorum <= 1.0 && 0.0 <= params.threshold <= 1.0 && 0.0 <= params.veto <= 1.0
  }

  ghost predicate NonNegative(r: Results) {
    0.0 <= r.yes && 0.0 <= r.abstain && 0.0 <= r.no && 0.0 <= r.noWithVeto
  }

  /**
    The verdict of the stake round. The power that must reach the quorum is all that is bonded,
    or for shield claims what certified identities have bonded.
  */
  function StakeVerdict(r: Results, bonded: real, params: Params): Verdict
    requires NonNegative(r)
  {
    var total := r.Sum();
    if bonded == 0.0 then Rejected
    else if total / bonded < params.quorum then Rejected
    else if total - r.abstain == 0.0 then Rejected
    else if r.noWithVeto / total > params.veto then Vetoed
    else if r.yes / (total - r.abstain) > params.threshold then Passed
    else Rejected
  }

  /** The certifier round counts heads, and knows neither abstention nor veto. */
  predicate SecurityVerdict(r: Results, certifiers: nat, params: Params)
    requires NonNegative(r)
  {
    certifiers > 0 && r.Sum() / certifiers as real >= params.quorum && r.Sum() != 0.0 && r.yes / r.Sum() > params.threshold
  }

  lemma Grow(x: real, y: real, n: real)
    requires 0.0 <= x && 0.0 <= y <= n && 0.0 < n
    ensures y / n <= (y + x) / (n + x)
    ensures y / (n + x) <= y / n
  {
    var q := y / n;
    assert q * n == y;
    Quotient'(1.0, y, n);
    assert q * (n + x) == q * n + q * x;
    assert 0.0 <= q * x <= x;
    Quotient(q, y + x, n + x);
    assert q * (n + x) >= y;
    Quotient'(q, y, n + x);
  }

  lemma Larger(x: real, y: real, b: real)
    requires x < y && 0.0 < b
    ensures x * b < y * b
  {
  }

  lemma Quotient(q: real, a: real, b: real)
    requires 0.0 < b && q * b <= a
    ensures q <= a / b
  {
    assert a / b * b == a;
    if q > a / b {
      Larger(a / b, q, b);
    }
  }

  lemma Quotient'(q: real, a: real, b: real)
    requires 0.0 < b && q * b >= a
    ensures a / b <= q
  {
    assert a / b * b == a;
    if q < a / b {
      Larger(q, a / b, b);
    }
  }

  /** A fraction is above a bound exactly when its part is above that much of the whole. */
  lemma Above(a: real, b: real, q: real)
    requires 0.0 < b
    ensures a / b > q <==> a > q * b
    ensures a / b < q <==> a < q * b
  {
    if a > q * b {
      Quotient(q, a, b);
      assert a / b != q;
    } else {
      Quotient'(q, a, b);
    }
    if a < q * b {
      Quotient'(q, a, b);
      assert a / b != q;
    } else {
      Quotient(q, a, b);
    }
  }

  /** Enough of what is bonded has voted, and not all of it to abstain. */
  ghost predicate Deciding(r: Results, bonded: real, params: Params) {
    bonded > 0.0 && r.Sum() >= params.quorum * bonded && r.yes + r.no + r.noWithVeto > 0.0
  }

  /** Enough of all voters veto the proposal. */
  ghost predicate Vetoes(r: Results, bonded: real, params: Params) {
    Deciding(r, bonded, params) && r.noWithVeto > params.veto * r.Sum()
  }

  /** They do not, and enough of those who do not abstain are for it. */
  ghost predicate Approves(r: Results, bonded: real, params: Params) {
    && Deciding(r, bonded, params) && r.noWithVeto <= params.veto * r.Sum()
    && r.yes > params.threshold * (r.yes + r.no + r.noWithVeto)
  }

  /** What the verdict means, in the power behind each option. */
  lemma VerdictIff(r: Results, bonded: real, params: Params)
    requires NonNegative(r) && 0.0 <= bonded
    ensures StakeVerdict(r, bonded, params).Vetoed? <==> Vetoes(r, bonded, params)
    ensures StakeVerdict(r, bonded, params).Passed? <==> Approves(r, bonded, params)
  {
    var total := r.Sum();
    assert total - r.abstain == r.yes + r.no + r.noWithVeto;
    if bonded > 0.0 {
      Above(total, bonded, params.quorum);
    }
    if total - r.abstain > 0.0 {
      Above(r.noWithVeto, total, params.veto);
      Above(r.yes, total - r.abstain, params.threshold);
    }
  }

  /** The certifiers pass a proposal if enough of them vote and enough of those vote for it. */
  lemma SecurityIff(r: Results, certifiers: nat, params: Params)
    requires NonNegative(r)
    ensures SecurityVerdict(r, certifiers, params) <==>
              && certifiers > 0 && r.Sum() >= params.quorum * certifiers as real
              && r.Sum() > 0.0 && r.yes > params.threshold * r.Sum()
  {
    if certifiers > 0 {
      Above(r.Sum(), certifiers as real, params.quorum);
    }
    if r.Sum() > 0.0 {
      Above(r.yes, r.Sum(), params.threshold);
    }
  }

  /** Twenty for Yes and eighty for NoWithVeto of a hundred bonded: vetoed, not just rejected. */
  lemma VetoIsNoRejection()
    ensures StakeVerdict(Results(20.0, 0.0, 0.0, 80.0), 100.0, Params(0.334, 0.5, 0.334)).Vetoed?
  {
    VerdictIff(Results(20.0, 0.0, 0.0, 80.0), 100.0, Params(0.334, 0.5, 0.334));
  }

  /** More power for Yes never keeps a proposal from passing. */
  lemma MoreYesKeepsPassing(r: Results, bonded: real, params: Params, x: real)
    requires NonNegative(r) && 0.0 <= x && 0.0 < bonded
    requires StakeVerdict(r, bonded, params).Passed?
    ensures StakeVerdict(r.Plus(Yes, x), bonded, params).Passed?
  {
    var total, r' := r.Sum(), r.Plus(Yes, x);
    Quotient(total / bonded, total + x, bonded);
    Grow(x, r.noWithVeto, total);
    Grow(x, r.yes, total - r.abstain);
    assert r'.Sum() == total + x;
  }

  lemma ZeroQuotient(b: real)
    requires b != 0.0
    ensures 0.0 / b == 0.0
  {
  }

  /** More power for No can make a proposal pass, but only by reaching a missed quorum or by outweighing a veto. */
  lemma MoreNoPassesIff(r: Results, bonded: real, params: Params, x: real)
    requires NonNegative(r) && 0.0 <= x && 0.0 < bonded && Fractions(params)
    requires StakeVerdict(r.Plus(No, x), bonded, params).Passed?
    ensures r.Sum() > 0.0
    ensures StakeVerdict(r, bonded, params).Passed? <==> r.Sum() / bonded >= params.quorum && r.noWithVeto / r.Sum() <= params.veto
  {
    var total := r.Sum();
    assert r.Plus(No, x).Sum() == total + x;
    ZeroQuotient(total + x - r.abstain);
    Grow(x, r.yes, total - r.abstain);
  }

  /** Thirty-three of a hundred for Yes miss the quorum of 33.4 percent; two more for No make the proposal pass. */
  lemma NoVoteMakesItPass()
    ensures var params, r := Params(0.334, 0.5, 0.334), Results(33.0, 0.0, 0.0, 0.0);
            && StakeVerdict(r, 100.0, params).Rejected?
            && StakeVerdict(r.Plus(No, 2.0), 100.0, params).Passed?
  {
    var r := Results(33.0, 0.0, 0.0, 0.0).Plus(No, 2.0);
    assert r == Results(33.0, 0.0, 2.0, 0.0) && r.Sum() == 35.0;
    assert 33.0 / 100.0 == 0.33 && 35.0 / 100.0 == 0.35;
    assert 0.0 / 35.0 == 0.0;
    Quotient(0.6, 33.0, 35.0);
  }
}
