/** How the bounty of a task is divided among the operators who answered it. */
module Bounty {
  import opened Dec
  import opened Split
  import opened Totals
  import opened WithdrawQueue

  const MAX_SCORE: int := 100
  const AMPLIFIER: int := 1_000_000

  datatype Operator = Operator(collateral: nat, rewards: nat)

  type Score = x: int | 0 <= x <= MAX_SCORE

  datatype Response = Response(operator: Address, score: Score)

  datatype Params = Params(aggregation: int, threshold: int, epsilon1: nat, epsilon2: nat, minimum: nat, lockedIn: nat)

  /** No divisor is zero, and no operator is without collateral. */
  ghost predicate Sound(params: Params) {
    0 < params.epsilon1 && 0 < params.epsilon2 && 0 < params.minimum
  }

  /** The weight of an answer: none unless it agrees with the result, more the further it is on that side. */
  function Weight(params: Params, result: int, operators: map<Address, Operator>, r: Response): nat
    requires Sound(params)
  {
    if r.operator !in operators then 0 else
    var collateral := operators[r.operator].collateral;
    if result == 0 then
      if r.score == 0 then collateral else 0
    else if result < params.threshold then
      if r.score < params.threshold then AMPLIFIER * collateral / (r.score + params.epsilon1) else 0
    else
      if r.score >= params.threshold then AMPLIFIER * collateral / (MAX_SCORE - r.score + params.epsilon2) else 0
  }

  function Weights(params: Params, result: int, operators: map<Address, Operator>, responses: seq<Response>): (ws: seq<nat>)
    requires Sound(params)
    ensures |ws| == |responses|
  {
    if responses == [] then [] else
    [Weight(params, result, operators, responses[0])] + Weights(params, result, operators, responses[1..])
  }

  function Award(bounty: nat, weight: nat, total: nat): nat
    requires total > 0
  {
    bounty * weight / total
  }

  function Awards(bounty: nat, weights: seq<nat>, total: nat): (awards: seq<nat>)
    requires total > 0
    ensures |awards| == |weights|
  {
    if weights == [] then [] else [Award(bounty, weights[0], total)] + Awards(bounty, weights[1..], total)
  }

  /** How many answers have weight. */
  function Weighted(weights: seq<nat>): nat {
    if weights == [] then 0 else (if weights[0] > 0 then 1 else 0) + Weighted(weights[1..])
  }

  lemma AwardBounds(bounty: nat, weight: nat, total: nat)
    requires total > 0
    ensures Award(bounty, weight, total) * total <= bounty * weight
    ensures weight > 0 ==> bounty * weight < Award(bounty, weight, total) * total + total
    ensures weight == 0 ==> Award(bounty, weight, total) == 0
  {
    var x := bounty * weight;
    assert x == x / total * total + x % total;
  }

  lemma {:induction false} AwardsSum(bounty: nat, weights: seq<nat>, total: nat)
    requires total > 0
    ensures Sum(Awards(bounty, weights, total)) * total <= bounty * Sum(weights)
    ensures bounty * Sum(weights) <= Sum(Awards(bounty, weights, total)) * total + Weighted(weights) * total
    ensures Weighted(weights) > 0 ==> bounty * Sum(weights) < Sum(Awards(bounty, weights, total)) * total + Weighted(weights) * total
  {
    if weights != [] {
      var rest := weights[1..];
      AwardsSum(bounty, rest, total);
      AwardBounds(bounty, weights[0], total);
      AwardsStep(bounty, weights[0], Sum(rest), Award(bounty, weights[0], total), Sum(Awards(bounty, rest, total)), Weighted(rest), total);
      assert Sum(Awards(bounty, weights, total)) == Award(bounty, weights[0], total) + Sum(Awards(bounty, rest, total));
      hide Award;
    }
  }

  lemma AwardsStep(bounty: nat, weight: nat, weights: nat, award: nat, awards: nat, n: nat, total: nat)
    requires award * total <= bounty * weight && (weight > 0 ==> bounty * weight < award * total + total) && (weight == 0 ==> award == 0)
    requires awards * total <= bounty * weights <= awards * total + n * total
    requires n > 0 ==> bounty * weights < awards * total + n * total
    ensures var n' := n + if weight > 0 then 1 else 0;
            && (award + awards) * total <= bounty * (weight + weights) <= (award + awards) * total + n' * total
            && (n' > 0 ==> bounty * (weight + weights) < (award + awards) * total + n' * total)
  {
    assert bounty * (weight + weights) == bounty * weight + bounty * weights;
    assert (award + awards) * total == award * total + awards * total;
    assert (n + 1) * total == n * total + total;
  }

  /** A distribution pays at most the bounty, and leaves fewer units than answers with weight. */
  lemma AwardsWithin(bounty: nat, weights: seq<nat>)
    requires Sum(weights) > 0
    ensures var paid := Sum(Awards(bounty, weights, Sum(weights)));
            paid <= bounty < paid + Weighted(weights)
  {
    var total := Sum(weights);
    var paid, n := Sum(Awards(bounty, weights, total)), Weighted(weights);
    AwardsSum(bounty, weights, total);
    SomeWeighted(weights);
    hide Awards, Sum, Weighted;
    Cancel(paid, bounty, n, total);
  }

  lemma {:induction false} SomeWeighted(weights: seq<nat>)
    requires Sum(weights) > 0
    ensures Weighted(weights) > 0
  {
    if weights[0] == 0 {
      SomeWeighted(weights[1..]);
    }
  }

  lemma Cancel(paid: nat, bounty: nat, n: nat, total: nat)
    requires total > 0 && paid * total <= bounty * total < paid * total + n * total
    ensures paid <= bounty < paid + n
  {
    if paid > bounty {
      Scale(bounty + 1, paid, total);
    }
    if bounty >= paid + n {
      Scale(paid + n, bounty, total);
    }
  }

  // ----- Crediting the awards -----

  ghost function CollateralOf(a: Address, o: Operator): int {
    o.collateral
  }

  ghost function RewardsOf(a: Address, o: Operator): int {
    o.rewards
  }

  function Credit(operators: map<Address, Operator>, a: Address, amount: nat): map<Address, Operator> {
    if a !in operators then operators else operators[a := operators[a].(rewards := operators[a].rewards + amount)]
  }

  function CreditAll(operators: map<Address, Operator>, responses: seq<Response>, awards: seq<nat>): map<Address, Operator>
    requires |responses| == |awards|
    decreases |responses|
  {
    if responses == [] then operators
    else CreditAll(Credit(operators, responses[0].operator, awards[0]), responses[1..], awards[1..])
  }

  /** Crediting changes no collateral, and adds no more than the awards. */
  lemma {:induction false} CreditAllKeeps(operators: map<Address, Operator>, responses: seq<Response>, awards: seq<nat>)
    requires |responses| == |awards|
    ensures var credited := CreditAll(operators, responses, awards);
            && credited.Keys == operators.Keys
            && (forall a :: a in operators ==> credited[a].collateral == operators[a].collateral && credited[a].rewards >= operators[a].rewards)
            && Total(credited, CollateralOf) == Total(operators, CollateralOf)
            && Total(credited, RewardsOf) <= Total(operators, RewardsOf) + Sum(awards)
    decreases |responses|
  {
    if responses != [] {
      var a, next := responses[0].operator, Credit(operators, responses[0].operator, awards[0]);
      if a in operators {
        TotalUpdate(operators, CollateralOf, a, next[a]);
        TotalUpdate(operators, RewardsOf, a, next[a]);
      }
      CreditAllKeeps(next, responses[1..], awards[1..]);
    }
  }

  /** Awards only to those who are there are credited in full. */
  lemma {:induction false} CreditAllExact(operators: map<Address, Operator>, responses: seq<Response>, awards: seq<nat>)
    requires |responses| == |awards| && forall i :: 0 <= i < |responses| && responses[i].operator !in operators ==> awards[i] == 0
    ensures Total(CreditAll(operators, responses, awards), RewardsOf) == Total(operators, RewardsOf) + Sum(awards)
    decreases |responses|
  {
    if responses != [] {
      var a, next := responses[0].operator, Credit(operators, responses[0].operator, awards[0]);
      if a in operators {
        TotalUpdate(operators, RewardsOf, a, next[a]);
      }
      CreditAllExact(next, responses[1..], awards[1..]);
    }
  }

  /** An operator all of whose awards are nothing is left as it was. */
  lemma {:induction false} CreditNothing(operators: map<Address, Operator>, responses: seq<Response>, awards: seq<nat>, a: Address)
    requires |responses| == |awards| && a in operators
    requires forall i :: 0 <= i < |responses| && responses[i].operator == a ==> awards[i] == 0
    ensures var credited := CreditAll(operators, responses, awards); a in credited && credited[a] == operators[a]
    decreases |responses|
  {
    if responses != [] {
      CreditNothing(Credit(operators, responses[0].operator, awards[0]), responses[1..], awards[1..], a);
    }
  }

  lemma {:induction false} WeightsAt(params: Params, result: int, operators: map<Address, Operator>, responses: seq<Response>, i: nat)
    requires Sound(params) && i < |responses|
    ensures Weights(params, result, operators, responses)[i] == Weight(params, result, operators, responses[i])
  {
    if i > 0 {
      hide Weight;
      WeightsAt(params, result, operators, responses[1..], i - 1);
    }
  }

  lemma {:induction false} AwardsAt(bounty: nat, weights: seq<nat>, total: nat, i: nat)
    requires total > 0 && i < |weights|
    ensures Awards(bounty, weights, total)[i] == Award(bounty, weights[i], total)
  {
    if i > 0 {
      hide Award;
      AwardsAt(bounty, weights[1..], total, i - 1);
    }
  }

  // ----- Aggregation -----

  /** Over the answers of known operators: scores times collateral, collateral, and the collateral behind the lowest score. */
  datatype Sums = Sums(scores: int, collateral: nat, lowest: nat)

  function Gather(operators: map<Address, Operator>, responses: seq<Response>): Sums {
    if responses == [] then Sums(0, 0, 0) else
    var sums, r := Gather(operators, responses[..|responses| - 1]), responses[|responses| - 1];
    if r.operator !in operators then sums else
    var collateral := operators[r.operator].collateral;
    Sums(sums.scores + r.score * collateral, sums.collateral + collateral, sums.lowest + if r.score == 0 then collateral else 0)
  }

  /** Division that rounds towards zero. */
  function Quo(x: int, y: nat): int
    requires y > 0
  {
    if x >= 0 then x / y else -(-x / y)
  }

  /** The result of a task; with a third of the collateral on the lowest score, that collateral itself. */
  function Result(params: Params, sums: Sums): int {
    if sums.collateral == 0 then params.aggregation + sums.scores
    else if 3 * sums.lowest >= sums.collateral then sums.lowest
    else Quo(params.aggregation + sums.scores, sums.collateral)
  }

  /** A third of the collateral is on the lowest score. */
  predicate LowestWins(sums: Sums) {
    0 < sums.collateral <= 3 * sums.lowest
  }

  /**
    When the lowest score wins, an answer that gave it has no weight exactly when the collateral
    behind the lowest score reaches the threshold for scores, the two being compared; or when its
    own collateral is too small to count.
  */
  lemma LowestUnpaidIff(params: Params, operators: map<Address, Operator>, responses: seq<Response>, r: Response)
    requires Sound(params) && r.score == 0 && r.operator in operators && LowestWins(Gather(operators, responses))
    ensures var lowest, amplified := Gather(operators, responses).lowest, AMPLIFIER * operators[r.operator].collateral;
            Weight(params, Result(params, Gather(operators, responses)), operators, r) == 0 <==>
              if lowest < params.threshold then amplified < params.epsilon1
              else 0 < params.threshold || amplified < MAX_SCORE + params.epsilon2
  {
    var amplified: nat := AMPLIFIER * operators[r.operator].collateral;
    NoQuotient(amplified, params.epsilon1);
    NoQuotient(amplified, MAX_SCORE + params.epsilon2);
  }

  lemma NoQuotient(x: nat, y: nat)
    requires y > 0
    ensures x / y == 0 <==> x < y
  {
    DivBounds(x, y);
  }

  /** Otherwise the result is an average of scores, moved by the starting value. */
  lemma ResultIsAverage(params: Params, operators: map<Address, Operator>, responses: seq<Response>)
    requires 0 <= params.aggregation
    requires var sums := Gather(operators, responses); 3 * sums.lowest < sums.collateral
    ensures var sums := Gather(operators, responses);
            0 <= Result(params, sums) <= MAX_SCORE + params.aggregation / sums.collateral
  {
    var sums := Gather(operators, responses);
    ScoresBounded(operators, responses);
    hide Gather, Quo;
    AverageBounds(params.aggregation, sums.scores, sums.collateral);
  }

  lemma {:induction false} ScoresBounded(operators: map<Address, Operator>, responses: seq<Response>)
    ensures var sums := Gather(operators, responses); 0 <= sums.scores <= MAX_SCORE * sums.collateral
  {
    if responses != [] {
      var front, r := responses[..|responses| - 1], responses[|responses| - 1];
      ScoresBounded(operators, front);
      if r.operator in operators {
        ScoreBounds(r.score, operators[r.operator].collateral);
      }
    }
  }

  lemma ScoreBounds(score: Score, collateral: nat)
    ensures 0 <= score * collateral <= MAX_SCORE * collateral
  {
  }

  lemma AverageBounds(start: nat, scores: nat, collateral: nat)
    requires collateral > 0 && scores <= MAX_SCORE * collateral
    ensures 0 <= Quo(start + scores, collateral) <= MAX_SCORE + start / collateral
  {
    var q, bound := (start + scores) / collateral, MAX_SCORE + start / collateral;
    DivBounds(start + scores, collateral);
    DivBounds(start, collateral);
    if q > bound {
      Scale(bound + 1, q, collateral);
    }
  }
}
