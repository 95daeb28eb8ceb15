/** What the result of a task says about the answers to it, and what each answer earns. */
module Aggregation {
  import opened Dec
  import opened Split
  import opened WithdrawQueue
  import opened Bounty
  import opened Oracle

  // ----- Sums over the answers of known operators -----

  function Backing(operators: map<Address, Operator>, r: Response): nat {
    if r.operator in operators then operators[r.operator].collateral else 0
  }

  function Scores(operators: map<Address, Operator>, responses: seq<Response>): int {
    if responses == [] then 0 else responses[0].score * Backing(operators, responses[0]) + Scores(operators, responses[1..])
  }

  function Backed(operators: map<Address, Operator>, responses: seq<Response>): nat {
    if responses == [] then 0 else Backing(operators, responses[0]) + Backed(operators, responses[1..])
  }

  function BackedLowest(operators: map<Address, Operator>, responses: seq<Response>): nat {
    if responses == [] then 0
    else (if responses[0].score == 0 then Backing(operators, responses[0]) else 0) + BackedLowest(operators, responses[1..])
  }

  lemma {:induction false} SumsAppend(operators: map<Address, Operator>, responses: seq<Response>, r: Response)
    ensures var all, backing := responses + [r], Backing(operators, r);
            && Scores(operators, all) == Scores(operators, responses) + r.score * backing
            && Backed(operators, all) == Backed(operators, responses) + backing
            && BackedLowest(operators, all) == BackedLowest(operators, responses) + if r.score == 0 then backing else 0
  {
    hide Backing;
    var all := responses + [r];
    if responses != [] {
      SumsAppend(operators, responses[1..], r);
      assert all[1..] == responses[1..] + [r];
    } else {
      assert all[1..] == [];
    }
  }

  lemma {:induction false} GatherSums(operators: map<Address, Operator>, responses: seq<Response>)
    ensures Gather(operators, responses) == Sums(Scores(operators, responses), Backed(operators, responses), BackedLowest(operators, responses))
  {
    if responses != [] {
      var front, r := responses[..|responses| - 1], responses[|responses| - 1];
      GatherSums(operators, front);
      assert front + [r] == responses;
      SumsAppend(operators, front, r);
    }
  }

  // ----- The result -----

  /** A quotient rounded towards zero: off by less than the divisor, and never away from zero. */
  ghost predicate Average(result: int, sum: int, backed: nat) {
    if sum >= 0 then result * backed <= sum < result * backed + backed
    else result * backed - backed < sum <= result * backed
  }

  /**
    A task succeeds exactly if collateral is behind its answers. Its result is then the average
    score, weighted by collateral and moved by the starting value; unless a third of the
    collateral is behind the lowest score, when it is that collateral.
  */
  lemma AggregatedIs(params: Params, operators: map<Address, Operator>, task: Task)
    ensures var backed, lowest := Backed(operators, task.responses), BackedLowest(operators, task.responses);
            var task' := Aggregated(params, operators, task);
            && task' == task.(status := task'.status, result := task'.result)
            && task'.status == (if backed > 0 then Succeeded else Failed)
            && (backed == 0 ==> task'.result == params.aggregation)
            && (0 < backed <= 3 * lowest ==> task'.result == lowest)
            && (3 * lowest < backed ==> Average(task'.result, params.aggregation + Scores(operators, task.responses), backed))
  {
    GatherSums(operators, task.responses);
    ScoresBounded(operators, task.responses);
    hide Gather, Scores, Backed, BackedLowest;
    var sums := Gather(operators, task.responses);
    if 3 * sums.lowest < sums.collateral {
      QuoIsAverage(params.aggregation + sums.scores, sums.collateral);
    }
    hide Bounty.Quo, Average;
  }

  lemma QuoIsAverage(sum: int, backed: nat)
    requires backed > 0
    ensures Average(Bounty.Quo(sum, backed), sum, backed)
  {
    var up: nat := if sum >= 0 then sum else -sum;
    var q := up / backed;
    DivBounds(up, backed);
    assert -q * backed == -(q * backed);
  }

  /** All known operators answered within these bounds. */
  ghost predicate Within(operators: map<Address, Operator>, responses: seq<Response>, low: int, high: int) {
    forall r :: r in responses && r.operator in operators ==> low <= r.score <= high
  }

  lemma {:induction false} ScoresWithin(operators: map<Address, Operator>, responses: seq<Response>, low: int, high: int)
    requires Within(operators, responses, low, high)
    ensures low * Backed(operators, responses) <= Scores(operators, responses) <= high * Backed(operators, responses)
  {
    if responses != [] {
      var r, rest := responses[0], responses[1..];
      ScoresWithin(operators, rest, low, high);
      WeightedWithin(r.score, Backing(operators, r), low, high, Backed(operators, rest));
      hide Backing;
    }
  }

  lemma WeightedWithin(score: int, backing: nat, low: int, high: int, backed: nat)
    requires backing > 0 ==> low <= score <= high
    ensures low * (backing + backed) <= score * backing + low * backed
    ensures score * backing + high * backed <= high * (backing + backed)
  {
    if backing > 0 {
      Scale(low, score, backing);
      Scale(score, high, backing);
    }
    assert low * (backing + backed) == low * backing + low * backed;
    assert high * (backing + backed) == high * backing + high * backed;
  }

  /** With no starting value, the result lies where the scores of the known operators do. */
  lemma ResultWithin(params: Params, operators: map<Address, Operator>, task: Task, low: nat, high: nat)
    requires params.aggregation == 0 && Within(operators, task.responses, low, high)
    requires 3 * BackedLowest(operators, task.responses) < Backed(operators, task.responses)
    ensures low <= Aggregated(params, operators, task).result <= high
  {
    AggregatedIs(params, operators, task);
    ScoresWithin(operators, task.responses, low, high);
    hide Aggregated, Scores, Backed, BackedLowest, Within, Average;
    AverageWithin(Aggregated(params, operators, task).result, Scores(operators, task.responses), Backed(operators, task.responses), low, high);
  }

  lemma AverageWithin(result: int, sum: int, backed: nat, low: nat, high: nat)
    requires backed > 0 && Average(result, sum, backed) && low * backed <= sum <= high * backed
    ensures low <= result <= high
  {
    if result < low {
      Scale(result + 1, low, backed);
    }
    if result > high {
      Scale(high + 1, result, backed);
    }
  }

  lemma {:induction false} NoneLowest(operators: map<Address, Operator>, responses: seq<Response>)
    requires forall r :: r in responses && r.operator in operators ==> r.score != 0
    ensures BackedLowest(operators, responses) == 0
  {
    if responses != [] {
      NoneLowest(operators, responses[1..]);
    }
  }

  /** When all known operators give the same score, not the lowest, and have collateral, that score is the result. */
  lemma UnanimousIsResult(params: Params, operators: map<Address, Operator>, task: Task, score: Score)
    requires params.aggregation == 0 && score != 0 && Backed(operators, task.responses) > 0
    requires forall r :: r in task.responses && r.operator in operators ==> r.score == score
    ensures Aggregated(params, operators, task).result == score
  {
    hide Aggregated, Backed, BackedLowest;
    NoneLowest(operators, task.responses);
    ResultWithin(params, operators, task, score, score);
  }

  /** One operator with ten coins answers 80: so does the task. */
  lemma OneAnswer(params: Params, task: Task)
    requires params.aggregation == 0 && task.responses == [Response(1, 80)]
    ensures Aggregated(params, map[1 := Operator(10, 0)], task).result == 80
  {
    var operators := map[1 := Operator(10, 0)];
    assert task.responses[1..] == [];
    assert Backed(operators, task.responses) == 10;
    UnanimousIsResult(params, operators, task, 80);
  }

  // ----- What an answer weighs -----

  /** An answer is on the side of the result. */
  predicate Agrees(params: Params, result: int, score: Score) {
    if result == 0 then score == 0 else score < params.threshold <==> result < params.threshold
  }

  /** How far an answer is from the end of the scale on the side of the result, as far as it counts. */
  function Distance(params: Params, result: int, score: Score): nat
    requires Sound(params)
  {
    if result < params.threshold then score + params.epsilon1 else MAX_SCORE - score + params.epsilon2
  }

  /** An answer weighs something only if a known operator gave it and it agrees; then its weight times its distance is the collateral amplified. */
  lemma WeightIs(params: Params, result: int, operators: map<Address, Operator>, r: Response)
    requires Sound(params)
    ensures var weight, backing, distance := Weight(params, result, operators, r), Backing(operators, r), Distance(params, result, r.score);
            && (r.operator !in operators || !Agrees(params, result, r.score) ==> weight == 0)
            && (Agrees(params, result, r.score) && result == 0 ==> weight == backing)
            && (Agrees(params, result, r.score) && result != 0 ==> weight * distance <= AMPLIFIER * backing < weight * distance + distance)
  {
    if r.operator in operators && Agrees(params, result, r.score) && result != 0 {
      DivBounds(AMPLIFIER * Backing(operators, r), Distance(params, result, r.score));
    }
  }

  /** Of two answers on the side of the result, the one nearer the end of the scale with no less collateral weighs no less. */
  lemma NearerWeighsMore(params: Params, result: int, operators: map<Address, Operator>, r: Response, r': Response)
    requires Sound(params) && Agrees(params, result, r.score) && Agrees(params, result, r'.score)
    requires Distance(params, result, r'.score) <= Distance(params, result, r.score) && Backing(operators, r) <= Backing(operators, r')
    ensures Weight(params, result, operators, r) <= Weight(params, result, operators, r')
  {
    WeightIs(params, result, operators, r);
    WeightIs(params, result, operators, r');
    hide Weight, Agrees;
    if result != 0 {
      QuotientGrows(Weight(params, result, operators, r), Weight(params, result, operators, r'), AMPLIFIER * Backing(operators, r),
                    AMPLIFIER * Backing(operators, r'), Distance(params, result, r.score), Distance(params, result, r'.score));
    }
  }

  lemma QuotientGrows(q: nat, q': nat, x: nat, x': nat, d: nat, d': nat)
    requires d' <= d && x <= x' && q * d <= x && x' < q' * d' + d'
    ensures q <= q'
  {
    if q > q' {
      Scale(q' + 1, q, d);
      Scale(d', d, q' + 1);
    }
  }

  // ----- What an answer earns -----

  /** The awards for the answers of one operator. */
  function AwardsTo(responses: seq<Response>, awards: seq<nat>, a: Address): nat
    requires |responses| == |awards|
  {
    if responses == [] then 0
    else (if responses[0].operator == a then awards[0] else 0) + AwardsTo(responses[1..], awards[1..], a)
  }

  /** Each operator is credited its own awards. */
  lemma {:induction false} CreditedOwn(operators: map<Address, Operator>, responses: seq<Response>, awards: seq<nat>, a: Address)
    requires |responses| == |awards| && a in operators
    ensures var credited := CreditAll(operators, responses, awards);
            a in credited && credited[a].rewards == operators[a].rewards + AwardsTo(responses, awards, a)
    decreases |responses|
  {
    if responses != [] {
      CreditedOwn(Credit(operators, responses[0].operator, awards[0]), responses[1..], awards[1..], a);
    }
  }

  lemma {:induction false} AwardsToOne(responses: seq<Response>, awards: seq<nat>, i: nat)
    requires |responses| == |awards| && i < |responses|
    requires forall j, k :: 0 <= j < k < |responses| ==> responses[j].operator != responses[k].operator
    ensures AwardsTo(responses, awards, responses[i].operator) == awards[i]
  {
    if i > 0 {
      AwardsToOne(responses[1..], awards[1..], i - 1);
    } else {
      AwardsToNone(responses[1..], awards[1..], responses[0].operator);
    }
  }

  lemma {:induction false} AwardsToNone(responses: seq<Response>, awards: seq<nat>, a: Address)
    requires |responses| == |awards| && forall r :: r in responses ==> r.operator != a
    ensures AwardsTo(responses, awards, a) == 0
  {
    if responses != [] {
      assert responses[0] in responses;
      AwardsToNone(responses[1..], awards[1..], a);
    }
  }

  /**
    When a bounty is distributed among different operators, each one's rewards grow by that share
    of the bounty which the weight of its answer is of all weights, less than a unit short; those
    who did not answer get nothing.
  */
  lemma PaidByWeight(params: Params, operators: map<Address, Operator>, task: Task, a: Address)
    requires Sound(params) && a in operators
    requires forall j, k :: 0 <= j < k < |task.responses| ==> task.responses[j].operator != task.responses[k].operator
    ensures var paid, total := Distribute(params, operators, task), Sum(Weights(params, task.result, operators, task.responses));
            && a in paid && operators[a].rewards <= paid[a].rewards
            && ((total == 0 || forall r :: r in task.responses ==> r.operator != a) ==> paid[a] == operators[a])
            && forall i :: 0 <= i < |task.responses| && task.responses[i].operator == a && total > 0 ==>
                 var gained, weight := paid[a].rewards - operators[a].rewards, Weight(params, task.result, operators, task.responses[i]);
                 gained * total <= task.bounty * weight < gained * total + total
  {
    hide Weight, Award;
    var weights := Weights(params, task.result, operators, task.responses);
    var total := Sum(weights);
    if total > 0 {
      var awards := Awards(task.bounty, weights, total);
      CreditedOwn(operators, task.responses, awards, a);
      if forall r :: r in task.responses ==> r.operator != a {
        AwardsToNone(task.responses, awards, a);
        CreditAllKeeps(operators, task.responses, awards);
      } else {
        forall i | 0 <= i < |task.responses| && task.responses[i].operator == a
          ensures var gained, weight := AwardsTo(task.responses, awards, a), Weight(params, task.result, operators, task.responses[i]);
                  gained * total <= task.bounty * weight < gained * total + total
        {
          AwardsToOne(task.responses, awards, i);
          WeightsAt(params, task.result, operators, task.responses, i);
          AwardsAt(task.bounty, weights, total, i);
          AwardBounds(task.bounty, weights[i], total);
        }
      }
    }
  }
}
