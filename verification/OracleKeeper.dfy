/** The keeper of operators, tasks and withdrawals: the store is updated in place. */
module OracleKeeper {
  import opened Split
  import opened Totals
  import opened WithdrawQueue
  import opened Bounty
  import opened Maturity
  import opened Oracle
  import opened BountyFate

  /** Adds up the answers of known operators. */
  method GatherAll(operators: map<Address, Operator>, responses: seq<Response>, start: int)
    returns (result: int, collateral: nat, lowest: nat)
    ensures Sums(result - start, collateral, lowest) == Gather(operators, responses)
  {
    result, collateral, lowest := start, 0, 0;
    for i := 0 to |responses|
      invariant Sums(result - start, collateral, lowest) == Gather(operators, responses[..i])
    {
      var r := responses[i];
      assert responses[..i + 1][..i] == responses[..i];
      if r.operator in operators {
        var amount := operators[r.operator].collateral;
        result := result + r.score * amount;
        collateral := collateral + amount;
        if r.score == 0 {
          lowest := lowest + amount;
        }
      }
    }
    assert responses[..|responses|] == responses;
  }

  /** Adds up the weights of the answers. */
  method TotalValidTaskCollateral(params: Params, result: int, operators: map<Address, Operator>, responses: seq<Response>) returns (total: nat)
    requires Sound(params)
    ensures total == Sum(Weights(params, result, operators, responses))
  {
    total := 0;
    ghost var weights := Weights(params, result, operators, responses);
    for i := 0 to |responses|
      invariant total + Sum(Weights(params, result, operators, responses[i..])) == Sum(weights)
    {
      var r := responses[i];
      assert responses[i..][0] == r && responses[i..][1..] == responses[i + 1..];
      total := total + Weight(params, result, operators, r);
    }
  }

  class Keeper {
    const params: Params
    var height: nat
    var operators: map<Address, Operator>
    var totalCollateral: int
    var withdraws: map<Due, nat>
    var tasks: map<nat, Task>
    var closing: map<int, seq<nat>>
    var balance: int

    ghost function View(): State
      reads this
    {
      State(height, operators, totalCollateral, withdraws, tasks, closing, balance)
    }

    constructor (params: Params, height: nat)
      requires Sound(params)
      ensures this.params == params && View() == Genesis(height) && Inv(params, View()) && Scheduled(View())
    {
      this.params, this.height := params, height;
      operators, totalCollateral, withdraws, tasks, closing, balance := map[], 0, map[], map[], map[], 0;
    }

    method NewOperator(a: Address, collateral: nat)
      requires Inv(params, View())
      modifies this
      ensures View() == CreateOperator(params, old(View()), a, collateral) && Inv(params, View())
    {
      CreateOperatorKeeps(params, View(), a, collateral);
      hide Inv;
      if a in operators || collateral < params.minimum {
        return;
      }
      operators := operators[a := Operator(collateral, 0)];
      totalCollateral := totalCollateral + collateral;
      balance := balance + collateral;
    }

    method StoreWithdraw(a: Address, amount: nat)
      modifies `withdraws
      ensures View() == CreateWithdraw(params, old(View()), a, amount)
    {
      withdraws := withdraws[Due(a, height + params.lockedIn) := amount];
    }

    /** Removes an operator; the account can always pay its rewards. */
    method DeleteOperator(a: Address) returns (paid: nat)
      requires Inv(params, View())
      modifies this
      ensures View() == RemoveOperator(params, old(View()), a) && Inv(params, View())
      ensures paid == (if a in old(operators) then old(operators[a]).rewards else 0) <= old(balance)
    {
      RemoveOperatorKeeps(params, View(), a);
      Covers(View());
      hide Inv;
      paid := 0;
      if a !in operators {
        return;
      }
      var o := operators[a];
      totalCollateral := totalCollateral - o.collateral;
      StoreWithdraw(a, o.collateral);
      paid := o.rewards;
      balance := balance - o.rewards;
      operators := operators - {a};
    }

    method IncreaseCollateral(a: Address, amount: nat)
      requires Inv(params, View())
      modifies this
      ensures View() == AddCollateral(old(View()), a, amount) && Inv(params, View())
    {
      AddCollateralKeeps(params, View(), a, amount);
      hide Inv;
      if a !in operators {
        return;
      }
      operators := operators[a := operators[a].(collateral := operators[a].collateral + amount)];
      totalCollateral := totalCollateral + amount;
      balance := balance + amount;
    }

    method DecreaseCollateral(a: Address, amount: nat)
      requires Inv(params, View())
      modifies this
      ensures View() == ReduceCollateral(params, old(View()), a, amount) && Inv(params, View())
    {
      ReduceCollateralKeeps(params, View(), a, amount);
      hide Inv;
      if a !in operators || operators[a].collateral < amount {
        return;
      }
      var left := operators[a].collateral - amount;
      if left < params.minimum {
        return;
      }
      operators := operators[a := operators[a].(collateral := left)];
      totalCollateral := totalCollateral - amount;
      StoreWithdraw(a, amount);
    }

    /** Pays an operator all its rewards, which the account always holds. */
    method WithdrawAllReward(a: Address) returns (paid: nat)
      requires Inv(params, View())
      modifies this
      ensures View() == WithdrawRewards(old(View()), a) && Inv(params, View())
      ensures paid == (if a in old(operators) then old(operators[a]).rewards else 0) <= old(balance)
    {
      WithdrawRewardsKeeps(params, View(), a);
      Covers(View());
      hide Inv;
      paid := 0;
      if a !in operators {
        return;
      }
      paid := operators[a].rewards;
      balance := balance - paid;
      operators := operators[a := operators[a].(rewards := 0)];
    }

    method NewTask(id: nat, bounty: nat, waiting: int)
      requires Inv(params, View())
      modifies this
      ensures View() == CreateTask(old(View()), id, bounty, waiting) && Inv(params, View())
    {
      CreateTaskKeeps(params, View(), id, bounty, waiting);
      hide Inv;
      if id in tasks && tasks[id].closing > height {
        return;
      }
      var end := height + waiting;
      tasks := tasks[id := Task(bounty, end, Pending, [], 0)];
      closing := closing[end := (if end in closing then closing[end] else []) + [id]];
      balance := balance + bounty;
    }

    /** Whether an answer is valid: in time, the operator's first, and a score. */
    method IsValidResponse(task: Task, a: Address, score: int) returns (ok: bool)
      ensures ok <==> height <= task.closing && 0 <= score <= MAX_SCORE && forall r :: r in task.responses ==> r.operator != a
    {
      if height > task.closing {
        return false;
      }
      for i := 0 to |task.responses|
        invariant forall r :: r in task.responses[..i] ==> r.operator != a
      {
        assert task.responses[i] in task.responses;
        if task.responses[i].operator == a {
          return false;
        }
        assert task.responses[..i + 1] == task.responses[..i] + [task.responses[i]];
      }
      assert task.responses[..|task.responses|] == task.responses;
      return 0 <= score <= MAX_SCORE;
    }

    method RespondToTask(id: nat, a: Address, score: int) returns (ok: bool)
      requires Inv(params, View())
      modifies this
      ensures View() == Respond(old(View()), id, a, score) && Inv(params, View())
      ensures ok <==> Answerable(old(View()), id, a, score)
    {
      RespondKeeps(params, View(), id, a, score);
      hide Inv;
      if a !in operators || id !in tasks {
        return false;
      }
      ok := IsValidResponse(tasks[id], a, score);
      if ok {
        tasks := tasks[id := tasks[id].(responses := tasks[id].responses + [Response(a, score)])];
      }
    }

    /** Settles the result of a pending task. */
    method Aggregate(id: nat) returns (ok: bool)
      modifies `tasks
      ensures ok <==> id in old(tasks) && old(tasks[id]).status.Pending?
      ensures View() == if ok then old(View()).(tasks := old(tasks)[id := Aggregated(params, operators, old(tasks[id]))]) else old(View())
    {
      if id !in tasks || !tasks[id].status.Pending? {
        return false;
      }
      var task := tasks[id];
      var result, collateral, lowest := GatherAll(operators, task.responses, params.aggregation);
      hide Gather;
      if collateral > 0 {
        if 3 * lowest >= collateral {
          result := lowest;
        } else {
          result := Quo(result, collateral);
        }
        task := task.(status := Succeeded);
      } else {
        task := task.(status := Failed);
      }
      tasks := tasks[id := task.(result := result)];
      return true;
    }

    /** Credits each answer its part of the bounty. */
    method DistributeBounty(task: Task)
      requires Sound(params)
      modifies `operators
      ensures operators == Distribute(params, old(operators), task)
    {
      var total := TotalValidTaskCollateral(params, task.result, operators, task.responses);
      if total == 0 {
        return;
      }
      CreditAnswers(task, total);
    }

    method CreditAnswers(task: Task, total: nat)
      requires Sound(params) && total > 0
      modifies `operators
      ensures operators == CreditAll(old(operators), task.responses,
                                     Awards(task.bounty, Weights(params, task.result, old(operators), task.responses), total))
    {
      ghost var weights := Weights(params, task.result, operators, task.responses);
      ghost var awards := Awards(task.bounty, weights, total);
      ghost var after := CreditAll(operators, task.responses, awards);
      for i := 0 to |task.responses|
        invariant CreditAll(operators, task.responses[i..], awards[i..]) == after
        invariant SameCollateral(old(operators), operators)
      {
        var r := task.responses[i];
        assert task.responses[i..][1..] == task.responses[i + 1..] && awards[i..][1..] == awards[i + 1..];
        AwardAt(params, task, old(operators), total, i);
        WeightSame(params, task.result, old(operators), operators, r);
        hide Weight, Weights, Awards;
        var weight := Weight(params, task.result, operators, r);
        if r.operator in operators {
          operators := operators[r.operator := operators[r.operator].(rewards := operators[r.operator].rewards + task.bounty * weight / total)];
        }
      }
    }

    method CloseTask(id: nat)
      requires Inv(params, View()) && Sound(params)
      modifies this
      ensures View() == Close(params, old(View()), id) && Inv(params, View())
    {
      CloseKeeps(params, View(), id);
      hide Inv, Distribute, Aggregated;
      var ok := Aggregate(id);
      if !ok {
        return;
      }
      DistributeBounty(tasks[id]);
    }

    /** The end of a block closes the tasks listed for it. */
    method EndBlocker()
      requires Inv(params, View()) && Sound(params)
      modifies this
      ensures View() == EndBlock(params, old(View())) && Inv(params, View())
    {
      CloseAllKeeps(params, View(), ClosingNow(View()));
      var ids := if height in closing then closing[height] else [];
      CloseTasks(ids);
      closing := closing - {height};
    }

    method CloseTasks(ids: seq<nat>)
      requires Inv(params, View()) && Sound(params)
      modifies this
      ensures View() == CloseAll(params, old(View()), ids) && Inv(params, View())
      ensures height == old(height)
    {
      hide Inv, Close;
      ghost var after := CloseAll(params, View(), ids);
      CloseAllLists(params, View(), ids);
      for i := 0 to |ids|
        invariant Inv(params, View())
        invariant CloseAll(params, View(), ids[i..]) == after
      {
        assert ids[i..][1..] == ids[i + 1..];
        CloseTask(ids[i]);
      }
    }

    /** The withdrawals whose keys come no later than that of the height. */
    method IterateMatureWithdraws() returns (mature: seq<Due>)
      ensures ListsMature(View(), mature)
    {
      hide Mature;
      var keys := withdraws.Keys;
      mature := [];
      while keys != {}
        invariant keys <= withdraws.Keys
        invariant forall d :: d in mature <==> d in withdraws && d !in keys && Mature(d.block, height)
        decreases |keys|
      {
        var d :| d in keys;
        if Mature(d.block, height) {
          mature := mature + [d];
        }
        keys := keys - {d};
      }
    }

    /** Pays the withdrawals that are mature, and no others; the panic on a failed transfer is unreachable. */
    method FinalizeMatureWithdraws() returns (ghost mature: seq<Due>)
      requires Inv(params, View())
      modifies this
      ensures ListsMature(old(View()), mature) && PayAll(old(View()), mature) == Ok(View()) && Inv(params, View())
      ensures withdraws == map d | d in old(withdraws) && !Mature(d.block, height) :: old(withdraws)[d]
    {
      var keys := IterateMatureWithdraws();
      mature := keys;
      PayWithdraws(keys);
      hide Inv, PayAll, Mature;
      PayAllPays(old(View()), mature);
      PayAllLeaves(old(View()), mature);
    }

    method PayWithdraws(mature: seq<Due>)
      requires Inv(params, View())
      modifies this
      ensures PayAll(old(View()), mature) == Ok(View()) && Inv(params, View())
    {
      PayAllKeeps(params, View(), mature);
      ghost var after := PayAll(View(), mature);
      for i := 0 to |mature|
        invariant Owed(View()) <= balance
        invariant PayAll(View(), mature[i..]) == after
      {
        var d := mature[i];
        assert mature[i..][1..] == mature[i + 1..];
        Covers(View());
        if d in withdraws {
          TotalDelete(withdraws, Withdrawn, d);
          hide Total;
          if balance < withdraws[d] {
            assert false;
          }
          balance := balance - withdraws[d];
          withdraws := withdraws - {d};
        }
      }
    }
  }

  lemma AwardAt(params: Params, task: Task, operators: map<Address, Operator>, total: nat, i: nat)
    requires Sound(params) && total > 0 && i < |task.responses|
    ensures Awards(task.bounty, Weights(params, task.result, operators, task.responses), total)[i]
         == task.bounty * Weight(params, task.result, operators, task.responses[i]) / total
  {
    WeightsAt(params, task.result, operators, task.responses, i);
    AwardsAt(task.bounty, Weights(params, task.result, operators, task.responses), total, i);
  }
}
