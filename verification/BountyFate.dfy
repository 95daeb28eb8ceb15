/** What becomes of the bounty of a task: who is paid, and what nobody ever is. */
module BountyFate {
  import opened Split
  import opened Totals
  import opened WithdrawQueue
  import opened Bounty
  import opened Oracle

  /** Crediting rewards changes nobody's collateral. */
  ghost predicate SameCollateral(before: map<Address, Operator>, after: map<Address, Operator>) {
    before.Keys == after.Keys && forall a :: a in before ==> after[a].collateral == before[a].collateral
  }

  lemma WeightSame(params: Params, result: int, before: map<Address, Operator>, after: map<Address, Operator>, r: Response)
    requires Sound(params) && SameCollateral(before, after)
    ensures Weight(params, result, after, r) == Weight(params, result, before, r)
  {
  }

  /** What the account holds beyond its debts: nobody is ever paid it. */
  ghost function Surplus(s: State): int {
    s.balance - Owed(s)
  }

  /** The awards of a task, if it is closed now. */
  function AwardsOf(params: Params, operators: map<Address, Operator>, task: Task): (awards: seq<nat>)
    requires Sound(params)
  {
    var weights := Weights(params, task.result, operators, task.responses);
    if Sum(weights) == 0 then [] else Awards(task.bounty, weights, Sum(weights))
  }

  /** All awards reach the operators they are for. */
  lemma DistributeExact(params: Params, operators: map<Address, Operator>, task: Task)
    requires Sound(params)
    ensures Total(Distribute(params, operators, task), RewardsOf) == Total(operators, RewardsOf) + Sum(AwardsOf(params, operators, task))
    ensures Total(Distribute(params, operators, task), CollateralOf) == Total(operators, CollateralOf)
  {
    DistributeKeeps(params, operators, task);
    var weights := Weights(params, task.result, operators, task.responses);
    var total := Sum(weights);
    if total > 0 {
      var awards := Awards(task.bounty, weights, total);
      forall i | 0 <= i < |task.responses| && task.responses[i].operator !in operators
        ensures awards[i] == 0
      {
        WeightsAt(params, task.result, operators, task.responses, i);
        AwardsAt(task.bounty, weights, total, i);
        AwardBounds(task.bounty, weights[i], total);
      }
      CreditAllExact(operators, task.responses, awards);
    }
  }

  /** Closing a task pays its awards; what is left of the bounty is nobody's. */
  lemma CloseSurplus(params: Params, s: State, id: nat)
    requires Sound(params) && id in s.tasks && s.tasks[id].status.Pending?
    ensures var task := Aggregated(params, s.operators, s.tasks[id]);
            Surplus(Close(params, s, id)) == Surplus(s) + task.bounty - Sum(AwardsOf(params, s.operators, task))
  {
    var task := Aggregated(params, s.operators, s.tasks[id]);
    TotalUpdate(s.tasks, PendingBounty, id, task);
    DistributeExact(params, s.operators, task);
    hide Total, Distribute, AwardsOf;
  }

  /** A pending task is replaced, in the last block in which it can be answered. */
  predicate Replaceable(s: State, id: nat) {
    id in s.tasks && s.tasks[id].status.Pending? && s.tasks[id].closing == s.height
  }

  lemma CreateTaskSurplus(s: State, id: nat, bounty: nat, waiting: int)
    requires Scheduled(s)
    ensures Surplus(CreateTask(s, id, bounty, waiting)) == Surplus(s) + if Replaceable(s, id) then s.tasks[id].bounty else 0
  {
    TotalUpdate(s.tasks, PendingBounty, id, Task(bounty, s.height + waiting, Pending, [], 0));
  }

  /** A task replaced in its closing block is closed in its place at the end of that block, however long it was to wait. */
  lemma ReplacementClosed(params: Params, s: State, id: nat, bounty: nat, waiting: int)
    requires Inv(params, s) && Sound(params) && Scheduled(s) && Replaceable(s, id)
    ensures var s' := EndBlock(params, CreateTask(s, id, bounty, waiting)); id in s'.tasks && !s'.tasks[id].status.Pending?
  {
    var m := CreateTask(s, id, bounty, waiting);
    CreateTaskKeeps(params, s, id, bounty, waiting);
    assert id in ClosingNow(m);
    CloseAllKeeps(params, m, ClosingNow(m));
  }

  // ----- One step -----

  /** A task is still waiting for its end, perhaps with more answers. */
  ghost predicate Waits(task: Task, s: State, id: nat) {
    && id in s.tasks && s.tasks[id].status.Pending?
    && s.tasks[id].bounty == task.bounty && s.tasks[id].closing == task.closing && task.responses <= s.tasks[id].responses
  }

  /**
    A pending task is replaced, closed, or waits on. It is replaced exactly when it is asked for
    again in its closing block, and then its bounty is nobody's.
  */
  lemma TaskFate(params: Params, s: State, action: Action, id: nat)
    requires Inv(params, s) && Sound(params) && Scheduled(s) && id in s.tasks && s.tasks[id].status.Pending?
    ensures Step(params, s, action).Ok?
    ensures var s' := Step(params, s, action).state;
            if action.Ask? && action.id == id && Replaceable(s, id) then
              s'.tasks[id] == Task(action.bounty, s.height + action.waiting, Pending, [], 0) && Surplus(s') == Surplus(s) + s.tasks[id].bounty
            else if action.FinishBlock? && id in ClosingNow(s) then id in s'.tasks && !s'.tasks[id].status.Pending?
            else Waits(s.tasks[id], s', id)
  {
    assert s.height <= s.tasks[id].closing;
    hide Inv, EndBlock, PayAll, Surplus, Scheduled, ClosingNow, Waits;
    StepKeeps(params, s, action);
    match action
    case Ask(other, bounty, waiting) =>
      if !(other == id && Replaceable(s, id)) {
        AskWaits(s, other, bounty, waiting, id);
      }
      CreateTaskSurplus(s, other, bounty, waiting);
    case FinishBlock(mature) =>
      SameWaits(s, Step(params, s, action).state, id);
      EndBlockFate(params, s, id);
      PayAllLeaves(NextHeight(EndBlock(params, s)), mature);
    case _ => MessageWaits(params, s, action, id);
  }

  lemma AskWaits(s: State, other: nat, bounty: nat, waiting: int, id: nat)
    requires id in s.tasks && s.tasks[id].status.Pending? && s.height <= s.tasks[id].closing && !(other == id && Replaceable(s, id))
    ensures Waits(s.tasks[id], CreateTask(s, other, bounty, waiting), id)
  {
  }

  lemma SameWaits(s: State, s': State, id: nat)
    requires id in s.tasks && s.tasks[id].status.Pending?
    ensures id in s'.tasks && s'.tasks[id] == s.tasks[id] ==> Waits(s.tasks[id], s', id)
  {
  }

  lemma MessageWaits(params: Params, s: State, action: Action, id: nat)
    requires Sound(params) && id in s.tasks && s.tasks[id].status.Pending? && s.height <= s.tasks[id].closing
    requires !action.Ask? && !action.FinishBlock? && Step(params, s, action).Ok?
    ensures Waits(s.tasks[id], Step(params, s, action).state, id)
  {
    hide EndBlock, PayAll;
  }

  lemma EndBlockFate(params: Params, s: State, id: nat)
    requires Inv(params, s) && Sound(params) && id in s.tasks && s.tasks[id].status.Pending?
    ensures var s' := EndBlock(params, s);
            id in s'.tasks && if id in ClosingNow(s) then !s'.tasks[id].status.Pending? else s'.tasks[id] == s.tasks[id]
  {
    CloseAllKeeps(params, s, ClosingNow(s));
    if id !in ClosingNow(s) {
      CloseAllOthers(params, s, ClosingNow(s), id);
    }
  }

  lemma {:induction false} CloseAllOthers(params: Params, s: State, ids: seq<nat>, id: nat)
    requires Sound(params) && id in s.tasks && id !in ids
    ensures id in CloseAll(params, s, ids).tasks && CloseAll(params, s, ids).tasks[id] == s.tasks[id]
    decreases |ids|
  {
    if ids != [] {
      CloseAllOthers(params, Close(params, s, ids[0]), ids[1..], id);
    }
  }

  /** The awards of a task do not depend on which tasks are closed before it. */
  lemma AwardsSame(params: Params, before: map<Address, Operator>, after: map<Address, Operator>, task: Task)
    requires Sound(params) && SameCollateral(before, after)
    ensures Aggregated(params, after, task) == Aggregated(params, before, task)
    ensures AwardsOf(params, after, task) == AwardsOf(params, before, task)
  {
    GatherSame(before, after, task.responses);
    WeightsSame(params, task.result, before, after, task.responses);
  }

  lemma {:induction false} GatherSame(before: map<Address, Operator>, after: map<Address, Operator>, responses: seq<Response>)
    requires SameCollateral(before, after)
    ensures Gather(after, responses) == Gather(before, responses)
  {
    if responses != [] {
      GatherSame(before, after, responses[..|responses| - 1]);
    }
  }

  lemma {:induction false} WeightsSame(params: Params, result: int, before: map<Address, Operator>, after: map<Address, Operator>, responses: seq<Response>)
    requires Sound(params) && SameCollateral(before, after)
    ensures Weights(params, result, after, responses) == Weights(params, result, before, responses)
  {
    if responses != [] {
      WeightSame(params, result, before, after, responses[0]);
      hide Weight;
      WeightsSame(params, result, before, after, responses[1..]);
    }
  }

  /** The bounty is paid out but for less than a unit for each answer exactly if some answer has weight; else not at all. */
  lemma DistributedIff(params: Params, operators: map<Address, Operator>, task: Task)
    requires Sound(params)
    ensures var weights, paid := Weights(params, task.result, operators, task.responses), Sum(AwardsOf(params, operators, task));
            if Sum(weights) > 0 then paid <= task.bounty < paid + |task.responses| else paid == 0
  {
    var weights := Weights(params, task.result, operators, task.responses);
    if Sum(weights) > 0 {
      AwardsWithin(task.bounty, weights);
      WeightedAtMost(weights);
    }
  }

  lemma {:induction false} WeightedAtMost(weights: seq<nat>)
    ensures Weighted(weights) <= |weights|
  {
    if weights != [] {
      WeightedAtMost(weights[1..]);
    }
  }

  /** A task for five coins waits for one block, and is asked for again in that block: the first five coins are nobody's. */
  lemma BountyLost()
    ensures var s := NextHeight(CreateTask(Genesis(1), 1, 5, 1));
            Replaceable(s, 1) && Surplus(CreateTask(s, 1, 5, 9)) == 5
  {
    var s := NextHeight(CreateTask(Genesis(1), 1, 5, 1));
    CreateTaskSurplus(Genesis(1), 1, 5, 1);
    assert s.closing[2] == [1];
    CreateTaskSurplus(s, 1, 5, 9);
  }

  // ----- When the lowest score wins -----

  /**
    When the lowest score wins with collateral at or above the threshold, nobody who answered below
    the threshold is paid, those who gave the winning score least of all; all that is paid goes to
    answers at or above it.
  */
  lemma LowestWinsUnpaid(params: Params, operators: map<Address, Operator>, task: Task, a: Address)
    requires Sound(params) && 0 < params.threshold
    requires var sums := Gather(operators, task.responses);
             LowestWins(sums) && params.threshold <= sums.lowest && task.result == Result(params, sums)
    requires a in operators && forall r :: r in task.responses && r.operator == a ==> r.score < params.threshold
    ensures var paid := Distribute(params, operators, task); a in paid && paid[a] == operators[a]
  {
    var weights := Weights(params, task.result, operators, task.responses);
    var total := Sum(weights);
    if total > 0 {
      var awards := Awards(task.bounty, weights, total);
      forall i | 0 <= i < |task.responses| && task.responses[i].operator == a
        ensures awards[i] == 0
      {
        assert task.responses[i] in task.responses;
        WeightsAt(params, task.result, operators, task.responses, i);
        AwardsAt(task.bounty, weights, total, i);
        AwardBounds(task.bounty, weights[i], total);
      }
      CreditNothing(operators, task.responses, awards, a);
    }
  }

  /** Two thirds of the collateral answer with the lowest score, one third with the highest: the latter is paid all ten coins. */
  lemma MajorityUnpaid()
    ensures var params, operators := Params(0, 50, 1, 1, 1, 30), map[1 := Operator(200, 0), 2 := Operator(100, 0)];
            var task := Aggregated(params, operators, Task(10, 1, Pending, [Response(1, 0), Response(2, 100)], 0));
            Distribute(params, operators, task) == map[1 := Operator(200, 0), 2 := Operator(100, 10)]
  {
    var params, operators := Params(0, 50, 1, 1, 1, 30), map[1 := Operator(200, 0), 2 := Operator(100, 0)];
    var first, second := Response(1, 0), Response(2, 100);
    assert [first, second][..1] == [first] && [first][..0] == [];
    assert Gather(operators, [first]) == Sums(0, 200, 200);
    assert Gather(operators, [first, second]) == Sums(10000, 300, 200);
    assert [first, second][1..] == [second] && [second][1..] == [];
    assert Weights(params, 200, operators, [second]) == [100_000_000];
    var weights := Weights(params, 200, operators, [first, second]);
    assert weights == [0, 100_000_000];
    assert weights[1..] == [100_000_000] && weights[1..][1..] == [];
    assert Sum(weights[1..]) == 100_000_000;
    assert Awards(10, weights[1..], 100_000_000) == [10];
    var awards := Awards(10, weights, 100_000_000);
    assert awards == [0, 10] && awards[1..] == [10];
    var paid := Distribute(params, operators, Task(10, 1, Succeeded, [first, second], 200));
    assert paid == CreditAll(Credit(operators, 1, 0), [second], [10]);
    assert paid == Credit(Credit(operators, 1, 0), 2, 10);
  }
}
