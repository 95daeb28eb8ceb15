/**
  The oracle: operators with collateral and rewards, tasks with bounties, and withdrawals, all
  paid out of one module account.
*/
module Oracle {
  import opened Split
  import opened Totals
  import opened WithdrawQueue
  import opened Bounty
  import opened Maturity

  datatype Status = Pending | Succeeded | Failed

  datatype Task = Task(bounty: nat, closing: int, status: Status, responses: seq<Response>, result: int)

  /** Withdrawals are stored by the block they are due at and their owner. */
  datatype Due = Due(owner: Address, block: nat)

  datatype State = State(
    height: nat,
    operators: map<Address, Operator>,
    totalCollateral: int,
    withdraws: map<Due, nat>,
    tasks: map<nat, Task>,
    closing: map<int, seq<nat>>,
    balance: int)

  // ----- What the account owes -----

  ghost function Withdrawn(d: Due, amount: nat): int {
    amount
  }

  ghost function PendingBounty(id: nat, task: Task): int {
    if task.status.Pending? then task.bounty else 0
  }

  ghost function Owed(s: State): int {
    Total(s.operators, CollateralOf) + Total(s.operators, RewardsOf) + Total(s.withdraws, Withdrawn) + Total(s.tasks, PendingBounty)
  }

  ghost predicate OperatorsOk(params: Params, s: State) {
    && s.totalCollateral == Total(s.operators, CollateralOf)
    && (forall a :: a in s.operators ==> params.minimum <= s.operators[a].collateral)
  }

  /** The account covers everything it owes, and the total collateral is that of the operators. */
  ghost predicate Inv(params: Params, s: State) {
    Owed(s) <= s.balance && OperatorsOk(params, s)
  }

  /** Each single debt is covered. */
  lemma Covers(s: State)
    requires Owed(s) <= s.balance
    ensures 0 <= s.balance
    ensures forall a :: a in s.operators ==> s.operators[a].collateral + s.operators[a].rewards <= s.balance
    ensures forall d :: d in s.withdraws ==> s.withdraws[d] <= s.balance
  {
    TotalNonNegative(s.operators, CollateralOf);
    TotalNonNegative(s.operators, RewardsOf);
    TotalNonNegative(s.withdraws, Withdrawn);
    TotalNonNegative(s.tasks, PendingBounty);
    forall a | a in s.operators
      ensures s.operators[a].collateral + s.operators[a].rewards <= s.balance
    {
      TotalAtLeast(s.operators, CollateralOf, a);
      TotalAtLeast(s.operators, RewardsOf, a);
    }
    forall d | d in s.withdraws
      ensures s.withdraws[d] <= s.balance
    {
      TotalAtLeast(s.withdraws, Withdrawn, d);
    }
  }

  // ----- Operators -----

  /** Stores a withdrawal; one of the same owner due at the same block is overwritten. */
  function CreateWithdraw(params: Params, s: State, a: Address, amount: nat): State {
    s.(withdraws := s.withdraws[Due(a, s.height + params.lockedIn) := amount])
  }

  function CreateOperator(params: Params, s: State, a: Address, collateral: nat): State {
    if a in s.operators || collateral < params.minimum then s
    else s.(operators := s.operators[a := Operator(collateral, 0)], totalCollateral := s.totalCollateral + collateral,
            balance := s.balance + collateral)
  }

  /** Withdraws all collateral and pays the rewards at once. */
  function RemoveOperator(params: Params, s: State, a: Address): State {
    if a !in s.operators then s else
    var o := s.operators[a];
    CreateWithdraw(params, s.(operators := s.operators - {a}, totalCollateral := s.totalCollateral - o.collateral,
                              balance := s.balance - o.rewards), a, o.collateral)
  }

  function AddCollateral(s: State, a: Address, amount: nat): State {
    if a !in s.operators then s
    else s.(operators := s.operators[a := s.operators[a].(collateral := s.operators[a].collateral + amount)],
            totalCollateral := s.totalCollateral + amount, balance := s.balance + amount)
  }

  predicate Reducible(params: Params, s: State, a: Address, amount: nat) {
    a in s.operators && amount + params.minimum <= s.operators[a].collateral
  }

  function ReduceCollateral(params: Params, s: State, a: Address, amount: nat): State {
    if !Reducible(params, s, a, amount) then s
    else CreateWithdraw(params, s.(operators := s.operators[a := s.operators[a].(collateral := s.operators[a].collateral - amount)],
                                   totalCollateral := s.totalCollateral - amount), a, amount)
  }

  function WithdrawRewards(s: State, a: Address): State {
    if a !in s.operators then s
    else s.(operators := s.operators[a := s.operators[a].(rewards := 0)], balance := s.balance - s.operators[a].rewards)
  }

  ghost function OverwrittenBy(params: Params, s: State, a: Address): nat {
    var d := Due(a, s.height + params.lockedIn);
    if d in s.withdraws then s.withdraws[d] else 0
  }

  lemma CreateWithdrawTotal(params: Params, s: State, a: Address, amount: nat)
    ensures Total(CreateWithdraw(params, s, a, amount).withdraws, Withdrawn)
         == Total(s.withdraws, Withdrawn) + amount - OverwrittenBy(params, s, a)
  {
    TotalUpdate(s.withdraws, Withdrawn, Due(a, s.height + params.lockedIn), amount);
  }

  lemma CreateOperatorKeeps(params: Params, s: State, a: Address, collateral: nat)
    requires Inv(params, s)
    ensures Inv(params, CreateOperator(params, s, a, collateral))
  {
    var o := Operator(collateral, 0);
    TotalUpdate(s.operators, CollateralOf, a, o);
    TotalUpdate(s.operators, RewardsOf, a, o);
  }

  lemma RemoveOperatorKeeps(params: Params, s: State, a: Address)
    requires Inv(params, s)
    ensures Inv(params, RemoveOperator(params, s, a))
  {
    if a in s.operators {
      var o := s.operators[a];
      TotalDelete(s.operators, CollateralOf, a);
      TotalDelete(s.operators, RewardsOf, a);
      CreateWithdrawTotal(params, s, a, o.collateral);
    }
  }

  lemma AddCollateralKeeps(params: Params, s: State, a: Address, amount: nat)
    requires Inv(params, s)
    ensures Inv(params, AddCollateral(s, a, amount))
  {
    if a in s.operators {
      var o := s.operators[a].(collateral := s.operators[a].collateral + amount);
      TotalUpdate(s.operators, CollateralOf, a, o);
      TotalUpdate(s.operators, RewardsOf, a, o);
    }
  }

  /** A withdrawal is owed in full exactly when it overwrites no other; the account covers it either way. */
  lemma ReduceCollateralKeeps(params: Params, s: State, a: Address, amount: nat)
    requires Inv(params, s)
    ensures var s' := ReduceCollateral(params, s, a, amount);
            && Inv(params, s')
            && (Reducible(params, s, a, amount) ==> Owed(s') == Owed(s) - OverwrittenBy(params, s, a))
  {
    if Reducible(params, s, a, amount) {
      var o := s.operators[a].(collateral := s.operators[a].collateral - amount);
      TotalUpdate(s.operators, CollateralOf, a, o);
      TotalUpdate(s.operators, RewardsOf, a, o);
      CreateWithdrawTotal(params, s, a, amount);
    }
  }

  lemma WithdrawRewardsKeeps(params: Params, s: State, a: Address)
    requires Inv(params, s)
    ensures Inv(params, WithdrawRewards(s, a))
  {
    if a in s.operators {
      var o := s.operators[a].(rewards := 0);
      TotalUpdate(s.operators, CollateralOf, a, o);
      TotalUpdate(s.operators, RewardsOf, a, o);
    }
  }

  // ----- Tasks -----

  /** A task replaces one of the same name whose closing block has come. */
  function CreateTask(s: State, id: nat, bounty: nat, waiting: int): State {
    if id in s.tasks && s.tasks[id].closing > s.height then s else
    var end := s.height + waiting;
    var due := if end in s.closing then s.closing[end] else [];
    s.(tasks := s.tasks[id := Task(bounty, end, Pending, [], 0)], closing := s.closing[end := due + [id]], balance := s.balance + bounty)
  }

  predicate Answerable(s: State, id: nat, a: Address, score: int) {
    && a in s.operators && id in s.tasks && s.height <= s.tasks[id].closing
    && 0 <= score <= MAX_SCORE
    && forall other :: other in s.tasks[id].responses ==> other.operator != a
  }

  function Respond(s: State, id: nat, a: Address, score: int): State {
    if !Answerable(s, id, a, score) then s
    else s.(tasks := s.tasks[id := s.tasks[id].(responses := s.tasks[id].responses + [Response(a, score)])])
  }

  /** The creator of a task removes it once it is closed. */
  function RemoveTask(s: State, id: nat, allowed: bool): State {
    if id !in s.tasks || !allowed || s.height <= s.tasks[id].closing then s else s.(tasks := s.tasks - {id})
  }

  lemma CreateTaskKeeps(params: Params, s: State, id: nat, bounty: nat, waiting: int)
    requires Inv(params, s)
    ensures Inv(params, CreateTask(s, id, bounty, waiting))
  {
    TotalUpdate(s.tasks, PendingBounty, id, Task(bounty, s.height + waiting, Pending, [], 0));
  }

  lemma RespondKeeps(params: Params, s: State, id: nat, a: Address, score: int)
    requires Inv(params, s)
    ensures Inv(params, Respond(s, id, a, score))
  {
    if Answerable(s, id, a, score) {
      TotalUpdate(s.tasks, PendingBounty, id, s.tasks[id].(responses := s.tasks[id].responses + [Response(a, score)]));
    }
  }

  lemma RemoveTaskKeeps(params: Params, s: State, id: nat, allowed: bool)
    requires Inv(params, s)
    ensures Inv(params, RemoveTask(s, id, allowed))
  {
    TotalDelete(s.tasks, PendingBounty, id);
  }

  // ----- Closing tasks -----

  function Aggregated(params: Params, operators: map<Address, Operator>, task: Task): Task {
    var sums := Gather(operators, task.responses);
    task.(result := Result(params, sums), status := if sums.collateral > 0 then Succeeded else Failed)
  }

  /** The operators after a task's bounty has been distributed; nobody is paid when no answer has weight. */
  function Distribute(params: Params, operators: map<Address, Operator>, task: Task): map<Address, Operator>
    requires Sound(params)
  {
    var weights := Weights(params, task.result, operators, task.responses);
    if Sum(weights) == 0 then operators
    else CreditAll(operators, task.responses, Awards(task.bounty, weights, Sum(weights)))
  }

  /** Aggregates a pending task and distributes its bounty; any other task is left alone. */
  function Close(params: Params, s: State, id: nat): State
    requires Sound(params)
  {
    if id !in s.tasks || !s.tasks[id].status.Pending? then s else
    var task := Aggregated(params, s.operators, s.tasks[id]);
    s.(tasks := s.tasks[id := task], operators := Distribute(params, s.operators, task))
  }

  /** A bounty moves from what is pending to rewards, at most once and never more than it is. */
  lemma CloseKeeps(params: Params, s: State, id: nat)
    requires Inv(params, s) && Sound(params)
    ensures var s' := Close(params, s, id);
            && Inv(params, s')
            && s'.tasks.Keys == s.tasks.Keys
            && (id in s.tasks ==> !s'.tasks[id].status.Pending? && s'.tasks[id].responses == s.tasks[id].responses)
            && (id in s.tasks && !s.tasks[id].status.Pending? ==> s' == s)
  {
    if id in s.tasks && s.tasks[id].status.Pending? {
      var task := Aggregated(params, s.operators, s.tasks[id]);
      TotalUpdate(s.tasks, PendingBounty, id, task);
      DistributeKeeps(params, s.operators, task);
      hide Total, Distribute, Aggregated;
    }
  }

  lemma DistributeKeeps(params: Params, operators: map<Address, Operator>, task: Task)
    requires Sound(params)
    ensures var paid := Distribute(params, operators, task);
            && paid.Keys == operators.Keys
            && (forall a :: a in operators ==> paid[a].collateral == operators[a].collateral)
            && Total(paid, CollateralOf) == Total(operators, CollateralOf)
            && Total(paid, RewardsOf) <= Total(operators, RewardsOf) + task.bounty
  {
    var weights := Weights(params, task.result, operators, task.responses);
    if Sum(weights) > 0 {
      AwardsWithin(task.bounty, weights);
      CreditAllKeeps(operators, task.responses, Awards(task.bounty, weights, Sum(weights)));
    }
  }

  function CloseAll(params: Params, s: State, ids: seq<nat>): State
    requires Sound(params)
    decreases |ids|
  {
    if ids == [] then s else
    CloseAll(params, Close(params, s, ids[0]), ids[1..])
  }

  lemma {:induction false} CloseAllKeeps(params: Params, s: State, ids: seq<nat>)
    requires Inv(params, s) && Sound(params)
    ensures var s' := CloseAll(params, s, ids);
            && Inv(params, s')
            && s'.tasks.Keys == s.tasks.Keys
            && (forall id :: id in s.tasks && !s.tasks[id].status.Pending? ==> s'.tasks[id] == s.tasks[id])
            && (forall id :: id in s.tasks && id in ids ==> !s'.tasks[id].status.Pending?)
    decreases |ids|
  {
    if ids != [] {
      CloseKeeps(params, s, ids[0]);
      CloseAllKeeps(params, Close(params, s, ids[0]), ids[1..]);
    }
  }

  function ClosingNow(s: State): seq<nat> {
    if s.height in s.closing then s.closing[s.height] else []
  }

  /** The end of a block closes the tasks listed for it. */
  function EndBlock(params: Params, s: State): State
    requires Sound(params)
  {
    var closed := CloseAll(params, s, ClosingNow(s));
    closed.(closing := closed.closing - {s.height})
  }

  // ----- Paying withdrawals -----

  /** Pays out stored withdrawals; `Halt` stands for a failed transfer. */
  datatype Outcome = Ok(state: State) | Halt

  function PayAll(s: State, mature: seq<Due>): Outcome
    decreases |mature|
  {
    if mature == [] then Ok(s)
    else if mature[0] !in s.withdraws then PayAll(s, mature[1..])
    else if s.balance < s.withdraws[mature[0]] then Halt
    else PayAll(s.(balance := s.balance - s.withdraws[mature[0]], withdraws := s.withdraws - {mature[0]}), mature[1..])
  }

  /** The withdrawals paid at the beginning of a block, as the store iterates over them. */
  ghost predicate ListsMature(s: State, mature: seq<Due>) {
    forall d :: d in mature <==> d in s.withdraws && Mature(d.block, s.height)
  }

  /** Exactly the listed withdrawals are paid. */
  lemma {:induction false} PayAllPays(s: State, mature: seq<Due>)
    requires PayAll(s, mature).Ok?
    ensures PayAll(s, mature).state.withdraws == map d | d in s.withdraws && d !in mature :: s.withdraws[d]
    decreases |mature|
  {
    if mature != [] {
      if mature[0] in s.withdraws {
        PayAllPays(s.(balance := s.balance - s.withdraws[mature[0]], withdraws := s.withdraws - {mature[0]}), mature[1..]);
      } else {
        PayAllPays(s, mature[1..]);
      }
    }
  }

  /** The transfers of matured withdrawals never fail, whichever and in whatever order they are taken to be. */
  lemma {:induction false} PayAllKeeps(params: Params, s: State, mature: seq<Due>)
    requires Inv(params, s)
    ensures PayAll(s, mature).Ok? && Inv(params, PayAll(s, mature).state)
    decreases |mature|
  {
    if mature != [] {
      if mature[0] in s.withdraws {
        TotalDelete(s.withdraws, Withdrawn, mature[0]);
        Covers(s);
        PayAllKeeps(params, s.(balance := s.balance - s.withdraws[mature[0]], withdraws := s.withdraws - {mature[0]}), mature[1..]);
      } else {
        PayAllKeeps(params, s, mature[1..]);
      }
    }
  }

  // ----- Whole runs -----

  datatype Action =
    | Join(a: Address, collateral: nat)
    | Quit(a: Address)
    | Add(a: Address, amount: nat)
    | Reduce(a: Address, amount: nat)
    | Collect(a: Address)
    | Ask(id: nat, bounty: nat, waiting: int)
    | Answer(id: nat, a: Address, score: int)
    | Forget(id: nat, allowed: bool)
    | FinishBlock(mature: seq<Due>)

  /** One message, or the end of one block and the beginning of the next. */
  function Step(params: Params, s: State, action: Action): Outcome
    requires Sound(params)
  {
    match action
    case Join(a, collateral) => Ok(CreateOperator(params, s, a, collateral))
    case Quit(a) => Ok(RemoveOperator(params, s, a))
    case Add(a, amount) => Ok(AddCollateral(s, a, amount))
    case Reduce(a, amount) => Ok(ReduceCollateral(params, s, a, amount))
    case Collect(a) => Ok(WithdrawRewards(s, a))
    case Ask(id, bounty, waiting) => Ok(CreateTask(s, id, bounty, waiting))
    case Answer(id, a, score) => Ok(Respond(s, id, a, score))
    case Forget(id, allowed) => Ok(RemoveTask(s, id, allowed))
    case FinishBlock(mature) => PayAll(NextHeight(EndBlock(params, s)), mature)
  }

  function NextHeight(s: State): State {
    s.(height := s.height + 1)
  }

  /** Every pending task is listed for its closing block, which has not passed. */
  ghost predicate Scheduled(s: State) {
    forall id :: id in s.tasks && s.tasks[id].status.Pending? ==>
      s.height <= s.tasks[id].closing && s.tasks[id].closing in s.closing && id in s.closing[s.tasks[id].closing]
  }

  lemma EndBlockKeeps(params: Params, s: State)
    requires Inv(params, s) && Sound(params)
    ensures Inv(params, NextHeight(EndBlock(params, s)))
    ensures Scheduled(s) ==> Scheduled(NextHeight(EndBlock(params, s)))
  {
    CloseAllKeeps(params, s, ClosingNow(s));
    CloseAllLists(params, s, ClosingNow(s));
    hide CloseAll;
  }

  lemma {:induction false} CloseAllLists(params: Params, s: State, ids: seq<nat>)
    requires Sound(params)
    ensures var s' := CloseAll(params, s, ids);
            && s'.closing == s.closing && s'.height == s.height && s'.tasks.Keys == s.tasks.Keys
            && (forall id :: id in s.tasks ==> s'.tasks[id].closing == s.tasks[id].closing)
            && (forall id :: id in s.tasks ==> s'.tasks[id].status.Pending? ==> s.tasks[id].status.Pending?)
    decreases |ids|
  {
    if ids != [] {
      CloseAllLists(params, Close(params, s, ids[0]), ids[1..]);
    }
  }

  lemma {:induction false} PayAllLeaves(s: State, mature: seq<Due>)
    ensures PayAll(s, mature).Ok? ==>
              var s' := PayAll(s, mature).state; s'.tasks == s.tasks && s'.closing == s.closing && s'.height == s.height
    decreases |mature|
  {
    if mature != [] {
      if mature[0] in s.withdraws {
        PayAllLeaves(s.(balance := s.balance - s.withdraws[mature[0]], withdraws := s.withdraws - {mature[0]}), mature[1..]);
      } else {
        PayAllLeaves(s, mature[1..]);
      }
    }
  }

  lemma FinishBlockKeeps(params: Params, s: State, mature: seq<Due>)
    requires Inv(params, s) && Sound(params)
    ensures var r := PayAll(NextHeight(EndBlock(params, s)), mature);
            r.Ok? && Inv(params, r.state) && (Scheduled(s) ==> Scheduled(r.state))
  {
    hide Inv, PayAll, EndBlock;
    EndBlockKeeps(params, s);
    PayAllKeeps(params, NextHeight(EndBlock(params, s)), mature);
    PayAllLeaves(NextHeight(EndBlock(params, s)), mature);
  }

  /** A new task is on schedule exactly when it does not wait for a negative number of blocks. */
  lemma CreateTaskScheduledIff(s: State, id: nat, bounty: nat, waiting: int)
    requires Scheduled(s)
    ensures Scheduled(CreateTask(s, id, bounty, waiting)) <==> waiting >= 0 || (id in s.tasks && s.tasks[id].closing > s.height)
  {
    var s' := CreateTask(s, id, bounty, waiting);
    if waiting < 0 && !(id in s.tasks && s.tasks[id].closing > s.height) {
      assert s'.tasks[id].closing < s'.height;
    }
  }

  /** A task that is asked for waits for its answers. */
  predicate Punctual(action: Action) {
    action.Ask? ==> action.waiting >= 0
  }

  lemma TaskStepsKeep(params: Params, s: State, action: Action)
    requires Inv(params, s) && Sound(params) && (action.Ask? || action.Answer? || action.Forget?)
    ensures var r := Step(params, s, action); r.Ok? && Inv(params, r.state) && (Scheduled(s) && Punctual(action) ==> Scheduled(r.state))
  {
    match action
    case Ask(id, bounty, waiting) => CreateTaskKeeps(params, s, id, bounty, waiting);
    case Answer(id, a, score) => RespondKeeps(params, s, id, a, score);
    case Forget(id, allowed) => RemoveTaskKeeps(params, s, id, allowed);
  }

  /** No step fails, and every step keeps the account solvent, and the tasks on schedule if the new ones wait at all. */
  lemma StepKeeps(params: Params, s: State, action: Action)
    requires Inv(params, s) && Sound(params)
    ensures var r := Step(params, s, action); r.Ok? && Inv(params, r.state) && (Scheduled(s) && Punctual(action) ==> Scheduled(r.state))
  {
    hide Inv;
    match action
    case Join(a, collateral) => CreateOperatorKeeps(params, s, a, collateral);
    case Quit(a) => RemoveOperatorKeeps(params, s, a);
    case Add(a, amount) => AddCollateralKeeps(params, s, a, amount);
    case Reduce(a, amount) => ReduceCollateralKeeps(params, s, a, amount);
    case Collect(a) => WithdrawRewardsKeeps(params, s, a);
    case FinishBlock(mature) => FinishBlockKeeps(params, s, mature);
    case _ => TaskStepsKeep(params, s, action);
  }

  function Genesis(height: nat): State {
    State(height, map[], 0, map[], map[], map[], 0)
  }

  ghost predicate IsRun(params: Params, states: seq<State>, actions: seq<Action>) {
    && Sound(params) && |states| == |actions| + 1
    && states[0] == Genesis(states[0].height)
    && forall i :: 0 <= i < |actions| ==> Possible(params, states[i], actions[i]) && Step(params, states[i], actions[i]) == Ok(states[i + 1])
  }

  /** The withdrawals paid between two blocks are those mature by the second. */
  ghost predicate Possible(params: Params, s: State, action: Action)
    requires Sound(params)
  {
    action.FinishBlock? ==> ListsMature(NextHeight(EndBlock(params, s)), action.mature)
  }

  /** In every state of every run the balance covers all that is owed, and if every task waits, none is past its closing block. */
  lemma {:induction false} RunSolvent(params: Params, states: seq<State>, actions: seq<Action>, i: nat)
    requires IsRun(params, states, actions) && i < |states|
    ensures Inv(params, states[i])
    ensures (forall action :: action in actions ==> Punctual(action)) ==> Scheduled(states[i])
  {
    if i > 0 {
      RunSolvent(params, states, actions, i - 1);
      StepKeeps(params, states[i - 1], actions[i - 1]);
    }
  }

  // ----- Withdrawals over runs -----

  /** Between two blocks exactly the withdrawals mature by the second are paid, due or not. */
  lemma FinishBlockPays(params: Params, s: State, mature: seq<Due>, d: Due)
    requires Inv(params, s) && Sound(params) && Possible(params, s, FinishBlock(mature)) && d in s.withdraws
    ensures Step(params, s, FinishBlock(mature)).Ok?
    ensures d !in Step(params, s, FinishBlock(mature)).state.withdraws <==> Mature(d.block, s.height + 1)
  {
    EndBlockLeaves(params, s);
    FinishBlockKeeps(params, s, mature);
    hide EndBlock, PayAll;
    PayAllPays(NextHeight(EndBlock(params, s)), mature);
  }

  lemma EndBlockLeaves(params: Params, s: State)
    requires Sound(params)
    ensures EndBlock(params, s).withdraws == s.withdraws && EndBlock(params, s).height == s.height
  {
    CloseAllLeaves(params, s, ClosingNow(s));
  }

  lemma {:induction false} CloseAllLeaves(params: Params, s: State, ids: seq<nat>)
    requires Sound(params)
    ensures CloseAll(params, s, ids).withdraws == s.withdraws && CloseAll(params, s, ids).height == s.height
    decreases |ids|
  {
    if ids != [] {
      CloseAllLeaves(params, Close(params, s, ids[0]), ids[1..]);
    }
  }

  /** No withdrawal is left that is due. */
  ghost predicate OnTime(s: State) {
    forall d :: d in s.withdraws ==> s.height < d.block
  }

  lemma FinishBlockOnTime(params: Params, s: State, mature: seq<Due>)
    requires Inv(params, s) && Sound(params) && OnTime(s) && Possible(params, s, FinishBlock(mature))
    ensures Step(params, s, FinishBlock(mature)).Ok? && OnTime(Step(params, s, FinishBlock(mature)).state)
  {
    var m := NextHeight(EndBlock(params, s));
    EndBlockLeaves(params, s);
    FinishBlockKeeps(params, s, mature);
    PayAllPays(m, mature);
    PayAllLeaves(m, mature);
    hide EndBlock, PayAll, Inv;
    var s' := PayAll(m, mature).state;
    forall d | d in s'.withdraws
      ensures s'.height < d.block
    {
      PaidEarlyIff(d.block, 0);
    }
  }

  lemma StepOnTime(params: Params, s: State, action: Action)
    requires Inv(params, s) && Sound(params) && OnTime(s) && Possible(params, s, action) && 0 < params.lockedIn
    ensures Step(params, s, action).Ok? && OnTime(Step(params, s, action).state)
  {
    hide Inv, EndBlock, PayAll, Scheduled;
    if action.FinishBlock? {
      FinishBlockOnTime(params, s, action.mature);
    }
  }

  lemma RunAt(params: Params, states: seq<State>, actions: seq<Action>, i: nat)
    requires IsRun(params, states, actions) && i < |states|
    ensures Sound(params) && |states| == |actions| + 1 && (i == 0 ==> OnTime(states[i]))
    ensures i > 0 ==> Possible(params, states[i - 1], actions[i - 1]) && Step(params, states[i - 1], actions[i - 1]) == Ok(states[i])
  {
    hide Possible, Step;
    if i > 0 {
      assert Step(params, states[i - 1], actions[i - 1]) == Ok(states[i - 1 + 1]);
    }
  }

  /** With any lock at all, a withdrawal is paid no later than at the block it is due. */
  lemma {:induction false} RunOnTime(params: Params, states: seq<State>, actions: seq<Action>, i: nat)
    requires IsRun(params, states, actions) && i < |states| && 0 < params.lockedIn
    ensures OnTime(states[i])
  {
    hide IsRun, Inv, Scheduled, Possible, Step, OnTime;
    RunAt(params, states, actions, i);
    if i > 0 {
      RunOnTime(params, states, actions, i - 1);
      RunSolvent(params, states, actions, i - 1);
      StepOnTime(params, states[i - 1], actions[i - 1]);
    }
  }

  /** Collateral of ten reduced by two and then by three in one block: five are left, and only three still owed. */
  lemma WithdrawalOverwritten()
    ensures var params := Params(0, 50, 1, 1, 1, 30);
            var s := CreateOperator(params, Genesis(0), 1, 10);
            var once := ReduceCollateral(params, s, 1, 2);
            var twice := ReduceCollateral(params, once, 1, 3);
            && twice.operators[1].collateral == 5 && twice.withdraws == map[Due(1, 30) := 3]
            && Owed(once) == Owed(s) && Owed(twice) == Owed(s) - 2
  {
    var params := Params(0, 50, 1, 1, 1, 30);
    var s := CreateOperator(params, Genesis(0), 1, 10);
    CreateOperatorKeeps(params, Genesis(0), 1, 10);
    var once := ReduceCollateral(params, s, 1, 2);
    ReduceCollateralKeeps(params, s, 1, 2);
    ReduceCollateralKeeps(params, once, 1, 3);
    hide Owed;
    assert once.withdraws == map[Due(1, 30) := 2];
    assert ReduceCollateral(params, once, 1, 3).withdraws == map[Due(1, 30) := 3];
  }
}
