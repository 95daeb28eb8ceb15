/** What each operator of the oracle has with it, how messages change that, and who may answer a task. */
module Holdings {
  import opened Totals
  import opened WithdrawQueue
  import opened Bounty
  import opened Oracle

  // ----- What an operator has -----

  ghost function WithdrawnBy(a: Address): (Due, nat) -> int {
    (d: Due, amount: nat) => if d.owner == a then amount else 0
  }

  /** An operator's collateral and rewards, and its withdrawals that are not paid yet. */
  ghost function Holding(s: State, a: Address): int {
    (if a in s.operators then s.operators[a].collateral + s.operators[a].rewards else 0) + Total(s.withdraws, WithdrawnBy(a))
  }

  /** Who a message moves coins of, if of an operator. */
  predicate By(action: Action, a: Address) {
    match action
    case Join(b, _) => a == b
    case Quit(b) => a == b
    case Add(b, _) => a == b
    case Reduce(b, _) => a == b
    case Collect(b) => a == b
    case _ => false
  }

  /** The coins a message brings in as collateral. */
  function PaidIn(params: Params, s: State, action: Action): nat {
    match action
    case Join(a, collateral) => if a !in s.operators && params.minimum <= collateral then collateral else 0
    case Add(a, amount) => if a in s.operators then amount else 0
    case _ => 0
  }

  /** The coins a message pays out at once: the rewards of whoever collects them or quits. */
  function PaidOut(s: State, action: Action): nat {
    match action
    case Quit(a) => if a in s.operators then s.operators[a].rewards else 0
    case Collect(a) => if a in s.operators then s.operators[a].rewards else 0
    case _ => 0
  }

  /** What is stored over when collateral is withdrawn. */
  ghost function StoredOver(params: Params, s: State, action: Action): nat {
    match action
    case Quit(a) => if a in s.operators then OverwrittenBy(params, s, a) else 0
    case Reduce(a, amount) => if Reducible(params, s, a, amount) then OverwrittenBy(params, s, a) else 0
    case _ => 0
  }

  lemma WithdrawalBooked(params: Params, s: State, b: Address, amount: nat, a: Address)
    ensures Total(CreateWithdraw(params, s, b, amount).withdraws, WithdrawnBy(a))
         == Total(s.withdraws, WithdrawnBy(a)) + if a == b then amount - OverwrittenBy(params, s, b) else 0
  {
    TotalUpdate(s.withdraws, WithdrawnBy(a), Due(b, s.height + params.lockedIn), amount);
  }

  /**
    A message changes the holding of nobody but its sender: by what it brings in, less what is paid
    out, and less a withdrawal stored over. The account receives and pays just those coins.
  */
  lemma MessageHoldings(params: Params, s: State, action: Action, a: Address)
    requires Sound(params) && (action.Join? || action.Quit? || action.Add? || action.Reduce? || action.Collect?)
    ensures Step(params, s, action).Ok?
    ensures var s' := Step(params, s, action).state;
            && s'.balance == s.balance + PaidIn(params, s, action) - PaidOut(s, action)
            && Holding(s', a) == Holding(s, a) +
                 if By(action, a) then PaidIn(params, s, action) - PaidOut(s, action) - StoredOver(params, s, action) else 0
  {
    hide Total, EndBlock, PayAll;
    match action
    case Quit(b) =>
      if b in s.operators {
        WithdrawalBooked(params, s, b, s.operators[b].collateral, a);
      }
    case Reduce(b, amount) =>
      WithdrawalBooked(params, s, b, amount, a);
    case _ =>
  }

  /** A withdrawal is of exactly as much collateral as its operator has less, and due when the lock is over. */
  lemma ReducedIff(params: Params, s: State, a: Address, amount: nat)
    ensures var s' := ReduceCollateral(params, s, a, amount);
            if a in s.operators && params.minimum + amount <= s.operators[a].collateral then
              && a in s'.operators && s'.operators[a].collateral == s.operators[a].collateral - amount
              && Due(a, s.height + params.lockedIn) in s'.withdraws && s'.withdraws[Due(a, s.height + params.lockedIn)] == amount
            else s' == s
  {
  }

  // ----- Answers -----

  /** Nobody answers a task twice. */
  ghost predicate AnswersOnce(task: Task) {
    forall i, j :: 0 <= i < j < |task.responses| ==> task.responses[i].operator != task.responses[j].operator
  }

  ghost predicate AllOnce(s: State) {
    forall id :: id in s.tasks ==> AnswersOnce(s.tasks[id])
  }

  /** An operator answers a task exactly if it has not before, the task is not past its closing block, and the score is on the scale. */
  lemma AnsweredIff(s: State, id: nat, a: Address, score: int)
    ensures var s', open := Respond(s, id, a, score),
              && a in s.operators && id in s.tasks && s.height <= s.tasks[id].closing && 0 <= score <= 100
              && forall i :: 0 <= i < |s.tasks[id].responses| ==> s.tasks[id].responses[i].operator != a;
            && (open ==> id in s'.tasks && s'.tasks[id].responses == s.tasks[id].responses + [Response(a, score)])
            && (!open ==> s' == s)
  {
  }

  /** A task is removed exactly if its closing block is past and the request is allowed. */
  lemma ForgottenIff(s: State, id: nat, allowed: bool)
    requires id in s.tasks
    ensures id !in RemoveTask(s, id, allowed).tasks <==> allowed && s.tasks[id].closing < s.height
  {
  }

  lemma RespondOnce(s: State, id: nat, a: Address, score: int)
    requires AllOnce(s)
    ensures AllOnce(Respond(s, id, a, score))
  {
    var s' := Respond(s, id, a, score);
    if Answerable(s, id, a, score) {
      assert AnswersOnce(s.tasks[id]);
      assert forall i :: 0 <= i < |s.tasks[id].responses| ==> s.tasks[id].responses[i] in s.tasks[id].responses;
    }
  }

  lemma {:induction false} CloseAllResponses(params: Params, s: State, ids: seq<nat>)
    requires Sound(params)
    ensures var s' := CloseAll(params, s, ids);
            s'.tasks.Keys == s.tasks.Keys && forall id :: id in s.tasks ==> s'.tasks[id].responses == s.tasks[id].responses
    decreases |ids|
  {
    if ids != [] {
      hide Distribute;
      CloseAllResponses(params, Close(params, s, ids[0]), ids[1..]);
    }
  }

  lemma FinishOnce(params: Params, s: State, mature: seq<Due>)
    requires Sound(params) && AllOnce(s) && Step(params, s, FinishBlock(mature)).Ok?
    ensures AllOnce(Step(params, s, FinishBlock(mature)).state)
  {
    CloseAllResponses(params, s, ClosingNow(s));
    PayAllLeaves(NextHeight(EndBlock(params, s)), mature);
    hide CloseAll, PayAll;
  }

  lemma StepOnce(params: Params, s: State, action: Action)
    requires Sound(params) && AllOnce(s) && Step(params, s, action).Ok?
    ensures AllOnce(Step(params, s, action).state)
  {
    hide AnswersOnce, EndBlock, PayAll, Answerable;
    match action
    case Answer(id, a, score) => RespondOnce(s, id, a, score);
    case FinishBlock(mature) => FinishOnce(params, s, mature);
    case Ask(id, bounty, waiting) => NoAnswers(Task(bounty, s.height + waiting, Pending, [], 0));
    case _ =>
  }

  lemma NoAnswers(task: Task)
    requires task.responses == []
    ensures AnswersOnce(task)
  {
  }

  /** In every run, no operator has answered a task twice. */
  lemma {:induction false} RunOnce(params: Params, states: seq<State>, actions: seq<Action>, i: nat)
    requires IsRun(params, states, actions) && i < |states|
    ensures AllOnce(states[i])
  {
    RunAt(params, states, actions, i);
    if i > 0 {
      hide IsRun, Possible, Step, AllOnce;
      RunOnce(params, states, actions, i - 1);
      StepOnce(params, states[i - 1], actions[i - 1]);
    }
  }
}
