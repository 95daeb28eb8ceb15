/** Governance over whole runs: no block halts, and what the invariant promises holds throughout. */
module GovRuns {
  import opened WithdrawQueue
  import opened Totals
  import opened Tally
  import opened Decision
  import P = Purchases
  import opened Market
  import opened Gov
  import opened GovSteps

  /** `Halt` stands for the panic on a queued proposal that does not exist. */
  datatype Result = Ok(state: State) | Halt

  ghost function DropAll(s: State, ids: seq<nat>): Result
    decreases |ids|
  {
    if ids == [] then Ok(s) else if ids[0] !in s.proposals then Halt else DropAll(Drop(s, ids[0]), ids[1..])
  }

  ghost function ActiveAll(config: Config, s: State, ids: seq<nat>, env: Env): Result
    decreases |ids|
  {
    if ids == [] then Ok(s)
    else if ids[0] !in s.proposals then Halt
    else ActiveAll(config, ProcessActive(config, s, ids[0], env), ids[1..], env)
  }

  ghost function SecurityAll(config: Config, s: State, ids: seq<nat>, env: Env): Result
    decreases |ids|
  {
    if ids == [] then Ok(s)
    else if ids[0] !in s.proposals then Halt
    else SecurityAll(config, ProcessSecurity(config, s, ids[0], env), ids[1..], env)
  }

  /** The proposals a block goes through: those to drop, those whose voting is over, and all still voted on. */
  datatype Agenda = Agenda(dropped: seq<nat>, ended: seq<nat>, voting: seq<nat>)

  ghost function EndBlock(config: Config, s: State, agenda: Agenda, env: Env): Result {
    match DropAll(s, agenda.dropped)
    case Halt => Halt
    case Ok(s1) =>
      match ActiveAll(config, s1, agenda.ended, env)
      case Halt => Halt
      case Ok(s2) => SecurityAll(config, s2, agenda.voting, env)
  }

  /** The entries up to a time. */
  function UpTo(queue: set<Slot>, time: int): set<Slot> {
    set slot | slot in queue && slot.time <= time
  }

  /** `ids` are the queued proposals, each once. */
  ghost predicate Lists(ids: seq<nat>, queue: set<Slot>) {
    && (forall i, j :: 0 <= i < j < |ids| ==> ids[i] != ids[j])
    && (forall id :: id in ids ==> exists t :: Slot(t, id) in queue)
    && (forall slot :: slot in queue ==> slot.id in ids)
  }

  /** The agenda follows the queues as each part of the block finds them. */
  ghost predicate Follows(config: Config, s: State, agenda: Agenda, env: Env) {
    && Lists(agenda.dropped, UpTo(s.inactive, s.now))
    && (DropAll(s, agenda.dropped).Ok? ==>
          var s1 := DropAll(s, agenda.dropped).state;
          && Lists(agenda.ended, UpTo(s1.active, s.now))
          && (ActiveAll(config, s1, agenda.ended, env).Ok? ==>
                Lists(agenda.voting, ActiveAll(config, s1, agenda.ended, env).state.active)))
  }

  /** Finished proposals are as they were. */
  ghost predicate FinishedStay(s: State, s': State) {
    forall id :: id in s.proposals && Terminal(s.proposals[id].status) ==> id in s'.proposals && s'.proposals[id] == s.proposals[id]
  }

  predicate Waiting(status: Status, depositing: bool) {
    if depositing then status.DepositPeriod? else Voting(status)
  }

  ghost predicate AllIn(s: State, ids: seq<nat>, depositing: bool) {
    && (forall i, j :: 0 <= i < j < |ids| ==> ids[i] != ids[j])
    && (forall id :: id in ids ==> id in s.proposals && Waiting(s.proposals[id].status, depositing))
  }

  lemma AllInRest(s: State, s': State, ids: seq<nat>, depositing: bool)
    requires AllIn(s, ids, depositing) && ids != []
    requires forall j :: j != ids[0] && j in s.proposals ==> j in s'.proposals && s'.proposals[j] == s.proposals[j]
    ensures AllIn(s', ids[1..], depositing)
  {
    forall id | id in ids[1..]
      ensures id in s'.proposals && s'.proposals[id] == s.proposals[id] && id in ids
    {
      var i :| 0 <= i < |ids[1..]| && ids[1..][i] == id;
      assert ids[i + 1] == id;
    }
  }

  lemma {:induction false} DropAllKeeps(config: Config, s: State, ids: seq<nat>)
    requires Inv(config, s) && AllIn(s, ids, true)
    ensures DropAll(s, ids).Ok?
    ensures var s' := DropAll(s, ids).state; Inv(config, s') && s'.now == s.now && FinishedStay(s, s')
    decreases |ids|
  {
    if ids != [] {
      hide Inv;
      assert ids[0] in ids;
      var m := Drop(s, ids[0]);
      DropKeeps(config, s, ids[0]);
      AllInRest(s, m, ids, true);
      DropAllKeeps(config, m, ids[1..]);
    }
  }

  lemma ProcessActiveOthers(config: Config, s: State, id: nat, env: Env)
    requires id in s.proposals
    ensures var s' := ProcessActive(config, s, id, env);
            id in s'.proposals && s'.proposals == s.proposals[id := s'.proposals[id]] && s'.now == s.now
  {
    hide Total, Deposited, OtherDeposits;
    if s.proposals[id].status.CertifierVoting? {
    } else {
      match env.stake(id)
      case Vetoed =>
      case Rejected =>
      case Passed =>
    }
  }

  lemma {:induction false} ActiveAllKeeps(config: Config, s: State, ids: seq<nat>, env: Env)
    requires Inv(config, s) && AllIn(s, ids, false)
    ensures ActiveAll(config, s, ids, env).Ok?
    ensures var s' := ActiveAll(config, s, ids, env).state; Inv(config, s') && s'.now == s.now && FinishedStay(s, s')
    decreases |ids|
  {
    if ids != [] {
      hide Inv, ProcessActive;
      assert ids[0] in ids;
      var m := ProcessActive(config, s, ids[0], env);
      ProcessActiveKeeps(config, s, ids[0], env);
      ProcessActiveOthers(config, s, ids[0], env);
      AllInRest(s, m, ids, false);
      ActiveAllKeeps(config, m, ids[1..], env);
    }
  }

  lemma ProcessSecurityOthers(config: Config, s: State, id: nat, env: Env)
    requires id in s.proposals
    ensures var s' := ProcessSecurity(config, s, id, env);
            && id in s'.proposals && s'.proposals == s.proposals[id := s'.proposals[id]] && s'.now == s.now
            && (!s.proposals[id].status.CertifierVoting? ==> s'.proposals[id] == s.proposals[id])
  {
  }

  lemma {:induction false} SecurityAllKeeps(config: Config, s: State, ids: seq<nat>, env: Env)
    requires Inv(config, s) && AllIn(s, ids, false)
    ensures SecurityAll(config, s, ids, env).Ok?
    ensures var s' := SecurityAll(config, s, ids, env).state; Inv(config, s') && s'.now == s.now && FinishedStay(s, s')
    decreases |ids|
  {
    if ids != [] {
      hide Inv, ProcessSecurity;
      assert ids[0] in ids;
      var m := ProcessSecurity(config, s, ids[0], env);
      ProcessSecurityKeeps(config, s, ids[0], env);
      ProcessSecurityOthers(config, s, ids[0], env);
      AllInRest(s, m, ids, false);
      SecurityAllKeeps(config, m, ids[1..], env);
    }
  }

  lemma ListedDepositing(config: Config, s: State, ids: seq<nat>)
    requires Inv(config, s) && Lists(ids, UpTo(s.inactive, s.now))
    ensures AllIn(s, ids, true)
  {
    forall id | id in ids
      ensures id in s.proposals && s.proposals[id].status.DepositPeriod?
    {
      assert ProposalOk(config, s, id);
    }
  }

  lemma ListedVoting(config: Config, s: State, ids: seq<nat>)
    requires Inv(config, s) && (Lists(ids, s.active) || Lists(ids, UpTo(s.active, s.now)))
    ensures AllIn(s, ids, false)
  {
    forall id | id in ids
      ensures id in s.proposals && Voting(s.proposals[id].status)
    {
      assert ProposalOk(config, s, id);
    }
  }

  /** A block never meets a queued proposal that does not exist. */
  lemma EndBlockKeeps(config: Config, s: State, agenda: Agenda, env: Env)
    requires Inv(config, s) && Follows(config, s, agenda, env)
    ensures EndBlock(config, s, agenda, env).Ok?
    ensures var s' := EndBlock(config, s, agenda, env).state; Inv(config, s') && s'.now == s.now && FinishedStay(s, s')
  {
    hide Inv, DropAll, ActiveAll, SecurityAll, Lists, UpTo;
    ListedDepositing(config, s, agenda.dropped);
    DropAllKeeps(config, s, agenda.dropped);
    var s1 := DropAll(s, agenda.dropped).state;
    ListedVoting(config, s1, agenda.ended);
    ActiveAllKeeps(config, s1, agenda.ended, env);
    var s2 := ActiveAll(config, s1, agenda.ended, env).state;
    ListedVoting(config, s2, agenda.voting);
    SecurityAllKeeps(config, s2, agenda.voting, env);
  }

  // ----- Runs -----

  datatype Action =
    | SubmitProposal(kind: Kind, proposer: Address, council: bool, amount: nat, totalCollateral: int, lasts: bool)
    | Deposit(id: nat, depositor: Address, amount: nat)
    | Ballot(id: nat, voter: Address, option: Option, certifier: bool, identity: bool)
    | EndOfBlock(agenda: Agenda, env: Env)
    | Trading(trade: Trade)
    | NextBlock(time: nat)

  ghost function Step(config: Config, s: State, action: Action): Result {
    match action
    case SubmitProposal(kind, proposer, council, amount, totalCollateral, lasts) => Ok(Submit(config, s, kind, proposer, council, amount, totalCollateral, lasts))
    case Deposit(id, depositor, amount) => Ok(AddDeposit(config, s, id, depositor, amount))
    case Ballot(id, voter, option, certifier, identity) => Ok(CastVote(s, id, voter, option, certifier, identity))
    case EndOfBlock(agenda, env) => EndBlock(config, s, agenda, env)
    case Trading(trade) => if trade.Expired? && !P.PoolsPresent(s.book) then Halt else Ok(s.(book := Traded(s.book, trade, s.now)))
    case NextBlock(time) => Ok(s.(now := s.now + time))
  }

  /** A block follows its queues, and its expiry finds the pools of all purchases. */
  ghost predicate Possible(config: Config, s: State, action: Action) {
    && (action.EndOfBlock? ==> Follows(config, s, action.agenda, action.env))
    && (action.Trading? && action.trade.Expired? ==> P.PoolsPresent(s.book))
  }

  lemma BookKeeps(config: Config, s: State, b: P.Book)
    requires Inv(config, s) && b.totalClaimed == s.book.totalClaimed
    ensures Inv(config, s.(book := b))
  {
    forall id
      ensures ProposalOk(config, s.(book := b), id)
    {
      BookOk(config, s, b, id);
    }
  }

  lemma LaterKeeps(config: Config, s: State, time: nat)
    requires Inv(config, s)
    ensures Inv(config, s.(now := s.now + time))
  {
    var s' := s.(now := s.now + time);
    forall id
      ensures ProposalOk(config, s', id)
    {
      assert ProposalOk(config, s, id);
    }
  }

  lemma ActivateOthers(config: Config, s: State, id: nat)
    requires id in s.proposals
    ensures var s' := Activate(config, s, id); id in s'.proposals && s'.proposals == s.proposals[id := s'.proposals[id]]
  {
  }

  lemma AddDepositOthers(config: Config, s: State, id: nat, depositor: Address, amount: nat)
    ensures var s' := AddDeposit(config, s, id, depositor, amount);
            if Depositable(s, id) then id in s'.proposals && s'.proposals == s.proposals[id := s'.proposals[id]] else s' == s
  {
    if Depositable(s, id) {
      AddDepositBooks(config, s, id, depositor, amount);
    }
  }

  lemma IntroducedOthers(config: Config, s: State, kind: Kind, proposer: Address, council: bool, amount: nat)
    requires s.nextId !in s.proposals
    ensures var s' := Introduced(config, s, kind, proposer, council, amount);
            s.nextId in s'.proposals && s'.proposals == s.proposals[s.nextId := s'.proposals[s.nextId]]
  {
    hide Activate, AddDeposit;
    AddDepositOthers(config, Create(config, s, kind, proposer, council), s.nextId, proposer, amount);
    ActivateOthers(config, Create(config, s, kind, proposer, council), s.nextId);
  }

  lemma MessagesLeaveFinished(config: Config, s: State, action: Action)
    requires Inv(config, s) && !action.EndOfBlock? && Possible(config, s, action)
    ensures FinishedStay(s, Step(config, s, action).state)
  {
    assert ProposalOk(config, s, s.nextId);
    hide Total, Inv, ProposalOk, Activate, AddDeposit, Introduced, Secured, Traded;
    match action
    case SubmitProposal(kind, proposer, council, amount, totalCollateral, lasts) =>
      IntroducedOthers(config, s, kind, proposer, council, amount);
    case Deposit(id, depositor, amount) =>
      AddDepositOthers(config, s, id, depositor, amount);
    case Ballot(id, voter, option, certifier, identity) =>
    case Trading(trade) =>
    case NextBlock(time) =>
  }

  /** No step halts, every step keeps the invariant, and none touches a finished proposal. */
  lemma StepKeeps(config: Config, s: State, action: Action)
    requires Inv(config, s) && Possible(config, s, action)
    ensures Step(config, s, action).Ok?
    ensures Inv(config, Step(config, s, action).state) && FinishedStay(s, Step(config, s, action).state)
  {
    hide Inv, FinishedStay;
    if !action.EndOfBlock? {
      MessagesLeaveFinished(config, s, action);
    }
    match action
    case SubmitProposal(kind, proposer, council, amount, totalCollateral, lasts) => SubmitKeeps(config, s, kind, proposer, council, amount, totalCollateral, lasts);
    case Deposit(id, depositor, amount) => AddDepositKeeps(config, s, id, depositor, amount);
    case Ballot(id, voter, option, certifier, identity) => CastVoteKeeps(config, s, id, voter, option, certifier, identity);
    case EndOfBlock(agenda, env) => EndBlockKeeps(config, s, agenda, env);
    case Trading(trade) =>
      TradedClaims(s.book, trade, s.now);
      BookKeeps(config, s, Traded(s.book, trade, s.now));
    case NextBlock(time) => LaterKeeps(config, s, time);
  }

  function Genesis(now: int): State {
    State(now, map[], {}, {}, map[], 0, 0, map[], map[], P.Book(map[], map[], 0, 0, 1), 1)
  }

  ghost predicate IsRun(config: Config, states: seq<State>, actions: seq<Action>) {
    && |states| == |actions| + 1
    && states[0] == Genesis(states[0].now)
    && forall i :: 0 <= i < |actions| ==>
         Possible(config, states[i], actions[i]) && Step(config, states[i], actions[i]) == Ok(states[i + 1])
  }

  lemma {:induction false} RunKeeps(config: Config, states: seq<State>, actions: seq<Action>, i: nat)
    requires IsRun(config, states, actions) && i < |states|
    ensures Inv(config, states[i])
  {
    if i == 0 {
      forall id
        ensures ProposalOk(config, states[0], id)
      {
        NoDeposits(map[], id);
      }
    } else {
      RunKeeps(config, states, actions, i - 1);
      StepKeeps(config, states[i - 1], actions[i - 1]);
    }
  }

  /** In every reachable state the claimed total is the loss of all claims being voted on, and the escrow all deposits. */
  lemma RunLedger(config: Config, states: seq<State>, actions: seq<Action>, i: nat)
    requires IsRun(config, states, actions) && i < |states|
    ensures states[i].book.totalClaimed == Total(states[i].proposals, OpenLoss)
    ensures states[i].escrow == Total(states[i].deposits, AnyDeposit)
  {
    RunKeeps(config, states, actions, i);
  }

  /** Whatever is passed or fails in execution has won the rounds it must win. */
  lemma RunWins(config: Config, states: seq<State>, actions: seq<Action>, i: nat, id: nat)
    requires IsRun(config, states, actions) && i < |states| && id in states[i].proposals
    requires states[i].proposals[id].status.Passed? || states[i].proposals[id].status.Failed?
    ensures id in states[i].won
    ensures match states[i].proposals[id].kind
            case Text => states[i].won[id] == {Stake}
            case CertifierUpdate => states[i].won[id] == {Certifier} || states[i].won[id] == {Stake}
            case _ => states[i].won[id] == {Certifier, Stake}
  {
    RunKeeps(config, states, actions, i);
    assert ProposalOk(config, states[i], id);
  }

  /** A finished proposal stays as it is for the rest of the run. */
  lemma RunFinished(config: Config, states: seq<State>, actions: seq<Action>, i: nat, k: nat, id: nat)
    requires IsRun(config, states, actions) && i <= k < |states|
    requires id in states[i].proposals && Terminal(states[i].proposals[id].status)
    ensures id in states[k].proposals && states[k].proposals[id] == states[i].proposals[id]
  {
    forall j: nat | j < |states| - 1
      ensures FinishedStay(states[j], states[j + 1])
    {
      RunNext(config, states, actions, j);
    }
    hide IsRun, FinishedStay;
    FinishedStays(states, i, k, id);
  }

  lemma {:induction false} FinishedStays(states: seq<State>, i: nat, k: nat, id: nat)
    requires (forall j: nat :: j < |states| - 1 ==> FinishedStay(states[j], states[j + 1])) && i <= k < |states|
    requires id in states[i].proposals && Terminal(states[i].proposals[id].status)
    ensures id in states[k].proposals && states[k].proposals[id] == states[i].proposals[id]
  {
    if k > i {
      FinishedStays(states, i, k - 1, id);
      assert FinishedStay(states[k - 1], states[k - 1 + 1]);
    }
  }

  lemma RunNext(config: Config, states: seq<State>, actions: seq<Action>, i: nat)
    requires IsRun(config, states, actions) && i < |actions|
    ensures FinishedStay(states[i], states[i + 1])
  {
    RunKeeps(config, states, actions, i);
    StepKeeps(config, states[i], actions[i]);
  }

  /**
    A claim's purchase and collateral are locked for two voting periods from its submission. A vote
    on it that is not overdue is within the lock, unless the certifiers passed it only after their
    period was up; the stake vote ends before the lock does exactly if they passed it earlier.
  */
  lemma LockedWhenDecided(config: Config, states: seq<State>, actions: seq<Action>, i: nat, id: nat)
    requires IsRun(config, states, actions) && i < |states| && id in states[i].proposals
    requires states[i].proposals[id].kind.Claim? && Voting(states[i].proposals[id].status)
    ensures var p, lockEnd := states[i].proposals[id], LockEnd(config, states[i].proposals[id].submit);
            && (p.votingEnd <= lockEnd <==> p.status.CertifierVoting? || p.votingStart <= p.submit + config.votingPeriod)
            && (p.status.ValidatorVoting? ==> (p.votingEnd < lockEnd <==> p.votingStart < p.submit + config.votingPeriod))
  {
    RunKeeps(config, states, actions, i);
    assert ProposalOk(config, states[i], id);
  }
}
