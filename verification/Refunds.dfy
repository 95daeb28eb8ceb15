/** What becomes of the deposits on a proposal when it is finished, over whole runs. */
module Refunds {
  import opened WithdrawQueue
  import opened Totals
  import opened Tally
  import opened Decision
  import P = Purchases
  import opened Gov
  import opened GovSteps
  import opened GovRuns

  /** A proposal and the deposits on it are as they were. */
  ghost predicate Frozen(s: State, m: State, id: nat) {
    && (id in m.proposals <==> id in s.proposals)
    && (id in s.proposals ==> m.proposals[id] == s.proposals[id])
    && Deposited(m, id) == Deposited(s, id)
  }

  lemma DropFrozen(s: State, id: nat, j: nat)
    requires id in s.proposals && j != id
    ensures Frozen(s, Drop(s, id), j)
  {
    OtherDepositsOf(s.deposits, id, j);
  }

  lemma {:induction false} DropAllFrozen(s: State, ids: seq<nat>, id: nat)
    requires id !in ids && DropAll(s, ids).Ok?
    ensures Frozen(s, DropAll(s, ids).state, id)
    decreases |ids|
  {
    if ids != [] {
      DropFrozen(s, ids[0], id);
      hide Drop, Deposited;
      DropAllFrozen(Drop(s, ids[0]), ids[1..], id);
    }
  }

  lemma ProcessActiveDeposits(config: Config, s: State, id: nat, env: Env)
    requires id in s.proposals
    ensures var s' := ProcessActive(config, s, id, env); s'.deposits == s.deposits || s'.deposits == OtherDeposits(s.deposits, id)
    ensures var s' := ProcessActive(config, s, id, env);
            id in s'.proposals && (if Terminal(s'.proposals[id].status) then s'.deposits == OtherDeposits(s.deposits, id) else s'.proposals[id].status.ValidatorVoting?)
  {
    hide Deposited, OtherDeposits, EndVetoed, EndRejected, EndPassed;
    if s.proposals[id].status.CertifierVoting? {
    } else {
      match env.stake(id)
      case Vetoed =>
      case Rejected =>
      case Passed =>
    }
  }

  lemma ProcessActiveFrozen(config: Config, s: State, id: nat, env: Env, j: nat)
    requires id in s.proposals && j != id
    ensures Frozen(s, ProcessActive(config, s, id, env), j)
  {
    hide ProcessActive, OtherDeposits;
    ProcessActiveDeposits(config, s, id, env);
    ProcessActiveOthers(config, s, id, env);
    OtherDepositsOf(s.deposits, id, j);
  }

  lemma {:induction false} ActiveAllFrozen(config: Config, s: State, ids: seq<nat>, env: Env, id: nat)
    requires id !in ids && ActiveAll(config, s, ids, env).Ok?
    ensures Frozen(s, ActiveAll(config, s, ids, env).state, id)
    decreases |ids|
  {
    if ids != [] {
      hide ProcessActive, Deposited;
      ProcessActiveFrozen(config, s, ids[0], env, id);
      ActiveAllFrozen(config, ProcessActive(config, s, ids[0], env), ids[1..], env, id);
    }
  }

  /** A proposal decided when its time is up has no deposits left, or it is in the stake round. */
  ghost predicate Cleared(s: State, id: nat) {
    id in s.proposals && if Terminal(s.proposals[id].status) then Deposited(s, id) == 0 else s.proposals[id].status.ValidatorVoting?
  }

  lemma ProcessActiveClears(config: Config, s: State, id: nat, env: Env)
    requires id in s.proposals
    ensures Cleared(ProcessActive(config, s, id, env), id)
  {
    hide ProcessActive, OtherDeposits;
    ProcessActiveDeposits(config, s, id, env);
    OtherDepositsOf(s.deposits, id, id);
  }

  lemma {:induction false} ActiveAllClears(config: Config, s: State, ids: seq<nat>, env: Env, id: nat)
    requires id in ids && (forall i, j :: 0 <= i < j < |ids| ==> ids[i] != ids[j]) && ActiveAll(config, s, ids, env).Ok?
    ensures Cleared(ActiveAll(config, s, ids, env).state, id)
    decreases |ids|
  {
    hide ProcessActive, Deposited;
    var m := ProcessActive(config, s, ids[0], env);
    if ids[0] == id {
      ProcessActiveClears(config, s, id, env);
      ActiveAllFrozen(config, m, ids[1..], env, id);
    } else {
      ActiveAllClears(config, m, ids[1..], env, id);
    }
  }

  /** Ending a certifier round early touches no deposits, and finishes only certifier updates. */
  ghost predicate OnlyUpdatesEnd(s: State, s': State, id: nat) {
    && Deposited(s', id) == Deposited(s, id)
    && (id in s.proposals <==> id in s'.proposals)
    && (id in s.proposals && s'.proposals[id] != s.proposals[id] ==> s.proposals[id].status.CertifierVoting?)
    && (id in s.proposals && Terminal(s'.proposals[id].status) && !Terminal(s.proposals[id].status) ==> s.proposals[id].kind.CertifierUpdate?)
  }

  lemma ProcessSecurityEnds(config: Config, s: State, id: nat, env: Env, j: nat)
    requires id in s.proposals
    ensures OnlyUpdatesEnd(s, ProcessSecurity(config, s, id, env), j)
    ensures j == id || Frozen(s, ProcessSecurity(config, s, id, env), j)
    ensures id in ProcessSecurity(config, s, id, env).proposals
  {
    hide Total;
  }

  lemma {:induction false} SecurityAllFrozen(config: Config, s: State, ids: seq<nat>, env: Env, id: nat)
    requires id !in ids && SecurityAll(config, s, ids, env).Ok?
    ensures Frozen(s, SecurityAll(config, s, ids, env).state, id)
    decreases |ids|
  {
    if ids != [] {
      hide ProcessSecurity, Deposited;
      ProcessSecurityEnds(config, s, ids[0], env, id);
      SecurityAllFrozen(config, ProcessSecurity(config, s, ids[0], env), ids[1..], env, id);
    }
  }

  lemma {:induction false} SecurityAllEnds(config: Config, s: State, ids: seq<nat>, env: Env, id: nat)
    requires (forall i, j :: 0 <= i < j < |ids| ==> ids[i] != ids[j]) && SecurityAll(config, s, ids, env).Ok?
    ensures OnlyUpdatesEnd(s, SecurityAll(config, s, ids, env).state, id)
    decreases |ids|
  {
    if ids != [] {
      hide ProcessSecurity, Deposited;
      var m := ProcessSecurity(config, s, ids[0], env);
      ProcessSecurityEnds(config, s, ids[0], env, id);
      if ids[0] == id {
        SecurityAllFrozen(config, m, ids[1..], env, id);
      } else {
        SecurityAllEnds(config, m, ids[1..], env, id);
      }
    }
  }

  // ----- A block -----

  /** A proposal finished while its voting period was still running. */
  predicate Early(s: State, id: nat)
    requires id in s.proposals
  {
    s.now < s.proposals[id].votingEnd
  }

  /** What a step may do to a proposal past its deposit period, and to the deposits on it. */
  ghost predicate Refunded(s: State, s': State, id: nat)
    requires id in s.proposals
  {
    id in s'.proposals &&
    var p, p' := s.proposals[id], s'.proposals[id];
    && (Terminal(p.status) ==> Frozen(s, s', id))
    && (!Terminal(p.status) && Terminal(p'.status) ==>
          if Early(s, id)
          then p.kind.CertifierUpdate? && p.status.CertifierVoting? && Deposited(s', id) == Deposited(s, id)
          else Deposited(s', id) == 0)
  }

  lemma BlockFacts(config: Config, s: State, agenda: Agenda, env: Env, id: nat)
    requires Inv(config, s) && Follows(config, s, agenda, env) && id in s.proposals && !s.proposals[id].status.DepositPeriod?
    ensures DropAll(s, agenda.dropped).Ok? && id !in agenda.dropped
    ensures var s1 := DropAll(s, agenda.dropped).state;
            && Inv(config, s1) && s1.now == s.now && Lists(agenda.ended, UpTo(s1.active, s.now)) && ActiveAll(config, s1, agenda.ended, env).Ok?
            && var s2 := ActiveAll(config, s1, agenda.ended, env).state;
               Inv(config, s2) && SecurityAll(config, s2, agenda.voting, env).Ok? && Lists(agenda.voting, s2.active)
  {
    hide Inv, ActiveAll, SecurityAll, UpTo, DropAll;
    ListedDepositing(config, s, agenda.dropped);
    DropAllKeeps(config, s, agenda.dropped);
    var s1 := DropAll(s, agenda.dropped).state;
    ListedVoting(config, s1, agenda.ended);
    ActiveAllKeeps(config, s1, agenda.ended, env);
    var s2 := ActiveAll(config, s1, agenda.ended, env).state;
    ListedVoting(config, s2, agenda.voting);
    SecurityAllKeeps(config, s2, agenda.voting, env);
  }

  /** Exactly the proposals whose time is up are on the list of those to decide. */
  lemma EndedIff(config: Config, s: State, ids: seq<nat>, id: nat)
    requires Inv(config, s) && Lists(ids, UpTo(s.active, s.now)) && id in s.proposals
    ensures id in ids <==> Voting(s.proposals[id].status) && s.proposals[id].votingEnd <= s.now
  {
    assert ProposalOk(config, s, id);
    var slot := Slot(s.proposals[id].votingEnd, id);
    assert slot in UpTo(s.active, s.now) <==> Voting(s.proposals[id].status) && s.proposals[id].votingEnd <= s.now;
    if id in ids {
      var t :| Slot(t, id) in UpTo(s.active, s.now);
    }
  }

  lemma BlockRefunds(config: Config, s: State, agenda: Agenda, env: Env, id: nat)
    requires Inv(config, s) && Follows(config, s, agenda, env) && id in s.proposals && !s.proposals[id].status.DepositPeriod?
    ensures EndBlock(config, s, agenda, env).Ok? && Refunded(s, EndBlock(config, s, agenda, env).state, id)
  {
    hide Inv, ActiveAll, SecurityAll, DropAll, Follows, Deposited, UpTo;
    BlockFacts(config, s, agenda, env, id);
    var s1 := DropAll(s, agenda.dropped).state;
    DropAllFrozen(s, agenda.dropped, id);
    EndedIff(config, s1, agenda.ended, id);
    var s2 := ActiveAll(config, s1, agenda.ended, env).state;
    SecurityAllEnds(config, s2, agenda.voting, env, id);
    if id in agenda.ended {
      ActiveAllClears(config, s1, agenda.ended, env, id);
    } else {
      ActiveAllFrozen(config, s1, agenda.ended, env, id);
    }
  }

  // ----- Runs -----

  lemma SameFrozen(s: State, m: State, id: nat)
    requires Same(s, m, id)
    ensures Frozen(s, m, id)
  {
  }

  lemma SubmitFrozen(config: Config, s: State, action: Action, id: nat)
    requires Inv(config, s) && action.SubmitProposal? && id in s.proposals
    ensures Frozen(s, Step(config, s, action).state, id)
  {
    assert ProposalOk(config, s, id);
    hide Inv, ProposalOk, Introduced, Secured, Same, Deposited;
    var m := Introduced(config, s, action.kind, action.proposer, action.council, action.amount);
    IntroducedSame(config, s, action.kind, action.proposer, action.council, action.amount, id);
    SameFrozen(s, m, id);
    var s' := Step(config, s, action).state;
    BookFrozen(m, s'.book, id);
  }

  lemma BookFrozen(s: State, b: P.Book, id: nat)
    ensures Frozen(s, s.(book := b), id)
  {
  }

  lemma MessageFrozen(config: Config, s: State, action: Action, id: nat)
    requires Inv(config, s) && !action.EndOfBlock? && Possible(config, s, action)
    requires id in s.proposals && !s.proposals[id].status.DepositPeriod?
    ensures Step(config, s, action).Ok? && Frozen(s, Step(config, s, action).state, id)
  {
    hide Inv, Same;
    match action
    case SubmitProposal(kind, proposer, council, amount, totalCollateral, lasts) => SubmitFrozen(config, s, action, id);
    case Deposit(j, depositor, amount) =>
      if j != id {
        AddDepositSame(config, s, j, depositor, amount, id);
        SameFrozen(s, AddDeposit(config, s, j, depositor, amount), id);
      }
    case Ballot(j, voter, option, certifier, identity) =>
    case Trading(trade) =>
    case NextBlock(time) =>
  }

  lemma StepRefunds(config: Config, s: State, action: Action, id: nat)
    requires Inv(config, s) && Possible(config, s, action) && id in s.proposals && !s.proposals[id].status.DepositPeriod?
    ensures Step(config, s, action).Ok? && Refunded(s, Step(config, s, action).state, id)
  {
    hide Inv, Deposited, EndBlock, Follows;
    if action.EndOfBlock? {
      BlockRefunds(config, s, action.agenda, action.env, id);
    } else {
      MessageFrozen(config, s, action, id);
    }
  }

  lemma RunRefundsNext(config: Config, states: seq<State>, actions: seq<Action>, i: nat, id: nat)
    requires IsRun(config, states, actions) && i < |actions| && id in states[i].proposals && !states[i].proposals[id].status.DepositPeriod?
    ensures Refunded(states[i], states[i + 1], id)
    ensures !Terminal(states[i].proposals[id].status) ==> states[i].proposals[id].totalDeposit == Deposited(states[i], id)
  {
    RunKeeps(config, states, actions, i);
    assert ProposalOk(config, states[i], id);
    hide Inv, Step, Deposited;
    StepRefunds(config, states[i], actions[i], id);
  }

  /**
    What is left of the deposits on a proposal once it is finished, for the rest of the run: all of
    them if it was finished before its voting period was over, nothing otherwise. Only certifier
    updates are finished early, in the certifier round.
  */
  lemma {:induction false} RunRefunds(config: Config, states: seq<State>, actions: seq<Action>, i: nat, k: nat, id: nat)
    requires IsRun(config, states, actions) && i < k < |states|
    requires id in states[i].proposals && Voting(states[i].proposals[id].status)
    requires id in states[i + 1].proposals && Terminal(states[i + 1].proposals[id].status)
    ensures id in states[k].proposals && Terminal(states[k].proposals[id].status)
    ensures Deposited(states[k], id) == if Early(states[i], id) then states[i].proposals[id].totalDeposit else 0
    ensures Early(states[i], id) ==> states[i].proposals[id].kind.CertifierUpdate? && states[i].proposals[id].status.CertifierVoting?
    decreases k
  {
    hide IsRun, Deposited;
    RunLength(config, states, actions);
    if k == i + 1 {
      RunRefundsNext(config, states, actions, i, id);
    } else {
      RunRefunds(config, states, actions, i, k - 1, id);
      RunRefundsNext(config, states, actions, k - 1, id);
    }
  }

  lemma RunLength(config: Config, states: seq<State>, actions: seq<Action>)
    requires IsRun(config, states, actions)
    ensures |states| == |actions| + 1
  {
  }

  // ----- A certifier update passed early -----

  const CONFIG: Config := Config(1, 10, 10)

  const SUBMISSION: Action := SubmitProposal(CertifierUpdate, 1, false, 1, 0, true)

  /** All certifiers have voted for the proposal at once. */
  function Unanimous(): Env {
    Env((id: nat) => true, (id: nat) => Verdict.Rejected, (id: nat) => true)
  }

  function Submitted(): State {
    Genesis(0).(
      proposals := map[1 := Proposal(CertifierUpdate, 1, CertifierVoting, false, 0, 10, 0, 10, 1)],
      active := {Slot(10, 1)}, deposits := map[Share(1, 1) := 1], escrow := 1, won := map[1 := {}], nextId := 2)
  }

  lemma SubmittedIs()
    ensures Step(CONFIG, Genesis(0), SUBMISSION) == Ok(Submitted())
  {
    var created := Create(CONFIG, Genesis(0), CertifierUpdate, 1, false);
    var s := Step(CONFIG, Genesis(0), SUBMISSION).state;
    assert created.inactive == {Slot(10, 1)};
    assert s.inactive == {};
    assert s.active == {Slot(10, 1)};
    assert s.proposals == Submitted().proposals;
    assert s.deposits == Submitted().deposits;
  }

  /** A certifier update submitted with a deposit of one and passed in the same block: the deposit stays behind. */
  lemma DepositLeftBehind()
    ensures var s := ProcessSecurity(CONFIG, Submitted(), 1, Unanimous());
            && IsRun(CONFIG, [Genesis(0), Submitted(), s], [SUBMISSION, EndOfBlock(Agenda([], [], [1]), Unanimous())])
            && s.proposals[1].status == Status.Passed && Deposited(s, 1) == 1 == s.escrow
  {
    SubmittedIs();
    var s1, env, agenda := Submitted(), Unanimous(), Agenda([], [], [1]);
    var s := ProcessSecurity(CONFIG, s1, 1, env);
    assert s.proposals[1].status == Status.Passed && s.escrow == 1;
    EarlyBlock(s1, env, agenda);
    hide Step, ProcessSecurity, Deposited, EndBlock, Follows;
    var states, actions := [Genesis(0), s1, s], [SUBMISSION, EndOfBlock(agenda, env)];
    EarlyRun(states, actions);
    RunRefunds(CONFIG, states, actions, 1, 2, 1);
  }

  lemma EarlyBlock(s: State, env: Env, agenda: Agenda)
    requires s == Submitted() && env == Unanimous() && agenda == Agenda([], [], [1])
    ensures Follows(CONFIG, s, agenda, env) && EndBlock(CONFIG, s, agenda, env) == Ok(ProcessSecurity(CONFIG, s, 1, env))
  {
    hide ProcessSecurity;
    assert UpTo(s.inactive, s.now) == {} && UpTo(s.active, s.now) == {};
    assert Lists([], UpTo(s.inactive, s.now)) && Lists([], UpTo(s.active, s.now));
    assert Slot(10, 1) in s.active;
    assert Lists([1], s.active);
    assert [1][1..] == [];
    assert SecurityAll(CONFIG, ProcessSecurity(CONFIG, s, 1, env), [], env) == Ok(ProcessSecurity(CONFIG, s, 1, env));
  }

  lemma EarlyRun(states: seq<State>, actions: seq<Action>)
    requires |states| == 3 && |actions| == 2 && states[0] == Genesis(0) && actions[0] == SUBMISSION && actions[1].EndOfBlock?
    requires Step(CONFIG, states[0], actions[0]) == Ok(states[1])
    requires Follows(CONFIG, states[1], actions[1].agenda, actions[1].env)
    requires EndBlock(CONFIG, states[1], actions[1].agenda, actions[1].env) == Ok(states[2])
    ensures IsRun(CONFIG, states, actions)
  {
    hide EndBlock, Follows, Submit;
    forall i | 0 <= i < |actions|
      ensures Possible(CONFIG, states[i], actions[i]) && Step(CONFIG, states[i], actions[i]) == Ok(states[i + 1])
    {
      assert i == 0 || i == 1;
    }
  }
}
