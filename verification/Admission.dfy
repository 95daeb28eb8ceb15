/**
  What is let in: when a proposal leaves its deposit period, whose ballots count in a round, and
  which claims are taken.
*/
module Admission {
  import opened WithdrawQueue
  import opened Split
  import opened Totals
  import opened Tally
  import opened Decision
  import P = Purchases
  import C = Claims
  import Market
  import opened Gov
  import opened GovSteps
  import opened GovRuns

  // ----- Deposits -----

  /**
    A proposal is in its deposit period exactly as long as its deposits are below the minimum,
    unless a council member proposed it or it is a claim; and that period has the length it should.
  */
  ghost predicate Seated(config: Config, p: Proposal) {
    && (p.status.DepositPeriod? <==> !p.council && !p.kind.Claim? && p.totalDeposit < config.minDeposit)
    && (p.status.DepositPeriod? ==> p.depositEnd == p.submit + config.depositPeriod)
  }

  ghost predicate AllSeated(config: Config, s: State) {
    forall id :: id in s.proposals ==> Seated(config, s.proposals[id])
  }

  lemma ActivateSeats(config: Config, s: State, id: nat)
    requires id in s.proposals
    ensures var p, p' := s.proposals[id], Activate(config, s, id).proposals[id];
            && Voting(p'.status) && p'.council == p.council && p'.kind == p.kind && p'.totalDeposit == p.totalDeposit
  {
  }

  /** Whatever is deposited on, is where its deposits say. */
  lemma AddDepositSeats(config: Config, s: State, id: nat, depositor: Address, amount: nat)
    requires Depositable(s, id) && s.proposals[id].depositEnd == s.proposals[id].submit + config.depositPeriod
    ensures var s' := AddDeposit(config, s, id, depositor, amount); id in s'.proposals && Seated(config, s'.proposals[id])
  {
    var p := s.proposals[id].(totalDeposit := s.proposals[id].totalDeposit + amount);
    ActivateSeats(config, s.(escrow := s.escrow + amount, proposals := s.proposals[id := p]), id);
  }

  lemma IntroducedSeats(config: Config, s: State, kind: Kind, proposer: Address, council: bool, amount: nat)
    requires AllSeated(config, s) && s.nextId !in s.proposals
    ensures AllSeated(config, Introduced(config, s, kind, proposer, council, amount))
  {
    hide AddDeposit, Activate, Seated;
    var m, id := Create(config, s, kind, proposer, council), s.nextId;
    IntroducedOthers(config, s, kind, proposer, council, amount);
    if council {
      ActivateSeats(config, m, id);
      CouncilSeated(config, Activate(config, m, id).proposals[id]);
    } else {
      AddDepositSeats(config, m, id, proposer, amount);
    }
  }

  lemma CouncilSeated(config: Config, p: Proposal)
    requires p.council && !p.status.DepositPeriod?
    ensures Seated(config, p)
  {
  }

  /** A proposal that is voted on goes on being voted on, or is finished; what it is does not change. */
  ghost predicate Proceeds(p: Proposal, p': Proposal) {
    !p'.status.DepositPeriod? && p'.council == p.council && p'.kind == p.kind && p'.totalDeposit == p.totalDeposit
  }

  lemma ProceedsSeated(config: Config, s: State, s': State, id: nat)
    requires AllSeated(config, s) && id in s.proposals && id in s'.proposals && Voting(s.proposals[id].status)
    requires s'.proposals == s.proposals[id := s'.proposals[id]] && Proceeds(s.proposals[id], s'.proposals[id])
    ensures AllSeated(config, s')
  {
  }

  lemma ProcessActiveProceeds(config: Config, s: State, id: nat, env: Env)
    requires id in s.proposals && Voting(s.proposals[id].status)
    ensures Proceeds(s.proposals[id], ProcessActive(config, s, id, env).proposals[id])
  {
    hide Total, Deposited, OtherDeposits;
    if s.proposals[id].status.CertifierVoting? {
    } else {
      match env.stake(id)
      case Vetoed =>
      case Rejected =>
      case Passed =>
    }
  }

  lemma ProcessSecurityProceeds(config: Config, s: State, id: nat, env: Env)
    requires id in s.proposals && Voting(s.proposals[id].status)
    ensures Proceeds(s.proposals[id], ProcessSecurity(config, s, id, env).proposals[id])
  {
  }

  lemma {:induction false} DropAllSeats(config: Config, s: State, ids: seq<nat>)
    requires AllSeated(config, s) && DropAll(s, ids).Ok?
    ensures AllSeated(config, DropAll(s, ids).state)
    decreases |ids|
  {
    if ids != [] {
      hide Seated;
      DropAllSeats(config, Drop(s, ids[0]), ids[1..]);
    }
  }

  lemma {:induction false} ActiveAllSeats(config: Config, s: State, ids: seq<nat>, env: Env)
    requires AllSeated(config, s) && AllIn(s, ids, false) && ActiveAll(config, s, ids, env).Ok?
    ensures AllSeated(config, ActiveAll(config, s, ids, env).state)
    decreases |ids|
  {
    if ids != [] {
      assert ids[0] in ids;
      hide Seated, AllSeated, ProcessActive;
      var m := ProcessActive(config, s, ids[0], env);
      ProcessActiveOthers(config, s, ids[0], env);
      ProcessActiveProceeds(config, s, ids[0], env);
      ProceedsSeated(config, s, m, ids[0]);
      AllInRest(s, m, ids, false);
      ActiveAllSeats(config, m, ids[1..], env);
    }
  }

  lemma {:induction false} SecurityAllSeats(config: Config, s: State, ids: seq<nat>, env: Env)
    requires AllSeated(config, s) && AllIn(s, ids, false) && SecurityAll(config, s, ids, env).Ok?
    ensures AllSeated(config, SecurityAll(config, s, ids, env).state)
    decreases |ids|
  {
    if ids != [] {
      assert ids[0] in ids;
      hide Seated, AllSeated, ProcessSecurity;
      var m := ProcessSecurity(config, s, ids[0], env);
      ProcessSecurityOthers(config, s, ids[0], env);
      ProcessSecurityProceeds(config, s, ids[0], env);
      ProceedsSeated(config, s, m, ids[0]);
      AllInRest(s, m, ids, false);
      SecurityAllSeats(config, m, ids[1..], env);
    }
  }

  lemma EndBlockSeats(config: Config, s: State, agenda: Agenda, env: Env)
    requires Inv(config, s) && AllSeated(config, s) && Follows(config, s, agenda, env)
    ensures EndBlock(config, s, agenda, env).Ok? && AllSeated(config, EndBlock(config, s, agenda, env).state)
  {
    hide Inv, AllSeated, Lists, AllIn, FinishedStay, DropAll, ActiveAll, SecurityAll, UpTo;
    ListedDepositing(config, s, agenda.dropped);
    DropAllKeeps(config, s, agenda.dropped);
    DropAllSeats(config, s, agenda.dropped);
    var s1 := DropAll(s, agenda.dropped).state;
    ListedVoting(config, s1, agenda.ended);
    ActiveAllKeeps(config, s1, agenda.ended, env);
    ActiveAllSeats(config, s1, agenda.ended, env);
    var s2 := ActiveAll(config, s1, agenda.ended, env).state;
    ListedVoting(config, s2, agenda.voting);
    SecurityAllKeeps(config, s2, agenda.voting, env);
    SecurityAllSeats(config, s2, agenda.voting, env);
  }

  lemma MessageSeats(config: Config, s: State, action: Action)
    requires Inv(config, s) && AllSeated(config, s) && !action.EndOfBlock? && Possible(config, s, action)
    ensures AllSeated(config, Step(config, s, action).state)
  {
    NotYet(config, s);
    hide Inv, Seated, Introduced, AddDeposit, Secured, Market.Traded;
    match action
    case SubmitProposal(kind, proposer, council, amount, totalCollateral, lasts) =>
      IntroducedSeats(config, s, kind, proposer, council, amount);
    case Deposit(id, depositor, amount) =>
      AddDepositOthers(config, s, id, depositor, amount);
      if Depositable(s, id) {
        SeatedPeriod(config, s.proposals[id]);
        AddDepositSeats(config, s, id, depositor, amount);
      }
    case _ =>
  }

  lemma NotYet(config: Config, s: State)
    requires Inv(config, s)
    ensures s.nextId !in s.proposals
  {
    assert ProposalOk(config, s, s.nextId);
  }

  lemma SeatedPeriod(config: Config, p: Proposal)
    requires Seated(config, p) && p.status.DepositPeriod?
    ensures p.depositEnd == p.submit + config.depositPeriod
  {
  }

  /** In every run, exactly the proposals short of the minimum deposit wait for more, save those of the council and claims. */
  lemma {:induction false} RunSeated(config: Config, states: seq<State>, actions: seq<Action>, i: nat)
    requires IsRun(config, states, actions) && i < |states|
    ensures AllSeated(config, states[i])
  {
    hide IsRun, Inv, Possible, Step, Seated;
    RunFirst(config, states, actions);
    if i > 0 {
      RunKeeps(config, states, actions, i - 1);
      RunSeated(config, states, actions, i - 1);
      RunStep(config, states, actions, i);
      StepSeats(config, states[i - 1], actions[i - 1]);
    }
  }

  lemma StepSeats(config: Config, s: State, action: Action)
    requires Inv(config, s) && AllSeated(config, s) && Possible(config, s, action)
    ensures Step(config, s, action).Ok? && AllSeated(config, Step(config, s, action).state)
  {
    hide Inv, AllSeated, FinishedStay, EndBlock, Follows;
    StepKeeps(config, s, action);
    match action
    case EndOfBlock(agenda, env) => EndBlockSeats(config, s, agenda, env);
    case _ => MessageSeats(config, s, action);
  }

  lemma RunStep(config: Config, states: seq<State>, actions: seq<Action>, i: nat)
    requires IsRun(config, states, actions) && 0 < i < |states|
    ensures |states| == |actions| + 1 && Possible(config, states[i - 1], actions[i - 1])
    ensures Step(config, states[i - 1], actions[i - 1]) == Ok(states[i])
  {
    hide Possible, Step;
    assert Step(config, states[i - 1], actions[i - 1]) == Ok(states[i - 1 + 1]);
  }

  // ----- Ballots -----

  /** A ballot cast by someone who may vote in the round that is on. */
  ghost predicate Entitled(s: State, action: Action, share: Share, option: Option) {
    && action.Ballot? && Share(action.id, action.voter) == share && action.option == option
    && share.id in s.proposals && Voting(s.proposals[share.id].status)
    && (s.proposals[share.id].status.CertifierVoting? ==> action.certifier)
    && (s.proposals[share.id].status.ValidatorVoting? && s.proposals[share.id].kind.Claim? ==> action.identity)
  }

  /** A ballot that may be cast is on record, and none but the voter's own is touched; one that may not changes nothing. */
  lemma BallotTakenIff(s: State, id: nat, voter: Address, option: Option, certifier: bool, identity: bool)
    ensures var s', taken := CastVote(s, id, voter, option, certifier, identity),
              && Entitled(s, Ballot(id, voter, option, certifier, identity), Share(id, voter), option)
              && (s.proposals[id].status.CertifierVoting? ==> option == Yes || option == No);
            && (taken ==> Share(id, voter) in s'.votes && s'.votes[Share(id, voter)] == option)
            && (forall share :: share != Share(id, voter) ==> (share in s'.votes <==> share in s.votes) && (share in s.votes ==> s'.votes[share] == s.votes[share]))
            && s' == s.(votes := s'.votes) && (!taken ==> s' == s)
  {
  }

  /** The ballots there are were there before, and those of a proposal still voted on in the same round. */
  ghost predicate VotesCarry(s: State, s': State) {
    forall share :: share in s'.votes ==>
      && share in s.votes && s'.votes[share] == s.votes[share]
      && (share.id in s'.proposals && Voting(s'.proposals[share.id].status) ==>
            share.id in s.proposals && s'.proposals[share.id].status == s.proposals[share.id].status)
  }

  lemma VotesCarryTwice(s: State, m: State, s': State)
    requires VotesCarry(s, m) && VotesCarry(m, s')
    ensures VotesCarry(s, s')
  {
  }

  lemma DropCarries(s: State, id: nat)
    requires id in s.proposals
    ensures VotesCarry(s, Drop(s, id))
  {
  }

  lemma NextRoundCarries(config: Config, s: State, id: nat, pass: bool)
    requires id in s.proposals
    ensures VotesCarry(s, NextRound(config, s, id, pass))
  {
    ActivateOthers(config, ClearVotes(if pass then Win(s, id, Certifier) else s, id), id);
  }

  lemma ProcessActiveCarries(config: Config, s: State, id: nat, env: Env)
    requires id in s.proposals
    ensures VotesCarry(s, ProcessActive(config, s, id, env))
  {
    hide Total, Deposited, OtherDeposits, NextRound;
    if s.proposals[id].status.CertifierVoting? {
      NextRoundCarries(config, s, id, env.security(id));
    } else {
      match env.stake(id)
      case Vetoed =>
      case Rejected =>
      case Passed =>
    }
  }

  lemma ProcessSecurityCarries(config: Config, s: State, id: nat, env: Env)
    requires id in s.proposals
    ensures VotesCarry(s, ProcessSecurity(config, s, id, env))
  {
    hide NextRound;
    NextRoundCarries(config, s, id, true);
  }

  lemma {:induction false} DropAllCarries(s: State, ids: seq<nat>)
    requires DropAll(s, ids).Ok?
    ensures VotesCarry(s, DropAll(s, ids).state)
    decreases |ids|
  {
    if ids != [] {
      hide VotesCarry, Drop;
      DropCarries(s, ids[0]);
      DropAllCarries(Drop(s, ids[0]), ids[1..]);
      VotesCarryTwice(s, Drop(s, ids[0]), DropAll(s, ids).state);
    }
  }

  lemma {:induction false} ActiveAllCarries(config: Config, s: State, ids: seq<nat>, env: Env)
    requires ActiveAll(config, s, ids, env).Ok?
    ensures VotesCarry(s, ActiveAll(config, s, ids, env).state)
    decreases |ids|
  {
    if ids != [] {
      hide VotesCarry, ProcessActive;
      var m := ProcessActive(config, s, ids[0], env);
      ProcessActiveCarries(config, s, ids[0], env);
      ActiveAllCarries(config, m, ids[1..], env);
      VotesCarryTwice(s, m, ActiveAll(config, s, ids, env).state);
    }
  }

  lemma {:induction false} SecurityAllCarries(config: Config, s: State, ids: seq<nat>, env: Env)
    requires SecurityAll(config, s, ids, env).Ok?
    ensures VotesCarry(s, SecurityAll(config, s, ids, env).state)
    decreases |ids|
  {
    if ids != [] {
      hide VotesCarry, ProcessSecurity;
      var m := ProcessSecurity(config, s, ids[0], env);
      ProcessSecurityCarries(config, s, ids[0], env);
      SecurityAllCarries(config, m, ids[1..], env);
      VotesCarryTwice(s, m, SecurityAll(config, s, ids, env).state);
    }
  }

  lemma EndBlockCarries(config: Config, s: State, agenda: Agenda, env: Env)
    requires EndBlock(config, s, agenda, env).Ok?
    ensures VotesCarry(s, EndBlock(config, s, agenda, env).state)
  {
    hide VotesCarry, DropAll, ActiveAll, SecurityAll;
    var s1 := DropAll(s, agenda.dropped).state;
    var s2 := ActiveAll(config, s1, agenda.ended, env).state;
    DropAllCarries(s, agenda.dropped);
    ActiveAllCarries(config, s1, agenda.ended, env);
    SecurityAllCarries(config, s2, agenda.voting, env);
    VotesCarryTwice(s, s1, s2);
    VotesCarryTwice(s, s2, SecurityAll(config, s2, agenda.voting, env).state);
  }

  /** A message adds a ballot only if it is one that may be cast. */
  lemma MessageBallots(config: Config, s: State, action: Action, share: Share)
    requires Inv(config, s) && !action.EndOfBlock? && Possible(config, s, action)
    requires var s' := Step(config, s, action).state; share in s'.votes && share.id in s'.proposals && Voting(s'.proposals[share.id].status)
    ensures var s' := Step(config, s, action).state;
            && share.id in s.proposals && s'.proposals[share.id].status == s.proposals[share.id].status
            && (Entitled(s, action, share, s'.votes[share]) || (share in s.votes && s.votes[share] == s'.votes[share]))
  {
    NotYet(config, s);
    BallotKept(config, s, share);
    hide Inv, Activate, AddDeposit, Introduced, Secured, Market.Traded;
    match action
    case SubmitProposal(kind, proposer, council, amount, totalCollateral, lasts) =>
      IntroducedOthers(config, s, kind, proposer, council, amount);
      IntroducedVotes(config, s, kind, proposer, council, amount);
    case Deposit(id, depositor, amount) =>
      AddDepositOthers(config, s, id, depositor, amount);
      AddDepositVotes(config, s, id, depositor, amount);
    case _ =>
  }

  /** There are no ballots before a proposal is voted on. */
  lemma BallotKept(config: Config, s: State, share: Share)
    requires Inv(config, s)
    ensures share in s.votes ==> share.id in s.proposals && !s.proposals[share.id].status.DepositPeriod?
  {
    assert ProposalOk(config, s, share.id);
  }

  lemma AddDepositVotes(config: Config, s: State, id: nat, depositor: Address, amount: nat)
    ensures AddDeposit(config, s, id, depositor, amount).votes == s.votes
  {
  }

  lemma IntroducedVotes(config: Config, s: State, kind: Kind, proposer: Address, council: bool, amount: nat)
    ensures Introduced(config, s, kind, proposer, council, amount).votes == s.votes
  {
    AddDepositVotes(config, Create(config, s, kind, proposer, council), s.nextId, proposer, amount);
  }

  /** Every ballot that a round has to count was cast in that round, by someone who may. */
  ghost predicate CastIn(states: seq<State>, actions: seq<Action>, i: nat, share: Share, option: Option, status: Status) {
    exists j :: 0 <= j < i && j < |states| && j < |actions| && Entitled(states[j], actions[j], share, option) && states[j].proposals[share.id].status == status
  }

  lemma {:induction false} RunBallots(config: Config, states: seq<State>, actions: seq<Action>, i: nat, share: Share)
    requires IsRun(config, states, actions) && i < |states|
    requires share in states[i].votes && share.id in states[i].proposals && Voting(states[i].proposals[share.id].status)
    ensures CastIn(states, actions, i, share, states[i].votes[share], states[i].proposals[share.id].status)
  {
    hide IsRun, Inv, Possible, Step, Entitled, CastIn;
    RunFirst(config, states, actions);
    if i > 0 {
      RunKeeps(config, states, actions, i - 1);
      RunStep(config, states, actions, i);
      var s, s', action := states[i - 1], states[i], actions[i - 1];
      StepBallots(config, s, action, share);
      var option, status := s'.votes[share], s'.proposals[share.id].status;
      if Entitled(s, action, share, option) {
        CastNow(states, actions, i, share, option, status);
      } else {
        RunBallots(config, states, actions, i - 1, share);
        CastBefore(states, actions, i, share, option, status);
      }
    }
  }

  lemma RunFirst(config: Config, states: seq<State>, actions: seq<Action>)
    requires IsRun(config, states, actions)
    ensures states != [] && states[0].votes == map[] && states[0].proposals == map[]
  {
    hide Possible, Step;
  }

  lemma CastNow(states: seq<State>, actions: seq<Action>, i: nat, share: Share, option: Option, status: Status)
    requires 0 < i < |states| && i <= |actions| && Entitled(states[i - 1], actions[i - 1], share, option)
    requires states[i - 1].proposals[share.id].status == status
    ensures CastIn(states, actions, i, share, option, status)
  {
  }

  lemma CastBefore(states: seq<State>, actions: seq<Action>, i: nat, share: Share, option: Option, status: Status)
    requires 0 < i && CastIn(states, actions, i - 1, share, option, status)
    ensures CastIn(states, actions, i, share, option, status)
  {
    hide Entitled;
  }

  lemma StepBallots(config: Config, s: State, action: Action, share: Share)
    requires Inv(config, s) && Possible(config, s, action) && Step(config, s, action).Ok?
    requires var s' := Step(config, s, action).state; share in s'.votes && share.id in s'.proposals && Voting(s'.proposals[share.id].status)
    ensures var s' := Step(config, s, action).state;
            && share.id in s.proposals && s'.proposals[share.id].status == s.proposals[share.id].status
            && (Entitled(s, action, share, s'.votes[share]) || (share in s.votes && s.votes[share] == s'.votes[share]))
  {
    hide Inv, EndBlock, Follows;
    match action
    case EndOfBlock(agenda, env) => EndBlockCarries(config, s, agenda, env);
    case _ => MessageBallots(config, s, action, share);
  }

  // ----- Claims -----

  /** A claim is about a purchase that protects still and has shield enough. */
  ghost predicate Covers(s: State, kind: Kind)
    requires kind.Claim?
  {
    var k := P.Key(kind.pool, kind.claimant);
    k in s.book.lists && exists p :: p in s.book.lists[k] && p.id == kind.purchase && p.shield >= kind.loss && p.protectionEnd >= s.now
  }

  lemma {:induction false} FoundIs(list: seq<P.Purchase>, p: P.Purchase)
    requires P.Distinct(list) && p in list
    ensures C.Find(list, p.id) < |list| && list[C.Find(list, p.id)] == p
  {
    var i := C.Find(list, p.id);
    var j :| 0 <= j < |list| && list[j] == p;
    Alike(list, i, j);
  }

  lemma Alike(list: seq<P.Purchase>, i: nat, j: nat)
    requires P.Distinct(list) && i < |list| && j < |list| && list[i].id == list[j].id
    ensures i == j
  {
  }

  lemma ClaimableIff(s: State, kind: Kind)
    requires P.Inv(s.book) && kind.Claim?
    ensures Claimable(s, kind) <==> Covers(s, kind)
  {
    var k := ClaimKey(kind);
    if k in s.book.lists {
      assert P.ListOk(s.book, s.book.lists[k]);
      hide P.Inv;
      if Covers(s, kind) {
        var p :| p in s.book.lists[k] && p.id == kind.purchase && p.shield >= kind.loss && p.protectionEnd >= s.now;
        FoundIs(s.book.lists[k], p);
      }
    }
  }

  /** The shield of a pool is at least that of any of its purchases. */
  lemma PoolHolds(b: P.Book, k: P.Key, p: P.Purchase)
    requires P.Inv(b) && k in b.lists && p in b.lists[k]
    ensures p.shield <= b.pools[k.pool].shield
  {
    forall j | j in b.lists
      ensures 0 <= P.InPool(k.pool)(j, b.lists[j])
    {
      assert P.ListOk(b, b.lists[j]);
      SumsNonNegative(b.lists[j]);
    }
    TotalAtLeast(b.lists, P.InPool(k.pool), k);
    assert P.ListOk(b, b.lists[k]);
    SumsHold(b.lists[k], p);
  }

  lemma {:induction false} SumsNonNegative(list: seq<P.Purchase>)
    requires forall p :: p in list ==> 0 <= p.shield
    ensures 0 <= P.Sums(list, P.Shield())
  {
    if list != [] {
      SumsNonNegative(list[1..]);
    }
  }

  lemma {:induction false} SumsHold(list: seq<P.Purchase>, p: P.Purchase)
    requires (forall q :: q in list ==> 0 <= q.shield) && p in list
    ensures p.shield <= P.Sums(list, P.Shield())
  {
    if list[0] == p {
      SumsNonNegative(list[1..]);
    } else {
      SumsHold(list[1..], p);
    }
  }

  /**
    A claim is taken exactly if it is covered by its purchase, all that is claimed with it is within
    the collateral, of which there is some, and the stake of the providers lasts. It is voted on at
    once, its loss is off the shield, and its purchase is kept for two voting periods.
  */
  lemma ClaimTakenIff(config: Config, s: State, kind: Kind, totalCollateral: int, lasts: bool)
    requires P.Inv(s.book) && kind.Claim?
    ensures var secured := Secured(config, s, kind, totalCollateral, lasts);
            && (secured.Ok? <==> Covers(s, kind) && lasts && totalCollateral != 0 && s.book.totalClaimed + kind.loss <= totalCollateral)
            && (secured.Ok? ==>
                  && secured.book.totalShield == s.book.totalShield - kind.loss
                  && secured.book.totalClaimed == s.book.totalClaimed + kind.loss)
  {
    var b, k := s.book, ClaimKey(kind);
    ClaimableIff(s, kind);
    if Claimable(s, kind) {
      assert P.ListOk(b, b.lists[k]);
      var i := C.Find(b.lists[k], kind.purchase);
      PoolHolds(b, k, b.lists[k][i]);
      hide P.Inv, Claimable, Covers;
    }
  }

  /** The purchase a claim is taken on: less its loss, and there until two voting periods are over. */
  lemma ClaimedPurchase(config: Config, s: State, kind: Kind, totalCollateral: int, lasts: bool, p: P.Purchase)
    requires P.Inv(s.book) && kind.Claim? && Secured(config, s, kind, totalCollateral, lasts).Ok?
    requires var k := P.Key(kind.pool, kind.claimant); k in s.book.lists && p in s.book.lists[k] && p.id == kind.purchase
    ensures var k, b' := P.Key(kind.pool, kind.claimant), Secured(config, s, kind, totalCollateral, lasts).book;
            && k in b'.lists
            && P.Purchase(p.id, p.protectionEnd, Max(p.deletion, s.now + 2 * config.votingPeriod), p.shield - kind.loss) in b'.lists[k]
  {
    var b, k := s.book, ClaimKey(kind);
    assert P.ListOk(b, b.lists[k]);
    FoundIs(b.lists[k], p);
    var i := C.Find(b.lists[k], kind.purchase);
    var b' := Secured(config, s, kind, totalCollateral, lasts).book;
    assert b'.lists[k][i] == C.Claimed(p, kind.loss, LockEnd(config, s.now));
  }
}
