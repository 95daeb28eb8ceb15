/**
  Governance as a state machine: proposals, the two queues they wait in, the deposits held for
  them, their votes, and the shield claims they drive.
*/
module Gov {
  import opened WithdrawQueue
  import opened Totals
  import opened Tally
  import opened Decision
  import opened Purchases
  import opened Claims

  /** Upgrades and claims must win both rounds, certifier updates one of them, all else the stake round. */
  datatype Kind = Text | Upgrade | CertifierUpdate | Claim(claimant: Address, pool: nat, purchase: nat, loss: nat)

  datatype Status = DepositPeriod | CertifierVoting | ValidatorVoting | Passed | Rejected | Failed

  datatype Round = Certifier | Stake

  datatype Proposal = Proposal(
    kind: Kind,
    proposer: Address,
    status: Status,
    council: bool,
    submit: int,
    depositEnd: int,
    votingStart: int,
    votingEnd: int,
    totalDeposit: nat)

  /** A queue entry. */
  datatype Slot = Slot(time: int, id: nat)

  /** A proposal and one of its depositors or voters. */
  datatype Share = Share(id: nat, who: Address)

  datatype Config = Config(minDeposit: nat, depositPeriod: nat, votingPeriod: nat)

  /**
    The governance store, the coins held for deposits and those burnt, the rounds each proposal has
    won so far, and the pools and purchases that claims are about.
  */
  datatype State = State(
    now: int,
    proposals: map<nat, Proposal>,
    inactive: set<Slot>,
    active: set<Slot>,
    deposits: map<Share, nat>,
    escrow: int,
    burnt: int,
    votes: map<Share, Option>,
    won: map<nat, set<Round>>,
    book: Book,
    nextId: nat)

  predicate Voting(status: Status) {
    status.CertifierVoting? || status.ValidatorVoting?
  }

  predicate Terminal(status: Status) {
    status.Passed? || status.Rejected? || status.Failed?
  }

  function LossOf(kind: Kind): nat {
    if kind.Claim? then kind.loss else 0
  }

  // ----- Steps on one proposal -----

  /** Moves a proposal into its next voting period, and to the queue for it. */
  function Activate(config: Config, s: State, id: nat): State
    requires id in s.proposals
  {
    var p := s.proposals[id];
    var end := s.now + config.votingPeriod;
    var voting := p.(votingStart := s.now, votingEnd := end);
    var (p', active) :=
      if !p.kind.Text? && !p.status.CertifierVoting? then (voting.(status := CertifierVoting), s.active)
      else if p.status.CertifierVoting? then (voting.(status := ValidatorVoting), s.active - {Slot(p.votingEnd, id)})
      else (voting.(status := ValidatorVoting, depositEnd := s.now), s.active);
    s.(proposals := s.proposals[id := p'], inactive := s.inactive - {Slot(p.depositEnd, id)}, active := active + {Slot(end, id)})
  }

  predicate Depositable(s: State, id: nat) {
    id in s.proposals && s.proposals[id].status.DepositPeriod? && !s.proposals[id].council
  }

  function DepositAt(s: State, share: Share): nat {
    if share in s.deposits then s.deposits[share] else 0
  }

  function AddDeposit(config: Config, s: State, id: nat, depositor: Address, amount: nat): State {
    if !Depositable(s, id) then s else
    var p := s.proposals[id].(totalDeposit := s.proposals[id].totalDeposit + amount);
    var paid := s.(escrow := s.escrow + amount, proposals := s.proposals[id := p]);
    var moved := if p.totalDeposit >= config.minDeposit || p.kind.Claim? then Activate(config, paid, id) else paid;
    moved.(deposits := s.deposits[Share(id, depositor) := DepositAt(s, Share(id, depositor)) + amount])
  }

  /** A new proposal in its deposit period. */
  function Create(config: Config, s: State, kind: Kind, proposer: Address, council: bool): State {
    var id, end := s.nextId, s.now + config.depositPeriod;
    s.(proposals := s.proposals[id := Proposal(kind, proposer, DepositPeriod, council, s.now, end, 0, 0, 0)],
       inactive := s.inactive + {Slot(end, id)}, won := s.won[id := {}], nextId := id + 1)
  }

  /** A new proposal, with voting opened at once for a council member and after a first deposit for others. */
  function Introduced(config: Config, s: State, kind: Kind, proposer: Address, council: bool, amount: nat): State {
    var created := Create(config, s, kind, proposer, council);
    if council then Activate(config, created, s.nextId) else AddDeposit(config, created, s.nextId, proposer, amount)
  }

  /** The purchase a claim is about, as it is secured and paid out, and as it is restored. */
  function ClaimKey(kind: Kind): Key
    requires kind.Claim?
  {
    Key(kind.pool, kind.claimant)
  }

  /** A claim must be about a purchase that is there, protects still, and has shield enough. */
  predicate Claimable(s: State, kind: Kind)
    requires kind.Claim?
  {
    var k := ClaimKey(kind);
    k in s.book.lists &&
    var list := s.book.lists[k];
    var i := Find(list, kind.purchase);
    i < |list| && list[i].shield >= kind.loss && list[i].protectionEnd >= s.now
  }

  /** How long the collateral for a claim is locked: for two voting periods. */
  function LockEnd(config: Config, time: int): int {
    time + 2 * config.votingPeriod
  }

  /** What securing a claim comes to; `lasts` is whether every provider has the stake for it. */
  function Secured(config: Config, s: State, kind: Kind, totalCollateral: int, lasts: bool): Outcome
    requires kind.Claim?
  {
    if !Claimable(s, kind) then Err(PurchaseNotFound)
    else if !lasts then Halt
    else Secure(s.book, totalCollateral, ClaimKey(kind), kind.purchase, kind.loss, LockEnd(config, s.now))
  }

  /** Submits a proposal; a claim that cannot be secured is refused as a whole. */
  function Submit(config: Config, s: State, kind: Kind, proposer: Address, council: bool, amount: nat, totalCollateral: int, lasts: bool): State {
    if !kind.Claim? then Introduced(config, s, kind, proposer, council, amount) else
    var secured := Secured(config, s, kind, totalCollateral, lasts);
    if secured.Ok? then Introduced(config, s, kind, proposer, council, amount).(book := secured.book) else s
  }

  /** Certifiers vote yes or no in their round, and only certified identities vote on claims in the other one. */
  function CastVote(s: State, id: nat, voter: Address, option: Option, certifier: bool, identity: bool): State {
    if id !in s.proposals || !Voting(s.proposals[id].status) then s else
    var p := s.proposals[id];
    if p.status.CertifierVoting? && (!certifier || !(option.Yes? || option.No?)) then s
    else if p.status.ValidatorVoting? && p.kind.Claim? && !identity then s
    else s.(votes := s.votes[Share(id, voter) := option])
  }

  function ClearVotes(s: State, id: nat): State {
    s.(votes := map share | share in s.votes && share.id != id :: s.votes[share])
  }

  ghost function DepositOf(id: nat): (Share, nat) -> int {
    (share: Share, amount: nat) => if share.id == id then amount else 0
  }

  ghost function AnyDeposit(share: Share, amount: nat): int {
    amount
  }

  ghost function Deposited(s: State, id: nat): int {
    Total(s.deposits, DepositOf(id))
  }

  function OtherDeposits(deposits: map<Share, nat>, id: nat): map<Share, nat> {
    map share | share in deposits && share.id != id :: deposits[share]
  }

  /** Pays back a proposal's deposits, or burns them. */
  ghost function Release(s: State, id: nat, burn: bool): State {
    var held := Deposited(s, id);
    s.(deposits := OtherDeposits(s.deposits, id), escrow := s.escrow - held, burnt := s.burnt + if burn then held else 0)
  }

  function Win(s: State, id: nat, round: Round): State {
    s.(won := s.won[id := (if id in s.won then s.won[id] else {}) + {round}])
  }

  function Finish(s: State, id: nat, status: Status): State
    requires id in s.proposals
  {
    var p := s.proposals[id];
    s.(proposals := s.proposals[id := p.(status := status)], active := s.active - {Slot(p.votingEnd, id)})
  }

  // ----- What becomes of a claim -----

  /** A vetoed claim ends without giving its loss back to the purchase. */
  function EndVetoed(b: Book, p: Proposal): Book {
    if p.kind.Claim? then ClaimEnd(b, p.kind.loss) else b
  }

  /** A rejected claim gives its loss back, to the purchase of whoever proposed it, and ends. */
  function EndRejected(b: Book, p: Proposal): Book {
    if p.kind.Claim? then ClaimEnd(Restore(b, Key(p.kind.pool, p.proposer), p.kind.purchase, p.kind.loss).0, p.kind.loss) else b
  }

  /** A claim that passes is reimbursed. */
  function EndPassed(b: Book, p: Proposal): Book {
    if p.kind.Claim? then Reimburse(b, p.kind.loss) else b
  }

  /** What a passed proposal becomes; executing a claim either succeeds or halts. */
  function Executed(kind: Kind, ok: bool): Status {
    if ok || kind.Claim? then Status.Passed else Failed
  }

  function Veto(s: State, id: nat): State
    requires id in s.proposals
  {
    Finish(s.(book := EndVetoed(s.book, s.proposals[id])), id, Status.Rejected)
  }

  function Reject(s: State, id: nat): State
    requires id in s.proposals
  {
    Finish(s.(book := EndRejected(s.book, s.proposals[id])), id, Status.Rejected)
  }

  function Pass(s: State, id: nat, round: Round, ok: bool): State
    requires id in s.proposals
  {
    var p := s.proposals[id];
    Finish(Win(s, id, round).(book := EndPassed(s.book, p)), id, Executed(p.kind, ok))
  }

  /** What the tallies and handlers of one block come to, per proposal. */
  datatype Env = Env(security: nat -> bool, stake: nat -> Verdict, handler: nat -> bool)

  /** The certifier round decides alone when it passes a certifier update or rejects anything else. */
  predicate EndsVoting(kind: Kind, pass: bool) {
    pass == kind.CertifierUpdate?
  }

  ghost function NextRound(config: Config, s: State, id: nat, pass: bool): State
    requires id in s.proposals
  {
    Activate(config, ClearVotes(if pass then Win(s, id, Certifier) else s, id), id)
  }

  /** A proposal whose voting period is over. */
  ghost function ProcessActive(config: Config, s: State, id: nat, env: Env): State
    requires id in s.proposals
  {
    var kind := s.proposals[id].kind;
    if s.proposals[id].status.CertifierVoting? then
      var pass := env.security(id);
      if !EndsVoting(kind, pass) then NextRound(config, s, id, pass)
      else if pass then Pass(Release(s, id, false), id, Certifier, env.handler(id))
      else Reject(Release(s, id, false), id)
    else
      match env.stake(id)
      case Vetoed => Veto(Release(ClearVotes(s, id), id, true), id)
      case Rejected => Reject(Release(ClearVotes(s, id), id, false), id)
      case Passed => Pass(Release(ClearVotes(s, id), id, false), id, Stake, env.handler(id))
  }

  /** A certifier round that has passed ends at once; the deposits stay where they are. */
  ghost function ProcessSecurity(config: Config, s: State, id: nat, env: Env): State
    requires id in s.proposals
  {
    var kind := s.proposals[id].kind;
    if !s.proposals[id].status.CertifierVoting? || !env.security(id) then s
    else if EndsVoting(kind, true) then Pass(s, id, Certifier, env.handler(id))
    else NextRound(config, s, id, true)
  }

  /** A proposal that did not gather its deposit in time. */
  ghost function Drop(s: State, id: nat): State
    requires id in s.proposals
  {
    var p := s.proposals[id];
    Release(s.(proposals := s.proposals - {id}, inactive := s.inactive - {Slot(p.depositEnd, id)},
               active := s.active - {Slot(p.votingEnd, id)}), id, false)
  }

  // ----- What every step keeps -----

  /** A proposal waits in exactly the queue, and at exactly the time, that its status calls for. */
  ghost predicate SlotsOk(s: State, id: nat) {
    && (forall t :: Slot(t, id) in s.inactive <==>
          id in s.proposals && s.proposals[id].status.DepositPeriod? && s.proposals[id].depositEnd == t)
    && (forall t :: Slot(t, id) in s.active <==>
          id in s.proposals && Voting(s.proposals[id].status) && s.proposals[id].votingEnd == t)
  }

  /** A live proposal's total is that of its deposits; a dropped one has none left. */
  ghost predicate FundsOk(s: State, id: nat) {
    && (id in s.proposals && !Terminal(s.proposals[id].status) ==> s.proposals[id].totalDeposit == Deposited(s, id))
    && (id !in s.proposals ==> forall share :: share in s.deposits ==> share.id != id)
  }

  /** The rounds a proposal has won fit how far it got. */
  ghost predicate RoundsFit(p: Proposal, won: set<Round>) {
    match p.status
    case DepositPeriod => won == {} && !p.kind.Claim?
    case CertifierVoting => won == {} && !p.kind.Text?
    case ValidatorVoting => won == if p.kind.Upgrade? || p.kind.Claim? then {Certifier} else {}
    case Rejected => true
    case _ =>
      && (p.kind.Upgrade? || p.kind.Claim? ==> won == {Certifier, Stake})
      && (p.kind.CertifierUpdate? ==> won == {Certifier} || won == {Stake})
      && (p.kind.Text? ==> won == {Stake})
      && (p.kind.Claim? ==> p.status.Passed?)
  }

  ghost predicate RoundsOk(s: State, id: nat) {
    id in s.proposals ==> id in s.won && RoundsFit(s.proposals[id], s.won[id])
  }

  /** There are no votes before a voting period, and only plain ones in the certifier round. */
  ghost predicate BallotsOk(s: State, id: nat) {
    forall share :: share in s.votes && share.id == id ==>
      && id in s.proposals && !s.proposals[id].status.DepositPeriod?
      && (s.proposals[id].status.CertifierVoting? ==> s.votes[share].Yes? || s.votes[share].No?)
  }

  ghost predicate TimesOk(config: Config, s: State, id: nat) {
    id in s.proposals && Voting(s.proposals[id].status) ==>
      var p := s.proposals[id];
      && p.votingEnd == p.votingStart + config.votingPeriod
      && p.submit <= p.votingStart <= s.now
      && (p.kind.Claim? && p.status.CertifierVoting? ==> p.votingStart == p.submit)
  }

  ghost predicate ProposalOk(config: Config, s: State, id: nat) {
    SlotsOk(s, id) && FundsOk(s, id) && RoundsOk(s, id) && BallotsOk(s, id) && TimesOk(config, s, id)
    && (id in s.proposals ==> id < s.nextId && s.proposals[id].submit <= s.now)
  }

  /** The loss of a claim that is being voted on. */
  ghost function OpenLoss(id: nat, p: Proposal): int {
    if Voting(p.status) then LossOf(p.kind) else 0
  }

  /** The escrow is the sum of all deposits, and the claimed total that of all claims being voted on. */
  ghost predicate TotalsOk(s: State) {
    s.escrow == Total(s.deposits, AnyDeposit) && s.book.totalClaimed == Total(s.proposals, OpenLoss)
  }

  ghost predicate Inv(config: Config, s: State) {
    TotalsOk(s) && forall id :: ProposalOk(config, s, id)
  }

  // ----- Steps leave other proposals alone -----

  ghost predicate SameSlots(s: State, s': State, id: nat) {
    forall t :: (Slot(t, id) in s'.inactive <==> Slot(t, id) in s.inactive) && (Slot(t, id) in s'.active <==> Slot(t, id) in s.active)
  }

  ghost predicate SameShares(s: State, s': State, id: nat) {
    && Deposited(s', id) == Deposited(s, id)
    && (forall share: Share :: share.id == id ==> (share in s'.deposits <==> share in s.deposits))
    && (forall share: Share :: share.id == id ==> (share in s'.votes <==> share in s.votes) && (share in s.votes ==> s'.votes[share] == s.votes[share]))
  }

  /** Nothing about proposal `id` differs between two states. */
  ghost predicate Same(s: State, s': State, id: nat) {
    && (id in s'.proposals <==> id in s.proposals)
    && (id in s.proposals ==> s'.proposals[id] == s.proposals[id])
    && (id in s.proposals ==> (id in s'.won <==> id in s.won) && (id in s.won ==> s'.won[id] == s.won[id]))
    && SameSlots(s, s', id)
    && SameShares(s, s', id)
  }

  lemma SameOk(config: Config, s: State, s': State, id: nat)
    requires ProposalOk(config, s, id) && Same(s, s', id) && s.now <= s'.now && s.nextId <= s'.nextId
    ensures ProposalOk(config, s', id)
  {
  }

  ghost function OpenLossAt(s: State, id: nat): int {
    if id in s.proposals then OpenLoss(id, s.proposals[id]) else 0
  }

  /** A step that touches one proposal keeps the invariant when that proposal's own books still balance. */
  lemma OneProposal(config: Config, s: State, s': State, id: nat)
    requires Inv(config, s) && ProposalOk(config, s', id) && s.now <= s'.now && s.nextId <= s'.nextId
    requires forall j :: j != id ==> Same(s, s', j)
    requires s'.proposals == if id in s'.proposals then s.proposals[id := s'.proposals[id]] else s.proposals - {id}
    requires s'.escrow - s.escrow == Total(s'.deposits, AnyDeposit) - Total(s.deposits, AnyDeposit)
    requires s'.book.totalClaimed - s.book.totalClaimed == OpenLossAt(s', id) - OpenLossAt(s, id)
    ensures Inv(config, s')
  {
    hide ProposalOk, Same;
    if id in s'.proposals {
      TotalUpdate(s.proposals, OpenLoss, id, s'.proposals[id]);
    } else {
      TotalDelete(s.proposals, OpenLoss, id);
    }
    forall j
      ensures ProposalOk(config, s', j)
    {
      if j != id {
        SameOk(config, s, s', j);
      }
    }
  }
}
