/** Every step of governance keeps its invariant. */
module GovSteps {
  import opened WithdrawQueue
  import opened Totals
  import opened Tally
  import opened Decision
  import opened Purchases
  import opened Claims
  import opened Gov

  lemma SameTwice(s: State, m: State, s': State, id: nat)
    requires Same(s, m, id) && Same(m, s', id)
    ensures Same(s, s', id)
  {
  }

  // ----- The pieces steps are made of -----

  lemma ActivateSame(config: Config, s: State, id: nat, j: nat)
    requires id in s.proposals && j != id
    ensures Same(s, Activate(config, s, id), j)
  {
  }

  lemma ClearVotesSame(s: State, id: nat, j: nat)
    requires j != id
    ensures Same(s, ClearVotes(s, id), j)
  {
  }

  lemma WinSame(s: State, id: nat, round: Round, j: nat)
    requires j != id
    ensures Same(s, Win(s, id, round), j)
  {
  }

  lemma FinishSame(s: State, id: nat, status: Status, j: nat)
    requires id in s.proposals && j != id
    ensures Same(s, Finish(s, id, status), j)
  {
  }

  lemma BookSame(s: State, b: Book, id: nat)
    ensures Same(s, s.(book := b), id)
  {
  }

  lemma EndsOf(b: Book, p: Proposal)
    ensures EndVetoed(b, p).totalClaimed == b.totalClaimed - LossOf(p.kind)
    ensures EndRejected(b, p).totalClaimed == b.totalClaimed - LossOf(p.kind)
    ensures EndPassed(b, p).totalClaimed == b.totalClaimed - LossOf(p.kind)
  {
  }

  ghost function OtherDeposit(id: nat): (Share, nat) -> int {
    (share: Share, amount: nat) => if share.id != id then amount else 0
  }

  lemma OtherDepositsTotal(deposits: map<Share, nat>, id: nat)
    ensures Total(OtherDeposits(deposits, id), AnyDeposit) == Total(deposits, AnyDeposit) - Total(deposits, DepositOf(id))
  {
    TotalPart(deposits, OtherDeposits(deposits, id), AnyDeposit, OtherDeposit(id));
    TotalAdd(deposits, OtherDeposit(id), DepositOf(id), AnyDeposit);
  }

  lemma OtherDepositsOf(deposits: map<Share, nat>, id: nat, j: nat)
    ensures Total(OtherDeposits(deposits, id), DepositOf(j)) == if j == id then 0 else Total(deposits, DepositOf(j))
  {
    if j == id {
      TotalZero(OtherDeposits(deposits, id), DepositOf(id));
    } else {
      TotalPart(deposits, OtherDeposits(deposits, id), DepositOf(j), DepositOf(j));
    }
  }

  lemma ReleaseSame(s: State, id: nat, burn: bool, j: nat)
    requires j != id
    ensures Same(s, Release(s, id, burn), j)
  {
    OtherDepositsOf(s.deposits, id, j);
  }

  // ----- Into a voting period -----

  /** The votes of the certifier round do not reach the stake round. */
  lemma NextRoundKeeps(config: Config, s: State, id: nat, pass: bool)
    requires Gov.Inv(config, s) && id in s.proposals && s.proposals[id].status.CertifierVoting? && !EndsVoting(s.proposals[id].kind, pass)
    ensures var s' := NextRound(config, s, id, pass);
            && Gov.Inv(config, s')
            && s'.proposals[id].status.ValidatorVoting?
            && forall share :: share in s'.votes ==> share.id != id
  {
    var won := if pass then Win(s, id, Certifier) else s;
    var s' := NextRound(config, s, id, pass);
    assert ProposalOk(config, s, id);
    assert ProposalOk(config, s', id);
    forall j | j != id
      ensures Same(s, s', j)
    {
      WinSame(s, id, Certifier, j);
      ClearVotesSame(won, id, j);
      ActivateSame(config, ClearVotes(won, id), id, j);
    }
    OneProposal(config, s, s', id);
  }

  // ----- Out of a voting period -----

  /** What happens to a proposal before it is finished: votes and deposits may go, and a round may be won. */
  ghost predicate Wound(s: State, m: State, id: nat) {
    && m.proposals == s.proposals && m.active == s.active && m.inactive == s.inactive
    && m.book == s.book && m.now == s.now && m.nextId == s.nextId
    && m.escrow - s.escrow == Total(m.deposits, AnyDeposit) - Total(s.deposits, AnyDeposit)
    && (forall share :: share in m.votes ==> share in s.votes && m.votes[share] == s.votes[share])
    && (forall j :: j != id ==> Same(s, m, j))
  }

  /** Whatever a claim's end does to the shield, taking its loss off the claimed total keeps the books. */
  lemma FinishKeeps(config: Config, s: State, m: State, id: nat, b: Book, status: Status)
    requires Gov.Inv(config, s) && Wound(s, m, id) && id in s.proposals && Voting(s.proposals[id].status)
    requires Terminal(status) && id in m.won && RoundsFit(s.proposals[id].(status := status), m.won[id])
    requires b.totalClaimed == s.book.totalClaimed - LossOf(s.proposals[id].kind)
    ensures Gov.Inv(config, Finish(m.(book := b), id, status))
  {
    var s' := Finish(m.(book := b), id, status);
    assert ProposalOk(config, s, id);
    assert ProposalOk(config, s', id) by {
      hide Total;
    }
    forall j | j != id
      ensures Same(s, s', j)
    {
      BookSame(m, b, j);
      FinishSame(m.(book := b), id, status, j);
      SameTwice(m, m.(book := b), s', j);
      SameTwice(s, m, s', j);
    }
    OneProposal(config, s, s', id);
  }

  lemma WoundNone(s: State, id: nat)
    ensures Wound(s, s, id)
  {
  }

  lemma WoundClear(s: State, m: State, id: nat)
    requires Wound(s, m, id)
    ensures Wound(s, ClearVotes(m, id), id)
  {
    forall j | j != id
      ensures Same(s, ClearVotes(m, id), j)
    {
      ClearVotesSame(m, id, j);
      SameTwice(s, m, ClearVotes(m, id), j);
    }
  }

  lemma WoundRelease(s: State, m: State, id: nat, burn: bool)
    requires Wound(s, m, id)
    ensures Wound(s, Release(m, id, burn), id)
  {
    OtherDepositsTotal(m.deposits, id);
    forall j | j != id
      ensures Same(s, Release(m, id, burn), j)
    {
      ReleaseSame(m, id, burn, j);
      SameTwice(s, m, Release(m, id, burn), j);
    }
  }

  lemma WoundWin(s: State, m: State, id: nat, round: Round)
    requires Wound(s, m, id)
    ensures Wound(s, Win(m, id, round), id)
  {
    forall j | j != id
      ensures Same(s, Win(m, id, round), j)
    {
      WinSame(m, id, round, j);
      SameTwice(s, m, Win(m, id, round), j);
    }
  }

  lemma VerdictKeeps(config: Config, s: State, id: nat, verdict: Verdict, ok: bool)
    requires Gov.Inv(config, s) && id in s.proposals && s.proposals[id].status.ValidatorVoting?
    ensures match verdict
            case Vetoed => Gov.Inv(config, Veto(Release(ClearVotes(s, id), id, true), id))
            case Rejected => Gov.Inv(config, Reject(Release(ClearVotes(s, id), id, false), id))
            case Passed => Gov.Inv(config, Pass(Release(ClearVotes(s, id), id, false), id, Stake, ok))
  {
    assert ProposalOk(config, s, id);
    hide Gov.Inv, Wound, EndVetoed, EndRejected, EndPassed;
    var b, p := s.book, s.proposals[id];
    EndsOf(b, p);
    WoundNone(s, id);
    WoundClear(s, s, id);
    var cleared := ClearVotes(s, id);
    match verdict
    case Vetoed =>
      WoundRelease(s, cleared, id, true);
      FinishKeeps(config, s, Release(cleared, id, true), id, EndVetoed(b, p), Status.Rejected);
    case Rejected =>
      WoundRelease(s, cleared, id, false);
      FinishKeeps(config, s, Release(cleared, id, false), id, EndRejected(b, p), Status.Rejected);
    case Passed =>
      WoundRelease(s, cleared, id, false);
      WoundWin(s, Release(cleared, id, false), id, Stake);
      FinishKeeps(config, s, Win(Release(cleared, id, false), id, Stake), id, EndPassed(b, p), Executed(p.kind, ok));
  }

  lemma CertifiersEndKeeps(config: Config, s: State, id: nat, release: bool, pass: bool, ok: bool)
    requires Gov.Inv(config, s) && id in s.proposals && s.proposals[id].status.CertifierVoting? && EndsVoting(s.proposals[id].kind, pass)
    ensures var m := if release then Release(s, id, false) else s;
            Gov.Inv(config, if pass then Pass(m, id, Certifier, ok) else Reject(m, id))
  {
    assert ProposalOk(config, s, id);
    hide Gov.Inv, Wound, EndRejected, EndPassed;
    var m := if release then Release(s, id, false) else s;
    var b, p := s.book, s.proposals[id];
    EndsOf(b, p);
    WoundNone(s, id);
    WoundRelease(s, s, id, false);
    if pass {
      WoundWin(s, m, id, Certifier);
      FinishKeeps(config, s, Win(m, id, Certifier), id, EndPassed(b, p), Executed(p.kind, ok));
    } else {
      FinishKeeps(config, s, m, id, EndRejected(b, p), Status.Rejected);
    }
  }

  lemma ProcessActiveKeeps(config: Config, s: State, id: nat, env: Env)
    requires Gov.Inv(config, s) && id in s.proposals && Voting(s.proposals[id].status)
    ensures Gov.Inv(config, ProcessActive(config, s, id, env))
  {
    hide Gov.Inv;
    if s.proposals[id].status.CertifierVoting? {
      if EndsVoting(s.proposals[id].kind, env.security(id)) {
        CertifiersEndKeeps(config, s, id, true, env.security(id), env.handler(id));
      } else {
        NextRoundKeeps(config, s, id, env.security(id));
      }
    } else {
      VerdictKeeps(config, s, id, env.stake(id), env.handler(id));
    }
  }

  lemma ProcessSecurityKeeps(config: Config, s: State, id: nat, env: Env)
    requires Gov.Inv(config, s) && id in s.proposals
    ensures Gov.Inv(config, ProcessSecurity(config, s, id, env))
  {
    hide Gov.Inv;
    if s.proposals[id].status.CertifierVoting? && env.security(id) {
      if EndsVoting(s.proposals[id].kind, true) {
        CertifiersEndKeeps(config, s, id, false, true, env.handler(id));
      } else {
        NextRoundKeeps(config, s, id, true);
      }
    }
  }

  // ----- Dropping, depositing, submitting, voting -----

  lemma DropKeeps(config: Config, s: State, id: nat)
    requires Gov.Inv(config, s) && id in s.proposals && s.proposals[id].status.DepositPeriod?
    ensures Gov.Inv(config, Drop(s, id))
  {
    var s' := Drop(s, id);
    assert ProposalOk(config, s, id);
    OtherDepositsTotal(s.deposits, id);
    forall j | j != id
      ensures Same(s, s', j)
    {
      OtherDepositsOf(s.deposits, id, j);
    }
    OneProposal(config, s, s', id);
  }

  lemma CastVoteKeeps(config: Config, s: State, id: nat, voter: Address, option: Option, certifier: bool, identity: bool)
    requires Gov.Inv(config, s)
    ensures Gov.Inv(config, CastVote(s, id, voter, option, certifier, identity))
  {
    var s' := CastVote(s, id, voter, option, certifier, identity);
    if s' != s {
      assert ProposalOk(config, s, id);
      OneProposal(config, s, s', id);
    }
  }

  lemma DepositTotals(deposits: map<Share, nat>, share: Share, amount: nat, j: nat)
    ensures var old' := if share in deposits then deposits[share] else 0;
            var deposits' := deposits[share := old' + amount];
            && Total(deposits', AnyDeposit) == Total(deposits, AnyDeposit) + amount
            && Total(deposits', DepositOf(j)) == Total(deposits, DepositOf(j)) + if j == share.id then amount else 0
  {
    var value: nat := (if share in deposits then deposits[share] else 0) + amount;
    TotalUpdate(deposits, AnyDeposit, share, value);
    TotalUpdate(deposits, DepositOf(j), share, value);
  }

  lemma AddDepositSame(config: Config, s: State, id: nat, depositor: Address, amount: nat, j: nat)
    requires j != id
    ensures Same(s, AddDeposit(config, s, id, depositor, amount), j)
  {
    DepositTotals(s.deposits, Share(id, depositor), amount, j);
    hide Total;
    if Depositable(s, id) {
      var p := s.proposals[id].(totalDeposit := s.proposals[id].totalDeposit + amount);
      ActivateSame(config, s.(escrow := s.escrow + amount, proposals := s.proposals[id := p]), id, j);
    }
  }

  /** All that a deposit needs to find: the proposal's slots, funds and votes in order. */
  lemma AddDepositOk(config: Config, s: State, id: nat, depositor: Address, amount: nat)
    requires Depositable(s, id) && SlotsOk(s, id) && BallotsOk(s, id) && id in s.won && s.won[id] == {} && id < s.nextId
    requires s.proposals[id].totalDeposit == Deposited(s, id) && s.proposals[id].submit <= s.now
    requires s.proposals[id].kind.Claim? ==> s.proposals[id].submit == s.now
    ensures ProposalOk(config, AddDeposit(config, s, id, depositor, amount), id)
  {
    DepositTotals(s.deposits, Share(id, depositor), amount, id);
    hide Total;
  }

  lemma AddDepositBooks(config: Config, s: State, id: nat, depositor: Address, amount: nat)
    requires Depositable(s, id)
    ensures var s' := AddDeposit(config, s, id, depositor, amount);
            && s'.now == s.now && s'.nextId == s.nextId && s'.book == s.book
            && id in s'.proposals && s'.proposals == s.proposals[id := s'.proposals[id]]
            && s'.proposals[id].kind == s.proposals[id].kind
            && (s.proposals[id].kind.Claim? ==> Voting(s'.proposals[id].status))
            && s'.escrow - s.escrow == Total(s'.deposits, AnyDeposit) - Total(s.deposits, AnyDeposit)
  {
    DepositTotals(s.deposits, Share(id, depositor), amount, id);
  }

  /** Deposits on a proposal of one's own or another's; enough of them open the voting. */
  lemma AddDepositKeeps(config: Config, s: State, id: nat, depositor: Address, amount: nat)
    requires Gov.Inv(config, s)
    ensures Gov.Inv(config, AddDeposit(config, s, id, depositor, amount))
  {
    hide AddDeposit, Same, Total;
    var s' := AddDeposit(config, s, id, depositor, amount);
    if Depositable(s, id) {
      assert ProposalOk(config, s, id);
      AddDepositOk(config, s, id, depositor, amount);
      AddDepositBooks(config, s, id, depositor, amount);
      forall j | j != id
        ensures Same(s, s', j)
      {
        AddDepositSame(config, s, id, depositor, amount, j);
      }
      OneProposal(config, s, s', id);
    } else {
      AddDepositRefused(config, s, id, depositor, amount);
    }
  }

  lemma AddDepositRefused(config: Config, s: State, id: nat, depositor: Address, amount: nat)
    requires !Depositable(s, id)
    ensures AddDeposit(config, s, id, depositor, amount) == s
  {
  }

  /** A proposal just created, before it is voted on or deposited on. */
  lemma CreateOk(config: Config, s: State, kind: Kind, proposer: Address, council: bool)
    requires Gov.Inv(config, s)
    ensures var m, id := Create(config, s, kind, proposer, council), s.nextId;
            && SlotsOk(m, id) && BallotsOk(m, id) && id in m.won && m.won[id] == {} && id < m.nextId
            && m.proposals[id].totalDeposit == Deposited(m, id) == 0 && m.proposals[id].submit == m.now
            && OpenLossAt(s, id) == 0 && id !in s.proposals
            && (forall j :: j != id ==> Same(s, m, j))
  {
    assert ProposalOk(config, s, s.nextId);
    NoDeposits(s.deposits, s.nextId);
  }

  lemma ActivateOk(config: Config, s: State, id: nat)
    requires id in s.proposals && s.proposals[id].status.DepositPeriod?
    requires SlotsOk(s, id) && BallotsOk(s, id) && id in s.won && s.won[id] == {} && id < s.nextId
    requires s.proposals[id].totalDeposit == Deposited(s, id) && s.proposals[id].submit == s.now
    ensures ProposalOk(config, Activate(config, s, id), id)
  {
  }

  lemma IntroducedOk(config: Config, s: State, kind: Kind, proposer: Address, council: bool, amount: nat)
    requires Gov.Inv(config, s)
    ensures var m, id := Introduced(config, s, kind, proposer, council, amount), s.nextId;
            && ProposalOk(config, m, id) && m.now == s.now && s.nextId <= m.nextId && m.book == s.book
            && id in m.proposals && m.proposals == s.proposals[id := m.proposals[id]]
            && OpenLossAt(m, id) == LossOf(kind) && OpenLossAt(s, id) == 0
            && m.escrow - s.escrow == Total(m.deposits, AnyDeposit) - Total(s.deposits, AnyDeposit)
  {
    var c, id := Create(config, s, kind, proposer, council), s.nextId;
    CreateOk(config, s, kind, proposer, council);
    hide Total, AddDeposit, Gov.Inv;
    if council {
      ActivateOk(config, c, id);
    } else {
      AddDepositOk(config, c, id, proposer, amount);
      AddDepositBooks(config, c, id, proposer, amount);
    }
  }

  lemma IntroducedSame(config: Config, s: State, kind: Kind, proposer: Address, council: bool, amount: nat, j: nat)
    requires Gov.Inv(config, s) && j != s.nextId
    ensures Same(s, Introduced(config, s, kind, proposer, council, amount), j)
  {
    var c, id := Create(config, s, kind, proposer, council), s.nextId;
    CreateOk(config, s, kind, proposer, council);
    hide Same, Gov.Inv, Activate, AddDeposit;
    if council {
      ActivateSame(config, c, id, j);
      SameTwice(s, c, Activate(config, c, id), j);
    } else {
      AddDepositSame(config, c, id, proposer, amount, j);
      SameTwice(s, c, AddDeposit(config, c, id, proposer, amount), j);
    }
  }

  lemma BookOk(config: Config, s: State, b: Book, id: nat)
    requires ProposalOk(config, s, id)
    ensures ProposalOk(config, s.(book := b), id)
  {
  }

  /** A new proposal keeps the books when the loss of a claim is added to the claimed total. */
  lemma IntroducedKeeps(config: Config, s: State, kind: Kind, proposer: Address, council: bool, amount: nat, b: Book)
    requires Gov.Inv(config, s) && b.totalClaimed == s.book.totalClaimed + LossOf(kind)
    ensures Gov.Inv(config, Introduced(config, s, kind, proposer, council, amount).(book := b))
  {
    var m, id := Introduced(config, s, kind, proposer, council, amount), s.nextId;
    var s' := m.(book := b);
    IntroducedOk(config, s, kind, proposer, council, amount);
    hide Introduced, Same, Gov.Inv, ProposalOk;
    BookOk(config, m, b, id);
    forall j | j != id
      ensures Same(s, s', j)
    {
      IntroducedSame(config, s, kind, proposer, council, amount, j);
      BookSame(m, b, j);
      SameTwice(s, m, s', j);
    }
    OneProposal(config, s, s', id);
  }

  lemma SecuredClaims(config: Config, s: State, kind: Kind, totalCollateral: int, lasts: bool)
    requires kind.Claim? && Secured(config, s, kind, totalCollateral, lasts).Ok?
    ensures Secured(config, s, kind, totalCollateral, lasts).book.totalClaimed == s.book.totalClaimed + kind.loss
  {
  }

  /** A submitted claim is secured and being voted on from the start, or refused as a whole. */
  lemma SubmitKeeps(config: Config, s: State, kind: Kind, proposer: Address, council: bool, amount: nat, totalCollateral: int, lasts: bool)
    requires Gov.Inv(config, s)
    ensures Gov.Inv(config, Submit(config, s, kind, proposer, council, amount, totalCollateral, lasts))
  {
    IntroducedOk(config, s, kind, proposer, council, amount);
    hide Gov.Inv, Introduced, Secured;
    if !kind.Claim? {
      IntroducedKeeps(config, s, kind, proposer, council, amount, s.book);
    } else {
      var secured := Secured(config, s, kind, totalCollateral, lasts);
      if secured.Ok? {
        SecuredClaims(config, s, kind, totalCollateral, lasts);
        IntroducedKeeps(config, s, kind, proposer, council, amount, secured.book);
      }
    }
  }

  lemma NoDeposits(deposits: map<Share, nat>, id: nat)
    requires forall share :: share in deposits ==> share.id != id
    ensures Total(deposits, DepositOf(id)) == 0
  {
    TotalZero(deposits, DepositOf(id));
  }
}
