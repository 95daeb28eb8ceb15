/** The keeper of proposals: the store is updated in place, and the end of a block walks the queues. */
module GovKeeper {
  import opened WithdrawQueue
  import opened Totals
  import opened Tally
  import opened Decision
  import P = Purchases
  import C = Claims
  import opened Gov
  import opened GovSteps
  import opened GovRuns

  class Keeper {
    const config: Config
    var now: int
    var proposals: map<nat, Proposal>
    var inactive: set<Slot>
    var active: set<Slot>
    var deposits: map<Share, nat>
    var escrow: int
    var burnt: int
    var votes: map<Share, Option>
    var book: P.Book
    var nextId: nat
    ghost var won: map<nat, set<Round>>

    ghost function View(): State
      reads this
    {
      State(now, proposals, inactive, active, deposits, escrow, burnt, votes, won, book, nextId)
    }

    constructor (config: Config, now: int)
      ensures this.config == config && View() == Genesis(now)
    {
      this.config, this.now := config, now;
      proposals, inactive, active, deposits, escrow, burnt, votes, nextId, won := map[], {}, {}, map[], 0, 0, map[], 1, map[];
      book := P.Book(map[], map[], 0, 0, 1);
    }

    /** Switches a proposal to its next voting period. */
    method ActivateVotingPeriod(id: nat)
      requires id in proposals
      modifies `proposals, `inactive, `active
      ensures View() == Activate(config, old(View()), id)
    {
      var p := proposals[id];
      var end := now + config.votingPeriod;
      var p' := p.(votingStart := now, votingEnd := end);
      if !p.kind.Text? && !p.status.CertifierVoting? {
        p' := p'.(status := CertifierVoting);
      } else {
        if p.status.CertifierVoting? {
          active := active - {Slot(p.votingEnd, id)};
        } else {
          p' := p'.(depositEnd := now);
        }
        p' := p'.(status := ValidatorVoting);
      }
      proposals := proposals[id := p'];
      inactive := inactive - {Slot(p.depositEnd, id)};
      active := active + {Slot(end, id)};
    }

    /** The depositors of a proposal, as the store iterates over them. */
    method Depositors(id: nat) returns (order: seq<Address>)
      ensures forall a :: a in order <==> Share(id, a) in deposits
      ensures forall i, j :: 0 <= i < j < |order| ==> order[i] != order[j]
    {
      var keys := set share | share in deposits && share.id == id;
      order := [];
      while keys != {}
        invariant forall share :: share in keys ==> share in deposits && share.id == id
        invariant forall a :: a in order <==> Share(id, a) in deposits && Share(id, a) !in keys
        invariant forall i, j :: 0 <= i < j < |order| ==> order[i] != order[j]
        decreases |keys|
      {
        var share :| share in keys;
        assert share == Share(id, share.who);
        order := order + [share.who];
        keys := keys - {share};
      }
    }

    /** Pays back or burns one deposit. */
    method ReleaseOne(share: Share, burn: bool)
      requires share in deposits && escrow == Total(deposits, AnyDeposit)
      modifies `deposits, `escrow, `burnt
      ensures deposits == old(deposits) - {share} && escrow == Total(deposits, AnyDeposit)
      ensures old(escrow) - escrow == Deposited(old(View()), share.id) - Deposited(View(), share.id)
      ensures burnt - old(burnt) == if burn then old(escrow) - escrow else 0
    {
      TotalDelete(deposits, AnyDeposit, share);
      TotalDelete(deposits, DepositOf(share.id), share);
      TotalAtLeast(deposits, AnyDeposit, share);
      var amount := deposits[share];
      if escrow < amount {
        assert false;
      }
      escrow := escrow - amount;
      if burn {
        burnt := burnt + amount;
      }
      deposits := deposits - {share};
    }

    /** Refunds or burns all deposits on a proposal; the transfer out of the escrow never fails. */
    method ReleaseDeposits(id: nat, burn: bool)
      requires escrow == Total(deposits, AnyDeposit)
      modifies `deposits, `escrow, `burnt
      ensures View() == Release(old(View()), id, burn)
      ensures escrow == Total(deposits, AnyDeposit)
    {
      hide Total;
      var order := Depositors(id);
      for i := 0 to |order|
        invariant escrow == Total(deposits, AnyDeposit)
        invariant old(escrow) - escrow == Deposited(old(View()), id) - Deposited(View(), id)
        invariant burnt - old(burnt) == if burn then old(escrow) - escrow else 0
        invariant forall share :: share in deposits <==> share in old(deposits) && !(share.id == id && share.who in order[..i])
        invariant forall share :: share in deposits ==> deposits[share] == old(deposits)[share]
      {
        assert order[i] in order && order[i] !in order[..i];
        assert order[..i + 1] == order[..i] + [order[i]];
        ReleaseOne(Share(id, order[i]), burn);
      }
      assert order[..|order|] == order;
      assert deposits == OtherDeposits(old(deposits), id);
      OtherDepositsOf(old(deposits), id, id);
    }

    /** Deletes the votes on a proposal one by one. */
    method DeleteAllVotes(id: nat)
      modifies `votes
      ensures View() == ClearVotes(old(View()), id)
    {
      var keys := set share | share in votes && share.id == id;
      while keys != {}
        invariant forall share :: share in keys ==> share.id == id && share in old(votes)
        invariant forall share :: share in votes <==> share in old(votes) && !(share.id == id && share !in keys)
        invariant forall share :: share in votes ==> votes[share] == old(votes)[share]
        decreases |keys|
      {
        var share :| share in keys;
        votes := votes - {share};
        keys := keys - {share};
      }
      assert votes == ClearVotes(old(View()), id).votes;
    }
  
    /** Adds a deposit; it opens the voting when enough has come together, or at once for a claim. */
    method AddDeposit(id: nat, depositor: Address, amount: nat) returns (ok: bool)
      requires Inv(config, View())
      modifies this
      ensures ok <==> Depositable(old(View()), id)
      ensures View() == Gov.AddDeposit(config, old(View()), id, depositor, amount) && Inv(config, View())
    {
      AddDepositKeeps(config, View(), id, depositor, amount);
      hide Inv;
      ok := DepositOn(id, depositor, amount);
    }

    method DepositOn(id: nat, depositor: Address, amount: nat) returns (ok: bool)
      modifies this
      ensures ok <==> Depositable(old(View()), id)
      ensures View() == Gov.AddDeposit(config, old(View()), id, depositor, amount)
    {
      if id !in proposals {
        return false;
      }
      var p := proposals[id];
      if !p.status.DepositPeriod? || p.council {
        return false;
      }
      escrow := escrow + amount;
      p := p.(totalDeposit := p.totalDeposit + amount);
      proposals := proposals[id := p];
      if p.totalDeposit >= config.minDeposit || p.kind.Claim? {
        ActivateVotingPeriod(id);
      }
      var share := Share(id, depositor);
      deposits := deposits[share := (if share in deposits then deposits[share] else 0) + amount];
      return true;
    }

    /** Submits a proposal; a claim goes through exactly if it can be secured. */
    method SubmitProposal(kind: Kind, proposer: Address, council: bool, amount: nat, totalCollateral: int, lasts: bool) returns (ok: bool)
      requires Inv(config, View())
      modifies this
      ensures ok <==> kind.Claim? ==> Secured(config, old(View()), kind, totalCollateral, lasts).Ok?
      ensures View() == Submit(config, old(View()), kind, proposer, council, amount, totalCollateral, lasts) && Inv(config, View())
    {
      SubmitKeeps(config, View(), kind, proposer, council, amount, totalCollateral, lasts);
      hide Inv, Introduced, Secured;
      IntroducedBook(config, View(), kind, proposer, council, amount);
      ok := true;
      var secured := book;
      if kind.Claim? {
        ok, secured := SecureClaim(kind, totalCollateral, lasts);
      }
      if ok {
        Introduce(kind, proposer, council, amount);
        book := secured;
      }
    }

    /** Checks a claim and secures its collateral. */
    method SecureClaim(kind: Kind, totalCollateral: int, lasts: bool) returns (ok: bool, secured: P.Book)
      requires kind.Claim?
      ensures ok <==> Secured(config, View(), kind, totalCollateral, lasts).Ok?
      ensures ok ==> secured == Secured(config, View(), kind, totalCollateral, lasts).book
    {
      var k := P.Key(kind.pool, kind.claimant);
      if k !in book.lists || !lasts {
        return false, book;
      }
      var list := book.lists[k];
      var i := C.Find(list, kind.purchase);
      if i == |list| || list[i].shield < kind.loss || list[i].protectionEnd < now {
        return false, book;
      }
      var outcome := C.Secure(book, totalCollateral, k, kind.purchase, kind.loss, now + 2 * config.votingPeriod);
      if !outcome.Ok? {
        return false, book;
      }
      return true, outcome.book;
    }

    method Introduce(kind: Kind, proposer: Address, council: bool, amount: nat)
      modifies this
      ensures View() == Introduced(config, old(View()), kind, proposer, council, amount)
    {
      var id, end := nextId, now + config.depositPeriod;
      proposals := proposals[id := Proposal(kind, proposer, DepositPeriod, council, now, end, 0, 0, 0)];
      inactive := inactive + {Slot(end, id)};
      nextId := id + 1;
      won := won[id := {}];
      assert View() == Create(config, old(View()), kind, proposer, council);
      hide Create, Activate, Gov.AddDeposit;
      if council {
        ActivateVotingPeriod(id);
      } else {
        var ok := DepositOn(id, proposer, amount);
      }
    }

    method AddVote(id: nat, voter: Address, option: Option, certifier: bool, identity: bool) returns (ok: bool)
      requires Inv(config, View())
      modifies this
      ensures View() == CastVote(old(View()), id, voter, option, certifier, identity) && Inv(config, View())
      ensures ok ==> Share(id, voter) in votes && votes[Share(id, voter)] == option
      ensures !ok ==> View() == old(View())
    {
      CastVoteKeeps(config, View(), id, voter, option, certifier, identity);
      hide Inv;
      if id !in proposals || !Voting(proposals[id].status) {
        return false;
      }
      var p := proposals[id];
      if p.status.CertifierVoting? && !(option.Yes? || option.No?) {
        return false;
      }
      if p.status.CertifierVoting? && !certifier {
        return false;
      }
      if p.kind.Claim? && p.status.ValidatorVoting? && !identity {
        return false;
      }
      votes := votes[Share(id, voter) := option];
      return true;
    }

    method FinishProposal(id: nat, status: Status)
      requires id in proposals
      modifies `proposals, `active
      ensures View() == Finish(old(View()), id, status)
    {
      var p := proposals[id];
      proposals := proposals[id := p.(status := status)];
      active := active - {Slot(p.votingEnd, id)};
    }

    method EnterStakeRound(id: nat, pass: bool)
      requires id in proposals
      modifies `votes, `won, `proposals, `inactive, `active
      ensures View() == NextRound(config, old(View()), id, pass)
    {
      hide Activate, ClearVotes;
      if pass {
        won := won[id := (if id in won then won[id] else {}) + {Certifier}];
      }
      DeleteAllVotes(id);
      ActivateVotingPeriod(id);
    }

    /** Decides a proposal whose voting period is over, or moves it on to the stake round. */
    method DecideProposal(id: nat, env: Env)
      requires id in proposals && escrow == Total(deposits, AnyDeposit)
      modifies this
      ensures View() == ProcessActive(config, old(View()), id, env)
    {
      hide Release, ClearVotes, NextRound, Veto, Reject, Pass;
      var p := proposals[id];
      if p.status.CertifierVoting? {
        var pass := env.security(id);
        var endVoting := (pass && p.kind.CertifierUpdate?) || (!pass && !p.kind.CertifierUpdate?);
        if !endVoting {
          EnterStakeRound(id, pass);
          return;
        }
        CloseProposal(id, false, pass, env.handler(id), Certifier);
      } else {
        DeleteAllVotes(id);
        var verdict := env.stake(id);
        CloseProposal(id, verdict.Vetoed?, verdict.Passed?, env.handler(id), Stake);
      }
    }

    /** Settles the deposits of a decided proposal, executes it if it passed, and records the outcome. */
    method CloseProposal(id: nat, veto: bool, pass: bool, handled: bool, ghost round: Round)
      requires id in proposals && escrow == Total(deposits, AnyDeposit)
      modifies this
      requires veto ==> !pass
      ensures View() == if pass then Pass(Release(old(View()), id, veto), id, round, handled)
                        else if veto then Veto(Release(old(View()), id, veto), id)
                        else Reject(Release(old(View()), id, veto), id)
    {
      hide Finish;
      var p := proposals[id];
      ReleaseDeposits(id, veto);
      if pass {
        ExecuteProposal(id, handled, round);
        return;
      }
      if p.kind.Claim? {
        if !veto {
          book := C.Restore(book, P.Key(p.kind.pool, p.proposer), p.kind.purchase, p.kind.loss).0;
        }
        book := C.ClaimEnd(book, p.kind.loss);
      }
      FinishProposal(id, Status.Rejected);
    }

    /** Executes a proposal that passed; a claim is reimbursed. */
    method ExecuteProposal(id: nat, handled: bool, ghost round: Round)
      requires id in proposals
      modifies `proposals, `active, `won, `book
      ensures View() == Pass(old(View()), id, round, handled)
    {
      hide Finish;
      var p := proposals[id];
      won := won[id := (if id in won then won[id] else {}) + {round}];
      if p.kind.Claim? {
        book := C.Reimburse(book, p.kind.loss);
      }
      FinishProposal(id, Executed(p.kind, handled));
    }

    /** Ends a certifier round as soon as it has passed. */
    method ProcessSecurityVote(id: nat, env: Env)
      requires id in proposals
      modifies this
      ensures View() == ProcessSecurity(config, old(View()), id, env)
    {
      hide NextRound, Pass;
      var p := proposals[id];
      if !p.status.CertifierVoting? || !env.security(id) {
        return;
      }
      if p.kind.CertifierUpdate? {
        ExecuteProposal(id, env.handler(id), Certifier);
      } else {
        EnterStakeRound(id, true);
      }
    }

    method DeleteProposal(id: nat)
      requires id in proposals && escrow == Total(deposits, AnyDeposit)
      modifies this
      ensures View() == Drop(old(View()), id)
    {
      hide Release;
      var p := proposals[id];
      inactive := inactive - {Slot(p.depositEnd, id)};
      active := active - {Slot(p.votingEnd, id)};
      proposals := proposals - {id};
      ReleaseDeposits(id, false);
    }
  
    /** The proposals in a queue, as the store iterates over them. */
    static method IdsIn(queue: set<Slot>) returns (ids: seq<nat>)
      requires forall x, y :: x in queue && y in queue && x.id == y.id ==> x == y
      ensures Lists(ids, queue)
    {
      var rest := queue;
      ids := [];
      while rest != {}
        invariant rest <= queue
        invariant forall i, j :: 0 <= i < j < |ids| ==> ids[i] != ids[j]
        invariant forall id :: id in ids ==> exists t :: Slot(t, id) in queue && Slot(t, id) !in rest
        invariant forall slot :: slot in queue && slot !in rest ==> slot.id in ids
        decreases |rest|
      {
        var slot :| slot in rest;
        assert slot == Slot(slot.time, slot.id);
        assert slot.id !in ids;
        ids := ids + [slot.id];
        rest := rest - {slot};
      }
    }

    method RemoveInactiveProposals(ids: seq<nat>)
      requires Inv(config, View()) && AllIn(View(), ids, true)
      modifies this
      ensures DropAll(old(View()), ids) == Ok(View()) && Inv(config, View())
    {
      hide Inv, AllIn;
      ghost var after := DropAll(View(), ids);
      for i := 0 to |ids|
        invariant Inv(config, View()) && AllIn(View(), ids[i..], true)
        invariant DropAll(View(), ids[i..]) == after
      {
        hide Drop;
        assert ids[i..][0] == ids[i] && ids[i..][1..] == ids[i + 1..];
        AllInFirst(View(), ids[i..], true);
        NextDropped(config, View(), ids[i..]);
        EscrowOk(config, View());
        DeleteProposal(ids[i]);
      }
    }

    method DecideProposals(ids: seq<nat>, env: Env)
      requires Inv(config, View()) && AllIn(View(), ids, false)
      modifies this
      ensures ActiveAll(config, old(View()), ids, env) == Ok(View()) && Inv(config, View())
    {
      hide Inv, AllIn;
      ghost var after := ActiveAll(config, View(), ids, env);
      for i := 0 to |ids|
        invariant Inv(config, View()) && AllIn(View(), ids[i..], false)
        invariant ActiveAll(config, View(), ids[i..], env) == after
      {
        hide ProcessActive;
        assert ids[i..][0] == ids[i] && ids[i..][1..] == ids[i + 1..];
        AllInFirst(View(), ids[i..], false);
        NextDecided(config, View(), ids[i..], env);
        EscrowOk(config, View());
        DecideProposal(ids[i], env);
      }
    }

    method ProcessSecurityVotes(ids: seq<nat>, env: Env)
      requires Inv(config, View()) && AllIn(View(), ids, false)
      modifies this
      ensures SecurityAll(config, old(View()), ids, env) == Ok(View()) && Inv(config, View())
    {
      hide Inv, AllIn;
      ghost var after := SecurityAll(config, View(), ids, env);
      for i := 0 to |ids|
        invariant Inv(config, View()) && AllIn(View(), ids[i..], false)
        invariant SecurityAll(config, View(), ids[i..], env) == after
      {
        hide ProcessSecurity;
        assert ids[i..][0] == ids[i] && ids[i..][1..] == ids[i + 1..];
        AllInFirst(View(), ids[i..], false);
        NextSecured(config, View(), ids[i..], env);
        ProcessSecurityVote(ids[i], env);
      }
    }

    /** The end of a block: it never meets a queued proposal that does not exist. */
    method EndBlocker(env: Env) returns (ghost agenda: Agenda)
      requires Inv(config, View())
      modifies this
      ensures Follows(config, old(View()), agenda, env)
      ensures EndBlock(config, old(View()), agenda, env) == Ok(View()) && Inv(config, View())
    {
      hide Inv, DropAll, ActiveAll, SecurityAll, Lists;
      OneSlotEach(config, View());
      var dropped := IdsIn(UpTo(inactive, now));
      ListedDepositing(config, View(), dropped);
      DropAllKeeps(config, View(), dropped);
      RemoveInactiveProposals(dropped);
      OneSlotEach(config, View());
      var ended := IdsIn(UpTo(active, now));
      ListedVoting(config, View(), ended);
      ActiveAllKeeps(config, View(), ended, env);
      DecideProposals(ended, env);
      OneSlotEach(config, View());
      var voting := IdsIn(active);
      ListedVoting(config, View(), voting);
      ProcessSecurityVotes(voting, env);
      agenda := Agenda(dropped, ended, voting);
    }
  }

  lemma IntroducedBook(config: Config, s: State, kind: Kind, proposer: Address, council: bool, amount: nat)
    ensures Introduced(config, s, kind, proposer, council, amount).book == s.book
  {
  }

  lemma EscrowOk(config: Config, s: State)
    requires Inv(config, s)
    ensures s.escrow == Total(s.deposits, AnyDeposit)
  {
  }

  lemma OneSlotEach(config: Config, s: State)
    requires Inv(config, s)
    ensures forall x, y :: x in s.inactive && y in s.inactive && x.id == y.id ==> x == y
    ensures forall x, y :: x in s.active && y in s.active && x.id == y.id ==> x == y
  {
    forall x, y | x in s.inactive && y in s.inactive && x.id == y.id
      ensures x == y
    {
      assert ProposalOk(config, s, x.id);
      assert x == Slot(x.time, x.id) && y == Slot(y.time, y.id);
    }
    forall x, y | x in s.active && y in s.active && x.id == y.id
      ensures x == y
    {
      assert ProposalOk(config, s, x.id);
      assert x == Slot(x.time, x.id) && y == Slot(y.time, y.id);
    }
  }

  lemma AllInFirst(s: State, ids: seq<nat>, depositing: bool)
    requires AllIn(s, ids, depositing) && ids != []
    ensures ids[0] in s.proposals
    ensures if depositing then s.proposals[ids[0]].status.DepositPeriod? else Voting(s.proposals[ids[0]].status)
  {
    assert ids[0] in ids;
  }

  lemma NextDropped(config: Config, s: State, ids: seq<nat>)
    requires Inv(config, s) && AllIn(s, ids, true) && ids != [] && ids[0] in s.proposals && s.proposals[ids[0]].status.DepositPeriod?
    ensures Inv(config, Drop(s, ids[0])) && AllIn(Drop(s, ids[0]), ids[1..], true)
  {
    hide Inv;
    DropKeeps(config, s, ids[0]);
    AllInRest(s, Drop(s, ids[0]), ids, true);
  }

  lemma NextDecided(config: Config, s: State, ids: seq<nat>, env: Env)
    requires Inv(config, s) && AllIn(s, ids, false) && ids != [] && ids[0] in s.proposals && Voting(s.proposals[ids[0]].status)
    ensures var s' := ProcessActive(config, s, ids[0], env); Inv(config, s') && AllIn(s', ids[1..], false)
  {
    hide Inv, ProcessActive;
    ProcessActiveKeeps(config, s, ids[0], env);
    ProcessActiveOthers(config, s, ids[0], env);
    AllInRest(s, ProcessActive(config, s, ids[0], env), ids, false);
  }

  lemma NextSecured(config: Config, s: State, ids: seq<nat>, env: Env)
    requires Inv(config, s) && AllIn(s, ids, false) && ids != [] && ids[0] in s.proposals
    ensures var s' := ProcessSecurity(config, s, ids[0], env); Inv(config, s') && AllIn(s', ids[1..], false)
  {
    hide Inv, ProcessSecurity;
    ProcessSecurityKeeps(config, s, ids[0], env);
    ProcessSecurityOthers(config, s, ids[0], env);
    AllInRest(s, ProcessSecurity(config, s, ids[0], env), ids, false);
  }
}
