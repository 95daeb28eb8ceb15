/**
  Claims over whole runs of governance and shield together: while every claim is decided before
  its lock ends, a claim that is voted on can always be restored, and the shield sums hold.
*/
module ClaimRuns {
  import opened Totals
  import opened WithdrawQueue
  import opened Tally
  import opened Decision
  import P = Purchases
  import C = Claims
  import opened Market
  import opened Gov
  import opened GovSteps
  import opened GovRuns

  predicate ClaimOpen(p: Proposal) {
    p.kind.Claim? && Voting(p.status)
  }

  /** The purchase that rejecting a claim would restore is there, and stays until the lock ends. */
  ghost predicate HeldFor(config: Config, b: P.Book, p: Proposal)
    requires p.kind.Claim?
  {
    Held(b, P.Key(p.kind.pool, p.proposer), p.kind.purchase, LockEnd(config, p.submit))
  }

  /** The sums over pools and purchases hold, and every claim being voted on can be restored. */
  ghost predicate Sound(config: Config, s: State) {
    && P.Inv(s.book)
    && forall id :: id in s.proposals && ClaimOpen(s.proposals[id]) ==> HeldFor(config, s.book, s.proposals[id])
  }

  /**
    What a run must keep to: claims are made by those who hold the purchase, no claim is voted on
    past the end of its lock when purchases expire, and no pool is closed under a purchase.
  */
  ghost predicate Timely(config: Config, s: State, action: Action) {
    match action
    case SubmitProposal(kind, proposer, _, _, _, _) => kind.Claim? ==> kind.claimant == proposer
    case Trading(trade) =>
      && (trade.Expired? ==> forall id :: id in s.proposals && ClaimOpen(s.proposals[id]) ==> s.now <= LockEnd(config, s.proposals[id].submit))
      && (trade.Closed? ==> NoneClosable(s.book))
    case _ => true
  }

  // ----- What happens to the book -----

  lemma ClaimedTotal(b: P.Book, claimed: int)
    requires P.Inv(b)
    ensures P.Inv(b.(totalClaimed := claimed))
  {
    forall k | k in b.lists
      ensures P.ListOk(b.(totalClaimed := claimed), b.lists[k])
    {
      assert P.ListOk(b, b.lists[k]);
    }
  }

  /** Whatever purchase is held in `b` is held in `b'`. */
  ghost predicate LetsGoOfNone(b: P.Book, b': P.Book) {
    forall k, id, until :: Held(b, k, id, until) ==> Held(b', k, id, until)
  }

  lemma Rewritten(b: P.Book, b': P.Book, key: P.Key, i: nat, p': P.Purchase)
    requires key in b.lists && i < |b.lists[key]| && b'.lists == b.lists[key := b.lists[key][i := p']]
    requires p'.id == b.lists[key][i].id && p'.deletion >= b.lists[key][i].deletion
    ensures LetsGoOfNone(b, b')
  {
    forall k, id, until | Held(b, k, id, until)
      ensures Held(b', k, id, until)
    {
      RewrittenHeld(b, b', key, i, p', k, id, until);
    }
  }

  /** Rejecting a claim that can be restored keeps the sums, and lets go of no other purchase. */
  lemma EndRejectedKeeps(config: Config, b: P.Book, p: Proposal)
    requires P.Inv(b) && (p.kind.Claim? ==> HeldFor(config, b, p))
    ensures P.Inv(EndRejected(b, p)) && LetsGoOfNone(b, EndRejected(b, p))
  {
    hide P.Inv, C.Restore, Held, LetsGoOfNone, C.Restorable;
    if p.kind.Claim? {
      var key, id, loss := P.Key(p.kind.pool, p.proposer), p.kind.purchase, p.kind.loss;
      HeldRestorable(b, key, id, LockEnd(config, p.submit));
      RestorableAt(b, key, id);
      C.RestoreKeeps(b, key, id, loss);
      var m, i := C.Restore(b, key, id, loss).0, C.Find(b.lists[key], id);
      ClaimedTotal(m, m.totalClaimed - loss);
      Rewritten(b, EndRejected(b, p), key, i, b.lists[key][i].(shield := b.lists[key][i].shield + loss));
    } else {
      LetsGoSame(b, b);
    }
  }

  lemma RestorableAt(b: P.Book, k: P.Key, id: nat)
    requires C.Restorable(b, k, id)
    ensures k in b.lists && C.Find(b.lists[k], id) < |b.lists[k]|
  {
  }

  lemma LetsGoSame(b: P.Book, b': P.Book)
    requires b'.lists == b.lists
    ensures LetsGoOfNone(b, b')
  {
  }

  lemma SecuredKeeps(config: Config, s: State, kind: Kind, totalCollateral: int, lasts: bool)
    requires P.Inv(s.book) && kind.Claim? && Secured(config, s, kind, totalCollateral, lasts).Ok?
    ensures var b' := Secured(config, s, kind, totalCollateral, lasts).book;
            && P.Inv(b')
            && Held(b', ClaimKey(kind), kind.purchase, LockEnd(config, s.now))
            && LetsGoOfNone(s.book, b')
  {
    var b, key := s.book, ClaimKey(kind);
    var b', i := Secured(config, s, kind, totalCollateral, lasts).book, C.Find(b.lists[key], kind.purchase);
    C.SecureKeeps(b, totalCollateral, key, kind.purchase, kind.loss, LockEnd(config, s.now));
    var p := C.Claimed(b.lists[key][i], kind.loss, LockEnd(config, s.now));
    assert b'.lists == b.lists[key := b.lists[key][i := p]];
    assert b'.lists[key][i] == p;
    hide P.Inv, Secured, LetsGoOfNone;
    Rewritten(b, b', key, i, p);
  }

  // ----- Steps -----

  /** No claim is voted on that was not before, and those that are, are the same. */
  ghost predicate NoNewClaims(s: State, s': State) {
    forall id :: id in s'.proposals && ClaimOpen(s'.proposals[id]) ==>
      && id in s.proposals && ClaimOpen(s.proposals[id])
      && s'.proposals[id].kind == s.proposals[id].kind
      && s'.proposals[id].proposer == s.proposals[id].proposer
      && s'.proposals[id].submit == s.proposals[id].submit
  }

  lemma StaysSound(config: Config, s: State, s': State)
    requires Sound(config, s) && NoNewClaims(s, s') && P.Inv(s'.book)
    requires LetsGoOfNone(s.book, s'.book)
    ensures Sound(config, s')
  {
    hide P.Inv, Held;
  }

  lemma SameBookSound(config: Config, s: State, s': State)
    requires Sound(config, s) && NoNewClaims(s, s') && s'.book == s.book
    ensures Sound(config, s')
  {
    hide P.Inv, Held;
  }

  /** How deciding a proposal changes the book, and the proposal. */
  ghost predicate Decides(s: State, s': State, id: nat)
    requires id in s.proposals
  {
    && id in s'.proposals && s'.proposals == s.proposals[id := s'.proposals[id]]
    && s'.proposals[id].kind == s.proposals[id].kind
    && s'.proposals[id].proposer == s.proposals[id].proposer
    && s'.proposals[id].submit == s.proposals[id].submit
    && (s'.book == s.book || s'.book == EndVetoed(s.book, s.proposals[id])
        || s'.book == EndRejected(s.book, s.proposals[id]) || s'.book == EndPassed(s.book, s.proposals[id]))
  }

  lemma ProcessActiveDecides(config: Config, s: State, id: nat, env: Env)
    requires id in s.proposals
    ensures Decides(s, ProcessActive(config, s, id, env), id)
  {
    hide Total, Deposited, OtherDeposits, EndVetoed, EndRejected, EndPassed;
    if s.proposals[id].status.CertifierVoting? {
    } else {
      match env.stake(id)
      case Vetoed =>
      case Rejected =>
      case Passed =>
    }
  }

  lemma ProcessSecurityDecides(config: Config, s: State, id: nat, env: Env)
    requires id in s.proposals
    ensures Decides(s, ProcessSecurity(config, s, id, env), id)
  {
    hide EndPassed;
  }

  lemma DecidesSound(config: Config, s: State, s': State, id: nat)
    requires Sound(config, s) && id in s.proposals && Voting(s.proposals[id].status) && Decides(s, s', id)
    ensures Sound(config, s')
  {
    hide P.Inv, EndRejected, LetsGoOfNone, Held;
    var b, p := s.book, s.proposals[id];
    DecidedBook(config, b, p, s'.book);
    StaysSound(config, s, s');
  }

  lemma DecidedBook(config: Config, b: P.Book, p: Proposal, b': P.Book)
    requires P.Inv(b) && (p.kind.Claim? ==> HeldFor(config, b, p))
    requires b' == b || b' == EndVetoed(b, p) || b' == EndRejected(b, p) || b' == EndPassed(b, p)
    ensures P.Inv(b') && LetsGoOfNone(b, b')
  {
    hide P.Inv, LetsGoOfNone, EndRejected;
    if b' == EndRejected(b, p) {
      EndRejectedKeeps(config, b, p);
    } else {
      LetsGoSame(b, b');
      ClaimedTotal(b, b'.totalClaimed);
    }
  }

  lemma {:induction false} ActiveAllSound(config: Config, s: State, ids: seq<nat>, env: Env)
    requires Sound(config, s) && AllIn(s, ids, false) && ActiveAll(config, s, ids, env).Ok?
    ensures Sound(config, ActiveAll(config, s, ids, env).state)
    decreases |ids|
  {
    if ids != [] {
      hide ProcessActive, Sound, Decides;
      assert ids[0] in ids;
      var m := ProcessActive(config, s, ids[0], env);
      ProcessActiveDecides(config, s, ids[0], env);
      ProcessActiveOthers(config, s, ids[0], env);
      DecidesSound(config, s, m, ids[0]);
      AllInRest(s, m, ids, false);
      ActiveAllSound(config, m, ids[1..], env);
    }
  }

  lemma {:induction false} SecurityAllSound(config: Config, s: State, ids: seq<nat>, env: Env)
    requires Sound(config, s) && AllIn(s, ids, false) && SecurityAll(config, s, ids, env).Ok?
    ensures Sound(config, SecurityAll(config, s, ids, env).state)
    decreases |ids|
  {
    if ids != [] {
      hide ProcessSecurity, Sound, Decides;
      assert ids[0] in ids;
      var m := ProcessSecurity(config, s, ids[0], env);
      ProcessSecurityDecides(config, s, ids[0], env);
      ProcessSecurityOthers(config, s, ids[0], env);
      DecidesSound(config, s, m, ids[0]);
      AllInRest(s, m, ids, false);
      SecurityAllSound(config, m, ids[1..], env);
    }
  }

  lemma {:induction false} DropAllSound(config: Config, s: State, ids: seq<nat>)
    requires Sound(config, s) && DropAll(s, ids).Ok?
    ensures Sound(config, DropAll(s, ids).state)
    decreases |ids|
  {
    if ids != [] {
      var m := Drop(s, ids[0]);
      assert m.book == s.book && m.proposals == s.proposals - {ids[0]};
      hide Drop, Sound;
      SameBookSound(config, s, m);
      DropAllSound(config, m, ids[1..]);
    }
  }

  lemma EndBlockSound(config: Config, s: State, agenda: Agenda, env: Env)
    requires Gov.Inv(config, s) && Sound(config, s) && Follows(config, s, agenda, env)
    ensures EndBlock(config, s, agenda, env).Ok? && Sound(config, EndBlock(config, s, agenda, env).state)
  {
    hide Gov.Inv, Sound, DropAll, ActiveAll, SecurityAll, Lists, UpTo;
    ListedDepositing(config, s, agenda.dropped);
    DropAllKeeps(config, s, agenda.dropped);
    DropAllSound(config, s, agenda.dropped);
    var s1 := DropAll(s, agenda.dropped).state;
    ListedVoting(config, s1, agenda.ended);
    ActiveAllKeeps(config, s1, agenda.ended, env);
    ActiveAllSound(config, s1, agenda.ended, env);
    var s2 := ActiveAll(config, s1, agenda.ended, env).state;
    ListedVoting(config, s2, agenda.voting);
    SecurityAllKeeps(config, s2, agenda.voting, env);
    SecurityAllSound(config, s2, agenda.voting, env);
  }

  lemma IntroducedIs(config: Config, s: State, kind: Kind, proposer: Address, council: bool, amount: nat)
    requires s.nextId !in s.proposals
    ensures var s' := Introduced(config, s, kind, proposer, council, amount);
            && s'.book == s.book && s.nextId in s'.proposals && s'.proposals == s.proposals[s.nextId := s'.proposals[s.nextId]]
            && s'.proposals[s.nextId].kind == kind && s'.proposals[s.nextId].proposer == proposer
            && s'.proposals[s.nextId].submit == s.now
  {
  }

  lemma SubmitSound(config: Config, s: State, kind: Kind, proposer: Address, council: bool, amount: nat, totalCollateral: int, lasts: bool)
    requires Gov.Inv(config, s) && Sound(config, s) && (kind.Claim? ==> kind.claimant == proposer)
    ensures Sound(config, Submit(config, s, kind, proposer, council, amount, totalCollateral, lasts))
  {
    assert ProposalOk(config, s, s.nextId);
    hide Gov.Inv, ProposalOk, Introduced, Secured, P.Inv, Held, LetsGoOfNone;
    IntroducedIs(config, s, kind, proposer, council, amount);
    var s' := Submit(config, s, kind, proposer, council, amount, totalCollateral, lasts);
    if !kind.Claim? {
      SameBookSound(config, s, s');
    } else if Secured(config, s, kind, totalCollateral, lasts).Ok? {
      SecuredKeeps(config, s, kind, totalCollateral, lasts);
      OneMoreSound(config, s, s', s.nextId);
    }
  }

  lemma OneMoreSound(config: Config, s: State, s': State, id: nat)
    requires Sound(config, s) && P.Inv(s'.book) && LetsGoOfNone(s.book, s'.book)
    requires id in s'.proposals && s'.proposals == s.proposals[id := s'.proposals[id]]
    requires s'.proposals[id].kind.Claim? ==> HeldFor(config, s'.book, s'.proposals[id])
    ensures Sound(config, s')
  {
    hide P.Inv, Held;
  }

  /** A claim is never in its deposit period, so no deposit opens the voting on one. */
  lemma DepositSound(config: Config, s: State, id: nat, depositor: Address, amount: nat)
    requires Gov.Inv(config, s) && Sound(config, s)
    ensures Sound(config, AddDeposit(config, s, id, depositor, amount))
  {
    assert ProposalOk(config, s, id);
    hide Gov.Inv, Sound;
    if Depositable(s, id) {
      AddDepositBooks(config, s, id, depositor, amount);
      hide AddDeposit;
      SameBookSound(config, s, AddDeposit(config, s, id, depositor, amount));
    }
  }

  lemma TradingSound(config: Config, s: State, trade: Trade)
    requires Sound(config, s) && Timely(config, s, Trading(trade))
    ensures P.PoolsPresent(s.book) && Sound(config, s.(book := Traded(s.book, trade, s.now)))
  {
    TradedKeeps(s.book, trade, s.now);
    var b' := Traded(s.book, trade, s.now);
    forall id | id in s.proposals && ClaimOpen(s.proposals[id])
      ensures HeldFor(config, b', s.proposals[id])
    {
      hide P.Inv, Traded;
      var p := s.proposals[id];
      TradedHeld(s.book, trade, s.now, P.Key(p.kind.pool, p.proposer), p.kind.purchase, LockEnd(config, p.submit));
    }
  }

  lemma StepSound(config: Config, s: State, action: Action)
    requires Gov.Inv(config, s) && Sound(config, s) && Possible(config, s, action) && Timely(config, s, action)
    ensures Step(config, s, action).Ok? && Sound(config, Step(config, s, action).state)
  {
    hide Gov.Inv, Sound, Submit, AddDeposit, EndBlock, Traded;
    match action
    case SubmitProposal(kind, proposer, council, amount, totalCollateral, lasts) =>
      SubmitSound(config, s, kind, proposer, council, amount, totalCollateral, lasts);
    case Deposit(id, depositor, amount) => DepositSound(config, s, id, depositor, amount);
    case Ballot(id, voter, option, certifier, identity) =>
      SameBookSound(config, s, CastVote(s, id, voter, option, certifier, identity));
    case EndOfBlock(agenda, env) => EndBlockSound(config, s, agenda, env);
    case Trading(trade) => TradingSound(config, s, trade);
    case NextBlock(time) => SameBookSound(config, s, s.(now := s.now + time));
  }

  ghost predicate IsTimelyRun(config: Config, states: seq<State>, actions: seq<Action>) {
    IsRun(config, states, actions) && forall i :: 0 <= i < |actions| ==> Timely(config, states[i], actions[i])
  }

  lemma {:induction false} RunSound(config: Config, states: seq<State>, actions: seq<Action>, i: nat)
    requires IsTimelyRun(config, states, actions) && i < |states|
    ensures Sound(config, states[i])
  {
    if i > 0 {
      RunSound(config, states, actions, i - 1);
      hide Sound, Timely, Possible, Step;
      RunKeeps(config, states, actions, i - 1);
      StepSound(config, states[i - 1], actions[i - 1]);
    }
  }

  /**
    In every state of a run with claims, bought and expiring purchases, and pools opened and closed,
    the shield of the pools, of the purchases and in total agree; and a purchase always has its pool.
  */
  lemma RunShieldSums(config: Config, states: seq<State>, actions: seq<Action>, i: nat)
    requires IsTimelyRun(config, states, actions) && i < |states|
    ensures P.ShieldSums(states[i].book) && P.PoolsPresent(states[i].book)
  {
    RunSound(config, states, actions, i);
  }

  /** A claim that is voted on, and so also when it is decided, has its purchase still there to restore. */
  lemma RestorableWhenDecided(config: Config, states: seq<State>, actions: seq<Action>, i: nat, id: nat)
    requires IsTimelyRun(config, states, actions) && i < |states|
    requires id in states[i].proposals && ClaimOpen(states[i].proposals[id])
    ensures var p := states[i].proposals[id]; C.Restorable(states[i].book, P.Key(p.kind.pool, p.proposer), p.kind.purchase)
    ensures P.ShieldSums(EndRejected(states[i].book, states[i].proposals[id]))
  {
    RunSound(config, states, actions, i);
    var b, p := states[i].book, states[i].proposals[id];
    HeldRestorable(b, P.Key(p.kind.pool, p.proposer), p.kind.purchase, LockEnd(config, p.submit));
    EndRejectedKeeps(config, b, p);
  }
}
