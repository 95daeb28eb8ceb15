/** What a block does with the deposits on the proposals it decides, and with the shield of the claims among them. */
module Settling {
  import opened WithdrawQueue
  import opened Totals
  import opened Tally
  import opened Decision
  import P = Purchases
  import C = Claims
  import opened Gov
  import opened GovSteps
  import opened GovRuns
  import opened Refunds
  import opened Polls

  ghost function SumOf(ids: seq<nat>, f: nat -> int): int {
    if ids == [] then 0 else f(ids[0]) + SumOf(ids[1..], f)
  }

  lemma {:induction false} SumOfSame(ids: seq<nat>, f: nat -> int, g: nat -> int)
    requires forall id :: id in ids ==> f(id) == g(id)
    ensures SumOf(ids, f) == SumOf(ids, g)
  {
    if ids != [] {
      SumOfSame(ids[1..], f, g);
    }
  }

  // ----- One proposal -----

  /** The proposal is in its stake round, and what is decided about it there. */
  ghost predicate Ends(s: State, env: Env, id: nat, verdict: Verdict) {
    id in s.proposals && s.proposals[id].status.ValidatorVoting? && env.stake(id) == verdict
  }

  /** The proposal is in its certifier round, and that round is its last. */
  ghost predicate EndsEarly(s: State, env: Env, id: nat) {
    id in s.proposals && s.proposals[id].status.CertifierVoting? && EndsVoting(s.proposals[id].kind, env.security(id))
  }

  /** The deposits to burn: those of a proposal that is vetoed. */
  ghost function Burns(s: State, env: Env): nat -> int {
    (id: nat) => if Ends(s, env, id, Vetoed) then Deposited(s, id) else 0
  }

  /** The deposits to pay back: those of any other proposal that is decided. */
  ghost function PaysBack(s: State, env: Env): nat -> int {
    (id: nat) => if Ends(s, env, id, Verdict.Passed) || Ends(s, env, id, Verdict.Rejected) || EndsEarly(s, env, id) then Deposited(s, id) else 0
  }

  /** The shield to give back: that of a claim that is rejected and not vetoed, in either round. */
  ghost function GivesBack(s: State, env: Env): nat -> int {
    (id: nat) =>
      if id in s.proposals && s.proposals[id].kind.Claim? && (Ends(s, env, id, Verdict.Rejected) || EndsEarly(s, env, id))
      then s.proposals[id].kind.loss else 0
  }

  /** What two states differ in by what was burnt, paid back and given back. */
  ghost predicate Settles(s: State, s': State, burnt: int, paid: int, given: int) {
    && s'.burnt == s.burnt + burnt
    && s'.escrow == s.escrow - burnt - paid
    && s'.book.totalShield == s.book.totalShield + given
  }

  lemma RejectedShield(b: P.Book, p: Proposal)
    ensures EndRejected(b, p).totalShield == b.totalShield + if p.kind.Claim? then p.kind.loss else 0
  {
  }

  lemma ProcessActiveSettles(config: Config, s: State, id: nat, env: Env)
    requires id in s.proposals && Voting(s.proposals[id].status)
    ensures Settles(s, ProcessActive(config, s, id, env), Burns(s, env)(id), PaysBack(s, env)(id), GivesBack(s, env)(id))
  {
    hide Deposited, OtherDeposits, EndRejected, EndVetoed, EndPassed, Activate;
    RejectedShield(s.book, s.proposals[id]);
    OthersShield(s.book, s.proposals[id]);
    if s.proposals[id].status.CertifierVoting? {
      ActivateSettles(config, s, id, env.security(id));
    } else {
      DepositedSame(s, ClearVotes(s, id), id);
      match env.stake(id)
      case Vetoed =>
      case Rejected =>
      case Passed =>
    }
  }

  lemma OthersShield(b: P.Book, p: Proposal)
    ensures EndVetoed(b, p).totalShield == b.totalShield && EndPassed(b, p).totalShield == b.totalShield
  {
  }

  lemma ActivateSettles(config: Config, s: State, id: nat, pass: bool)
    requires id in s.proposals
    ensures Settles(s, NextRound(config, s, id, pass), 0, 0, 0)
  {
  }

  lemma DepositedSame(s: State, m: State, id: nat)
    requires m.deposits == s.deposits
    ensures Deposited(m, id) == Deposited(s, id)
  {
  }

  // ----- All proposals of a block -----

  /** What is settled for a proposal does not change with what is decided about others. */
  lemma FrozenSettles(s: State, m: State, env: Env, id: nat)
    requires Frozen(s, m, id)
    ensures Burns(m, env)(id) == Burns(s, env)(id) && PaysBack(m, env)(id) == PaysBack(s, env)(id)
    ensures GivesBack(m, env)(id) == GivesBack(s, env)(id)
  {
    hide Deposited;
  }

  lemma AllFrozenSettle(s: State, m: State, env: Env, ids: seq<nat>)
    requires forall id :: id in ids ==> Frozen(s, m, id)
    ensures SumOf(ids, Burns(m, env)) == SumOf(ids, Burns(s, env)) && SumOf(ids, PaysBack(m, env)) == SumOf(ids, PaysBack(s, env))
    ensures SumOf(ids, GivesBack(m, env)) == SumOf(ids, GivesBack(s, env))
  {
    hide Frozen, Burns, PaysBack, GivesBack;
    forall id | id in ids
      ensures Burns(m, env)(id) == Burns(s, env)(id) && PaysBack(m, env)(id) == PaysBack(s, env)(id)
      ensures GivesBack(m, env)(id) == GivesBack(s, env)(id)
    {
      FrozenSettles(s, m, env, id);
    }
    SumOfSame(ids, Burns(m, env), Burns(s, env));
    SumOfSame(ids, PaysBack(m, env), PaysBack(s, env));
    SumOfSame(ids, GivesBack(m, env), GivesBack(s, env));
  }

  lemma {:induction false} ActiveAllSettles(config: Config, s: State, ids: seq<nat>, env: Env)
    requires AllIn(s, ids, false) && ActiveAll(config, s, ids, env).Ok?
    ensures Settles(s, ActiveAll(config, s, ids, env).state,
                    SumOf(ids, Burns(s, env)), SumOf(ids, PaysBack(s, env)), SumOf(ids, GivesBack(s, env)))
    decreases |ids|
  {
    if ids != [] {
      hide ProcessActive, Burns, PaysBack, GivesBack, AllIn;
      FirstSettles(config, s, ids, env);
      ActiveAllSettles(config, ProcessActive(config, s, ids[0], env), ids[1..], env);
    }
  }

  /** Deciding the first proposal settles what is due for it, and leaves what is due for the rest. */
  lemma FirstSettles(config: Config, s: State, ids: seq<nat>, env: Env)
    requires AllIn(s, ids, false) && ids != []
    ensures ids[0] in s.proposals
    ensures var m := ProcessActive(config, s, ids[0], env);
            && AllIn(m, ids[1..], false)
            && Settles(s, m, Burns(s, env)(ids[0]), PaysBack(s, env)(ids[0]), GivesBack(s, env)(ids[0]))
            && SumOf(ids[1..], Burns(m, env)) == SumOf(ids[1..], Burns(s, env))
            && SumOf(ids[1..], PaysBack(m, env)) == SumOf(ids[1..], PaysBack(s, env))
            && SumOf(ids[1..], GivesBack(m, env)) == SumOf(ids[1..], GivesBack(s, env))
  {
    hide ProcessActive, Frozen, Burns, PaysBack, GivesBack, SumOf;
    var m := ProcessActive(config, s, ids[0], env);
    assert ids[0] in ids;
    ProcessActiveSettles(config, s, ids[0], env);
    ProcessActiveOthers(config, s, ids[0], env);
    AllInRest(s, m, ids, false);
    forall id | id in ids[1..]
      ensures Frozen(s, m, id)
    {
      ProcessActiveFrozen(config, s, ids[0], env, id);
    }
    AllFrozenSettle(s, m, env, ids[1..]);
  }

  /** The deposits on proposals that did not gather enough. */
  ghost function DepositsOn(s: State): nat -> int {
    (id: nat) => Deposited(s, id)
  }

  lemma {:induction false} DropAllSettles(s: State, ids: seq<nat>)
    requires (forall i, j :: 0 <= i < j < |ids| ==> ids[i] != ids[j]) && DropAll(s, ids).Ok?
    ensures Settles(s, DropAll(s, ids).state, 0, SumOf(ids, DepositsOn(s)), 0)
    decreases |ids|
  {
    if ids != [] {
      var m := Drop(s, ids[0]);
      assert Deposited(s.(proposals := m.proposals, inactive := m.inactive, active := m.active), ids[0]) == Deposited(s, ids[0]);
      assert Settles(s, m, 0, Deposited(s, ids[0]), 0);
      hide Drop, Deposited;
      DropAllSettles(m, ids[1..]);
      forall id | id in ids[1..]
        ensures DepositsOn(m)(id) == DepositsOn(s)(id)
      {
        DropFrozen(s, ids[0], id);
      }
      SumOfSame(ids[1..], DepositsOn(m), DepositsOn(s));
    }
  }

  lemma ProcessSecuritySettles(config: Config, s: State, id: nat, env: Env)
    requires id in s.proposals
    ensures Settles(s, ProcessSecurity(config, s, id, env), 0, 0, 0)
  {
  }

  lemma {:induction false} SecurityAllSettles(config: Config, s: State, ids: seq<nat>, env: Env)
    requires SecurityAll(config, s, ids, env).Ok?
    ensures Settles(s, SecurityAll(config, s, ids, env).state, 0, 0, 0)
    decreases |ids|
  {
    if ids != [] {
      hide ProcessSecurity;
      ProcessSecuritySettles(config, s, ids[0], env);
      SecurityAllSettles(config, ProcessSecurity(config, s, ids[0], env), ids[1..], env);
    }
  }

  // ----- A block -----

  /** The proposals whose voting is over. */
  ghost predicate TimeIsUp(s: State, id: nat) {
    id in s.proposals && Voting(s.proposals[id].status) && s.proposals[id].votingEnd <= s.now
  }

  lemma EndedAreUp(config: Config, s: State, agenda: Agenda, env: Env, id: nat)
    requires Inv(config, s) && Follows(config, s, agenda, env)
    ensures id in agenda.ended <==> TimeIsUp(s, id)
    ensures id in agenda.ended ==> DropAll(s, agenda.dropped).Ok? && Frozen(s, DropAll(s, agenda.dropped).state, id)
  {
    hide Inv, ActiveAll, DropAll, Follows, Deposited, UpTo;
    BlockParts(config, s, agenda, env);
    var s1 := DropAll(s, agenda.dropped).state;
    FollowsEnded(config, s, agenda, env);
    if id in agenda.ended {
      DropAllFrozen(s, agenda.dropped, id);
      EndedIff(config, s1, agenda.ended, id);
    } else if TimeIsUp(s, id) {
      NotDropped(config, s, agenda, env, id);
      DropAllFrozen(s, agenda.dropped, id);
      EndedIff(config, s1, agenda.ended, id);
    }
  }

  lemma FollowsEnded(config: Config, s: State, agenda: Agenda, env: Env)
    requires Inv(config, s) && Follows(config, s, agenda, env) && DropAll(s, agenda.dropped).Ok?
    ensures var s1 := DropAll(s, agenda.dropped).state; s1.now == s.now && Lists(agenda.ended, UpTo(s1.active, s1.now))
  {
    hide Inv, ActiveAll, DropAll, UpTo;
    ListedDepositing(config, s, agenda.dropped);
    DropAllKeeps(config, s, agenda.dropped);
  }

  lemma NotDropped(config: Config, s: State, agenda: Agenda, env: Env, id: nat)
    requires Inv(config, s) && Follows(config, s, agenda, env) && TimeIsUp(s, id)
    ensures id !in agenda.dropped
  {
    hide Inv, ActiveAll, DropAll, UpTo;
    ListedDepositing(config, s, agenda.dropped);
  }

  /**
    What a block settles: the deposits on vetoed proposals are burnt, those on all others decided,
    and on all dropped, are paid back, and shield is given back for the claims rejected without a veto.
  */
  lemma BlockSettles(config: Config, s: State, agenda: Agenda, env: Env)
    requires Inv(config, s) && Follows(config, s, agenda, env)
    ensures EndBlock(config, s, agenda, env).Ok?
    ensures Settles(s, EndBlock(config, s, agenda, env).state, SumOf(agenda.ended, Burns(s, env)),
                    SumOf(agenda.ended, PaysBack(s, env)) + SumOf(agenda.dropped, DepositsOn(s)), SumOf(agenda.ended, GivesBack(s, env)))
    ensures forall id :: id in agenda.ended <==> TimeIsUp(s, id)
  {
    hide Inv, ActiveAll, DropAll, SecurityAll, Burns, PaysBack, GivesBack, DepositsOn, Frozen, TimeIsUp, AllIn, UpTo;
    EndBlockKeeps(config, s, agenda, env);
    BlockParts(config, s, agenda, env);
    var s1 := DropAll(s, agenda.dropped).state;
    DropAllSettles(s, agenda.dropped);
    ActiveAllSettles(config, s1, agenda.ended, env);
    SecurityAllSettles(config, ActiveAll(config, s1, agenda.ended, env).state, agenda.voting, env);
    forall id
      ensures id in agenda.ended <==> TimeIsUp(s, id)
      ensures id in agenda.ended ==> Frozen(s, s1, id)
    {
      EndedAreUp(config, s, agenda, env, id);
    }
    AllFrozenSettle(s, s1, env, agenda.ended);
  }

  // ----- By the votes -----

  /** The votes on a proposal in its stake round veto it. */
  ghost predicate VotedDown(s: State, poll: Poll, id: nat)
    requires PollOk(poll)
  {
    && id in s.proposals && s.proposals[id].status.ValidatorVoting?
    && Vetoes(StakeResults(poll, BallotsOn(s.votes, id)), PowerFor(poll, s.proposals[id].kind), ParamsFor(poll, s.proposals[id].kind))
  }

  /** They approve of it. */
  ghost predicate VotedFor(s: State, poll: Poll, id: nat)
    requires PollOk(poll)
  {
    && id in s.proposals && s.proposals[id].status.ValidatorVoting?
    && Approves(StakeResults(poll, BallotsOn(s.votes, id)), PowerFor(poll, s.proposals[id].kind), ParamsFor(poll, s.proposals[id].kind))
  }

  /** What must be voted on a proposal for it to be decided. */
  ghost function PowerFor(poll: Poll, kind: Kind): real {
    if kind.Claim? then poll.certified else poll.bonded
  }

  ghost function ParamsFor(poll: Poll, kind: Kind): Params {
    if kind.CertifierUpdate? then poll.updates else poll.defaults
  }

  lemma DecisionsByVotes(s: State, poll: Poll, id: nat)
    requires PollOk(poll) && 0.0 <= poll.bonded && 0.0 <= poll.certified
    ensures Ends(s, Counted(s, poll), id, Vetoed) <==> VotedDown(s, poll, id)
    ensures Ends(s, Counted(s, poll), id, Verdict.Passed) <==> VotedFor(s, poll, id)
  {
    hide StakeResults, BallotsOn, StakeVerdict, Vetoes, Approves, PollOk, NonNegative, SecurityDecision;
    if id in s.proposals && s.proposals[id].status.ValidatorVoting? {
      var kind := s.proposals[id].kind;
      VerdictIff(StakeResults(poll, BallotsOn(s.votes, id)), PowerFor(poll, kind), ParamsFor(poll, kind));
    }
  }

  ghost function BurntByVotes(s: State, poll: Poll): nat -> int
    requires PollOk(poll)
  {
    (id: nat) => if VotedDown(s, poll, id) then Deposited(s, id) else 0
  }

  ghost function GivenBackByVotes(s: State, poll: Poll): nat -> int
    requires PollOk(poll)
  {
    (id: nat) =>
      if id in s.proposals && s.proposals[id].kind.Claim? && !VotedDown(s, poll, id) && !VotedFor(s, poll, id)
         && (s.proposals[id].status.CertifierVoting? ==> !SecurityDecision(s, poll, id))
      then s.proposals[id].kind.loss else 0
  }

  /** Of the proposals whose time is up, exactly those voted down lose their deposits, and exactly the claims neither voted down nor for get their shield back. */
  lemma VotesSettle(config: Config, s: State, agenda: Agenda, poll: Poll)
    requires Inv(config, s) && PollOk(poll) && 0.0 <= poll.bonded && 0.0 <= poll.certified && Follows(config, s, agenda, Counted(s, poll))
    ensures EndBlock(config, s, agenda, Counted(s, poll)).Ok?
    ensures var s' := EndBlock(config, s, agenda, Counted(s, poll)).state;
            && s'.burnt == s.burnt + SumOf(agenda.ended, BurntByVotes(s, poll))
            && s'.book.totalShield == s.book.totalShield + SumOf(agenda.ended, GivenBackByVotes(s, poll))
    ensures forall id :: id in agenda.ended <==> TimeIsUp(s, id)
  {
    hide Inv, EndBlock, Follows, Burns, PaysBack, GivesBack, Deposited, PollOk, SumOf, Counted, BurntByVotes, GivenBackByVotes, TimeIsUp;
    var env := Counted(s, poll);
    BlockSettles(config, s, agenda, env);
    forall id | id in agenda.ended
      ensures Burns(s, env)(id) == BurntByVotes(s, poll)(id) && GivesBack(s, env)(id) == GivenBackByVotes(s, poll)(id)
    {
      SettledByVotes(s, poll, id);
    }
    SumOfSame(agenda.ended, Burns(s, env), BurntByVotes(s, poll));
    SumOfSame(agenda.ended, GivesBack(s, env), GivenBackByVotes(s, poll));
  }

  lemma SettledByVotes(s: State, poll: Poll, id: nat)
    requires PollOk(poll) && 0.0 <= poll.bonded && 0.0 <= poll.certified && TimeIsUp(s, id)
    ensures Burns(s, Counted(s, poll))(id) == BurntByVotes(s, poll)(id)
    ensures GivesBack(s, Counted(s, poll))(id) == GivenBackByVotes(s, poll)(id)
  {
    hide Deposited, StakeDecision, SecurityDecision, PollOk, VotedDown, VotedFor;
    DecisionsByVotes(s, poll, id);
    if VotedDown(s, poll, id) || VotedFor(s, poll, id) {
      OnlyInStakeRound(s, poll, id);
    }
  }

  lemma OnlyInStakeRound(s: State, poll: Poll, id: nat)
    requires PollOk(poll) && (VotedDown(s, poll, id) || VotedFor(s, poll, id))
    ensures id in s.proposals && s.proposals[id].status.ValidatorVoting?
  {
  }

  /** A proposal whose stake round ends passes if its votes are for it and it can be carried out, fails if it cannot, and is rejected otherwise; a claim can. */
  lemma StatusByVotes(config: Config, s: State, agenda: Agenda, poll: Poll, id: nat)
    requires Inv(config, s) && PollOk(poll) && 0.0 <= poll.bonded && 0.0 <= poll.certified && Follows(config, s, agenda, Counted(s, poll))
    requires id in agenda.ended && id in s.proposals && s.proposals[id].status.ValidatorVoting?
    ensures EndBlock(config, s, agenda, Counted(s, poll)).Ok?
    ensures var s' := EndBlock(config, s, agenda, Counted(s, poll)).state;
            && id in s'.proposals
            && (s'.proposals[id].status.Passed? <==> VotedFor(s, poll, id) && (poll.handler(id) || s.proposals[id].kind.Claim?))
            && (s'.proposals[id].status.Failed? <==> VotedFor(s, poll, id) && !poll.handler(id) && !s.proposals[id].kind.Claim?)
            && (s'.proposals[id].status.Rejected? <==> !VotedFor(s, poll, id))
  {
    hide Inv, EndBlock, StakeDecision, SecurityDecision, PollOk, VotedDown, VotedFor, Follows;
    DecidedByVotes(config, s, agenda, poll, id);
    DecisionsByVotes(s, poll, id);
  }
}
