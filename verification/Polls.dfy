/** Governance with its verdicts counted from the votes it holds. */
module Polls {
  import opened WithdrawQueue
  import opened Totals
  import opened Tally
  import opened Decision
  import opened Gov
  import opened GovSteps
  import opened GovRuns

  /** What votes are weighed by: stakes, certifiers, and the thresholds of the different rounds. */
  datatype Poll = Poll(
    vals: map<Address, Validator>,
    ds: seq<Delegation>,
    bonded: real,
    certified: real,
    certifiers: nat,
    defaults: Params,
    updates: Params,
    security: Params,
    handler: nat -> bool)

  ghost predicate PollOk(poll: Poll) {
    Shared(poll.vals) && Staked(poll.vals, poll.ds)
  }

  /** The votes on a proposal. */
  ghost function BallotsOn(votes: map<Share, Option>, id: nat): map<Address, Option> {
    map share | share in votes && share.id == id :: share.who := votes[share]
  }

  ghost function StakeResults(poll: Poll, ballots: map<Address, Option>): (r: Results)
    requires PollOk(poll)
    ensures NonNegative(r)
  {
    CountNonNegative(poll, ballots, Yes);
    CountNonNegative(poll, ballots, Abstain);
    CountNonNegative(poll, ballots, No);
    CountNonNegative(poll, ballots, NoWithVeto);
    Results(Count(poll.vals, poll.ds, ballots, Yes), Count(poll.vals, poll.ds, ballots, Abstain),
            Count(poll.vals, poll.ds, ballots, No), Count(poll.vals, poll.ds, ballots, NoWithVeto))
  }

  lemma CountNonNegative(poll: Poll, ballots: map<Address, Option>, o: Option)
    requires PollOk(poll)
    ensures Count(poll.vals, poll.ds, ballots, o) >= 0.0
  {
    forall d | d in poll.ds
      ensures 0.0 <= CountedFor(poll.vals, ballots, o)(d)
    {
      PowerNonNegative(poll.vals, poll.ds, d);
    }
    SumZero(poll.ds, (d: Delegation) => 0.0);
    SumMonotone(poll.ds, (d: Delegation) => 0.0, CountedFor(poll.vals, ballots, o));
  }

  ghost function Supporters(ballots: map<Address, Option>, o: Option): set<Address> {
    set a | a in ballots && ballots[a] == o
  }

  /** One head, one vote. */
  ghost function Heads(ballots: map<Address, Option>, o: Option): nat {
    |Supporters(ballots, o)|
  }

  ghost function HeadCount(ballots: map<Address, Option>): (r: Results)
    ensures NonNegative(r)
  {
    Results(Heads(ballots, Yes) as real, Heads(ballots, Abstain) as real, Heads(ballots, No) as real, Heads(ballots, NoWithVeto) as real)
  }

  /** The stake verdict on a proposal: claims are measured against what certified identities have bonded. */
  ghost function StakeDecision(s: State, poll: Poll, id: nat): Verdict
    requires PollOk(poll)
  {
    if id !in s.proposals then Verdict.Rejected else
    var kind := s.proposals[id].kind;
    StakeVerdict(StakeResults(poll, BallotsOn(s.votes, id)), if kind.Claim? then poll.certified else poll.bonded,
                 if kind.CertifierUpdate? then poll.updates else poll.defaults)
  }

  ghost function SecurityDecision(s: State, poll: Poll, id: nat): bool {
    SecurityVerdict(HeadCount(BallotsOn(s.votes, id)), poll.certifiers, poll.security)
  }

  /** The outcomes of a block, counted from the votes there are when it ends. */
  ghost function Counted(s: State, poll: Poll): Env
    requires PollOk(poll)
  {
    Env((id: nat) => SecurityDecision(s, poll, id), (id: nat) => StakeDecision(s, poll, id), poll.handler)
  }

  // ----- Counting -----

  /** `votes` are the votes on a proposal, as the store iterates over them. */
  ghost predicate VotesOn(s: State, id: nat, votes: seq<Vote>) {
    && OneVoteEach(votes)
    && forall vote: Vote :: vote in votes <==> Share(id, vote.voter) in s.votes && s.votes[Share(id, vote.voter)] == vote.option
  }

  lemma VotesAreBallots(s: State, id: nat, votes: seq<Vote>)
    requires VotesOn(s, id, votes)
    ensures Ballots(votes) == BallotsOn(s.votes, id)
  {
    var b, b' := Ballots(votes), BallotsOn(s.votes, id);
    forall a
      ensures a in b <==> a in b'
      ensures a in b ==> b[a] == b'[a]
    {
      if a in b {
        BallotsAre(votes, a, b[a]);
        assert Vote(a, b[a]) in votes;
      }
      if a in b' {
        BallotsAre(votes, a, b'[a]);
        assert Vote(a, b'[a]) in votes;
      }
    }
  }

  /** Counts the stake behind the votes on a proposal and draws the verdict. */
  method DecideByStake(s: State, poll: Poll, id: nat, votes: seq<Vote>, order: seq<Address>) returns (verdict: Verdict)
    requires PollOk(poll) && id in s.proposals && VotesOn(s, id, votes) && Visits(order, poll.vals)
    ensures verdict == StakeDecision(s, poll, id)
  {
    hide Count, StakeVerdict;
    var results, total := TallyVotes(poll.vals, poll.ds, votes, order);
    VotesAreBallots(s, id, votes);
    assert results.At(Yes) == results.yes && results.At(Abstain) == results.abstain;
    assert results.At(No) == results.no && results.At(NoWithVeto) == results.noWithVeto;
    assert results == StakeResults(poll, BallotsOn(s.votes, id));
    var kind := s.proposals[id].kind;
    var power := if kind.Claim? then poll.certified else poll.bonded;
    return StakeVerdict(results, power, if kind.CertifierUpdate? then poll.updates else poll.defaults);
  }

  lemma HeadsNext(ballots: map<Address, Option>, a: Address, option: Option, o: Option)
    requires a !in ballots
    ensures Heads(ballots[a := option], o) == Heads(ballots, o) + if o == option then 1 else 0
  {
    var ballots' := ballots[a := option];
    var before, after := Supporters(ballots, o), Supporters(ballots', o);
    assert forall x :: x in after <==> x in before || (x == a && o == option);
    if o == option {
      assert after == before + {a};
    } else {
      assert after == before;
    }
  }

  lemma HeadCountNext(ballots: map<Address, Option>, a: Address, option: Option)
    requires a !in ballots
    ensures HeadCount(ballots[a := option]) == HeadCount(ballots).Plus(option, 1.0)
  {
    hide Heads;
    HeadsNext(ballots, a, option, Yes);
    HeadsNext(ballots, a, option, Abstain);
    HeadsNext(ballots, a, option, No);
    HeadsNext(ballots, a, option, NoWithVeto);
  }

  /** Counts the certifiers' votes on a proposal by heads, and says whether it passes. */
  method DecideByHeads(s: State, poll: Poll, id: nat, votes: seq<Vote>) returns (pass: bool)
    requires VotesOn(s, id, votes)
    ensures pass <==> SecurityDecision(s, poll, id)
  {
    hide Ballots, BallotsOn, HeadCount, SecurityVerdict;
    NoHeads(votes);
    var results := Results(0.0, 0.0, 0.0, 0.0);
    for i := 0 to |votes|
      invariant results == HeadCount(Ballots(votes[..i]))
    {
      NotYetVoted(votes, i);
      HeadCountNext(Ballots(votes[..i]), votes[i].voter, votes[i].option);
      results := results.Plus(votes[i].option, 1.0);
    }
    assert votes[..|votes|] == votes;
    VotesAreBallots(s, id, votes);
    return SecurityVerdict(results, poll.certifiers, poll.security);
  }

  lemma NoHeads(votes: seq<Vote>)
    ensures HeadCount(Ballots(votes[..0])) == Results(0.0, 0.0, 0.0, 0.0)
  {
    assert votes[..0] == [];
    var none: map<Address, Option> := map[];
    forall o
      ensures Heads(none, o) == 0
    {
      assert Supporters(none, o) == {};
    }
  }

  // ----- No decision disturbs another -----

  /** A proposal, and the votes on it, are the same. */
  ghost predicate Undisturbed(s: State, m: State, id: nat) {
    && (id in m.proposals <==> id in s.proposals)
    && (id in s.proposals ==> m.proposals[id] == s.proposals[id])
    && BallotsOn(m.votes, id) == BallotsOn(s.votes, id)
  }

  lemma SameDecisions(s: State, m: State, poll: Poll, id: nat)
    requires PollOk(poll) && Undisturbed(s, m, id)
    ensures StakeDecision(m, poll, id) == StakeDecision(s, poll, id)
    ensures SecurityDecision(m, poll, id) == SecurityDecision(s, poll, id)
  {
    hide StakeResults, HeadCount, StakeVerdict, SecurityVerdict, BallotsOn;
  }

  lemma ClearedBallots(s: State, id: nat, j: nat)
    requires j != id
    ensures BallotsOn(ClearVotes(s, id).votes, j) == BallotsOn(s.votes, j)
  {
  }

  lemma ProcessActiveVotes(config: Config, s: State, id: nat, env: Env)
    requires id in s.proposals
    ensures ProcessActive(config, s, id, env).votes == s.votes || ProcessActive(config, s, id, env).votes == ClearVotes(s, id).votes
  {
    hide Deposited, OtherDeposits, EndVetoed, EndRejected, EndPassed;
  }

  lemma ProcessActiveUndisturbed(config: Config, s: State, id: nat, env: Env, j: nat)
    requires id in s.proposals && j != id
    ensures Undisturbed(s, ProcessActive(config, s, id, env), j)
  {
    hide ProcessActive, BallotsOn, ClearVotes;
    ProcessActiveVotes(config, s, id, env);
    ProcessActiveOthers(config, s, id, env);
    ClearedBallots(s, id, j);
  }

  lemma {:induction false} ActiveAllUndisturbed(config: Config, s: State, ids: seq<nat>, env: Env, j: nat)
    requires j !in ids && ActiveAll(config, s, ids, env).Ok?
    ensures Undisturbed(s, ActiveAll(config, s, ids, env).state, j)
    decreases |ids|
  {
    if ids != [] {
      hide ProcessActive, BallotsOn;
      ProcessActiveUndisturbed(config, s, ids[0], env, j);
      ActiveAllUndisturbed(config, ProcessActive(config, s, ids[0], env), ids[1..], env, j);
    }
  }

  lemma {:induction false} DropAllUndisturbed(s: State, ids: seq<nat>, j: nat)
    requires j !in ids && DropAll(s, ids).Ok?
    ensures Undisturbed(s, DropAll(s, ids).state, j)
    decreases |ids|
  {
    if ids != [] {
      DropUndisturbed(s, ids[0], j);
      hide Drop, BallotsOn;
      DropAllUndisturbed(Drop(s, ids[0]), ids[1..], j);
    }
  }

  lemma DropUndisturbed(s: State, id: nat, j: nat)
    requires id in s.proposals && j != id
    ensures Undisturbed(s, Drop(s, id), j)
  {
    hide BallotsOn;
  }

  lemma {:induction false} ActiveAllSplits(config: Config, s: State, ids: seq<nat>, more: seq<nat>, env: Env)
    requires ActiveAll(config, s, ids + more, env).Ok?
    ensures ActiveAll(config, s, ids, env).Ok?
    decreases |ids|
  {
    if ids != [] {
      hide ProcessActive;
      assert (ids + more)[1..] == ids[1..] + more;
      ActiveAllSplits(config, ProcessActive(config, s, ids[0], env), ids[1..], more, env);
    }
  }

  /**
    However many proposals a block decides, and in whatever order: the votes counted for one when
    its turn comes are those there were at the start, so counting them all beforehand is the same.
  */
  lemma CountedAtItsTurn(config: Config, s: State, agenda: Agenda, poll: Poll, k: nat)
    requires Inv(config, s) && PollOk(poll) && Follows(config, s, agenda, Counted(s, poll)) && k < |agenda.ended|
    ensures DropAll(s, agenda.dropped).Ok?
    ensures var turn := ActiveAll(config, DropAll(s, agenda.dropped).state, agenda.ended[..k], Counted(s, poll));
            && turn.Ok?
            && StakeDecision(turn.state, poll, agenda.ended[k]) == Counted(s, poll).stake(agenda.ended[k])
            && SecurityDecision(turn.state, poll, agenda.ended[k]) == Counted(s, poll).security(agenda.ended[k])
  {
    hide Inv, DropAll, ActiveAll, StakeDecision, SecurityDecision, Undisturbed, Follows, PollOk, AllIn;
    var env, id := Counted(s, poll), agenda.ended[k];
    BlockParts(config, s, agenda, env);
    var s1 := DropAll(s, agenda.dropped).state;
    Earlier(agenda.ended, k);
    assert agenda.ended == agenda.ended[..k] + agenda.ended[k..];
    ActiveAllSplits(config, s1, agenda.ended[..k], agenda.ended[k..], env);
    assert id in agenda.ended;
    DropAllUndisturbed(s, agenda.dropped, id);
    ActiveAllUndisturbed(config, s1, agenda.ended[..k], env, id);
    var m := ActiveAll(config, s1, agenda.ended[..k], env).state;
    SameDecisions(s, s1, poll, id);
    SameDecisions(s1, m, poll, id);
  }

  lemma Earlier(ids: seq<nat>, k: nat)
    requires k < |ids| && forall i, j :: 0 <= i < j < |ids| ==> ids[i] != ids[j]
    ensures ids[k] !in ids[..k]
  {
  }

  lemma BlockParts(config: Config, s: State, agenda: Agenda, env: Env)
    requires Inv(config, s) && Follows(config, s, agenda, env)
    ensures DropAll(s, agenda.dropped).Ok?
    ensures var s1 := DropAll(s, agenda.dropped).state;
            && Inv(config, s1) && AllIn(s1, agenda.ended, false) && ActiveAll(config, s1, agenda.ended, env).Ok?
            && (forall id :: id in agenda.ended ==> id !in agenda.dropped)
            && forall i, j :: 0 <= i < j < |agenda.ended| ==> agenda.ended[i] != agenda.ended[j]
  {
    hide Inv, ActiveAll, SecurityAll, UpTo;
    ListedDepositing(config, s, agenda.dropped);
    DropAllKeeps(config, s, agenda.dropped);
    var s1 := DropAll(s, agenda.dropped).state;
    ListedVoting(config, s1, agenda.ended);
    ActiveAllKeeps(config, s1, agenda.ended, env);
    forall id | id in agenda.dropped
      ensures id !in s1.proposals
    {
      Dropped(s, agenda.dropped, id);
    }
  }

  lemma {:induction false} Dropped(s: State, ids: seq<nat>, id: nat)
    requires DropAll(s, ids).Ok? && (id in ids || id !in s.proposals)
    ensures id !in DropAll(s, ids).state.proposals
    decreases |ids|
  {
    if ids != [] {
      var m := Drop(s, ids[0]);
      assert m.proposals == s.proposals - {ids[0]};
      hide Drop;
      Dropped(m, ids[1..], id);
    }
  }

  /** What a stake verdict makes of a proposal. */
  ghost function Becomes(p: Proposal, verdict: Verdict, ok: bool): Status {
    if verdict.Passed? then Executed(p.kind, ok) else Status.Rejected
  }

  lemma ProcessActiveBecomes(config: Config, s: State, id: nat, env: Env)
    requires id in s.proposals && s.proposals[id].status.ValidatorVoting?
    ensures id in ProcessActive(config, s, id, env).proposals
    ensures ProcessActive(config, s, id, env).proposals[id].status == Becomes(s.proposals[id], env.stake(id), env.handler(id))
  {
    hide Deposited, OtherDeposits, EndVetoed, EndRejected, EndPassed;
  }

  lemma {:induction false} ActiveAllBecomes(config: Config, s: State, ids: seq<nat>, env: Env, id: nat)
    requires Inv(config, s) && AllIn(s, ids, false) && id in ids && s.proposals[id].status.ValidatorVoting?
    ensures ActiveAll(config, s, ids, env).Ok?
    ensures var s' := ActiveAll(config, s, ids, env).state;
            id in s'.proposals && s'.proposals[id].status == Becomes(s.proposals[id], env.stake(id), env.handler(id))
    decreases |ids|
  {
    hide Inv, ProcessActive;
    var m := ProcessActive(config, s, ids[0], env);
    assert ids[0] in ids;
    ProcessActiveKeeps(config, s, ids[0], env);
    ProcessActiveOthers(config, s, ids[0], env);
    AllInRest(s, m, ids, false);
    if ids[0] == id {
      ProcessActiveBecomes(config, s, id, env);
      ActiveAllKeeps(config, m, ids[1..], env);
    } else {
      ActiveAllBecomes(config, m, ids[1..], env, id);
    }
  }

  /**
    A proposal whose stake vote ends in a block passes that block exactly if the votes on it say
    so: each delegation counted once, for its delegator's vote or else for its validator's.
  */
  lemma DecidedByVotes(config: Config, s: State, agenda: Agenda, poll: Poll, id: nat)
    requires Inv(config, s) && PollOk(poll) && Follows(config, s, agenda, Counted(s, poll))
    requires id in agenda.ended && id in s.proposals && s.proposals[id].status.ValidatorVoting?
    ensures EndBlock(config, s, agenda, Counted(s, poll)).Ok?
    ensures var s' := EndBlock(config, s, agenda, Counted(s, poll)).state;
            id in s'.proposals && s'.proposals[id].status == Becomes(s.proposals[id], StakeDecision(s, poll, id), poll.handler(id))
  {
    hide Inv, DropAll, ActiveAll, SecurityAll, StakeDecision, BallotsOn, PollOk, AllIn, Lists, UpTo;
    var env := Counted(s, poll);
    EndBlockKeeps(config, s, agenda, env);
    BlockParts(config, s, agenda, env);
    var s1 := DropAll(s, agenda.dropped).state;
    DropAllUndisturbed(s, agenda.dropped, id);
    ActiveAllBecomes(config, s1, agenda.ended, env, id);
    var s2 := ActiveAll(config, s1, agenda.ended, env).state;
    ActiveAllKeeps(config, s1, agenda.ended, env);
    ListedVoting(config, s2, agenda.voting);
    SecurityAllKeeps(config, s2, agenda.voting, env);
  }
}
