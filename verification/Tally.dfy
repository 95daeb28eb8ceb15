/**
  The stake tally: voting delegators are counted one delegation at a time and deducted from
  their validators, who then vote with what is left. Decimals are taken as exact.
*/
module Tally {
  import opened WithdrawQueue

  datatype Option = Yes | Abstain | No | NoWithVeto

  datatype Vote = Vote(voter: Address, option: Option)

  /** A bonded validator: its tokens and the shares they are divided into. */
  datatype Validator = Validator(tokens: real, shares: real)

  datatype Delegation = Delegation(delegator: Address, validator: Address, shares: real)

  datatype Ballot = NoVote | Cast(option: Option)

  /** What the tally keeps about a validator while it runs. */
  datatype Info = Info(validator: Validator, deductions: real, vote: Ballot)

  // ----- Sums over delegations -----

  ghost function Sum(ds: seq<Delegation>, f: Delegation -> real): real {
    if ds == [] then 0.0 else f(ds[0]) + Sum(ds[1..], f)
  }

  lemma {:induction false} SumSnoc(ds: seq<Delegation>, d: Delegation, f: Delegation -> real)
    ensures Sum(ds + [d], f) == Sum(ds, f) + f(d)
  {
    if ds == [] {
      assert ds + [d] == [d];
      assert [d][1..] == [];
    } else {
      assert (ds + [d])[1..] == ds[1..] + [d];
      SumSnoc(ds[1..], d, f);
    }
  }

  lemma {:induction false} SumAdd(ds: seq<Delegation>, f: Delegation -> real, g: Delegation -> real, h: Delegation -> real)
    requires forall d :: d in ds ==> h(d) == f(d) + g(d)
    ensures Sum(ds, h) == Sum(ds, f) + Sum(ds, g)
  {
    if ds != [] {
      SumAdd(ds[1..], f, g, h);
    }
  }

  lemma {:induction false} SumScale(ds: seq<Delegation>, f: Delegation -> real, g: Delegation -> real, c: real)
    requires forall d :: d in ds ==> g(d) == c * f(d)
    ensures Sum(ds, g) == c * Sum(ds, f)
  {
    if ds != [] {
      SumScale(ds[1..], f, g, c);
    }
  }

  lemma {:induction false} SumMonotone(ds: seq<Delegation>, f: Delegation -> real, g: Delegation -> real)
    requires forall d :: d in ds ==> f(d) <= g(d)
    ensures Sum(ds, f) <= Sum(ds, g)
  {
    if ds != [] {
      SumMonotone(ds[1..], f, g);
    }
  }

  lemma SumSame(ds: seq<Delegation>, f: Delegation -> real, g: Delegation -> real)
    requires forall d :: d in ds ==> f(d) == g(d)
    ensures Sum(ds, f) == Sum(ds, g)
  {
    SumMonotone(ds, f, g);
    SumMonotone(ds, g, f);
  }

  lemma {:induction false} SumZero(ds: seq<Delegation>, f: Delegation -> real)
    requires forall d :: d in ds ==> f(d) == 0.0
    ensures Sum(ds, f) == 0.0
  {
    if ds != [] {
      SumZero(ds[1..], f);
    }
  }

  // ----- The reference count -----

  ghost function SharesIn(v: Address): Delegation -> real {
    (d: Delegation) => if d.validator == v then d.shares else 0.0
  }

  /** The staking records: a validator's shares are those of its delegations. */
  ghost predicate Staked(vals: map<Address, Validator>, ds: seq<Delegation>) {
    && (forall v :: v in vals ==> vals[v].shares > 0.0 && vals[v].tokens >= 0.0 && vals[v].shares == Sum(ds, SharesIn(v)))
    && (forall d :: d in ds ==> d.shares >= 0.0)
  }

  /** Every bonded validator has shares, so that none of the quotients divides by zero. */
  ghost predicate Shared(vals: map<Address, Validator>) {
    forall v :: v in vals ==> vals[v].shares > 0.0
  }

  /** The tokens some of a validator's shares stand for. */
  function Worth(v: Validator, shares: real): real
    requires v.shares > 0.0
  {
    shares / v.shares * v.tokens
  }

  /** The tokens behind a delegation to a bonded validator. */
  function Power(vals: map<Address, Validator>, d: Delegation): real
    requires Shared(vals)
  {
    if d.validator in vals then Worth(vals[d.validator], d.shares) else 0.0
  }

  /** The ballots after the given votes; each voter has one. */
  function Ballots(votes: seq<Vote>): map<Address, Option> {
    if votes == [] then map[] else Ballots(votes[..|votes| - 1])[votes[|votes| - 1].voter := votes[|votes| - 1].option]
  }

  ghost predicate OneVoteEach(votes: seq<Vote>) {
    forall i, j :: 0 <= i < j < |votes| ==> votes[i].voter != votes[j].voter
  }

  /** A delegator who is not a bonded validator and voted speaks for itself. */
  ghost predicate SpeaksForItself(vals: map<Address, Validator>, ballots: map<Address, Option>, d: Delegation) {
    d.delegator in ballots && d.delegator !in vals
  }

  /** The vote a delegation counts for: the delegator's own, or else its validator's. */
  ghost function VoteOf(vals: map<Address, Validator>, ballots: map<Address, Option>, d: Delegation): Ballot {
    if SpeaksForItself(vals, ballots, d) then Cast(ballots[d.delegator])
    else if d.validator in ballots then Cast(ballots[d.validator])
    else NoVote
  }

  ghost function CountedFor(vals: map<Address, Validator>, ballots: map<Address, Option>, o: Option): Delegation -> real
    requires Shared(vals)
  {
    (d: Delegation) => if VoteOf(vals, ballots, d) == Cast(o) then Power(vals, d) else 0.0
  }

  /** The simple count: every delegation to a bonded validator under the vote it counts for. */
  ghost function Count(vals: map<Address, Validator>, ds: seq<Delegation>, ballots: map<Address, Option>, o: Option): real
    requires Shared(vals)
  {
    Sum(ds, CountedFor(vals, ballots, o))
  }

  // ----- Counting delegators -----

  ghost function SharesFrom(a: Address, v: Address): Delegation -> real {
    (d: Delegation) => if d.delegator == a && d.validator == v then d.shares else 0.0
  }

  ghost function PowerFrom(vals: map<Address, Validator>, a: Address): Delegation -> real
    requires Shared(vals)
  {
    (d: Delegation) => if d.delegator == a then Power(vals, d) else 0.0
  }

  /** The shares a validator loses to delegators who speak for themselves. */
  ghost function DeductedFrom(vals: map<Address, Validator>, ballots: map<Address, Option>, v: Address): Delegation -> real {
    (d: Delegation) => if SpeaksForItself(vals, ballots, d) && d.validator == v then d.shares else 0.0
  }

  /** The power of delegators who speak for themselves, under one option. */
  ghost function SpokenFor(vals: map<Address, Validator>, ballots: map<Address, Option>, o: Option): Delegation -> real
    requires Shared(vals)
  {
    (d: Delegation) => if SpeaksForItself(vals, ballots, d) && ballots[d.delegator] == o then Power(vals, d) else 0.0
  }

  datatype Results = Results(yes: real, abstain: real, no: real, noWithVeto: real) {
    function At(o: Option): real {
      match o
      case Yes => yes
      case Abstain => abstain
      case No => no
      case NoWithVeto => noWithVeto
    }

    function Plus(o: Option, power: real): Results {
      match o
      case Yes => this.(yes := yes + power)
      case Abstain => this.(abstain := abstain + power)
      case No => this.(no := no + power)
      case NoWithVeto => this.(noWithVeto := noWithVeto + power)
    }

    function Sum(): real {
      yes + abstain + no + noWithVeto
    }
  }

  ghost predicate InfoOk(vals: map<Address, Validator>, ds: seq<Delegation>, ballots: map<Address, Option>, infos: map<Address, Info>, v: Address)
    requires v in vals && v in infos
  {
    && infos[v].validator == vals[v]
    && infos[v].deductions == Sum(ds, DeductedFrom(vals, ballots, v))
    && infos[v].vote == if v in ballots then Cast(ballots[v]) else NoVote
  }

  ghost predicate InfosOk(vals: map<Address, Validator>, ds: seq<Delegation>, ballots: map<Address, Option>, infos: map<Address, Info>) {
    infos.Keys == vals.Keys && forall v :: v in vals ==> InfoOk(vals, ds, ballots, infos, v)
  }

  ghost predicate Spoken(vals: map<Address, Validator>, ds: seq<Delegation>, ballots: map<Address, Option>, results: Results)
    requires Shared(vals)
  {
    forall o :: results.At(o) == Sum(ds, SpokenFor(vals, ballots, o))
  }

  /** One more delegator speaks for itself. */
  lemma DelegatorSpeaks(vals: map<Address, Validator>, ds: seq<Delegation>, ballots: map<Address, Option>, a: Address, option: Option, v: Address, o: Option)
    requires Shared(vals) && a !in ballots && a !in vals
    ensures Sum(ds, DeductedFrom(vals, ballots[a := option], v)) == Sum(ds, DeductedFrom(vals, ballots, v)) + Sum(ds, SharesFrom(a, v))
    ensures Sum(ds, SpokenFor(vals, ballots[a := option], o))
         == Sum(ds, SpokenFor(vals, ballots, o)) + (if o == option then Sum(ds, PowerFrom(vals, a)) else 0.0)
  {
    var ballots' := ballots[a := option];
    SumAdd(ds, DeductedFrom(vals, ballots, v), SharesFrom(a, v), DeductedFrom(vals, ballots', v));
    if o == option {
      SumAdd(ds, SpokenFor(vals, ballots, o), PowerFrom(vals, a), SpokenFor(vals, ballots', o));
    } else {
      SumSame(ds, SpokenFor(vals, ballots, o), SpokenFor(vals, ballots', o));
    }
  }

  /** A validator's vote changes nothing about the delegators. */
  lemma ValidatorSpeaks(vals: map<Address, Validator>, ds: seq<Delegation>, ballots: map<Address, Option>, a: Address, option: Option, v: Address, o: Option)
    requires Shared(vals) && a in vals
    ensures Sum(ds, DeductedFrom(vals, ballots[a := option], v)) == Sum(ds, DeductedFrom(vals, ballots, v))
    ensures Sum(ds, SpokenFor(vals, ballots[a := option], o)) == Sum(ds, SpokenFor(vals, ballots, o))
  {
    SumSame(ds, DeductedFrom(vals, ballots, v), DeductedFrom(vals, ballots[a := option], v));
    SumSame(ds, SpokenFor(vals, ballots, o), SpokenFor(vals, ballots[a := option], o));
  }

  /** The infos after `first` delegations of a voter have been deducted. */
  ghost predicate Deducting(vals: map<Address, Validator>, infos: map<Address, Info>, infos': map<Address, Info>, a: Address, first: seq<Delegation>)
    requires infos.Keys == vals.Keys
  {
    && infos'.Keys == vals.Keys
    && forall v :: v in vals ==> infos'[v] == infos[v].(deductions := infos[v].deductions + Sum(first, SharesFrom(a, v)))
  }

  lemma DeductingNext(vals: map<Address, Validator>, infos: map<Address, Info>, infos': map<Address, Info>, infos'': map<Address, Info>,
                      a: Address, first: seq<Delegation>, d: Delegation)
    requires infos.Keys == vals.Keys && Deducting(vals, infos, infos', a, first)
    requires infos'' == if d.delegator == a && d.validator in infos'
                        then infos'[d.validator := infos'[d.validator].(deductions := infos'[d.validator].deductions + d.shares)] else infos'
    ensures Deducting(vals, infos, infos'', a, first + [d])
  {
    forall v | v in vals
      ensures infos''[v] == infos[v].(deductions := infos[v].deductions + Sum(first + [d], SharesFrom(a, v)))
    {
      SumSnoc(first, d, SharesFrom(a, v));
    }
  }

  /** Deducts a voting delegator's shares and counts their power, one delegation at a time. */
  method CountDelegations(ds: seq<Delegation>, infos: map<Address, Info>, results: Results, total: real, vote: Vote, ghost vals: map<Address, Validator>)
    returns (infos': map<Address, Info>, results': Results, total': real)
    requires Shared(vals) && infos.Keys == vals.Keys && forall v :: v in vals ==> infos[v].validator == vals[v]
    ensures Deducting(vals, infos, infos', vote.voter, ds)
    ensures results' == results.Plus(vote.option, Sum(ds, PowerFrom(vals, vote.voter)))
    ensures total' == total + Sum(ds, PowerFrom(vals, vote.voter))
  {
    infos', results', total' := infos, results, total;
    ghost var sum := 0.0;
    for j := 0 to |ds|
      invariant Deducting(vals, infos, infos', vote.voter, ds[..j])
      invariant sum == Sum(ds[..j], PowerFrom(vals, vote.voter))
      invariant results' == results.Plus(vote.option, sum) && total' == total + sum
    {
      hide Sum, Worth, Deducting;
      var d := ds[j];
      assert ds[..j + 1] == ds[..j] + [d];
      SumSnoc(ds[..j], d, PowerFrom(vals, vote.voter));
      ghost var before := infos';
      var power := 0.0;
      if d.delegator == vote.voter && d.validator in infos' {
        var info := infos'[d.validator];
        infos' := infos'[d.validator := info.(deductions := info.deductions + d.shares)];
        power := Worth(info.validator, d.shares);
        results' := results'.Plus(vote.option, power);
        total' := total' + power;
      }
      assert power == PowerFrom(vals, vote.voter)(d);
      DeductingNext(vals, infos, before, infos', vote.voter, ds[..j], d);
      sum := sum + power;
    }
    assert ds[..|ds|] == ds;
  }

  // ----- Counting votes -----

  /** Where the tally stands after the given ballots. */
  ghost predicate Tracks(vals: map<Address, Validator>, ds: seq<Delegation>, ballots: map<Address, Option>,
                         infos: map<Address, Info>, results: Results, total: real)
    requires Shared(vals)
  {
    && InfosOk(vals, ds, ballots, infos)
    && Spoken(vals, ds, ballots, results)
    && total == results.Sum()
  }

  lemma TracksNone(vals: map<Address, Validator>, ds: seq<Delegation>, infos: map<Address, Info>)
    requires Shared(vals) && infos.Keys == vals.Keys && forall v :: v in vals ==> infos[v] == Info(vals[v], 0.0, NoVote)
    ensures Tracks(vals, ds, map[], infos, Results(0.0, 0.0, 0.0, 0.0), 0.0)
  {
    forall v | v in vals
      ensures InfoOk(vals, ds, map[], infos, v)
    {
      SumZero(ds, DeductedFrom(vals, map[], v));
    }
    forall o: Option
      ensures Sum(ds, SpokenFor(vals, map[], o)) == 0.0
    {
      SumZero(ds, SpokenFor(vals, map[], o));
    }
  }

  lemma TracksDelegator(vals: map<Address, Validator>, ds: seq<Delegation>, ballots: map<Address, Option>, infos: map<Address, Info>,
                        infos': map<Address, Info>, results: Results, results': Results, total: real, total': real, vote: Vote)
    requires Shared(vals) && Tracks(vals, ds, ballots, infos, results, total) && vote.voter !in ballots && vote.voter !in vals
    requires Deducting(vals, infos, infos', vote.voter, ds)
    requires results' == results.Plus(vote.option, Sum(ds, PowerFrom(vals, vote.voter)))
    requires total' == total + Sum(ds, PowerFrom(vals, vote.voter))
    ensures Tracks(vals, ds, ballots[vote.voter := vote.option], infos', results', total')
  {
    hide Sum;
    var ballots' := ballots[vote.voter := vote.option];
    forall v | v in vals
      ensures InfoOk(vals, ds, ballots', infos', v)
    {
      assert InfoOk(vals, ds, ballots, infos, v);
      DelegatorSpeaks(vals, ds, ballots, vote.voter, vote.option, v, Yes);
    }
    forall o
      ensures results'.At(o) == Sum(ds, SpokenFor(vals, ballots', o))
    {
      DelegatorSpeaks(vals, ds, ballots, vote.voter, vote.option, 0, o);
    }
  }

  lemma TracksValidator(vals: map<Address, Validator>, ds: seq<Delegation>, ballots: map<Address, Option>, infos: map<Address, Info>,
                        infos': map<Address, Info>, results: Results, total: real, vote: Vote)
    requires Shared(vals) && Tracks(vals, ds, ballots, infos, results, total) && vote.voter in vals
    requires infos' == infos[vote.voter := infos[vote.voter].(vote := Cast(vote.option))]
    ensures Tracks(vals, ds, ballots[vote.voter := vote.option], infos', results, total)
  {
    hide Sum;
    var ballots' := ballots[vote.voter := vote.option];
    forall v | v in vals
      ensures InfoOk(vals, ds, ballots', infos', v)
    {
      assert InfoOk(vals, ds, ballots, infos, v);
      ValidatorSpeaks(vals, ds, ballots, vote.voter, vote.option, v, Yes);
    }
    forall o
      ensures results.At(o) == Sum(ds, SpokenFor(vals, ballots', o))
    {
      ValidatorSpeaks(vals, ds, ballots, vote.voter, vote.option, 0, o);
    }
  }

  lemma {:induction false} NotYetVoted(votes: seq<Vote>, i: nat)
    requires OneVoteEach(votes) && i < |votes|
    ensures votes[i].voter !in Ballots(votes[..i])
    ensures Ballots(votes[..i + 1]) == Ballots(votes[..i])[votes[i].voter := votes[i].option]
  {
    assert votes[..i + 1][..i] == votes[..i];
    VotersOf(votes[..i], votes[i].voter);
  }

  lemma {:induction false} VotersOf(votes: seq<Vote>, a: Address)
    requires forall i :: 0 <= i < |votes| ==> votes[i].voter != a
    ensures a !in Ballots(votes)
  {
    if votes != [] {
      VotersOf(votes[..|votes| - 1], a);
    }
  }

  /** Records a validator's vote, or counts a delegator's. */
  method CountVote(vals: map<Address, Validator>, ds: seq<Delegation>, vote: Vote, infos: map<Address, Info>, results: Results, total: real,
                   ghost ballots: map<Address, Option>)
    returns (infos': map<Address, Info>, results': Results, total': real)
    requires Shared(vals) && vote.voter !in ballots && Tracks(vals, ds, ballots, infos, results, total)
    ensures Tracks(vals, ds, ballots[vote.voter := vote.option], infos', results', total')
  {
    hide Spoken, Sum;
    assert forall v :: v in vals ==> InfoOk(vals, ds, ballots, infos, v);
    if vote.voter in infos {
      infos' := infos[vote.voter := infos[vote.voter].(vote := Cast(vote.option))];
      results', total' := results, total;
      TracksValidator(vals, ds, ballots, infos, infos', results, total, vote);
    } else {
      infos', results', total' := CountDelegations(ds, infos, results, total, vote, vals);
      TracksDelegator(vals, ds, ballots, infos, infos', results, results', total, total', vote);
    }
  }

  /** Goes through the votes in whatever order they come. */
  method CountVotes(vals: map<Address, Validator>, ds: seq<Delegation>, votes: seq<Vote>)
    returns (infos: map<Address, Info>, results: Results, total: real)
    requires Shared(vals) && OneVoteEach(votes)
    ensures Tracks(vals, ds, Ballots(votes), infos, results, total)
  {
    infos := map v | v in vals :: Info(vals[v], 0.0, NoVote);
    results, total := Results(0.0, 0.0, 0.0, 0.0), 0.0;
    TracksNone(vals, ds, infos);
    assert votes[..0] == [];
    for i := 0 to |votes|
      invariant Tracks(vals, ds, Ballots(votes[..i]), infos, results, total)
    {
      hide Ballots, Tracks;
      NotYetVoted(votes, i);
      infos, results, total := CountVote(vals, ds, votes[i], infos, results, total, Ballots(votes[..i]));
    }
    assert votes[..|votes|] == votes;
  }

  // ----- Counting validators -----

  ghost function RestShares(vals: map<Address, Validator>, ballots: map<Address, Option>, v: Address): Delegation -> real {
    (d: Delegation) => if d.validator == v && !SpeaksForItself(vals, ballots, d) then d.shares else 0.0
  }

  /** The power of the delegations a validator speaks for. */
  ghost function RestPower(vals: map<Address, Validator>, ballots: map<Address, Option>, v: Address): Delegation -> real
    requires Shared(vals)
  {
    (d: Delegation) => if d.validator == v && !SpeaksForItself(vals, ballots, d) then Power(vals, d) else 0.0
  }

  /** The power under one option of the delegations that the given validators speak for. */
  ghost function LedFor(vals: map<Address, Validator>, ballots: map<Address, Option>, done: set<Address>, o: Option): Delegation -> real
    requires Shared(vals)
  {
    (d: Delegation) =>
      if d.validator in done && !SpeaksForItself(vals, ballots, d) && VoteOf(vals, ballots, d) == Cast(o) then Power(vals, d) else 0.0
  }

  /** The tokens one share of a validator stands for. */
  ghost function Rate(v: Validator): real
    requires v.shares > 0.0
  {
    v.tokens / v.shares
  }

  lemma WorthScales(v: Validator, shares: real)
    requires v.shares > 0.0
    ensures Worth(v, shares) == Rate(v) * shares
  {
  }

  lemma RestPowerScales(vals: map<Address, Validator>, ds: seq<Delegation>, ballots: map<Address, Option>, v: Address)
    requires Shared(vals) && v in vals
    ensures Sum(ds, RestPower(vals, ballots, v)) == Worth(vals[v], Sum(ds, RestShares(vals, ballots, v)))
  {
    hide Worth, Rate;
    forall d | d in ds
      ensures RestPower(vals, ballots, v)(d) == Rate(vals[v]) * RestShares(vals, ballots, v)(d)
    {
      if d.validator == v && !SpeaksForItself(vals, ballots, d) {
        WorthScales(vals[v], d.shares);
      }
    }
    SumScale(ds, RestShares(vals, ballots, v), RestPower(vals, ballots, v), Rate(vals[v]));
    WorthScales(vals[v], Sum(ds, RestShares(vals, ballots, v)));
  }

  /** A validator's shares after deductions are worth the delegations it speaks for. */
  lemma LeftIsRest(vals: map<Address, Validator>, ds: seq<Delegation>, ballots: map<Address, Option>, v: Address)
    requires Shared(vals) && Staked(vals, ds) && v in vals
    ensures Worth(vals[v], vals[v].shares - Sum(ds, DeductedFrom(vals, ballots, v))) == Sum(ds, RestPower(vals, ballots, v))
  {
    hide Worth, Sum;
    SumAdd(ds, DeductedFrom(vals, ballots, v), RestShares(vals, ballots, v), SharesIn(v));
    RestPowerScales(vals, ds, ballots, v);
    assert vals[v].shares - Sum(ds, DeductedFrom(vals, ballots, v)) == Sum(ds, RestShares(vals, ballots, v));
  }

  lemma LedNext(vals: map<Address, Validator>, ds: seq<Delegation>, ballots: map<Address, Option>, done: set<Address>, v: Address, o: Option)
    requires Shared(vals) && v !in done
    ensures Sum(ds, LedFor(vals, ballots, done + {v}, o))
         == Sum(ds, LedFor(vals, ballots, done, o)) + (if v in ballots && ballots[v] == o then Sum(ds, RestPower(vals, ballots, v)) else 0.0)
  {
    if v in ballots && ballots[v] == o {
      SumAdd(ds, LedFor(vals, ballots, done, o), RestPower(vals, ballots, v), LedFor(vals, ballots, done + {v}, o));
    } else {
      SumSame(ds, LedFor(vals, ballots, done, o), LedFor(vals, ballots, done + {v}, o));
    }
  }

  lemma CountSplits(vals: map<Address, Validator>, ds: seq<Delegation>, ballots: map<Address, Option>, o: Option)
    requires Shared(vals)
    ensures Count(vals, ds, ballots, o) == Sum(ds, SpokenFor(vals, ballots, o)) + Sum(ds, LedFor(vals, ballots, vals.Keys, o))
  {
    SumAdd(ds, SpokenFor(vals, ballots, o), LedFor(vals, ballots, vals.Keys, o), CountedFor(vals, ballots, o));
  }

  /** The results after the validators in `done` have voted with what is left to them. */
  ghost predicate Led(vals: map<Address, Validator>, ds: seq<Delegation>, ballots: map<Address, Option>, done: set<Address>, results: Results)
    requires Shared(vals)
  {
    forall o :: results.At(o) == Sum(ds, SpokenFor(vals, ballots, o)) + Sum(ds, LedFor(vals, ballots, done, o))
  }

  lemma LedStep(vals: map<Address, Validator>, ds: seq<Delegation>, ballots: map<Address, Option>, done: set<Address>, v: Address,
                info: Info, results: Results, results': Results)
    requires Shared(vals) && Staked(vals, ds) && v in vals && v !in done && Led(vals, ds, ballots, done, results)
    requires info == Info(vals[v], Sum(ds, DeductedFrom(vals, ballots, v)), if v in ballots then Cast(ballots[v]) else NoVote)
    requires results' == if info.vote.NoVote? then results
                         else results.Plus(info.vote.option, Worth(info.validator, info.validator.shares - info.deductions))
    ensures Led(vals, ds, ballots, done + {v}, results')
  {
    hide Sum, Worth;
    LeftIsRest(vals, ds, ballots, v);
    forall o
      ensures results'.At(o) == Sum(ds, SpokenFor(vals, ballots, o)) + Sum(ds, LedFor(vals, ballots, done + {v}, o))
    {
      LedNext(vals, ds, ballots, done, v, o);
    }
  }

  // ----- The tally -----

  /** `order` visits every validator once. */
  ghost predicate Visits(order: seq<Address>, vals: map<Address, Validator>) {
    && (forall v :: v in vals <==> v in order)
    && (forall i, j :: 0 <= i < j < |order| ==> order[i] != order[j])
  }

  ghost function Firsts(order: seq<Address>, k: nat): set<Address>
    requires k <= |order|
  {
    set i | 0 <= i < k :: order[i]
  }

  lemma FirstsNext(order: seq<Address>, vals: map<Address, Validator>, k: nat)
    requires Visits(order, vals) && k < |order|
    ensures order[k] in vals && order[k] !in Firsts(order, k) && Firsts(order, k + 1) == Firsts(order, k) + {order[k]}
  {
  }

  lemma FirstsAll(order: seq<Address>, vals: map<Address, Validator>)
    requires Visits(order, vals)
    ensures Firsts(order, |order|) == vals.Keys
  {
    forall v | v in vals
      ensures v in Firsts(order, |order|)
    {
      assert v in order;
      var i :| 0 <= i < |order| && order[i] == v;
    }
  }

  /** Lets the validators vote with what is left to them, in whatever order they come. */
  method CountValidators(vals: map<Address, Validator>, ds: seq<Delegation>, order: seq<Address>, infos: map<Address, Info>,
                         results: Results, total: real, ghost ballots: map<Address, Option>)
    returns (results': Results, total': real)
    requires Shared(vals) && Staked(vals, ds) && Visits(order, vals) && Tracks(vals, ds, ballots, infos, results, total)
    ensures Led(vals, ds, ballots, vals.Keys, results') && total' == results'.Sum()
  {
    results', total' := results, total;
    LedNone(vals, ds, ballots, results);
    assert Firsts(order, 0) == {};
    for k := 0 to |order|
      invariant Led(vals, ds, ballots, Firsts(order, k), results') && total' == results'.Sum()
    {
      hide Led, Worth, Sum, Firsts, Spoken;
      var v := order[k];
      FirstsNext(order, vals, k);
      var info := infos[v];
      assert InfoOk(vals, ds, ballots, infos, v);
      ghost var before := results';
      if !info.vote.NoVote? {
        var power := Worth(info.validator, info.validator.shares - info.deductions);
        results' := results'.Plus(info.vote.option, power);
        total' := total' + power;
      }
      LedStep(vals, ds, ballots, Firsts(order, k), v, info, before, results');
    }
    FirstsAll(order, vals);
  }

  lemma LedNone(vals: map<Address, Validator>, ds: seq<Delegation>, ballots: map<Address, Option>, results: Results)
    requires Shared(vals) && Spoken(vals, ds, ballots, results)
    ensures Led(vals, ds, ballots, {}, results)
  {
    forall o: Option
      ensures Sum(ds, LedFor(vals, ballots, {}, o)) == 0.0
    {
      SumZero(ds, LedFor(vals, ballots, {}, o));
    }
  }

  /** The tally counts every delegation under the vote it counts for, whatever the order of votes and validators. */
  method TallyVotes(vals: map<Address, Validator>, ds: seq<Delegation>, votes: seq<Vote>, order: seq<Address>)
    returns (results: Results, total: real)
    requires Staked(vals, ds) && OneVoteEach(votes) && Visits(order, vals)
    ensures Shared(vals) && forall o :: results.At(o) == Count(vals, ds, Ballots(votes), o)
    ensures total == results.Sum() && total <= Bonded(vals, order)
  {
    assert Shared(vals);
    var infos;
    infos, results, total := CountVotes(vals, ds, votes);
    results, total := CountValidators(vals, ds, order, infos, results, total, Ballots(votes));
    hide Ballots, Sum, Count;
    forall o: Option
      ensures results.At(o) == Count(vals, ds, Ballots(votes), o)
    {
      CountSplits(vals, ds, Ballots(votes), o);
    }
    AtMostBonded(vals, ds, Ballots(votes), order);
    assert results.Sum() == results.At(Yes) + results.At(Abstain) + results.At(No) + results.At(NoWithVeto);
  }

  // ----- All the power there is -----

  function Bonded(vals: map<Address, Validator>, order: seq<Address>): real {
    if order == [] then 0.0 else (if order[0] in vals then vals[order[0]].tokens else 0.0) + Bonded(vals, order[1..])
  }

  ghost function PowerIn(vals: map<Address, Validator>, v: Address): Delegation -> real
    requires Shared(vals)
  {
    (d: Delegation) => if d.validator == v then Power(vals, d) else 0.0
  }

  ghost function PowerAmong(vals: map<Address, Validator>, some: set<Address>): Delegation -> real
    requires Shared(vals)
  {
    (d: Delegation) => if d.validator in some then Power(vals, d) else 0.0
  }

  /** A validator's delegations are together worth its tokens. */
  lemma AllOfOne(vals: map<Address, Validator>, ds: seq<Delegation>, v: Address)
    requires Shared(vals) && Staked(vals, ds) && v in vals
    ensures Sum(ds, PowerIn(vals, v)) == vals[v].tokens
  {
    hide Worth, Rate, Sum;
    forall d | d in ds
      ensures PowerIn(vals, v)(d) == Rate(vals[v]) * SharesIn(v)(d)
    {
      if d.validator == v {
        WorthScales(vals[v], d.shares);
      }
    }
    SumScale(ds, SharesIn(v), PowerIn(vals, v), Rate(vals[v]));
    RateOfAll(vals[v]);
  }

  lemma RateOfAll(v: Validator)
    requires v.shares > 0.0
    ensures Rate(v) * v.shares == v.tokens
  {
  }

  lemma {:induction false} AllOfThem(vals: map<Address, Validator>, ds: seq<Delegation>, order: seq<Address>)
    requires Shared(vals) && Staked(vals, ds) && forall v :: v in order ==> v in vals
    requires forall i, j :: 0 <= i < j < |order| ==> order[i] != order[j]
    ensures Sum(ds, PowerAmong(vals, set v | v in order)) == Bonded(vals, order)
  {
    if order == [] {
      SumZero(ds, PowerAmong(vals, set v | v in order));
    } else {
      hide Sum;
      var rest := order[1..];
      AllOfThem(vals, ds, rest);
      AllOfOne(vals, ds, order[0]);
      var all, some := PowerAmong(vals, set v | v in order), PowerAmong(vals, set v | v in rest);
      assert forall v :: v in order <==> v == order[0] || v in rest;
      SumAdd(ds, PowerIn(vals, order[0]), some, all);
    }
  }

  ghost function VotedYesOrAbstained(vals: map<Address, Validator>, ballots: map<Address, Option>): Delegation -> real
    requires Shared(vals)
  {
    (d: Delegation) => CountedFor(vals, ballots, Yes)(d) + CountedFor(vals, ballots, Abstain)(d)
  }

  ghost function VotedNo(vals: map<Address, Validator>, ballots: map<Address, Option>): Delegation -> real
    requires Shared(vals)
  {
    (d: Delegation) => CountedFor(vals, ballots, No)(d) + CountedFor(vals, ballots, NoWithVeto)(d)
  }

  ghost function Voted(vals: map<Address, Validator>, ballots: map<Address, Option>): Delegation -> real
    requires Shared(vals)
  {
    (d: Delegation) => if VoteOf(vals, ballots, d).NoVote? then 0.0 else Power(vals, d)
  }

  /** No delegation is counted twice, so no more power votes than is bonded. */
  lemma AtMostBonded(vals: map<Address, Validator>, ds: seq<Delegation>, ballots: map<Address, Option>, order: seq<Address>)
    requires Shared(vals) && Staked(vals, ds) && Visits(order, vals)
    ensures Count(vals, ds, ballots, Yes) + Count(vals, ds, ballots, Abstain) + Count(vals, ds, ballots, No) + Count(vals, ds, ballots, NoWithVeto)
         <= Bonded(vals, order)
  {
    hide Sum, Bonded, Worth;
    SumAdd(ds, CountedFor(vals, ballots, Yes), CountedFor(vals, ballots, Abstain), VotedYesOrAbstained(vals, ballots));
    SumAdd(ds, CountedFor(vals, ballots, No), CountedFor(vals, ballots, NoWithVeto), VotedNo(vals, ballots));
    forall d | d in ds
      ensures Voted(vals, ballots)(d) == VotedYesOrAbstained(vals, ballots)(d) + VotedNo(vals, ballots)(d)
    {
      match VoteOf(vals, ballots, d)
      case NoVote =>
      case Cast(o) => assert o == Yes || o == Abstain || o == No || o == NoWithVeto;
    }
    SumAdd(ds, VotedYesOrAbstained(vals, ballots), VotedNo(vals, ballots), Voted(vals, ballots));
    var all := set v | v in order;
    forall d | d in ds
      ensures Voted(vals, ballots)(d) <= PowerAmong(vals, all)(d)
    {
      PowerNonNegative(vals, ds, d);
    }
    SumMonotone(ds, Voted(vals, ballots), PowerAmong(vals, all));
    AllOfThem(vals, ds, order);
  }

  lemma PowerNonNegative(vals: map<Address, Validator>, ds: seq<Delegation>, d: Delegation)
    requires Shared(vals) && Staked(vals, ds) && d in ds
    ensures Power(vals, d) >= 0.0
  {
    if d.validator in vals {
      assert d.shares / vals[d.validator].shares >= 0.0;
    }
  }

  lemma {:induction false} BallotsAre(votes: seq<Vote>, a: Address, o: Option)
    requires OneVoteEach(votes)
    ensures a in Ballots(votes) && Ballots(votes)[a] == o <==> Vote(a, o) in votes
  {
    if votes != [] {
      var n := |votes| - 1;
      assert votes == votes[..n] + [votes[n]];
      BallotsAre(votes[..n], a, o);
      if votes[n].voter == a {
        assert Vote(a, o) in votes[..n] ==> false;
      }
    }
  }

  /** The same votes in another order are the same ballots, so the tally does not depend on their order. */
  lemma BallotsInAnyOrder(votes: seq<Vote>, votes': seq<Vote>)
    requires OneVoteEach(votes) && OneVoteEach(votes') && multiset(votes) == multiset(votes')
    ensures Ballots(votes) == Ballots(votes')
  {
    BallotsWithin(votes, votes');
    BallotsWithin(votes', votes);
  }

  lemma BallotsWithin(votes: seq<Vote>, votes': seq<Vote>)
    requires OneVoteEach(votes) && OneVoteEach(votes') && multiset(votes) == multiset(votes')
    ensures forall a :: a in Ballots(votes) ==> a in Ballots(votes') && Ballots(votes')[a] == Ballots(votes)[a]
  {
    forall a | a in Ballots(votes)
      ensures a in Ballots(votes') && Ballots(votes')[a] == Ballots(votes)[a]
    {
      var o := Ballots(votes)[a];
      BallotsAre(votes, a, o);
      assert Vote(a, o) in multiset(votes');
      BallotsAre(votes', a, o);
    }
  }
}
