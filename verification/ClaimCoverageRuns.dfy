/** Whole runs with claims: when what is sold and claimed stays backed, and when it does not. */
module ClaimCoverageRuns {
  import opened Dec
  import opened Split
  import opened Totals
  import opened WithdrawQueue
  import opened Collateral
  import P = Purchases
  import C = Claims
  import V = Coverage
  import R = Reimbursed
  import S = Securing
  import K = ShieldKeeper
  import E = Expiring
  import opened ClaimCoverage

  // ----- Claims -----

  lemma {:induction false} PostponedFrom(l: Ledger, l': Ledger, order: seq<Address>, t: int)
    requires S.Postponed(l, l')
    ensures S.DueFrom(l'.queue, order, t) <= S.DueFrom(l.queue, order, t)
  {
    if order != [] {
      PostponedFrom(l, l', order[1..], t);
    }
  }

  lemma PostponedLeaves(w: V.World, w': V.World, order: seq<Address>, due: int)
    requires Inv(w.ledger) && Inv(w'.ledger) && Enumerates(order, w.ledger.providers) && S.Postponed(w.ledger, w'.ledger) && w'.now == w.now
    ensures Leaves(w, w', 0, due)
  {
    forall t
      ensures V.Remaining(w, t) <= V.Remaining(w', t)
    {
      OwnersListed(w.ledger, order);
      OwnersListed(w'.ledger, order);
      S.DueFromAll(w.ledger.queue, order, t);
      S.DueFromAll(w'.ledger.queue, order, t);
      PostponedFrom(w.ledger, w'.ledger, order, t);
    }
  }

  lemma OwnersListed(l: Ledger, order: seq<Address>)
    requires Inv(l) && Enumerates(order, l.providers)
    ensures forall e :: e in l.queue ==> e.owner in order
  {
  }

  lemma SecuresFair(w: V.World, claim: Claim, order: seq<Address>, w': V.World, end: int)
    requires Fair(w.book, end) && Secures(w, claim, order, w')
    ensures Fair(w'.book, end) && Sheds(w.book, w'.book) && w'.book.totalClaimed == w.book.totalClaimed + claim.loss
    ensures w'.now == w.now && Inv(w'.ledger)
  {
    hide Inv, Fair, Sheds, C.Secure, S.Postponed, S.StakesLast, K.LockShares, K.Coverable, K.Locked, R.Solvent, Enumerates;
    SecureFair(w.book, w.ledger.totalCollateral, claim.key, claim.purchase, claim.loss, claim.lockEnd, end);
  }

  lemma SecuresLocks(w: V.World, claim: Claim, order: seq<Address>, w': V.World, t: int)
    requires Secures(w, claim, order, w') && 0 <= w.book.totalClaimed + claim.loss && K.Coverable(w.ledger, order, w.book.totalClaimed + claim.loss)
    requires t < claim.lockEnd
    ensures w.book.totalClaimed + claim.loss <= V.Remaining(w', t)
  {
    hide Inv, C.Secure, S.Postponed, S.StakesLast, K.LockShares, K.Coverable, R.Solvent, Enumerates;
  }

  lemma ClaimOrderly(rules: Rules, s: Scene, id: nat, claim: Claim, order: seq<Address>, s': Scene)
    requires Orderly(rules, s) && Happens(rules, s, Claimed(id, claim, order), s')
    ensures Orderly(rules, s') && Sheds(s.world.book, s'.world.book)
    ensures s'.world.book.totalClaimed == s.world.book.totalClaimed + claim.loss
  {
    hide Inv, Fair, Sheds, Secures;
    SecuresFair(s.world, claim, order, s'.world, s.world.now + rules.params.protection);
    TotalUpdate(s.claims, LossOf, id, claim);
  }

  lemma ClaimLeaves(rules: Rules, s: Scene, id: nat, claim: Claim, order: seq<Address>, s': Scene, due: int)
    requires Orderly(rules, s) && Happens(rules, s, Claimed(id, claim, order), s')
    ensures Leaves(s.world, s'.world, 0, due)
  {
    hide Inv, Fair, C.Secure, S.Postponed, S.StakesLast, K.LockShares, K.Coverable, K.Locked, R.Solvent, Enumerates, Leaves;
    PostponedLeaves(s.world, s'.world, order, due);
  }

  /** The lock of a claim secured in full covers the older claims too: theirs end no later. */
  lemma ClaimBacked(rules: Rules, s: Scene, id: nat, claim: Claim, order: seq<Address>, s': Scene)
    requires Orderly(rules, s) && Happens(rules, s, Claimed(id, claim, order), s') && InFull(s, Claimed(id, claim, order))
    ensures ClaimsBacked(s')
  {
    hide Inv, Fair, Sheds, Secures, K.Coverable;
    ClaimOrderly(rules, s, id, claim, order, s');
    forall j, t | j in s'.claims && s'.world.now <= t < s'.claims[j].lockEnd
      ensures s'.world.book.totalClaimed <= V.Remaining(s'.world, t)
    {
      assert s'.claims[j].lockEnd <= claim.lockEnd;
      SecuresLocks(s.world, claim, order, s'.world, t);
    }
  }

  lemma EndOrderly(rules: Rules, s: Scene, s': Scene, id: nat)
    requires Orderly(rules, s) && id in s.claims && s'.claims == s.claims - {id} && s'.world.now == s.world.now
    requires Inv(s'.world.ledger) && Fair(s'.world.book, s.world.now + rules.params.protection)
    requires s'.world.book.totalClaimed == s.world.book.totalClaimed - s.claims[id].loss
    ensures Orderly(rules, s')
  {
    TotalDelete(s.claims, LossOf, id);
    hide Inv, Fair;
  }

  /** How a claim ends: it is off the claims, its loss off the claimed total, and no more collateral has left than exposure. */
  ghost predicate Ends(rules: Rules, s: Scene, s': Scene, id: nat, less: nat) {
    && id in s.claims && s'.claims == s.claims - {id} && Orderly(rules, s')
    && s'.world.book.totalClaimed == s.world.book.totalClaimed - s.claims[id].loss
    && less <= s.claims[id].loss && (forall due :: Leaves(s.world, s'.world, less, due))
    && (forall t :: Lasting(s'.world.book, t) ==> Lasting(s.world.book, t))
    && Exposure(s'.world.book) <= Exposure(s.world.book) - less
  }

  lemma RejectedEnds(rules: Rules, s: Scene, id: nat, proposer: Address, s': Scene)
    requires Orderly(rules, s) && Happens(rules, s, Rejected(id, proposer), s')
    ensures Ends(rules, s, s', id, 0)
  {
    var claim := s.claims[id];
    RestoreFair(s.world.book, P.Key(claim.key.pool, proposer), claim.purchase, claim.loss, s.world.now + rules.params.protection);
    hide Inv, Fair, Lasting, C.Restore;
    EndOrderly(rules, s, s', id);
    hide Orderly;
  }

  lemma VetoedEnds(rules: Rules, s: Scene, id: nat, s': Scene)
    requires Orderly(rules, s) && Happens(rules, s, Vetoed(id), s')
    ensures Ends(rules, s, s', id, 0)
  {
    SameFair(s.world.book, s'.world.book, s.world.now + rules.params.protection, s.world.now + rules.params.protection);
    hide Inv, Fair;
    EndOrderly(rules, s, s', id);
    hide Orderly;
  }

  lemma ReimbursedEnds(rules: Rules, s: Scene, id: nat, order: seq<Address>, s': Scene)
    requires Orderly(rules, s) && Happens(rules, s, Reimbursed(id, order), s')
    ensures Ends(rules, s, s', id, s.claims[id].loss)
  {
    hide Inv, Fair, R.ReimbursedIn, Leaves, Lasting;
    var l, l', loss := s.world.ledger, s'.world.ledger, s.claims[id].loss;
    R.ReimbursedKeeps(l, l', order, s.world.book.totalShield, loss);
    SameFair(s.world.book, s'.world.book, s.world.now + rules.params.protection, s.world.now + rules.params.protection);
    SameSheds(s.world.book, s'.world.book);
    ReimbursedLeaves(s.world, s'.world, order, s.world.book.totalShield, loss);
    EndOrderly(rules, s, s', id);
    hide Orderly;
  }

  lemma MetIn(l: Ledger, l': Ledger, order: seq<Address>, totalShield: nat, loss: nat)
    requires R.ReimbursedIn(l, l', order, totalShield, loss)
    ensures var ds := R.LossDemands(l, order, totalShield, loss); R.Met(l, R.Unsettled(l', loss), order, ds, |ds|)
  {
    hide R.Met, R.LossDemands, R.AllMeet;
  }

  lemma ReimbursedLeaves(w: V.World, w': V.World, order: seq<Address>, totalShield: nat, loss: nat)
    requires R.ReimbursedIn(w.ledger, w'.ledger, order, totalShield, loss) && w'.now == w.now
    requires w'.ledger.totalCollateral == w.ledger.totalCollateral - loss
    ensures forall due :: Leaves(w, w', loss, due)
  {
    hide R.Met, R.LossDemands, R.AllMeet, Measure;
    var ds := R.LossDemands(w.ledger, order, totalShield, loss);
    var m := R.Unsettled(w'.ledger, loss);
    MetIn(w.ledger, w'.ledger, order, totalShield, loss);
    forall t
      ensures V.Remaining(w, t) - loss <= V.Remaining(w', t)
    {
      R.MetDue(w.ledger, m, order, ds, |ds|, t);
    }
  }

  lemma EndsBacked(rules: Rules, s: Scene, s': Scene, id: nat, less: nat)
    requires Orderly(rules, s) && Ends(rules, s, s', id, less) && SoldBacked(s.world)
    ensures SoldBacked(s'.world)
    ensures ClaimsBacked(s) ==> ClaimsBacked(s')
  {
    hide Inv, Fair, Lasting, SoldBacked, ClaimsBacked, Leaves;
    var end := s.world.now + rules.params.protection;
    ShedsBacked(s.world, s'.world, less, end, end);
    if ClaimsBacked(s) {
      FewerBacked(s, s', less, s.world.now + rules.lock);
    }
  }

  /** A claim the keeper secures is one that happens in a run. */
  method SecureClaim(keeper: K.Keeper, order: seq<Address>, claim: Claim, ghost w: V.World) returns (r: K.Result)
    requires keeper.View() == w.book && keeper.collateral.View() == w.ledger && P.Inv(w.book) && 0 <= w.book.totalClaimed
    requires Inv(w.ledger) && Enumerates(order, w.ledger.providers) && R.Solvent(w.ledger, order)
    modifies keeper, keeper.collateral
    ensures r.Done? ==> Secures(w, claim, order, w.(book := keeper.View(), ledger := keeper.collateral.View()))
  {
    hide Inv, P.Inv, C.Secure, S.Postponed, S.StakesLast, K.LockShares, K.Coverable, K.Locked, R.Solvent, Enumerates, E.AllMirrored;
    ghost var total: nat := w.book.totalClaimed + claim.loss;
    ghost var shares := if 0 < w.ledger.totalCollateral then K.LockShares(w.ledger, order, total) else [];
    ListsKept(w.book, claim.key);
    TotalsNonNegative(w.ledger);
    r := keeper.SecureCollaterals(order, claim.key, claim.purchase, claim.loss, claim.lockEnd, total, shares);
    if r.Done? {
      SecureNeedsCollateral(w.book, w.ledger.totalCollateral, claim.key, claim.purchase, claim.loss, claim.lockEnd);
    }
  }

  lemma ListsKept(b: P.Book, k: P.Key)
    requires P.Inv(b)
    ensures k in b.lists ==> b.lists[k] != []
  {
  }

  lemma SecureNeedsCollateral(b: P.Book, totalCollateral: int, k: P.Key, id: nat, loss: nat, lockEnd: int)
    requires k in b.lists ==> b.lists[k] != []
    ensures var secured := C.Secure(b, totalCollateral, k, id, loss, lockEnd);
            secured.Ok? ==> totalCollateral != 0 && secured.book.totalClaimed == b.totalClaimed + loss
  {
  }

  // ----- Steps and runs -----

  lemma TradedKeeps(rules: Rules, s: Scene, action: V.Action, s': Scene)
    requires Orderly(rules, s) && Happens(rules, s, Traded(action), s')
    ensures Orderly(rules, s') && Steady(rules.params, s.world, s'.world)
  {
    hide Inv, Fair, Trades, Sheds;
    TradesSteady(rules.params, s.world, action, s'.world);
  }

  lemma StepBacked(rules: Rules, s: Scene, event: Event, s': Scene)
    requires Orderly(rules, s) && SoldBacked(s.world) && Happens(rules, s, event, s') && rules.params.withdrawal >= rules.params.protection
    ensures Orderly(rules, s') && SoldBacked(s'.world)
    ensures ClaimsBacked(s) && InFull(s, event) && rules.params.withdrawal >= rules.lock ==> ClaimsBacked(s')
  {
    hide Inv, Fair, Lasting, SoldBacked, ClaimsBacked, Leaves, Secures, Trades, Sheds, InFull, R.ReimbursedIn, C.Restore;
    match event
    case Traded(action) =>
      TradedKeeps(rules, s, action, s');
      SteadyBacked(rules.params, s.world, s'.world);
      if ClaimsBacked(s) && rules.params.withdrawal >= rules.lock {
        FewerBacked(s, s', 0, s.world.now + rules.params.withdrawal);
      }
    case Claimed(id, claim, order) =>
      var end := s.world.now + rules.params.protection;
      ClaimOrderly(rules, s, id, claim, order, s');
      ClaimLeaves(rules, s, id, claim, order, s', end);
      ClaimSheds(s.world, s'.world, end);
      if InFull(s, event) {
        ClaimBacked(rules, s, id, claim, order, s');
      }
    case Rejected(id, proposer) =>
      RejectedEnds(rules, s, id, proposer, s');
      EndsBacked(rules, s, s', id, 0);
    case Vetoed(id) =>
      VetoedEnds(rules, s, id, s');
      EndsBacked(rules, s, s', id, 0);
    case Reimbursed(id, order) =>
      ReimbursedEnds(rules, s, id, order, s');
      EndsBacked(rules, s, s', id, s.claims[id].loss);
  }

  lemma ClaimSheds(w: V.World, w': V.World, end: int)
    requires SoldBacked(w) && Fair(w.book, end) && Leaves(w, w', 0, end) && Sheds(w.book, w'.book)
    ensures SoldBacked(w')
  {
    hide Fair, Lasting;
    ShedsBacked(w, w', 0, end, end);
  }

  /** A run from one scene to another, in which every claim is secured in full if so asked. */
  ghost predicate Leads(rules: Rules, s: Scene, events: seq<Event>, full: bool, s': Scene)
    decreases |events|
  {
    if events == [] then s' == s
    else exists m :: Happens(rules, s, events[0], m) && (full ==> InFull(s, events[0])) && Leads(rules, m, events[1..], full, s')
  }

  lemma {:induction false} RunBacked(rules: Rules, s: Scene, events: seq<Event>, full: bool, s': Scene)
    requires Orderly(rules, s) && SoldBacked(s.world) && rules.params.withdrawal >= rules.params.protection
    requires Leads(rules, s, events, full, s')
    ensures Orderly(rules, s') && SoldBacked(s'.world)
    ensures full && ClaimsBacked(s) && rules.params.withdrawal >= rules.lock ==> ClaimsBacked(s')
    decreases |events|
  {
    if events != [] {
      hide Orderly, SoldBacked, ClaimsBacked, Happens, InFull;
      var m :| Happens(rules, s, events[0], m) && (full ==> InFull(s, events[0])) && Leads(rules, m, events[1..], full, s');
      StepBacked(rules, s, events[0], m);
      RunBacked(rules, m, events[1..], full, s');
    }
  }

  lemma GenesisOrderly(rules: Rules)
    ensures Orderly(rules, Genesis()) && SoldBacked(Genesis().world) && ClaimsBacked(Genesis())
  {
    assert V.Genesis().book.lists == map[];
  }

  /**
    In every run, as long as anything is protected past a time, the shield that is and all that is
    claimed are within the collateral left by then. Withdrawals must take as long as protection
    lasts, and that is all.
  */
  lemma RunCovered(rules: Rules, events: seq<Event>, s: Scene, t: int)
    requires rules.params.withdrawal >= rules.params.protection && Leads(rules, Genesis(), events, false, s)
    requires t >= s.world.now && Lasting(s.world.book, t)
    ensures V.Protecting(s.world, t) + s.world.book.totalClaimed <= V.Remaining(s.world, t)
  {
    GenesisOrderly(rules);
    RunBacked(rules, Genesis(), events, false, s);
    FairTotals(s.world.book, s.world.now + rules.params.protection, t);
    hide Fair, Inv, Lasting;
  }

  /**
    If withdrawals also take as long as the lock on a claim, and every claim is secured in full,
    the same holds until the lock of any undecided claim ends.
  */
  lemma RunLocked(rules: Rules, events: seq<Event>, s: Scene, id: nat, t: int)
    requires rules.params.withdrawal >= rules.params.protection && rules.params.withdrawal >= rules.lock
    requires Leads(rules, Genesis(), events, true, s) && id in s.claims && s.world.now <= t < s.claims[id].lockEnd
    ensures V.Protecting(s.world, t) + s.world.book.totalClaimed <= V.Remaining(s.world, t)
  {
    GenesisOrderly(rules);
    RunBacked(rules, Genesis(), events, true, s);
    FairTotals(s.world.book, s.world.now + rules.params.protection, t);
    hide Fair, Inv, Lasting;
  }

  // ----- Withdrawals that are faster than the lock -----

  /** Until the lock of any undecided claim ends, all that is claimed is within the collateral. */
  ghost predicate Honoured(s: Scene) {
    forall id :: id in s.claims && s.world.now < s.claims[id].lockEnd ==> s.world.book.totalClaimed <= s.world.ledger.totalCollateral
  }

  lemma RunHonoured(rules: Rules, events: seq<Event>, s: Scene)
    requires rules.params.withdrawal >= rules.params.protection && rules.params.withdrawal >= rules.lock
    requires Leads(rules, Genesis(), events, true, s)
    ensures Honoured(s)
  {
    GenesisOrderly(rules);
    RunBacked(rules, Genesis(), events, true, s);
    hide Fair, Inv, Lasting, SoldBacked, Leads;
    forall id | id in s.claims && s.world.now < s.claims[id].lockEnd
      ensures s.world.book.totalClaimed <= s.world.ledger.totalCollateral
    {
      assert s.world.book.totalClaimed <= V.Remaining(s.world, s.world.now);
    }
  }

  lemma LeadsNext(rules: Rules, s: Scene, event: Event, m: Scene, rest: seq<Event>, s': Scene)
    requires Happens(rules, s, event, m) && InFull(s, event) && Leads(rules, m, rest, true, s')
    ensures Leads(rules, s, [event] + rest, true, s')
  {
    hide Happens, InFull;
    var events := [event] + rest;
    assert events[0] == event && events[1..] == rest;
  }

  lemma TradedNext(rules: Rules, w: V.World, action: V.Action, w': V.World, claims: map<nat, Claim>, rest: seq<Event>, s': Scene)
    requires Trades(rules.params, w, action, w') && Leads(rules, Scene(w', claims), rest, true, s')
    ensures Leads(rules, Scene(w, claims), [Traded(action)] + rest, true, s')
  {
    hide Trades, Leads;
    LeadsNext(rules, Scene(w, claims), Traded(action), Scene(w', claims), rest, s');
  }

  /** One provider holds all collateral, and none of it is leaving. */
  ghost function Holder(): Ledger {
    V.Staked(Provider(ONE, ONE, 0), ONE, 0, [])
  }

  lemma HolderKept()
    ensures Inv(Holder()) && Enumerates([0], Holder().providers)
  {
    var one: seq<nat> := [ONE];
    assert one[1..] == [] && Sum(one) == ONE;
    var providers: map<Address, Provider> := map[];
    TotalUpdate(providers, CollateralOf, 0, Provider(ONE, ONE, 0));
    TotalUpdate(providers, WithdrawingOf, 0, Provider(ONE, ONE, 0));
    assert providers[0 := Provider(ONE, ONE, 0)] == Holder().providers;
  }

  /** One unit of loss can be asked of the one provider, and its stake lasts. */
  lemma HolderLasts(end: int)
    ensures R.Solvent(Holder(), [0]) && K.Coverable(Holder(), [0], 1)
    ensures S.StakesLast(Holder(), [0], K.LockShares(Holder(), [0], 1), 1, end)
  {
    var l := Holder();
    HolderKept();
    R.AmountsTotal(l, [0]);
    K.BelowTheLimitCoverable(l, [0], 1);
    var holdings := R.Amounts(l, [0]);
    assert holdings[0] == ONE;
    SharesExactIff(holdings, 1);
    hide K.Coverable, Ratio, Shares, Inv;
    var shares := K.LockShares(l, [0], 1);
    assert shares[0] <= holdings[0];
    assert S.StakeLasts(l, 0, shares[0], end);
  }

  ghost function Sold(end: int): V.World {
    V.World(0, Holder(), V.OneUnit(end), 2)
  }

  /** The unit of shield is claimed, all of it. */
  ghost function AllClaimed(end: int, lockEnd: int): P.Book {
    P.Book(map[1 := P.Pool(true, 1, 0)], map[P.Key(1, 1) := [P.Purchase(1, end, Max(end, lockEnd), 0)]], 0, 1, 2)
  }

  lemma UnitSecured(end: int, lockEnd: int)
    ensures C.Secure(V.OneUnit(end), ONE, P.Key(1, 1), 1, 1, lockEnd) == P.Ok(AllClaimed(end, lockEnd))
  {
    var b, k := V.OneUnit(end), P.Key(1, 1);
    var b' := C.TakeLoss(b, k, 0, 1, lockEnd);
    assert b'.pools == AllClaimed(end, lockEnd).pools;
    assert b'.lists[k] == [P.Purchase(1, end, Max(end, lockEnd), 0)];
    assert b'.lists == AllClaimed(end, lockEnd).lists;
  }

  lemma UnitClaimed(rules: Rules, end: int)
    ensures var claim := Claim(P.Key(1, 1), 1, 1, rules.lock);
            var s := Scene(Sold(end), map[]);
            && Happens(rules, s, Claimed(1, claim, [0]), Scene(Sold(end).(book := AllClaimed(end, rules.lock)), map[1 := claim]))
            && InFull(s, Claimed(1, claim, [0]))
  {
    hide Secures, K.Coverable;
    var claim := Claim(P.Key(1, 1), 1, 1, rules.lock);
    UnitSecures(end, claim);
    HolderLasts(rules.lock);
    var none: map<nat, Claim> := map[];
    assert none[1 := claim] == map[1 := claim];
  }

  lemma UnitSecures(end: int, claim: Claim)
    requires claim.key == P.Key(1, 1) && claim.purchase == 1 && claim.loss == 1
    ensures Secures(Sold(end), claim, [0], Sold(end).(book := AllClaimed(end, claim.lockEnd)))
  {
    UnitSecured(end, claim.lockEnd);
    HolderKept();
    HolderLasts(claim.lockEnd);
    S.PostponedSelf(Holder());
    assert K.Locked(Holder(), 1, claim.lockEnd);
    hide C.Secure, Inv, S.StakesLast, K.LockShares, K.Coverable, K.Locked, R.Solvent, Enumerates, S.Postponed;
  }

  /** The provider leaves right after the claim; when its withdrawal completes nothing backs the claim. */
  function Abandon(rules: Rules): seq<Event> {
    [Traded(V.Delegate(0, [ONE]))] + ([Traded(V.Provide(0, ONE))] + ([Traded(V.CreatePool(1, 1, 1, true))]
    + ([Claimed(1, Claim(P.Key(1, 1), 1, 1, rules.lock), [0])] + ([Traded(V.Leave(0, ONE))]
    + ([Traded(V.Advance(rules.params.withdrawal))] + [Traded(V.EndBlock([], true))])))))
  }

  lemma AbandonLeaves(rules: Rules, b: P.Book, claims: map<nat, Claim>) returns (s': Scene)
    requires P.PoolsPresent(b) && b.pools.Keys == {1} && !C.Closable(b.pools[1])
    ensures Leads(rules, Scene(V.World(0, Holder(), b, 2), claims),
                  [Traded(V.Leave(0, ONE))] + ([Traded(V.Advance(rules.params.withdrawal))] + [Traded(V.EndBlock([], true))]), true, s')
    ensures s' == Scene(V.World(rules.params.withdrawal, V.Staked(Provider(ONE, 0, 0), 0, 0, []), b, 2), claims)
  {
    var due: int := rules.params.withdrawal;
    V.OutrunLeaves(Holder(), due);
    var leaving := V.Staked(Provider(ONE, ONE, ONE), ONE, ONE, [Entry(0, ONE, due)]);
    var w0, w1, w2 := V.World(0, Holder(), b, 2), V.World(0, leaving, b, 2), V.World(due, leaving, b, 2);
    s' := Scene(V.World(due, V.Staked(Provider(ONE, 0, 0), 0, 0, []), b, 2), claims);
    hide Withdraw, Dequeue, C.Closable;
    assert Trades(rules.params, w0, V.Leave(0, ONE), w1);
    assert Trades(rules.params, w1, V.Advance(rules.params.withdrawal), w2);
    assert C.ClosePools(b) == b by {
      assert C.ClosePools(b).pools == b.pools;
    }
    assert Trades(rules.params, w2, V.EndBlock([], true), s'.world);
    assert Leads(rules, s', [], true, s');
    hide Trades, Leads;
    var last := [Traded(V.EndBlock([], true))];
    TradedNext(rules, w2, V.EndBlock([], true), s'.world, claims, [], s');
    assert last + [] == last;
    TradedNext(rules, w1, V.Advance(rules.params.withdrawal), w2, claims, last, s');
    TradedNext(rules, w0, V.Leave(0, ONE), w1, claims, [Traded(V.Advance(rules.params.withdrawal))] + last, s');
  }

  /** Delegating, providing and creating a pool, each goes through. */
  lemma AbandonSells(params: V.Params)
    requires params.rate > 0
    ensures var l := Ledger(map[], 0, 0, [], map[0 := [ONE]], map[]);
            && Trades(params, V.Genesis(), V.Delegate(0, [ONE]), V.Genesis().(ledger := l))
            && Trades(params, V.Genesis().(ledger := l), V.Provide(0, ONE), V.Genesis().(ledger := Holder()))
            && Trades(params, V.Genesis().(ledger := Holder()), V.CreatePool(1, 1, 1, true), Sold(params.protection))
  {
    V.GenesisSafe(params);
    V.OutrunProvides(params);
    V.OutrunBuys(params, Holder());
    hide V.Safe, V.Delegated, V.Provided, V.Created;
  }

  lemma Abandoned(rules: Rules) returns (s': Scene)
    requires rules.params.rate > 0 && rules.params.withdrawal < rules.lock
    ensures Leads(rules, Genesis(), Abandon(rules), true, s') && !Honoured(s')
  {
    var params, end: int := rules.params, rules.params.protection;
    var claim := Claim(P.Key(1, 1), 1, 1, rules.lock);
    var r2 := [Traded(V.Leave(0, ONE))] + ([Traded(V.Advance(params.withdrawal))] + [Traded(V.EndBlock([], true))]);
    s' := AbandonLeaves(rules, AllClaimed(end, rules.lock), map[1 := claim]);
    hide Happens, InFull, Trades, Leads;
    UnitClaimed(rules, end);
    AbandonSells(params);
    var l := Ledger(map[], 0, 0, [], map[0 := [ONE]], map[]);
    var w0, w1, w2 := V.Genesis(), V.Genesis().(ledger := l), V.Genesis().(ledger := Holder());
    var s4 := Scene(Sold(end).(book := AllClaimed(end, rules.lock)), map[1 := claim]);
    LeadsNext(rules, Scene(Sold(end), map[]), Claimed(1, claim, [0]), s4, r2, s');
    var r1 := [Claimed(1, claim, [0])] + r2;
    TradedNext(rules, w2, V.CreatePool(1, 1, 1, true), Sold(end), map[], r1, s');
    TradedNext(rules, w1, V.Provide(0, ONE), w2, map[], [Traded(V.CreatePool(1, 1, 1, true))] + r1, s');
    TradedNext(rules, w0, V.Delegate(0, [ONE]), w1, map[], [Traded(V.Provide(0, ONE))] + ([Traded(V.CreatePool(1, 1, 1, true))] + r1), s');
  }

  /** In every run what is claimed stays within the collateral until the locks end, exactly when withdrawals take at least as long as locks. */
  lemma LockIff(rules: Rules)
    requires rules.params.rate > 0 && rules.params.withdrawal >= rules.params.protection
    ensures (forall events, s :: Leads(rules, Genesis(), events, true, s) ==> Honoured(s)) <==> rules.params.withdrawal >= rules.lock
  {
    hide Leads, Honoured;
    if rules.params.withdrawal >= rules.lock {
      forall events, s | Leads(rules, Genesis(), events, true, s)
        ensures Honoured(s)
      {
        RunHonoured(rules, events, s);
      }
    } else {
      var s := Abandoned(rules);
    }
  }
}
