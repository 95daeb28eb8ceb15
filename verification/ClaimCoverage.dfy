/**
  Coverage in runs with claims: whatever is bought, claimed, decided and paid, the shield that
  still protects after a time and all that is claimed stay within the collateral left by then.
*/
module ClaimCoverage {
  import opened Dec
  import opened Split
  import opened Totals
  import opened WithdrawQueue
  import opened Collateral
  import P = Purchases
  import C = Claims
  import M = Market
  import V = Coverage
  import R = Reimbursed
  import S = Securing
  import K = ShieldKeeper

  /** A claim that is not decided yet: the loss, and when the lock on the collateral for it ends. */
  datatype Claim = Claim(key: P.Key, purchase: nat, loss: nat, lockEnd: int)

  datatype Scene = Scene(world: V.World, claims: map<nat, Claim>)

  /** The parameters of the pools, and how long collateral is locked for a claim. */
  datatype Rules = Rules(params: V.Params, lock: nat)

  datatype Event =
    | Traded(action: V.Action)
    | Claimed(id: nat, claim: Claim, order: seq<Address>)
    | Rejected(id: nat, proposer: Address)
    | Vetoed(id: nat)
    | Reimbursed(id: nat, order: seq<Address>)

  function Genesis(): Scene {
    Scene(V.Genesis(), map[])
  }

  // ----- What can happen -----

  /** Everything but claims goes as it does without them; a block cannot end with a list whose pool is gone. */
  ghost predicate Trades(params: V.Params, w: V.World, action: V.Action, w': V.World) {
    match action
    case Provide(a, amount) => w' == V.Provided(w, a, amount)
    case Leave(a, amount) => w' == V.Left(params, w, a, amount)
    case Delegate(a, tokens) => w' == V.Delegated(params, w, a, tokens)
    case CreatePool(purchaser, limit, amount, paid) => w.book.totalShield >= 0 && w' == V.Created(params, w, purchaser, limit, amount, paid)
    case Configure(pool, active, limit) => w' == V.Configured(w, pool, active, limit)
    case Buy(key, amount, paid) => w.book.totalShield >= 0 && w' == V.Bought(params, w, key, amount, paid)
    case EndBlock(visits, updated) =>
      && P.PoolsPresent(w.book) && (forall e :: e in w.ledger.queue ==> e.owner in w.ledger.providers)
      && w' == V.Ended(w, visits, updated)
    case Advance(time) => w' == V.Advanced(w, time)
  }

  /** A claim is secured: the loss moves, withdrawals are held back, and the lock covers all that is claimed, if the providers can be asked for that. */
  ghost predicate Secures(w: V.World, claim: Claim, order: seq<Address>, w': V.World) {
    var total := w.book.totalClaimed + claim.loss;
    && (claim.key in w.book.lists ==> w.book.lists[claim.key] != [])
    && C.Secure(w.book, w.ledger.totalCollateral, claim.key, claim.purchase, claim.loss, claim.lockEnd) == P.Ok(w'.book)
    && w' == w.(book := w'.book, ledger := w'.ledger)
    && S.Postponed(w.ledger, w'.ledger) && Inv(w'.ledger)
    && Enumerates(order, w.ledger.providers) && R.Solvent(w.ledger, order) && 0 < w.ledger.totalCollateral && 0 <= total
    && S.StakesLast(w.ledger, order, K.LockShares(w.ledger, order, total), |order|, claim.lockEnd)
    && (K.Coverable(w.ledger, order, total) ==> K.Locked(w'.ledger, total, claim.lockEnd))
  }

  ghost predicate Happens(rules: Rules, s: Scene, event: Event, s': Scene) {
    match event
    case Traded(action) => Trades(rules.params, s.world, action, s'.world) && s'.claims == s.claims
    case Claimed(id, claim, order) =>
      && id !in s.claims && claim.lockEnd == s.world.now + rules.lock
      && Secures(s.world, claim, order, s'.world) && s'.claims == s.claims[id := claim]
    case Rejected(id, proposer) =>
      && id in s.claims
      && var claim := s.claims[id];
         s' == Scene(s.world.(book := C.ClaimEnd(C.Restore(s.world.book, P.Key(claim.key.pool, proposer), claim.purchase, claim.loss).0, claim.loss)),
                     s.claims - {id})
    case Vetoed(id) =>
      id in s.claims && s' == Scene(s.world.(book := C.ClaimEnd(s.world.book, s.claims[id].loss)), s.claims - {id})
    case Reimbursed(id, order) =>
      && id in s.claims && s.world.book.totalShield >= 0
      && R.ReimbursedIn(s.world.ledger, s'.world.ledger, order, s.world.book.totalShield, s.claims[id].loss)
      && s' == Scene(s.world.(book := C.Reimburse(s.world.book, s.claims[id].loss), ledger := s'.world.ledger), s.claims - {id})
  }

  /** The lock of a claim covers all that is claimed then. */
  ghost predicate InFull(s: Scene, event: Event) {
    event.Claimed? ==> 0 <= s.world.book.totalClaimed + event.claim.loss
                       && K.Coverable(s.world.ledger, event.order, s.world.book.totalClaimed + event.claim.loss)
  }

  // ----- The book -----

  /** No list is empty, no shield negative, nothing protects for longer than `end`, and no more is in the lists than in the total. */
  ghost predicate Fair(b: P.Book, end: int) {
    && (forall k :: k in b.lists ==> b.lists[k] != [])
    && (forall k, p :: k in b.lists && p in b.lists[k] ==> 0 <= p.shield && p.protectionEnd <= end)
    && Total(b.lists, P.AnyPool()) <= b.totalShield
  }

  /** Something is protected past `t`. */
  ghost predicate Lasting(b: P.Book, t: int) {
    exists k, p :: k in b.lists && p in b.lists[k] && p.protectionEnd > t
  }

  /** What may have to be paid: the shield sold, and the claims not decided. */
  function Exposure(b: P.Book): int {
    b.totalShield + b.totalClaimed
  }

  lemma FairTotals(b: P.Book, end: int, t: int)
    requires Fair(b, end)
    ensures 0 <= b.totalShield && Total(b.lists, P.EndingAfter(t)) <= b.totalShield
    ensures !Lasting(b, t) ==> Total(b.lists, P.EndingAfter(t)) == 0
  {
    forall k | k in b.lists
      ensures 0 <= P.AnyPool()(k, b.lists[k]) && P.EndingAfter(t)(k, b.lists[k]) <= P.AnyPool()(k, b.lists[k])
    {
      P.SumsMonotone(b.lists[k], (p: P.Purchase) => 0, P.Shield());
      P.SumsZero(b.lists[k], (p: P.Purchase) => 0);
      P.SumsMonotone(b.lists[k], P.ShieldAfter(t), P.Shield());
    }
    TotalNonNegative(b.lists, P.AnyPool());
    TotalMonotone(b.lists, P.EndingAfter(t), P.AnyPool());
    if !Lasting(b, t) {
      forall k | k in b.lists
        ensures P.EndingAfter(t)(k, b.lists[k]) == 0
      {
        P.SumsZero(b.lists[k], P.ShieldAfter(t));
      }
      TotalZero(b.lists, P.EndingAfter(t));
    }
  }

  /** A book whose purchases are among those of another protects no longer, and is as fair if its total keeps up. */
  ghost predicate Sheds(b: P.Book, b': P.Book) {
    && (forall t :: Lasting(b', t) ==> Lasting(b, t))
    && Exposure(b') <= Exposure(b)
  }

  lemma AddFair(b: P.Book, k: P.Key, amount: nat, end: int)
    requires Fair(b, end) && k.pool in b.pools
    ensures Fair(P.Add(b, k, amount, end), end)
  {
    var b', p := P.Add(b, k, amount, end), P.Purchase(b.nextId, end, end, amount);
    P.SumsSnoc(P.ListOf(b.lists, k), p, P.Shield());
    P.StoreAnyPool(b, k, P.ListOf(b.lists, k) + [p]);
    forall j, q | j in b'.lists && q in b'.lists[j]
      ensures 0 <= q.shield && q.protectionEnd <= end
    {
      if j !in b.lists || q !in b.lists[j] {
        assert q == p;
      }
    }
  }

  lemma {:induction false} DroppedNonNegative(list: seq<P.Purchase>, now: int, updated: bool)
    requires forall p :: p in list ==> 0 <= p.shield
    ensures 0 <= P.Dropped(list, now, updated)
  {
    if list != [] {
      DroppedNonNegative(list[1..], now, updated);
    }
  }

  lemma VisitFair(b: P.Book, k: P.Key, now: int, updated: bool, end: int)
    requires Fair(b, end) && P.PoolsPresent(b)
    ensures var b' := P.Visit(b, k, now, updated);
            Fair(b', end) && b'.totalShield <= b.totalShield
  {
    if k in b.lists {
      var list := b.lists[k];
      P.KeepMembers(list, now, updated);
      P.KeepSums(list, now, updated);
      DroppedNonNegative(list, now, updated);
      P.StoreAnyPool(b, k, P.Keep(list, now, updated));
    }
  }

  lemma {:induction false} VisitAllFair(b: P.Book, visits: seq<P.Key>, now: int, updated: bool, end: int)
    requires Fair(b, end) && P.PoolsPresent(b)
    ensures var b' := P.VisitAll(b, visits, now, updated);
            Fair(b', end) && b'.totalShield <= b.totalShield
    decreases |visits|
  {
    if visits != [] {
      VisitFair(b, visits[0], now, updated, end);
      hide Fair, P.Visit;
      VisitAllFair(P.Visit(b, visits[0], now, updated), visits[1..], now, updated, end);
    }
  }

  /** One purchase gets another shield, and the total changes at least by as much. */
  lemma RewriteFair(b: P.Book, b': P.Book, k: P.Key, i: nat, p: P.Purchase, end: int)
    requires Fair(b, end) && k in b.lists && i < |b.lists[k]| && b'.lists == b.lists[k := b.lists[k][i := p]]
    requires 0 <= p.shield && p.protectionEnd == b.lists[k][i].protectionEnd
    requires b'.totalShield - b.totalShield >= p.shield - b.lists[k][i].shield
    ensures Fair(b', end) && forall t :: Lasting(b', t) ==> Lasting(b, t)
  {
    var list := b.lists[k];
    P.SumsSet(list, i, p, P.Shield());
    P.StoreAnyPool(b, k, list[i := p]);
    assert Total(b'.lists, P.AnyPool()) <= b'.totalShield;
    hide Total, P.Sums;
    assert list[i] in list;
    forall j, q | j in b'.lists && q in b'.lists[j]
      ensures 0 <= q.shield && q.protectionEnd <= end
    {
      Rewritten(b, b', k, i, p, j, q);
    }
    forall t | Lasting(b', t)
      ensures Lasting(b, t)
    {
      var j, q :| j in b'.lists && q in b'.lists[j] && q.protectionEnd > t;
      Rewritten(b, b', k, i, p, j, q);
    }
  }

  /** A purchase there is after one was rewritten: that one, or one there was. */
  lemma Rewritten(b: P.Book, b': P.Book, k: P.Key, i: nat, p: P.Purchase, j: P.Key, q: P.Purchase)
    requires k in b.lists && i < |b.lists[k]| && b'.lists == b.lists[k := b.lists[k][i := p]] && j in b'.lists && q in b'.lists[j]
    ensures j in b.lists && ((j == k && q == p) || q in b.lists[j])
  {
  }

  lemma SecureFair(b: P.Book, totalCollateral: int, k: P.Key, id: nat, loss: nat, lockEnd: int, end: int)
    requires Fair(b, end) && C.Secure(b, totalCollateral, k, id, loss, lockEnd).Ok?
    ensures var b' := C.Secure(b, totalCollateral, k, id, loss, lockEnd).book;
            && Fair(b', end) && Sheds(b, b') && Exposure(b') == Exposure(b)
            && b'.totalClaimed == b.totalClaimed + loss
  {
    var b', i := C.Secure(b, totalCollateral, k, id, loss, lockEnd).book, C.Position(b.lists[k], id);
    RewriteFair(b, b', k, i, C.Claimed(b.lists[k][i], loss, lockEnd), end);
  }

  lemma RestoreFair(b: P.Book, k: P.Key, id: nat, loss: nat, end: int)
    requires Fair(b, end)
    ensures var b' := C.ClaimEnd(C.Restore(b, k, id, loss).0, loss);
            && Fair(b', end) && Sheds(b, b') && Exposure(b') == Exposure(b)
            && b'.totalClaimed == b.totalClaimed - loss
  {
    var b' := C.ClaimEnd(C.Restore(b, k, id, loss).0, loss);
    if C.Restorable(b, k, id) {
      var i := C.Find(b.lists[k], id);
      assert b.lists[k][i] in b.lists[k];
      RewriteFair(b, b', k, i, b.lists[k][i].(shield := b.lists[k][i].shield + loss), end);
    } else {
      assert b'.lists == b.lists;
    }
  }

  // ----- The invariant -----

  ghost function LossOf(id: nat, claim: Claim): int {
    claim.loss
  }

  /** The books are in order, and no lock reaches further than one made now would. */
  ghost predicate Orderly(rules: Rules, s: Scene) {
    && Inv(s.world.ledger)
    && Fair(s.world.book, s.world.now + rules.params.protection)
    && s.world.book.totalClaimed == Total(s.claims, LossOf)
    && (forall id :: id in s.claims ==> s.claims[id].lockEnd <= s.world.now + rules.lock)
  }

  /** As long as anything is protected past a time, all that is sold and all that is claimed is within what is left by then. */
  ghost predicate SoldBacked(w: V.World) {
    forall t :: t >= w.now && Lasting(w.book, t) ==> Exposure(w.book) <= V.Remaining(w, t)
  }

  /** Until the lock of any claim ends, all that is claimed is within what is left. */
  ghost predicate ClaimsBacked(s: Scene) {
    forall id, t :: id in s.claims && s.world.now <= t < s.claims[id].lockEnd ==> s.world.book.totalClaimed <= V.Remaining(s.world, t)
  }

  /** From its own time on and until `due`, a world has left what another has, but for `less`. */
  ghost predicate Leaves(w: V.World, w': V.World, less: int, due: int) {
    w'.now >= w.now && forall t :: w'.now <= t < due ==> V.Remaining(w, t) - less <= V.Remaining(w', t)
  }

  lemma LastingEnds(b: P.Book, end: int, t: int)
    requires Fair(b, end) && Lasting(b, t)
    ensures t < end
  {
  }

  /** Shedding as much as leaves keeps what is sold backed. */
  lemma ShedsBacked(w: V.World, w': V.World, less: int, end: int, due: int)
    requires SoldBacked(w) && Fair(w.book, end) && end <= due && Leaves(w, w', less, due)
    requires (forall t :: Lasting(w'.book, t) ==> Lasting(w.book, t)) && Exposure(w'.book) <= Exposure(w.book) - less
    ensures SoldBacked(w')
  {
    hide Fair, Lasting;
    forall t | t >= w'.now && Lasting(w'.book, t)
      ensures Exposure(w'.book) <= V.Remaining(w', t)
    {
      LastingEnds(w.book, end, t);
      assert Exposure(w.book) <= V.Remaining(w, t);
    }
  }

  lemma FewerBacked(s: Scene, s': Scene, less: int, due: int)
    requires ClaimsBacked(s) && Leaves(s.world, s'.world, less, due)
    requires forall id :: id in s'.claims ==> id in s.claims && s'.claims[id] == s.claims[id] && s.claims[id].lockEnd <= due
    requires s'.world.book.totalClaimed <= s.world.book.totalClaimed - less
    ensures ClaimsBacked(s')
  {
    forall id, t | id in s'.claims && s'.world.now <= t < s'.claims[id].lockEnd
      ensures s'.world.book.totalClaimed <= V.Remaining(s'.world, t)
    {
      assert s.world.book.totalClaimed <= V.Remaining(s.world, t);
    }
  }

  // ----- Trading -----

  lemma SoldWithin(params: V.Params, w: V.World, key: P.Key, amount: nat, paid: bool)
    requires Fair(w.book, w.now + params.protection) && w.book.totalShield >= 0
    ensures var w' := V.Bought(params, w, key, amount, paid);
            && w' == w.(book := w'.book) && Fair(w'.book, w.now + params.protection) && w'.book.totalClaimed == w.book.totalClaimed
            && (w' == w || Exposure(w'.book) <= V.Backing(w))
  {
    var end := w.now + params.protection;
    P.SoldIff(w.book, V.Backing(w), key, amount, paid, end, params.rate);
    hide P.Buy, Fair;
    if P.Buy(w.book, V.Backing(w), key, amount, paid, end, params.rate).Ok? {
      AddFair(w.book, key, amount, end);
    }
  }

  lemma SameLeaves(w: V.World, w': V.World, due: int)
    requires w'.now >= w.now && w'.ledger.queue == w.ledger.queue && w'.ledger.totalCollateral >= w.ledger.totalCollateral
    ensures Leaves(w, w', 0, due)
  {
  }

  lemma SameSheds(b: P.Book, b': P.Book)
    requires b'.lists == b.lists && Exposure(b') <= Exposure(b)
    ensures Sheds(b, b')
  {
  }

  lemma SameFair(b: P.Book, b': P.Book, end: int, end': int)
    requires Fair(b, end) && end <= end' && b'.lists == b.lists && b'.totalShield == b.totalShield
    ensures Fair(b', end')
  {
  }

  /** What trading keeps: exposure only grows by a sale, which is within the backing, and collateral only leaves by a due time. */
  ghost predicate Steady(params: V.Params, w: V.World, w': V.World) {
    && Inv(w'.ledger) && Fair(w'.book, w'.now + params.protection)
    && w'.book.totalClaimed == w.book.totalClaimed
    && Leaves(w, w', 0, w.now + params.withdrawal)
    && (Sheds(w.book, w'.book) || (w'.ledger == w.ledger && Exposure(w'.book) <= V.Backing(w')))
  }

  lemma ProvidedSteady(params: V.Params, w: V.World, a: Address, amount: nat)
    requires Inv(w.ledger) && Fair(w.book, w.now + params.protection)
    ensures Steady(params, w, V.Provided(w, a, amount))
  {
    var w' := V.Provided(w, a, amount);
    DepositKeeps(w.ledger, a, amount);
    hide Inv, Fair, Sheds, Leaves;
    SameSheds(w.book, w'.book);
    SameLeaves(w, w', w.now + params.withdrawal);
  }

  lemma LeavingSteady(params: V.Params, w: V.World, w': V.World, moved: nat, due: int)
    requires Inv(w.ledger) && Fair(w.book, w.now + params.protection) && w' == w.(ledger := w'.ledger)
    requires due == w.now + params.withdrawal && V.Leaving(w.ledger, w'.ledger, moved, due)
    ensures Steady(params, w, w')
  {
    hide Inv, Fair, Sheds;
    SameSheds(w.book, w'.book);
  }

  lemma LeftSteady(params: V.Params, w: V.World, a: Address, amount: nat)
    requires Inv(w.ledger) && Fair(w.book, w.now + params.protection)
    ensures Steady(params, w, V.Left(params, w, a, amount))
  {
    hide Inv, Fair, Steady, V.Leaving;
    var due := w.now + params.withdrawal;
    var moved := V.WithdrawLeaves(w.ledger, a, amount, due);
    LeavingSteady(params, w, V.Left(params, w, a, amount), moved, due);
  }

  lemma DelegatedSteady(params: V.Params, w: V.World, a: Address, tokens: seq<nat>)
    requires Inv(w.ledger) && Fair(w.book, w.now + params.protection)
    ensures Steady(params, w, V.Delegated(params, w, a, tokens))
  {
    hide Inv, Fair, Steady, V.Leaving, ChangeDelegations;
    var due := w.now + params.withdrawal;
    var moved := V.ChangeLeaves(w.ledger, a, tokens, due);
    LeavingSteady(params, w, V.Delegated(params, w, a, tokens), moved, due);
  }

  lemma BoughtSteady(params: V.Params, w: V.World, key: P.Key, amount: nat, paid: bool)
    requires Inv(w.ledger) && Fair(w.book, w.now + params.protection) && w.book.totalShield >= 0
    ensures Steady(params, w, V.Bought(params, w, key, amount, paid))
  {
    var w' := V.Bought(params, w, key, amount, paid);
    SoldWithin(params, w, key, amount, paid);
    hide Inv, Fair, Sheds, Leaves, V.Bought;
    SameLeaves(w, w', w.now + params.withdrawal);
    if w' == w {
      SameSheds(w.book, w'.book);
    }
  }

  lemma SameBookSteady(params: V.Params, w: V.World, w': V.World)
    requires Inv(w.ledger) && Fair(w.book, w.now + params.protection) && w'.now >= w.now && w'.ledger == w.ledger
    requires w'.book.lists == w.book.lists && w'.book.totalShield == w.book.totalShield && w'.book.totalClaimed == w.book.totalClaimed
    ensures Steady(params, w, w')
  {
    SameFair(w.book, w'.book, w.now + params.protection, w'.now + params.protection);
    hide Inv, Fair, Sheds, Leaves;
    SameSheds(w.book, w'.book);
    SameLeaves(w, w', w.now + params.withdrawal);
  }

  lemma CreatedSteady(params: V.Params, w: V.World, purchaser: Address, limit: int, amount: nat, paid: bool)
    requires Inv(w.ledger) && Fair(w.book, w.now + params.protection) && w.book.totalShield >= 0
    ensures Steady(params, w, V.Created(params, w, purchaser, limit, amount, paid))
  {
    hide Inv, Fair, V.Bought;
    var m := V.Opened(w, limit);
    var w' := V.Created(params, w, purchaser, limit, amount, paid);
    SameBookSteady(params, w, m);
    BoughtSteady(params, m, P.Key(w.nextPool, purchaser), amount, paid);
    if w' == w {
      SameBookSteady(params, w, w);
    }
  }

  lemma EndedSteady(params: V.Params, w: V.World, visits: seq<P.Key>, updated: bool)
    requires Inv(w.ledger) && Fair(w.book, w.now + params.protection)
    requires P.PoolsPresent(w.book) && forall e :: e in w.ledger.queue ==> e.owner in w.ledger.providers
    ensures Steady(params, w, V.Ended(w, visits, updated))
  {
    hide Inv, Fair, P.VisitAll, Dequeue, C.Closable;
    var end := w.now + params.protection;
    DequeueKeeps(w.ledger, w.now);
    VisitAllFair(w.book, visits, w.now, updated, end);
    var b, w' := P.VisitAll(w.book, visits, w.now, updated), V.Ended(w, visits, updated);
    SameFair(b, w'.book, end, end);
    VisitAllSheds(w.book, w'.book, visits, w.now, updated, end);
  }

  lemma VisitAllSheds(b: P.Book, b': P.Book, visits: seq<P.Key>, now: int, updated: bool, end: int)
    requires Fair(b, end) && P.PoolsPresent(b)
    requires var m := P.VisitAll(b, visits, now, updated); b'.lists == m.lists && b'.totalShield == m.totalShield && b'.totalClaimed == m.totalClaimed
    ensures Sheds(b, b') && b'.totalClaimed == b.totalClaimed
  {
    hide Fair, P.VisitAll;
    VisitAllFair(b, visits, now, updated, end);
    P.VisitAllMembers(b, visits, now, updated);
  }

  lemma TradesSteady(params: V.Params, w: V.World, action: V.Action, w': V.World)
    requires Inv(w.ledger) && Fair(w.book, w.now + params.protection) && Trades(params, w, action, w')
    ensures Steady(params, w, w')
  {
    hide Inv, Fair, Steady;
    match action
    case Provide(a, amount) => ProvidedSteady(params, w, a, amount);
    case Leave(a, amount) => LeftSteady(params, w, a, amount);
    case Delegate(a, tokens) => DelegatedSteady(params, w, a, tokens);
    case CreatePool(purchaser, limit, amount, paid) => CreatedSteady(params, w, purchaser, limit, amount, paid);
    case Configure(pool, active, limit) => SameBookSteady(params, w, w');
    case Buy(key, amount, paid) => BoughtSteady(params, w, key, amount, paid);
    case EndBlock(visits, updated) => EndedSteady(params, w, visits, updated);
    case Advance(time) => SameBookSteady(params, w, w');
  }

  lemma SteadyBacked(params: V.Params, w: V.World, w': V.World)
    requires SoldBacked(w) && Fair(w.book, w.now + params.protection) && Steady(params, w, w') && params.withdrawal >= params.protection
    ensures SoldBacked(w')
  {
    if Sheds(w.book, w'.book) {
      hide Fair, Lasting;
      ShedsBacked(w, w', 0, w.now + params.protection, w.now + params.withdrawal);
    } else {
      forall t | t >= w'.now && Lasting(w'.book, t)
        ensures Exposure(w'.book) <= V.Remaining(w', t)
      {
        hide Inv, Lasting;
        V.DueAtMost(w'.ledger, t);
      }
    }
  }
}
