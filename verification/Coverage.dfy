/**
  Coverage over time. In runs without claims, with withdrawals taking at least as long as
  protection lasts, the shield still protecting after any time never exceeds the collateral
  that is still there at that time.
*/
module Coverage {
  import opened Dec
  import opened Split
  import opened Totals
  import opened WithdrawQueue
  import opened Collateral
  import P = Purchases
  import C = Claims
  import M = Market

  /** The pool parameters: two periods and the share of all collateral one pool may use. */
  datatype Params = Params(protection: nat, withdrawal: nat, rate: nat)

  datatype World = World(now: int, ledger: Ledger, book: P.Book, nextPool: nat)

  datatype Action =
    | Provide(a: Address, amount: nat)
    | Leave(a: Address, amount: nat)
    | Delegate(a: Address, tokens: seq<nat>)
    | CreatePool(purchaser: Address, limit: int, amount: nat, paid: bool)
    | Configure(pool: nat, active: bool, limit: int)
    | Buy(key: P.Key, amount: nat, paid: bool)
    | EndBlock(visits: seq<P.Key>, updated: bool)
    | Advance(time: nat)

  function Genesis(): World {
    World(0, Ledger(map[], 0, 0, [], map[], map[]), P.Book(map[], map[], 0, 0, 1), 1)
  }

  function Backing(w: World): int {
    w.ledger.totalCollateral - w.ledger.totalWithdrawing
  }

  function Provided(w: World, a: Address, amount: nat): World {
    var (l, status) := Deposit(w.ledger, a, amount);
    if status.Success? then w.(ledger := l) else w
  }

  function Left(params: Params, w: World, a: Address, amount: nat): World {
    w.(ledger := Withdraw(w.ledger, a, amount, w.now + params.withdrawal).0)
  }

  function Delegated(params: Params, w: World, a: Address, tokens: seq<nat>): World {
    w.(ledger := ChangeDelegations(w.ledger, a, tokens, w.now + params.withdrawal).0)
  }

  function Bought(params: Params, w: World, key: P.Key, amount: nat, paid: bool): World
    requires w.book.totalShield >= 0
  {
    var bought := P.Buy(w.book, Backing(w), key, amount, paid, w.now + params.protection, params.rate);
    if bought.Ok? then w.(book := bought.book) else w
  }

  /** A world with its next pool opened and no shield in it yet. */
  function Opened(w: World, limit: int): World {
    w.(book := C.OpenPool(w.book, w.nextPool, limit), nextPool := w.nextPool + 1)
  }

  /** A pool is created together with its sponsor's purchase, or not at all. */
  function Created(params: Params, w: World, purchaser: Address, limit: int, amount: nat, paid: bool): World
    requires w.book.totalShield >= 0
  {
    var w' := Bought(params, Opened(w, limit), P.Key(w.nextPool, purchaser), amount, paid);
    if w' == Opened(w, limit) then w else w'
  }

  /** So there is a new pool exactly if shield of it is sold, and it is as asked for. */
  lemma CreatedSold(params: Params, w: World, purchaser: Address, limit: int, amount: nat, paid: bool)
    requires w.book.totalShield >= 0
    ensures var w' := Created(params, w, purchaser, limit, amount, paid);
            w' == w || (&& w'.nextPool == w.nextPool + 1 && w.nextPool in w'.book.pools && 0 < amount
                        && w'.book.pools[w.nextPool] == P.Pool(true, limit, amount)
                        && P.WithinLimits(w'.book, Backing(w), w.nextPool, params.rate))
  {
    var m, key := Opened(w, limit), P.Key(w.nextPool, purchaser);
    P.SoldIff(m.book, Backing(m), key, amount, paid, m.now + params.protection, params.rate);
    hide P.Buy, P.WithinLimits;
  }

  function Ended(w: World, visits: seq<P.Key>, updated: bool): World
    requires P.PoolsPresent(w.book)
    requires forall e :: e in w.ledger.queue ==> e.owner in w.ledger.providers
  {
    w.(book := C.ClosePools(P.VisitAll(w.book, visits, w.now, updated)), ledger := Dequeue(w.ledger, w.now))
  }

  function Configured(w: World, pool: nat, active: bool, limit: int): World {
    w.(book := C.SetPool(w.book, pool, active, limit))
  }

  function Advanced(w: World, time: nat): World {
    w.(now := w.now + time)
  }

  /** One message or block event; a refused message changes nothing. */
  ghost function Step(params: Params, w: World, action: Action): World
    requires Safe(params, w)
  {
    match action
    case Provide(a, amount) => Provided(w, a, amount)
    case Leave(a, amount) => Left(params, w, a, amount)
    case Delegate(a, tokens) => Delegated(params, w, a, tokens)
    case CreatePool(purchaser, limit, amount, paid) => Created(params, w, purchaser, limit, amount, paid)
    case Configure(pool, active, limit) => Configured(w, pool, active, limit)
    case Buy(key, amount, paid) => Bought(params, w, key, amount, paid)
    case EndBlock(visits, updated) => Ended(w, visits, updated)
    case Advance(time) => Advanced(w, time)
  }

  // ----- The invariant -----

  /** The shield of purchases whose protection ends after `t`. */
  ghost function Protecting(w: World, t: int): int {
    Total(w.book.lists, P.EndingAfter(t))
  }

  /** The collateral left once the withdrawals due by `t` have completed. */
  ghost function Remaining(w: World, t: int): int {
    w.ledger.totalCollateral - Measure(w.ledger.queue, DueBy(t))
  }

  ghost predicate Covered(w: World) {
    forall t :: t >= w.now ==> Protecting(w, t) <= Remaining(w, t)
  }

  /** Every purchase holds shield, and protects no longer than until `end`. */
  ghost predicate Current(b: P.Book, end: int) {
    forall k, p :: k in b.lists && p in b.lists[k] ==> 0 < p.shield && p.protectionEnd <= end
  }

  ghost predicate BookOk(b: P.Book, end: int, nextPool: nat) {
    && P.Inv(b)
    && Current(b, end)
    && b.totalClaimed == 0 <= b.totalShield
    && (forall id :: id in b.pools ==> id < nextPool)
  }

  /** What a world keeps whatever the two periods are. */
  ghost predicate Safe(params: Params, w: World) {
    Inv(w.ledger) && BookOk(w.book, w.now + params.protection, w.nextPool)
  }

  // ----- What shield and withdrawals add up to -----

  lemma ProtectingAtMost(b: P.Book, t: int)
    requires P.Inv(b)
    ensures Total(b.lists, P.EndingAfter(t)) <= b.totalShield
  {
    forall k | k in b.lists
      ensures P.EndingAfter(t)(k, b.lists[k]) <= P.AnyPool()(k, b.lists[k])
    {
      assert P.ListOk(b, b.lists[k]);
      P.SumsMonotone(b.lists[k], P.ShieldAfter(t), P.Shield());
    }
    TotalMonotone(b.lists, P.EndingAfter(t), P.AnyPool());
  }

  lemma ProtectingNone(params: Params, w: World, t: int)
    requires Safe(params, w) && t >= w.now + params.protection
    ensures Protecting(w, t) == 0
  {
    forall k | k in w.book.lists
      ensures P.EndingAfter(t)(k, w.book.lists[k]) == 0
    {
      P.SumsZero(w.book.lists[k], P.ShieldAfter(t));
    }
    TotalZero(w.book.lists, P.EndingAfter(t));
  }

  lemma DueAtMost(l: Ledger, t: int)
    requires Inv(l)
    ensures Measure(l.queue, DueBy(t)) <= l.totalWithdrawing <= l.totalCollateral
  {
    MeasureMonotone(l.queue, DueBy(t), Amount());
    TotalsNonNegative(l);
  }

  // ----- One step -----

  lemma AddOk(b: P.Book, k: P.Key, amount: nat, end: int, nextPool: nat)
    requires BookOk(b, end, nextPool) && k.pool in b.pools && amount > 0
    ensures BookOk(P.Add(b, k, amount, end), end, nextPool)
  {
    var b' := P.Add(b, k, amount, end);
    P.AddKeeps(b, k, amount, end);
    assert Current(b', end) by {
      forall j, p | j in b'.lists && p in b'.lists[j]
        ensures 0 < p.shield && p.protectionEnd <= end
      {
        if j !in b.lists || p !in b.lists[j] {
          assert j == k;
        }
      }
    }
  }

  lemma BoughtCovered(params: Params, w: World, key: P.Key, amount: nat, paid: bool)
    requires Safe(params, w) && Covered(w)
    ensures Covered(Bought(params, w, key, amount, paid))
  {
    var end := w.now + params.protection;
    var w' := Bought(params, w, key, amount, paid);
    if w' != w {
      forall t | t >= w'.now
        ensures Protecting(w', t) <= Remaining(w', t)
      {
        P.AddAfter(w.book, key, amount, end, t);
        ProtectingAtMost(w.book, t);
        DueAtMost(w.ledger, t);
        assert Protecting(w, t) <= Remaining(w, t);
      }
    }
  }

  /** A ledger after `amount` more is to be withdrawn at `due`. */
  ghost predicate Leaving(l: Ledger, l': Ledger, amount: nat, due: int) {
    && Inv(l')
    && l'.totalCollateral == l.totalCollateral
    && forall t :: Measure(l'.queue, DueBy(t)) == Measure(l.queue, DueBy(t)) + (if due <= t then amount else 0)
  }

  /** A withdrawal requested now only completes after every present protection has ended. */
  lemma LeaveCovered(params: Params, w: World, w': World, amount: nat, due: int)
    requires Safe(params, w) && Covered(w) && params.withdrawal >= params.protection
    requires w' == w.(ledger := w'.ledger) && due == w.now + params.withdrawal && Leaving(w.ledger, w'.ledger, amount, due)
    ensures Covered(w')
  {
    forall t | t >= w'.now
      ensures Protecting(w', t) <= Remaining(w', t)
    {
      assert Protecting(w, t) <= Remaining(w, t);
      if t >= due {
        ProtectingNone(params, w, t);
        DueAtMost(w'.ledger, t);
      }
    }
  }

  lemma WithdrawLeaves(l: Ledger, a: Address, amount: nat, due: int) returns (moved: nat)
    requires Inv(l)
    ensures Leaving(l, Withdraw(l, a, amount, due).0, moved, due)
  {
    WithdrawKeeps(l, a, amount, due);
    moved := if Withdraw(l, a, amount, due).1.Success? then amount else 0;
  }

  lemma ChangeLeaves(l: Ledger, a: Address, tokens: seq<nat>, due: int) returns (moved: nat)
    requires Inv(l)
    ensures Leaving(l, ChangeDelegations(l, a, tokens, due).0, moved, due)
  {
    ChangeDelegationsKeeps(l, a, tokens, due);
    moved := Max(HeldBy(l, a) - LeavingBy(l, a) - Sum(tokens), 0);
  }

  lemma OpenOk(b: P.Book, end: int, id: nat, limit: int)
    requires BookOk(b, end, id)
    ensures BookOk(C.OpenPool(b, id, limit), end, id + 1)
  {
    hide P.Inv;
    M.OpenKeeps(b, id, limit);
  }

  lemma SetOk(b: P.Book, end: int, nextPool: nat, id: nat, active: bool, limit: int)
    requires BookOk(b, end, nextPool)
    ensures BookOk(C.SetPool(b, id, active, limit), end, nextPool)
  {
    hide P.Inv;
    M.SetKeeps(b, id, active, limit);
  }

  lemma VisitAllOk(b: P.Book, end: int, nextPool: nat, visits: seq<P.Key>, now: int, updated: bool)
    requires BookOk(b, end, nextPool)
    ensures BookOk(P.VisitAll(b, visits, now, updated), end, nextPool)
  {
    P.VisitAllKeeps(b, visits, now, updated);
    P.VisitAllMembers(b, visits, now, updated);
    P.ShieldNonNegative(P.VisitAll(b, visits, now, updated));
  }

  /** Without claims a pool that can be closed has no purchases. */
  lemma NotClosable(b: P.Book, end: int, k: P.Key)
    requires P.Inv(b) && Current(b, end) && k in b.lists
    ensures !C.Closable(b.pools[k.pool])
  {
    forall j | j in b.lists
      ensures 0 <= P.InPool(k.pool)(j, b.lists[j])
    {
      ListNonNegative(b.lists[j]);
    }
    TotalAtLeast(b.lists, P.InPool(k.pool), k);
    assert P.ListOk(b, b.lists[k]);
    ListNonNegative(b.lists[k][1..]);
    assert b.lists[k][0] in b.lists[k];
  }

  lemma {:induction false} ListNonNegative(list: seq<P.Purchase>)
    requires forall p :: p in list ==> 0 < p.shield
    ensures 0 <= P.Sums(list, P.Shield())
  {
    if list != [] {
      ListNonNegative(list[1..]);
    }
  }

  lemma CloseOk(b: P.Book, end: int, nextPool: nat)
    requires BookOk(b, end, nextPool)
    ensures BookOk(C.ClosePools(b), end, nextPool)
  {
    P.ShieldNonNegative(b);
    forall k | k in b.lists
      ensures !C.Closable(b.pools[k.pool])
    {
      NotClosable(b, end, k);
    }
    C.ClosePoolsKeepsIff(b);
  }

  lemma OpenedKeeps(params: Params, w: World, limit: int)
    requires Safe(params, w)
    ensures Safe(params, Opened(w, limit))
    ensures Covered(w) ==> Covered(Opened(w, limit))
  {
    OpenOk(w.book, w.now + params.protection, w.nextPool, limit);
    if Covered(w) {
      forall t | t >= w.now
        ensures Protecting(Opened(w, limit), t) <= Remaining(Opened(w, limit), t)
      {
        assert Protecting(w, t) <= Remaining(w, t);
      }
    }
  }

  lemma BookSafe(params: Params, w: World, b: P.Book)
    requires Safe(params, w) && BookOk(b, w.now + params.protection, w.nextPool)
    ensures Safe(params, w.(book := b))
  {
  }

  lemma BoughtSafe(params: Params, w: World, key: P.Key, amount: nat, paid: bool)
    requires Safe(params, w)
    ensures Safe(params, Bought(params, w, key, amount, paid))
  {
    hide Collateral.Inv, P.Inv;
    var end := w.now + params.protection;
    var bought := P.Buy(w.book, Backing(w), key, amount, paid, end, params.rate);
    if bought.Ok? {
      AddOk(w.book, key, amount, end, w.nextPool);
      BookSafe(params, w, P.Add(w.book, key, amount, end));
    }
  }

  lemma CreatedKeeps(params: Params, w: World, purchaser: Address, limit: int, amount: nat, paid: bool)
    requires Safe(params, w)
    ensures Safe(params, Created(params, w, purchaser, limit, amount, paid))
    ensures Covered(w) ==> Covered(Created(params, w, purchaser, limit, amount, paid))
  {
    OpenedKeeps(params, w, limit);
    BoughtSafe(params, Opened(w, limit), P.Key(w.nextPool, purchaser), amount, paid);
    if Covered(w) {
      BoughtCovered(params, Opened(w, limit), P.Key(w.nextPool, purchaser), amount, paid);
    }
  }

  lemma EndedSafe(params: Params, w: World, visits: seq<P.Key>, updated: bool)
    requires Safe(params, w)
    ensures Safe(params, Ended(w, visits, updated))
  {
    DequeueKeeps(w.ledger, w.now);
    VisitAllOk(w.book, w.now + params.protection, w.nextPool, visits, w.now, updated);
    CloseOk(P.VisitAll(w.book, visits, w.now, updated), w.now + params.protection, w.nextPool);
  }

  lemma LedgerSafe(params: Params, w: World, l: Ledger)
    requires Safe(params, w) && Inv(l)
    ensures Safe(params, w.(ledger := l))
  {
  }

  lemma ProvidedSafe(params: Params, w: World, a: Address, amount: nat)
    requires Safe(params, w)
    ensures Safe(params, Provided(w, a, amount))
  {
    DepositKeeps(w.ledger, a, amount);
    LedgerSafe(params, w, Deposit(w.ledger, a, amount).0);
  }

  lemma LeftSafe(params: Params, w: World, a: Address, amount: nat)
    requires Safe(params, w)
    ensures Safe(params, Left(params, w, a, amount))
  {
    hide Collateral.Inv;
    var moved := WithdrawLeaves(w.ledger, a, amount, w.now + params.withdrawal);
    LedgerSafe(params, w, Withdraw(w.ledger, a, amount, w.now + params.withdrawal).0);
  }

  lemma DelegatedSafe(params: Params, w: World, a: Address, tokens: seq<nat>)
    requires Safe(params, w)
    ensures Safe(params, Delegated(params, w, a, tokens))
  {
    hide Collateral.Inv;
    var moved := ChangeLeaves(w.ledger, a, tokens, w.now + params.withdrawal);
    LedgerSafe(params, w, ChangeDelegations(w.ledger, a, tokens, w.now + params.withdrawal).0);
  }

  lemma ConfiguredSafe(params: Params, w: World, pool: nat, active: bool, limit: int)
    requires Safe(params, w)
    ensures Safe(params, Configured(w, pool, active, limit))
  {
    SetOk(w.book, w.now + params.protection, w.nextPool, pool, active, limit);
    BookSafe(params, w, C.SetPool(w.book, pool, active, limit));
  }

  lemma AdvancedSafe(params: Params, w: World, time: nat)
    requires Safe(params, w)
    ensures Safe(params, Advanced(w, time))
  {
    LaterOk(w.book, w.now + params.protection, Advanced(w, time).now + params.protection, w.nextPool);
  }

  lemma LaterOk(b: P.Book, end: int, end': int, nextPool: nat)
    requires BookOk(b, end, nextPool) && end <= end'
    ensures BookOk(b, end', nextPool)
  {
  }

  lemma StepSafe(params: Params, w: World, action: Action)
    requires Safe(params, w)
    ensures Safe(params, Step(params, w, action))
  {
    match action
    case Provide(a, amount) =>
      ProvidedSafe(params, w, a, amount);
    case Leave(a, amount) =>
      LeftSafe(params, w, a, amount);
    case Delegate(a, tokens) =>
      DelegatedSafe(params, w, a, tokens);
    case CreatePool(purchaser, limit, amount, paid) =>
      CreatedKeeps(params, w, purchaser, limit, amount, paid);
    case Configure(pool, active, limit) =>
      ConfiguredSafe(params, w, pool, active, limit);
    case Buy(key, amount, paid) =>
      BoughtSafe(params, w, key, amount, paid);
    case EndBlock(visits, updated) =>
      EndedSafe(params, w, visits, updated);
    case Advance(time) =>
      AdvancedSafe(params, w, time);
  }

  /** A change that leaves protection and withdrawals alone and takes no collateral keeps the coverage. */
  lemma SameCovered(w: World, w': World)
    requires Covered(w) && w'.now >= w.now && w'.book.lists == w.book.lists
    requires w'.ledger.queue == w.ledger.queue && w'.ledger.totalCollateral >= w.ledger.totalCollateral
    ensures Covered(w')
  {
    forall t | t >= w'.now
      ensures Protecting(w', t) <= Remaining(w', t)
    {
      assert Protecting(w, t) <= Remaining(w, t);
    }
  }

  lemma ProvidedCovered(w: World, a: Address, amount: nat)
    requires Inv(w.ledger) && Covered(w)
    ensures Covered(Provided(w, a, amount))
  {
    DepositKeeps(w.ledger, a, amount);
    SameCovered(w, Provided(w, a, amount));
  }

  lemma LeftCovered(params: Params, w: World, a: Address, amount: nat)
    requires Safe(params, w) && Covered(w) && params.withdrawal >= params.protection
    ensures Covered(Left(params, w, a, amount))
  {
    var due := w.now + params.withdrawal;
    var moved := WithdrawLeaves(w.ledger, a, amount, due);
    LeaveCovered(params, w, Left(params, w, a, amount), moved, due);
  }

  lemma DelegatedCovered(params: Params, w: World, a: Address, tokens: seq<nat>)
    requires Safe(params, w) && Covered(w) && params.withdrawal >= params.protection
    ensures Covered(Delegated(params, w, a, tokens))
  {
    hide BookOk, ChangeDelegations, Covered, Leaving, Collateral.Inv;
    var due := w.now + params.withdrawal;
    var moved := ChangeLeaves(w.ledger, a, tokens, due);
    LeaveCovered(params, w, Delegated(params, w, a, tokens), moved, due);
  }

  /** Completing what is due takes from the collateral exactly what the queue promised it would. */
  lemma EndedCovered(params: Params, w: World, visits: seq<P.Key>, updated: bool)
    requires Safe(params, w) && Covered(w)
    ensures Covered(Ended(w, visits, updated))
  {
    DequeueKeeps(w.ledger, w.now);
    P.VisitAllKeeps(w.book, visits, w.now, updated);
    var w' := Ended(w, visits, updated);
    forall t | t >= w'.now
      ensures Protecting(w', t) <= Remaining(w', t)
    {
      assert Protecting(w, t) <= Remaining(w, t);
    }
  }

  lemma StepCovered(params: Params, w: World, action: Action)
    requires Safe(params, w) && Covered(w) && params.withdrawal >= params.protection
    ensures Covered(Step(params, w, action))
  {
    match action
    case Provide(a, amount) =>
      ProvidedCovered(w, a, amount);
    case Leave(a, amount) =>
      LeftCovered(params, w, a, amount);
    case Delegate(a, tokens) =>
      DelegatedCovered(params, w, a, tokens);
    case CreatePool(purchaser, limit, amount, paid) =>
      CreatedKeeps(params, w, purchaser, limit, amount, paid);
    case Configure(pool, active, limit) =>
      SameCovered(w, Configured(w, pool, active, limit));
    case Buy(key, amount, paid) =>
      BoughtCovered(params, w, key, amount, paid);
    case EndBlock(visits, updated) =>
      EndedCovered(params, w, visits, updated);
    case Advance(time) =>
      SameCovered(w, Advanced(w, time));
  }

  // ----- Whole runs -----

  ghost function Run(params: Params, w: World, actions: seq<Action>): (w': World)
    requires Safe(params, w)
    ensures Safe(params, w')
    decreases |actions|
  {
    if actions == [] then w else
    StepSafe(params, w, actions[0]);
    Run(params, Step(params, w, actions[0]), actions[1..])
  }

  lemma {:induction false} RunCovered(params: Params, w: World, actions: seq<Action>)
    requires Safe(params, w) && Covered(w) && params.withdrawal >= params.protection
    ensures Covered(Run(params, w, actions))
    decreases |actions|
  {
    if actions != [] {
      StepSafe(params, w, actions[0]);
      StepCovered(params, w, actions[0]);
      RunCovered(params, Step(params, w, actions[0]), actions[1..]);
    }
  }

  lemma GenesisSafe(params: Params)
    ensures Safe(params, Genesis()) && Covered(Genesis())
  {
    assert Genesis().book.lists == map[];
  }

  /** The world a run from an empty store leads to. */
  ghost function Reached(params: Params, actions: seq<Action>): World {
    GenesisSafe(params);
    Run(params, Genesis(), actions)
  }

  /** Shield that still protects is within the collateral. */
  ghost predicate Protected(w: World) {
    Protecting(w, w.now) <= w.ledger.totalCollateral
  }

  lemma RunProtected(params: Params, actions: seq<Action>)
    requires params.withdrawal >= params.protection
    ensures Protected(Reached(params, actions))
  {
    GenesisSafe(params);
    RunCovered(params, Genesis(), actions);
    var w := Reached(params, actions);
    assert Protecting(w, w.now) <= Remaining(w, w.now);
  }

  // ----- Withdrawals that are faster than protection -----

  /** One provider withdraws everything while one unit of shield still protects. */
  function Outrun(params: Params): seq<Action> {
    [Delegate(0, [ONE]), Provide(0, ONE), CreatePool(1, 1, 1, true), Leave(0, ONE), Advance(params.withdrawal), EndBlock([], true)]
  }

  ghost function OneUnit(end: int): P.Book {
    P.Book(map[1 := P.Pool(true, 1, 1)], map[P.Key(1, 1) := [P.Purchase(1, end, end, 1)]], 1, 0, 2)
  }

  ghost function Staked(p: Provider, collateral: int, withdrawing: int, queue: seq<Entry>): Ledger {
    Ledger(map[0 := p], collateral, withdrawing, queue, map[0 := [ONE]], map[])
  }

  lemma OutrunProvides(params: Params)
    requires Safe(params, Genesis())
    ensures var l := Ledger(map[], 0, 0, [], map[0 := [ONE]], map[]);
            && Delegated(params, Genesis(), 0, [ONE]) == Genesis().(ledger := l)
            && Provided(Genesis().(ledger := l), 0, ONE) == Genesis().(ledger := Staked(Provider(ONE, ONE, 0), ONE, 0, []))
  {
    var one: seq<nat> := [ONE];
    assert one[1..] == [];
    assert Sum(one) == ONE;
  }

  lemma OutrunBuys(params: Params, l: Ledger)
    requires params.rate > 0 && l == Staked(Provider(ONE, ONE, 0), ONE, 0, [])
    ensures Created(params, Genesis().(ledger := l), 1, 1, 1, true)
            == Genesis().(ledger := l, book := OneUnit(params.protection), nextPool := 2)
  {
    PortionExact(ONE, params.rate);
    assert Portion(ONE, params.rate) == params.rate;
    hide Portion;
    var w := Opened(Genesis().(ledger := l), 1);
    assert w.book.pools[1] == P.Pool(true, 1, 0);
    assert Min(1, params.rate) == 1;
    assert P.Buy(w.book, ONE, P.Key(1, 1), 1, true, params.protection, params.rate).Ok?;
    var b := P.Add(w.book, P.Key(1, 1), 1, params.protection);
    assert b.pools == OneUnit(params.protection).pools;
    var p := P.Purchase(1, params.protection, params.protection, 1);
    assert [] + [p] == [p];
    assert b.lists == OneUnit(params.protection).lists;
  }

  lemma OutrunLeaves(l: Ledger, due: int)
    requires l == Staked(Provider(ONE, ONE, 0), ONE, 0, [])
    ensures Withdraw(l, 0, ONE, due).0 == Staked(Provider(ONE, ONE, ONE), ONE, ONE, [Entry(0, ONE, due)])
    ensures Dequeue(Withdraw(l, 0, ONE, due).0, due) == Staked(Provider(ONE, 0, 0), 0, 0, [])
  {
    var m := Withdraw(l, 0, ONE, due).0;
    assert m.queue == [Entry(0, ONE, due)];
    assert m.queue[1..] == [];
    assert CompleteOne(m.(queue := []), m.queue[0]) == Staked(Provider(ONE, 0, 0), 0, 0, []);
  }

  lemma OneUnitProtects(w: World, end: int)
    requires w.book.lists == OneUnit(end).lists && end > w.now
    ensures Protecting(w, w.now) == 1
  {
    P.SumsSnoc([], P.Purchase(1, end, end, 1), P.ShieldAfter(w.now));
    var list := [] + [P.Purchase(1, end, end, 1)];
    assert list == [P.Purchase(1, end, end, 1)];
    assert P.EndingAfter(w.now)(P.Key(1, 1), list) == 1;
    TotalSplit(w.book.lists, P.EndingAfter(w.now), P.Key(1, 1));
    assert w.book.lists - {P.Key(1, 1)} == map[];
  }

  lemma RunNext(params: Params, w: World, action: Action, rest: seq<Action>) returns (w': World)
    requires Safe(params, w)
    ensures Safe(params, w') && w' == Step(params, w, action)
    ensures Run(params, w, [action] + rest) == Run(params, w', rest)
    ensures Run(params, w', []) == w'
  {
    w' := Step(params, w, action);
    StepSafe(params, w, action);
    assert ([action] + rest)[1..] == rest;
  }

  /** The purchase outlives the collateral. */
  lemma OutrunEnds(params: Params, w: World)
    requires Safe(params, w) && w.now == params.withdrawal < params.protection
    requires w.ledger == Staked(Provider(ONE, ONE, ONE), ONE, ONE, [Entry(0, ONE, w.now)]) && w.book == OneUnit(params.protection)
    requires Dequeue(w.ledger, w.now) == Staked(Provider(ONE, 0, 0), 0, 0, [])
    ensures !Protected(Ended(w, [], true))
  {
    assert C.ClosePools(w.book).lists == w.book.lists;
    OneUnitProtects(Ended(w, [], true), params.protection);
  }

  lemma Outruns(params: Params)
    requires params.withdrawal < params.protection && params.rate > 0
    ensures !Protected(Reached(params, Outrun(params)))
  {
    hide Safe, Protected, Run, Delegated, Provided, Created, Dequeue, Withdraw;
    GenesisSafe(params);
    var r5 := [EndBlock([], true)];
    var r4 := [Advance(params.withdrawal)] + r5;
    var r3 := [Leave(0, ONE)] + r4;
    var r2 := [CreatePool(1, 1, 1, true)] + r3;
    var r1 := [Provide(0, ONE)] + r2;
    OutrunProvides(params);
    var w1 := RunNext(params, Genesis(), Delegate(0, [ONE]), r1);
    var w2 := RunNext(params, w1, Provide(0, ONE), r2);
    OutrunBuys(params, w2.ledger);
    var w3 := RunNext(params, w2, CreatePool(1, 1, 1, true), r3);
    OutrunLeaves(w3.ledger, params.withdrawal);
    var w4 := RunNext(params, w3, Leave(0, ONE), r4);
    var w5 := RunNext(params, w4, Advance(params.withdrawal), r5);
    OutrunEnds(params, w5);
    var w6 := RunNext(params, w5, EndBlock([], true), []);
    assert Outrun(params) == [Delegate(0, [ONE])] + r1;
    assert r5 + [] == r5;
  }

  /** Every run is covered exactly when withdrawals take at least as long as protection lasts. */
  lemma CoverageIff(params: Params)
    requires params.rate > 0
    ensures (forall actions :: Protected(Reached(params, actions))) <==> params.withdrawal >= params.protection
  {
    if params.withdrawal >= params.protection {
      forall actions
        ensures Protected(Reached(params, actions))
      {
        RunProtected(params, actions);
      }
    } else {
      Outruns(params);
    }
  }
}
