/** What happens to pools and purchases besides claims. */
module Market {
  import opened Totals
  import opened WithdrawQueue
  import opened Purchases
  import opened Claims

  /** Buying as far as the purchases go; the limits on it are those of `Buy`. */
  datatype Trade =
    | Bought(key: Key, amount: nat, end: int)
    | Expired(visits: seq<Key>, updated: bool)
    | Closed
    | Opened(pool: nat, limit: int)
    | Configured(pool: nat, active: bool, limit: int)

  ghost function Traded(b: Book, trade: Trade, now: int): Book
    requires trade.Expired? ==> PoolsPresent(b)
  {
    match trade
    case Bought(key, amount, end) => if key.pool in b.pools then Add(b, key, amount, end) else b
    case Expired(visits, updated) => VisitAll(b, visits, now, updated)
    case Closed => ClosePools(b)
    case Opened(pool, limit) => if pool in b.pools then b else OpenPool(b, pool, limit)
    case Configured(pool, active, limit) => SetPool(b, pool, active, limit)
  }

  lemma TradedClaims(b: Book, trade: Trade, now: int)
    requires trade.Expired? ==> PoolsPresent(b)
    ensures Traded(b, trade, now).totalClaimed == b.totalClaimed
  {
    if trade.Expired? {
      VisitAllMembers(b, trade.visits, now, trade.updated);
    }
  }

  /** No purchase is left in a pool that is about to be closed. */
  ghost predicate NoneClosable(b: Book) {
    forall k :: k in b.lists && k.pool in b.pools ==> !Closable(b.pools[k.pool])
  }

  lemma OpenKeeps(b: Book, pool: nat, limit: int)
    requires Inv(b) && pool !in b.pools
    ensures Inv(OpenPool(b, pool, limit))
  {
    var b' := OpenPool(b, pool, limit);
    TotalUpdate(b.pools, PoolShield, pool, b'.pools[pool]);
    TotalZero(b.lists, InPool(pool));
    forall k | k in b'.lists
      ensures k.pool in b'.pools && ListOk(b', b'.lists[k])
    {
      assert ListOk(b, b.lists[k]);
    }
  }

  lemma SetKeeps(b: Book, pool: nat, active: bool, limit: int)
    requires Inv(b)
    ensures Inv(SetPool(b, pool, active, limit))
  {
    if pool in b.pools {
      var b' := SetPool(b, pool, active, limit);
      TotalUpdate(b.pools, PoolShield, pool, b'.pools[pool]);
      forall k | k in b'.lists
        ensures k.pool in b'.pools && ListOk(b', b'.lists[k])
      {
        assert ListOk(b, b.lists[k]);
      }
    }
  }

  /** Trading keeps the sums, unless a pool is closed under a purchase. */
  lemma TradedKeeps(b: Book, trade: Trade, now: int)
    requires Inv(b) && (trade.Closed? ==> NoneClosable(b))
    ensures Inv(Traded(b, trade, now))
  {
    match trade
    case Bought(key, amount, end) =>
      if key.pool in b.pools {
        AddKeeps(b, key, amount, end);
      }
    case Expired(visits, updated) =>
      VisitAllKeeps(b, visits, now, updated);
    case Closed =>
      ShieldNonNegative(b);
      ClosePoolsKeepsIff(b);
    case Opened(pool, limit) =>
      if pool !in b.pools {
        OpenKeeps(b, pool, limit);
      }
    case Configured(pool, active, limit) =>
      SetKeeps(b, pool, active, limit);
  }

  // ----- Purchases held for a claim -----

  /** The purchase is there, and stays at least until a time. */
  ghost predicate Held(b: Book, k: Key, id: nat, until: int) {
    k in b.lists && exists p :: p in b.lists[k] && p.id == id && p.deletion >= until
  }

  lemma {:induction false} FindMember(list: seq<Purchase>, p: Purchase)
    requires p in list
    ensures Find(list, p.id) < |list|
  {
    if list[0].id != p.id {
      FindMember(list[1..], p);
    }
  }

  /** While it is held, a claim's loss can be restored. */
  lemma HeldRestorable(b: Book, k: Key, id: nat, until: int)
    requires Inv(b) && Held(b, k, id, until)
    ensures Restorable(b, k, id)
  {
    var p :| p in b.lists[k] && p.id == id && p.deletion >= until;
    FindMember(b.lists[k], p);
  }

  lemma AddHeld(b: Book, key: Key, amount: nat, end: int, k: Key, id: nat, until: int)
    requires key.pool in b.pools && Held(b, k, id, until)
    ensures Held(Add(b, key, amount, end), k, id, until)
  {
    var p :| p in b.lists[k] && p.id == id && p.deletion >= until;
    assert p in Add(b, key, amount, end).lists[k];
  }

  /** Expiry removes nothing that is held for longer. */
  lemma {:induction false} VisitAllHeld(b: Book, visits: seq<Key>, now: int, updated: bool, k: Key, id: nat, until: int)
    requires PoolsPresent(b) && Held(b, k, id, until) && now <= until
    ensures Held(VisitAll(b, visits, now, updated), k, id, until)
    decreases |visits|
  {
    if visits != [] {
      var b' := Visit(b, visits[0], now, updated);
      var p :| p in b.lists[k] && p.id == id && p.deletion >= until;
      if k == visits[0] {
        KeepMembers(b.lists[k], now, updated);
        assert p in Keep(b.lists[k], now, updated);
      }
      assert k in b'.lists && p in b'.lists[k];
      VisitAllHeld(b', visits[1..], now, updated, k, id, until);
    }
  }

  lemma TradedHeld(b: Book, trade: Trade, now: int, k: Key, id: nat, until: int)
    requires PoolsPresent(b) && Held(b, k, id, until) && (trade.Expired? ==> now <= until)
    ensures Held(Traded(b, trade, now), k, id, until)
  {
    match trade
    case Bought(key, amount, end) =>
      if key.pool in b.pools {
        AddHeld(b, key, amount, end, k, id, until);
      }
    case Expired(visits, updated) =>
      VisitAllHeld(b, visits, now, updated, k, id, until);
    case Closed =>
      assert ClosePools(b).lists == b.lists;
    case Opened(pool, limit) =>
      assert OpenPool(b, pool, limit).lists == b.lists;
    case Configured(pool, active, limit) =>
      assert SetPool(b, pool, active, limit).lists == b.lists;
  }

  /** Rewriting a purchase without shortening its life lets go of none. */
  lemma RewrittenHeld(b: Book, b': Book, key: Key, i: nat, p': Purchase, k: Key, id: nat, until: int)
    requires key in b.lists && i < |b.lists[key]| && b'.lists == b.lists[key := b.lists[key][i := p']]
    requires p'.id == b.lists[key][i].id && p'.deletion >= b.lists[key][i].deletion
    requires Held(b, k, id, until)
    ensures Held(b', k, id, until)
  {
    var p :| p in b.lists[k] && p.id == id && p.deletion >= until;
    if k == key {
      var j :| 0 <= j < |b.lists[k]| && b.lists[k][j] == p;
      assert b'.lists[k][j] in b'.lists[k];
    } else {
      assert p in b'.lists[k];
    }
  }
}
