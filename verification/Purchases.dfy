/**
  Pools, purchases and the totals kept over them, as values: purchasing, expiry, and the
  life of a claim on a purchase.
*/
module Purchases {
  import opened Dec
  import opened Split
  import opened Totals
  import opened WithdrawQueue

  datatype Pool = Pool(active: bool, shieldLimit: int, shield: int)

  datatype Purchase = Purchase(id: nat, protectionEnd: int, deletion: int, shield: int)

  /** A pool and one of its purchasers: the key of a purchase list. */
  datatype Key = Key(pool: nat, purchaser: Address)

  datatype Book = Book(
    pools: map<nat, Pool>,
    lists: map<Key, seq<Purchase>>,
    totalShield: int,
    totalClaimed: int,
    nextId: nat)

  datatype Error =
    NoPoolFound | PoolInactive | NoShield | NotEnoughCollateral | PoolShieldExceedsLimit | NotEnoughShield | PurchaseNotFound

  /** `Halt` stands for a panic. */
  datatype Outcome = Ok(book: Book) | Err(error: Error) | Halt

  // ----- Sums over purchases -----

  ghost function Sums(list: seq<Purchase>, f: Purchase -> int): int {
    if list == [] then 0 else f(list[0]) + Sums(list[1..], f)
  }

  ghost function Shield(): Purchase -> int {
    (p: Purchase) => p.shield
  }

  /** The shield of purchases whose protection ends after `t`. */
  ghost function ShieldAfter(t: int): Purchase -> int {
    (p: Purchase) => if p.protectionEnd > t then p.shield else 0
  }

  ghost function PoolShield(id: nat, p: Pool): int {
    p.shield
  }

  ghost function AnyPool(): (Key, seq<Purchase>) -> int {
    (k: Key, list: seq<Purchase>) => Sums(list, Shield())
  }

  ghost function InPool(id: nat): (Key, seq<Purchase>) -> int {
    (k: Key, list: seq<Purchase>) => if k.pool == id then Sums(list, Shield()) else 0
  }

  ghost function EndingAfter(t: int): (Key, seq<Purchase>) -> int {
    (k: Key, list: seq<Purchase>) => Sums(list, ShieldAfter(t))
  }

  lemma {:induction false} SumsAppend(p: seq<Purchase>, q: seq<Purchase>, f: Purchase -> int)
    ensures Sums(p + q, f) == Sums(p, f) + Sums(q, f)
  {
    if p == [] {
      assert p + q == q;
    } else {
      assert (p + q)[1..] == p[1..] + q;
      SumsAppend(p[1..], q, f);
    }
  }

  lemma SumsSnoc(p: seq<Purchase>, x: Purchase, f: Purchase -> int)
    ensures Sums(p + [x], f) == Sums(p, f) + f(x)
  {
    SumsAppend(p, [x], f);
    assert [x][1..] == [];
  }

  lemma {:induction false} SumsSet(p: seq<Purchase>, i: nat, x: Purchase, f: Purchase -> int)
    requires i < |p|
    ensures Sums(p[i := x], f) == Sums(p, f) - f(p[i]) + f(x)
  {
    if i == 0 {
      assert p[i := x][1..] == p[1..];
    } else {
      assert p[i := x][1..] == p[1..][i - 1 := x];
      SumsSet(p[1..], i - 1, x, f);
    }
  }

  lemma {:induction false} SumsMonotone(p: seq<Purchase>, f: Purchase -> int, g: Purchase -> int)
    requires forall x :: x in p ==> f(x) <= g(x)
    ensures Sums(p, f) <= Sums(p, g)
  {
    if p != [] {
      SumsMonotone(p[1..], f, g);
    }
  }

  lemma {:induction false} SumsZero(p: seq<Purchase>, f: Purchase -> int)
    requires forall x :: x in p ==> f(x) == 0
    ensures Sums(p, f) == 0
  {
    if p != [] {
      SumsZero(p[1..], f);
    }
  }

  // ----- What every operation keeps -----

  /** The registered shield invariant, refined down to single purchases. */
  ghost predicate ShieldSums(b: Book) {
    && b.totalShield == Total(b.pools, PoolShield)
    && b.totalShield == Total(b.lists, AnyPool())
    && (forall id :: id in b.pools ==> b.pools[id].shield == Total(b.lists, InPool(id)))
  }

  ghost predicate ListOk(b: Book, list: seq<Purchase>) {
    && list != []
    && (forall p :: p in list ==> p.shield >= 0 && p.protectionEnd <= p.deletion && p.id < b.nextId)
    && Distinct(list)
  }

  ghost predicate Distinct(list: seq<Purchase>) {
    forall i, j :: 0 <= i < j < |list| ==> list[i].id != list[j].id
  }

  ghost predicate Inv(b: Book) {
    && ShieldSums(b)
    && (forall k :: k in b.lists ==> k.pool in b.pools && ListOk(b, b.lists[k]))
  }

  ghost function ListOf(lists: map<Key, seq<Purchase>>, k: Key): seq<Purchase> {
    if k in lists then lists[k] else []
  }

  /** Storing a list, or deleting an empty one. */
  function StoreList(lists: map<Key, seq<Purchase>>, k: Key, list: seq<Purchase>): map<Key, seq<Purchase>> {
    if list == [] then lists - {k} else lists[k := list]
  }

  lemma StoreTotal(lists: map<Key, seq<Purchase>>, k: Key, list: seq<Purchase>, f: (Key, seq<Purchase>) -> int)
    requires f(k, []) == 0
    ensures Total(StoreList(lists, k, list), f) == Total(lists, f) - At(lists, f, k) + f(k, list)
  {
    if list == [] {
      TotalDelete(lists, f, k);
    } else {
      TotalUpdate(lists, f, k, list);
    }
  }

  /** Changing one list by `delta` units of shield, along with its pool and the total, keeps the sums. */
  lemma OneList(b: Book, b': Book, k: Key, list: seq<Purchase>, delta: int)
    requires ShieldSums(b) && k.pool in b.pools
    requires b'.lists == StoreList(b.lists, k, list)
    requires Sums(list, Shield()) == Sums(ListOf(b.lists, k), Shield()) + delta
    requires b'.totalShield == b.totalShield + delta
    requires b'.pools == b.pools[k.pool := b.pools[k.pool].(shield := b.pools[k.pool].shield + delta)]
    ensures ShieldSums(b')
  {
    hide Total, Sums, StoreList;
    TotalUpdate(b.pools, PoolShield, k.pool, b'.pools[k.pool]);
    StoreAnyPool(b, k, list);
    forall id | id in b'.pools
      ensures b'.pools[id].shield == Total(b'.lists, InPool(id))
    {
      StoreInPool(b, k, list, id);
    }
  }

  lemma StoreAnyPool(b: Book, k: Key, list: seq<Purchase>)
    ensures Total(StoreList(b.lists, k, list), AnyPool())
            == Total(b.lists, AnyPool()) + Sums(list, Shield()) - Sums(ListOf(b.lists, k), Shield())
  {
    StoreTotal(b.lists, k, list, AnyPool());
  }

  lemma StoreInPool(b: Book, k: Key, list: seq<Purchase>, id: nat)
    ensures Total(StoreList(b.lists, k, list), InPool(id)) == Total(b.lists, InPool(id))
            + (if id == k.pool then Sums(list, Shield()) - Sums(ListOf(b.lists, k), Shield()) else 0)
  {
    assert Sums([], Shield()) == 0;
    assert InPool(id)(k, []) == 0;
    StoreTotal(b.lists, k, list, InPool(id));
  }

  lemma ShieldNonNegative(b: Book)
    requires Inv(b)
    ensures 0 <= b.totalShield && forall id :: id in b.pools ==> 0 <= b.pools[id].shield
  {
    forall k | k in b.lists
      ensures 0 <= Sums(b.lists[k], Shield())
    {
      assert ListOk(b, b.lists[k]);
      SumsMonotone(b.lists[k], (p: Purchase) => 0, Shield());
      SumsZero(b.lists[k], (p: Purchase) => 0);
    }
    TotalNonNegative(b.lists, AnyPool());
    forall id | id in b.pools
      ensures 0 <= b.pools[id].shield
    {
      TotalNonNegative(b.lists, InPool(id));
    }
  }

  // ----- Purchasing -----

  /** Adds a purchase of `amount` whose protection ends at `end`. */
  function Add(b: Book, k: Key, amount: nat, end: int): Book
    requires k.pool in b.pools
  {
    var pool := b.pools[k.pool];
    var list := if k in b.lists then b.lists[k] else [];
    Book(b.pools[k.pool := pool.(shield := pool.shield + amount)],
         b.lists[k := list + [Purchase(b.nextId, end, end, amount)]],
         b.totalShield + amount, b.totalClaimed, b.nextId + 1)
  }

  lemma AddSums(b: Book, k: Key, amount: nat, end: int)
    requires ShieldSums(b) && k.pool in b.pools
    ensures ShieldSums(Add(b, k, amount, end))
  {
    var p := Purchase(b.nextId, end, end, amount);
    SumsSnoc(ListOf(b.lists, k), p, Shield());
    OneList(b, Add(b, k, amount, end), k, ListOf(b.lists, k) + [p], amount);
  }

  lemma AddKeeps(b: Book, k: Key, amount: nat, end: int)
    requires Inv(b) && k.pool in b.pools
    ensures Inv(Add(b, k, amount, end))
  {
    hide ShieldSums;
    var b' := Add(b, k, amount, end);
    AddSums(b, k, amount, end);
    forall j | j in b'.lists
      ensures j.pool in b'.pools && ListOk(b', b'.lists[j])
    {
      if j in b.lists {
        assert ListOk(b, b.lists[j]);
      }
    }
  }

  lemma AddAfter(b: Book, k: Key, amount: nat, end: int, t: int)
    requires k.pool in b.pools
    ensures Total(Add(b, k, amount, end).lists, EndingAfter(t)) == Total(b.lists, EndingAfter(t)) + (if end > t then amount else 0)
  {
    var p := Purchase(b.nextId, end, end, amount);
    SumsSnoc(ListOf(b.lists, k), p, ShieldAfter(t));
    assert Sums([], ShieldAfter(t)) == 0;
    StoreTotal(b.lists, k, ListOf(b.lists, k) + [p], EndingAfter(t));
  }

  /**
    Buys shield against `backing`, the collateral that is not being withdrawn. All shield and all
    claims must stay within it, and the pool within its own limit and its share of what is unclaimed.
  */
  function Buy(b: Book, backing: int, k: Key, amount: nat, paid: bool, end: int, rate: nat): Outcome
    requires b.totalShield >= 0
  {
    if k.pool !in b.pools then Err(NoPoolFound)
    else if !b.pools[k.pool].active then Err(PoolInactive)
    else if amount == 0 || !paid then Err(NoShield)
    else if b.totalShield + amount > backing - b.totalClaimed then Err(NotEnoughCollateral)
    else if amount + b.pools[k.pool].shield > Min(b.pools[k.pool].shieldLimit, Portion(backing - b.totalClaimed, rate)) then
      Err(PoolShieldExceedsLimit)
    else Ok(Add(b, k, amount, end))
  }

  /** Everything sold and everything claimed is within the backing, and the pool within its limit and its share of what is unclaimed. */
  ghost predicate WithinLimits(b: Book, backing: int, id: nat, rate: nat) {
    && b.totalShield + b.totalClaimed <= backing
    && id in b.pools && b.pools[id].shield <= b.pools[id].shieldLimit
    && b.pools[id].shield * ONE <= (backing - b.totalClaimed) * rate
  }

  lemma ShareIff(shield: int, available: nat, rate: nat)
    ensures shield <= Portion(available, rate) <==> shield * ONE <= available * rate
  {
    PortionBounds(available, rate);
  }

  /**
    Shield is sold exactly if there is something to sell in an active pool, it is paid for, and the
    book is within all limits once it is sold; and that book is the one there was with the purchase added.
  */
  lemma SoldIff(b: Book, backing: int, k: Key, amount: nat, paid: bool, end: int, rate: nat)
    requires b.totalShield >= 0
    ensures var bought := Buy(b, backing, k, amount, paid, end, rate);
            && (bought.Ok? <==>
                  && k.pool in b.pools && b.pools[k.pool].active && 0 < amount && paid
                  && WithinLimits(Add(b, k, amount, end), backing, k.pool, rate))
            && (bought.Ok? ==> bought.book == Add(b, k, amount, end))
            && !bought.Halt?
  {
    if k.pool in b.pools && b.totalShield + amount <= backing - b.totalClaimed {
      ShareIff(b.pools[k.pool].shield + amount, backing - b.totalClaimed, rate);
    }
    hide Portion;
  }

  /** With ten coins of collateral and six of them claimed, no eight coins of shield are sold. */
  lemma ClaimedIsNotSold(k: Key, end: int)
    ensures Buy(Book(map[k.pool := Pool(true, 100, 0)], map[], 0, 6, 1), 10, k, 8, true, end, ONE) == Err(NotEnoughCollateral)
  {
  }

  // ----- Expiry -----

  /** Whether the expiry loop removes a purchase; before the second update it also looked at unexpired ones. */
  predicate Removable(p: Purchase, now: int, updated: bool) {
    !(updated && p.protectionEnd > now) && p.deletion < now
  }

  function Keep(list: seq<Purchase>, now: int, updated: bool): seq<Purchase> {
    if list == [] then []
    else if Removable(list[0], now, updated) then Keep(list[1..], now, updated)
    else [list[0]] + Keep(list[1..], now, updated)
  }

  /** The shield of the purchases the expiry loop removes from a list. */
  function Dropped(list: seq<Purchase>, now: int, updated: bool): int {
    if list == [] then 0
    else (if Removable(list[0], now, updated) then list[0].shield else 0) + Dropped(list[1..], now, updated)
  }

  lemma {:induction false} KeepMembers(list: seq<Purchase>, now: int, updated: bool)
    ensures forall p :: p in Keep(list, now, updated) <==> p in list && !Removable(p, now, updated)
  {
    if list != [] {
      KeepMembers(list[1..], now, updated);
    }
  }

  lemma {:induction false} KeepSums(list: seq<Purchase>, now: int, updated: bool)
    ensures Sums(Keep(list, now, updated), Shield()) == Sums(list, Shield()) - Dropped(list, now, updated)
  {
    if list != [] {
      KeepSums(list[1..], now, updated);
      if !Removable(list[0], now, updated) {
        assert Keep(list, now, updated)[1..] == Keep(list[1..], now, updated);
      }
    }
  }

  lemma {:induction false} KeepDistinct(list: seq<Purchase>, now: int, updated: bool)
    requires Distinct(list)
    ensures Distinct(Keep(list, now, updated))
  {
    if list != [] {
      assert Distinct(list[1..]);
      KeepDistinct(list[1..], now, updated);
      KeepMembers(list[1..], now, updated);
      var rest := Keep(list[1..], now, updated);
      forall j | 0 <= j < |rest|
        ensures rest[j].id != list[0].id
      {
        assert rest[j] in rest;
        assert rest[j] in list[1..];
        var i :| 0 <= i < |list[1..]| && list[1..][i] == rest[j];
        assert list[i + 1] == rest[j];
      }
      if Removable(list[0], now, updated) {
        assert Keep(list, now, updated) == rest;
      } else {
        assert Keep(list, now, updated) == [list[0]] + rest;
      }
    }
  }

  /** Removed purchases no longer counted towards any later time anyway. */
  lemma {:induction false} KeepAfter(list: seq<Purchase>, now: int, updated: bool, t: int)
    requires t >= now && forall p :: p in list ==> p.protectionEnd <= p.deletion
    ensures Sums(Keep(list, now, updated), ShieldAfter(t)) == Sums(list, ShieldAfter(t))
  {
    if list != [] {
      KeepAfter(list[1..], now, updated, t);
      if !Removable(list[0], now, updated) {
        assert Keep(list, now, updated)[1..] == Keep(list[1..], now, updated);
      }
    }
  }

  /** Every list belongs to a pool that is there. */
  ghost predicate PoolsPresent(b: Book) {
    forall k :: k in b.lists ==> k.pool in b.pools
  }

  /** The expiry loop's visit to one purchase list. */
  function Visit(b: Book, k: Key, now: int, updated: bool): (b': Book)
    ensures PoolsPresent(b) ==> PoolsPresent(b')
    requires k in b.lists ==> k.pool in b.pools
  {
    if k !in b.lists then b else
    var list, pool := b.lists[k], b.pools[k.pool];
    var dropped := Dropped(list, now, updated);
    b.(lists := StoreList(b.lists, k, Keep(list, now, updated)),
       pools := b.pools[k.pool := pool.(shield := pool.shield - dropped)],
       totalShield := b.totalShield - dropped)
  }

  lemma VisitSums(b: Book, k: Key, now: int, updated: bool)
    requires Inv(b)
    ensures ShieldSums(Visit(b, k, now, updated))
  {
    if k in b.lists {
      KeepSums(b.lists[k], now, updated);
      OneList(b, Visit(b, k, now, updated), k, Keep(b.lists[k], now, updated), -Dropped(b.lists[k], now, updated));
    }
  }

  lemma KeepOk(b: Book, list: seq<Purchase>, now: int, updated: bool)
    requires ListOk(b, list) && Keep(list, now, updated) != []
    ensures ListOk(b, Keep(list, now, updated))
  {
    KeepMembers(list, now, updated);
    KeepDistinct(list, now, updated);
  }

  lemma VisitKeeps(b: Book, k: Key, now: int, updated: bool)
    requires Inv(b)
    ensures var b' := Visit(b, k, now, updated);
            && Inv(b')
            && b'.pools.Keys == b.pools.Keys
            && b'.lists.Keys <= b.lists.Keys
            && (k in b'.lists ==> forall p :: p in b'.lists[k] ==> !Removable(p, now, updated))
            && (forall j :: j != k && j in b.lists ==> j in b'.lists && b'.lists[j] == b.lists[j])
  {
    hide ShieldSums;
    if k in b.lists {
      var b' := Visit(b, k, now, updated);
      VisitSums(b, k, now, updated);
      KeepMembers(b.lists[k], now, updated);
      forall j | j in b'.lists
        ensures j.pool in b'.pools && ListOk(b', b'.lists[j])
      {
        assert ListOk(b, b.lists[j]);
        if j == k {
          KeepOk(b, b.lists[k], now, updated);
        }
      }
    }
  }

  lemma VisitAfter(b: Book, k: Key, now: int, updated: bool, t: int)
    requires Inv(b) && t >= now
    ensures Total(Visit(b, k, now, updated).lists, EndingAfter(t)) == Total(b.lists, EndingAfter(t))
  {
    if k in b.lists {
      assert ListOk(b, b.lists[k]);
      KeepAfter(b.lists[k], now, updated, t);
      StoreTotal(b.lists, k, Keep(b.lists[k], now, updated), EndingAfter(t));
    }
  }

  /** The visits of one block, in queue order. */
  function VisitAll(b: Book, visits: seq<Key>, now: int, updated: bool): (b': Book)
    requires PoolsPresent(b)
    ensures PoolsPresent(b')
    decreases |visits|
  {
    if visits == [] then b else VisitAll(Visit(b, visits[0], now, updated), visits[1..], now, updated)
  }

  /** A whole expiry keeps all sums, removes nothing that still protects, and leaves nothing removable behind. */
  lemma {:induction false} VisitAllKeeps(b: Book, visits: seq<Key>, now: int, updated: bool)
    requires Inv(b)
    ensures var b' := VisitAll(b, visits, now, updated);
            && Inv(b')
            && b'.pools.Keys == b.pools.Keys
            && b'.lists.Keys <= b.lists.Keys
            && (forall k :: k in b'.lists && k in visits ==> forall p :: p in b'.lists[k] ==> !Removable(p, now, updated))
            && (forall k :: k !in visits && k in b.lists ==> k in b'.lists && b'.lists[k] == b.lists[k])
            && forall t :: t >= now ==> Total(b'.lists, EndingAfter(t)) == Total(b.lists, EndingAfter(t))
    decreases |visits|
  {
    if visits != [] {
      hide Inv, Visit, Removable;
      var m := Visit(b, visits[0], now, updated);
      VisitKeeps(b, visits[0], now, updated);
      forall t | t >= now
        ensures Total(m.lists, EndingAfter(t)) == Total(b.lists, EndingAfter(t))
      {
        VisitAfter(b, visits[0], now, updated, t);
      }
      VisitAllKeeps(m, visits[1..], now, updated);
    }
  }

  /** An expiry invents no purchase and changes none. */
  lemma {:induction false} VisitAllMembers(b: Book, visits: seq<Key>, now: int, updated: bool)
    requires PoolsPresent(b)
    ensures var b' := VisitAll(b, visits, now, updated);
            && b'.totalClaimed == b.totalClaimed
            && b'.nextId == b.nextId
            && forall k, p :: k in b'.lists && p in b'.lists[k] ==> k in b.lists && p in b.lists[k]
    decreases |visits|
  {
    if visits != [] {
      if visits[0] in b.lists {
        KeepMembers(b.lists[visits[0]], now, updated);
      }
      VisitAllMembers(Visit(b, visits[0], now, updated), visits[1..], now, updated);
    }
  }

  lemma {:induction false} VisitAllAppend(b: Book, visits: seq<Key>, more: seq<Key>, now: int, updated: bool)
    requires PoolsPresent(b)
    ensures VisitAll(b, visits + more, now, updated) == VisitAll(VisitAll(b, visits, now, updated), more, now, updated)
    decreases |visits|
  {
    if visits == [] {
      assert visits + more == more;
    } else {
      assert (visits + more)[1..] == visits[1..] + more;
      VisitAllAppend(Visit(b, visits[0], now, updated), visits[1..], more, now, updated);
    }
  }
}
