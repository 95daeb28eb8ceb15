/** The life of a claim on a purchase: securing takes its loss off the shield, restoring puts it back. */
module Claims {
  import opened Split
  import opened Totals
  import opened WithdrawQueue
  import opened Purchases

  /** The position of the first purchase with the given id; the length of the list when there is none. */
  function Find(list: seq<Purchase>, id: nat): (i: nat)
    ensures i <= |list|
    ensures i < |list| ==> list[i].id == id
    ensures forall j :: 0 <= j < i ==> list[j].id != id
  {
    if list == [] then 0 else if list[0].id == id then 0 else 1 + Find(list[1..], id)
  }

  /** The position securing works on: that of the purchase, or the first when it is not in the list. */
  function Position(list: seq<Purchase>, id: nat): (i: nat)
    requires list != []
    ensures i < |list|
  {
    if Find(list, id) < |list| then Find(list, id) else 0
  }

  /** A purchase after a claim: less shield, and kept at least until the lock ends. */
  function Claimed(p: Purchase, loss: nat, lockEnd: int): Purchase {
    p.(shield := p.shield - loss, deletion := Max(p.deletion, lockEnd))
  }

  /** Stores a purchase, the shield of its pool and of the total changed by `delta`, and the claimed total. */
  function Rebook(b: Book, k: Key, i: nat, p: Purchase, delta: int, claimed: int): Book
    requires k.pool in b.pools && k in b.lists && i < |b.lists[k]|
  {
    var pool := b.pools[k.pool];
    b.(lists := b.lists[k := b.lists[k][i := p]],
       pools := b.pools[k.pool := pool.(shield := pool.shield + delta)],
       totalShield := b.totalShield + delta, totalClaimed := claimed)
  }

  /** Takes a loss off a purchase, its pool and the total, and adds it to the claimed total. */
  function TakeLoss(b: Book, k: Key, i: nat, loss: nat, lockEnd: int): Book
    requires k.pool in b.pools && k in b.lists && i < |b.lists[k]|
  {
    Rebook(b, k, i, Claimed(b.lists[k][i], loss, lockEnd), 0 - (loss as int), b.totalClaimed + loss)
  }

  /** Secures a claim on a purchase; without the purchase, it works on the first of the list. */
  function Secure(b: Book, totalCollateral: int, k: Key, id: nat, loss: nat, lockEnd: int): Outcome
    requires k in b.lists ==> b.lists[k] != []
  {
    if k.pool !in b.pools then Err(NoPoolFound)
    else if loss > b.pools[k.pool].shield then Err(NotEnoughShield)
    else if b.totalClaimed + loss > totalCollateral then Halt
    else if k !in b.lists then Err(PurchaseNotFound)
    else
      var i := Position(b.lists[k], id);
      if loss > b.lists[k][i].shield then Err(NotEnoughShield)
      else if totalCollateral == 0 then Halt
      else Ok(TakeLoss(b, k, i, loss, lockEnd))
  }

  /** Puts a loss back; the total and the pool are already stored when the purchase is looked for. */
  function Restore(b: Book, k: Key, id: nat, loss: nat): (Book, bool) {
    var b := b.(totalShield := b.totalShield + loss);
    if k.pool !in b.pools then (b, false) else
    var pool := b.pools[k.pool];
    var b := b.(pools := b.pools[k.pool := pool.(shield := pool.shield + loss)]);
    if k !in b.lists then (b, false) else
    var list := b.lists[k];
    var i := Find(list, id);
    if i == |list| then (b, true)
    else (b.(lists := b.lists[k := list[i := list[i].(shield := list[i].shield + loss)]]), true)
  }

  function ClaimEnd(b: Book, loss: nat): Book {
    b.(totalClaimed := b.totalClaimed - loss)
  }

  /** Making the reimbursement takes the loss off the claimed total, and leaves the shield as it is. */
  function Reimburse(b: Book, loss: nat): Book {
    b.(totalClaimed := b.totalClaimed - loss)
  }

  lemma RebookSums(b: Book, k: Key, i: nat, p: Purchase, delta: int, claimed: int)
    requires ShieldSums(b) && k.pool in b.pools && k in b.lists && i < |b.lists[k]|
    requires p.shield == b.lists[k][i].shield + delta
    ensures ShieldSums(Rebook(b, k, i, p, delta, claimed))
  {
    SumsSet(b.lists[k], i, p, Shield());
    OneList(b, Rebook(b, k, i, p, delta, claimed), k, b.lists[k][i := p], delta);
  }

  lemma RebookKeeps(b: Book, k: Key, i: nat, p: Purchase, delta: int, claimed: int)
    requires Inv(b) && k in b.lists && i < |b.lists[k]|
    requires p.shield == b.lists[k][i].shield + delta >= 0 && p.id == b.lists[k][i].id && p.protectionEnd <= p.deletion
    ensures Inv(Rebook(b, k, i, p, delta, claimed))
  {
    var b' := Rebook(b, k, i, p, delta, claimed);
    RebookSums(b, k, i, p, delta, claimed);
    assert ListOk(b, b.lists[k]);
    SetOk(b, b.lists[k], i, p);
    forall j | j in b'.lists
      ensures j.pool in b'.pools && ListOk(b', b'.lists[j])
    {
      assert ListOk(b, b'.lists[j]);
    }
  }

  lemma SetOk(b: Book, list: seq<Purchase>, i: nat, p: Purchase)
    requires ListOk(b, list) && i < |list| && p.id == list[i].id && p.shield >= 0 && p.protectionEnd <= p.deletion
    ensures ListOk(b, list[i := p])
  {
    assert list[i] in list;
  }

  lemma TakeLossKeeps(b: Book, k: Key, i: nat, loss: nat, lockEnd: int)
    requires Inv(b) && k in b.lists && i < |b.lists[k]| && loss <= b.lists[k][i].shield
    ensures Inv(TakeLoss(b, k, i, loss, lockEnd))
  {
    ClaimedOk(b, b.lists[k], i, loss, lockEnd);
    var p, delta: int, claimed := Claimed(b.lists[k][i], loss, lockEnd), 0 - (loss as int), b.totalClaimed + loss;
    var b' := Rebook(b, k, i, p, delta, claimed);
    RebookKeeps(b, k, i, p, delta, claimed);
    assert Inv(b');
    assert TakeLoss(b, k, i, loss, lockEnd) == b';
  }

  lemma PoolOf(b: Book, k: Key)
    requires Inv(b) && k in b.lists
    ensures k.pool in b.pools
  {
  }

  lemma TakeLossTotals(b: Book, k: Key, i: nat, loss: nat, lockEnd: int)
    requires k.pool in b.pools && k in b.lists && i < |b.lists[k]|
    ensures TakeLoss(b, k, i, loss, lockEnd).totalClaimed == b.totalClaimed + loss
  {
  }

  lemma ClaimedOk(b: Book, list: seq<Purchase>, i: nat, loss: nat, lockEnd: int)
    requires ListOk(b, list) && i < |list|
    ensures Claimed(list[i], loss, lockEnd).protectionEnd <= Claimed(list[i], loss, lockEnd).deletion
  {
    assert list[i] in list;
  }

  /** Securing moves the loss from the shield to the claimed total and keeps every sum. */
  lemma SecureKeeps(b: Book, totalCollateral: int, k: Key, id: nat, loss: nat, lockEnd: int)
    requires Inv(b) && (k in b.lists ==> b.lists[k] != []) && Secure(b, totalCollateral, k, id, loss, lockEnd).Ok?
    ensures var b' := Secure(b, totalCollateral, k, id, loss, lockEnd).book;
            && Inv(b')
            && b'.totalShield == b.totalShield - loss
            && b'.totalClaimed == b.totalClaimed + loss <= totalCollateral
  {
    TakeLossKeeps(b, k, Position(b.lists[k], id), loss, lockEnd);
  }

  /** Rejecting a claim at once undoes it: pool, totals and purchase shield are as before, only the deletion time moved. */
  lemma SecureThenRestore(b: Book, totalCollateral: int, k: Key, id: nat, loss: nat, lockEnd: int)
    requires k in b.lists ==> b.lists[k] != []
    requires Secure(b, totalCollateral, k, id, loss, lockEnd).Ok?
    requires Find(b.lists[k], id) < |b.lists[k]|
    ensures var secured := Secure(b, totalCollateral, k, id, loss, lockEnd).book;
            var (restored, found) := Restore(secured, k, id, loss);
            var i := Find(b.lists[k], id);
            && found
            && ClaimEnd(restored, loss)
            == b.(lists := b.lists[k := b.lists[k][i := b.lists[k][i].(deletion := Max(b.lists[k][i].deletion, lockEnd))]])
  {
    var list, i := b.lists[k], Find(b.lists[k], id);
    var p := Claimed(list[i], loss, lockEnd);
    SameFind(list, list[i := p], id);
    assert list[i := p][i := p.(shield := p.shield + loss)] == list[i := list[i].(deletion := Max(list[i].deletion, lockEnd))];
    var secured := Secure(b, totalCollateral, k, id, loss, lockEnd).book;
    assert secured.lists[k] == list[i := p];
    assert secured.pools[k.pool].(shield := secured.pools[k.pool].shield + loss) == b.pools[k.pool];
    assert Restore(secured, k, id, loss).0.pools == b.pools;
  }

  lemma {:induction false} SameFind(list: seq<Purchase>, list': seq<Purchase>, id: nat)
    requires |list| == |list'| && forall j :: 0 <= j < |list| ==> list'[j].id == list[j].id
    ensures Find(list, id) == Find(list', id)
  {
    if list != [] && list[0].id != id {
      SameFind(list[1..], list'[1..], id);
    }
  }

  /** Whether restoring finds the pool, the list and the purchase. */
  predicate Restorable(b: Book, k: Key, id: nat) {
    k.pool in b.pools && k in b.lists && Find(b.lists[k], id) < |b.lists[k]|
  }

  lemma RestoreRebooks(b: Book, k: Key, id: nat, loss: nat)
    requires Restorable(b, k, id)
    ensures var i := Find(b.lists[k], id);
            Restore(b, k, id, loss).0 == Rebook(b, k, i, b.lists[k][i].(shield := b.lists[k][i].shield + loss), loss, b.totalClaimed)
  {
  }

  lemma RestoreFound(b: Book, k: Key, id: nat, loss: nat)
    requires ShieldSums(b) && Restorable(b, k, id)
    ensures ShieldSums(Restore(b, k, id, loss).0)
  {
    hide Restore, ShieldSums, Rebook;
    var i := Find(b.lists[k], id);
    var p := b.lists[k][i].(shield := b.lists[k][i].shield + loss);
    RebookSums(b, k, i, p, loss, b.totalClaimed);
    RestoreRebooks(b, k, id, loss);
  }

  /** Restoring a purchase that is there keeps everything, and changes no other purchase. */
  lemma RestoreKeeps(b: Book, k: Key, id: nat, loss: nat)
    requires Inv(b) && Restorable(b, k, id)
    ensures var b', i := Restore(b, k, id, loss).0, Find(b.lists[k], id);
            Inv(b') && b'.lists == b.lists[k := b.lists[k][i := b.lists[k][i].(shield := b.lists[k][i].shield + loss)]]
  {
    hide Restore, Inv, Find;
    var i := Find(b.lists[k], id);
    var p := b.lists[k][i].(shield := b.lists[k][i].shield + loss);
    ListsOk(b, k, i);
    RestoreRebooks(b, k, id, loss);
    RebookKeeps(b, k, i, p, loss, b.totalClaimed);
  }

  lemma ListsOk(b: Book, k: Key, i: nat)
    requires Inv(b) && k in b.lists && i < |b.lists[k]|
    ensures b.lists[k][i].shield >= 0 && b.lists[k][i].protectionEnd <= b.lists[k][i].deletion
  {
    assert ListOk(b, b.lists[k]);
    assert b.lists[k][i] in b.lists[k];
  }

  /**
    Restoring keeps the shield sums exactly when the pool, the purchaser's list and the purchase are
    all still there; otherwise the totals already written no longer match the purchases.
  */
  lemma RestoreKeepsIff(b: Book, k: Key, id: nat, loss: nat)
    requires ShieldSums(b)
    ensures ShieldSums(Restore(b, k, id, loss).0) <==> loss == 0 || Restorable(b, k, id)
  {
    var b' := Restore(b, k, id, loss).0;
    if Restorable(b, k, id) {
      RestoreFound(b, k, id, loss);
    } else if k.pool !in b.pools {
      assert b'.pools == b.pools && b'.lists == b.lists;
    } else {
      assert b'.lists == b.lists;
      assert b'.pools[k.pool].shield == Total(b.lists, InPool(k.pool)) + loss;
      if loss == 0 {
        assert b'.pools == b.pools;
      }
    }
  }

  // ----- Pools -----

  function OpenPool(b: Book, id: nat, limit: int): Book {
    b.(pools := b.pools[id := Pool(true, limit, 0)])
  }

  function SetPool(b: Book, id: nat, active: bool, limit: int): Book {
    if id in b.pools then b.(pools := b.pools[id := Pool(active, limit, b.pools[id].shield)]) else b
  }

  predicate Closable(p: Pool) {
    p.shield <= 0 && p.shieldLimit <= 0
  }

  /** Deletes the pools with neither shield nor a shield limit. */
  function ClosePools(b: Book): Book {
    b.(pools := map id | id in b.pools && !Closable(b.pools[id]) :: b.pools[id])
  }

  /** A pool is closed exactly if nothing of it is sold and nothing may be; the others stay as they are. */
  lemma ClosedIff(b: Book, id: nat)
    requires id in b.pools
    ensures var pools := ClosePools(b).pools;
            && (id !in pools <==> b.pools[id].shield <= 0 && b.pools[id].shieldLimit <= 0)
            && (id in pools ==> pools[id] == b.pools[id])
  {
  }

  /** Configuring a pool changes what may be sold of it from now on, and neither what is sold nor any other pool. */
  lemma ConfiguredOnly(b: Book, id: nat, active: bool, limit: int, other: nat)
    ensures var b' := SetPool(b, id, active, limit);
            && b' == b.(pools := b'.pools) && b'.pools.Keys == b.pools.Keys
            && (other in b.pools ==> b'.pools[other].shield == b.pools[other].shield && (other != id ==> b'.pools[other] == b.pools[other]))
            && (id in b.pools ==> b'.pools[id].active == active && b'.pools[id].shieldLimit == limit)
  {
  }

  /** Closing keeps every purchase's pool exactly when no purchase is left in a closable pool. */
  lemma ClosePoolsKeepsIff(b: Book)
    requires Inv(b) && forall id :: id in b.pools ==> b.pools[id].shield >= 0
    ensures Inv(ClosePools(b)) <==> forall k :: k in b.lists ==> !Closable(b.pools[k.pool])
  {
    var b' := ClosePools(b);
    CloseTotal(b.pools, b'.pools);
    if forall k :: k in b.lists ==> !Closable(b.pools[k.pool]) {
      forall k | k in b'.lists
        ensures k.pool in b'.pools && ListOk(b', b'.lists[k])
      {
        assert ListOk(b, b.lists[k]);
      }
    } else {
      var k :| k in b.lists && Closable(b.pools[k.pool]);
      assert k in b'.lists && k.pool !in b'.pools;
    }
  }

  lemma {:induction false} CloseTotal(m: map<nat, Pool>, m': map<nat, Pool>)
    requires forall id :: id in m ==> m[id].shield >= 0
    requires m' == map id | id in m && !Closable(m[id]) :: m[id]
    ensures Total(m', PoolShield) == Total(m, PoolShield)
    decreases |m|
  {
    if m != map[] {
      var id := Pick(m);
      CloseTotal(m - {id}, map j | j in m - {id} && !Closable((m - {id})[j]) :: (m - {id})[j]);
      assert (map j | j in m - {id} && !Closable((m - {id})[j]) :: (m - {id})[j]) == m' - {id};
      TotalDelete(m', PoolShield, id);
    } else {
      assert m' == map[];
    }
  }
}
