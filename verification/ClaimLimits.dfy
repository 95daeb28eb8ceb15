/** Where the life of a claim breaks the shield sums: exactly when, and an input for each case. */
module ClaimLimits {
  import opened Split
  import opened Totals
  import opened WithdrawQueue
  import opened Purchases
  import opened Claims
  import opened Market
  import Gov

  lemma Kept(list: seq<Purchase>, i: nat, now: int, updated: bool)
    requires Distinct(list) && i < |list|
    ensures Find(Keep(list, now, updated), list[i].id) < |Keep(list, now, updated)| <==> !Removable(list[i], now, updated)
  {
    var kept := Keep(list, now, updated);
    KeepMembers(list, now, updated);
    if !Removable(list[i], now, updated) {
      FindMember(kept, list[i]);
    } else {
      forall p | p in kept
        ensures p.id != list[i].id
      {
        var j :| 0 <= j < |list| && list[j] == p;
      }
      FindNone(kept, list[i].id);
    }
  }

  lemma {:induction false} FindNone(list: seq<Purchase>, id: nat)
    requires forall p :: p in list ==> p.id != id
    ensures Find(list, id) == |list|
  {
    if list != [] {
      FindNone(list[1..], id);
    }
  }

  lemma SamePurchase(list: seq<Purchase>, i: nat, j: nat)
    requires Distinct(list) && i < |list| && j < |list| && list[i].id == list[j].id
    ensures i == j
  {
  }

  lemma VisitRestorable(b: Book, k: Key, i: nat, now: int, updated: bool)
    requires Inv(b) && k in b.lists && i < |b.lists[k]|
    ensures Restorable(Visit(b, k, now, updated), k, b.lists[k][i].id) <==> now <= b.lists[k][i].deletion
  {
    assert ListOk(b, b.lists[k]);
    assert b.lists[k][i] in b.lists[k];
    Kept(b.lists[k], i, now, updated);
  }

  /**
    The lock is kept exactly as long as the clock says: rejecting a claim after an expiry at `now`
    gives the sums back exactly if neither the purchase's own life nor the lock was over by then.
  */
  lemma RestoreAfterExpiryIff(b: Book, totalCollateral: int, k: Key, i: nat, loss: nat, lockEnd: int, now: int, updated: bool)
    requires Inv(b) && k in b.lists && i < |b.lists[k]|
    requires Secure(b, totalCollateral, k, b.lists[k][i].id, loss, lockEnd).Ok?
    ensures var p := b.lists[k][i];
            var secured := Secure(b, totalCollateral, k, p.id, loss, lockEnd).book;
            var expired := Visit(secured, k, now, updated);
            ShieldSums(Restore(expired, k, p.id, loss).0) <==> loss == 0 || now <= Max(p.deletion, lockEnd)
  {
    var p := b.lists[k][i];
    var secured := Secure(b, totalCollateral, k, p.id, loss, lockEnd).book;
    assert ListOk(b, b.lists[k]);
    SamePurchase(b.lists[k], i, Position(b.lists[k], p.id));
    SecureKeeps(b, totalCollateral, k, p.id, loss, lockEnd);
    assert secured.lists[k][i] == Claimed(p, loss, lockEnd);
    hide Inv, Secure, Restore, ShieldSums, Visit;
    VisitKeeps(secured, k, now, updated);
    SumsOf(Visit(secured, k, now, updated));
    VisitRestorable(secured, k, i, now, updated);
    RestoreKeepsIff(Visit(secured, k, now, updated), k, p.id, loss);
  }

  lemma SumsOf(b: Book)
    requires Inv(b)
    ensures ShieldSums(b)
  {
  }

  function Nothing(): Book {
    Book(map[], map[], 0, 0, 1)
  }

  /** One purchase of one unit, by purchaser 1 in pool 1, protected until 5. */
  function OneUnit(): Book {
    Book(map[1 := Pool(true, 1, 1)], map[Key(1, 1) := [Purchase(1, 5, 5, 1)]], 1, 0, 2)
  }

  lemma OneUnitKeeps()
    ensures OneUnit() == Add(OpenPool(Nothing(), 1, 1), Key(1, 1), 1, 5) && Inv(OneUnit())
  {
    var open := OpenPool(Nothing(), 1, 1);
    OpenKeeps(Nothing(), 1, 1);
    hide Inv;
    AddKeeps(open, Key(1, 1), 1, 5);
    var bought := Add(open, Key(1, 1), 1, 5);
    assert bought.pools == OneUnit().pools;
    assert [] + [Purchase(1, 5, 5, 1)] == [Purchase(1, 5, 5, 1)];
    assert bought.lists == OneUnit().lists;
  }

  /** The same, with all of it claimed and locked until 10. */
  function OneUnitSecured(): Book {
    Book(map[1 := Pool(true, 1, 0)], map[Key(1, 1) := [Purchase(1, 5, 10, 0)]], 0, 1, 2)
  }

  lemma OneUnitSecures()
    ensures Secure(OneUnit(), 1, Key(1, 1), 1, 1, 10) == Ok(OneUnitSecured()) && Inv(OneUnitSecured())
  {
    OneUnitKeeps();
    OneUnitTaken();
    hide Inv, TakeLoss, Add, OpenPool, Secure, OneUnitSecured;
    SecuresAll(OneUnit(), Key(1, 1));
  }

  lemma SecuresAll(b: Book, k: Key)
    requires Inv(b) && k.pool in b.pools && b.pools[k.pool].shield == 1 && b.totalClaimed == 0
    requires k in b.lists && b.lists[k] == [Purchase(1, 5, 5, 1)]
    ensures Secure(b, 1, k, 1, 1, 10) == Ok(TakeLoss(b, k, 0, 1, 10)) && Inv(TakeLoss(b, k, 0, 1, 10))
  {
    hide Inv, TakeLoss;
    TakeLossKeeps(b, k, 0, 1, 10);
  }

  lemma OneUnitTaken()
    ensures TakeLoss(OneUnit(), Key(1, 1), 0, 1, 10) == OneUnitSecured()
  {
    var secured := TakeLoss(OneUnit(), Key(1, 1), 0, 1, 10);
    assert secured.pools == OneUnitSecured().pools;
    assert OneUnit().lists[Key(1, 1)][0 := Purchase(1, 5, 10, 0)] == [Purchase(1, 5, 10, 0)];
    assert secured.lists == OneUnitSecured().lists;
  }

  /** A claim locked until 10 and rejected after an expiry at 11: the purchase is gone, and its shield comes back without it. */
  lemma RestoredTooLate()
    ensures PoolsPresent(OneUnitSecured())
    ensures !ShieldSums(ClaimEnd(Restore(Visit(OneUnitSecured(), Key(1, 1), 11, true), Key(1, 1), 1, 1).0, 1))
  {
    OneUnitKeeps();
    OneUnitSecures();
    hide Inv, Add, OpenPool, Secure, Restore, Visit, OneUnitSecured, ShieldSums, PoolsPresent, ClaimEnd;
    TooLate(OneUnit(), Key(1, 1), OneUnitSecured());
  }

  lemma TooLate(b: Book, k: Key, secured: Book)
    requires Inv(b) && k in b.lists && b.lists[k] == [Purchase(1, 5, 5, 1)]
    requires Secure(b, 1, k, 1, 1, 10) == Ok(secured)
    ensures PoolsPresent(secured) && !ShieldSums(ClaimEnd(Restore(Visit(secured, k, 11, true), k, 1, 1).0, 1))
  {
    SecureKeeps(b, 1, k, 1, 1, 10);
    assert PoolsPresent(secured);
    hide Inv, Secure, Restore, Visit, ShieldSums;
    RestoreAfterExpiryIff(b, 1, k, 0, 1, 10, 11, true);
    SameSums(Restore(Visit(secured, k, 11, true), k, 1, 1).0, 1);
  }

  lemma SameSums(b: Book, loss: nat)
    ensures ShieldSums(ClaimEnd(b, loss)) <==> ShieldSums(b)
  {
  }

  /** A claim proposed by another than the purchaser and rejected: the shield goes to a purchase that is not there. */
  lemma RestoredToAnother()
    ensures var kind := Gov.Claim(1, 1, 1, 1);
            var p := Gov.Proposal(kind, 2, Gov.CertifierVoting, false, 0, 0, 0, 0, 0);
            !ShieldSums(Gov.EndRejected(OneUnitSecured(), p))
  {
    OneUnitSecures();
    RestoreKeepsIff(OneUnitSecured(), Key(1, 2), 1, 1);
  }

  /** A pool with a negative limit whose only purchase is fully claimed is closed under that purchase. */
  lemma ClosedUnderPurchase()
    ensures Inv(SetPool(OneUnitSecured(), 1, true, -1)) && !PoolsPresent(ClosePools(SetPool(OneUnitSecured(), 1, true, -1)))
  {
    OneUnitSecures();
    SetKeeps(OneUnitSecured(), 1, true, -1);
    assert Key(1, 1) in ClosePools(SetPool(OneUnitSecured(), 1, true, -1)).lists;
  }
}
