/** The keeper of pools and purchases: the store is updated in place. */
module ShieldKeeper {
  import opened Dec
  import opened Split
  import opened Totals
  import opened WithdrawQueue
  import opened Purchases
  import opened Claims
  import C = Collateral
  import CollateralKeeper
  import E = Expiring
  import R = Reimbursed
  import S = Securing

  /** `Halted` stands for a panic. */
  datatype Result = Done | Failed(error: Error) | Halted

  function Shrunk(pools: map<nat, Pool>, id: nat, amount: int): map<nat, Pool>
    requires id in pools
  {
    pools[id := pools[id].(shield := pools[id].shield - amount)]
  }

  lemma ShrunkNothing(pools: map<nat, Pool>, id: nat)
    requires id in pools
    ensures Shrunk(pools, id, 0) == pools
  {
  }

  lemma ShrunkTwice(pools: map<nat, Pool>, id: nat, x: int, y: int)
    requires id in pools
    ensures Shrunk(Shrunk(pools, id, x), id, y) == Shrunk(pools, id, x + y)
  {
  }

  /** Until `end`, the collateral left after all withdrawals covers `total`. */
  ghost predicate Locked(l: C.Ledger, total: int, end: int) {
    forall t :: t < end ==> Measure(l.queue, DueBy(t)) + total <= l.totalCollateral
  }

  /** A claim that can be secured is, if stakes last, and halts otherwise; an error changes nothing. */
  ghost predicate Answers(r: Result, secured: Outcome, last: bool, b: Book, b': Book) {
    match secured
    case Ok(after) => if last then r.Done? && b' == after else r.Halted?
    case Err(e) => r == Failed(e) && b' == b
    case Halt => r.Halted?
  }

  /** The providers' shares of a claimed total. */
  ghost function LockShares(l: C.Ledger, order: seq<Address>, total: nat): seq<nat>
    requires R.Solvent(l, order) && 0 < l.totalCollateral
  {
    Shares(R.Amounts(l, order), Ratio(total, l.totalCollateral), total)
  }

  /** The total is within what can be asked of the providers. */
  ghost predicate Coverable(l: C.Ledger, order: seq<Address>, total: nat) {
    R.Solvent(l, order) && 0 < l.totalCollateral && total <= Caps(R.Amounts(l, order), Ratio(total, l.totalCollateral))
  }

  /** Collateral below the limit can always be asked for any total within it. */
  lemma BelowTheLimitCoverable(l: C.Ledger, order: seq<Address>, total: nat)
    requires C.Inv(l) && Enumerates(order, l.providers) && total <= l.totalCollateral && 0 < l.totalCollateral < SPLIT_LIMIT
    ensures Coverable(l, order, total)
  {
    R.AmountsTotal(l, order);
    SharesExact(R.Amounts(l, order), total);
    SharesExactIff(R.Amounts(l, order), total);
  }

  class Keeper {
    const collateral: CollateralKeeper.Keeper
    var pools: map<nat, Pool>
    var lists: map<Key, seq<Purchase>>
    var totalShield: int
    var totalClaimed: int
    var nextId: nat
    var expiring: E.Slices

    ghost function View(): Book
      reads this
    {
      Book(pools, lists, totalShield, totalClaimed, nextId)
    }

    constructor (collateral: CollateralKeeper.Keeper)
      ensures this.collateral == collateral
      ensures View() == Book(map[], map[], 0, 0, 1) && expiring == map[]
      ensures Inv(View()) && E.AllMirrored(expiring, lists)
    {
      this.collateral := collateral;
      pools, lists, totalShield, totalClaimed, nextId, expiring := map[], map[], 0, 0, 1, map[];
    }

    /** Takes a list out of the queue once, at the given time. */
    method DequeuePurchase(k: Key, t: int)
      modifies `expiring
      ensures expiring == E.Dequeue(old(expiring), k, t)
    {
      var slice := E.SliceAt(expiring, t);
      for i := 0 to |slice|
        invariant expiring == old(expiring)
        invariant forall j :: 0 <= j < i ==> slice[j] != k
      {
        if slice[i] == k {
          E.WithoutAt(slice, k, i);
          if |slice| > 1 {
            expiring := expiring[t := slice[..i] + slice[i + 1..]];
            return;
          }
          expiring := expiring - {t};
          return;
        }
      }
    }

    /** Deletes the `i`-th purchase of a list, with its queue entry and its part of the pool's shield. */
    method RemovePurchase(k: Key, list: seq<Purchase>, i: nat, total: int) returns (list': seq<Purchase>, total': int)
      requires k.pool in pools && i < |list|
      modifies `pools, `expiring
      ensures list' == list[..i] + list[i + 1..] && total' == total - list[i].shield
      ensures pools == Shrunk(old(pools), k.pool, list[i].shield)
      ensures E.Mirrors(old(expiring), k, list) ==> E.Mirrors(expiring, k, list')
      ensures E.SameExcept(old(expiring), expiring, k)
    {
      var p := list[i];
      assert list == list[..i] + [p] + list[i + 1..];
      if E.Mirrors(expiring, k, list) {
        E.RemoveMirrors(expiring, k, list[..i], p, list[i + 1..]);
      }
      E.DequeueOthers(expiring, k, p.protectionEnd);
      DequeuePurchase(k, p.protectionEnd);
      list' := list[..i] + list[i + 1..];
      var pool := pools[k.pool];
      total' := total - p.shield;
      pools := pools[k.pool := pool.(shield := pool.shield - p.shield)];
    }

    /** Walks a list, deleting its expired purchases on the way; the missing-pool panic is unreachable. */
    method WalkList(k: Key, all: seq<Purchase>, now: int, updated: bool, total: int) returns (list: seq<Purchase>, total': int)
      requires k.pool in pools
      modifies `pools, `expiring
      ensures list == Keep(all, now, updated) && total' == total - Dropped(all, now, updated)
      ensures pools == Shrunk(old(pools), k.pool, Dropped(all, now, updated))
      ensures E.Mirrors(old(expiring), k, all) ==> E.Mirrors(expiring, k, list)
      ensures E.SameExcept(old(expiring), expiring, k)
    {
      hide Keep, Dropped, E.Mirrors, E.Progress, E.Queued;
      E.ProgressNone(all, now, updated);
      ShrunkNothing(pools, k.pool);
      list, total' := all, total;
      var i: nat := 0;
      ghost var done: nat, dropped := 0, 0;
      while i < |list|
        invariant E.Progress(all, done, list, i, now, updated) && done <= |all| && dropped == Dropped(all[..done], now, updated)
        invariant k.pool in pools && pools == Shrunk(old(pools), k.pool, dropped) && total' == total - dropped
        invariant E.Mirrors(old(expiring), k, all) ==> E.Mirrors(expiring, k, list)
        invariant E.SameExcept(old(expiring), expiring, k)
        decreases |list| - i
      {
        var p := list[i];
        E.ProgressStep(all, done, list, i, now, updated);
        done := done + 1;
        if updated && p.protectionEnd > now {
          i := i + 1;
        } else if p.deletion < now {
          if k.pool !in pools {
            assert false;
          }
          ShrunkTwice(old(pools), k.pool, dropped, p.shield);
          list, total' := RemovePurchase(k, list, i, total');
          dropped := dropped + p.shield;
        } else {
          i := i + 1;
        }
      }
      E.ProgressDone(all, done, list, i, now, updated);
    }

    /** Removes the expired purchases of one list. */
    method ExpireList(k: Key, now: int, updated: bool, total: int) returns (total': int)
      requires k in lists ==> k.pool in pools
      modifies `pools, `lists, `expiring
      ensures View().(totalShield := total') == Visit(old(View()).(totalShield := total), k, now, updated)
      ensures E.Mirrors(old(expiring), k, ListOf(old(lists), k)) ==> E.Mirrors(expiring, k, ListOf(lists, k))
      ensures E.SameExcept(old(expiring), expiring, k)
    {
      if k !in lists {
        return total;
      }
      var list;
      list, total' := WalkList(k, lists[k], now, updated, total);
      lists := StoreList(lists, k, list);
    }
  
    /** The store as the expiry loop sees it: the total shield is kept in a variable until the end. */
    ghost function Staged(total: int): Book
      reads this
    {
      View().(totalShield := total)
    }

    /** One visit, the queue staying in step with the lists. */
    method Visited(k: Key, now: int, updated: bool, total: int) returns (total': int)
      requires PoolsPresent(View()) && E.AllMirrored(expiring, lists)
      modifies `pools, `lists, `expiring
      ensures Staged(total') == Visit(old(Staged(total)), k, now, updated)
      ensures PoolsPresent(View()) && E.AllMirrored(expiring, lists)
    {
      ghost var before := Staged(total);
      E.VisitOthers(before, k, now, updated);
      assert E.Mirrors(expiring, k, ListOf(lists, k));
      total' := ExpireList(k, now, updated, total);
      E.VisitMirrors(old(expiring), expiring, before, Staged(total'), k);
    }

    method ExpireSlice(slice: seq<Key>, now: int, updated: bool, total: int) returns (total': int)
      requires PoolsPresent(View()) && E.AllMirrored(expiring, lists)
      modifies `pools, `lists, `expiring
      ensures PoolsPresent(old(View())) && Staged(total') == VisitAll(old(Staged(total)), slice, now, updated)
      ensures PoolsPresent(View()) && E.AllMirrored(expiring, lists)
    {
      total' := total;
      ghost var after := VisitAll(Staged(total), slice, now, updated);
      for i := 0 to |slice|
        invariant PoolsPresent(View()) && E.AllMirrored(expiring, lists)
        invariant VisitAll(Staged(total'), slice[i..], now, updated) == after
      {
        assert slice[i..][0] == slice[i] && slice[i..][1..] == slice[i + 1..];
        total' := Visited(slice[i], now, updated, total');
      }
    }

    /**
      Removes every purchase whose deletion time has passed. The slices are those due when the
      walk begins; a list met again later has nothing left to remove.
    */
    method RemoveExpiredPurchases(times: seq<int>, now: int, updated: bool)
      requires Inv(View()) && E.AllMirrored(expiring, lists) && E.DueTimes(expiring, times, now)
      modifies this
      ensures View() == VisitAll(old(View()), E.Due(old(expiring), times), now, updated)
      ensures Inv(View()) && E.AllMirrored(expiring, lists)
      ensures forall k, p :: k in lists && p in lists[k] ==> p.deletion >= now
    {
      var snapshot, total := expiring, totalShield;
      ghost var before, visits := View(), E.Due(expiring, times);
      ghost var after := VisitAll(View(), visits, now, updated);
      VisitAllKeeps(before, visits, now, updated);
      for i := 0 to |times|
        invariant PoolsPresent(View()) && E.AllMirrored(expiring, lists)
        invariant VisitAll(Staged(total), E.Due(snapshot, times[i..]), now, updated) == after
      {
        assert times[i..][0] == times[i] && times[i..][1..] == times[i + 1..];
        VisitAllAppend(Staged(total), E.SliceAt(snapshot, times[i]), E.Due(snapshot, times[i + 1..]), now, updated);
        total := ExpireSlice(E.SliceAt(snapshot, times[i]), now, updated, total);
      }
      assert times[|times|..] == [];
      totalShield := total;
      forall k, p | k in lists && p in lists[k]
        ensures p.deletion >= now
      {
        E.NothingLeft(snapshot, before, times, now, updated, k, p);
      }
    }
  
    /** Sells shield ending at `end`; the queue stays in step with the lists. */
    method PurchaseShield(k: Key, amount: nat, paid: bool, end: int, rate: nat) returns (r: Result)
      requires Inv(View()) && E.AllMirrored(expiring, lists) && totalShield >= 0
      modifies this
      ensures Inv(View()) && E.AllMirrored(expiring, lists)
      ensures match Buy(old(View()), collateral.totalCollateral - collateral.totalWithdrawing, k, amount, paid, end, rate)
              case Ok(b) => r.Done? && View() == b
              case Err(e) => r == Failed(e) && View() == old(View())
              case Halt => false
    {
      if k.pool !in pools {
        return Failed(NoPoolFound);
      }
      var pool := pools[k.pool];
      if !pool.active {
        return Failed(PoolInactive);
      }
      if amount == 0 || !paid {
        return Failed(NoShield);
      }
      var available := collateral.totalCollateral - collateral.totalWithdrawing - totalClaimed;
      if totalShield + amount > available {
        return Failed(NotEnoughCollateral);
      }
      var maxShield := Min(pool.shieldLimit, Portion(available, rate));
      if amount + pool.shield > maxShield {
        return Failed(PoolShieldExceedsLimit);
      }
      StorePurchase(k, amount, end);
      return Done;
    }

    method StorePurchase(k: Key, amount: nat, end: int)
      requires Inv(View()) && E.AllMirrored(expiring, lists) && k.pool in pools
      modifies this
      ensures View() == Add(old(View()), k, amount, end)
      ensures Inv(View()) && E.AllMirrored(expiring, lists)
    {
      AddKeeps(View(), k, amount, end);
      E.AddMirrors(expiring, View(), k, amount, end);
      hide Inv, E.AllMirrored, Add;
      WritePurchase(k, amount, end);
    }

    method WritePurchase(k: Key, amount: nat, end: int)
      requires k.pool in pools
      modifies this
      ensures View() == Add(old(View()), k, amount, end)
      ensures lists == Add(old(View()), k, amount, end).lists
      ensures expiring == E.Enqueue(old(expiring), k, end)
    {
      var id, pool := nextId, pools[k.pool];
      nextId := id + 1;
      totalShield := totalShield + amount;
      pools := pools[k.pool := pool.(shield := pool.shield + amount)];
      lists := lists[k := (if k in lists then lists[k] else []) + [Purchase(id, end, end, amount)]];
      expiring := E.Enqueue(expiring, k, end);
    }

    /** The position of a purchase in a list; zero when it is not there. */
    method FindPurchase(list: seq<Purchase>, id: nat) returns (index: nat)
      requires list != []
      ensures index == Position(list, id)
    {
      index := 0;
      for i := 0 to |list|
        invariant index == 0
        invariant forall j :: 0 <= j < i ==> list[j].id != id
      {
        if list[i].id == id {
          index := i;
          break;
        }
      }
    }
  
    /**
      Secures a claim. On success the loss has moved from shield to claimed, and until the end of
      the lock the collateral left after all withdrawals covers what was asked of the providers:
      all that is claimed, exactly if that is within what can be asked of them.
    */
    method SecureCollaterals(order: seq<Address>, k: Key, id: nat, loss: nat, lockEnd: int, ghost total: nat, ghost shares: seq<nat>)
      returns (r: Result)
      requires Inv(View()) && 0 <= totalClaimed && total == totalClaimed + loss
      requires C.Inv(collateral.View()) && Enumerates(order, collateral.providers) && R.Solvent(collateral.View(), order)
      requires 0 < collateral.totalCollateral ==> shares == LockShares(collateral.View(), order, total)
      modifies this, collateral
      ensures Inv(View()) && C.Inv(collateral.View()) && S.Postponed(old(collateral.View()), collateral.View())
      ensures Answers(r, Secure(old(View()), old(collateral.totalCollateral), k, id, loss, lockEnd),
                      S.StakesLast(old(collateral.View()), order, shares, |order|, lockEnd), old(View()), View())
      ensures r.Done? ==> Locked(collateral.View(), Sum(shares), lockEnd)
      ensures r.Done? ==> (Sum(shares) == totalClaimed <==> Coverable(old(collateral.View()), order, total))
      ensures E.AllMirrored(old(expiring), old(lists)) ==> E.AllMirrored(expiring, lists)
    {
      hide LockShares, S.StakesLast, S.Postponed, C.Inv, Inv, Locked, E.AllMirrored, TakeLoss, Secure, R.Solvent, Enumerates, Coverable;
      C.TotalsNonNegative(collateral.View());
      S.PostponedSelf(collateral.View());
      var index, secured;
      r, index, secured := CheckClaim(k, id, loss, lockEnd);
      if r.Done? {
        r := SecureChecked(order, k, index, loss, secured, lockEnd, shares);
      }
    }

    /** Secures a claim that can be, unless the stake of some provider does not last. */
    method SecureChecked(order: seq<Address>, k: Key, index: nat, loss: nat, total: nat, lockEnd: int, ghost shares: seq<nat>)
      returns (r: Result)
      requires Inv(View()) && k in lists && index < |lists[k]| && loss <= lists[k][index].shield
      requires C.Inv(collateral.View()) && Enumerates(order, collateral.providers) && R.Solvent(collateral.View(), order)
      requires total == totalClaimed + loss <= collateral.totalCollateral && 0 < collateral.totalCollateral
      requires shares == LockShares(collateral.View(), order, total)
      modifies this, collateral
      ensures Inv(View()) && C.Inv(collateral.View()) && S.Postponed(old(collateral.View()), collateral.View())
      ensures r.Done? <==> S.StakesLast(old(collateral.View()), order, shares, |order|, lockEnd)
      ensures r.Done? ==> View() == TakeLoss(old(View()), k, index, loss, lockEnd)
      ensures !r.Done? ==> r.Halted? && View() == old(View())
      ensures r.Done? ==> totalClaimed == total && Locked(collateral.View(), Sum(shares), lockEnd)
      ensures r.Done? ==> (Sum(shares) == total <==> Coverable(old(collateral.View()), order, total))
      ensures E.AllMirrored(old(expiring), old(lists)) ==> E.AllMirrored(expiring, lists)
    {
      hide LockShares, S.StakesLast, S.Postponed, C.Inv, Inv, Locked, E.AllMirrored, TakeLoss, R.Solvent, Enumerates, Coverable;
      PoolOf(View(), k);
      TakeLossTotals(View(), k, index, loss, lockEnd);
      TakeLossKeeps(View(), k, index, loss, lockEnd);
      var locked := LockProviders(order, total, lockEnd, shares);
      if !locked {
        return Halted;
      }
      StoreLoss(k, index, loss, lockEnd);
      return Done;
    }

    /** Whether a claim can be secured, and the position of its purchase. */
    method CheckClaim(k: Key, id: nat, loss: nat, lockEnd: int) returns (r: Result, index: nat, total: nat)
      requires Inv(View()) && 0 <= totalClaimed && 0 <= collateral.totalCollateral
      ensures total == totalClaimed + loss
      ensures match Secure(View(), collateral.totalCollateral, k, id, loss, lockEnd)
              case Ok(b) =>
                && r.Done? && k.pool in pools && k in lists && index < |lists[k]| && loss <= lists[k][index].shield
                && b == TakeLoss(View(), k, index, loss, lockEnd)
                && total <= collateral.totalCollateral && 0 < collateral.totalCollateral
              case Err(e) => r == Failed(e)
              case Halt => r.Halted?
    {
      index, total := 0, totalClaimed + loss;
      assert k in lists ==> ListOk(View(), lists[k]);
      hide Inv, TakeLoss;
      if k.pool !in pools {
        return Failed(NoPoolFound), index, total;
      }
      if loss > pools[k.pool].shield {
        return Failed(NotEnoughShield), index, total;
      }
      if total > collateral.totalCollateral {
        return Halted, index, total;
      }
      if k !in lists {
        return Failed(PurchaseNotFound), index, total;
      }
      index := FindPurchase(lists[k], id);
      if loss > lists[k][index].shield {
        return Failed(NotEnoughShield), index, total;
      }
      if collateral.totalCollateral == 0 {
        return Halted, index, total;
      }
      return Done, index, total;
    }

    /** Has every provider hold its share of the claimed total until the lock ends. */
    method LockProviders(order: seq<Address>, total: nat, lockEnd: int, ghost shares: seq<nat>) returns (ok: bool)
      requires C.Inv(collateral.View()) && Enumerates(order, collateral.providers) && R.Solvent(collateral.View(), order)
      requires total <= collateral.totalCollateral && 0 < collateral.totalCollateral
      requires shares == LockShares(collateral.View(), order, total)
      modifies collateral
      ensures ok <==> S.StakesLast(old(collateral.View()), order, shares, |order|, lockEnd)
      ensures C.Inv(collateral.View()) && S.Postponed(old(collateral.View()), collateral.View())
      ensures ok ==> Locked(collateral.View(), Sum(shares), lockEnd)
      ensures Sum(shares) == total <==> Coverable(old(collateral.View()), order, total)
    {
      hide C.Inv;
      ok := collateral.SecureFromProviders(order, total, lockEnd, shares);
      if !ok {
        return;
      }
      forall t | t < lockEnd
        ensures Measure(collateral.queue, DueBy(t)) + Sum(shares) <= collateral.totalCollateral
      {
        S.TotalHeld(collateral.View(), order, shares, lockEnd, t);
      }
    }

    method StoreLoss(k: Key, index: nat, loss: nat, lockEnd: int)
      requires k.pool in pools && k in lists && index < |lists[k]|
      modifies `pools, `lists, `totalShield, `totalClaimed
      ensures View() == TakeLoss(old(View()), k, index, loss, lockEnd)
      ensures E.AllMirrored(old(expiring), old(lists)) ==> E.AllMirrored(expiring, lists)
    {
      var p, pool := lists[k][index], pools[k.pool];
      if E.AllMirrored(expiring, lists) {
        E.SetMirrors(expiring, lists, k, index, Claimed(p, loss, lockEnd));
      }
      lists := lists[k := lists[k][index := Claimed(p, loss, lockEnd)]];
      pools := pools[k.pool := pool.(shield := pool.shield - loss)];
      totalShield := totalShield - loss;
      totalClaimed := totalClaimed + loss;
    }

    /** Puts the loss of a rejected claim back; what is stored before an error stays stored. */
    method RestoreShield(k: Key, id: nat, loss: nat) returns (r: Result)
      modifies `pools, `lists, `totalShield
      ensures View() == Restore(old(View()), k, id, loss).0
      ensures r.Done? <==> Restore(old(View()), k, id, loss).1
      ensures E.AllMirrored(old(expiring), old(lists)) ==> E.AllMirrored(expiring, lists)
    {
      totalShield := totalShield + loss;
      if k.pool !in pools {
        return Failed(NoPoolFound);
      }
      var pool := pools[k.pool];
      pools := pools[k.pool := pool.(shield := pool.shield + loss)];
      if k !in lists {
        return Failed(PurchaseNotFound);
      }
      ghost var i := Find(lists[k], id);
      if i < |lists[k]| && E.AllMirrored(expiring, lists) {
        E.SetMirrors(expiring, lists, k, i, lists[k][i].(shield := lists[k][i].shield + loss));
      }
      var list := RestoredList(lists[k], id, loss);
      lists := lists[k := list];
      assert Find(old(lists)[k], id) == |old(lists)[k]| ==> lists == old(lists);
      return Done;
    }

    method RestoredList(all: seq<Purchase>, id: nat, loss: nat) returns (list: seq<Purchase>)
      ensures list == if Find(all, id) == |all| then all else all[Find(all, id) := all[Find(all, id)].(shield := all[Find(all, id)].shield + loss)]
    {
      list := all;
      for i := 0 to |all|
        invariant list == all && forall j :: 0 <= j < i ==> all[j].id != id
      {
        if all[i].id == id {
          list := all[i := all[i].(shield := all[i].shield + loss)];
          break;
        }
      }
    }

    method ClaimEnded(loss: nat)
      modifies `totalClaimed
      ensures View() == ClaimEnd(old(View()), loss)
    {
      totalClaimed := totalClaimed - loss;
    }

    /** Deletes, in store order, the pools with neither shield nor a shield limit. */
    method ClosePoolsInOrder(order: seq<nat>)
      requires forall id :: id in pools <==> id in order
      requires forall i, j :: 0 <= i < j < |order| ==> order[i] != order[j]
      modifies `pools
      ensures View() == ClosePools(old(View()))
    {
      for i := 0 to |order|
        invariant forall id :: id in pools <==> id in old(pools) && !(id in order[..i] && Closable(old(pools)[id]))
        invariant forall id :: id in pools ==> pools[id] == old(pools)[id]
      {
        assert order[i] in order && order[i] !in order[..i];
        assert order[..i + 1] == order[..i] + [order[i]];
        if Closable(pools[order[i]]) {
          pools := pools - {order[i]};
        }
      }
      assert order[..|order|] == order;
      assert pools == ClosePools(old(View())).pools;
    }
  
    /**
      The end of a block: expiry, completed withdrawals, closed pools. Every sum survives exactly
      when no purchase is left in a pool that gets closed.
    */
    method EndBlocker(times: seq<int>, order: seq<nat>, now: int, updated: bool)
      requires Inv(View()) && E.AllMirrored(expiring, lists) && E.DueTimes(expiring, times, now)
      requires C.Inv(collateral.View())
      requires forall id :: id in pools <==> id in order
      requires forall i, j :: 0 <= i < j < |order| ==> order[i] != order[j]
      modifies this, collateral
      ensures View() == ClosePools(VisitAll(old(View()), E.Due(old(expiring), times), now, updated))
      ensures C.Inv(collateral.View()) && collateral.View() == C.Dequeue(old(collateral.View()), now)
      ensures E.AllMirrored(expiring, lists)
      ensures var b := VisitAll(old(View()), E.Due(old(expiring), times), now, updated);
              Inv(View()) <==> forall k :: k in b.lists ==> !Closable(b.pools[k.pool])
    {
      ghost var visits := E.Due(expiring, times);
      VisitAllKeeps(View(), visits, now, updated);
      RemoveExpiredPurchases(times, now, updated);
      C.DequeueKeeps(collateral.View(), now);
      collateral.DequeueCompletedWithdrawQueue(now);
      ShieldNonNegative(View());
      ClosePoolsKeepsIff(View());
      ClosePoolsInOrder(order);
    }
  }
}
