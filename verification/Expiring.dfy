/** The expiring purchase queue: for each end time, the lists that hold a purchase ending then. */
module Expiring {
  import opened Totals
  import opened WithdrawQueue
  import opened Purchases

  type Slices = map<int, seq<Key>>

  function SliceAt(q: Slices, t: int): seq<Key> {
    if t in q then q[t] else []
  }

  /** How often a list is queued at a time. */
  ghost function Queued(q: Slices, k: Key, t: int): nat {
    multiset(SliceAt(q, t))[k]
  }

  /** How many purchases of a list end at a time. */
  ghost function Ending(list: seq<Purchase>, t: int): nat {
    if list == [] then 0 else (if list[0].protectionEnd == t then 1 else 0) + Ending(list[1..], t)
  }

  /** A list is queued once for each of its purchases. */
  ghost predicate Mirrors(q: Slices, k: Key, list: seq<Purchase>) {
    forall t :: Queued(q, k, t) == Ending(list, t)
  }

  ghost predicate AllMirrored(q: Slices, lists: map<Key, seq<Purchase>>) {
    forall k :: Mirrors(q, k, ListOf(lists, k))
  }

  /** The queue differs at most in what it says about one list. */
  ghost predicate SameExcept(q: Slices, q': Slices, k: Key) {
    forall j, t :: j != k ==> Queued(q', j, t) == Queued(q, j, t)
  }

  function Enqueue(q: Slices, k: Key, t: int): Slices {
    q[t := SliceAt(q, t) + [k]]
  }

  /** Takes the list out once at a time, dropping the slice when that empties it. */
  function Dequeue(q: Slices, k: Key, t: int): Slices {
    if k !in SliceAt(q, t) then q
    else if |SliceAt(q, t)| > 1 then q[t := Without(SliceAt(q, t), k)]
    else q - {t}
  }

  /** A slice without its first occurrence of a list. */
  function Without(s: seq<Key>, k: Key): (r: seq<Key>)
    ensures multiset(r) == multiset(s) - multiset{k}
  {
    if s == [] then []
    else
      assert s == [s[0]] + s[1..];
      if s[0] == k then s[1..] else [s[0]] + Without(s[1..], k)
  }

  lemma EnqueueCounts(q: Slices, k: Key, t: int, j: Key, u: int)
    ensures Queued(Enqueue(q, k, t), j, u) == Queued(q, j, u) + (if j == k && u == t then 1 else 0)
  {
  }

  lemma DequeueCounts(q: Slices, k: Key, t: int, j: Key, u: int)
    ensures Queued(Dequeue(q, k, t), j, u) == Queued(q, j, u) - (if j == k && u == t && Queued(q, k, t) > 0 then 1 else 0)
  {
    var s := SliceAt(q, t);
    if k in s && |s| == 1 {
      assert s == [k];
    }
  }

  lemma {:induction false} EndingAppend(p: seq<Purchase>, q: seq<Purchase>, t: int)
    ensures Ending(p + q, t) == Ending(p, t) + Ending(q, t)
  {
    if p == [] {
      assert p + q == q;
    } else {
      assert (p + q)[1..] == p[1..] + q;
      EndingAppend(p[1..], q, t);
    }
  }

  lemma EndingOne(p: Purchase, t: int)
    ensures Ending([p], t) == if p.protectionEnd == t then 1 else 0
  {
    assert [p][1..] == [];
  }

  /** Taking one purchase out of a list and one entry for it out of the queue keeps them alike. */
  lemma RemoveMirrors(q: Slices, k: Key, front: seq<Purchase>, p: Purchase, back: seq<Purchase>)
    requires Mirrors(q, k, front + [p] + back)
    ensures Mirrors(Dequeue(q, k, p.protectionEnd), k, front + back)
  {
    hide Ending;
    var q' := Dequeue(q, k, p.protectionEnd);
    forall t
      ensures Queued(q', k, t) == Ending(front + back, t)
    {
      DequeueCounts(q, k, p.protectionEnd, k, t);
      EndingAppend(front + [p], back, t);
      EndingAppend(front, [p], t);
      EndingAppend(front, back, t);
      EndingOne(p, t);
      assert Queued(q, k, t) == Ending(front + [p] + back, t);
    }
  }

  lemma DequeueOthers(q: Slices, k: Key, t: int)
    ensures SameExcept(q, Dequeue(q, k, t), k)
  {
    forall j, u | j != k
      ensures Queued(Dequeue(q, k, t), j, u) == Queued(q, j, u)
    {
      DequeueCounts(q, k, t, j, u);
    }
  }

  lemma AddMirrors(q: Slices, b: Book, k: Key, amount: nat, end: int)
    requires AllMirrored(q, b.lists) && k.pool in b.pools
    ensures AllMirrored(Enqueue(q, k, end), Add(b, k, amount, end).lists)
  {
    hide Ending;
    var p := Purchase(b.nextId, end, end, amount);
    var b' := Add(b, k, amount, end);
    forall j, t
      ensures Queued(Enqueue(q, k, end), j, t) == Ending(ListOf(b'.lists, j), t)
    {
      EnqueueCounts(q, k, end, j, t);
      assert Mirrors(q, j, ListOf(b.lists, j));
      assert Queued(q, j, t) == Ending(ListOf(b.lists, j), t);
      if j == k {
        EndingAppend(ListOf(b.lists, k), [p], t);
        EndingOne(p, t);
      }
    }
  }

  /** A purchase in a list is queued at its end time. */
  lemma {:induction false} EndingMember(list: seq<Purchase>, p: Purchase)
    requires p in list
    ensures Ending(list, p.protectionEnd) > 0
  {
    if list[0] != p {
      EndingMember(list[1..], p);
    }
  }

  // ----- One step of the expiry loop on a list -----

  lemma {:induction false} KeepSnoc(list: seq<Purchase>, p: Purchase, now: int, updated: bool)
    ensures Keep(list + [p], now, updated) == Keep(list, now, updated) + (if Removable(p, now, updated) then [] else [p])
    ensures Dropped(list + [p], now, updated) == Dropped(list, now, updated) + (if Removable(p, now, updated) then p.shield else 0)
  {
    if list == [] {
      assert [p][1..] == [];
      assert list + [p] == [p];
    } else {
      assert (list + [p])[1..] == list[1..] + [p];
      KeepSnoc(list[1..], p, now, updated);
    }
  }

  /** Where the loop stands: `done` purchases are dealt with, and those kept come before position `i`. */
  ghost predicate Progress(all: seq<Purchase>, done: nat, list: seq<Purchase>, i: nat, now: int, updated: bool) {
    && done <= |all|
    && i == |Keep(all[..done], now, updated)|
    && list == Keep(all[..done], now, updated) + all[done..]
  }

  lemma ProgressNone(all: seq<Purchase>, now: int, updated: bool)
    ensures Progress(all, 0, all, 0, now, updated) && Dropped(all[..0], now, updated) == 0
  {
  }

  lemma ProgressStep(all: seq<Purchase>, done: nat, list: seq<Purchase>, i: nat, now: int, updated: bool)
    requires Progress(all, done, list, i, now, updated) && i < |list|
    ensures done < |all| && list[i] == all[done]
    ensures Removable(list[i], now, updated) ==> Progress(all, done + 1, list[..i] + list[i + 1..], i, now, updated)
    ensures !Removable(list[i], now, updated) ==> Progress(all, done + 1, list, i + 1, now, updated)
    ensures Dropped(all[..done + 1], now, updated)
         == Dropped(all[..done], now, updated) + (if Removable(list[i], now, updated) then list[i].shield else 0)
  {
    assert all[..done + 1] == all[..done] + [all[done]];
    KeepSnoc(all[..done], all[done], now, updated);
    hide Keep, Dropped;
    var kept := Keep(all[..done], now, updated);
    assert list[i..] == all[done..];
    assert list[i + 1..] == all[done + 1..];
    assert list[..i] == kept;
  }

  lemma ProgressDone(all: seq<Purchase>, done: nat, list: seq<Purchase>, i: nat, now: int, updated: bool)
    requires Progress(all, done, list, i, now, updated) && i >= |list|
    ensures list == Keep(all, now, updated) && all[..done] == all
  {
    assert all[done..] == [];
    assert all[..done] == all;
  }

  /** Taking a slice apart at the first occurrence of a list. */
  lemma {:induction false} WithoutAt(s: seq<Key>, k: Key, i: nat)
    requires i < |s| && s[i] == k && forall j :: 0 <= j < i ==> s[j] != k
    ensures Without(s, k) == s[..i] + s[i + 1..]
  {
    if i > 0 {
      WithoutAt(s[1..], k, i - 1);
    }
  }

  /** The slices due by `now`, in queue order. */
  function Due(q: Slices, times: seq<int>): seq<Key> {
    if times == [] then [] else SliceAt(q, times[0]) + Due(q, times[1..])
  }

  lemma {:induction false} DueMembers(q: Slices, times: seq<int>, t: int, k: Key)
    requires t in times && k in SliceAt(q, t)
    ensures k in Due(q, times)
  {
    if times[0] != t {
      DueMembers(q, times[1..], t, k);
    }
  }

  /** `times` are the times of the slices due by `now`. */
  ghost predicate DueTimes(q: Slices, times: seq<int>, now: int) {
    forall t :: t in q && t <= now ==> t in times
  }

  /** When the queue mirrors the lists, an expiry leaves no purchase behind whose deletion time has passed. */
  lemma NothingLeft(q: Slices, b: Book, times: seq<int>, now: int, updated: bool, k: Key, p: Purchase)
    requires Inv(b) && AllMirrored(q, b.lists) && DueTimes(q, times, now)
    requires k in VisitAll(b, Due(q, times), now, updated).lists
    requires p in VisitAll(b, Due(q, times), now, updated).lists[k]
    ensures p.deletion >= now
  {
    var visits := Due(q, times);
    VisitAllKeeps(b, visits, now, updated);
    VisitAllMembers(b, visits, now, updated);
    assert ListOk(b, b.lists[k]);
    if p.deletion < now && k !in visits {
      EndingMember(b.lists[k], p);
      assert Mirrors(q, k, ListOf(b.lists, k));
      assert Queued(q, k, p.protectionEnd) > 0;
      DueMembers(q, times, p.protectionEnd, k);
    }
  }

  /** A visit to one list keeps the whole queue in step. */
  lemma VisitMirrors(q: Slices, q': Slices, b: Book, b': Book, k: Key)
    requires AllMirrored(q, b.lists) && Mirrors(q', k, ListOf(b'.lists, k)) && SameExcept(q, q', k)
    requires forall j :: j != k ==> ListOf(b'.lists, j) == ListOf(b.lists, j)
    ensures AllMirrored(q', b'.lists)
  {
    forall j, t
      ensures Queued(q', j, t) == Ending(ListOf(b'.lists, j), t)
    {
      assert Mirrors(q, j, ListOf(b.lists, j));
      assert Queued(q, j, t) == Ending(ListOf(b.lists, j), t);
    }
  }

  lemma VisitOthers(b: Book, k: Key, now: int, updated: bool)
    requires k in b.lists ==> k.pool in b.pools
    ensures forall j :: j != k ==> ListOf(Visit(b, k, now, updated).lists, j) == ListOf(b.lists, j)
  {
  }

  lemma {:induction false} EndingSet(list: seq<Purchase>, i: nat, p: Purchase, t: int)
    requires i < |list| && p.protectionEnd == list[i].protectionEnd
    ensures Ending(list[i := p], t) == Ending(list, t)
  {
    if i == 0 {
      assert list[i := p][1..] == list[1..];
    } else {
      assert list[i := p][1..] == list[1..][i - 1 := p];
      EndingSet(list[1..], i - 1, p, t);
    }
  }

  /** Rewriting a purchase without moving its end keeps the queue in step. */
  lemma SetMirrors(q: Slices, lists: map<Key, seq<Purchase>>, k: Key, i: nat, p: Purchase)
    requires AllMirrored(q, lists) && k in lists && i < |lists[k]| && p.protectionEnd == lists[k][i].protectionEnd
    ensures AllMirrored(q, lists[k := lists[k][i := p]])
  {
    var lists' := lists[k := lists[k][i := p]];
    forall j, t
      ensures Queued(q, j, t) == Ending(ListOf(lists', j), t)
    {
      assert Mirrors(q, j, ListOf(lists, j));
      assert Queued(q, j, t) == Ending(ListOf(lists, j), t);
      if j == k {
        EndingSet(lists[k], i, p, t);
      }
    }
  }
}
