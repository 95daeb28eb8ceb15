/**
  When a withdrawal counts as mature. Due blocks are kept as eight little-endian bytes, and the store
  compares those bytes in order, the least significant one first.
*/
module Maturity {
  /** Whether the first `n` little-endian bytes of `x` come no later than those of `y`. */
  predicate NoLater(x: nat, y: nat, n: nat) {
    n == 0 || x % 256 < y % 256 || (x % 256 == y % 256 && NoLater(x / 256, y / 256, n - 1))
  }

  /** A withdrawal due at a block is paid at a height when its key comes no later. */
  predicate Mature(due: nat, height: nat) {
    NoLater(due, height, 8)
  }

  lemma {:induction false} NoLaterSelf(x: nat, n: nat)
    ensures NoLater(x, x, n)
  {
    if n > 0 {
      NoLaterSelf(x / 256, n - 1);
    }
  }

  /**
    Whether the bytes of `due` come no later than those of some number less than `due` by less than
    `lock`. The lowest byte decides: going back past a multiple of 256 makes it larger, unless it is
    the largest already, and then the next byte decides.
  */
  predicate Early(due: nat, lock: nat, n: nat) {
    if n == 0 || due % 256 < 255 then (if n == 0 then 0 else due % 256) + 2 <= lock
    else lock > 0 && Early(due / 256, (lock - 1) / 256 + 1, n - 1)
  }

  /** `back` blocks before it is due, a withdrawal is mature. */
  predicate MatureBack(due: nat, back: nat, n: nat)
    requires back <= due
  {
    NoLater(due, due - back, n)
  }

  /** Within the same 256 blocks an earlier one has a smaller byte. */
  lemma SameStretch(due: nat, back: nat, n: nat)
    requires 0 < back <= due % 256 && n > 0
    ensures !MatureBack(due, back, n)
  {
    assert (due - back) % 256 == due % 256 - back;
  }

  /** The last block of the 256 before has the largest byte. */
  lemma StretchBefore(due: nat, n: nat)
    requires due % 256 < 255 && due % 256 < due && n > 0
    ensures MatureBack(due, due % 256 + 1, n)
  {
    assert (due - due % 256 - 1) % 256 == 255;
  }

  lemma WholeStretches(due: nat, back: nat, n: nat)
    requires due % 256 == 255 && 0 < back <= due && n > 0
    ensures MatureBack(due, back, n) <==> back % 256 == 0 && back / 256 <= due / 256 && NoLater(due / 256, due / 256 - back / 256, n - 1)
  {
    if back % 256 == 0 {
      assert (due - back) % 256 == 255 && (due - back) / 256 == due / 256 - back / 256;
    } else {
      assert due == 256 * (due / 256) + 255;
      assert (due - back) % 256 == 255 - back % 256;
    }
  }

  lemma {:induction false} EarlyIff(due: nat, lock: nat, n: nat)
    requires lock <= due + 1
    ensures Early(due, lock, n) <==> exists back :: 0 < back < lock && MatureBack(due, back, n)
    decreases n, 1
  {
    if n == 0 {
      if 2 <= lock {
        assert MatureBack(due, 1, n);
      }
    } else if due % 256 < 255 {
      if Early(due, lock, n) {
        StretchBefore(due, n);
      } else {
        forall back | 0 < back < lock
          ensures !MatureBack(due, back, n)
        {
          SameStretch(due, back, n);
        }
      }
    } else if lock > 0 {
      EarlyLast(due, lock, n);
    }
  }

  lemma {:induction false} EarlyLast(due: nat, lock: nat, n: nat)
    requires 0 < lock <= due + 1 && due % 256 == 255 && n > 0
    ensures Early(due, lock, n) <==> exists back :: 0 < back < lock && MatureBack(due, back, n)
    decreases n, 0
  {
    var due', lock' := due / 256, (lock - 1) / 256 + 1;
    EarlyIff(due', lock', n - 1);
    if Early(due', lock', n - 1) {
      var back' :| 0 < back' < lock' && MatureBack(due', back', n - 1);
      var back := 256 * back';
      WholeStretches(due, back, n);
      assert 0 < back < lock && MatureBack(due, back, n);
    } else {
      forall back | 0 < back < lock
        ensures !MatureBack(due, back, n)
      {
        WholeStretches(due, back, n);
        if MatureBack(due, back, n) {
          assert 0 < back / 256 < lock' && MatureBack(due', back / 256, n - 1);
        }
      }
    }
  }

  lemma {:induction false} NeverEarly(due: nat, n: nat)
    ensures !Early(due, 1, n)
  {
    if n > 0 {
      NeverEarly(due / 256, n - 1);
    }
  }

  /**
    A withdrawal made `lock` blocks before it is due is paid at the latest when it is due, and
    earlier exactly if `Early` says so; with a lock of up to 256 blocks that is, if it is due among
    the first `lock` - 1 blocks after a multiple of 256.
  */
  lemma PaidEarlyIff(due: nat, lock: nat)
    requires lock <= due
    ensures Mature(due, due)
    ensures (exists height :: due - lock < height < due && Mature(due, height)) <==> Early(due, lock, 8)
    ensures lock <= 256 ==> (Early(due, lock, 8) <==> due % 256 + 2 <= lock)
  {
    NoLaterSelf(due, 8);
    EarlyIff(due, lock, 8);
    NeverEarly(due / 256, 7);
    if Early(due, lock, 8) {
      var back :| 0 < back < lock && MatureBack(due, back, 8);
      assert Mature(due, due - back);
    } else {
      forall height | due - lock < height < due
        ensures !Mature(due, height)
      {
        assert !MatureBack(due, due - height, 8);
      }
    }
  }

  /** Locked for thirty blocks from block 240 on, and so due at block 270: paid at block 241. */
  lemma PaidAtOnce()
    ensures Mature(240 + 30, 241) && Early(240 + 30, 30, 8)
  {
  }
}
