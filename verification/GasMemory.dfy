/** The fee for memory: what is charged adds up to a function of the largest size charged for. */
module GasMemory {
  import opened Word64

  const MEMORY_GAS: uint64 := 3
  const QUAD_DIVISOR: uint64 := 512

  /** The largest size whose fee is worked out. */
  const SIZE_LIMIT: uint64 := 0x1F_FFFF_FFE0

  const MAX_CAPACITY: uint64 := 0x100_0000

  /** The cost of so many words of memory: linear, plus a part that grows with the square. */
  function Cost(words: nat): nat {
    words * 3 + words * words / 512
  }

  lemma SquareMonotone(w: nat, w': nat)
    requires w <= w'
    ensures w * w <= w' * w'
  {
    assert w * w <= w * w' <= w' * w';
  }

  lemma CostMonotone(w: nat, w': nat)
    requires w <= w'
    ensures Cost(w) <= Cost(w')
  {
    SquareMonotone(w, w');
    DivMonotone(w * w, w' * w');
  }

  lemma DivMonotone(x: nat, y: nat)
    requires x <= y
    ensures x / 512 <= y / 512
  {
  }

  /** The fee as it is worked out in 64 bits. */
  function NewTotalFee(words: uint64): uint64 {
    Plus(Times(words, MEMORY_GAS), Times(words, words) / QUAD_DIVISOR)
  }

  /** Within the limit nothing overflows. */
  lemma NothingOverflows(words: uint64)
    requires words <= 0xFFFF_FFFF
    ensures NewTotalFee(words) == Cost(words) <= 0x100_0000_0000_0000
  {
    SquareMonotone(words, 0xFFFF_FFFF);
    Small(words * words, words);
  }

  lemma Small(square: nat, words: nat)
    requires square <= 0xFFFF_FFFF * 0xFFFF_FFFF && words <= 0xFFFF_FFFF
    ensures square % WRAP == square && words * 3 % WRAP == words * 3
    ensures words * 3 + square / 512 <= 0x100_0000_0000_0000
  {
  }

  lemma WordBytes(size: uint64)
    requires size <= SIZE_LIMIT
    ensures ToWordSize(size) <= 0xFFFF_FFFF && Times(ToWordSize(size), 32) == 32 * ToWordSize(size)
  {
  }

  lemma MinusExact(x: uint64, y: uint64)
    requires y <= x
    ensures Minus(x, y) == x - y
  {
  }

  /** What growing a memory of so many words to a size is charged, and its words then. */
  datatype Fee = Fee(gas: nat, words: nat, ok: bool)

  function FeeOf(words: nat, size: uint64): Fee {
    if size > SIZE_LIMIT then Fee(0, words, false)
    else if ToWordSize(size) <= words then Fee(0, words, true)
    else
      CostMonotone(words, ToWordSize(size));
      Fee(Cost(ToWordSize(size)) - Cost(words), ToWordSize(size), true)
  }

  /** The bytes to add to reach a size. */
  function Missing(capacity: nat, size: nat): nat {
    if size > capacity then size - capacity else 0
  }

  lemma CostIncreases(w: nat, w': nat)
    requires w < w'
    ensures Cost(w) < Cost(w')
  {
    SquareMonotone(w, w');
    DivMonotone(w * w, w' * w');
  }

  /** Bytes are set aside without a charge exactly beyond the largest size whose fee is worked out. */
  lemma UnchargedIff(words: nat, size: uint64)
    requires words <= 0xFFFF_FFFF
    ensures Missing(32 * words, size) > 0 && FeeOf(words, size).gas == 0 <==> size > SIZE_LIMIT
  {
    if 32 * words < size <= SIZE_LIMIT {
      CostIncreases(words, ToWordSize(size));
    }
  }

  class Memory {
    var capacity: uint64
    var lastGasCost: uint64
    ghost var words: nat

    /** All memory there is has been charged for. */
    ghost predicate Valid()
      reads this
    {
      lastGasCost == Cost(words) && capacity == 32 * words && words <= 0xFFFF_FFFF
    }

    /** Charged for up to `size`, which may not be allocated yet. */
    ghost predicate Charged(size: uint64)
      reads this
    {
      && lastGasCost == Cost(words) && words <= 0xFFFF_FFFF
      && if capacity == 32 * words then size <= capacity || size > SIZE_LIMIT else capacity < 32 * words == size
    }

    constructor ()
      ensures Valid() && words == 0
    {
      capacity, lastGasCost, words := 0, 0, 0;
    }

    /** The fee for growing to a size; the difference it is computed from never underflows. */
    method MemGasCost(size: uint64) returns (fee: uint64, ok: bool)
      requires Valid()
      modifies `lastGasCost, `words
      ensures Fee(fee, words, ok) == FeeOf(old(words), size)
      ensures 32 * ToWordSize(size) == size ==> Charged(size)
      ensures fee <= 0x100_0000_0000_0000
    {
      hide Cost, NewTotalFee, Times, Minus, ToWordSize;
      if size == 0 {
        return 0, true;
      }
      if size > SIZE_LIMIT {
        return 0, false;
      }
      var count := ToWordSize(size);
      WordBytes(size);
      var newSize := Times(count, 32);
      if newSize <= capacity {
        return 0, true;
      }
      NothingOverflows(count);
      CostMonotone(words, count);
      var newTotal := NewTotalFee(count);
      MinusExact(newTotal, lastGasCost);
      fee := Minus(newTotal, lastGasCost);
      lastGasCost := newTotal;
      words := count;
      return fee, true;
    }

    /**
      Grows to what was charged for, up to the capacity a frame may have at all, by writing as many
      zeros as are missing; `buffer` bytes are set aside for them before the capacity is looked at.
    */
    method Grow(size: uint64) returns (ok: bool, buffer: nat)
      requires Charged(size)
      modifies `capacity
      ensures ok <==> size <= old(capacity) || size <= MAX_CAPACITY
      ensures ok ==> Valid()
      ensures buffer == Missing(old(capacity), size)
    {
      buffer := 0;
      if size > capacity {
        buffer := size - capacity;
        if size > MAX_CAPACITY {
          return false, buffer;
        }
        capacity := size;
      }
      return true, buffer;
    }

    /** Touches memory up to a size: charges for it, and grows to it if it is within the capacity. */
    method Touch(size: uint64) returns (fee: nat)
      requires Valid()
      modifies this
      ensures size <= MAX_CAPACITY ==>
                && Valid() && words == (if ToWordSize(size) > old(words) then ToWordSize(size) else old(words))
                && Cost(words) == Cost(old(words)) + fee
    {
      hide Cost, ToWordSize, SafeMul;
      Rounded(size);
      var rounded := SafeMul(ToWordSize(size), 32).0;
      var charged, grown, buffer;
      fee, charged := MemGasCost(rounded);
      grown, buffer := Grow(rounded);
      if size <= MAX_CAPACITY {
        RoundedSmall(size);
      }
    }

    /**
      Fees do not depend on the path: whatever sizes memory is touched up to, one after the other,
      the fees come to the cost of the largest number of words. Only a size beyond the capacity fails.
    */
    method TouchAll(sizes: seq<uint64>) returns (fees: nat, ok: bool)
      requires Valid() && words == 0
      modifies this
      ensures ok <==> forall size :: size in sizes ==> size <= MAX_CAPACITY
      ensures ok ==> Valid() && fees == Cost(Largest(sizes)) && capacity == 32 * Largest(sizes)
    {
      fees, ok := 0, true;
      for i := 0 to |sizes|
        invariant Valid() && fees == Cost(words) && words == Largest(sizes[..i])
        invariant forall size :: size in sizes[..i] ==> size <= MAX_CAPACITY
      {
        hide Cost, Largest;
        var size := sizes[i];
        assert sizes[..i + 1] == sizes[..i] + [size];
        LargestSnoc(sizes[..i], size);
        var fee := Touch(size);
        if size > MAX_CAPACITY {
          assert size in sizes;
          return fees, false;
        }
        fees := fees + fee;
      }
      assert sizes[..|sizes|] == sizes;
    }
  }

  lemma RoundedSmall(size: uint64)
    requires size <= MAX_CAPACITY
    ensures var r := SafeMul(ToWordSize(size), 32); !r.1 && r.0 == 32 * ToWordSize(size) <= MAX_CAPACITY
  {
  }

  lemma Rounded(size: uint64)
    ensures var r := SafeMul(ToWordSize(size), 32);
            32 * ToWordSize(r.0) == r.0 && (size == 0 ==> r == (0, false)) && (!r.1 ==> ToWordSize(r.0) == ToWordSize(size))
  {
    var words := ToWordSize(size);
    assert 32 * words - 32 < size;
    if words * 32 > MAX {
      assert Times(words, 32) == 0;
    }
  }

  function Largest(sizes: seq<uint64>): nat {
    if sizes == [] then 0 else
    if ToWordSize(sizes[0]) > Largest(sizes[1..]) then ToWordSize(sizes[0]) else Largest(sizes[1..])
  }

  lemma {:induction false} LargestSnoc(sizes: seq<uint64>, size: uint64)
    ensures Largest(sizes + [size]) == if ToWordSize(size) > Largest(sizes) then ToWordSize(size) else Largest(sizes)
  {
    if sizes == [] {
      assert [size][1..] == [];
      assert sizes + [size] == [size];
    } else {
      assert (sizes + [size])[1..] == sizes[1..] + [size];
      LargestSnoc(sizes[1..], size);
    }
  }
}
