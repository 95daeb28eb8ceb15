/**
  What single instructions do: the memory they reach and its price, where control goes, what is
  left of the gas, and what is on the stack.
*/
module Semantics {
  import opened Word64
  import opened GasMemory
  import opened Jumps
  import opened Gas
  import opened Interpreter
  import Dec

  // ----- Operands are read and left in place -----

  lemma DynamicGasReads(op: byte, stack: Stack, fee: uint64, chain: Chain)
    requires fee <= 0x100_0000_0000_0000
    ensures var bill := DynamicGas(op, stack, fee, chain); bill.ok ==> bill.stack == stack
  {
    hide ByteLength, SafeMul, SafeAdd, ToWordSize, Pow256;
  }

  lemma ChargeReads(op: byte, stack: Stack, words: nat, chain: Chain)
    requires words <= 0xFFFF_FFFF
    ensures var c := ChargeFor(op, stack, words, chain); c.ok ==> c.stack == stack
  {
    hide DynamicGas, MemSize, SafeMul, ToWordSize, FeeOf;
    var need := MemSize(op, stack);
    var fee := FeeOf(words, SafeMul(ToWordSize(need.size), 32).0);
    FeeFits(words, SafeMul(ToWordSize(need.size), 32).0);
    MemSizeReads(op, stack);
    if fee.ok {
      DynamicGasReads(op, need.stack, fee.gas, chain);
    }
  }

  // ----- Memory -----

  /** How many operands an instruction that uses memory has, as far as they say where. */
  function Reach(op: byte): nat {
    if op == CALL || op == CALLCODE then 7
    else if op == DELEGATECALL || op == STATICCALL then 6
    else if op == EXTCODECOPY then 4
    else if op in {CALLDATACOPY, CODECOPY, RETURNDATACOPY, CREATE, CREATE2} then 3
    else if op in {SHA3, RETURN, REVERT} || IsLog(op) then 2
    else if op in {MLOAD, MSTORE, MSTORE8} then 1
    else 0
  }

  /** A stretch of memory. */
  datatype Stretch = Stretch(offset: nat, length: nat)

  /** The memory an instruction reads or writes. */
  function Touched(op: byte, stack: Stack): seq<Stretch>
    requires Reach(op) <= |stack|
  {
    if op == CALL || op == CALLCODE then [Stretch(stack[3], stack[4]), Stretch(stack[5], stack[6])]
    else if op == DELEGATECALL || op == STATICCALL then [Stretch(stack[2], stack[3]), Stretch(stack[4], stack[5])]
    else if op == EXTCODECOPY then [Stretch(stack[1], stack[3])]
    else if op in {CALLDATACOPY, CODECOPY, RETURNDATACOPY} then [Stretch(stack[0], stack[2])]
    else if op in {CREATE, CREATE2} then [Stretch(stack[1], stack[2])]
    else if op in {SHA3, RETURN, REVERT} || IsLog(op) then [Stretch(stack[0], stack[1])]
    else if op == MLOAD || op == MSTORE then [Stretch(stack[0], 32)]
    else if op == MSTORE8 then [Stretch(stack[0], 1)]
    else []
  }

  /** The end of the farthest stretch that is not empty. */
  function Farthest(touched: seq<Stretch>): nat {
    if touched == [] then 0 else
    var s, rest := touched[0], Farthest(touched[1..]);
    if s.length > 0 && s.offset + s.length > rest then s.offset + s.length else rest
  }

  lemma {:induction false} FarthestIs(touched: seq<Stretch>)
    ensures forall s :: s in touched && s.length > 0 ==> s.offset + s.length <= Farthest(touched)
    ensures Farthest(touched) > 0 ==> exists s :: s in touched && s.length > 0 && s.offset + s.length == Farthest(touched)
  {
    if touched != [] {
      FarthestIs(touched[1..]);
      assert touched == [touched[0]] + touched[1..];
      assert touched[0] in touched;
    }
  }

  function EndOf(offset: nat, length: nat): nat {
    if length > 0 then offset + length else 0
  }

  function Larger(x: nat, y: nat): nat {
    if x > y then x else y
  }

  lemma MemRangeIs(stack: Stack, a: nat, b: nat)
    ensures var need := MemRange(stack, a, b);
            need.ok && !need.overflow ==> a < |stack| && b < |stack| && need.size == EndOf(stack[a], stack[b])
  {
    hide RangeEnd;
  }

  lemma MemRangesIs(stack: Stack, a: nat, b: nat, c: nat, d: nat)
    ensures var need := MemRanges(stack, a, b, c, d);
            need.ok && !need.overflow ==>
              && a < |stack| && b < |stack| && c < |stack| && d < |stack|
              && need.size == Larger(EndOf(stack[a], stack[b]), EndOf(stack[c], stack[d]))
  {
    hide MemRange, EndOf;
    MemRangeIs(stack, a, b);
    MemRangeReads(stack, a, b);
    MemRangeIs(stack, c, d);
  }

  lemma FarthestOne(s: Stretch)
    ensures Farthest([s]) == EndOf(s.offset, s.length)
  {
    assert [s][1..] == [];
  }

  lemma FarthestTwo(x: Stretch, y: Stretch)
    ensures Farthest([x, y]) == Larger(EndOf(y.offset, y.length), EndOf(x.offset, x.length))
  {
    assert [x, y][1..] == [y];
    FarthestOne(y);
  }

  lemma MemSizeIs(op: byte, stack: Stack)
    ensures var need := MemSize(op, stack);
            need.ok && !need.overflow ==> Reach(op) <= |stack| && need.size == Farthest(Touched(op, stack))
  {
    hide MemRange, MemRanges, Farthest;
    if IsCall(op) {
      CallMemory(op, stack);
    } else {
      PlainMemory(op, stack);
    }
  }

  lemma CallMemory(op: byte, stack: Stack)
    requires IsCall(op)
    ensures var need := MemSize(op, stack);
            need.ok && !need.overflow ==> Reach(op) <= |stack| && need.size == Farthest(Touched(op, stack))
  {
    hide MemRange, MemRanges, Farthest, EndOf, Pow256, Larger;
    if op == CALL || op == CALLCODE {
      MemRangesIs(stack, 5, 6, 3, 4);
      if 7 <= |stack| {
        FarthestTwo(Stretch(stack[3], stack[4]), Stretch(stack[5], stack[6]));
      }
    } else {
      MemRangesIs(stack, 4, 5, 2, 3);
      if 6 <= |stack| {
        FarthestTwo(Stretch(stack[2], stack[3]), Stretch(stack[4], stack[5]));
      }
    }
  }

  lemma PlainMemory(op: byte, stack: Stack)
    requires !IsCall(op)
    ensures var need := MemSize(op, stack);
            need.ok && !need.overflow ==> Reach(op) <= |stack| && need.size == Farthest(Touched(op, stack))
  {
    hide MemRange, RangeEnd;
    MemRangeIs(stack, 0, 1);
    MemRangeIs(stack, 0, 2);
    MemRangeIs(stack, 1, 2);
    MemRangeIs(stack, 1, 3);
    if 0 < Reach(op) <= |stack| {
      FarthestOne(Touched(op, stack)[0]);
    }
    hide Farthest;
  }

  /** A charge without an error is for the words up to the farthest byte touched, or those there were. */
  lemma WordsCharged(op: byte, stack: Stack, words: nat, chain: Chain)
    requires words <= 0xFFFF_FFFF
    ensures var c := ChargeFor(op, stack, words, chain);
            c.ok ==> Reach(op) <= |stack| && words <= c.words && Farthest(Touched(op, stack)) <= 32 * c.words
                     && (c.words > words ==> 32 * c.words < Farthest(Touched(op, stack)) + 32)
  {
    MemSizeIs(op, stack);
    hide DynamicGas, MemSize, Touched, Farthest, Reach, ToWordSize, StaticGas, Cost;
    var need := MemSize(op, stack);
    Rounded(need.size);
    FeeFits(words, SafeMul(ToWordSize(need.size), 32).0);
  }

  /**
    Every byte an instruction touches lies in memory it has been charged for; and memory grows no
    further than the word of the last byte touched.
  */
  lemma TouchedIsCharged(op: byte, stack: Stack, words: nat, chain: Chain)
    requires words <= 0xFFFF_FFFF
    ensures var c := ChargeFor(op, stack, words, chain);
            c.ok ==> Reach(op) <= |stack|
                     && (forall s :: s in Touched(op, stack) && s.length > 0 ==> s.offset + s.length <= 32 * c.words)
                     && (c.words > words ==> exists s :: s in Touched(op, stack) && s.length > 0 && 32 * (c.words - 1) < s.offset + s.length)
  {
    var c := ChargeFor(op, stack, words, chain);
    WordsCharged(op, stack, words, chain);
    hide ChargeFor, Touched, Reach;
    if c.ok {
      FarthestIs(Touched(op, stack));
    }
  }

  // ----- Prices -----

  /** So much for each word, the last one perhaps not full. */
  function Copying(length: nat, rate: nat): nat {
    rate * ((length + 31) / 32)
  }

  function Logging(topics: nat, length: nat): nat {
    375 * (1 + topics) + 8 * length
  }

  /** What an instruction costs beside its fixed price and its memory, in unbounded arithmetic. */
  function Price(op: byte, stack: Stack, chain: Chain): nat
    requires Reach(op) <= |stack| && (op == EXP ==> 2 <= |stack|)
  {
    if op == EXP then 10 + 50 * ByteLength(stack[1])
    else if op == SHA3 then Copying(stack[1], 6)
    else if op == CREATE2 then Copying(stack[2], 6)
    else if op == EXTCODECOPY then Copying(stack[3], 3)
    else if op in {CALLDATACOPY, CODECOPY, RETURNDATACOPY} then Copying(stack[2], 3)
    else if IsLog(op) then Logging((op - LOG0) as nat, stack[1])
    else if op == CALL then 700 + if stack[2] == 0 then 0 else if chain.newAccount then 34000 else 9000
    else if op == CALLCODE then 700 + if stack[2] == 0 then 0 else 9000
    else if IsCall(op) then 700
    else if op == SSTORE then StoreGas(chain.change)
    else if op == SELFDESTRUCT then if chain.newAccount then 30000 else 5000
    else 0
  }

  lemma WordsOf(length: uint64, rate: uint64)
    ensures ToWordSize(length) * rate == Copying(length, rate)
  {
    assert ToWordSize(length) == (length + 31) / 32;
  }

  lemma DynamicGasIs(op: byte, stack: Stack, fee: uint64, chain: Chain)
    requires fee <= 0x100_0000_0000_0000 && Reach(op) <= |stack|
    ensures var bill := DynamicGas(op, stack, fee, chain);
            bill.ok ==> (op == EXP ==> 2 <= |stack|)
                        && bill.gas == Price(op, stack, chain) + if op == EXP || op == SSTORE || op == SELFDESTRUCT then 0 else fee
  {
    if Copies(op) {
      CopyGasIs(stack, fee, if op == SHA3 then 1 else if op == EXTCODECOPY then 3 else 2, if op == SHA3 || op == CREATE2 then 6 else 3);
    }
    hide ByteLength, CopyGas, Copying;
  }

  lemma CopyGasIs(stack: Stack, fee: uint64, position: nat, rate: uint64)
    requires fee <= 0x100_0000_0000_0000 && position < |stack|
    ensures var bill := CopyGas(stack, fee, position, rate);
            bill.ok ==> bill.gas == fee + Copying(stack[position], rate)
  {
    hide ToWordSize;
    if stack[position] <= MAX {
      WordsOf(stack[position], rate);
    }
    hide Copying;
  }

  /** A charge without an error is the fixed price, the price of the operands and what the memory grown by costs: nothing wraps around. */
  lemma ChargeIs(op: byte, stack: Stack, words: nat, chain: Chain)
    requires words <= 0xFFFF_FFFF
    ensures var c := ChargeFor(op, stack, words, chain);
            c.ok ==> Reach(op) <= |stack| && (op == EXP ==> 2 <= |stack|)
                     && c.gas == StaticGas(op) + Price(op, stack, chain) + Cost(c.words) - Cost(words)
  {
    MemSizeIs(op, stack);
    MemSizeReads(op, stack);
    if op == EXP || op == SSTORE || op == SELFDESTRUCT {
      NoMemory(op, stack);
    }
    hide DynamicGas, MemSize, Touched, Farthest, Reach, ToWordSize, StaticGas, Cost, FeeOf, Price;
    var need := MemSize(op, stack);
    var fee := FeeOf(words, SafeMul(ToWordSize(need.size), 32).0);
    FeeFits(words, SafeMul(ToWordSize(need.size), 32).0);
    if need.size == 0 {
      FeeSmall(words, 0);
    }
    if fee.ok && need.ok && !need.overflow {
      DynamicGasIs(op, need.stack, fee.gas, chain);
    }
  }

  /** The bytes of an exponent: as many as it has digits in base 256. */
  lemma {:induction false} ByteLengthIs(x: nat)
    ensures x < Pow256(ByteLength(x)) && (x > 0 ==> Pow256(ByteLength(x) - 1) <= x)
  {
    if x > 0 {
      ByteLengthIs(x / 256);
    }
  }

  // ----- The data of a push -----

  /** A byte of the code, zero past its end. */
  function ByteAt(code: Code, i: nat, j: nat): nat {
    if i + j < |code| then code[i + j] as nat else 0
  }

  /** A digit of a number in base 256, counted from the lowest. */
  function Digit(value: nat, k: nat): nat {
    value / Pow256(k) % 256
  }

  /** A push puts the bytes after it on the stack, the first one highest, and zeros past the end of the code. */
  lemma {:induction false} PushedBytes(code: Code, i: nat, n: nat, j: nat)
    requires j < n
    ensures Digit(PushData(code, i, n), n - 1 - j) == ByteAt(code, i, j)
  {
    if j < n - 1 {
      PushedBytes(code, i, n - 1, j);
      Shifted(PushData(code, i, n), PushData(code, i, n - 1), Pow256(n - 2 - j));
      hide PushData;
    }
  }

  lemma Shifted(value: nat, rest: nat, power: nat)
    requires power > 0 && rest == value / 256
    ensures value / (256 * power) == rest / power
  {
    var q := rest / power;
    assert q * power <= rest < q * power + power by {
      assert rest == q * power + rest % power;
    }
    assert 256 * rest <= value < 256 * rest + 256;
    assert q * (256 * power) == 256 * (q * power);
    Quotient(value, 256 * power, q);
  }

  lemma Quotient(x: nat, y: nat, q: nat)
    requires y > 0 && q * y <= x < q * y + y
    ensures x / y == q
  {
    var p := x / y;
    assert x == p * y + x % y;
    if p < q {
      Dec.Scale(p + 1, q, y);
    } else if p > q {
      Dec.Scale(q + 1, p, y);
    }
  }
}
