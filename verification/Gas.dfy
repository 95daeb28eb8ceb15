/** What each instruction is charged before it runs. */
module Gas {
  import opened Word64
  import opened GasMemory
  import opened Jumps

  function Pow256(n: nat): (r: nat)
    ensures r > 0
  {
    if n == 0 then 1 else 256 * Pow256(n - 1)
  }

  /** Words have thirty-two bytes and are unsigned. */
  type Word = x: nat | x < Pow256(32)

  /** The operand stack, top first. */
  type Stack = seq<Word>

  const EXP: byte := 0x0A
  const SHA3: byte := 0x20
  const CALLDATACOPY: byte := 0x37
  const CODECOPY: byte := 0x39
  const EXTCODECOPY: byte := 0x3C
  const RETURNDATACOPY: byte := 0x3E
  const MLOAD: byte := 0x51
  const MSTORE: byte := 0x52
  const MSTORE8: byte := 0x53
  const SSTORE: byte := 0x55
  const JUMP: byte := 0x56
  const JUMPI: byte := 0x57
  const LOG0: byte := 0xA0
  const LOG4: byte := 0xA4
  const CREATE: byte := 0xF0
  const CALL: byte := 0xF1
  const CALLCODE: byte := 0xF2
  const RETURN: byte := 0xF3
  const DELEGATECALL: byte := 0xF4
  const STATICCALL: byte := 0xFA
  const CREATE2: byte := 0xFB
  const REVERT: byte := 0xFD
  const INVALID: byte := 0xFE
  const SELFDESTRUCT: byte := 0xFF

  predicate IsCall(op: byte) {
    op == CALL || op == CALLCODE || op == DELEGATECALL || op == STATICCALL
  }

  predicate IsLog(op: byte) {
    LOG0 <= op <= LOG4
  }

  /** The instructions after which a frame goes on; all others end it. */
  predicate Continues(op: byte) {
    || 0x01 <= op <= 0x0B || 0x10 <= op <= 0x1D || op == SHA3 || 0x30 <= op <= 0x45 || 0x50 <= op <= 0x5B
    || 0x60 <= op <= 0x9F || IsLog(op) || op == CREATE || op == CREATE2 || IsCall(op)
  }

  /** The fixed part of the charge. */
  function StaticGas(op: byte): nat {
    if op == 0x01 || op == 0x03 then 3
    else if op == 0x02 || 0x04 <= op <= 0x07 || op == 0x0B then 5
    else if op == 0x08 || op == 0x09 then 8
    else if 0x10 <= op <= 0x1D then 3
    else if op == SHA3 then 30
    else if op == 0x31 || op == 0x3B || op == 0x3F then 700
    else if op == 0x35 || op == CALLDATACOPY || op == CODECOPY then 3
    else if op == EXTCODECOPY || op == 0x40 then 20
    else if 0x30 <= op <= 0x3D || 0x41 <= op <= 0x45 || op == 0x50 then 2
    else if op == MLOAD || op == MSTORE || op == MSTORE8 then 3
    else if op == 0x54 then 800
    else if op == JUMP then 8
    else if op == JUMPI then 10
    else if op == 0x58 || op == 0x59 || op == 0x5A then 2
    else if op == JUMPDEST then 1
    else if 0x60 <= op <= 0x9F then 3
    else if op == CREATE then 32000
    else if op == CALL || op == CALLCODE then 40
    else 0
  }

  /** The instructions whose charge can be nothing although the frame goes on. */
  predicate MayBeFree(op: byte) {
    op == RETURNDATACOPY || op == CREATE2
  }

  // ----- Reading operands -----

  /** An operand that was read, the stack after that, and whether there was one. */
  datatype Read = Read(value: Word, stack: Stack, ok: bool)

  /** Reads an operand by copying it to the top and popping it; when there is none, the top is popped instead. */
  function Get(stack: Stack, n: nat): Read {
    if n < |stack| then Read(stack[n], stack, true)
    else if stack != [] then Read(stack[0], stack[1..], false)
    else Read(0, [], false)
  }

  /** The size of memory an operand range reaches up to, and whether that overflows. */
  function RangeEnd(offset: nat, length: nat): (r: (uint64, bool))
    ensures r.1 <==> length > 0 && offset + length > MAX
    ensures !r.1 ==> r.0 == if length == 0 then 0 else offset + length
  {
    if length > MAX then (0, true)
    else if length == 0 then (0, false)
    else if offset > MAX then (0, true)
    else (Plus(offset, length), offset + length > MAX)
  }

  /** The size of memory an instruction reaches up to, whether that overflows, and how reading its operands went. */
  datatype Need = Need(size: uint64, overflow: bool, stack: Stack, ok: bool)

  function MemRange(stack: Stack, a: nat, b: nat): Need {
    var offset := Get(stack, a);
    var length := Get(offset.stack, b);
    var end := RangeEnd(offset.value, length.value);
    Need(end.0, end.1, length.stack, offset.ok && length.ok)
  }

  function MemWord(stack: Stack, length: nat): Need {
    var offset := Get(stack, 0);
    var end := RangeEnd(offset.value, length);
    Need(end.0, end.1, offset.stack, offset.ok)
  }

  /** The larger of an input and an output range. */
  function MemRanges(stack: Stack, a: nat, b: nat, c: nat, d: nat): Need {
    var x := MemRange(stack, a, b);
    if x.overflow then Need(0, true, x.stack, x.ok) else
    var y := MemRange(x.stack, c, d);
    if y.overflow then Need(0, true, y.stack, x.ok && y.ok)
    else Need(if x.size > y.size then x.size else y.size, false, y.stack, x.ok && y.ok)
  }

  function MemSize(op: byte, stack: Stack): Need {
    if op == SHA3 || IsLog(op) || op == RETURN || op == REVERT then MemRange(stack, 0, 1)
    else if op == CALLDATACOPY || op == CODECOPY || op == RETURNDATACOPY then MemRange(stack, 0, 2)
    else if op == EXTCODECOPY then MemRange(stack, 1, 3)
    else if op == MLOAD || op == MSTORE then MemWord(stack, 32)
    else if op == MSTORE8 then MemWord(stack, 1)
    else if op == CREATE || op == CREATE2 then MemRange(stack, 1, 2)
    else if op == CALL || op == CALLCODE then MemRanges(stack, 5, 6, 3, 4)
    else if op == DELEGATECALL || op == STATICCALL then MemRanges(stack, 4, 5, 2, 3)
    else Need(0, false, stack, true)
  }

  // ----- The part of the charge that depends on operands -----

  const GAS_CALLS: nat := 700

  /** A charge, the stack after working it out, and whether that went well. */
  datatype Bill = Bill(gas: nat, stack: Stack, ok: bool)

  /** How a store changes what is stored. */
  datatype Change = Set | Reset | Clear | Unchanged

  /** What charges depend on of storage and accounts, which are not part of the model. */
  datatype Chain = Chain(change: Change, newAccount: bool)

  function StoreGas(change: Change): nat {
    match change
    case Set => 20000
    case Reset => 5000
    case Clear => 5000
    case Unchanged => 200
  }

  /** The bytes a word takes without its leading zeros. */
  function ByteLength(x: nat): nat {
    if x == 0 then 0 else 1 + ByteLength(x / 256)
  }

  /** Charges for copying as many words as the operand at a position says. */
  function CopyGas(stack: Stack, fee: uint64, position: nat, rate: uint64): Bill {
    var length := Get(stack, position);
    if length.value > MAX then Bill(0, length.stack, false) else
    var words := SafeMul(ToWordSize(length.value), rate);
    if words.1 then Bill(0, length.stack, false) else
    var sum := SafeAdd(fee, words.0);
    if sum.1 then Bill(0, length.stack, false) else Bill(sum.0, length.stack, length.ok)
  }

  function LogGas(stack: Stack, fee: uint64, topics: nat): Bill
    requires topics <= 4 && fee <= 0x100_0000_0000_0000
  {
    var length := Get(stack, 1);
    if length.value > MAX then Bill(0, length.stack, false) else
    var data := SafeMul(length.value, 8);
    if data.1 then Bill(0, length.stack, false) else
    var sum := SafeAdd(fee + 375 + topics * 375, data.0);
    if sum.1 then Bill(0, length.stack, false) else Bill(sum.0, length.stack, length.ok)
  }

  function CallGas(op: byte, stack: Stack, fee: uint64, chain: Chain): Bill {
    if op == DELEGATECALL || op == STATICCALL then Bill(fee + GAS_CALLS, stack, true) else
    var value := Get(stack, 2);
    var transfer := if value.value == 0 then 0 else if op == CALL && chain.newAccount then 34000 else 9000;
    if op == CALLCODE then Bill(fee + GAS_CALLS + transfer, value.stack, value.ok) else
    var target := Get(value.stack, 1);
    Bill(fee + GAS_CALLS + transfer, target.stack, value.ok && target.ok)
  }

  predicate Copies(op: byte) {
    op == SHA3 || op == CALLDATACOPY || op == CODECOPY || op == RETURNDATACOPY || op == EXTCODECOPY || op == CREATE2
  }

  /** The varying part of the charge, given the fee for memory. */
  function DynamicGas(op: byte, stack: Stack, fee: uint64, chain: Chain): Bill
    requires fee <= 0x100_0000_0000_0000
  {
    if op == EXP then
      var exponent := Get(stack, 1);
      Bill(ByteLength(exponent.value) * 50 + 10, exponent.stack, exponent.ok)
    else if Copies(op) then
      CopyGas(stack, fee, if op == SHA3 then 1 else if op == EXTCODECOPY then 3 else 2, if op == SHA3 || op == CREATE2 then 6 else 3)
    else if IsLog(op) then LogGas(stack, fee, (op - LOG0) as nat)
    else if IsCall(op) then CallGas(op, stack, fee, chain)
    else if op == SSTORE then Bill(StoreGas(chain.change), stack, true)
    else if op == SELFDESTRUCT then Bill(if chain.newAccount then 30000 else 5000, stack, true)
    else Bill(fee, stack, true)
  }

  /** The whole charge for an instruction, and the words of memory it is left with. */
  datatype Charge = Charge(gas: nat, words: nat, stack: Stack, ok: bool)

  function ChargeFor(op: byte, stack: Stack, words: nat, chain: Chain): Charge
    requires words <= 0xFFFF_FFFF
  {
    var need := MemSize(op, stack);
    var rounded := SafeMul(ToWordSize(need.size), 32);
    var fee := FeeOf(words, rounded.0);
    FeeFits(words, rounded.0);
    var bill := if fee.ok then DynamicGas(op, need.stack, fee.gas, chain) else Bill(0, need.stack, false);
    var fits := rounded.0 <= 32 * words || rounded.0 <= MAX_CAPACITY;
    Charge(StaticGas(op) + bill.gas, fee.words, bill.stack, need.ok && !need.overflow && !rounded.1 && bill.ok && fits)
  }

  lemma FeeFits(words: nat, size: uint64)
    ensures FeeOf(words, size).gas <= 0x100_0000_0000_0000
    ensures words <= FeeOf(words, size).words && (words <= 0xFFFF_FFFF ==> FeeOf(words, size).words <= 0xFFFF_FFFF)
    ensures FeeOf(words, size).gas == Cost(FeeOf(words, size).words) - Cost(words)
  {
    if size <= SIZE_LIMIT {
      WordBytes(size);
      NothingOverflows(ToWordSize(size));
    }
  }

  lemma FeeSmall(words: nat, size: uint64)
    requires size <= 32
    ensures FeeOf(words, SafeMul(ToWordSize(size), 32).0).ok
    ensures size == 0 ==> FeeOf(words, SafeMul(ToWordSize(size), 32).0) == Fee(0, words, true)
  {
  }

  /** Looks up and works out the charge for an instruction, growing its memory on the way. */
  method GasLookUp(op: byte, stack: Stack, m: Memory, chain: Chain) returns (gas: nat, stack': Stack, ok: bool)
    requires m.Valid()
    modifies m
    ensures Charge(gas, m.words, stack', ok) == ChargeFor(op, stack, old(m.words), chain)
    ensures ok ==> m.Valid()
  {
    hide Cost, MemSize, DynamicGas, ToWordSize, StaticGas;
    var need := MemSize(op, stack);
    Rounded(need.size);
    var rounded := SafeMul(ToWordSize(need.size), 32);
    var fee, charged := m.MemGasCost(rounded.0);
    var bill := if charged then DynamicGas(op, need.stack, fee, chain) else Bill(0, need.stack, false);
    var grown, _ := m.Grow(rounded.0);
    return StaticGas(op) + bill.gas, bill.stack, need.ok && !need.overflow && !rounded.1 && bill.ok && grown;
  }

  /** A store at 2^37 is charged three, and fails, but only after the zeros up to there have been set aside. */
  lemma UnchargedStore(chain: Chain)
    ensures ChargeFor(MSTORE, [0x20_0000_0000, 0], 0, chain) == Charge(3, 0, [0x20_0000_0000, 0], false)
    ensures MemSize(MSTORE, [0x20_0000_0000, 0]).size == 0x20_0000_0020 > SIZE_LIMIT
  {
    FeeFits(0, 0x20_0000_0020);
  }

  // ----- What every charge keeps to -----

  lemma {:induction false} ByteLengthBound(x: nat, n: nat)
    requires x < Pow256(n)
    ensures ByteLength(x) <= n
  {
    if x > 0 {
      ByteLengthBound(x / 256, n - 1);
    }
  }

  lemma CopyBound(length: uint64, rate: uint64)
    requires 0 < rate <= 6
    ensures ToWordSize(length) * rate <= 6 * 0x800_0000_0000_0000
    ensures length > 0 ==> ToWordSize(length) * rate >= rate
  {
    var words := ToWordSize(length);
    assert words <= 0x800_0000_0000_0000;
    assert words * rate <= words * 6;
    if length > 0 {
      assert words >= 1;
    }
  }

  lemma CopyGasBounds(stack: Stack, fee: uint64, position: nat, rate: uint64)
    requires 0 < rate <= 6 && fee <= 0x100_0000_0000_0000
    ensures var bill := CopyGas(stack, fee, position, rate);
            && bill.gas <= 0x4000_0000_0000_0000
            && (bill.ok ==> bill.gas >= fee && position < |stack| && bill.stack == stack && (stack[position] > 0 ==> bill.gas > 0))
            && (stack == [] ==> bill.stack == [])
  {
    var length := Get(stack, position);
    if length.value <= MAX {
      CopyBound(length.value, rate);
    }
    hide ToWordSize, Plus, Times;
  }

  lemma LogGasBounds(stack: Stack, fee: uint64, topics: nat)
    requires topics <= 4 && fee <= 0x100_0000_0000_0000
    ensures var bill := LogGas(stack, fee, topics);
            bill.gas <= MAX && (bill.ok ==> bill.gas >= fee + 375) && (stack == [] ==> bill.stack == [])
  {
  }

  lemma CallGasBounds(op: byte, stack: Stack, fee: uint64, chain: Chain)
    requires fee <= 0x100_0000_0000_0000
    ensures var bill := CallGas(op, stack, fee, chain);
            GAS_CALLS + fee <= bill.gas <= 0x4000_0000_0000_0000 && (stack == [] ==> bill.stack == [])
  {
  }

  /** Where the frame goes on and nothing is fixed, the varying part says what is paid. */
  lemma Unpriced(op: byte)
    requires Continues(op) && StaticGas(op) == 0
    ensures op == EXP || op == SSTORE || MayBeFree(op) || IsLog(op) || op == DELEGATECALL || op == STATICCALL
  {
  }

  lemma Priced(op: byte)
    ensures StaticGas(op) <= 32000
    ensures IsLog(op) ==> StaticGas(op) == 0
  {
  }

  ghost predicate Bounded(op: byte, stack: Stack, fee: uint64, bill: Bill) {
    && (bill.ok && op != EXP && op != SSTORE && op != SELFDESTRUCT ==> bill.gas >= fee)
    && (!IsLog(op) ==> bill.gas <= 0x4000_0000_0000_0000) && bill.gas <= MAX
    && (bill.ok && (op == EXP || op == SSTORE || IsLog(op)) ==> bill.gas > 0)
    && (bill.ok && MayBeFree(op) ==> 2 < |stack| && bill.stack == stack && (bill.gas == 0 ==> stack[2] == 0))
    && (IsCall(op) ==> bill.gas >= GAS_CALLS)
    && (stack == [] ==> bill.stack == [])
  }

  /** The varying part covers the fee for memory, fits its width, and is free for two instructions only. */
  lemma DynamicGasBounds(op: byte, stack: Stack, fee: uint64, chain: Chain)
    requires fee <= 0x100_0000_0000_0000
    ensures Bounded(op, stack, fee, DynamicGas(op, stack, fee, chain))
  {
    hide CopyGas, LogGas, CallGas, ByteLength;
    if op == EXP {
      ByteLengthBound(Get(stack, 1).value, 32);
    } else if Copies(op) {
      CopyGasBounds(stack, fee, if op == SHA3 then 1 else if op == EXTCODECOPY then 3 else 2, if op == SHA3 || op == CREATE2 then 6 else 3);
    } else if IsLog(op) {
      LogGasBounds(stack, fee, (op - LOG0) as nat);
    } else if IsCall(op) {
      CallGasBounds(op, stack, fee, chain);
    }
  }

  lemma MemSizeEmpty(op: byte)
    ensures var need := MemSize(op, []);
            !need.overflow && need.stack == [] && need.size <= 32 && (MayBeFree(op) ==> !need.ok) && (IsCall(op) ==> need.size == 0)
  {
  }

  lemma NoMemory(op: byte, stack: Stack)
    requires op == EXP || op == SSTORE || op == SELFDESTRUCT
    ensures MemSize(op, stack) == Need(0, false, stack, true)
  {
  }

  lemma MemRangeReads(stack: Stack, a: nat, b: nat)
    ensures MemRange(stack, a, b).ok ==> MemRange(stack, a, b).stack == stack
  {
  }

  lemma MemRangesReads(stack: Stack, a: nat, b: nat, c: nat, d: nat)
    ensures MemRanges(stack, a, b, c, d).ok ==> MemRanges(stack, a, b, c, d).stack == stack
  {
    hide MemRange;
    MemRangeReads(stack, a, b);
    MemRangeReads(stack, c, d);
  }

  lemma MemSizeReads(op: byte, stack: Stack)
    ensures MemSize(op, stack).ok ==> MemSize(op, stack).stack == stack
  {
    hide MemRange, MemRanges;
    MemRangeReads(stack, 0, 1);
    MemRangeReads(stack, 0, 2);
    MemRangeReads(stack, 1, 2);
    MemRangeReads(stack, 1, 3);
    MemRangesReads(stack, 5, 6, 3, 4);
    MemRangesReads(stack, 4, 5, 2, 3);
  }

  /**
    What a charge comes to. It covers the fixed part and the growth of memory in full, and fits 64
    bits. An instruction after which a frame goes on is free only if it is one of two and
    there are operands for it; and on an empty stack no call is cheaper than its base price.
  */
  lemma ChargeBounds(op: byte, stack: Stack, words: nat, chain: Chain)
    requires words <= 0xFFFF_FFFF
    ensures var c := ChargeFor(op, stack, words, chain);
            && StaticGas(op) <= c.gas <= MAX && words <= c.words <= 0xFFFF_FFFF
            && (c.ok ==> StaticGas(op) + Cost(c.words) - Cost(words) <= c.gas)
            && (c.ok && Continues(op) && c.gas == 0 ==> MayBeFree(op) && stack != [])
            && (c.ok && op == CREATE2 && c.gas == 0 ==> 2 < |stack| && stack[2] == 0 && c.stack == stack)
            && (stack == [] ==> c.stack == [] && (IsCall(op) ==> c.gas >= GAS_CALLS))
  {
    hide Cost, DynamicGas, MemSize, StaticGas, Continues, ToWordSize, FeeOf;
    var need := MemSize(op, stack);
    var rounded := SafeMul(ToWordSize(need.size), 32);
    var fee := FeeOf(words, rounded.0);
    FeeFits(words, rounded.0);
    if fee.ok {
      DynamicGasBounds(op, need.stack, fee.gas, chain);
    }
    MemSizeReads(op, stack);
    if stack == [] {
      MemSizeEmpty(op);
    }
    if op == EXP || op == SSTORE || op == SELFDESTRUCT {
      NoMemory(op, stack);
    }
    if need.size <= 32 {
      FeeSmall(words, need.size);
    }
    Priced(op);
    if Continues(op) && StaticGas(op) == 0 {
      Unpriced(op);
    }
  }
}
