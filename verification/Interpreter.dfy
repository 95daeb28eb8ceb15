/**
  The interpreter loop: how a frame moves through its code, what it pays, and the frames it
  starts. What instructions compute, and the code of other accounts, is left open.
*/
module Interpreter {
  import opened Word64
  import opened GasMemory
  import opened Jumps
  import opened Gas
  import Dec

  /**
    What is outside the model at one step: the stack an instruction leaves, further gas it takes,
    whether it fails, and for calls and creations the code, the address of the new account,
    whether the account accepts, and whether its results are kept.
  */
  datatype Outside = Outside(stack: Stack, extra: nat, fails: bool, code: Code, address: Word, accepts: bool, kept: bool, chain: Chain)

  /** A frame between two instructions: `words` is the memory it has, `at` counts the steps of all frames. */
  datatype Frame = Frame(pc: nat, left: uint64, words: nat, stack: Stack, at: nat)

  /** How a frame ended: gas and memory (bytes) it leaves, the step reached, and whether without an error. */
  datatype End = End(left: uint64, memory: nat, at: nat, ok: bool)

  /** One turn of the loop. */
  datatype Turn = Goes(frame: Frame) | Ends(end: End)

  function Settle(ok: bool, frame: Frame): Turn {
    if ok then Goes(frame) else Ends(End(frame.left, 0, frame.at, false))
  }

  function Taken(left: uint64, amount: nat): uint64 {
    if amount <= left then left - amount else left
  }

  /** Takes gas if there is enough. */
  method UseGas(left: uint64, amount: nat) returns (left': uint64, ok: bool)
    ensures ok <==> amount <= left
    ensures left' == Taken(left, amount)
  {
    if left >= amount {
      return left - amount, true;
    }
    return left, false;
  }

  // ----- Jumps and pushes -----

  /** The data of a push, with zeros for what lies past the end of the code. */
  function PushData(code: Code, i: nat, n: nat): (value: nat)
    ensures value < Pow256(n)
  {
    if n == 0 then 0
    else 256 * PushData(code, i, n - 1) + if i + n - 1 < |code| then code[i + n - 1] as nat else 0
  }

  lemma {:induction false} Pow256Monotone(n: nat, m: nat)
    requires n <= m
    ensures Pow256(n) <= Pow256(m)
    decreases m
  {
    if n < m {
      Pow256Monotone(n, m - 1);
    }
  }

  /** What PUSH at `pc` puts on the stack. */
  function Pushed(code: Code, pc: nat): Word
    requires pc < |code| && IsPush(code[pc])
  {
    var n := (code[pc] - PUSH1) as nat + 1;
    Pow256Monotone(n, 32);
    PushData(code, pc + 1, n)
  }

  ghost predicate Lands(code: Code, to: Word) {
    to <= MAX && to in Destinations(code, 0)
  }

  /** A jump, or a conditional one; the target must fit 64 bits even if the jump is not taken. */
  ghost function AfterJump(code: Code, op: byte, f: Frame): Turn {
    if op == JUMP then
      if f.stack != [] && Lands(code, f.stack[0]) then Goes(f.(pc := f.stack[0], stack := f.stack[1..])) else Settle(false, f)
    else if |f.stack| < 2 || f.stack[0] > MAX then Settle(false, f)
    else if f.stack[1] == 0 then Goes(f.(pc := f.pc + 1, stack := f.stack[2..]))
    else if Lands(code, f.stack[0]) then Goes(f.(pc := f.stack[0], stack := f.stack[2..]))
    else Settle(false, f)
  }

  method JumpOrNot(code: Code, op: byte, f: Frame) returns (turn: Turn)
    requires op == JUMP || op == JUMPI
    ensures turn == AfterJump(code, op, f)
  {
    var operands := if op == JUMP then 1 else 2;
    if |f.stack| < operands || f.stack[0] > MAX {
      return Settle(false, f);
    }
    if op == JUMPI && f.stack[1] == 0 {
      return Goes(f.(pc := f.pc + 1, stack := f.stack[2..]));
    }
    var pc, landed := Jump(code, f.stack[0], f.pc);
    return Settle(landed, f.(pc := pc, stack := f.stack[operands..]));
  }

  // ----- Frames started from a frame -----

  /** The gas handed to a callee: what was asked for, or else all but one part in sixty-four. */
  function CallLimit(left: uint64, asked: nat): (limit: uint64)
    ensures limit <= left
    ensures asked > left ==> limit == left - left / 64
  {
    if left < asked then left - left / 64 else asked
  }

  predicate IsCreate(op: byte) {
    op == CREATE || op == CREATE2
  }

  /** An operand as popped: nothing when the stack is used up. */
  function Operand(stack: Stack, n: nat): Word {
    if n < |stack| then stack[n] else 0
  }

  function Operands(op: byte): nat {
    if op == CALL || op == CALLCODE then 7 else if IsCall(op) then 6 else if op == CREATE2 then 4 else 3
  }

  /** Whether the operands of a call or creation are there, and those that must fit 64 bits do. */
  predicate Fitting(op: byte, stack: Stack) {
    && Operands(op) <= |stack| && stack[0] <= MAX
    && (op == CALL || op == CALLCODE ==> stack[2] <= MAX)
    && (IsCall(op) ==> stack[Operands(op) - 1] <= MAX)
  }

  /** The frame to start, if `code` is not empty, and the gas it is handed. */
  datatype Child = Child(code: Code, limit: uint64)

  /** A callee gets a part of the gas; the code of a new account runs on all of it, and is as long as the operand says. */
  function Spawn(op: byte, stack: Stack, left: uint64, outside: Outside): Child {
    var rest := Taken(left, outside.extra);
    if IsCall(op) then
      var asked := Operand(stack, 0);
      Child(if outside.fails || !outside.accepts then [] else outside.code, CallLimit(rest, if asked <= MAX then asked else 0))
    else if IsCreate(op) then
      Child(if |outside.code| == Operand(stack, 2) && outside.accepts then outside.code else [], rest)
    else Child([], 0)
  }

  /** How a call goes on when its callee has ended: unused gas comes back, whether it failed is on the stack. */
  function AfterCall(op: byte, f: Frame, outside: Outside, given: End): Turn
    requires IsCall(op) && given.left <= Spawn(op, f.stack, f.left, outside).limit
  {
    var rest := Taken(f.left, outside.extra);
    if outside.fails then Settle(false, f.(left := rest)) else
    var limit := Spawn(op, f.stack, f.left, outside).limit;
    var left := rest - limit + given.left;
    if outside.extra <= f.left && Fitting(op, f.stack) && (given.ok ==> outside.kept) then
      Goes(Frame(f.pc + 1, left, f.words, [if given.ok then 1 else 0] + f.stack[Operands(op)..], given.at))
    else Settle(false, f.(left := left, at := given.at))
  }

  function AfterCreate(op: byte, f: Frame, outside: Outside, given: End): Turn {
    if outside.extra <= f.left && Fitting(op, f.stack) && !outside.fails && (given.ok ==> outside.kept) then
      Goes(Frame(f.pc + 1, given.left, f.words, [if given.ok then outside.address else 0] + f.stack[Operands(op)..], given.at))
    else Settle(false, f.(left := given.left, at := given.at))
  }

  // ----- One turn of the loop -----

  /** How an instruction that was paid for goes on, when the frame it started (if any) has ended. */
  ghost function After(code: Code, op: byte, f: Frame, outside: Outside, given: End): Turn
    requires op == OpAt(code, f.pc)
    requires given.left <= Spawn(op, f.stack, f.left, outside).limit
  {
    if op == JUMP || op == JUMPI then AfterJump(code, op, f)
    else if IsPush(op) then Settle(!outside.fails, f.(pc := Next(code, f.pc), stack := [Pushed(code, f.pc)] + f.stack))
    else if IsCall(op) then AfterCall(op, f, outside, given)
    else if IsCreate(op) then AfterCreate(op, f, outside, given)
    else Settle(outside.extra <= f.left && !outside.fails, f.(pc := f.pc + 1, left := Taken(f.left, outside.extra), stack := outside.stack))
  }

  /** How an instruction that ends its frame ends it. */
  function Halted(op: byte, c: Charge, left: uint64, outside: Outside): End {
    var rest := if op == SELFDESTRUCT then Taken(left, outside.extra) else left;
    var ok := op == STOP || op == RETURN || (op == SELFDESTRUCT && c.stack != [] && outside.extra <= left && !outside.fails);
    End(rest, if c.ok && ok then 32 * c.words else 0, 0, c.ok && ok)
  }

  /** An error in working out the charge ends the frame, but only after the instruction. */
  function Checked(ok: bool, turn: Turn): Turn {
    if turn.Goes? then Settle(ok, turn.frame) else turn
  }

  /** What holds between instructions: before the first gas is spent there is nothing on the stack. */
  ghost predicate Fits(f: Frame, start: uint64) {
    f.left <= start && f.words <= 0xFFFF_FFFF && (f.left < start || f.stack == [])
  }

  function Paid(f: Frame, c: Charge): Frame
    requires c.gas <= f.left
  {
    Frame(f.pc, f.left - c.gas, c.words, c.stack, f.at + 1)
  }

  /** Charges for the next instruction, then carries it out, with any frame it starts run to its end. */
  ghost function Step(code: Code, f: Frame, env: nat -> Outside, start: uint64): (turn: Turn)
    requires Fits(f, start)
    ensures turn.Goes? ==> Fits(turn.frame, start) && Falls(code, f, turn.frame)
    ensures turn.Ends? ==> turn.end.left <= f.left
    decreases start, 0, 0, 0
  {
    var op, outside := OpAt(code, f.pc), env(f.at);
    var c := ChargeFor(op, f.stack, f.words, outside.chain);
    if c.gas > f.left then Ends(End(f.left, 0, f.at, false))
    else if !Continues(op) then Ends(Halted(op, c, f.left - c.gas, outside).(at := f.at))
    else
      var paid := Paid(f, c);
      var child := Spawn(op, c.stack, paid.left, outside);
      SpawnLess(op, f, c, outside, start);
      var given := if child.code == [] then End(child.limit, 0, paid.at, outside.accepts) else Run(child.code, child.limit, env, paid.at);
      AfterFalls(code, op, f, c, paid, outside, given, start);
      Checked(c.ok, After(code, op, paid, outside, given))
  }

  /** How a frame ends that runs from here on. */
  ghost function Finish(code: Code, f: Frame, env: nat -> Outside, start: uint64): (end: End)
    requires Fits(f, start)
    ensures end.left <= f.left
    decreases start, 1, f.left, Rest(code, f.pc)
  {
    var turn := Step(code, f, env, start);
    if turn.Ends? then turn.end else Finish(code, turn.frame, env, start)
  }

  /** How running code with so much gas ends. Every program stops. */
  ghost function Run(code: Code, gas: uint64, env: nat -> Outside, at: nat): (end: End)
    ensures end.left <= gas
    decreases gas, 2, 0, 0
  {
    Finish(code, Frame(0, gas, 0, [], at), env, gas)
  }

  ghost function Rest(code: Code, pc: nat): nat {
    if pc < |code| then |code| - pc else 0
  }

  /** Each turn takes gas or moves on in the code. */
  ghost predicate Falls(code: Code, f: Frame, f': Frame) {
    f'.left < f.left || (f'.left == f.left && Rest(code, f'.pc) < Rest(code, f.pc))
  }

  /** A frame is handed less than the one that starts it had at first. */
  lemma SpawnLess(op: byte, f: Frame, c: Charge, outside: Outside, start: uint64)
    requires Fits(f, start) && Continues(op) && c == ChargeFor(op, f.stack, f.words, outside.chain) && c.gas <= f.left
    ensures var child := Spawn(op, c.stack, f.left - c.gas, outside);
            child.limit <= f.left - c.gas && (child.code != [] ==> child.limit < start)
  {
    hide ChargeFor, Continues, CallLimit;
    ChargeBounds(op, f.stack, f.words, outside.chain);
  }

  /** How control may pass on: to the next instruction, or from a jump to a valid destination. */
  ghost predicate Moves(code: Code, p: nat, q: nat) {
    && p < |code| && Continues(code[p])
    && if q == Next(code, p) then code[p] != JUMP || q in Destinations(code, 0)
       else (code[p] == JUMP || code[p] == JUMPI) && q in Destinations(code, 0)
  }

  /** An instruction takes no gas back, keeps memory as charged for, and passes control on as it may. */
  lemma AfterMoves(code: Code, op: byte, f: Frame, outside: Outside, given: End)
    requires op == OpAt(code, f.pc) && Continues(op)
    requires given.left <= Spawn(op, f.stack, f.left, outside).limit <= f.left
    ensures var turn := After(code, op, f, outside, given);
            && (turn.Goes? ==> turn.frame.left <= f.left && turn.frame.words == f.words && Moves(code, f.pc, turn.frame.pc))
            && (turn.Ends? ==> turn.end.left <= f.left && !turn.end.ok)
  {
    hide Destinations, PushData, Pow256, Operands, Fitting;
    assert op != STOP;
    if IsCall(op) {
      assert After(code, op, f, outside, given) == AfterCall(op, f, outside, given);
    } else if IsCreate(op) {
      assert After(code, op, f, outside, given) == AfterCreate(op, f, outside, given);
    }
  }

  lemma AfterFalls(code: Code, op: byte, f: Frame, c: Charge, paid: Frame, outside: Outside, given: End, start: uint64)
    requires Fits(f, start) && op == OpAt(code, f.pc) && Continues(op)
    requires c == ChargeFor(op, f.stack, f.words, outside.chain) && c.gas <= f.left && paid == Paid(f, c)
    requires given.left <= Spawn(op, paid.stack, paid.left, outside).limit <= paid.left
    ensures var turn := Checked(c.ok, After(code, op, paid, outside, given));
            && (turn.Goes? ==> Fits(turn.frame, start) && Falls(code, f, turn.frame))
            && (turn.Ends? ==> turn.end.left <= f.left)
  {
    hide ChargeFor, After, Spawn, Continues, Destinations;
    ChargeBounds(op, f.stack, f.words, outside.chain);
    AfterMoves(code, op, paid, outside, given);
  }

  // ----- Runs -----

  /** The frames a run goes through, from the first one. */
  ghost predicate IsTrace(code: Code, gas: uint64, env: nat -> Outside, at: nat, trace: seq<Frame>) {
    && trace != [] && trace[0] == Frame(0, gas, 0, [], at)
    && (forall f :: f in trace ==> Fits(f, gas))
    && forall i :: 0 <= i < |trace| - 1 ==> Step(code, trace[i], env, gas) == Goes(trace[i + 1])
  }

  lemma StepMoves(code: Code, f: Frame, env: nat -> Outside, start: uint64)
    requires Fits(f, start)
    ensures var turn, op := Step(code, f, env, start), OpAt(code, f.pc);
            && (turn.Goes? ==>
              && Moves(code, f.pc, turn.frame.pc)
              && StaticGas(op) + Cost(turn.frame.words) - Cost(f.words) <= f.left - turn.frame.left)
            && (turn.Ends? && turn.end.ok ==>
              && op in {STOP, RETURN, SELFDESTRUCT} && turn.end.memory % 32 == 0
              && StaticGas(op) + Cost(turn.end.memory / 32) - Cost(f.words) <= f.left - turn.end.left)
  {
    hide After, Spawn, Continues, Moves, Cost, StaticGas, ChargeFor, Falls;
    var op, outside := OpAt(code, f.pc), env(f.at);
    var c := ChargeFor(op, f.stack, f.words, outside.chain);
    ChargeBounds(op, f.stack, f.words, outside.chain);
    if c.gas <= f.left && Continues(op) {
      var paid := Paid(f, c);
      var child := Spawn(op, c.stack, paid.left, outside);
      SpawnLess(op, f, c, outside, start);
      var given := if child.code == [] then End(child.limit, 0, paid.at, outside.accepts) else Run(child.code, child.limit, env, paid.at);
      AfterMoves(code, op, paid, outside, given);
    }
  }

  /** The fixed charges of the instructions a run goes through. */
  ghost function StaticTotal(code: Code, trace: seq<Frame>): nat {
    if trace == [] then 0 else StaticTotal(code, trace[..|trace| - 1]) + StaticGas(OpAt(code, trace[|trace| - 1].pc))
  }

  /**
    In every run, each position is that of an instruction or past the end, never inside the data of
    a push; and what was spent up to there covers the fixed charges of all instructions before and,
    besides, all of the memory there is.
  */
  lemma {:induction false} TraceKeeps(code: Code, gas: uint64, env: nat -> Outside, at: nat, trace: seq<Frame>, i: nat)
    requires IsTrace(code, gas, env, at, trace) && i < |trace|
    ensures Boundary(code, trace[i].pc)
    ensures StaticTotal(code, trace[..i]) + Cost(trace[i].words) <= gas - trace[i].left
  {
    hide Boundary, Cost, Step, Moves, Fits, StaticGas;
    if i == 0 {
      FirstKeeps(code);
    } else {
      TraceKeeps(code, gas, env, at, trace, i - 1);
      assert trace[..i][..i - 1] == trace[..i - 1];
      assert Step(code, trace[i - 1], env, gas) == Goes(trace[i - 1 + 1]);
      StepMoves(code, trace[i - 1], env, gas);
      MovesBoundary(code, trace[i - 1].pc, trace[i].pc);
    }
  }

  lemma FirstKeeps(code: Code)
    ensures Boundary(code, 0) && Cost(0) == 0
  {
  }

  lemma MovesBoundary(code: Code, p: nat, q: nat)
    requires Boundary(code, p) && Moves(code, p, q)
    ensures Boundary(code, q)
  {
    NextBoundary(code, p);
    if q in Destinations(code, 0) {
      DestinationBoundary(code, q);
    }
  }

  /** How far a frame can still go. */
  ghost function Potential(code: Code, f: Frame): nat {
    f.left * (|code| + 1) + Rest(code, f.pc)
  }

  lemma PotentialFalls(code: Code, f: Frame, f': Frame)
    requires Falls(code, f, f')
    ensures Potential(code, f') < Potential(code, f)
  {
    if f'.left < f.left {
      Dec.Scale(f'.left + 1, f.left, |code| + 1);
    }
  }

  /** Every run is short: at most as many instructions as gas times the length of the code, and one pass more. */
  lemma {:induction false} TraceShort(code: Code, gas: uint64, env: nat -> Outside, at: nat, trace: seq<Frame>)
    requires IsTrace(code, gas, env, at, trace)
    ensures |trace| <= gas * (|code| + 1) + |code| + 1
  {
    TraceFalls(code, gas, env, at, trace, |trace| - 1);
  }

  lemma {:induction false} TraceFalls(code: Code, gas: uint64, env: nat -> Outside, at: nat, trace: seq<Frame>, i: nat)
    requires IsTrace(code, gas, env, at, trace) && i < |trace|
    ensures i + Potential(code, trace[i]) <= gas * (|code| + 1) + |code|
  {
    hide Step, Fits, Potential, Falls;
    if i == 0 {
      FirstPotential(code, trace[0]);
    } else {
      TraceFalls(code, gas, env, at, trace, i - 1);
      assert Step(code, trace[i - 1], env, gas) == Goes(trace[i - 1 + 1]);
      PotentialFalls(code, trace[i - 1], trace[i]);
    }
  }

  lemma FirstPotential(code: Code, f: Frame)
    ensures Potential(code, f) <= f.left * (|code| + 1) + |code|
  {
  }

  /** From each of its frames on a run ends as the whole of it does. */
  lemma {:induction false} TraceEnds(code: Code, gas: uint64, env: nat -> Outside, at: nat, trace: seq<Frame>, i: nat)
    requires IsTrace(code, gas, env, at, trace) && i < |trace|
    ensures Finish(code, trace[i], env, gas) == Run(code, gas, env, at)
  {
    hide Step, Fits;
    if i > 0 {
      TraceEnds(code, gas, env, at, trace, i - 1);
      assert Step(code, trace[i - 1], env, gas) == Goes(trace[i - 1 + 1]);
    }
  }

  /**
    A run that ends without an error ends at an instruction that halts, and what it spent covers
    all fixed charges and the memory it ends with.
  */
  lemma {:induction false} EndKeeps(code: Code, gas: uint64, env: nat -> Outside, at: nat, trace: seq<Frame>, end: End)
    requires IsTrace(code, gas, env, at, trace) && Step(code, trace[|trace| - 1], env, gas) == Ends(end)
    ensures end == Run(code, gas, env, at)
    ensures end.ok ==> OpAt(code, trace[|trace| - 1].pc) in {STOP, RETURN, SELFDESTRUCT}
    ensures end.ok ==> end.memory % 32 == 0 && StaticTotal(code, trace) + Cost(end.memory / 32) <= gas - end.left
  {
    hide Step, Fits, Cost, StaticGas, Boundary;
    var last := |trace| - 1;
    TraceEnds(code, gas, env, at, trace, last);
    TraceKeeps(code, gas, env, at, trace, last);
    StepMoves(code, trace[last], env, gas);
  }

  // ----- The loop -----

  /** Carries out an instruction that was paid for, given how the frame it started (if any) ended. */
  method Resume(code: Code, op: byte, f: Frame, outside: Outside, given: End) returns (turn: Turn)
    requires op == OpAt(code, f.pc) && given.left <= Spawn(op, f.stack, f.left, outside).limit
    ensures turn == After(code, op, f, outside, given)
  {
    if op == JUMP || op == JUMPI {
      turn := JumpOrNot(code, op, f);
    } else if IsPush(op) {
      turn := Settle(!outside.fails, f.(pc := Next(code, f.pc), stack := [Pushed(code, f.pc)] + f.stack));
    } else if IsCall(op) {
      turn := AfterCall(op, f, outside, given);
    } else if IsCreate(op) {
      turn := AfterCreate(op, f, outside, given);
    } else {
      var left, ok := UseGas(f.left, outside.extra);
      turn := Settle(ok && !outside.fails, f.(pc := f.pc + 1, left := left, stack := outside.stack));
    }
  }

  /** After an error in working out the charge, the memory charged for makes no difference. */
  lemma WordsUnseen(code: Code, op: byte, f: Frame, words: nat, outside: Outside, given: End)
    requires op == OpAt(code, f.pc) && given.left <= Spawn(op, f.stack, f.left, outside).limit
    ensures Checked(false, After(code, op, f.(words := words), outside, given)) == Checked(false, After(code, op, f, outside, given))
  {
    hide Destinations, Operands, Fitting, PushData, Pow256;
  }

  /** A charge as far as it is seen: the words only if there was no error. */
  ghost predicate Shows(c: Charge, c': Charge) {
    c' == c.(words := c'.words) && (c.ok ==> c'.words == c.words)
  }

  lemma StepEnds(code: Code, f: Frame, env: nat -> Outside, start: uint64, c: Charge)
    requires Fits(f, start)
    requires Shows(ChargeFor(OpAt(code, f.pc), f.stack, f.words, env(f.at).chain), c)
    requires c.gas <= f.left ==> !Continues(OpAt(code, f.pc))
    ensures c.gas > f.left ==> Step(code, f, env, start) == Ends(End(f.left, 0, f.at, false))
    ensures c.gas <= f.left ==> Step(code, f, env, start) == Ends(Halted(OpAt(code, f.pc), c, f.left - c.gas, env(f.at)).(at := f.at))
  {
    hide ChargeFor, Continues;
  }

  lemma StepGoes(code: Code, f: Frame, env: nat -> Outside, start: uint64, c: Charge, paid: Frame, given: End)
    requires Fits(f, start)
    requires Shows(ChargeFor(OpAt(code, f.pc), f.stack, f.words, env(f.at).chain), c)
    requires c.gas <= f.left && Continues(OpAt(code, f.pc)) && paid == Paid(f, c)
    requires var child := Spawn(OpAt(code, f.pc), paid.stack, paid.left, env(f.at));
             given == if child.code == [] then End(child.limit, 0, paid.at, env(f.at).accepts) else Run(child.code, child.limit, env, paid.at)
    ensures Step(code, f, env, start) == Checked(c.ok, After(code, OpAt(code, f.pc), paid, env(f.at), given))
  {
    hide ChargeFor, Continues, After, Spawn;
    var op, outside := OpAt(code, f.pc), env(f.at);
    var c' := ChargeFor(op, f.stack, f.words, outside.chain);
    if !c.ok {
      WordsUnseen(code, op, paid, c'.words, outside, given);
    }
    assert Paid(f, c') == paid.(words := c'.words);
  }

  /** Carries out an instruction whose charge is known and can be paid, with any frame it starts run to its end. */
  method Perform(code: Code, f: Frame, c: Charge, env: nat -> Outside, ghost start: uint64) returns (turn: Turn)
    requires Fits(f, start) && Continues(OpAt(code, f.pc)) && c.gas <= f.left
    requires Shows(ChargeFor(OpAt(code, f.pc), f.stack, f.words, env(f.at).chain), c)
    ensures turn == Step(code, f, env, start)
    ensures turn.Goes? ==> c.ok && turn.frame.words == c.words
    decreases start, 0
  {
    hide Step, After, Spawn, ChargeFor, Continues, Run, Moves, IsTrace;
    var op, outside := OpAt(code, f.pc), env(f.at);
    var paid := Paid(f, c);
    var child := Spawn(op, paid.stack, paid.left, outside);
    SpawnLess(op, f, ChargeFor(op, f.stack, f.words, outside.chain), outside, start);
    var given := End(child.limit, 0, paid.at, outside.accepts);
    if child.code != [] {
      var nested;
      given, nested := Execute(child.code, child.limit, env, paid.at);
    }
    turn := Resume(code, op, paid, outside, given);
    AfterMoves(code, op, paid, outside, given);
    StepGoes(code, f, env, start, c, paid, given);
    turn := Checked(c.ok, turn);
  }

  /**
    Runs a frame. The frames it goes through are a run from the first one, and it stops only where
    the instruction cannot be paid for, halts, or ends in an error.
  */
  method Execute(code: Code, gas: uint64, env: nat -> Outside, at: nat) returns (end: End, trace: seq<Frame>)
    ensures IsTrace(code, gas, env, at, trace) && Step(code, trace[|trace| - 1], env, gas) == Ends(end)
    ensures end == Run(code, gas, env, at)
    decreases gas, 1
  {
    hide Cost, Step, After, Spawn, ChargeFor, Continues, Run, Moves, IsTrace;
    var f := Frame(0, gas, 0, [], at);
    trace := [f];
    TraceFirst(code, gas, env, at);
    if code == [] {
      EmptyCode(gas, env, at);
      end := End(gas, 0, at, true);
      EndKeeps(code, gas, env, at, trace, end);
      return;
    }
    var memory := new Memory();
    while true
      invariant IsTrace(code, gas, env, at, trace) && trace != [] && f == trace[|trace| - 1]
      invariant fresh(memory) && memory.Valid() && memory.words == f.words
      decreases f.left, Rest(code, f.pc)
    {
      TraceLast(code, gas, env, at, trace);
      var op, outside := OpAt(code, f.pc), env(f.at);
      var cost, stack, charged := GasLookUp(op, f.stack, memory, outside.chain);
      var c := Charge(cost, memory.capacity / 32, stack, charged);
      if cost > f.left {
        end := End(f.left, 0, f.at, false);
        StepEnds(code, f, env, gas, c);
        EndKeeps(code, gas, env, at, trace, end);
        return;
      }
      if !Continues(op) {
        end := Halted(op, c, f.left - cost, outside).(at := f.at);
        StepEnds(code, f, env, gas, c);
        EndKeeps(code, gas, env, at, trace, end);
        return;
      }
      var turn := Perform(code, f, c, env, gas);
      if turn.Ends? {
        end := turn.end;
        EndKeeps(code, gas, env, at, trace, end);
        return;
      }
      TraceNext(code, gas, env, at, trace, turn.frame);
      f := turn.frame;
      trace := trace + [f];
    }
  }

  lemma EmptyCode(gas: uint64, env: nat -> Outside, at: nat)
    ensures Step([], Frame(0, gas, 0, [], at), env, gas) == Ends(End(gas, 0, at, true))
  {
  }

  lemma TraceFirst(code: Code, gas: uint64, env: nat -> Outside, at: nat)
    ensures IsTrace(code, gas, env, at, [Frame(0, gas, 0, [], at)])
  {
  }

  lemma TraceLast(code: Code, gas: uint64, env: nat -> Outside, at: nat, trace: seq<Frame>)
    requires IsTrace(code, gas, env, at, trace)
    ensures trace != [] && Fits(trace[|trace| - 1], gas)
  {
  }

  lemma TraceNext(code: Code, gas: uint64, env: nat -> Outside, at: nat, trace: seq<Frame>, f: Frame)
    requires IsTrace(code, gas, env, at, trace) && Step(code, trace[|trace| - 1], env, gas) == Goes(f)
    ensures IsTrace(code, gas, env, at, trace + [f])
  {
    hide Step, Fits;
  }
}
