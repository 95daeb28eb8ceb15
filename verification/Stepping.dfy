/** What one turn of the interpreter loop makes of a frame, kind of instruction by kind. */
module Stepping {
  import opened Word64
  import opened GasMemory
  import opened Jumps
  import opened Gas
  import opened Interpreter
  import opened Semantics

  /** The instruction is there, its charge worked out without an error, and that and what it takes besides paid for. */
  ghost predicate Affords(code: Code, f: Frame, outside: Outside, op: byte, c: Charge)
    requires f.words <= 0xFFFF_FFFF
  {
    && op == OpAt(code, f.pc) && c == ChargeFor(op, f.stack, f.words, outside.chain)
    && c.ok && c.gas <= f.left
  }

  /** The turn ends the frame with an error. */
  ghost predicate Fails(turn: Turn) {
    turn.Ends? && !turn.end.ok
  }

  // ----- Calls -----

  /** The operands of a call are all there; the gas, the value if there is one, and the size of the output fit 64 bits. */
  predicate CallOperands(op: byte, stack: Stack) {
    if op == CALL || op == CALLCODE then 7 <= |stack| && stack[0] <= MAX && stack[2] <= MAX && stack[6] <= MAX
    else 6 <= |stack| && stack[0] <= MAX && stack[5] <= MAX
  }

  /** The gas handed on: as much as is asked for if there is as much, and else all but a sixty-fourth. */
  predicate Handed(left: nat, asked: nat, handed: nat) {
    if asked <= left then handed == asked else handed <= left && 64 * (left - handed) <= left < 64 * (left - handed) + 64
  }

  lemma HandedIsLimit(left: uint64, asked: nat, handed: nat)
    requires Handed(left, asked, handed)
    ensures handed == CallLimit(left, asked)
  {
  }

  /** How the callee ends, on the gas handed to it; one without code ends at once. */
  ghost function Callee(outside: Outside, handed: uint64, env: nat -> Outside, at: nat): End {
    if outside.accepts && outside.code != [] then Run(outside.code, handed, env, at)
    else End(handed, 0, at, outside.accepts)
  }

  /**
    A call that is paid for and not refused hands on gas; when the callee has ended, the caller
    goes on at the next instruction, with what it kept and what the callee left, and in place of
    the operands it has a one exactly if the callee ended without an error. Only a callee whose
    results cannot be kept ends the caller too.
  */
  lemma CallGoes(code: Code, f: Frame, env: nat -> Outside, start: uint64, op: byte, c: Charge, left: uint64, handed: uint64, given: End)
    requires Fits(f, start) && IsCall(op) && Affords(code, f, env(f.at), op, c)
    requires CallOperands(op, f.stack) && !env(f.at).fails && left == f.left - c.gas - env(f.at).extra
    requires Handed(left, f.stack[0], handed) && given == Callee(env(f.at), handed, env, f.at + 1)
    ensures given.left <= handed <= left
    ensures Step(code, f, env, start) ==
            if given.ok && !env(f.at).kept then Ends(End(left - handed + given.left, 0, given.at, false))
            else Goes(Frame(f.pc + 1, left - handed + given.left, c.words,
                            [if given.ok then 1 else 0] + f.stack[if op == CALL || op == CALLCODE then 7 else 6..], given.at))
  {
    hide ChargeFor, Run, Continues, Pow256, After, AfterCall, Fitting, Operands, CallLimit;
    var paid := Paid(f, c);
    ChargeReads(op, f.stack, f.words, env(f.at).chain);
    HandedIsLimit(left, f.stack[0], handed);
    Calls(op);
    CalleeReturns(code, op, paid, env(f.at), left, handed, given);
    StepGoes(code, f, env, start, c, paid, given);
  }

  lemma CalleeReturns(code: Code, op: byte, paid: Frame, outside: Outside, left: uint64, handed: uint64, given: End)
    requires IsCall(op) && op == OpAt(code, paid.pc) && CallOperands(op, paid.stack) && !outside.fails && left == paid.left - outside.extra
    requires handed == CallLimit(left, paid.stack[0]) && given.left <= handed
    ensures Spawn(op, paid.stack, paid.left, outside).limit == handed
    ensures After(code, op, paid, outside, given) ==
            if given.ok && !outside.kept then Ends(End(left - handed + given.left, 0, given.at, false))
            else Goes(Frame(paid.pc + 1, left - handed + given.left, paid.words,
                            [if given.ok then 1 else 0] + paid.stack[if op == CALL || op == CALLCODE then 7 else 6..], given.at))
  {
    hide Pow256, CallLimit;
    Calls(op);
  }

  lemma Calls(op: byte)
    ensures IsCall(op) || IsCreate(op) || IsPush(op) || op == JUMP || op == JUMPI ==> Continues(op)
    ensures IsCall(op) || IsCreate(op) ==> op != JUMP && op != JUMPI && !IsPush(op)
    ensures IsPush(op) ==> op != JUMP && op != JUMPI
    ensures IsCreate(op) ==> !IsCall(op)
  {
  }

  /** In all other cases a call ends its frame with an error. */
  lemma CallFails(code: Code, f: Frame, env: nat -> Outside, start: uint64, op: byte, c: Charge)
    requires Fits(f, start) && IsCall(op) && op == OpAt(code, f.pc) && c == ChargeFor(op, f.stack, f.words, env(f.at).chain)
    requires !c.ok || f.left < c.gas + env(f.at).extra || !CallOperands(op, f.stack) || env(f.at).fails
    ensures Fails(Step(code, f, env, start))
  {
    hide ChargeFor, Run, Continues, Pow256;
    ChargeReads(op, f.stack, f.words, env(f.at).chain);
    Calls(op);
  }

  // ----- Creations -----

  predicate CreateOperands(op: byte, stack: Stack) {
    (if op == CREATE2 then 4 else 3) <= |stack| && stack[0] <= MAX
  }

  /** How the code of a new account ends, which runs on all the gas; its length is an operand. */
  ghost function Constructor(outside: Outside, length: nat, left: uint64, env: nat -> Outside, at: nat): End {
    if outside.accepts && outside.code != [] && |outside.code| == length then Run(outside.code, left, env, at)
    else End(left, 0, at, outside.accepts)
  }

  /**
    A creation that is paid for and not refused runs the code of the new account on all the gas;
    the frame goes on with what that leaves, and in place of the operands it has the address of
    the account if it was made, and else nothing.
  */
  lemma CreateGoes(code: Code, f: Frame, env: nat -> Outside, start: uint64, op: byte, c: Charge, left: uint64, given: End)
    requires Fits(f, start) && IsCreate(op) && Affords(code, f, env(f.at), op, c)
    requires CreateOperands(op, f.stack) && !env(f.at).fails && left == f.left - c.gas - env(f.at).extra
    requires given == Constructor(env(f.at), f.stack[2], left, env, f.at + 1)
    ensures given.left <= left
    ensures Step(code, f, env, start) ==
            if given.ok && !env(f.at).kept then Ends(End(given.left, 0, given.at, false))
            else Goes(Frame(f.pc + 1, given.left, c.words,
                            [if given.ok then env(f.at).address else 0] + f.stack[if op == CREATE2 then 4 else 3..], given.at))
  {
    hide ChargeFor, Run, Continues, Pow256, After, AfterCreate, Fitting, Operands;
    var paid := Paid(f, c);
    ChargeReads(op, f.stack, f.words, env(f.at).chain);
    Calls(op);
    ConstructorReturns(code, op, paid, env(f.at), left, given);
    StepGoes(code, f, env, start, c, paid, given);
  }

  lemma ConstructorReturns(code: Code, op: byte, paid: Frame, outside: Outside, left: uint64, given: End)
    requires IsCreate(op) && op == OpAt(code, paid.pc) && CreateOperands(op, paid.stack) && !outside.fails && left == paid.left - outside.extra
    requires given.left <= left
    ensures Spawn(op, paid.stack, paid.left, outside).limit == left
    ensures After(code, op, paid, outside, given) ==
            if given.ok && !outside.kept then Ends(End(given.left, 0, given.at, false))
            else Goes(Frame(paid.pc + 1, given.left, paid.words,
                            [if given.ok then outside.address else 0] + paid.stack[if op == CREATE2 then 4 else 3..], given.at))
  {
    hide Pow256;
    Calls(op);
  }

  /** In all other cases a creation ends its frame with an error. */
  lemma CreateFails(code: Code, f: Frame, env: nat -> Outside, start: uint64, op: byte, c: Charge)
    requires Fits(f, start) && IsCreate(op) && op == OpAt(code, f.pc) && c == ChargeFor(op, f.stack, f.words, env(f.at).chain)
    requires !c.ok || f.left < c.gas + env(f.at).extra || !CreateOperands(op, f.stack) || env(f.at).fails
    ensures Fails(Step(code, f, env, start))
  {
    hide ChargeFor, Run, Continues, Pow256;
    ChargeReads(op, f.stack, f.words, env(f.at).chain);
    Calls(op);
  }

  // ----- Jumps, pushes, and the rest -----

  /** A jump goes exactly to a valid destination on top of the stack. */
  lemma JumpGoes(code: Code, f: Frame, env: nat -> Outside, start: uint64, c: Charge)
    requires Fits(f, start) && Affords(code, f, env(f.at), JUMP, c)
    ensures Step(code, f, env, start) ==
            if f.stack != [] && f.stack[0] <= MAX && f.stack[0] in Destinations(code, 0)
            then Goes(Frame(f.stack[0], f.left - c.gas, c.words, f.stack[1..], f.at + 1))
            else Ends(End(f.left - c.gas, 0, f.at + 1, false))
  {
    hide ChargeFor, Run, Continues, Pow256, Destinations;
    ChargeReads(JUMP, f.stack, f.words, env(f.at).chain);
    Calls(JUMP);
  }

  /** A conditional jump goes there unless the second operand is zero; then it goes on, whatever fits 64 bits for a target. */
  lemma JumpIfGoes(code: Code, f: Frame, env: nat -> Outside, start: uint64, c: Charge)
    requires Fits(f, start) && Affords(code, f, env(f.at), JUMPI, c)
    ensures Step(code, f, env, start) ==
            if |f.stack| >= 2 && f.stack[0] <= MAX && (f.stack[1] == 0 || f.stack[0] in Destinations(code, 0))
            then Goes(Frame(if f.stack[1] == 0 then f.pc + 1 else f.stack[0], f.left - c.gas, c.words, f.stack[2..], f.at + 1))
            else Ends(End(f.left - c.gas, 0, f.at + 1, false))
  {
    hide ChargeFor, Run, Continues, Pow256, Destinations;
    ChargeReads(JUMPI, f.stack, f.words, env(f.at).chain);
    Calls(JUMPI);
  }

  /** The number whose digits are the bytes from here on, zeros past the end of the code. */
  ghost predicate Spells(value: nat, code: Code, i: nat, n: nat) {
    && value < Pow256(n)
    && forall j :: 0 <= j < n ==> Digit(value, n - 1 - j) == ByteAt(code, i, j)
  }

  lemma PushedSpells(code: Code, pc: nat)
    requires pc < |code| && IsPush(code[pc])
    ensures Spells(Pushed(code, pc), code, pc + 1, (code[pc] - PUSH1) as nat + 1)
  {
    hide Pow256, PushData, Digit;
    var i, n := pc + 1, (code[pc] - PUSH1) as nat + 1;
    forall j | 0 <= j < n
      ensures Digit(PushData(code, i, n), n - 1 - j) == ByteAt(code, i, j)
    {
      PushedBytes(code, i, n, j);
    }
  }

  /** A push goes on behind its data, with the number they spell on the stack. */
  lemma PushGoes(code: Code, f: Frame, env: nat -> Outside, start: uint64, op: byte, c: Charge) returns (value: Word)
    requires Fits(f, start) && IsPush(op) && Affords(code, f, env(f.at), op, c) && !env(f.at).fails
    ensures Spells(value, code, f.pc + 1, (op - PUSH1) as nat + 1)
    ensures Step(code, f, env, start) ==
            Goes(Frame(f.pc + 1 + (op - PUSH1) as nat + 1, f.left - c.gas, c.words, [value] + f.stack, f.at + 1))
  {
    hide ChargeFor, Run, Continues, Pow256, Pushed, Spells;
    ChargeReads(op, f.stack, f.words, env(f.at).chain);
    Calls(op);
    value := Pushed(code, f.pc);
    PushedSpells(code, f.pc);
  }

  /** Any other instruction after which a frame goes on takes what it takes and passes on to the next; what it leaves on the stack is open. */
  lemma PlainGoes(code: Code, f: Frame, env: nat -> Outside, start: uint64, op: byte, c: Charge)
    requires Fits(f, start) && Affords(code, f, env(f.at), op, c)
    requires Continues(op) && !IsCall(op) && !IsCreate(op) && !IsPush(op) && op != JUMP && op != JUMPI
    ensures var outside, turn := env(f.at), Step(code, f, env, start);
            if c.gas + outside.extra <= f.left && !outside.fails
            then turn == Goes(Frame(f.pc + 1, f.left - c.gas - outside.extra, c.words, outside.stack, f.at + 1))
            else Fails(turn)
  {
    hide ChargeFor, Run, Continues, Pow256;
  }

  /** An instruction that cannot be paid for, or whose charge cannot be worked out, ends its frame with an error; gas it cannot take it leaves. */
  lemma UnpaidFails(code: Code, f: Frame, env: nat -> Outside, start: uint64, op: byte, c: Charge)
    requires Fits(f, start) && op == OpAt(code, f.pc) && c == ChargeFor(op, f.stack, f.words, env(f.at).chain)
    requires c.gas > f.left || !c.ok
    ensures Fails(Step(code, f, env, start))
    ensures c.gas > f.left ==> Step(code, f, env, start).end.left == f.left
  {
    hide ChargeFor, Run, Continues, Pow256, After;
    if c.gas <= f.left && Continues(op) {
      var paid := Paid(f, c);
      var child := Spawn(op, c.stack, paid.left, env(f.at));
      SpawnLess(op, f, c, env(f.at), start);
      var given := if child.code == [] then End(child.limit, 0, paid.at, env(f.at).accepts) else Run(child.code, child.limit, env, paid.at);
      AfterMoves(code, op, paid, env(f.at), given);
    }
  }

  /** A frame ends without an error exactly at an instruction to stop, to return, or to destroy the account that is not refused. */
  lemma HaltsIff(code: Code, f: Frame, env: nat -> Outside, start: uint64, op: byte, c: Charge)
    requires Fits(f, start) && op == OpAt(code, f.pc) && c == ChargeFor(op, f.stack, f.words, env(f.at).chain)
    ensures var turn := Step(code, f, env, start);
            && (turn.Ends? && turn.end.ok <==>
                  && c.ok && c.gas <= f.left
                  && (op == STOP || op == RETURN || (op == SELFDESTRUCT && f.stack != [] && c.gas + env(f.at).extra <= f.left && !env(f.at).fails)))
            && (turn.Ends? && turn.end.ok ==>
                  turn.end == End(f.left - c.gas - (if op == SELFDESTRUCT then env(f.at).extra else 0), 32 * c.words, f.at, true))
  {
    hide ChargeFor, Run, Continues, Pow256, After;
    ChargeReads(op, f.stack, f.words, env(f.at).chain);
    StepMoves(code, f, env, start);
    Halts(op);
  }

  lemma Halts(op: byte)
    ensures op == STOP || op == RETURN || op == SELFDESTRUCT ==> !Continues(op)
  {
  }
}
