/**
  Which positions of a program are instructions, and which of them a jump may go to: section
  9.4.3 of the Ethereum Yellow Paper.
*/
module Jumps {
  newtype byte = x: int | 0 <= x < 256

  type Code = seq<byte>

  const STOP: byte := 0x00
  const JUMPDEST: byte := 0x5B
  const PUSH1: byte := 0x60
  const PUSH32: byte := 0x7F

  predicate IsPush(op: byte) {
    PUSH1 <= op <= PUSH32
  }

  /** The position after an instruction and the data it carries. */
  function Next(code: Code, i: nat): (n: nat)
    requires i < |code|
    ensures n > i
  {
    i + if IsPush(code[i]) then (code[i] - PUSH1) as nat + 2 else 1
  }

  /** The positions at which instructions start, decoding from `i` on. */
  ghost function Instructions(code: Code, i: nat): set<nat>
    decreases |code| - i
  {
    if i >= |code| then {} else {i} + Instructions(code, Next(code, i))
  }

  /** The valid jump destinations from `i` on, as the Yellow Paper defines them. */
  ghost function Destinations(code: Code, i: nat): set<nat>
    decreases |code| - i
  {
    if i >= |code| then {}
    else if code[i] == JUMPDEST then {i} + Destinations(code, Next(code, i))
    else Destinations(code, Next(code, i))
  }

  lemma {:induction false} DestinationsAre(code: Code, i: nat, n: nat)
    ensures n in Destinations(code, i) <==> n in Instructions(code, i) && n < |code| && code[n] == JUMPDEST
    decreases |code| - i
  {
    if i < |code| {
      DestinationsAre(code, Next(code, i), n);
      InstructionsAfter(code, Next(code, i), i);
    }
  }

  lemma {:induction false} InstructionsAfter(code: Code, i: nat, n: nat)
    requires n < i
    ensures n !in Instructions(code, i)
    decreases |code| - i
  {
    if i < |code| {
      InstructionsAfter(code, Next(code, i), n);
    }
  }

  /** What follows an instruction is an instruction, unless the program is over. */
  lemma {:induction false} NextIsInstruction(code: Code, i: nat, pc: nat)
    requires pc in Instructions(code, i) && pc < |code| && Next(code, pc) < |code|
    ensures Next(code, pc) in Instructions(code, i)
    decreases |code| - i
  {
    if pc != i {
      NextIsInstruction(code, Next(code, i), pc);
    }
  }

  /** Whether a position within the program is inside the data of a push: exactly when no instruction starts there. */
  method IsInsidePushData(code: Code, n: nat) returns (inside: bool)
    ensures inside <==> n < |code| && n !in Instructions(code, 0)
  {
    if |code| <= n {
      return false;
    }
    var i: nat := 0;
    while i < n
      invariant n in Instructions(code, 0) <==> n in Instructions(code, i)
      decreases n - i
    {
      if IsPush(code[i]) {
        i := i + (code[i] - PUSH1) as nat + 2;
      } else {
        i := i + 1;
      }
    }
    if i > n {
      InstructionsAfter(code, i, n);
    }
    return i > n;
  }

  /** The instruction at a position; past the end it is a stop. */
  function OpAt(code: Code, n: nat): byte {
    if n < |code| then code[n] else STOP
  }

  /** A jump goes through exactly to the valid destinations. */
  method Jump(code: Code, to: nat, pc: nat) returns (pc': nat, ok: bool)
    ensures ok <==> to in Destinations(code, 0)
    ensures pc' == if ok then to else pc
  {
    DestinationsAre(code, 0, to);
    InstructionsWithin(code, 0, to);
    var inside := IsInsidePushData(code, to);
    if OpAt(code, to) != JUMPDEST || inside {
      return pc, false;
    }
    return to, true;
  }

  lemma {:induction false} InstructionsWithin(code: Code, i: nat, n: nat)
    ensures n in Instructions(code, i) ==> i <= n < |code|
    decreases |code| - i
  {
    if i < |code| {
      InstructionsWithin(code, Next(code, i), n);
    }
  }

  /** Where execution may be: at an instruction, or past the end. */
  ghost predicate Boundary(code: Code, pc: nat) {
    pc >= |code| || pc in Instructions(code, 0)
  }

  lemma NextBoundary(code: Code, pc: nat)
    requires Boundary(code, pc) && pc < |code|
    ensures Boundary(code, Next(code, pc))
  {
    if Next(code, pc) < |code| {
      NextIsInstruction(code, 0, pc);
    }
  }

  lemma DestinationBoundary(code: Code, to: nat)
    requires to in Destinations(code, 0)
    ensures Boundary(code, to)
  {
    DestinationsAre(code, 0, to);
  }
}
