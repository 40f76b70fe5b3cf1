/**
 * The per-slot instruction synthesizer.
 *
 * Each slot first draws from [0, 7]; a zero makes a computed-pointer update.
 * Otherwise a draw from [0, 2] picks arithmetic, branch or memory, and the
 * chosen kind makes its own draws. The predicates below state, for each kind,
 * exactly which draws a slot consumes, in which order, over which ranges, and
 * how their values become the instruction's fields.
 */
module Synth {
  import opened Catalog
  import opened Isa
  import opened Random

  /** A draw asked for over [lo, hi]. */
  predicate Over(d: Draw, lo: int, hi: int)
  {
    d.lo == lo && d.hi == hi
  }

  /** The draws after the leading zero of a computed-pointer update: the class, then k with delta k * 64. */
  predicate PointerUpdateDraws(ts: seq<Draw>, ins: Instr)
  {
    |ts| == 2 && Over(ts[0], 0, 1) && Over(ts[1], 0, 16)
    && ins.PointerUpdate?
    && ins.cls == (if ts[0].value == 0 then Scalar else Vector)
    && ins.delta == ts[1].value * 64
  }

  /** The draws of an arithmetic slot after the kind draw: form, opcode, dest, srcA,
      srcB and mask registers (always all four), then an immediate only for an
      immediate third operand. */
  predicate ArithDraws(ts: seq<Draw>, ins: Instr)
  {
    |ts| >= 6
    && Over(ts[0], 0, |FORMS| - 1) && 0 <= ts[0].value < |FORMS|
    && Over(ts[1], 0, |BINOPS| - 1) && 0 <= ts[1].value < |BINOPS|
    && Over(ts[2], 2, 8) && Over(ts[3], 2, 8) && Over(ts[4], 2, 8) && Over(ts[5], 2, 8)
    && var form := FORMS[ts[0].value];
    |ts| == (if form.srcB == I then 7 else 6)
    && ins.Arith?
    && ins.form == form
    && ins.op == BINOPS[ts[1].value]
    && ins.dest == ts[2].value
    && ins.srcA == ts[3].value
    && (ins.mask.Some? <==> form.suffix != Unmasked)
    && (ins.mask.Some? ==> ins.mask.value == ts[5].value)
    && (if form.srcB == I
        then Over(ts[6], 0, 0x1FF) && ins.srcB.Imm? && ins.srcB.value == ts[6].value
        else ins.srcB.RegB? && ins.srcB.reg == ts[4].value)
  }

  /** The draws of a branch slot after the kind draw: the branch kind, a condition
      register for the conditional kinds, then the forward target. */
  predicate BranchDraws(ts: seq<Draw>, ins: Instr)
  {
    |ts| >= 2 && Over(ts[0], 0, 2)
    && ins.Branch?
    && ins.kind == (if ts[0].value == 0 then Goto else if ts[0].value == 1 then BTrue else BFalse)
    && (if ts[0].value == 0
        then |ts| == 2 && Over(ts[1], 1, 6) && ins.cond.None? && ins.target == ts[1].value
        else (|ts| == 3 && Over(ts[1], 2, 8) && Over(ts[2], 1, 6)
              && ins.cond.Some? && ins.cond.value == ts[1].value && ins.target == ts[2].value))
  }

  /** The draws of a memory slot after the kind draw: addressing mode, pointer
      register, load-or-store, then the data register. */
  predicate MemoryDraws(ts: seq<Draw>, ins: Instr)
  {
    |ts| == 4
    && Over(ts[0], 0, 2) && Over(ts[1], 0, 1) && Over(ts[2], 0, 1) && Over(ts[3], 2, 8)
    && ins.Memory?
    && ins.mode == (if ts[0].value == 0 then BlockVector else if ts[0].value == 1 then ScatterGather else ScalarWord)
    && ins.ptr == ts[1].value
    && ins.load == (ts[2].value != 0)
    && ins.data == ts[3].value
  }

  /** The whole draw sequence of one slot and the instruction it yields. */
  predicate SlotDraws(ds: seq<Draw>, ins: Instr)
  {
    |ds| >= 2 && Over(ds[0], 0, 7)
    && (if ds[0].value == 0 then PointerUpdateDraws(ds[1..], ins)
        else (Over(ds[1], 0, 2)
              && (if ds[1].value == 0 then ArithDraws(ds[2..], ins)
                  else if ds[1].value == 1 then BranchDraws(ds[2..], ins)
                  else MemoryDraws(ds[2..], ins))))
  }

  /** ds are the draws of one slot, and the well-formed body instruction ins is what they make. */
  predicate Slot(ds: seq<Draw>, ins: Instr)
  {
    SlotDraws(ds, ins) && BodyWellFormed(ins)
  }

  /** How many draws a slot yielding ins consumes. */
  function DrawCount(ins: Instr): nat
  {
    match ins
    case PointerUpdate(_, _) => 3
    case Arith(_, form, _, _, _, _) => if form.srcB == I then 9 else 8
    case Branch(kind, _, _) => if kind == Goto then 4 else 5
    case Memory(_, _, _, _) => 6
    case _ => 0
  }

  /** The draw log of an arithmetic slot after the kind draw, from the drawn values. */
  function ArithTrace(fk: int, ok: int, dest: int, rega: int, regb: int, maskreg: int, imm: int): (ts: seq<Draw>)
    requires 0 <= fk < |FORMS|
    ensures |ts| == (if FORMS[fk].srcB == I then 7 else 6)
  {
    [Draw(0, |FORMS| - 1, fk), Draw(0, |BINOPS| - 1, ok),
     Draw(2, 8, dest), Draw(2, 8, rega), Draw(2, 8, regb), Draw(2, 8, maskreg)]
    + (if FORMS[fk].srcB == I then [Draw(0, 0x1FF, imm)] else [])
  }

  /** Drawn values in their ranges, assembled as the source does, satisfy ArithDraws. */
  lemma ArithAssembled(fk: int, ok: int, dest: int, rega: int, regb: int, maskreg: int, imm: int, ins: Instr)
    requires 0 <= fk < |FORMS| && 0 <= ok < |BINOPS|
    requires 2 <= dest <= 8 && 2 <= rega <= 8 && 2 <= regb <= 8 && 2 <= maskreg <= 8 && 0 <= imm <= 0x1FF
    requires ins == Arith(BINOPS[ok], FORMS[fk], dest,
                          if FORMS[fk].suffix != Unmasked then Some(maskreg) else None, rega,
                          if FORMS[fk].srcB == I then Imm(imm) else RegB(regb))
    ensures ArithDraws(ArithTrace(fk, ok, dest, rega, regb, maskreg, imm), ins)
    ensures BodyWellFormed(ins)
  {
    assert FORMS[fk] in FORMS;
  }

  /** In-bounds arithmetic draws make a well-formed arithmetic instruction. */
  lemma ArithWellFormed(ts: seq<Draw>, ins: Instr)
    requires InBounds(ts) && ArithDraws(ts, ins)
    ensures BodyWellFormed(ins)
  {
    assert FORMS[ts[0].value] in FORMS;
  }

  /** The four register draws of an arithmetic slot: destination, first source,
      second source and mask, each from the operand registers 2..8. */
  method DrawRegisters(rng: Rng) returns (dest: int, rega: int, regb: int, maskreg: int)
    requires rng.Valid()
    modifies rng
    ensures rng.Valid()
    ensures 2 <= dest <= 8 && 2 <= rega <= 8 && 2 <= regb <= 8 && 2 <= maskreg <= 8
    ensures rng.draws == old(rng.draws) + [Draw(2, 8, dest), Draw(2, 8, rega), Draw(2, 8, regb), Draw(2, 8, maskreg)]
  {
    dest := rng.RandInt(2, 8);
    rega := rng.RandInt(2, 8);
    regb := rng.RandInt(2, 8);
    maskreg := rng.RandInt(2, 8);
  }

  method SynthesizeArith(rng: Rng) returns (ins: Instr, ghost ts: seq<Draw>)
    requires rng.Valid()
    modifies rng
    ensures rng.Valid()
    ensures rng.draws == old(rng.draws) + ts
    ensures ArithDraws(ts, ins)
    ensures BodyWellFormed(ins)
  {
    var form, fk := rng.Choice(FORMS);
    var op, ok := rng.Choice(BINOPS);
    var dest, rega, regb, maskreg := DrawRegisters(rng);
    var mask := if form.suffix != Unmasked then Some(maskreg) else None;
    ghost var immValue := 0;
    if form.srcB == I {
      var imm := rng.RandInt(0, 0x1FF);
      ins := Arith(op, form, dest, mask, rega, Imm(imm));
      immValue := imm;
    } else {
      ins := Arith(op, form, dest, mask, rega, RegB(regb));
    }
    ArithAssembled(fk, ok, dest, rega, regb, maskreg, immValue, ins);
    ts := ArithTrace(fk, ok, dest, rega, regb, maskreg, immValue);
  }

  method SynthesizeBranch(rng: Rng) returns (ins: Instr, ghost ts: seq<Draw>)
    requires rng.Valid()
    modifies rng
    ensures rng.Valid()
    ensures rng.draws == old(rng.draws) + ts
    ensures BranchDraws(ts, ins)
    ensures BodyWellFormed(ins)
  {
    var branchType := rng.RandInt(0, 2);
    if branchType == 0 {
      var target := rng.RandInt(1, 6);
      ins := Branch(Goto, None, target);
      ts := [Draw(0, 2, branchType), Draw(1, 6, target)];
    } else {
      var cond := rng.RandInt(2, 8);
      var target := rng.RandInt(1, 6);
      ins := Branch(if branchType == 1 then BTrue else BFalse, Some(cond), target);
      ts := [Draw(0, 2, branchType), Draw(2, 8, cond), Draw(1, 6, target)];
    }
  }

  method SynthesizeMemory(rng: Rng) returns (ins: Instr, ghost ts: seq<Draw>)
    requires rng.Valid()
    modifies rng
    ensures rng.Valid()
    ensures rng.draws == old(rng.draws) + ts
    ensures MemoryDraws(ts, ins)
    ensures BodyWellFormed(ins)
  {
    var opType := rng.RandInt(0, 2);
    var ptrReg := rng.RandInt(0, 1);
    var isLoad := rng.RandInt(0, 1);
    var data := rng.RandInt(2, 8);
    var mode := if opType == 0 then BlockVector else if opType == 1 then ScatterGather else ScalarWord;
    ins := Memory(isLoad != 0, mode, data, ptrReg);
    ts := [Draw(0, 2, opType), Draw(0, 1, ptrReg), Draw(0, 1, isLoad), Draw(2, 8, data)];
  }

  /** The draws of a computed-pointer slot, assembled. */
  lemma PointerSlot(first: int, ts: seq<Draw>, ins: Instr)
    requires first == 0 && PointerUpdateDraws(ts, ins)
    ensures SlotDraws([Draw(0, 7, first)] + ts, ins)
  {
    assert ([Draw(0, 7, first)] + ts)[1..] == ts;
  }

  /** The draws of any other slot, assembled from the kind draw and the kind's own draws. */
  lemma OtherSlot(first: int, instType: int, ts: seq<Draw>, ins: Instr)
    requires first != 0
    requires instType == 0 ==> ArithDraws(ts, ins)
    requires instType == 1 ==> BranchDraws(ts, ins)
    requires instType != 0 && instType != 1 ==> MemoryDraws(ts, ins)
    ensures SlotDraws([Draw(0, 7, first), Draw(0, 2, instType)] + ts, ins)
  {
    assert ([Draw(0, 7, first), Draw(0, 2, instType)] + ts)[2..] == ts;
  }

  /** One instruction slot (the loop body of the source, after the label). */
  method SynthesizeSlot(rng: Rng) returns (ins: Instr, ghost ds: seq<Draw>)
    requires rng.Valid()
    modifies rng
    ensures rng.Valid()
    ensures rng.draws == old(rng.draws) + ds
    ensures Slot(ds, ins)
  {
    var first := rng.RandInt(0, 7);
    if first == 0 {
      // computed pointer, always relative to the base register; the source then continues
      var which := rng.RandInt(0, 1);
      var k := rng.RandInt(0, 16);
      ins := PointerUpdate(if which == 0 then Scalar else Vector, k * 64);
      ghost var ts := [Draw(0, 1, which), Draw(0, 16, k)];
      PointerSlot(first, ts, ins);
      ds := [Draw(0, 7, first)] + ts;
      return;
    }
    var instType := rng.RandInt(0, 2);
    ghost var ts;
    if instType == 0 {
      ins, ts := SynthesizeArith(rng);
    } else if instType == 1 {
      ins, ts := SynthesizeBranch(rng);
    } else {
      ins, ts := SynthesizeMemory(rng);
    }
    OtherSlot(first, instType, ts, ins);
    ds := [Draw(0, 7, first), Draw(0, 2, instType)] + ts;
  }

  /** The draws of a slot, when within their bounds, always make a well-formed body instruction. */
  lemma SlotDrawsWellFormed(ds: seq<Draw>, ins: Instr)
    requires InBounds(ds) && SlotDraws(ds, ins)
    ensures BodyWellFormed(ins)
  {
    if ds[0].value != 0 && ds[1].value == 0 {
      var ts := ds[2..];
      assert InBounds(ts);
      ArithWellFormed(ts, ins);
    }
  }

  /** A slot consumes exactly DrawCount(ins) draws: three for a pointer update, six plus
      two kind draws for arithmetic (seven when the third operand is an immediate),
      four or five for a branch, six for memory. */
  lemma SlotDrawLength(ds: seq<Draw>, ins: Instr)
    requires SlotDraws(ds, ins)
    ensures |ds| == DrawCount(ins)
  {
  }

  /** A computed-pointer update happens exactly when the first draw is zero, and its
      delta is a multiple of 64 no larger than 1024, added to the base register. */
  lemma PointerUpdateExactlyOnZero(ds: seq<Draw>, ins: Instr)
    requires InBounds(ds) && SlotDraws(ds, ins)
    ensures ins.PointerUpdate? <==> ds[0].value == 0
    ensures ins.PointerUpdate? ==> ins.delta % 64 == 0 && ins.delta <= 1024
  {
  }

  /** A memory slot loads exactly when its load/store draw is 1 and stores when it is 0. */
  lemma LoadExactlyOnOne(ds: seq<Draw>, ins: Instr)
    requires InBounds(ds) && SlotDraws(ds, ins) && ins.Memory?
    ensures |ds| == 6
    ensures ins.load <==> ds[4].value == 1
    ensures !ins.load <==> ds[4].value == 0
  {
  }

  /** The draws of a slot determine its instruction. */
  lemma SlotDrawsDeterministic(ds: seq<Draw>, a: Instr, b: Instr)
    requires SlotDraws(ds, a) && SlotDraws(ds, b)
    ensures a == b
  {
  }
}
