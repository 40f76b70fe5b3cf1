/**
 * The instruction records the generator emits, one per output line, and
 * the structural rules a synthesized body instruction obeys.
 *
 * Registers 0 and 1 of each class are the base and computed address
 * pointers; registers 2..8 are the operation registers.
 */
module Isa {
  import opened Catalog

  datatype Option<T> = None | Some(value: T)

  /** A register class: scalar (s) or vector (v). */
  datatype RegClass = Scalar | Vector

  /** A register, by class and number. */
  datatype Reg = Reg(cls: RegClass, n: nat)

  /** The third operand of an arithmetic instruction. */
  datatype Third = RegB(reg: nat) | Imm(value: nat)

  datatype BranchKind = Goto | BTrue | BFalse

  /** Memory addressing modes: block vector, scatter/gather, scalar word. */
  datatype MemMode = BlockVector | ScatterGather | ScalarWord

  datatype Instr =
    /** add_i s1, s0, delta  or  add_i v1, v0, delta */
    | PointerUpdate(cls: RegClass, delta: nat)
    /** <op><suffix> dest, [mask,] srcA, srcB-or-immediate */
    | Arith(op: BinOp, form: Form, dest: nat, mask: Option<nat>, srcA: nat, srcB: Third)
    /** goto Nf / btrue sC, Nf / bfalse sC, Nf */
    | Branch(kind: BranchKind, cond: Option<nat>, target: nat)
    /** load_* / store_* data, (ptr) */
    | Memory(load: bool, mode: MemMode, data: nat, ptr: nat)
    | Nop
    /** setcr s<reg>, <cr> */
    | SetCr(reg: nat, cr: nat)
    /** goto <target>b */
    | GotoBack(target: nat)

  /** One line of the generated program. */
  datatype Line =
    /** The header comment naming the generating program, standing for the whole bootstrap block. */
    | Preamble(program: string)
    /** start_strand<n>: */
    | StrandEntry(strand: nat)
    /** <num>: <instr> */
    | Numbered(num: nat, instr: Instr)
    | Unnumbered(instr: Instr)
    | Align64
    | DataLabel
    /** .long w, w, ... */
    | Longs(words: seq<nat>)

  /** An operation register, drawn from the free pool. */
  predicate IsOpReg(n: nat) { 2 <= n <= 8 }

  /** The register class a register operand of kind k names. */
  function KindClass(k: Kind): Option<RegClass>
  {
    match k
    case S => Some(Scalar)
    case V => Some(Vector)
    case I => None
  }

  /** Block-vector and scalar modes address through s<ptr>; scatter/gather through v<ptr>. */
  function PointerClass(m: MemMode): RegClass
  {
    if m == ScatterGather then Vector else Scalar
  }

  /** Only the scalar-word mode moves a scalar register. */
  function DataClass(m: MemMode): RegClass
  {
    if m == ScalarWord then Scalar else Vector
  }

  /** The rules every synthesized body instruction obeys. */
  predicate BodyWellFormed(ins: Instr)
  {
    match ins
    case PointerUpdate(_, delta) => delta % 64 == 0 && delta <= 1024
    case Arith(_, form, dest, mask, a, b) =>
      form in FORMS && IsOpReg(dest) && IsOpReg(a)
      && (mask.Some? <==> form.suffix != Unmasked)
      && (mask.Some? ==> IsOpReg(mask.value))
      && (b.Imm? <==> form.srcB == I)
      && (b.Imm? ==> b.value <= 0x1FF)
      && (b.RegB? ==> IsOpReg(b.reg))
    case Branch(kind, cond, target) =>
      1 <= target <= 6
      && (cond.Some? <==> kind != Goto)
      && (cond.Some? ==> IsOpReg(cond.value))
    case Memory(_, _, data, ptr) => IsOpReg(data) && ptr <= 1
    case _ => false
  }

  /** The register an instruction writes, if any. */
  function Writes(ins: Instr): Option<Reg>
  {
    match ins
    case PointerUpdate(cls, _) => Some(Reg(cls, 1))
    case Arith(_, form, dest, _, _, _) =>
      (match KindClass(form.dest)
       case Some(c) => Some(Reg(c, dest))
       case None => None)
    case Memory(load, mode, data, _) => if load then Some(Reg(DataClass(mode), data)) else None
    case _ => None
  }

  /** No body instruction writes register 0 of either class, every arithmetic
      instruction writes a register, and register 1 is written only by the
      computed-pointer update. */
  lemma BodyWrites(ins: Instr)
    requires BodyWellFormed(ins)
    ensures ins.Arith? ==> Writes(ins).Some?
    ensures Writes(ins).Some? ==> Writes(ins).value.n != 0
    ensures Writes(ins).Some? && Writes(ins).value.n == 1 <==> ins.PointerUpdate?
  {
    if ins.Arith? {
      FormsHaveRegisterDestinations();
    }
  }
}
