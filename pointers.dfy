/**
 * Bounded pointer drift. Register 1 of each class starts as a copy of
 * register 0 (done by the bootstrap). Tracking only what body instructions
 * do to those two registers, the offset of register 1 from register 0 stays
 * a multiple of 64 in [0, 1024] along any sequence of body instructions,
 * in whatever order and with whatever skipped by branches.
 */
module Pointers {
  import opened Isa

  /** The offset of c1 from c0 after one more instruction; None once either pointer is clobbered. */
  function Step(off: Option<nat>, ins: Instr, c: RegClass): Option<nat>
  {
    if ins.PointerUpdate? && ins.cls == c then Some(ins.delta)
    else match Writes(ins)
      case Some(r) => if r.cls == c && r.n <= 1 then None else off
      case None => off
  }

  /** The offset of c1 from c0 after running the instructions, starting from a copy (offset 0). */
  function Offset(run: seq<Instr>, c: RegClass): Option<nat>
  {
    if run == [] then Some(0) else Step(Offset(run[..|run| - 1], c), run[|run| - 1], c)
  }

  /** Along any run of body instructions the computed pointer stays a multiple of 64
      at most 1024 bytes past the base pointer: updates never accumulate. */
  lemma {:induction false} DriftBounded(run: seq<Instr>, c: RegClass)
    requires forall k :: 0 <= k < |run| ==> BodyWellFormed(run[k])
    ensures Offset(run, c).Some?
    ensures Offset(run, c).value % 64 == 0 && Offset(run, c).value <= 1024
  {
    if run != [] {
      var last := run[|run| - 1];
      DriftBounded(run[..|run| - 1], c);
      BodyWrites(last);
    }
  }
}
