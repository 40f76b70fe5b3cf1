/**
 * The generator's constant catalogs: the operand forms an arithmetic
 * instruction may take and the binary opcodes it may use.
 */
module Catalog {

  /** An operand kind: scalar register, vector register or immediate. */
  datatype Kind = S | V | I

  /** The mask variant of an arithmetic mnemonic. */
  datatype Suffix = Unmasked | Mask | InvMask

  /** One operand form: destination kind, first and second source kinds, mask variant. */
  datatype Form = Form(dest: Kind, srcA: Kind, srcB: Kind, suffix: Suffix)

  /** The operand-form table, in the order the source lists it. */
  const FORMS: seq<Form> := [
    Form(S, S, S, Unmasked),
    Form(V, V, S, Unmasked),
    Form(V, V, S, Mask),
    Form(V, V, S, InvMask),
    Form(V, V, V, Unmasked),
    Form(V, V, V, Mask),
    Form(V, V, V, InvMask),
    Form(S, S, I, Unmasked),
    Form(V, V, I, Unmasked),
    Form(V, V, I, Mask),
    Form(V, V, I, InvMask),
    Form(V, S, I, Unmasked),
    Form(V, S, I, Mask),
    Form(V, S, I, InvMask)
  ]

  /** The binary opcodes. */
  datatype BinOp = Or | And | Xor | AddI | SubI | Ashr | Shr | Shl

  /** The opcode list, in the order the source lists it. */
  const BINOPS: seq<BinOp> := [Or, And, Xor, AddI, SubI, Ashr, Shr, Shl]

  /** Every form has a register destination and a register first source;
      only the second source may be an immediate. */
  lemma FormsHaveRegisterDestinations()
    ensures |FORMS| == 14
    ensures forall k :: 0 <= k < |FORMS| ==> FORMS[k].dest != I && FORMS[k].srcA != I
  {
  }

  /** Every opcode appears in the list exactly once, and the list has eight entries. */
  lemma BinOpsAreDistinct()
    ensures |BINOPS| == 8
    ensures forall op: BinOp :: op in BINOPS
    ensures forall j, k :: 0 <= j < k < |BINOPS| ==> BINOPS[j] != BINOPS[k]
  {
    forall op: BinOp ensures op in BINOPS {
      match op
      case Or => assert BINOPS[0] == op;
      case And => assert BINOPS[1] == op;
      case Xor => assert BINOPS[2] == op;
      case AddI => assert BINOPS[3] == op;
      case SubI => assert BINOPS[4] == op;
      case Ashr => assert BINOPS[5] == op;
      case Shr => assert BINOPS[6] == op;
      case Shl => assert BINOPS[7] == op;
    }
  }

  /** The mnemonic text of an opcode. */
  function OpName(op: BinOp): (s: string)
    ensures |s| >= 2 && forall k :: 0 <= k < |s| ==> 'a' <= s[k] <= 'z' || s[k] == '_'
  {
    match op
    case Or => "or"
    case And => "and"
    case Xor => "xor"
    case AddI => "add_i"
    case SubI => "sub_i"
    case Ashr => "ashr"
    case Shr => "shr"
    case Shl => "shl"
  }

  /** Distinct opcodes have distinct mnemonics. */
  lemma OpNameInjective(p: BinOp, q: BinOp)
    requires OpName(p) == OpName(q)
    ensures p == q
  {
  }

  /** The mnemonic suffix for a mask variant. */
  function SuffixText(m: Suffix): (s: string)
    ensures s == "" <==> m == Unmasked
  {
    match m
    case Unmasked => ""
    case Mask => "_mask"
    case InvMask => "_invmask"
  }

  /** The register-class letter of an operand kind. */
  function KindLetter(k: Kind): char
  {
    match k
    case S => 's'
    case V => 'v'
    case I => 'i'
  }
}
