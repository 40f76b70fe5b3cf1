/**
 * Rendering of instruction records and lines to assembly text.
 * Whitespace is normalised: a label is followed by ": ", operands are
 * separated by ", ", and no leading tabs are produced.
 */
module Text {
  import opened Catalog
  import opened Isa

  /** The digit character for a value below 16 (lower-case hex letters, as Python's hex()). */
  function DigitChar(d: nat): (c: char)
    requires d < 16
    ensures if d < 10 then '0' <= c <= '9' else 'a' <= c <= 'f'
  {
    if d < 10 then ('0' as int + d) as char else ('a' as int + d - 10) as char
  }

  /** The value of a digit character, if it is one. */
  function DigitValue(c: char): (r: Option<nat>)
    ensures r.Some? <==> '0' <= c <= '9' || 'a' <= c <= 'f'
    ensures r.Some? ==> r.value < 16
  {
    if '0' <= c <= '9' then Some(c as nat - '0' as nat)
    else if 'a' <= c <= 'f' then Some(c as nat - 'a' as nat + 10)
    else None
  }

  /** Reading a digit back gives the value it was written for. */
  lemma DigitRoundTrip(d: nat)
    requires d < 16
    ensures DigitValue(DigitChar(d)) == Some(d)
  {
  }

  /** The digits of n in base b, most significant first, without leading zeros. */
  function ToBase(n: nat, b: nat): (s: string)
    requires 2 <= b <= 16
    ensures |s| >= 1
    decreases n
  {
    if n < b then [DigitChar(n)] else ToBase(n / b, b) + [DigitChar(n % b)]
  }

  /** The value of a digit string in base b; None if some character is not a base-b digit. */
  function FromBase(s: string, b: nat): (r: Option<nat>)
    requires 2 <= b <= 16
    ensures s == [] ==> r == Some(0)
    decreases |s|
  {
    if s == [] then Some(0)
    else
      match FromBase(s[..|s| - 1], b)
      case None => None
      case Some(high) =>
        match DigitValue(s[|s| - 1])
        case Some(d) => if d < b then Some(high * b + d) else None
        case None => None
  }

  /** Parsing a string with one more digit at the end. */
  lemma FromBaseSnoc(s: string, d: nat, b: nat, high: nat)
    requires 2 <= b <= 16 && d < b
    requires FromBase(s, b) == Some(high)
    ensures FromBase(s + [DigitChar(d)], b) == Some(high * b + d)
  {
    var t := s + [DigitChar(d)];
    assert t[..|t| - 1] == s;
    DigitRoundTrip(d);
  }

  lemma DivMod(n: nat, b: nat)
    requires b > 0
    ensures n % b < b
    ensures (n / b) * b + n % b == n
  {
  }

  lemma FromBaseOneDigit(d: nat, b: nat)
    requires 2 <= b <= 16 && d < b
    ensures FromBase(ToBase(d, b), b) == Some(d)
  {
    var t := ToBase(d, b);
    assert t == [DigitChar(d)];
    assert t[..0] == [];
    DigitRoundTrip(d);
  }

  lemma ToBaseUnfold(n: nat, b: nat)
    requires 2 <= b <= 16 && n >= b
    ensures ToBase(n, b) == ToBase(n / b, b) + [DigitChar(n % b)]
  {
  }

  /** One inductive step of the round trip: a number with more than one digit. */
  lemma FromBaseStep(n: nat, b: nat)
    requires 2 <= b <= 16 && n >= b
    requires FromBase(ToBase(n / b, b), b) == Some(n / b)
    ensures FromBase(ToBase(n, b), b) == Some(n)
  {
    var q := n / b;
    var t := ToBase(q, b);
    var d := n % b;
    assert FromBase(t, b) == Some(q);
    ToBaseUnfold(n, b);
    DivMod(n, b);
    FromBaseSnoc(ToBase(n / b, b), n % b, b, n / b);
  }

  /** Parsing the rendered digits gives back the number: rendering loses nothing. */
  lemma {:induction false} FromBaseToBase(n: nat, b: nat)
    requires 2 <= b <= 16
    ensures FromBase(ToBase(n, b), b) == Some(n)
    decreases n
  {
    if n < b {
      FromBaseOneDigit(n, b);
    } else {
      FromBaseToBase(n / b, b);
      FromBaseStep(n, b);
    }
  }

  /** Python's str() of a non-negative integer. */
  function Dec(n: nat): string { ToBase(n, 10) }

  /** Python's hex() of a non-negative integer below 2^63. */
  function Hex(n: nat): string { "0x" + ToBase(n, 16) }

  /** A one-digit number renders as its single character. */
  lemma DecSmall(n: nat)
    requires n < 10
    ensures Dec(n) == [DigitChar(n)]
  {
  }

  function ClassLetter(c: RegClass): char
  {
    if c == Scalar then 's' else 'v'
  }

  function RegText(c: RegClass, n: nat): string
  {
    [ClassLetter(c)] + Dec(n)
  }

  function KindReg(k: Kind, n: nat): string
  {
    [KindLetter(k)] + Dec(n)
  }

  /** The mnemonic suffix of a memory access: `_gath` exactly for a scatter/gather
      load, `_scat` exactly for a scatter/gather store. */
  function MemSuffix(load: bool, m: MemMode): (s: string)
    ensures s == "_gath" <==> load && m == ScatterGather
    ensures s == "_scat" <==> !load && m == ScatterGather
    ensures s == "_v" <==> m == BlockVector
    ensures s == "_32" <==> m == ScalarWord
  {
    match m
    case BlockVector => "_v"
    case ScatterGather => if load then "_gath" else "_scat"
    case ScalarWord => "_32"
  }

  /** The text of one instruction, without label. */
  function RenderInstr(ins: Instr): string
  {
    match ins
    case PointerUpdate(cls, delta) =>
      "add_i " + RegText(cls, 1) + ", " + RegText(cls, 0) + ", " + Dec(delta)
    case Arith(op, form, dest, mask, a, b) =>
      OpName(op) + SuffixText(form.suffix) + " " + KindReg(form.dest, dest) + ", "
      + (if mask.Some? then RegText(Scalar, mask.value) + ", " else "")
      + KindReg(form.srcA, a) + ", "
      + (match b
         case Imm(v) => Dec(v)
         case RegB(r) => KindReg(form.srcB, r))
    case Branch(kind, cond, target) =>
      (match kind
       case Goto => "goto "
       case BTrue => "btrue "
       case BFalse => "bfalse ")
      + (if cond.Some? then RegText(Scalar, cond.value) + ", " else "")
      + Dec(target) + "f"
    case Memory(load, mode, data, ptr) =>
      (if load then "load" else "store") + MemSuffix(load, mode) + " "
      + RegText(DataClass(mode), data) + ", (" + RegText(PointerClass(mode), ptr) + ")"
    case Nop => "nop"
    case SetCr(reg, cr) => "setcr " + RegText(Scalar, reg) + ", " + Dec(cr)
    case GotoBack(target) => "goto " + Dec(target) + "b"
  }

  /** A forward branch renders its target as one digit followed by `f`, and a
      conditional branch names its condition register right after the mnemonic. */
  lemma BranchTargetText(ins: Instr)
    requires ins.Branch? && 1 <= ins.target <= 6
    ensures var s := RenderInstr(ins);
      |s| >= 2 && s[|s| - 1] == 'f' && DigitValue(s[|s| - 2]) == Some(ins.target)
  {
    DecSmall(ins.target);
    DigitRoundTrip(ins.target);
  }

  /** The self-loop renders its target as a digit followed by `b`. */
  lemma BackTargetText(ins: Instr)
    requires ins.GotoBack? && 1 <= ins.target <= 6
    ensures var s := RenderInstr(ins);
      |s| >= 2 && s[|s| - 1] == 'b' && DigitValue(s[|s| - 2]) == Some(ins.target)
  {
    DecSmall(ins.target);
    DigitRoundTrip(ins.target);
  }

  /** An arithmetic instruction begins with its mnemonic, suffix and destination;
      a masked one then names its scalar mask register before the sources. */
  lemma ArithMaskText(ins: Instr)
    requires ins.Arith?
    ensures var head := OpName(ins.op) + SuffixText(ins.form.suffix) + " " + KindReg(ins.form.dest, ins.dest) + ", ";
      head <= RenderInstr(ins)
      && (ins.mask.Some? ==> head + RegText(Scalar, ins.mask.value) + ", " <= RenderInstr(ins))
  {
  }

  /** A memory access names its pointer register in parentheses at the end: a vector
      register exactly for scatter/gather, a scalar one otherwise. */
  lemma MemoryPointerText(ins: Instr)
    requires ins.Memory? && ins.ptr <= 1
    ensures var s := RenderInstr(ins);
      |s| >= 4 && s[|s| - 1] == ')' && s[|s| - 4] == '('
      && (s[|s| - 3] == 'v' <==> ins.mode == ScatterGather)
      && DigitValue(s[|s| - 2]) == Some(ins.ptr)
  {
    DecSmall(ins.ptr);
    DigitRoundTrip(ins.ptr);
  }

  /** Comma-separated hex words. */
  function HexList(ws: seq<nat>): (s: string)
    ensures s == [] <==> ws == []
    ensures ws != [] ==> "0x" <= s
    decreases |ws|
  {
    if ws == [] then ""
    else if |ws| == 1 then Hex(ws[0])
    else HexList(ws[..|ws| - 1]) + ", " + Hex(ws[|ws| - 1])
  }

  /** The text of one line. The preamble renders as its header comment only. */
  function RenderLine(line: Line): (s: string)
    ensures line.Numbered? ==> Dec(line.num) + ":" <= s
  {
    match line
    case Preamble(program) => "# This file auto-generated by " + program
    case StrandEntry(n) => "start_strand" + Dec(n) + ":"
    case Numbered(num, ins) => Dec(num) + ": " + RenderInstr(ins)
    case Unnumbered(ins) => RenderInstr(ins)
    case Align64 => ".align 64"
    case DataLabel => "data:"
    case Longs(ws) => ".long " + HexList(ws)
  }

  /** A line numbered 1..6 renders as that one digit and a colon, so the
      assembler reads back exactly the label the generator assigned. */
  lemma {:induction false} NumberedLabelText(n: nat, ins: Instr)
    requires 1 <= n <= 6
    ensures var s := RenderLine(Numbered(n, ins));
      |s| >= 2 && s[1] == ':' && DigitValue(s[0]) == Some(n)
  {
    DecSmall(n);
    DigitRoundTrip(n);
  }
}
