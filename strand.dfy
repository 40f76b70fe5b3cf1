/**
 * One strand's program: its entry label, TOTAL_INSTRUCTIONS synthesized body
 * lines carrying cyclic local labels, the landing block, the done signal, the
 * padding and the terminal self-loop.
 */
module Strand {
  import opened Seqs
  import opened Isa
  import opened Random
  import opened Synth

  /** Body length of every strand. */
  const TOTAL_INSTRUCTIONS: nat := 0x8000

  /** Lines a strand emits around its body: entry label, 6 landing nops, 2 nops,
      setcr, 8 nops and the self-loop. */
  const FRAME_LINES: nat := 19

  /** The label prefix of the i-th body instruction (0-based): the counter starts at 1,
      is printed plus one, and then advances modulo 6. */
  function Label(i: nat): (l: nat)
    ensures 1 <= l <= 6
  {
    (i + 1) % 6 + 1
  }

  /** Labels start at 2, each is the successor of the previous one in the cycle
      2, 3, 4, 5, 6, 1, and they repeat with period 6. */
  lemma LabelCycle(i: nat)
    ensures Label(0) == 2
    ensures Label(i + 1) == Label(i) % 6 + 1
    ensures Label(i + 6) == Label(i)
  {
  }

  /** The counter step of the strand loop: with labelIdx == (x + 1) % 6, the printed
      prefix labelIdx + 1 is Label(x), and the advanced counter is (x + 2) % 6. */
  lemma LabelStep(x: nat, labelIdx: int)
    requires labelIdx == (x + 1) % 6
    ensures labelIdx + 1 == Label(x)
    ensures (labelIdx + 1) % 6 == (x + 2) % 6
  {
  }

  /** n copies of an unlabelled nop. */
  function Nops(n: nat): (r: seq<Line>)
    ensures |r| == n && forall k :: 0 <= k < n ==> r[k] == Unnumbered(Nop)
  {
    seq(n, _ => Unnumbered(Nop))
  }

  /** The landing block: nops labelled 1 to 6, then two more nops. */
  function Landing(): (r: seq<Line>)
    ensures |r| == 8
    ensures forall t :: 1 <= t <= 6 ==> r[t - 1] == Numbered(t, Nop)
  {
    [Numbered(1, Nop), Numbered(2, Nop), Numbered(3, Nop),
     Numbered(4, Nop), Numbered(5, Nop), Numbered(6, Nop)] + Nops(2)
  }

  /** Everything after the body: landing block, done signal, 8 nops of padding, self-loop. */
  function Trailer(): (r: seq<Line>)
    ensures |r| == FRAME_LINES - 1
  {
    Landing() + [Unnumbered(SetCr(0, 29))] + Nops(8) + [Numbered(1, GotoBack(1))]
  }

  /** The shape of one emitted strand with an n-instruction body. */
  predicate Shaped(lines: seq<Line>, strand: nat, n: nat)
  {
    |lines| == n + FRAME_LINES
    && lines[0] == StrandEntry(strand)
    && (forall i :: 1 <= i <= n ==>
          lines[i].Numbered? && lines[i].num == Label(i - 1) && BodyWellFormed(lines[i].instr))
    && lines[n + 1..] == Trailer()
  }

  /** An emitted strand together with the draw segment of each of its body slots. */
  predicate Emitted(lines: seq<Line>, strand: nat, slots: seq<seq<Draw>>)
  {
    Shaped(lines, strand, TOTAL_INSTRUCTIONS)
    && |slots| == TOTAL_INSTRUCTIONS
    && forall i :: 0 <= i < TOTAL_INSTRUCTIONS ==> SlotDraws(slots[i], lines[i + 1].instr)
  }

  /** The first x body slots of a strand have been emitted, each with its label and draws. */
  predicate BodySoFar(lines: seq<Line>, strand: nat, x: nat, slots: seq<seq<Draw>>)
  {
    |lines| == x + 1 && |slots| == x
    && lines[0] == StrandEntry(strand)
    && (forall i :: 1 <= i <= x ==>
          lines[i].Numbered? && lines[i].num == Label(i - 1) && BodyWellFormed(lines[i].instr))
    && (forall i :: 0 <= i < x ==> SlotDraws(slots[i], lines[i + 1].instr))
  }

  /** One more slot, labelled and drawn, extends the body. */
  lemma ExtendBody(lines: seq<Line>, strand: nat, x: nat, slots: seq<seq<Draw>>, l: nat, ins: Instr, ds: seq<Draw>)
    requires BodySoFar(lines, strand, x, slots)
    requires l == Label(x) && Slot(ds, ins)
    ensures BodySoFar(lines + [Numbered(l, ins)], strand, x + 1, slots + [ds])
  {
  }

  /** The whole body followed by the trailer is an emitted strand. */
  lemma CloseStrand(body: seq<Line>, strand: nat, slots: seq<seq<Draw>>)
    requires BodySoFar(body, strand, TOTAL_INSTRUCTIONS, slots)
    ensures Emitted(body + Trailer(), strand, slots)
  {
    var lines := body + Trailer();
    assert lines[TOTAL_INSTRUCTIONS + 1..] == Trailer();
    assert forall i :: 0 <= i <= TOTAL_INSTRUCTIONS ==> lines[i] == body[i];
  }

  /** Appends the landing block, the done signal, the padding and the self-loop. */
  method EmitTrailer(body: seq<Line>) returns (lines: seq<Line>)
    ensures lines == body + Trailer()
  {
    lines := body + Landing();
    lines := lines + [Unnumbered(SetCr(0, 29))];
    for k := 0 to 8
      invariant lines == body + Landing() + [Unnumbered(SetCr(0, 29))] + Nops(k)
    {
      assert Nops(k) + [Unnumbered(Nop)] == Nops(k + 1);
      lines := lines + [Unnumbered(Nop)];
    }
    lines := lines + [Numbered(1, GotoBack(1))];
  }

  /** Emits one strand, drawing each body slot's values from rng in order. */
  method EmitStrand(rng: Rng, strand: nat) returns (lines: seq<Line>, ghost slots: seq<seq<Draw>>)
    requires rng.Valid()
    modifies rng
    ensures rng.Valid()
    ensures Emitted(lines, strand, slots)
    ensures rng.draws == old(rng.draws) + Concat(slots)
  {
    lines := [StrandEntry(strand)];
    slots := [];
    var labelIdx := 1;
    var x := 0;
    while x < TOTAL_INSTRUCTIONS
      invariant 0 <= x <= TOTAL_INSTRUCTIONS
      invariant rng.Valid()
      invariant labelIdx == (x + 1) % 6
      invariant BodySoFar(lines, strand, x, slots)
      invariant rng.draws == old(rng.draws) + Concat(slots)
    {
      LabelStep(x, labelIdx);
      var prefix := labelIdx + 1;
      labelIdx := (labelIdx + 1) % 6;
      var ins, ds := SynthesizeSlot(rng);
      ExtendBody(lines, strand, x, slots, prefix, ins, ds);
      ConcatSnoc(slots, ds);
      lines := lines + [Numbered(prefix, ins)];
      slots := slots + [ds];
      x := x + 1;
    }
    ghost var body := lines;
    lines := EmitTrailer(lines);
    CloseStrand(body, strand, slots);
  }

  /** The draws of a strand's slots determine its lines: two emissions of the same
      strand that drew the same values are identical. */
  lemma EmittedDeterministic(a: seq<Line>, b: seq<Line>, strand: nat, slots: seq<seq<Draw>>)
    requires Emitted(a, strand, slots) && Emitted(b, strand, slots)
    ensures a == b
  {
    forall i | 1 <= i <= TOTAL_INSTRUCTIONS
      ensures a[i] == b[i]
    {
      SlotDrawsDeterministic(slots[i - 1], a[i].instr, b[i].instr);
    }
    assert a[TOTAL_INSTRUCTIONS + 1..] == b[TOTAL_INSTRUCTIONS + 1..];
    forall k | TOTAL_INSTRUCTIONS + 1 <= k < |a|
      ensures a[k] == b[k]
    {
      assert a[k] == a[TOTAL_INSTRUCTIONS + 1..][k - TOTAL_INSTRUCTIONS - 1];
      assert b[k] == b[TOTAL_INSTRUCTIONS + 1..][k - TOTAL_INSTRUCTIONS - 1];
    }
  }

  /** Body instructions only branch forward: the one backward branch of a strand is
      its final self-loop, whose target label 1 is the label of that same line. */
  lemma OnlyTheSelfLoopBranchesBack(lines: seq<Line>, strand: nat, n: nat, j: nat)
    requires Shaped(lines, strand, n) && 1 <= j < |lines|
    requires lines[j].Numbered? || lines[j].Unnumbered?
    ensures lines[j].instr.GotoBack? <==> j == |lines| - 1
    ensures j == |lines| - 1 ==> lines[j].num == lines[j].instr.target
  {
    if j > n {
      assert lines[j] == Trailer()[j - n - 1];
    }
  }

  /** Every forward target 1..6 taken from a body line resolves inside the strand:
      at the latest in the landing block, which carries each label once. */
  lemma ForwardTargetResolves(lines: seq<Line>, strand: nat, n: nat, i: nat, t: nat)
    requires Shaped(lines, strand, n) && 1 <= i <= n && 1 <= t <= 6
    ensures exists j :: i < j <= n + 6 && lines[j].Numbered? && lines[j].num == t
  {
    assert lines[n + t] == Trailer()[t - 1] == Numbered(t, Nop);
  }

  /** Away from the end of the body, the nearest line labelled t lies at most six lines ahead. */
  lemma ForwardTargetWithinSix(lines: seq<Line>, strand: nat, n: nat, i: nat, t: nat)
    requires Shaped(lines, strand, n) && 1 <= i && i + 6 <= n && 1 <= t <= 6
    ensures exists j :: i < j <= i + 6 && lines[j].Numbered? && lines[j].num == t
  {
    var q, r := (i + 1) / 6, (i + 1) % 6;
    var d := if t - 1 >= r then t - 1 - r else t + 5 - r;
    var j := i + 1 + d;
    assert j == 6 * q + r + d;
    assert j % 6 == t - 1;
    assert Label(j - 1) == t;
    assert 1 <= j <= n;
    assert lines[j].Numbered? && lines[j].num == Label(j - 1);
  }

  /** The strand numbers of the entry labels among some lines, in order. */
  function Entries(lines: seq<Line>): seq<nat>
  {
    if lines == [] then []
    else Entries(lines[..|lines| - 1])
         + (if lines[|lines| - 1].StrandEntry? then [lines[|lines| - 1].strand] else [])
  }

  lemma {:induction false} EntriesAppend(a: seq<Line>, b: seq<Line>)
    ensures Entries(a + b) == Entries(a) + Entries(b)
    decreases |b|
  {
    if b == [] {
      assert a + b == a;
    } else {
      var init := b[..|b| - 1];
      assert (a + b)[..|a + b| - 1] == a + init;
      assert b[..|b| - 1] == init;
      EntriesAppend(a, init);
    }
  }

  lemma {:induction false} NoEntries(lines: seq<Line>)
    requires forall k :: 0 <= k < |lines| ==> !lines[k].StrandEntry?
    ensures Entries(lines) == []
    decreases |lines|
  {
    if lines != [] {
      NoEntries(lines[..|lines| - 1]);
    }
  }

  lemma TrailerNoEntries()
    ensures Entries(Trailer()) == []
  {
    NoEntries(Trailer());
  }

  /** An entry label followed only by numbered lines holds that one entry. */
  lemma HeadEntries(head: seq<Line>, strand: nat)
    requires |head| >= 1 && head[0] == StrandEntry(strand)
    requires forall i :: 1 <= i < |head| ==> head[i].Numbered?
    ensures Entries(head) == [strand]
  {
    var body := head[1..];
    assert head == [head[0]] + body;
    NoEntries(body);
    EntriesAppend([head[0]], body);
    assert Entries([head[0]]) == Entries([]) + [strand];
  }

  /** A strand's lines contain exactly one entry label, its own. */
  lemma ShapedEntries(lines: seq<Line>, strand: nat, n: nat)
    requires Shaped(lines, strand, n)
    ensures Entries(lines) == [strand]
  {
    var head := lines[..n + 1];
    assert lines == head + Trailer();
    HeadEntries(head, strand);
    TrailerNoEntries();
    EntriesAppend(head, Trailer());
  }
}
