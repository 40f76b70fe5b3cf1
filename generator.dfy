/**
 * The whole generated program: the preamble, the four strands in order, then
 * the data segment. One random stream is threaded through all of it, so the
 * draws happen strand 0 body, strand 1 body, ..., strand 3 body, data words.
 */
module Generator {
  import opened Seqs
  import opened Isa
  import opened Random
  import opened Synth
  import opened Strand
  import opened DataSegment

  const STRANDS: nat := 4

  /** Lines per strand. */
  const STRAND_LINES: nat := TOTAL_INSTRUCTIONS + FRAME_LINES

  /** Where strand s's lines begin in the program. */
  function StrandStart(s: nat): nat
  {
    1 + s * STRAND_LINES
  }

  lemma StrandStartStep(s: nat)
    ensures StrandStart(s + 1) == StrandStart(s) + STRAND_LINES
  {
  }

  /** Strands do not overlap: strand s ends no later than any later strand begins. */
  lemma {:induction false} StrandStartMonotone(s: nat, t: nat)
    requires s < t
    ensures StrandStart(s + 1) <= StrandStart(t)
    decreases t - s
  {
    if s + 1 < t {
      StrandStartMonotone(s, t - 1);
      StrandStartStep(t - 1);
    }
  }

  /** The lines of strand s within the program. */
  function StrandLines(lines: seq<Line>, s: nat): seq<Line>
    requires StrandStart(s + 1) <= |lines|
  {
    lines[StrandStart(s)..StrandStart(s + 1)]
  }

  /** Strand numbers 0 .. n-1, in order. */
  function UpTo(n: nat): (r: seq<nat>)
    ensures |r| == n && forall k :: 0 <= k < n ==> r[k] == k
  {
    seq(n, k => k)
  }

  /** Strand s of the program lies at its place, was emitted as a whole, and drew the given slot segments. */
  predicate StrandAt(lines: seq<Line>, s: nat, slots: seq<seq<seq<Draw>>>, strandDraws: seq<seq<Draw>>)
  {
    s < |slots| && s < |strandDraws| && StrandStart(s + 1) <= |lines|
    && Emitted(StrandLines(lines, s), s, slots[s]) && strandDraws[s] == Concat(slots[s])
  }

  /** The first n strands have been emitted after the preamble line, with their slot draws. */
  predicate StrandsSoFar(lines: seq<Line>, n: nat, slots: seq<seq<seq<Draw>>>, strandDraws: seq<seq<Draw>>)
  {
    |lines| == StrandStart(n) && |slots| == n && |strandDraws| == n
    && (forall s: nat :: s < n ==> StrandAt(lines, s, slots, strandDraws))
    && Entries(lines) == UpTo(n)
  }

  /** Appending one more emitted strand keeps every earlier strand where it was. */
  lemma ExtendStrands(lines: seq<Line>, n: nat, slots: seq<seq<seq<Draw>>>, strandDraws: seq<seq<Draw>>,
                      body: seq<Line>, ss: seq<seq<Draw>>)
    requires StrandsSoFar(lines, n, slots, strandDraws)
    requires Emitted(body, n, ss)
    ensures StrandsSoFar(lines + body, n + 1, slots + [ss], strandDraws + [Concat(ss)])
  {
    var next := lines + body;
    StrandStartStep(n);
    assert StrandLines(next, n) == body;
    var slots', draws' := slots + [ss], strandDraws + [Concat(ss)];
    forall s: nat | s < n + 1
      ensures StrandAt(next, s, slots', draws')
    {
      if s < n {
        StrandStartMonotone(s, n);
        assert StrandAt(lines, s, slots, strandDraws);
        assert StrandLines(next, s) == StrandLines(lines, s);
      }
    }
    ShapedEntries(body, n, TOTAL_INSTRUCTIONS);
    EntriesAppend(lines, body);
    assert UpTo(n) + [n] == UpTo(n + 1);
  }

  /** Programs that agree on the preamble and drew the same slot values agree on
      every line up to the end of strand n - 1. */
  lemma {:induction false} PrefixAgrees(a: seq<Line>, b: seq<Line>, n: nat,
                                        slots: seq<seq<seq<Draw>>>, strandDraws: seq<seq<Draw>>)
    requires |a| >= 1 && |b| >= 1 && a[0] == b[0]
    requires forall s: nat :: s < n ==> StrandAt(a, s, slots, strandDraws) && StrandAt(b, s, slots, strandDraws)
    ensures StrandStart(n) <= |a| && StrandStart(n) <= |b|
    ensures a[..StrandStart(n)] == b[..StrandStart(n)]
  {
    if n == 0 {
      assert a[..1] == [a[0]] && b[..1] == [b[0]];
    } else {
      PrefixAgrees(a, b, n - 1, slots, strandDraws);
      NextStrandAgrees(a, b, n - 1, slots, strandDraws);
    }
  }

  /** One more strand drawn from the same slot values extends an agreeing prefix. */
  lemma NextStrandAgrees(a: seq<Line>, b: seq<Line>, s: nat,
                         slots: seq<seq<seq<Draw>>>, strandDraws: seq<seq<Draw>>)
    requires StrandAt(a, s, slots, strandDraws) && StrandAt(b, s, slots, strandDraws)
    requires a[..StrandStart(s)] == b[..StrandStart(s)]
    ensures a[..StrandStart(s + 1)] == b[..StrandStart(s + 1)]
  {
    StrandStartStep(s);
    EmittedDeterministic(StrandLines(a, s), StrandLines(b, s), s, slots[s]);
    assert a[..StrandStart(s + 1)] == a[..StrandStart(s)] + StrandLines(a, s);
    assert b[..StrandStart(s + 1)] == b[..StrandStart(s)] + StrandLines(b, s);
  }

  /** The draws determine the program: two generated programs for the same program
      name, slot draws and data words are identical. */
  lemma ProgramDeterministic(a: seq<Line>, b: seq<Line>, program: string,
                             slots: seq<seq<seq<Draw>>>, strandDraws: seq<seq<Draw>>, words: seq<nat>)
    requires |a| >= 1 && |b| >= 1 && a[0] == Preamble(program) && b[0] == Preamble(program)
    requires forall s: nat :: s < STRANDS ==> StrandAt(a, s, slots, strandDraws) && StrandAt(b, s, slots, strandDraws)
    requires StrandStart(STRANDS) <= |a| && StrandStart(STRANDS) <= |b|
    requires a[StrandStart(STRANDS)..] == DataLines(words) && b[StrandStart(STRANDS)..] == DataLines(words)
    ensures a == b
  {
    PrefixAgrees(a, b, STRANDS, slots, strandDraws);
    assert a == a[..StrandStart(STRANDS)] + a[StrandStart(STRANDS)..];
    assert b == b[..StrandStart(STRANDS)] + b[StrandStart(STRANDS)..];
  }

  /** Emits the four strands after the preamble line. */
  method EmitStrands(rng: Rng, program: string)
    returns (lines: seq<Line>, ghost slots: seq<seq<seq<Draw>>>, ghost strandDraws: seq<seq<Draw>>)
    requires rng.Valid()
    modifies rng
    ensures rng.Valid()
    ensures StrandsSoFar(lines, STRANDS, slots, strandDraws)
    ensures lines[0] == Preamble(program)
    ensures rng.draws == old(rng.draws) + Concat(strandDraws)
  {
    lines := [Preamble(program)];
    slots, strandDraws := [], [];
    assert Entries(lines) == [];
    for strand := 0 to STRANDS
      invariant rng.Valid()
      invariant |lines| > 0 && lines[0] == Preamble(program)
      invariant StrandsSoFar(lines, strand, slots, strandDraws)
      invariant rng.draws == old(rng.draws) + Concat(strandDraws)
    {
      var body, ss := EmitStrand(rng, strand);
      ExtendStrands(lines, strand, slots, strandDraws, body, ss);
      ConcatSnoc(strandDraws, Concat(ss));
      lines := lines + body;
      slots := slots + [ss];
      strandDraws := strandDraws + [Concat(ss)];
    }
  }

  /** The whole program: preamble, four strands, data segment. */
  method Generate(rng: Rng, program: string)
    returns (lines: seq<Line>, ghost slots: seq<seq<seq<Draw>>>, ghost strandDraws: seq<seq<Draw>>,
             ghost words: seq<nat>)
    requires rng.Valid()
    modifies rng
    ensures rng.Valid()
    ensures |lines| == 1 + STRANDS * STRAND_LINES + 2 + DATA_WORDS / WORDS_PER_LINE
    ensures lines[0] == Preamble(program)
    ensures |slots| == STRANDS && |strandDraws| == STRANDS
    ensures forall s: nat :: s < STRANDS ==> StrandAt(lines, s, slots, strandDraws)
    ensures lines[StrandStart(STRANDS)..] == DataLines(words)
    ensures Entries(lines) == UpTo(STRANDS)
    ensures |words| == DATA_WORDS && forall k :: 0 <= k < |words| ==> words[k] <= WORD_MAX
    ensures rng.draws == old(rng.draws) + Concat(strandDraws) + WordDraws(words)
  {
    var code;
    code, slots, strandDraws := EmitStrands(rng, program);
    var data;
    data, words := EmitData(rng);
    lines := code + data;
    forall s: nat | s < STRANDS
      ensures StrandAt(lines, s, slots, strandDraws)
    {
      StrandStartMonotone(s, STRANDS);
      assert StrandAt(code, s, slots, strandDraws);
      assert StrandLines(lines, s) == StrandLines(code, s);
    }
    EntriesAppend(code, data);
    NoEntries(data);
  }
}
