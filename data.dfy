/**
 * The data segment: a 64-byte alignment directive, the data label, then
 * DATA_WORDS random 32-bit words, a new .long line every WORDS_PER_LINE words.
 */
module DataSegment {
  import opened Seqs
  import opened Isa
  import opened Random

  const DATA_WORDS: nat := 4096
  const WORDS_PER_LINE: nat := 8
  /** The largest 32-bit unsigned word. */
  const WORD_MAX: nat := 0xFFFF_FFFF

  /** The words split into consecutive lines of WORDS_PER_LINE, the last one possibly shorter;
      concatenating the lines gives back the words. */
  function Chunks(ws: seq<nat>): (cs: seq<seq<nat>>)
    ensures Concat(cs) == ws
    decreases |ws|
  {
    if |ws| <= WORDS_PER_LINE then
      (if ws == [] then [] else assert [ws][..0] == []; [ws])
    else
      var rest := Chunks(ws[WORDS_PER_LINE..]);
      ConcatCons(ws[..WORDS_PER_LINE], rest);
      assert ws[..WORDS_PER_LINE] + ws[WORDS_PER_LINE..] == ws;
      [ws[..WORDS_PER_LINE]] + rest
  }

  /** Every line holds one to WORDS_PER_LINE words, and every line but the last is full. */
  lemma {:induction false} ChunkSizes(ws: seq<nat>)
    ensures forall k :: 0 <= k < |Chunks(ws)| ==> 1 <= |Chunks(ws)[k]| <= WORDS_PER_LINE
    ensures forall k :: 0 <= k < |Chunks(ws)| - 1 ==> |Chunks(ws)[k]| == WORDS_PER_LINE
    ensures ws != [] <==> |Chunks(ws)| > 0
    decreases |ws|
  {
    if |ws| > WORDS_PER_LINE {
      ChunkSizes(ws[WORDS_PER_LINE..]);
    }
  }

  /** After a whole number of lines, one more word opens a new line. */
  lemma {:induction false} ChunksSnocFull(ws: seq<nat>, w: nat)
    requires |ws| % WORDS_PER_LINE == 0
    ensures Chunks(ws + [w]) == Chunks(ws) + [[w]]
    decreases |ws|
  {
    if |ws| == WORDS_PER_LINE {
      assert (ws + [w])[..WORDS_PER_LINE] == ws;
      assert (ws + [w])[WORDS_PER_LINE..] == [w];
    } else if |ws| > WORDS_PER_LINE {
      var tail := ws[WORDS_PER_LINE..];
      assert (ws + [w])[..WORDS_PER_LINE] == ws[..WORDS_PER_LINE];
      assert (ws + [w])[WORDS_PER_LINE..] == tail + [w];
      ChunksSnocFull(tail, w);
      assert Chunks(ws + [w]) == [ws[..WORDS_PER_LINE]] + Chunks(tail + [w]);
      assert Chunks(ws) == [ws[..WORDS_PER_LINE]] + Chunks(tail);
    } else {
      assert ws == [] && ws + [w] == [w];
    }
  }

  /** Otherwise one more word extends the last line. */
  lemma {:induction false} ChunksSnocPartial(ws: seq<nat>, w: nat)
    requires |ws| % WORDS_PER_LINE != 0
    ensures |Chunks(ws)| > 0
    ensures Chunks(ws + [w]) == Chunks(ws)[..|Chunks(ws)| - 1] + [Chunks(ws)[|Chunks(ws)| - 1] + [w]]
    decreases |ws|
  {
    ChunkSizes(ws);
    if |ws| > WORDS_PER_LINE {
      var tail := ws[WORDS_PER_LINE..];
      assert (ws + [w])[..WORDS_PER_LINE] == ws[..WORDS_PER_LINE];
      assert (ws + [w])[WORDS_PER_LINE..] == tail + [w];
      ChunksSnocPartial(tail, w);
      var rest := Chunks(tail);
      assert Chunks(ws) == [ws[..WORDS_PER_LINE]] + rest;
      assert Chunks(ws)[..|Chunks(ws)| - 1] == [ws[..WORDS_PER_LINE]] + rest[..|rest| - 1];
    }
  }

  /** A whole number of lines: every line is full and there are |ws| / WORDS_PER_LINE of them. */
  lemma {:induction false} ChunksFull(ws: seq<nat>)
    requires |ws| % WORDS_PER_LINE == 0
    ensures |Chunks(ws)| == |ws| / WORDS_PER_LINE
    ensures forall k :: 0 <= k < |Chunks(ws)| ==> |Chunks(ws)[k]| == WORDS_PER_LINE
    decreases |ws|
  {
    if |ws| > WORDS_PER_LINE {
      ChunksFull(ws[WORDS_PER_LINE..]);
    }
  }

  /** The .long lines holding the given word groups. */
  function LongLines(cs: seq<seq<nat>>): (r: seq<Line>)
    ensures |r| == |cs| && forall k :: 0 <= k < |cs| ==> r[k] == Longs(cs[k])
  {
    seq(|cs|, k requires 0 <= k < |cs| => Longs(cs[k]))
  }

  /** The draw log of a sequence of data words. */
  function WordDraws(ws: seq<nat>): (r: seq<Draw>)
    ensures |r| == |ws| && forall k :: 0 <= k < |ws| ==> r[k] == Draw(0, WORD_MAX, ws[k])
  {
    seq(|ws|, k requires 0 <= k < |ws| => Draw(0, WORD_MAX, ws[k]))
  }

  /** The lines of the data segment for the given words. */
  function DataLines(ws: seq<nat>): seq<Line>
  {
    [Align64, DataLabel] + LongLines(Chunks(ws))
  }

  lemma LongLinesSnoc(cs: seq<seq<nat>>, c: seq<nat>)
    ensures LongLines(cs + [c]) == LongLines(cs) + [Longs(c)]
  {
  }

  lemma LongLinesReplaceLast(cs: seq<seq<nat>>, c: seq<nat>)
    requires |cs| > 0
    ensures LongLines(cs[..|cs| - 1] + [c]) == LongLines(cs)[..|cs| - 1] + [Longs(c)]
  {
  }

  /** After a whole number of lines, one more word adds a new .long line. */
  lemma DataLinesSnocFull(ws: seq<nat>, w: nat)
    requires |ws| % WORDS_PER_LINE == 0
    ensures DataLines(ws + [w]) == DataLines(ws) + [Longs([w])]
  {
    var cs := Chunks(ws);
    ChunksSnocFull(ws, w);
    LongLinesSnoc(cs, [w]);
  }

  /** Otherwise one more word extends the last .long line. */
  lemma DataLinesSnocPartial(ws: seq<nat>, w: nat)
    requires |ws| % WORDS_PER_LINE != 0
    ensures var d := DataLines(ws);
      |d| > 2 && d[|d| - 1].Longs?
      && DataLines(ws + [w]) == d[..|d| - 1] + [Longs(d[|d| - 1].words + [w])]
  {
    var cs := Chunks(ws);
    ChunksSnocPartial(ws, w);
    var m := |cs| - 1;
    LongLinesReplaceLast(cs, cs[m] + [w]);
    var d := DataLines(ws);
    assert d[..|d| - 1] == [Align64, DataLabel] + LongLines(cs)[..m];
  }

  /** Emits the data segment, drawing each word from rng in order. */
  method EmitData(rng: Rng) returns (lines: seq<Line>, ghost words: seq<nat>)
    requires rng.Valid()
    modifies rng
    ensures rng.Valid()
    ensures |words| == DATA_WORDS && forall k :: 0 <= k < |words| ==> words[k] <= WORD_MAX
    ensures rng.draws == old(rng.draws) + WordDraws(words)
    ensures lines == DataLines(words)
    ensures |lines| == 2 + DATA_WORDS / WORDS_PER_LINE
    ensures forall k :: 2 <= k < |lines| ==> lines[k].Longs? && |lines[k].words| == WORDS_PER_LINE
  {
    lines := [Align64, DataLabel];
    words := [];
    var x := 0;
    while x < DATA_WORDS
      invariant 0 <= x <= DATA_WORDS && |words| == x
      invariant rng.Valid()
      invariant forall k :: 0 <= k < |words| ==> words[k] <= WORD_MAX
      invariant rng.draws == old(rng.draws) + WordDraws(words)
      invariant lines == DataLines(words)
    {
      var opensLine := x % WORDS_PER_LINE == 0;  // (x & 7) == 0 for non-negative x
      var w := rng.RandInt(0, WORD_MAX);
      if opensLine {
        DataLinesSnocFull(words, w);
        lines := lines + [Longs([w])];
      } else {
        DataLinesSnocPartial(words, w);
        var last := lines[|lines| - 1];
        lines := lines[..|lines| - 1] + [Longs(last.words + [w])];
      }
      assert WordDraws(words + [w]) == WordDraws(words) + [Draw(0, WORD_MAX, w)];
      words := words + [w];
      x := x + 1;
    }
    ChunksFull(words);
  }
}
