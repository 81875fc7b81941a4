/** The retrieval pipeline (rag/pipeline.py): the line-based chunker, the knowledge-base loader,
    index building, the post-processing of a nearest-neighbour search and the context string.
    Embeddings, FAISS and numpy are the collaborators in `Numerics`. */
module Rag {
  import opened Json
  import opened Text
  import opened Lists

  /** A stored chunk, `{"text": ..., "source": ...}`. */
  datatype Chunk = Chunk(text: string, source: string)

  /** A retrieved chunk: a copy of a stored chunk with an added `score`. */
  datatype Retrieved = Retrieved(text: string, source: string, score: real)

  type Vector = seq<real>

  /** One column of `index.search`: an L2 distance and a chunk position (-1 when the index has
      fewer neighbours than asked for). */
  datatype Hit = Hit(dist: real, idx: int)

  /** The numeric collaborators: the sentence embedder, FAISS's k-nearest search, numpy's dot
      product and numpy's `argsort(scores)[::-1]`. */
  datatype Numerics = Numerics(
    embed: string -> Vector,
    search: (Vector, nat) -> seq<Hit>,
    dot: (Vector, Vector) -> real,
    argsortDesc: seq<real> -> seq<nat>)

  /** What `_load_or_build` finds on disk when both chunks.pkl and embeddings.npy exist. */
  datatype Persisted = Persisted(chunks: seq<Chunk>, embeddings: seq<Vector>, hasIndexFile: bool)

  const DefaultChunkSize := 500
  const DefaultOverlapLines := 3
  /** config.TOP_K_RETRIEVAL */
  const TopKRetrieval := 5
  const ContextSeparator := "\n\n---\n\n"

  // ----- the chunker -----

  /** `sum(len(l) for l in lines)`: line characters only, the joining newlines are not counted. */
  function LenSum(lines: seq<string>): nat
  {
    if lines == [] then 0 else LenSum(lines[..|lines| - 1]) + |lines[|lines| - 1]|
  }

  lemma LenSumAppend(lines: seq<string>, x: string)
    ensures LenSum(lines + [x]) == LenSum(lines) + |x|
  {
    assert (lines + [x])[..|lines|] == lines;
  }

  /** The chunker's state between lines: the working chunks closed so far and the current one. */
  datatype ChunkState = ChunkState(closed: seq<seq<string>>, current: seq<string>)

  /** One line of `_chunk_text`: close the working chunk when the line would overflow the budget
      and the chunk is non-empty, carrying `current[-overlap_lines:]` into the next one. */
  function Step(st: ChunkState, line: string, chunkSize: int, overlapLines: int): ChunkState
  {
    if LenSum(st.current) + |line| > chunkSize && st.current != [] then
      ChunkState(st.closed + [st.current], TakeLast(st.current, overlapLines) + [line])
    else
      ChunkState(st.closed, st.current + [line])
  }

  /** The state after the given lines. */
  function Fold(lines: seq<string>, chunkSize: int, overlapLines: int): ChunkState
  {
    if lines == [] then ChunkState([], [])
    else
      Step(Fold(lines[..|lines| - 1], chunkSize, overlapLines), lines[|lines| - 1],
        chunkSize, overlapLines)
  }

  lemma FoldSnoc(lines: seq<string>, i: nat, chunkSize: int, overlapLines: int)
    requires i < |lines|
    ensures Fold(lines[..i + 1], chunkSize, overlapLines)
         == Step(Fold(lines[..i], chunkSize, overlapLines), lines[i], chunkSize, overlapLines)
  {
    assert lines[..i + 1][..i] == lines[..i];
  }

  /** A closed working chunk becomes a chunk when its stripped newline-join is non-empty. */
  function Emit(w: seq<string>, source: string): seq<Chunk>
  {
    var t := Strip(Join("\n", w));
    if t == [] then [] else [Chunk(t, source)]
  }

  function EmitAll(ws: seq<seq<string>>, source: string): seq<Chunk>
  {
    if ws == [] then [] else EmitAll(ws[..|ws| - 1], source) + Emit(ws[|ws| - 1], source)
  }

  lemma EmitAllSnoc(ws: seq<seq<string>>, w: seq<string>, source: string)
    ensures EmitAll(ws + [w], source) == EmitAll(ws, source) + Emit(w, source)
  {
    assert (ws + [w])[..|ws|] == ws;
  }

  /** The chunks of a list of lines: the closed working chunks, then the final flush. */
  function ChunkLines(lines: seq<string>, source: string, chunkSize: int, overlapLines: int): seq<Chunk>
  {
    var st := Fold(lines, chunkSize, overlapLines);
    EmitAll(st.closed, source) + (if st.current != [] then Emit(st.current, source) else [])
  }

  /** What `_chunk_text(text, source, chunk_size, overlap_lines)` returns. */
  function Chunked(text: string, source: string, chunkSize: int, overlapLines: int): seq<Chunk>
  {
    ChunkLines(Lines(text), source, chunkSize, overlapLines)
  }

  /** `text.split("\n")` */
  function Lines(text: string): seq<string>
  {
    SplitOn(text, "\n")
  }

  predicate WellFormedChunk(c: Chunk, source: string)
  {
    c.source == source && c.text != [] && Strip(c.text) == c.text
  }

  lemma {:induction false} EmitAllWellFormed(ws: seq<seq<string>>, source: string)
    ensures forall c :: c in EmitAll(ws, source) ==> WellFormedChunk(c, source)
    decreases |ws|
  {
    if ws != [] {
      EmitAllWellFormed(ws[..|ws| - 1], source);
      var t := Strip(Join("\n", ws[|ws| - 1]));
      StripIdempotent(Join("\n", ws[|ws| - 1]));
      assert Strip(t) == t;
    }
  }

  /** Every chunk carries the given source and is non-empty text that stripping leaves alone. */
  lemma ChunksWellFormed(text: string, source: string, chunkSize: int, overlapLines: int)
    ensures forall c :: c in Chunked(text, source, chunkSize, overlapLines) ==> WellFormedChunk(c, source)
  {
    var st := Fold(Lines(text), chunkSize, overlapLines);
    EmitAllWellFormed(st.closed, source);
    EmitAllWellFormed([st.current], source);
    assert EmitAll([st.current], source) == Emit(st.current, source);
  }

  lemma ChunkedSource(text: string, source: string, chunkSize: int, overlapLines: int)
    ensures forall c :: c in Chunked(text, source, chunkSize, overlapLines) ==> c.source == source
  {
    ChunksWellFormed(text, source, chunkSize, overlapLines);
  }

  /** After at least one line the working chunk is non-empty and ends with the latest line, so
      the final flush always sees it. */
  lemma FoldEndsWithLastLine(lines: seq<string>, chunkSize: int, overlapLines: int)
    requires lines != []
    ensures var cur := Fold(lines, chunkSize, overlapLines).current;
      cur != [] && cur[|cur| - 1] == lines[|lines| - 1]
  {
  }

  /** The budget: a working chunk is within `chunk_size` line characters, unless it is no more
      than the carried-over overlap plus one line. */
  predicate WithinBudget(w: seq<string>, chunkSize: int, overlapLines: int)
  {
    LenSum(w) <= chunkSize || |w| <= overlapLines + 1
  }

  lemma {:induction false} FoldWithinBudget(lines: seq<string>, chunkSize: int, overlapLines: int)
    requires overlapLines >= 1
    ensures var st := Fold(lines, chunkSize, overlapLines);
      && (forall w :: w in st.closed ==> WithinBudget(w, chunkSize, overlapLines))
      && WithinBudget(st.current, chunkSize, overlapLines)
    decreases |lines|
  {
    if lines != [] {
      var init, line := lines[..|lines| - 1], lines[|lines| - 1];
      FoldWithinBudget(init, chunkSize, overlapLines);
      var st := Fold(init, chunkSize, overlapLines);
      LenSumAppend(st.current, line);
    }
  }

  lemma {:induction false} EmitAllFrom(ws: seq<seq<string>>, source: string)
    ensures forall c :: c in EmitAll(ws, source) ==>
      exists w :: w in ws && c in Emit(w, source)
    decreases |ws|
  {
    if ws != [] {
      var init, last := ws[..|ws| - 1], ws[|ws| - 1];
      assert ws == init + [last];
      EmitAllFrom(init, source);
      forall c | c in EmitAll(ws, source)
        ensures exists w :: w in ws && c in Emit(w, source)
      {
        if c in EmitAll(init, source) {
          var w :| w in init && c in Emit(w, source);
          assert w in ws;
        } else {
          assert c in Emit(last, source);
          assert last in ws;
        }
      }
    }
  }

  /** Where the working chunks lie in the input: the `[start, end)` line range of every closed
      working chunk, and the line where the current one starts (it runs to the last line read). */
  datatype Spans = Spans(closed: seq<(int, int)>, start: int)

  /** One line of the spans: on a close, record the current range `[start, n)` and start the
      next window at the first carried-over line. */
  function SpanStep(sp: Spans, cur: seq<string>, n: int, line: string, chunkSize: int,
                    overlapLines: int): Spans
  {
    if LenSum(cur) + |line| > chunkSize && cur != [] then
      Spans(sp.closed + [(sp.start, n)], n - |TakeLast(cur, overlapLines)|)
    else
      sp
  }

  /** The spans after the given lines, computed alongside `Fold`. */
  function FoldSpans(lines: seq<string>, chunkSize: int, overlapLines: int): Spans
  {
    if lines == [] then Spans([], 0)
    else
      var n := |lines| - 1;
      SpanStep(FoldSpans(lines[..n], chunkSize, overlapLines),
        Fold(lines[..n], chunkSize, overlapLines).current, n, lines[n], chunkSize, overlapLines)
  }

  /** The start of the window that follows closed window `k`. */
  function NextStart(sp: Spans, k: int): int
  {
    if 0 <= k + 1 < |sp.closed| then sp.closed[k + 1].0 else sp.start
  }

  function FirstStart(sp: Spans): int
  {
    if sp.closed == [] then sp.start else sp.closed[0].0
  }

  /** Closed window `k` is the non-empty slice of lines it records, and the window after it
      starts where it ends minus the lines it carries over. */
  predicate ClosedTile(lines: seq<string>, st: ChunkState, sp: Spans, overlapLines: int, k: int)
    requires 0 <= k < |sp.closed| == |st.closed|
  {
    && 0 <= sp.closed[k].0 < sp.closed[k].1 <= |lines|
    && st.closed[k] == lines[sp.closed[k].0..sp.closed[k].1]
    && NextStart(sp, k) == sp.closed[k].1 - |TakeLast(st.closed[k], overlapLines)|
  }

  /** The windows tile the input: the first starts at line 0, each closed one is a tile, and the
      current one is the suffix from its start. */
  predicate Tiles(lines: seq<string>, st: ChunkState, sp: Spans, overlapLines: int)
  {
    && |sp.closed| == |st.closed|
    && 0 <= sp.start <= |lines| && st.current == lines[sp.start..]
    && FirstStart(sp) == 0
    && forall k :: 0 <= k < |sp.closed| ==> ClosedTile(lines, st, sp, overlapLines, k)
  }

  lemma TakeLastIsSuffix<T>(s: seq<T>, n: int)
    ensures TakeLast(s, n) == s[|s| - |TakeLast(s, n)|..]
  {
  }

  /** A line that does not close the working chunk extends the current window. */
  lemma TilesExtend(init: seq<string>, line: string, st: ChunkState, sp: Spans, overlapLines: int)
    requires Tiles(init, st, sp, overlapLines)
    ensures Tiles(init + [line], ChunkState(st.closed, st.current + [line]), sp, overlapLines)
  {
    var lines := init + [line];
    var st' := ChunkState(st.closed, st.current + [line]);
    assert st'.current == lines[sp.start..];
    forall k | 0 <= k < |sp.closed|
      ensures ClosedTile(lines, st', sp, overlapLines, k)
    {
      assert ClosedTile(init, st, sp, overlapLines, k);
      assert lines[sp.closed[k].0..sp.closed[k].1] == init[sp.closed[k].0..sp.closed[k].1];
    }
  }

  /** A line that closes the working chunk turns the current window into a closed tile and
      starts the next window at the carried-over lines. */
  lemma TilesClose(init: seq<string>, line: string, st: ChunkState, sp: Spans, overlapLines: int)
    requires Tiles(init, st, sp, overlapLines) && st.current != []
    ensures var m := |TakeLast(st.current, overlapLines)|;
      Tiles(init + [line],
        ChunkState(st.closed + [st.current], TakeLast(st.current, overlapLines) + [line]),
        Spans(sp.closed + [(sp.start, |init|)], |init| - m), overlapLines)
  {
    var lines, n := init + [line], |init|;
    var m := |TakeLast(st.current, overlapLines)|;
    var st' := ChunkState(st.closed + [st.current], TakeLast(st.current, overlapLines) + [line]);
    var sp' := Spans(sp.closed + [(sp.start, n)], n - m);
    TakeLastIsSuffix(st.current, overlapLines);
    assert TakeLast(st.current, overlapLines) == init[n - m..];
    assert st'.current == lines[n - m..];
    forall k | 0 <= k < |sp'.closed|
      ensures ClosedTile(lines, st', sp', overlapLines, k)
    {
      if k < |sp.closed| {
        assert ClosedTile(init, st, sp, overlapLines, k);
        assert lines[sp.closed[k].0..sp.closed[k].1] == init[sp.closed[k].0..sp.closed[k].1];
        assert NextStart(sp', k) == NextStart(sp, k);
      } else {
        assert lines[sp.start..n] == init[sp.start..];
      }
    }
  }

  lemma {:induction false} FoldTiles(lines: seq<string>, chunkSize: int, overlapLines: int)
    ensures Tiles(lines, Fold(lines, chunkSize, overlapLines),
                  FoldSpans(lines, chunkSize, overlapLines), overlapLines)
    decreases |lines|
  {
    if lines != [] {
      var n := |lines| - 1;
      var init := lines[..n];
      assert lines == init + [lines[n]];
      FoldTiles(init, chunkSize, overlapLines);
      var st := Fold(init, chunkSize, overlapLines);
      var sp := FoldSpans(init, chunkSize, overlapLines);
      if LenSum(st.current) + |lines[n]| > chunkSize && st.current != [] {
        TilesClose(init, lines[n], st, sp, overlapLines);
      } else {
        TilesExtend(init, lines[n], st, sp, overlapLines);
      }
    }
  }

  predicate InWindow(r: (int, int), i: int)
  {
    r.0 <= i < r.1
  }

  /** Line `i` lies in a closed window or in the current one. */
  predicate Covered(sp: Spans, i: int)
  {
    sp.start <= i || exists k :: 0 <= k < |sp.closed| && InWindow(sp.closed[k], i)
  }

  /** No line is lost: every input line lies in a closed window or in the current one. */
  lemma {:induction false} FoldCovers(lines: seq<string>, chunkSize: int, overlapLines: int)
    ensures forall i :: 0 <= i < |lines| ==> Covered(FoldSpans(lines, chunkSize, overlapLines), i)
    decreases |lines|
  {
    if lines != [] {
      var n := |lines| - 1;
      var init := lines[..n];
      FoldCovers(init, chunkSize, overlapLines);
      FoldTiles(init, chunkSize, overlapLines);
      var sp := FoldSpans(init, chunkSize, overlapLines);
      var sp' := FoldSpans(lines, chunkSize, overlapLines);
      forall i | 0 <= i < |lines|
        ensures Covered(sp', i)
      {
        if sp' != sp && i < n {
          assert sp'.closed == sp.closed + [(sp.start, n)];
          if sp.start <= i {
            assert InWindow(sp'.closed[|sp.closed|], i);
          } else {
            assert Covered(sp, i);
            var k :| 0 <= k < |sp.closed| && InWindow(sp.closed[k], i);
            assert sp'.closed[k] == sp.closed[k];
          }
        }
      }
    }
  }

  /** Chunk text `t` is the stripped newline-join of the non-empty window `lines[a..b]`, and
      that window is within the budget. */
  predicate FromWindow(lines: seq<string>, a: int, b: int, t: string, chunkSize: int,
                       overlapLines: int)
  {
    0 <= a < b <= |lines| && WithinBudget(lines[a..b], chunkSize, overlapLines)
    && t == Strip(Join("\n", lines[a..b]))
  }

  /** The chunks emitted from the closed windows of a tiled state, all within the budget, each
      come from a window. */
  lemma ClosedFromWindows(lines: seq<string>, st: ChunkState, sp: Spans, source: string,
                          chunkSize: int, overlapLines: int)
    requires |sp.closed| == |st.closed|
    requires forall k :: 0 <= k < |sp.closed| ==> ClosedTile(lines, st, sp, overlapLines, k)
    requires forall w :: w in st.closed ==> WithinBudget(w, chunkSize, overlapLines)
    ensures forall c :: c in EmitAll(st.closed, source) ==>
      exists a, b :: FromWindow(lines, a, b, c.text, chunkSize, overlapLines)
  {
    EmitAllFrom(st.closed, source);
    forall c | c in EmitAll(st.closed, source)
      ensures exists a, b :: FromWindow(lines, a, b, c.text, chunkSize, overlapLines)
    {
      var w :| w in st.closed && c in Emit(w, source);
      var k :| 0 <= k < |st.closed| && st.closed[k] == w;
      assert ClosedTile(lines, st, sp, overlapLines, k);
      EmitFromWindow(lines, sp.closed[k].0, sp.closed[k].1, source, chunkSize, overlapLines);
    }
  }

  /** The chunk emitted from a non-empty window within the budget comes from that window. */
  lemma EmitFromWindow(lines: seq<string>, a: int, b: int, source: string,
                       chunkSize: int, overlapLines: int)
    requires 0 <= a < b <= |lines|
    requires WithinBudget(lines[a..b], chunkSize, overlapLines)
    ensures forall c :: c in Emit(lines[a..b], source) ==>
      FromWindow(lines, a, b, c.text, chunkSize, overlapLines)
  {
  }

  lemma EmitFromSuffix(lines: seq<string>, a: int, source: string, chunkSize: int,
                       overlapLines: int)
    requires 0 <= a < |lines|
    requires WithinBudget(lines[a..], chunkSize, overlapLines)
    ensures forall c :: c in Emit(lines[a..], source) ==>
      FromWindow(lines, a, |lines|, c.text, chunkSize, overlapLines)
  {
    assert lines[a..] == lines[a..|lines|];
    EmitFromWindow(lines, a, |lines|, source, chunkSize, overlapLines);
  }

  /** The chunks of a list of lines come from windows within the budget. */
  lemma LinesBudget(lines: seq<string>, source: string, chunkSize: int, overlapLines: int)
    requires overlapLines >= 1
    ensures forall c :: c in ChunkLines(lines, source, chunkSize, overlapLines) ==>
      exists a, b :: FromWindow(lines, a, b, c.text, chunkSize, overlapLines)
  {
    var st, sp := Fold(lines, chunkSize, overlapLines), FoldSpans(lines, chunkSize, overlapLines);
    FoldWithinBudget(lines, chunkSize, overlapLines);
    FoldTiles(lines, chunkSize, overlapLines);
    ClosedFromWindows(lines, st, sp, source, chunkSize, overlapLines);
    if st.current != [] {
      EmitFromSuffix(lines, sp.start, source, chunkSize, overlapLines);
    }
  }

  /** With an overlap of at least one line, every chunk is the stripped newline-join of a
      non-empty window of consecutive input lines whose lengths sum to at most `chunk_size`, or
      which holds at most `overlap_lines + 1` lines. */
  lemma ChunkBudget(text: string, source: string, chunkSize: int, overlapLines: int)
    requires overlapLines >= 1
    ensures forall c :: c in Chunked(text, source, chunkSize, overlapLines) ==>
      exists a, b :: FromWindow(Lines(text), a, b, c.text, chunkSize, overlapLines)
  {
    LinesBudget(Lines(text), source, chunkSize, overlapLines);
  }

  lemma {:induction false} FoldFits(lines: seq<string>, chunkSize: int, overlapLines: int)
    requires LenSum(lines) <= chunkSize
    ensures Fold(lines, chunkSize, overlapLines) == ChunkState([], lines)
    decreases |lines|
  {
    if lines != [] {
      var init := lines[..|lines| - 1];
      FoldFits(init, chunkSize, overlapLines);
      assert init + [lines[|lines| - 1]] == lines;
    }
  }

  /** A text whose lines fit the budget becomes the single chunk `text.strip()`, or no chunk
      when it is blank. */
  lemma ShortTextOneChunk(text: string, source: string, chunkSize: int, overlapLines: int)
    requires LenSum(Lines(text)) <= chunkSize
    ensures Chunked(text, source, chunkSize, overlapLines)
         == (if Strip(text) == [] then [] else [Chunk(Strip(text), source)])
  {
    var lines := Lines(text);
    FoldFits(lines, chunkSize, overlapLines);
    JoinSplitRoundTrip(text, "\n");
  }

  /** `current[-0:]` is the whole list: with `overlap_lines == 0` the working chunk is never
      emptied, so it always holds every line read so far. */
  lemma {:induction false} OverlapZeroKeepsEverything(lines: seq<string>, chunkSize: int)
    ensures Fold(lines, chunkSize, 0).current == lines
    decreases |lines|
  {
    if lines != [] {
      OverlapZeroKeepsEverything(lines[..|lines| - 1], chunkSize);
      assert lines[..|lines| - 1] + [lines[|lines| - 1]] == lines;
    }
  }

  // ----- the knowledge base -----

  /** `sorted(kb_path.glob("*.txt"))`: the `.txt` names of the directory in name order. */
  function TxtNames(files: map<string, string>): (names: seq<string>)
    ensures forall i :: 0 <= i < |names| ==> names[i] in files && EndsWith(names[i], ".txt")
    ensures forall n :: n in files && EndsWith(n, ".txt") ==> n in names
    ensures forall i, j :: 0 <= i < j < |names| ==> LexLess(names[i], names[j])
  {
    SortedNames(set n | n in files && EndsWith(n, ".txt"))
  }

  /** The chunks of the named files, file after file. */
  function ChunksOf(names: seq<string>, files: map<string, string>): seq<Chunk>
    requires forall i :: 0 <= i < |names| ==> names[i] in files
  {
    if names == [] then []
    else
      var n := names[|names| - 1];
      ChunksOf(names[..|names| - 1], files) + Chunked(files[n], n, DefaultChunkSize, DefaultOverlapLines)
  }

  /** What `_load_knowledge_base` returns; `None` stands for a missing directory. */
  function KbChunks(kb: Option<map<string, string>>): seq<Chunk>
  {
    match kb
    case None => []
    case Some(files) => ChunksOf(TxtNames(files), files)
  }

  lemma ChunksOfSnoc(names: seq<string>, files: map<string, string>)
    requires names != [] && forall i :: 0 <= i < |names| ==> names[i] in files
    ensures var n := names[|names| - 1];
      ChunksOf(names, files)
      == ChunksOf(names[..|names| - 1], files) + Chunked(files[n], n, DefaultChunkSize, DefaultOverlapLines)
  {
  }

  /** The chunks of the first `i + 1` names extend those of the first `i` by file `i`'s. */
  lemma ChunksOfPrefix(names: seq<string>, files: map<string, string>, i: nat)
    requires i < |names| && forall k :: 0 <= k < |names| ==> names[k] in files
    ensures ChunksOf(names[..i + 1], files)
      == ChunksOf(names[..i], files) + Chunked(files[names[i]], names[i], DefaultChunkSize, DefaultOverlapLines)
  {
    assert names[..i + 1][..i] == names[..i];
    ChunksOfSnoc(names[..i + 1], files);
  }

  lemma {:induction false} ChunksOfSources(names: seq<string>, files: map<string, string>)
    requires forall i :: 0 <= i < |names| ==> names[i] in files
    ensures forall c :: c in ChunksOf(names, files) ==> c.source in names && WellFormedChunk(c, c.source)
    decreases |names|
  {
    if names != [] {
      var init, n := names[..|names| - 1], names[|names| - 1];
      assert names == init + [n];
      ChunksOfSources(init, files);
      ChunksWellFormed(files[n], n, DefaultChunkSize, DefaultOverlapLines);
      ChunksOfSnoc(names, files);
    }
  }

  lemma {:induction false} ChunksOfOrdered(names: seq<string>, files: map<string, string>)
    requires forall i :: 0 <= i < |names| ==> names[i] in files
    requires forall i, j :: 0 <= i < j < |names| ==> LexLess(names[i], names[j])
    ensures var docs := ChunksOf(names, files);
      forall i, j :: 0 <= i < j < |docs| ==>
        docs[i].source == docs[j].source || LexLess(docs[i].source, docs[j].source)
    decreases |names|
  {
    if names != [] {
      var init, n := names[..|names| - 1], names[|names| - 1];
      ChunksOfOrdered(init, files);
      ChunksOfSources(init, files);
      ChunksOfSnoc(names, files);
      ChunkedSource(files[n], n, DefaultChunkSize, DefaultOverlapLines);
      forall x | x in init
        ensures LexLess(x, n)
      {
        EarlierNameFirst(names, x);
      }
      AppendFileOrdered(ChunksOf(init, files), Chunked(files[n], n, DefaultChunkSize, DefaultOverlapLines),
        init, n);
    }
  }

  /** Chunks grouped in name order stay so when a later file's chunks are appended. */
  lemma AppendFileOrdered(a: seq<Chunk>, b: seq<Chunk>, init: seq<string>, n: string)
    requires forall i, j :: 0 <= i < j < |a| ==> a[i].source == a[j].source || LexLess(a[i].source, a[j].source)
    requires forall c :: c in a ==> c.source in init
    requires forall x :: x in init ==> LexLess(x, n)
    requires forall c :: c in b ==> c.source == n
    ensures var docs := a + b;
      forall i, j :: 0 <= i < j < |docs| ==>
        docs[i].source == docs[j].source || LexLess(docs[i].source, docs[j].source)
  {
    var docs := a + b;
    forall i, j | 0 <= i < j < |docs|
      ensures docs[i].source == docs[j].source || LexLess(docs[i].source, docs[j].source)
    {
      if j < |a| {
        assert docs[i] == a[i] && docs[j] == a[j];
      } else if i >= |a| {
        assert docs[i] == b[i - |a|] && docs[j] == b[j - |a|];
        assert docs[i] in b && docs[j] in b;
      } else {
        assert docs[i] == a[i] && docs[j] == b[j - |a|];
        assert docs[j] in b;
        assert a[i] in a;
      }
    }
  }

  lemma EarlierNameFirst(names: seq<string>, x: string)
    requires names != [] && x in names[..|names| - 1]
    requires forall i, j :: 0 <= i < j < |names| ==> LexLess(names[i], names[j])
    ensures LexLess(x, names[|names| - 1])
  {
    var k :| 0 <= k < |names| - 1 && names[..|names| - 1][k] == x;
    assert names[k] == x;
  }

  /** The loaded chunks come from the directory's `.txt` files only, each well formed and
      labelled with its file name, and grouped file by file in name order. A missing directory
      gives no chunks. */
  lemma KbChunksOrdered(kb: Option<map<string, string>>)
    ensures kb.None? ==> KbChunks(kb) == []
    ensures forall c :: c in KbChunks(kb) ==>
      kb.Some? && c.source in kb.value && EndsWith(c.source, ".txt") && WellFormedChunk(c, c.source)
    ensures var docs := KbChunks(kb);
      forall i, j :: 0 <= i < j < |docs| ==>
        docs[i].source == docs[j].source || LexLess(docs[i].source, docs[j].source)
  {
    if kb.Some? {
      var files := kb.value;
      var names := TxtNames(files);
      ChunksOfOrdered(names, files);
      ChunksOfSources(names, files);
      assert KbChunks(kb) == ChunksOf(names, files);
      forall c | c in ChunksOf(names, files)
        ensures c.source in files && EndsWith(c.source, ".txt")
      {
        var k :| 0 <= k < |names| && names[k] == c.source;
      }
    }
  }

  // ----- retrieval -----

  function EmbedAll(chunks: seq<Chunk>, embed: string -> Vector): seq<Vector>
  {
    seq(|chunks|, i requires 0 <= i < |chunks| => embed(chunks[i].text))
  }

  /** `np.dot(self.embeddings, query_emb.T).flatten()`. */
  function Scores(embeddings: seq<Vector>, q: Vector, dot: (Vector, Vector) -> real): (s: seq<real>)
    ensures |s| == |embeddings|
  {
    seq(|embeddings|, i requires 0 <= i < |embeddings| => dot(embeddings[i], q))
  }

  /** What the model asks of numpy's `argsort(scores)[::-1]`: every position once, highest
      score first. Its order among equal scores is left open. */
  predicate IsDescRanking(rank: seq<nat>, scores: seq<real>)
  {
    && |rank| == |scores|
    && (forall i :: 0 <= i < |rank| ==> rank[i] < |scores|)
    && (forall i, j :: 0 <= i < j < |rank| ==> rank[i] != rank[j])
    && (forall i, j :: 0 <= i < j < |rank| ==> scores[rank[i]] >= scores[rank[j]])
  }

  /** What the model asks of FAISS's `search(q, k)`: `k` columns of non-negative distances. */
  predicate IsSearchResult(hits: seq<Hit>, k: nat)
  {
    |hits| == k && forall i :: 0 <= i < |hits| ==> hits[i].dist >= 0.0
  }

  /** The FAISS branch: in-range positions only, each scored `1 / (1 + dist)`. */
  function FromHits(chunks: seq<Chunk>, hits: seq<Hit>): seq<Retrieved>
    requires forall i :: 0 <= i < |hits| ==> hits[i].dist >= 0.0
  {
    if hits == [] then []
    else
      var h := hits[|hits| - 1];
      FromHits(chunks, hits[..|hits| - 1])
        + (if 0 <= h.idx < |chunks|
           then [Retrieved(chunks[h.idx].text, chunks[h.idx].source, 1.0 / (1.0 + h.dist))]
           else [])
  }

  /** The fallback branch: `self.chunks[idx]` for each ranked position, which raises IndexError
      when the embeddings outnumber the chunks. */
  function FromRanking(chunks: seq<Chunk>, idxs: seq<nat>, scores: seq<real>): Result<seq<Retrieved>>
    requires forall i :: 0 <= i < |idxs| ==> idxs[i] < |scores|
  {
    if idxs == [] then Ok([])
    else
      var k := idxs[|idxs| - 1];
      match FromRanking(chunks, idxs[..|idxs| - 1], scores)
      case Err(e) => Err(e)
      case Ok(rs) =>
        if k < |chunks| then Ok(rs + [Retrieved(chunks[k].text, chunks[k].source, scores[k])])
        else Err(IndexError("list index out of range"))
  }

  /** The state `retrieve` reads. */
  datatype Store = Store(chunks: seq<Chunk>, embeddings: Option<seq<Vector>>, searchable: bool)

  /** The collaborators behave as the model requires for this store and query. */
  predicate NumericsFit(st: Store, query: string, topK: nat, num: Numerics)
  {
    && (st.searchable && st.chunks != [] ==>
          IsSearchResult(num.search(num.embed(query), Min(topK, |st.chunks|)), Min(topK, |st.chunks|)))
    && (!st.searchable && st.embeddings.Some? ==>
          var scores := Scores(st.embeddings.value, num.embed(query), num.dot);
          IsDescRanking(num.argsortDesc(scores), scores))
  }

  /** What `retrieve(query, top_k)` returns; `searchable` is `self.index is not None and
      FAISS_AVAILABLE`. */
  function Retrieval(st: Store, query: string, topK: nat, num: Numerics): Result<seq<Retrieved>>
    requires NumericsFit(st, query, topK, num)
  {
    if st.chunks == [] then Ok([])
    else
      var q := num.embed(query);
      if st.searchable then Ok(FromHits(st.chunks, num.search(q, Min(topK, |st.chunks|))))
      else if st.embeddings.None? then Ok([])
      else
        var scores := Scores(st.embeddings.value, q, num.dot);
        FromRanking(st.chunks, Take(num.argsortDesc(scores), topK), scores)
  }

  lemma {:induction false} FromHitsCopies(chunks: seq<Chunk>, hits: seq<Hit>)
    requires forall i :: 0 <= i < |hits| ==> hits[i].dist >= 0.0
    ensures var rs := FromHits(chunks, hits);
      && |rs| <= |hits|
      && forall i :: 0 <= i < |rs| ==> (0.0 < rs[i].score <= 1.0
           && exists k :: 0 <= k < |chunks| && rs[i].text == chunks[k].text && rs[i].source == chunks[k].source)
    decreases |hits|
  {
    if hits != [] {
      FromHitsCopies(chunks, hits[..|hits| - 1]);
      var h := hits[|hits| - 1];
      if 0 <= h.idx < |chunks| {
        assert 1.0 / (1.0 + h.dist) <= 1.0;
      }
    }
  }

  lemma {:induction false} FromRankingCopies(chunks: seq<Chunk>, idxs: seq<nat>, scores: seq<real>)
    requires forall i :: 0 <= i < |idxs| ==> idxs[i] < |scores|
    ensures FromRanking(chunks, idxs, scores).Ok? <==> forall i :: 0 <= i < |idxs| ==> idxs[i] < |chunks|
    ensures var r := FromRanking(chunks, idxs, scores);
      r.Err? ==> r.error == IndexError("list index out of range")
    ensures var r := FromRanking(chunks, idxs, scores);
      r.Ok? ==> |r.value| == |idxs| && forall i :: 0 <= i < |idxs| ==>
        r.value[i] == Retrieved(chunks[idxs[i]].text, chunks[idxs[i]].source, scores[idxs[i]])
    decreases |idxs|
  {
    if idxs != [] {
      var init := idxs[..|idxs| - 1];
      FromRankingCopies(chunks, init, scores);
      assert forall i :: 0 <= i < |init| ==> idxs[i] == init[i];
    }
  }

  /** Distinct positions below `n` number at most `n`. */
  lemma {:induction false} DistinctBelow(s: seq<nat>, n: nat)
    requires forall i :: 0 <= i < |s| ==> s[i] < n
    requires forall i, j :: 0 <= i < j < |s| ==> s[i] != s[j]
    ensures |s| <= n
    decreases |s|
  {
    if s != [] {
      // Drop the last position m and rename n - 1, if it occurs, to m: the rest lie below n - 1.
      var t, m := s[..|s| - 1], s[|s| - 1];
      var u := seq(|t|, i requires 0 <= i < |t| => if t[i] == n - 1 then m else t[i]);
      assert forall i :: 0 <= i < |t| ==> t[i] == s[i] && t[i] != m;
      DistinctBelow(u, n - 1);
    }
  }

  /** `retrieve` returns nothing for an empty store, never more than `min(top_k, len(chunks))`
      results, each a copy of a stored chunk with a score; FAISS scores lie in (0, 1] and the
      fallback's come out highest first. The fallback raises IndexError exactly when a ranked
      position has no chunk. */
  lemma RetrievalProperties(st: Store, query: string, topK: nat, num: Numerics)
    requires NumericsFit(st, query, topK, num)
    ensures st.chunks == [] ==> Retrieval(st, query, topK, num) == Ok([])
    ensures st.searchable ==> Retrieval(st, query, topK, num).Ok?
    ensures var r := Retrieval(st, query, topK, num);
      r.Ok? ==> && |r.value| <= Min(topK, |st.chunks|)
                && forall i :: 0 <= i < |r.value| ==> exists k :: (0 <= k < |st.chunks|
                     && r.value[i].text == st.chunks[k].text && r.value[i].source == st.chunks[k].source)
    ensures var r := Retrieval(st, query, topK, num);
      st.searchable && r.Ok? ==> forall i :: 0 <= i < |r.value| ==> 0.0 < r.value[i].score <= 1.0
    ensures var r := Retrieval(st, query, topK, num);
      !st.searchable && r.Ok? ==> forall i, j :: 0 <= i < j < |r.value| ==> r.value[i].score >= r.value[j].score
  {
    if st.chunks != [] {
      var q := num.embed(query);
      if st.searchable {
        FromHitsCopies(st.chunks, num.search(q, Min(topK, |st.chunks|)));
      } else if st.embeddings.Some? {
        var scores := Scores(st.embeddings.value, q, num.dot);
        var rank := num.argsortDesc(scores);
        var taken := Take(rank, topK);
        assert forall i :: 0 <= i < |taken| ==> taken[i] == rank[i];
        FromRankingCopies(st.chunks, taken, scores);
        var r := FromRanking(st.chunks, taken, scores);
        if r.Ok? {
          DistinctBelow(taken, |st.chunks|);
          forall i | 0 <= i < |r.value|
            ensures exists k :: (0 <= k < |st.chunks|
              && r.value[i].text == st.chunks[k].text && r.value[i].source == st.chunks[k].source)
          {
            assert r.value[i].text == st.chunks[taken[i]].text;
          }
        }
      }
    }
  }

  // ----- the context string -----

  function Formatted(cs: seq<Retrieved>): (fs: seq<string>)
    ensures |fs| == |cs|
  {
    seq(|cs|, i requires 0 <= i < |cs| => "[Source: " + cs[i].source + "]\n" + cs[i].text)
  }

  /** The context that `get_context_string` builds from the retrieved chunks. */
  function ContextOf(cs: seq<Retrieved>): string
  {
    Join(ContextSeparator, Formatted(cs))
  }

  lemma {:induction false} JoinStartsWithFirst(sep: string, parts: seq<string>)
    requires parts != []
    ensures |parts[0]| <= |Join(sep, parts)| && Join(sep, parts)[..|parts[0]|] == parts[0]
  {
    if |parts| > 1 {
      assert Join(sep, parts) == parts[0] + (sep + Join(sep, parts[1..]));
    }
  }

  /** The context is empty exactly when nothing was retrieved; a single chunk gives its labelled
      text; contexts of consecutive runs of chunks join with the separator. */
  lemma ContextOfProperties(a: seq<Retrieved>, b: seq<Retrieved>)
    ensures ContextOf(a) == "" <==> a == []
    ensures |a| == 1 ==> ContextOf(a) == "[Source: " + a[0].source + "]\n" + a[0].text
    ensures a != [] && b != [] ==> ContextOf(a + b) == ContextOf(a) + ContextSeparator + ContextOf(b)
  {
    if a != [] {
      JoinStartsWithFirst(ContextSeparator, Formatted(a));
      assert |Formatted(a)[0]| > 0;
      if b != [] {
        assert Formatted(a + b) == Formatted(a) + Formatted(b);
        JoinConcat(ContextSeparator, Formatted(a), Formatted(b));
      }
    }
  }

  /** `RAGPipeline`: the chunk list and embeddings it holds, and whether a FAISS index is loaded. */
  class RAGPipeline {
    var chunks: seq<Chunk>
    var embeddings: Option<seq<Vector>>
    /** `self.index is not None` */
    var index: bool
    /** FAISS_AVAILABLE */
    const faissAvailable: bool

    function Current(): Store
      reads this
    {
      Store(chunks, embeddings, index && faissAvailable)
    }

    /** `__init__` and `_load_or_build`: load the persisted chunks and embeddings when both files
        exist (the index only when its file exists and FAISS is available), else build. */
    constructor(persisted: Option<Persisted>, kb: Option<map<string, string>>, num: Numerics,
                faissAvailable: bool)
      ensures this.faissAvailable == faissAvailable
      ensures persisted.Some? ==>
        && chunks == persisted.value.chunks
        && embeddings == Some(persisted.value.embeddings)
        && index == (persisted.value.hasIndexFile && faissAvailable)
      ensures persisted.None? ==>
        && chunks == KbChunks(kb)
        && (chunks == [] ==> !index && embeddings == None)
        && (chunks != [] ==> embeddings == Some(EmbedAll(chunks, num.embed)) && index == faissAvailable)
    {
      this.faissAvailable := faissAvailable;
      chunks := [];
      embeddings := None;
      index := false;
      new;
      if persisted.Some? {
        chunks := persisted.value.chunks;
        embeddings := Some(persisted.value.embeddings);
        if persisted.value.hasIndexFile && faissAvailable {
          index := true;
        }
      } else {
        BuildIndex(kb, num);
      }
    }

    /** `_chunk_text`: lines are gathered into a working chunk until the next line would take
        its line characters over `chunk_size`; the chunk is then closed and the next one starts
        with its last `overlap_lines` lines. */
    method ChunkText(text: string, source: string, chunkSize: int := DefaultChunkSize,
                     overlapLines: int := DefaultOverlapLines) returns (chunks: seq<Chunk>)
      ensures chunks == Chunked(text, source, chunkSize, overlapLines)
    {
      chunks := [];
      var lines := Lines(text);
      var current: seq<string> := [];
      var currentLen := 0;
      ghost var closed: seq<seq<string>> := [];
      for i := 0 to |lines|
        invariant Fold(lines[..i], chunkSize, overlapLines) == ChunkState(closed, current)
        invariant chunks == EmitAll(closed, source)
        invariant currentLen == LenSum(current)
      {
        var line := lines[i];
        FoldSnoc(lines, i, chunkSize, overlapLines);
        if currentLen + |line| > chunkSize && current != [] {
          var chunkText := Strip(Join("\n", current));
          if chunkText != [] {
            chunks := chunks + [Chunk(chunkText, source)];
          }
          EmitAllSnoc(closed, current, source);
          closed := closed + [current];
          current := TakeLast(current, overlapLines) + [line];
          currentLen := LenSum(current);
        } else {
          LenSumAppend(current, line);
          current := current + [line];
          currentLen := currentLen + |line|;
        }
      }
      assert lines[..|lines|] == lines;
      if current != [] {
        var chunkText := Strip(Join("\n", current));
        if chunkText != [] {
          chunks := chunks + [Chunk(chunkText, source)];
        }
      }
    }

    /** `_load_knowledge_base`: the chunks of every `.txt` file, file by file in name order. */
    method LoadKnowledgeBase(kb: Option<map<string, string>>) returns (docs: seq<Chunk>)
      ensures docs == KbChunks(kb)
    {
      docs := [];
      if kb.None? {
        return;
      }
      docs := LoadFiles(TxtNames(kb.value), kb.value);
    }

    /** The loop of `_load_knowledge_base`: chunk each named file in turn. */
    method LoadFiles(names: seq<string>, files: map<string, string>) returns (docs: seq<Chunk>)
      requires forall i :: 0 <= i < |names| ==> names[i] in files
      ensures docs == ChunksOf(names, files)
    {
      docs := [];
      for i := 0 to |names|
        invariant docs == ChunksOf(names[..i], files)
      {
        ChunksOfPrefix(names, files, i);
        var chunks := ChunkText(files[names[i]], names[i]);
        docs := docs + chunks;
      }
      assert names[..|names|] == names;
    }

    /** `_build_index`: reload the knowledge base; with no chunks the index is dropped (the
        embeddings are left as they were), otherwise every chunk is embedded and, when FAISS is
        available, indexed. */
    method BuildIndex(kb: Option<map<string, string>>, num: Numerics)
      modifies this
      ensures chunks == KbChunks(kb)
      ensures chunks == [] ==> !index && embeddings == old(embeddings)
      ensures chunks != [] ==>
        embeddings == Some(EmbedAll(chunks, num.embed)) && index == (faissAvailable || old(index))
    {
      chunks := LoadKnowledgeBase(kb);
      if chunks == [] {
        index := false;
        return;
      }
      embeddings := Some(EmbedAll(chunks, num.embed));
      if faissAvailable {
        index := true;
      }
    }

    /** `rebuild_index`. */
    method RebuildIndex(kb: Option<map<string, string>>, num: Numerics)
      modifies this
      ensures chunks == KbChunks(kb)
      ensures chunks == [] ==> !index && embeddings == old(embeddings)
      ensures chunks != [] ==>
        embeddings == Some(EmbedAll(chunks, num.embed)) && index == (faissAvailable || old(index))
    {
      BuildIndex(kb, num);
    }

    /** `retrieve`: the stored chunks are only read; results are fresh copies with a score. */
    method Retrieve(query: string, topK: nat, num: Numerics) returns (r: Result<seq<Retrieved>>)
      requires NumericsFit(Current(), query, topK, num)
      ensures r == Retrieval(Current(), query, topK, num)
    {
      if chunks == [] {
        return Ok([]);
      }
      var q := num.embed(query);
      if index && faissAvailable {
        var hits := num.search(q, Min(topK, |chunks|));
        var results: seq<Retrieved> := [];
        for i := 0 to |hits|
          invariant results == FromHits(chunks, hits[..i])
        {
          assert hits[..i + 1][..i] == hits[..i];
          var h := hits[i];
          if 0 <= h.idx < |chunks| {
            results := results + [Retrieved(chunks[h.idx].text, chunks[h.idx].source, 1.0 / (1.0 + h.dist))];
          }
        }
        assert hits[..|hits|] == hits;
        return Ok(results);
      }
      if embeddings.None? {
        return Ok([]);
      }
      var scores := Scores(embeddings.value, q, num.dot);
      var top := Take(num.argsortDesc(scores), topK);
      var results: seq<Retrieved> := [];
      for i := 0 to |top|
        invariant FromRanking(chunks, top[..i], scores) == Ok(results)
      {
        assert top[..i + 1][..i] == top[..i];
        var k := top[i];
        if k >= |chunks| {
          FromRankingCopies(chunks, top, scores);
          return Err(IndexError("list index out of range"));
        }
        results := results + [Retrieved(chunks[k].text, chunks[k].source, scores[k])];
      }
      assert top[..|top|] == top;
      return Ok(results);
    }

    /** `get_context_string`: the retrieved chunks and their labelled texts joined by the
        separator, in retrieval order; `("", [])` when nothing was retrieved. */
    method GetContextString(query: string, num: Numerics, topK: nat := TopKRetrieval)
      returns (r: Result<(string, seq<Retrieved>)>)
      requires NumericsFit(Current(), query, topK, num)
      ensures Retrieval(Current(), query, topK, num).Err? ==> r == Err(Retrieval(Current(), query, topK, num).error)
      ensures Retrieval(Current(), query, topK, num).Ok? ==>
        var cs := Retrieval(Current(), query, topK, num).value;
        r == Ok((ContextOf(cs), cs))
    {
      var got := Retrieve(query, topK, num);
      if got.Err? {
        return Err(got.error);
      }
      var cs := got.value;
      if cs == [] {
        return Ok(("", []));
      }
      var context := Join(ContextSeparator, Formatted(cs));
      return Ok((context, cs));
    }
  }
}
