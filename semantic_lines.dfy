/**
 * SemanticStringView.swift, first half: the token stream of a generated
 * declaration is cut at line breaks into numbered lines of runs
 * (`CDSemanticString.semanticLines`), and the lines are joined back into the
 * file's text (`getFileContent`).
 */
module SemanticLines {
  import opened Common
  import opened Strings
  import opened Seqs
  import opened SemanticTypes

  /** One `(string, type)` pair handed out by `enumerateTypes`. */
  datatype Chunk = Chunk(text: string, kind: SemanticType)

  /** `SemanticRun`: a piece of one line, without line breaks. */
  datatype SemanticRun = SemanticRun(id: int, text: string, kind: SemanticType)

  /** `SemanticLine`: its `id` is its `number`. */
  datatype SemanticLine = SemanticLine(number: int, content: seq<SemanticRun>)

  /**
   * The stream once its line breaks are found: pieces without line breaks,
   * each with the type of the chunk it comes from, and the breaks between
   * them.
   */
  datatype Token = Piece(text: string, kind: SemanticType) | Break

  /** The first line whose length is strictly the greatest, with that length. */
  datatype Longest = Longest(length: nat, index: Option<nat>)

  /** The whole text of the stream. */
  function StreamText(chunks: seq<Chunk>): string
    decreases |chunks|
  {
    if chunks == [] then ""
    else StreamText(chunks[..|chunks| - 1]) + chunks[|chunks| - 1].text
  }

  function RunsText(runs: seq<SemanticRun>): string
    decreases |runs|
  {
    if runs == [] then ""
    else RunsText(runs[..|runs| - 1]) + runs[|runs| - 1].text
  }

  /** The text the tokens stand for, each break a '\n'. */
  function TokensText(tokens: seq<Token>): string
    decreases |tokens|
  {
    if tokens == [] then ""
    else (if tokens[0].Piece? then tokens[0].text else "\n") + TokensText(tokens[1..])
  }

  lemma {:induction false} TokensTextAppend(a: seq<Token>, b: seq<Token>)
    ensures TokensText(a + b) == TokensText(a) + TokensText(b)
    decreases |a|
  {
    if a != [] {
      assert (a + b)[0] == a[0] && (a + b)[1..] == a[1..] + b;
      TokensTextAppend(a[1..], b);
    } else {
      assert a + b == b;
    }
  }

  /**
   * One chunk cut at each of its line breaks: a piece before every break,
   * and the piece after the last break, kept even when it is empty.
   */
  function ChunkTokens(text: string, kind: SemanticType): (r: seq<Token>)
    ensures r != [] && r[0].Piece?
    decreases |text|
  {
    match FirstIndexOf(text, '\n')
    case None => [Piece(text, kind)]
    case Some(k) => [Piece(text[..k], kind)] + ([Break] + ChunkTokens(text[k + 1..], kind))
  }

  /**
   * The pieces and the breaks of a cut chunk alternate, starting and ending
   * with a piece.
   */
  lemma {:induction false} ChunkTokensAlternate(text: string, kind: SemanticType)
    ensures var r := ChunkTokens(text, kind);
      |r| % 2 == 1 && forall i :: 0 <= i < |r| ==> (r[i].Piece? <==> i % 2 == 0)
    decreases |text|
  {
    match FirstIndexOf(text, '\n')
    case None =>
    case Some(k) =>
      var rest := ChunkTokens(text[k + 1..], kind);
      ChunkTokensAlternate(text[k + 1..], kind);
      var r := [Piece(text[..k], kind)] + ([Break] + rest);
      assert ChunkTokens(text, kind) == r;
      ParityShift(|rest|);
      forall i | 0 <= i < |r|
        ensures r[i].Piece? <==> i % 2 == 0
      {
        if i == 0 {
          assert r[0] == Piece(text[..k], kind);
        } else if i == 1 {
          assert r[1] == Break;
        } else {
          assert r[i] == rest[i - 2];
          ParityShift(i - 2);
        }
      }
  }

  lemma ParityShift(n: int)
    ensures (n + 2) % 2 == n % 2
  {
  }

  /** Every piece of a cut chunk carries the chunk's type and holds no line break. */
  lemma {:induction false} ChunkTokensPieces(text: string, kind: SemanticType)
    ensures forall t :: t in ChunkTokens(text, kind) && t.Piece? ==> t.kind == kind && '\n' !in t.text
    decreases |text|
  {
    match FirstIndexOf(text, '\n')
    case None =>
    case Some(k) =>
      var rest := ChunkTokens(text[k + 1..], kind);
      ChunkTokensPieces(text[k + 1..], kind);
      assert ChunkTokens(text, kind) == [Piece(text[..k], kind)] + ([Break] + rest);
  }

  /** Cutting a chunk and spelling the tokens gives the chunk back. */
  lemma {:induction false} ChunkTokensSpell(text: string, kind: SemanticType)
    ensures TokensText(ChunkTokens(text, kind)) == text
    decreases |text|
  {
    match FirstIndexOf(text, '\n')
    case None =>
    case Some(k) =>
      var rest := ChunkTokens(text[k + 1..], kind);
      var tail := [Break] + rest;
      ChunkTokensSpell(text[k + 1..], kind);
      assert tail[0] == Break && tail[1..] == rest;
      assert TokensText(tail) == "\n" + text[k + 1..];
      var r := [Piece(text[..k], kind)] + tail;
      assert r[0] == Piece(text[..k], kind) && r[1..] == tail;
      assert ChunkTokens(text, kind) == r;
      assert TokensText(r) == text[..k] + TokensText(tail);
      assert text == text[..k] + "\n" + text[k + 1..];
  }

  /** The tokens of every chunk of the stream, in order. */
  function StreamTokens(chunks: seq<Chunk>): seq<Token>
    decreases |chunks|
  {
    if chunks == [] then []
    else
      var last := chunks[|chunks| - 1];
      StreamTokens(chunks[..|chunks| - 1]) + ChunkTokens(last.text, last.kind)
  }

  /** The tokens of the stream spell the stream's text. */
  lemma {:induction false} StreamTokensSpell(chunks: seq<Chunk>)
    ensures TokensText(StreamTokens(chunks)) == StreamText(chunks)
    decreases |chunks|
  {
    if chunks != [] {
      var last := chunks[|chunks| - 1];
      StreamTokensSpell(chunks[..|chunks| - 1]);
      ChunkTokensSpell(last.text, last.kind);
      TokensTextAppend(StreamTokens(chunks[..|chunks| - 1]), ChunkTokens(last.text, last.kind));
    }
  }

  /** Cutting at the first line break splits off one piece and one break. */
  lemma CutAtBreak(seen: seq<Token>, text: string, k: nat, kind: SemanticType)
    requires FirstIndexOf(text, '\n') == Some(k)
    ensures seen + [Piece(text[..k], kind), Break] + ChunkTokens(text[k + 1..], kind) == seen + ChunkTokens(text, kind)
  {
  }

  lemma StreamTokensStep(chunks: seq<Chunk>, i: nat)
    requires i < |chunks|
    ensures StreamTokens(chunks[..i + 1]) == StreamTokens(chunks[..i]) + ChunkTokens(chunks[i].text, chunks[i].kind)
  {
    assert chunks[..i + 1][..i] == chunks[..i];
  }

  /** A line's runs as tokens: each run's text and type. */
  function RunTokens(runs: seq<SemanticRun>): (r: seq<Token>)
    ensures |r| == |runs|
    ensures forall j :: 0 <= j < |runs| ==> r[j] == Piece(runs[j].text, runs[j].kind)
  {
    seq(|runs|, j requires 0 <= j < |runs| => Piece(runs[j].text, runs[j].kind))
  }

  /** The runs of the lines as tokens, each line followed by the break that ended it. */
  function LinesTokens(lines: seq<SemanticLine>): seq<Token>
    decreases |lines|
  {
    if lines == [] then []
    else LinesTokens(lines[..|lines| - 1]) + RunTokens(lines[|lines| - 1].content) + [Break]
  }

  /** The finished lines, then the line in progress, are the tokens read, in order. */
  ghost predicate Tokenized(lines: seq<SemanticLine>, current: seq<SemanticRun>, seen: seq<Token>) {
    LinesTokens(lines) + RunTokens(current) == seen
  }

  lemma PushRunKeepsTokens(lines: seq<SemanticLine>, current: seq<SemanticRun>, seen: seq<Token>,
                           piece: string, kind: SemanticType)
    requires Tokenized(lines, current, seen)
    ensures Tokenized(lines, current + [SemanticRun(|current|, piece, kind)], seen + [Piece(piece, kind)])
  {
    assert RunTokens(current + [SemanticRun(|current|, piece, kind)]) == RunTokens(current) + [Piece(piece, kind)];
  }

  lemma PushLineKeepsTokens(lines: seq<SemanticLine>, current: seq<SemanticRun>, seen: seq<Token>)
    requires Tokenized(lines, current, seen)
    ensures Tokenized(lines + [SemanticLine(|lines|, current)], [], seen + [Break])
  {
    var lines' := lines + [SemanticLine(|lines|, current)];
    assert lines'[..|lines|] == lines;
    assert RunTokens([]) == [];
  }

  /** The character count of a line (`currentLineLength` once the line is complete). */
  function LineLength(line: SemanticLine): nat {
    |RunsText(line.content)|
  }

  function LineTexts(lines: seq<SemanticLine>): (r: seq<string>)
    ensures |r| == |lines|
    ensures forall i :: 0 <= i < |lines| ==> r[i] == RunsText(lines[i].content)
  {
    seq(|lines|, i requires 0 <= i < |lines| => RunsText(lines[i].content))
  }

  /** The runs of one line are numbered 0, 1, 2, ... in order. */
  ghost predicate RunIdsInOrder(runs: seq<SemanticRun>) {
    forall j :: 0 <= j < |runs| ==> runs[j].id == j
  }

  ghost predicate RunsWithoutBreaks(runs: seq<SemanticRun>) {
    forall j :: 0 <= j < |runs| ==> '\n' !in runs[j].text
  }

  /** Each line is numbered by its index and its runs by theirs. */
  ghost predicate Numbered(lines: seq<SemanticLine>) {
    forall i :: 0 <= i < |lines| ==> lines[i].number == i && RunIdsInOrder(lines[i].content)
  }

  ghost predicate WithoutBreaks(lines: seq<SemanticLine>) {
    forall i :: 0 <= i < |lines| ==> RunsWithoutBreaks(lines[i].content)
  }

  /** The character count of each line, in order. */
  function Lengths(lines: seq<SemanticLine>): (r: seq<nat>)
    ensures |r| == |lines|
    ensures forall i :: 0 <= i < |lines| ==> r[i] == LineLength(lines[i])
  {
    seq(|lines|, i requires 0 <= i < |lines| => LineLength(lines[i]))
  }

  /**
   * The longest-line bookkeeping of `semanticLines`, replayed over the line
   * lengths in order: a line replaces the current best only when it is
   * strictly longer, and lines of length 0 never become the best.
   */
  function LongestLine(lengths: seq<nat>): (r: Longest)
    ensures r.index.None? <==> forall j :: 0 <= j < |lengths| ==> lengths[j] == 0
    ensures r.index.None? ==> r.length == 0
    ensures r.index.Some? ==> r.index.value < |lengths| && r.length == lengths[r.index.value]
    ensures forall j :: 0 <= j < |lengths| ==> lengths[j] <= r.length
    ensures r.index.Some? ==> forall j :: 0 <= j < r.index.value ==> lengths[j] < r.length
    decreases |lengths|
  {
    if lengths == [] then Longest(0, None)
    else
      var best := LongestLine(lengths[..|lengths| - 1]);
      var n := lengths[|lengths| - 1];
      if n > best.length then Longest(n, Some(|lengths| - 1)) else best
  }

  lemma LongestLineAppend(lines: seq<SemanticLine>, line: SemanticLine)
    ensures LongestLine(Lengths(lines + [line])) ==
      var best := LongestLine(Lengths(lines));
      if LineLength(line) > best.length then Longest(LineLength(line), Some(|lines|)) else best
  {
    assert Lengths(lines + [line])[..|lines|] == Lengths(lines);
  }

  lemma RunsTextAppend(runs: seq<SemanticRun>, run: SemanticRun)
    ensures RunsText(runs + [run]) == RunsText(runs) + run.text
  {
    assert (runs + [run])[..|runs|] == runs;
  }

  lemma StreamTextStep(chunks: seq<Chunk>, i: nat)
    requires i < |chunks|
    ensures StreamText(chunks[..i + 1]) == StreamText(chunks[..i]) + chunks[i].text
  {
    assert chunks[..i + 1][..i] == chunks[..i];
  }

  /** Finished lines and the line in progress are numbered and free of line breaks. */
  ghost predicate Shaped(lines: seq<SemanticLine>, current: seq<SemanticRun>) {
    && Numbered(lines) && WithoutBreaks(lines)
    && RunIdsInOrder(current) && RunsWithoutBreaks(current)
  }

  /** Joining the finished lines and the line in progress spells `read`. */
  ghost predicate Spells(lines: seq<SemanticLine>, current: seq<SemanticRun>, read: string) {
    && JoinLines(LineTexts(lines) + [RunsText(current)]) == read
    && |lines| == Occurrences(read, '\n')
  }

  /**
   * The state `semanticLines` keeps between steps is sound for the text read
   * so far: joining the finished lines and the line in progress gives that
   * text back, there is one finished line per line break read, and the
   * longest-line bookkeeping is that of the finished lines.
   */
  ghost predicate Consistent(lines: seq<SemanticLine>, current: seq<SemanticRun>, currentLineLength: int,
                             best: Longest, read: string)
  {
    && Shaped(lines, current)
    && currentLineLength == |RunsText(current)|
    && LongestLine(Lengths(lines)) == best
    && Spells(lines, current, read)
  }

  /** `pushRun(string:)`: the piece becomes the next run of the line in progress. */
  lemma PushRunKeepsConsistent(lines: seq<SemanticLine>, current: seq<SemanticRun>, currentLineLength: int,
                               best: Longest, read: string, piece: string, kind: SemanticType)
    requires Consistent(lines, current, currentLineLength, best, read)
    requires '\n' !in piece
    ensures Consistent(lines, current + [SemanticRun(|current|, piece, kind)],
                       currentLineLength + |piece|, best, read + piece)
  {
    var run := SemanticRun(|current|, piece, kind);
    RunsTextAppend(current, run);
    JoinLinesExtendLast(LineTexts(lines), RunsText(current), piece);
    OccurrencesAppend(read, piece, '\n');
    OccurrencesAbsent(piece, '\n');
  }

  /** The best line after `pushLine()` finishes a line of length `n`. */
  function Improved(best: Longest, n: int, index: nat): Longest {
    if n > best.length then Longest(n, Some(index)) else best
  }

  /** `pushLine()`: the line in progress is finished and a new, empty one begins. */
  lemma PushLineKeepsConsistent(lines: seq<SemanticLine>, current: seq<SemanticRun>, currentLineLength: int,
                                best: Longest, read: string)
    requires Consistent(lines, current, currentLineLength, best, read)
    ensures Consistent(lines + [SemanticLine(|lines|, current)], [], 0,
                       Improved(best, currentLineLength, |lines|), read + "\n")
  {
    var line := SemanticLine(|lines|, current);
    PushLineKeepsShape(lines, current);
    PushLineKeepsSpelling(lines, current, read);
    LongestLineAppend(lines, line);
  }

  lemma PushLineKeepsShape(lines: seq<SemanticLine>, current: seq<SemanticRun>)
    requires Shaped(lines, current)
    ensures Shaped(lines + [SemanticLine(|lines|, current)], [])
  {
  }

  lemma PushLineKeepsSpelling(lines: seq<SemanticLine>, current: seq<SemanticRun>, read: string)
    requires Spells(lines, current, read)
    ensures Spells(lines + [SemanticLine(|lines|, current)], [], read + "\n")
  {
    var line := SemanticLine(|lines|, current);
    assert LineTexts(lines + [line]) == LineTexts(lines) + [RunsText(current)];
    JoinLinesNewPart(LineTexts(lines), RunsText(current));
    OccurrencesAppend(read, "\n", '\n');
    assert Occurrences("\n", '\n') == 1 by {
      assert "\n"[..0] == "";
    }
  }

  /** Cutting `s` at the line break at offset `k`, after the text `consumed` and `start`. */
  lemma SplitAtBreak(start: string, consumed: string, s: string, k: nat)
    requires k < |s| && s[k] == '\n'
    ensures consumed + s[..k] + "\n" + s[k + 1..] == consumed + s
    ensures start + consumed + s[..k] + "\n" == start + (consumed + s[..k] + "\n")
  {
    assert s == s[..k] + "\n" + s[k + 1..];
  }

  lemma AppendAssociates(a: string, b: string, c: string)
    ensures a + b + c == a + (b + c)
  {
  }

  /**
   * The variables `semanticLines` shares with its nested `pushLine` and
   * `pushRun` functions; `read` is the text consumed so far and `seen` the
   * same text as tokens.
   */
  class LineBuilder {
    var lines: seq<SemanticLine>
    var longestLineIndex: Option<nat>
    var longestLineLength: nat
    var current: seq<SemanticRun>
    var currentLineLength: int
    ghost var read: string
    ghost var seen: seq<Token>

    ghost predicate Valid()
      reads this
    {
      && Consistent(lines, current, currentLineLength, Longest(longestLineLength, longestLineIndex), read)
      && Tokenized(lines, current, seen)
    }

    constructor ()
      ensures Valid()
      ensures lines == [] && current == [] && read == "" && seen == []
    {
      lines := [];
      longestLineIndex := None;
      longestLineLength := 0;
      current := [];
      currentLineLength := 0;
      read := "";
      seen := [];
      assert RunTokens([]) == [];
      assert JoinLines([RunsText([])]) == "";
    }

    /** `pushRun(string:)` */
    method PushRun(piece: string, kind: SemanticType)
      requires Valid() && '\n' !in piece
      modifies this
      ensures Valid()
      ensures lines == old(lines) && read == old(read) + piece
      ensures current == old(current) + [SemanticRun(|old(current)|, piece, kind)]
      ensures seen == old(seen) + [Piece(piece, kind)]
    {
      PushRunKeepsConsistent(lines, current, currentLineLength,
                             Longest(longestLineLength, longestLineIndex), read, piece, kind);
      PushRunKeepsTokens(lines, current, seen, piece, kind);
      current := current + [SemanticRun(|current|, piece, kind)];
      currentLineLength := currentLineLength + |piece|;
      read := read + piece;
      seen := seen + [Piece(piece, kind)];
    }

    /** `pushLine()`; the line break it stands for counts as read. */
    method PushLine()
      requires Valid()
      modifies this
      ensures Valid()
      ensures lines == old(lines) + [SemanticLine(|old(lines)|, old(current))]
      ensures current == [] && read == old(read) + "\n" && seen == old(seen) + [Break]
    {
      PushLineKeepsConsistent(lines, current, currentLineLength,
                              Longest(longestLineLength, longestLineIndex), read);
      PushLineKeepsTokens(lines, current, seen);
      var upcomingIndex := |lines|;
      lines := lines + [SemanticLine(upcomingIndex, current)];
      if currentLineLength > longestLineLength {
        longestLineLength := currentLineLength;
        longestLineIndex := Some(upcomingIndex);
      }
      current := [];
      currentLineLength := 0;
      read := read + "\n";
      seen := seen + [Break];
    }

    /** One turn of the loop below: the text before a line break ends the line. */
    method BreakLine(piece: string, kind: SemanticType)
      requires Valid() && '\n' !in piece
      modifies this
      ensures Valid() && read == old(read) + piece + "\n"
      ensures lines == old(lines) + [SemanticLine(|old(lines)|, old(current) + [SemanticRun(|old(current)|, piece, kind)])]
      ensures current == [] && seen == old(seen) + [Piece(piece, kind), Break]
    {
      PushRun(piece, kind);
      PushLine();
    }

    /**
     * The body of the `enumerateTypes` callback for one chunk: the finished
     * lines are kept, and the lines and the line in progress now end with
     * the chunk's tokens.
     */
    method PushText(text: string, kind: SemanticType)
      requires Valid()
      modifies this
      ensures Valid()
      ensures read == old(read) + text
      ensures seen == old(seen) + ChunkTokens(text, kind)
      ensures old(lines) <= lines
      ensures current != []
    {
      var movingSubstring := text;
      ghost var start := read;
      ghost var consumed := "";
      var lineBreak := FirstIndexOf(movingSubstring, '\n');
      while lineBreak.Some?
        invariant Valid()
        invariant consumed + movingSubstring == text
        invariant lineBreak == FirstIndexOf(movingSubstring, '\n')
        invariant read == start + consumed
        invariant seen + ChunkTokens(movingSubstring, kind) == old(seen) + ChunkTokens(text, kind)
        invariant old(lines) <= lines
        decreases |movingSubstring|
      {
        var k := lineBreak.value;
        var piece := movingSubstring[..k];
        ghost var seenBefore := seen;
        BreakLine(piece, kind);
        CutAtBreak(seenBefore, movingSubstring, k, kind);
        SplitAtBreak(start, consumed, movingSubstring, k);
        consumed := consumed + piece + "\n";
        movingSubstring := movingSubstring[k + 1..];
        lineBreak := FirstIndexOf(movingSubstring, '\n');
      }
      PushRun(movingSubstring, kind);
      AppendAssociates(start, consumed, movingSubstring);
    }
  }

  /** The `enumerateTypes` pass of `semanticLines`: every chunk read, in order. */
  method EnumerateTypes(chunks: seq<Chunk>) returns (b: LineBuilder)
    ensures fresh(b) && b.Valid()
    ensures b.read == StreamText(chunks) && b.seen == StreamTokens(chunks)
    ensures chunks == [] ==> b.lines == [] && b.current == []
    ensures chunks != [] ==> b.current != []
  {
    b := new LineBuilder();
    for i := 0 to |chunks|
      invariant b.Valid() && b.read == StreamText(chunks[..i]) && b.seen == StreamTokens(chunks[..i])
      invariant i == 0 ==> b.lines == [] && b.current == []
      invariant i > 0 ==> b.current != []
    {
      b.PushText(chunks[i].text, chunks[i].kind);
      StreamTextStep(chunks, i);
      StreamTokensStep(chunks, i);
    }
    assert chunks[..|chunks|] == chunks;
  }

  /**
   * `CDSemanticString.semanticLines()`: every line break of the stream ends
   * the line in progress and is dropped; the rest of each chunk becomes runs
   * carrying the chunk's type.
   */
  method SemanticLinesOf(chunks: seq<Chunk>) returns (lines: seq<SemanticLine>, longestLineIndex: Option<nat>)
    ensures Numbered(lines)
    ensures WithoutBreaks(lines)
    ensures chunks == [] ==> lines == []
    ensures chunks != [] ==> |lines| == Occurrences(StreamText(chunks), '\n') + 1
    ensures JoinLines(LineTexts(lines)) == StreamText(chunks)
    ensures longestLineIndex == LongestLine(Lengths(lines)).index
    ensures chunks != [] ==> LinesTokens(lines) == StreamTokens(chunks) + [Break]
  {
    var b := EnumerateTypes(chunks);
    if b.current != [] {
      b.PushLine();
      JoinLinesEmptyLast(LineTexts(b.lines));
      OccurrencesAppend(StreamText(chunks), "\n", '\n');
      assert Occurrences("\n", '\n') == 1 by {
        assert "\n"[..0] == "";
      }
    }
    lines, longestLineIndex := b.lines, b.longestLineIndex;
  }

  /** A trailing empty part adds nothing once the separator it brings is removed. */
  lemma JoinLinesEmptyLast(parts: seq<string>)
    ensures parts != [] ==> JoinLines(parts + [""]) == JoinLines(parts) + "\n"
    ensures parts == [] ==> JoinLines(parts + [""]) == ""
  {
    if parts != [] {
      assert (parts + [""])[..|parts|] == parts;
    }
  }

  /**
   * `getFileContent`: each line's runs are concatenated and the lines are
   * joined with line breaks.
   */
  method GetFileContent(lines: seq<SemanticLine>) returns (content: string)
    ensures content == JoinLines(LineTexts(lines))
  {
    var stringContent: seq<string> := [];
    for i := 0 to |lines|
      invariant stringContent == LineTexts(lines[..i])
    {
      var runs := lines[i].content;
      var lineContent := "";
      for j := 0 to |runs|
        invariant lineContent == RunsText(runs[..j])
      {
        assert runs[..j + 1] == runs[..j] + [runs[j]];
        RunsTextAppend(runs[..j], runs[j]);
        lineContent := lineContent + runs[j].text;
      }
      assert runs[..|runs|] == runs;
      stringContent := stringContent + [lineContent];
    }
    assert lines[..|lines|] == lines;
    content := JoinLines(stringContent);
  }

  /**
   * The text "File Content" copies for a view built from `chunks`: the lines
   * computed when the view is created, joined back. It is the stream's own
   * text, whatever the stream.
   */
  method FileContent(chunks: seq<Chunk>) returns (content: string)
    ensures content == StreamText(chunks)
  {
    var lines, _ := SemanticLinesOf(chunks);
    content := GetFileContent(lines);
  }
}
