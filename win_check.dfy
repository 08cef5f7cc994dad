/** Win detection of the colour tic-tac-toe: the fixed `winPatterns` and the
    `checkWin` predicate of script.js.

    Colours are values of any type with equality. A line wins by either of two
    rules: its three cells hold the same colour (identical run), or the palette
    indices of its three colours step by +1 or by -1 in pattern order (palette
    run). */
module WinCheck {
  import opened Wrappers
  import opened Levels

  /** A board position, numbered 0..8 row by row. */
  type Cell = i: int | 0 <= i < 9

  /** Three board positions forming a row, a column or a diagonal. */
  type Pattern = (Cell, Cell, Cell)

  /** The contents of a pattern's three cells, in pattern order. */
  type Line<C> = (Option<C>, Option<C>, Option<C>)

  /** The three rows, the three columns and the two diagonals. */
  const WinPatterns: seq<Pattern> := [
    (0, 1, 2), (3, 4, 5), (6, 7, 8),
    (0, 3, 6), (1, 4, 7), (2, 5, 8),
    (0, 4, 8), (2, 4, 6)
  ]

  /** The board at the start of every level: nine empty cells. */
  function EmptyBoard<C>(): seq<Option<C>> {
    seq(9, _ => None)
  }

  /** Every cell holds a colour. */
  predicate IsFull<C>(board: seq<Option<C>>) {
    forall i :: 0 <= i < |board| ==> board[i].Some?
  }

  function LineAt<C>(board: seq<Option<C>>, p: Pattern): Line<C>
    requires |board| == 9
  {
    (board[p.0], board[p.1], board[p.2])
  }

  function Reverse<C>(line: Line<C>): Line<C> {
    (line.2, line.1, line.0)
  }

  /** The colour-to-index table checkWin builds with `reduce`: entries are
      written from the first colour to the last, so a repeated colour is
      recorded at its last position. */
  function IndexMap<C(==,!new)>(palette: seq<C>): (m: map<C, nat>)
    ensures forall c :: c in m <==> c in palette
    ensures forall c :: c in m ==> m[c] < |palette| && palette[m[c]] == c
    ensures forall j :: 0 <= j < |palette| ==> j <= m[palette[j]]
  {
    if palette == [] then map[]
    else
      var n := |palette| - 1;
      IndexMap(palette[..n])[palette[n] := n]
  }

  /** The palette index of a cell's colour; none for an empty cell or for a
      colour that is not in the palette. A repeated colour gets its last
      position. */
  function PaletteIndex<C(==,!new)>(palette: seq<C>, cell: Option<C>): (r: Option<nat>)
    ensures r.Some? <==> cell.Some? && cell.value in palette
    ensures r.Some? ==> r.value < |palette| && palette[r.value] == cell.value
    ensures r.Some? ==> forall j :: 0 <= j < |palette| && palette[j] == cell.value ==> j <= r.value
    ensures r.Some? && Distinct(palette) ==>
      forall j :: 0 <= j < |palette| && palette[j] == cell.value ==> j == r.value
  {
    match cell
    case None => None
    case Some(c) =>
      var m := IndexMap(palette);
      if c in m then Some(m[c]) else None
  }

  /** Classic win: all three cells are non-empty and hold the first cell's colour. */
  predicate IdenticalRun<C(==,!new)>(line: Line<C>) {
    line.0.Some? && line.1 == line.0 && line.2 == line.0
  }

  predicate Ascending(i1: int, i2: int, i3: int) {
    i2 == i1 + 1 && i3 == i2 + 1
  }

  predicate Descending(i1: int, i2: int, i3: int) {
    i2 == i1 - 1 && i3 == i2 - 1
  }

  /** Educational win: all three colours are in the palette and their indices
      go up by one or down by one in pattern order. */
  predicate PaletteRun<C(==,!new)>(palette: seq<C>, line: Line<C>) {
    var i1, i2, i3 := PaletteIndex(palette, line.0), PaletteIndex(palette, line.1), PaletteIndex(palette, line.2);
    i1.Some? && i2.Some? && i3.Some? &&
    (Ascending(i1.value, i2.value, i3.value) || Descending(i1.value, i2.value, i3.value))
  }

  predicate LineWins<C(==,!new)>(palette: seq<C>, line: Line<C>) {
    IdenticalRun(line) || PaletteRun(palette, line)
  }

  /** `patterns.some(...)`: some pattern's line wins. */
  predicate AnyLineWins<C(==,!new)>(board: seq<Option<C>>, palette: seq<C>, patterns: seq<Pattern>)
    requires |board| == 9
  {
    |patterns| > 0 &&
    (LineWins(palette, LineAt(board, patterns[0])) || AnyLineWins(board, palette, patterns[1..]))
  }

  /** `checkWin()` of the board against the active level's palette. */
  predicate CheckWin<C(==,!new)>(board: seq<Option<C>>, palette: seq<C>)
    requires |board| == 9
  {
    AnyLineWins(board, palette, WinPatterns)
  }

  // ---------------------------------------------------------------------------
  // What checkWin means

  /** The short-circuiting `some` over the patterns holds exactly when one of
      the patterns wins. */
  lemma {:induction false} AnyLineWinsExists<C(!new)>(board: seq<Option<C>>, palette: seq<C>, patterns: seq<Pattern>)
    requires |board| == 9
    ensures AnyLineWins(board, palette, patterns) <==>
      exists i :: 0 <= i < |patterns| && LineWins(palette, LineAt(board, patterns[i]))
  {
    if |patterns| > 0 {
      AnyLineWinsExists(board, palette, patterns[1..]);
      if LineWins(palette, LineAt(board, patterns[0])) {
      } else if AnyLineWins(board, palette, patterns[1..]) {
        var i :| 0 <= i < |patterns| - 1 && LineWins(palette, LineAt(board, patterns[1..][i]));
        assert patterns[1..][i] == patterns[i + 1];
      } else {
        forall i | 0 <= i < |patterns| ensures !LineWins(palette, LineAt(board, patterns[i])) {
          if i > 0 { assert patterns[i] == patterns[1..][i - 1]; }
        }
      }
    }
  }

  /** checkWin holds iff some win pattern has three non-empty equal cells, or
      has three colours of the palette whose indices (i1, i2, i3) satisfy
      i2 = i1 + 1 and i3 = i2 + 1, or i2 = i1 - 1 and i3 = i2 - 1. */
  lemma CheckWinIff<C(!new)>(board: seq<Option<C>>, palette: seq<C>)
    requires |board| == 9
    ensures CheckWin(board, palette) <==>
      exists i :: 0 <= i < |WinPatterns| &&
        var (a, b, c) := WinPatterns[i];
        (board[a].Some? && board[b] == board[a] && board[c] == board[a]) ||
        (var i1, i2, i3 := PaletteIndex(palette, board[a]), PaletteIndex(palette, board[b]), PaletteIndex(palette, board[c]);
         i1.Some? && i2.Some? && i3.Some? &&
         ((i2.value == i1.value + 1 && i3.value == i2.value + 1) ||
          (i2.value == i1.value - 1 && i3.value == i2.value - 1)))
  {
    AnyLineWinsExists(board, palette, WinPatterns);
  }

  /** Reference definition of the palette rule, free of the index table: the
      line holds three consecutive palette colours, in palette order or in
      reverse. */
  ghost predicate ConsecutiveInPalette<C>(palette: seq<C>, line: Line<C>) {
    exists k :: 0 <= k && k + 2 < |palette| &&
      ((line.0 == Some(palette[k]) && line.1 == Some(palette[k + 1]) && line.2 == Some(palette[k + 2])) ||
       (line.0 == Some(palette[k + 2]) && line.1 == Some(palette[k + 1]) && line.2 == Some(palette[k])))
  }

  /** A palette run always consists of three consecutive palette colours. */
  lemma PaletteRunIsConsecutive<C(!new)>(palette: seq<C>, line: Line<C>)
    requires PaletteRun(palette, line)
    ensures ConsecutiveInPalette(palette, line)
  {
    var j1, j2, j3 := PaletteIndex(palette, line.0).value, PaletteIndex(palette, line.1).value, PaletteIndex(palette, line.2).value;
    if Ascending(j1, j2, j3) {
      ConsecutiveAt(palette, line, j1);
    } else {
      ConsecutiveAt(palette, line, j3);
    }
  }

  /** A witness position for ConsecutiveInPalette. */
  lemma ConsecutiveAt<C>(palette: seq<C>, line: Line<C>, k: nat)
    requires k + 2 < |palette|
    requires (line.0 == Some(palette[k]) && line.1 == Some(palette[k + 1]) && line.2 == Some(palette[k + 2])) ||
             (line.0 == Some(palette[k + 2]) && line.1 == Some(palette[k + 1]) && line.2 == Some(palette[k]))
    ensures ConsecutiveInPalette(palette, line)
  {
  }

  /** In a palette without repeated colours the converse holds too: three
      consecutive colours, in either direction, form a palette run. */
  lemma ConsecutiveIsPaletteRun<C(!new)>(palette: seq<C>, line: Line<C>)
    requires Distinct(palette)
    requires ConsecutiveInPalette(palette, line)
    ensures PaletteRun(palette, line)
  {
    var k :| 0 <= k && k + 2 < |palette| &&
      ((line.0 == Some(palette[k]) && line.1 == Some(palette[k + 1]) && line.2 == Some(palette[k + 2])) ||
       (line.0 == Some(palette[k + 2]) && line.1 == Some(palette[k + 1]) && line.2 == Some(palette[k])));
    DistinctIndex(palette, k);
    DistinctIndex(palette, k + 1);
    DistinctIndex(palette, k + 2);
  }

  /** In a palette without repeated colours each colour's index is its position. */
  lemma DistinctIndex<C(!new)>(palette: seq<C>, k: nat)
    requires Distinct(palette) && k < |palette|
    ensures PaletteIndex(palette, Some(palette[k])) == Some(k)
  {
  }

  /** With the catalogue's distinct palettes, checkWin holds iff some win
      pattern shows one colour three times, or three consecutive palette
      colours in order or in reverse. */
  lemma CheckWinReference<C(!new)>(board: seq<Option<C>>, palette: seq<C>)
    requires |board| == 9
    requires Distinct(palette)
    ensures CheckWin(board, palette) <==>
      exists i :: 0 <= i < |WinPatterns| &&
        (IdenticalRun(LineAt(board, WinPatterns[i])) || ConsecutiveInPalette(palette, LineAt(board, WinPatterns[i])))
  {
    AnyLineWinsExists(board, palette, WinPatterns);
    forall i | 0 <= i < |WinPatterns|
      ensures LineWins(palette, LineAt(board, WinPatterns[i])) <==>
        IdenticalRun(LineAt(board, WinPatterns[i])) || ConsecutiveInPalette(palette, LineAt(board, WinPatterns[i]))
    {
      var line := LineAt(board, WinPatterns[i]);
      if PaletteRun(palette, line) { PaletteRunIsConsecutive(palette, line); }
      if ConsecutiveInPalette(palette, line) { ConsecutiveIsPaletteRun(palette, line); }
    }
  }

  // ---------------------------------------------------------------------------
  // Empty cells

  /** A line with an empty cell matches neither rule. */
  lemma EmptyCellNeverWins<C(!new)>(palette: seq<C>, line: Line<C>)
    requires line.0 == None || line.1 == None || line.2 == None
    ensures !IdenticalRun(line) && !PaletteRun(palette, line)
  {
  }

  /** A board with at most two occupied cells (at j and k) never wins. */
  lemma AtMostTwoCellsNeverWin<C(!new)>(board: seq<Option<C>>, palette: seq<C>, j: Cell, k: Cell)
    requires |board| == 9
    requires forall i :: 0 <= i < 9 && i != j && i != k ==> board[i] == None
    ensures !CheckWin(board, palette)
  {
    AnyLineWinsExists(board, palette, WinPatterns);
    forall i | 0 <= i < |WinPatterns| ensures !LineWins(palette, LineAt(board, WinPatterns[i])) {
      var (a, b, c) := WinPatterns[i];
      assert a != b && b != c && a != c;
      EmptyCellNeverWins(palette, LineAt(board, WinPatterns[i]));
    }
  }

  /** The all-empty board of a fresh level is never a win. */
  lemma EmptyBoardNeverWins<C(!new)>(palette: seq<C>)
    ensures !CheckWin(EmptyBoard<C>(), palette)
  {
    AtMostTwoCellsNeverWin(EmptyBoard<C>(), palette, 0, 0);
  }

  // ---------------------------------------------------------------------------
  // Symmetry and short palettes

  /** A line's indices form an ascending run iff the reversed line's indices
      form a descending run, and the identical rule ignores direction; so a
      line wins iff its reversal wins. */
  lemma ReversalSymmetry<C(!new)>(palette: seq<C>, line: Line<C>)
    ensures
      var i1, i2, i3 := PaletteIndex(palette, line.0), PaletteIndex(palette, line.1), PaletteIndex(palette, line.2);
      var r := Reverse(line);
      var r1, r2, r3 := PaletteIndex(palette, r.0), PaletteIndex(palette, r.1), PaletteIndex(palette, r.2);
      i1.Some? && i2.Some? && i3.Some? ==>
        r1.Some? && r2.Some? && r3.Some? &&
        (Ascending(i1.value, i2.value, i3.value) <==> Descending(r1.value, r2.value, r3.value))
    ensures IdenticalRun(line) <==> IdenticalRun(Reverse(line))
    ensures PaletteRun(palette, line) <==> PaletteRun(palette, Reverse(line))
    ensures LineWins(palette, line) <==> LineWins(palette, Reverse(line))
  {
  }

  /** With fewer than three colours (the Complementary level) no palette run
      exists, so only the identical rule can fire. */
  lemma ShortPaletteOnlyIdentical<C(!new)>(palette: seq<C>, line: Line<C>)
    requires |palette| < 3
    ensures !PaletteRun(palette, line)
    ensures LineWins(palette, line) <==> IdenticalRun(line)
  {
  }

  /** On a board, with fewer than three palette colours: checkWin holds iff
      some win pattern holds one colour three times. */
  lemma ShortPaletteCheckWin<C(!new)>(board: seq<Option<C>>, palette: seq<C>)
    requires |board| == 9
    requires |palette| < 3
    ensures CheckWin(board, palette) <==>
      exists i :: 0 <= i < |WinPatterns| && IdenticalRun(LineAt(board, WinPatterns[i]))
  {
    AnyLineWinsExists(board, palette, WinPatterns);
    forall i | 0 <= i < |WinPatterns|
      ensures LineWins(palette, LineAt(board, WinPatterns[i])) <==> IdenticalRun(LineAt(board, WinPatterns[i]))
    {
      ShortPaletteOnlyIdentical(palette, LineAt(board, WinPatterns[i]));
    }
  }

  // ---------------------------------------------------------------------------
  // Concrete boards

  /** Palette colours 0, 1, 2 on the diagonal 0-4-8 (an ascending run) win
      even though the three colours differ. */
  lemma DiagonalRunWins<C(!new)>(palette: seq<C>)
    requires |palette| >= 3 && Distinct(palette)
    ensures CheckWin(EmptyBoard<C>()[0 := Some(palette[0])][4 := Some(palette[1])][8 := Some(palette[2])], palette)
  {
    var board := EmptyBoard<C>()[0 := Some(palette[0])][4 := Some(palette[1])][8 := Some(palette[2])];
    AnyLineWinsExists(board, palette, WinPatterns);
    assert PaletteIndex(palette, Some(palette[0])) == Some(0);
    assert PaletteIndex(palette, Some(palette[1])) == Some(1);
    assert PaletteIndex(palette, Some(palette[2])) == Some(2);
    assert LineWins(palette, LineAt(board, WinPatterns[6]));
  }

  /** Palette indices 0, 2, 1 along the top row are neither a step +1 nor a
      step -1 run, so the board does not win. */
  lemma NonAdjacentRunLoses<C(!new)>(palette: seq<C>)
    requires |palette| == 3 && Distinct(palette)
    ensures !CheckWin(EmptyBoard<C>()[0 := Some(palette[0])][1 := Some(palette[2])][2 := Some(palette[1])], palette)
  {
    var board := EmptyBoard<C>()[0 := Some(palette[0])][1 := Some(palette[2])][2 := Some(palette[1])];
    AnyLineWinsExists(board, palette, WinPatterns);
    assert PaletteIndex(palette, Some(palette[0])) == Some(0);
    assert PaletteIndex(palette, Some(palette[1])) == Some(1);
    assert PaletteIndex(palette, Some(palette[2])) == Some(2);
    forall i | 0 <= i < |WinPatterns| ensures !LineWins(palette, LineAt(board, WinPatterns[i])) {
      if i != 0 {
        assert board[WinPatterns[i].2] == None;
        EmptyCellNeverWins(palette, LineAt(board, WinPatterns[i]));
      }
    }
  }

  /** The classic drawn position, X O X / X O O / O X X, played with a
      two-colour palette: the board is full and no line wins, so the move
      that fills it is a draw. */
  lemma TwoColourDraw<C(!new)>(x: C, o: C)
    requires x != o
    ensures
      var board := [Some(x), Some(o), Some(x), Some(x), Some(o), Some(o), Some(o), Some(x), Some(x)];
      IsFull(board) && !CheckWin(board, [x, o])
  {
    var board := [Some(x), Some(o), Some(x), Some(x), Some(o), Some(o), Some(o), Some(x), Some(x)];
    ShortPaletteCheckWin(board, [x, o]);
    forall i | 0 <= i < |WinPatterns| ensures !IdenticalRun(LineAt(board, WinPatterns[i])) {
      assert i in {0, 1, 2, 3, 4, 5, 6, 7};
    }
  }
}
