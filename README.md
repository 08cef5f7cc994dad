# Colour tic-tac-toe: win detection and turn/level state machine

A model of the game logic of `script.js`. The game is tic-tac-toe played with
colours. Each level offers a palette of colours. A player picks a colour and
then an empty cell of the 3×3 board. A line (row, column or diagonal) wins when
either:

- its three cells hold the same colour, or
- its three colours sit at palette indices that go up by one, or down by one,
  in the line's order.

A win scores 10 points. Winning or drawing a level leads to the next level.
After the last of the six levels, play returns to level 0 and the score returns
to 0.

The project has four modules:

- `Wrappers` (`wrappers.dfy`): the `Option` type. An empty cell is `None`, and
  so is "no colour selected".
- `Levels` (`levels.dfy`): the six-level catalogue (`levels`). Each palette
  keeps its colours in order. Colours are compared only by equality.
- `WinCheck` (`win_check.dfy`): `winPatterns` and `checkWin`, written as pure
  functions over any colour type with equality. The colour-to-index table is
  built the way the source's `reduce` builds it: a repeated colour keeps its
  last index. The lemmas give `checkWin` an exact characterisation. They also
  give an independent reference definition of the palette rule: three
  consecutive palette colours, forwards or backwards. The remaining lemmas
  cover empty cells, reversal symmetry and two-colour palettes.
- `Game` (`game.dfy`): the module-level variables `board`, `currentPlayer`,
  `selectedColor`, `level` and `score`, held as fields of class `Session`. The
  board is a nine-element array. `startLevel` replaces it with a fresh array,
  and `makeMove` writes one of its cells. Each method states the whole new
  state. `Valid()` holds the invariants that every method keeps:
  - the player is 1 or 2;
  - the score is a non-negative multiple of 10;
  - the level lies in [0, 6);
  - every colour in play comes from the active palette.

Modelling choices:

- `MakeMove` returns an `Outcome` (`Ignored`, `Won`, `Drawn` or `NextTurn`).
  It names the branch of `makeMove` that ran, which is the message
  `showResult` would show. The source returns nothing.
- There is no terminal phase. `makeMove` has no guard against play after a win
  or a draw; only hiding the board stops further clicks. `MakeMove` is
  likewise callable in every state.
- The restart button calls only `startLevel` (script.js:169). It therefore
  keeps the level, the score and the current player. Nothing in the code
  restarts at level 0 with score 0, except `nextLevel` after the last level.
- The palette buttons are built from the active palette. `SelectColor`
  therefore requires that the colour is in that palette. The code has no
  membership check that would ignore any other colour.
- Cell indices come only from the nine board cells, so `MakeMove` takes a
  `Cell` in 0..8.

## Model

| member | source | states |
|---|---|---|
| `Levels.LEVELS` | script.js:14-45 | the six palettes with their colour codes, in play order; a constant with no contract of its own, pinned down by `Levels.CatalogueShape` |
| `WinCheck.WinPatterns` | script.js:47-51 | the three rows, three columns and two diagonals, in the source's order; a constant with no contract of its own |
| `WinCheck.IdenticalRun` | script.js:129 | the classic rule: the first cell is non-empty and the other two equal it; a definition with no contract of its own, used by `WinCheck.CheckWinIff` and `WinCheck.ReversalSymmetry` |
| `WinCheck.PaletteRun` | script.js:132-144 | the palette rule: all three colours have a palette index and the indices step +1 or -1 in pattern order; a definition with no contract of its own, pinned down by `WinCheck.PaletteRunIsConsecutive` and `WinCheck.ConsecutiveIsPaletteRun` |
| `WinCheck.LineWins` | script.js:125-147 | the per-pattern callback: the identical rule or the palette rule; a definition with no contract of its own, pinned down by `WinCheck.CheckWinIff` |
| `WinCheck.AnyLineWins` | script.js:124 | the short-circuiting `some` over a pattern list; a definition with no contract of its own, pinned down by `WinCheck.AnyLineWinsExists` |
| `WinCheck.CheckWin` | script.js:123-148 | `checkWin` over the eight win patterns; a definition with no contract of its own, pinned down by `WinCheck.CheckWinIff` and `WinCheck.CheckWinReference` |
| `Levels.CatalogueShape` | script.js:14-45 | the catalogue has six levels; their palettes hold 3, 3, 2, 3, 3 and 4 colours; no palette repeats a colour |
| `WinCheck.IndexMap` | script.js:133-136 | the table's keys are exactly the palette's colours; each key maps to a position that holds that colour; no later position holds it (the last write wins) |
| `WinCheck.PaletteIndex` | script.js:138 | an index exists iff the cell is non-empty and its colour is in the palette; the palette holds that colour at that index, and at no later position (a repeated colour gets its last position); in a distinct palette the index is the colour's only position |
| `WinCheck.AnyLineWinsExists` | script.js:124-148 | the short-circuiting `some` over a pattern list holds iff some pattern in the list wins |
| `WinCheck.CheckWinIff` | script.js:123-148 | `checkWin` holds iff some win pattern has either three non-empty equal cells, or three palette colours with indices i2 = i1+1 and i3 = i2+1, or i2 = i1-1 and i3 = i2-1 |
| `WinCheck.PaletteRunIsConsecutive` | script.js:132-144 | every palette run is three consecutive palette colours, in palette order or reversed |
| `WinCheck.ConsecutiveIsPaletteRun` | script.js:132-144 | in a palette without repeats, three consecutive colours in either direction form a palette run |
| `WinCheck.CheckWinReference` | script.js:123-148 | with a distinct palette, `checkWin` holds iff some win pattern shows one colour three times, or three consecutive palette colours forwards or backwards |
| `WinCheck.EmptyCellNeverWins` | script.js:129-140 | a line with an empty cell matches neither the identical rule nor the palette rule |
| `WinCheck.AtMostTwoCellsNeverWin` | script.js:123-148 | a board with at most two occupied cells never wins |
| `WinCheck.EmptyBoardNeverWins` | script.js:123-148 | the all-empty board never wins, whatever the palette |
| `WinCheck.ReversalSymmetry` | script.js:142 | a line's indices ascend iff the reversed line's indices descend; a line wins iff its reversal wins |
| `WinCheck.ShortPaletteOnlyIdentical` | script.js:140-142 | with fewer than three palette colours, no line is a palette run, so a line wins iff it is an identical run |
| `WinCheck.ShortPaletteCheckWin` | script.js:123-148 | with fewer than three palette colours (the Complementary level), `checkWin` holds iff some win pattern holds one colour three times |
| `WinCheck.DiagonalRunWins` | script.js:142 | palette colours 0, 1 and 2 on the diagonal 0-4-8 win, although the three colours differ |
| `WinCheck.NonAdjacentRunLoses` | script.js:142 | palette indices 0, 2, 1 along a row, with the rest of the board empty, do not win |
| `WinCheck.TwoColourDraw` | script.js:113 | the board X O X / X O O / O X X is full and does not win under a two-colour palette, so the move that fills it is a draw |
| `Game.Session.constructor` | script.js:53-57 | the game starts with an empty board, player 1, no selected colour, level 0 and score 0, and all invariants hold |
| `Game.Session.StartLevel` | script.js:59-62 | the board becomes nine empty cells and the selection is cleared; the player, level and score are unchanged |
| `Game.Session.SelectColor` | script.js:85 | the selected colour becomes the clicked palette colour; nothing else changes; the invariants are kept |
| `Game.Session.MakeMove` | script.js:102-121 | an occupied cell or no selection changes nothing; otherwise only the clicked cell changes, to the selected colour; then a win adds exactly 10 and keeps the player, a full board without a win keeps score and player, and any other move toggles the player 1↔2 and clears the selection; a win on the ninth cell is a win; invariants kept |
| `Game.Session.NextLevel` | script.js:157-166 | the level goes up by one with the score kept, or, past the last level, level and score both become 0; player 1 starts on an empty board with nothing selected; the level stays in [0, 6) |
| `Game.DiagonalScenario` | script.js:102-121 | on level 0, player 1 puts colour 0 in cell 0 and play passes on, player 2 puts colour 1 in cell 4 and play passes back, and player 1 puts colour 2 in cell 8; player 1 wins with score 10 |

`Game.Session.MakeMove` states the following:

- On an occupied cell, or with no colour selected, it changes nothing.
- Otherwise it writes the selected colour into the cell. The other eight
  cells are unchanged, and a filled cell is never overwritten.
- After the write there are three cases:
  - a win adds exactly 10 and keeps the player;
  - a full board without a win is a draw, and keeps the score and the player;
  - otherwise the turn passes between players 1 and 2, and the selection is
    cleared.
- A winning move that fills the ninth cell counts as a win. All invariants
  are kept.

`Game.Session.NextLevel` states the following:

- It moves the level up by one and keeps the score.
- Past the last level it sets both the level and the score to 0.
- In both cases player 1 starts, on an empty board with nothing selected. The
  invariants are kept, so the level stays in [0, 6).

## Left out

- DOM lookups and display updates (script.js:1-12, `innerHTML`, `classList`,
  `style.backgroundColor`, status, level and score texts): these are
  presentation only.
- Building the palette buttons and board cells (script.js:74-100). The only
  part modelled is the `selectedColor = color` assignment, as
  `SelectColor`.
- `showResult` and the `alert` in `nextLevel`: these are I/O. `MakeMove`'s
  `Outcome` records which result would be shown.
- Event-listener wiring (script.js:82, 97, 169-170) and the initial
  `startLevel()` call (script.js:172). The constructor yields the state that
  this first call produces.
- Level names, explanation texts and colour appearance: only palette order
  and colour identity matter to the logic.
- JavaScript object-key lookup in the index table: the model uses a map, so a
  colour named like an `Object.prototype` property (for example
  "constructor") would behave differently. The catalogue's colours are hex
  codes, so this cannot occur.
