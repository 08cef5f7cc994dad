/** The turn and level state machine of script.js: the module-level variables
    `board`, `currentPlayer`, `selectedColor`, `level` and `score`, and the code
    that changes them (`startLevel`, the palette button handler, `makeMove`,
    `nextLevel`). The DOM updates those functions make are not modelled. */
module Game {
  import opened Wrappers
  import opened Levels
  import opened WinCheck

  /** Which branch of makeMove ran: the click was ignored, the move won the
      level, the move filled the board without a win, or play passes to the
      other player. The first two end states are what makeMove hands to
      showResult. */
  datatype Outcome = Ignored | Won | Drawn | NextTurn

  /** Points awarded for a win. */
  const WinAward := 10

  class Session {
    var board: array<Option<Color>>
    var currentPlayer: int
    var selectedColor: Option<Color>
    var level: int
    var score: int

    /** The invariants every operation keeps: a nine-cell board, player 1 or 2,
        a score that is a non-negative multiple of the award, a level inside the
        catalogue, and every colour in play (selected or on the board) taken
        from the active level's palette. */
    ghost predicate Valid()
      reads this, board
    {
      Shape() && ColoursInPalette()
    }

    /** The part of the invariant that does not involve colours. */
    ghost predicate Shape()
      reads this
    {
      board.Length == 9 &&
      (currentPlayer == 1 || currentPlayer == 2) &&
      score >= 0 && score % WinAward == 0 &&
      0 <= level < |LEVELS|
    }

    /** The selected colour and every colour on the board are in the active
        level's palette. */
    ghost predicate ColoursInPalette()
      reads this, board
      requires Shape()
    {
      (selectedColor.Some? ==> selectedColor.value in Palette()) &&
      forall i :: 0 <= i < 9 ==> board[i].Some? ==> board[i].value in Palette()
    }

    /** The active level's palette. */
    function Palette(): seq<Color>
      reads this
      requires 0 <= level < |LEVELS|
    {
      LEVELS[level].colors
    }

    /** The initial values of the module-level variables: an empty board,
        player 1, no colour selected, level 0, score 0. */
    constructor ()
      ensures Valid() && fresh(board)
      ensures board[..] == EmptyBoard() && currentPlayer == 1 && selectedColor == None
      ensures level == 0 && score == 0
    {
      board := new Option<Color>[9](_ => None);
      currentPlayer := 1;
      selectedColor := None;
      level := 0;
      score := 0;
      new;
      assert board[..] == EmptyBoard();
    }

    /** startLevel (also the restart button): a fresh empty board and no
        selected colour; player, level and score are kept. */
    method StartLevel()
      requires Shape()
      modifies this
      ensures Valid() && fresh(board)
      ensures board[..] == EmptyBoard() && selectedColor == None
      ensures currentPlayer == old(currentPlayer) && level == old(level) && score == old(score)
    {
      board := new Option<Color>[9](_ => None);
      selectedColor := None;
      assert board[..] == EmptyBoard();
    }

    /** A click on a palette button selects that button's colour. The buttons
        are built from the active level's palette, so the colour is in it. */
    method SelectColor(color: Color)
      requires Valid()
      requires color in Palette()
      modifies this`selectedColor
      ensures Valid() && selectedColor == Some(color)
    {
      selectedColor := Some(color);
    }

    /** makeMove: a click on cell `index`. An occupied cell or no selected
        colour ignores the click. Otherwise the selected colour goes into the
        cell and nothing else on the board changes; then a win adds the award
        and keeps the player, a full board without a win is a draw that keeps
        score and player, and any other move passes the turn to the other
        player and clears the selection. A winning move that fills the ninth
        cell is a win. */
    method MakeMove(index: Cell) returns (outcome: Outcome)
      requires Valid()
      modifies this, board
      ensures Valid() && board == old(board) && level == old(level)
      ensures forall i :: 0 <= i < 9 && old(board[i]).Some? ==> board[i] == old(board[i])
      ensures old(board[index]).Some? || old(selectedColor).None? ==>
        outcome == Ignored && board[..] == old(board[..]) &&
        currentPlayer == old(currentPlayer) && selectedColor == old(selectedColor) && score == old(score)
      ensures old(board[index]).None? && old(selectedColor).Some? ==>
        board[..] == old(board[..])[index := old(selectedColor)] &&
        if CheckWin(board[..], Palette()) then
          outcome == Won && score == old(score) + WinAward &&
          currentPlayer == old(currentPlayer) && selectedColor == old(selectedColor)
        else if IsFull(board[..]) then
          outcome == Drawn && score == old(score) &&
          currentPlayer == old(currentPlayer) && selectedColor == old(selectedColor)
        else
          outcome == NextTurn && score == old(score) &&
          currentPlayer == 3 - old(currentPlayer) && selectedColor == None
    {
      if board[index].Some? || selectedColor.None? {
        return Ignored;
      }
      ghost var before := board[..];
      board[index] := selectedColor;
      assert board[..] == before[index := selectedColor];
      assert ColoursInPalette();
      var won := CheckWin(board[..], Palette());
      if won {
        score := score + WinAward;
        outcome := Won;
      } else if IsFull(board[..]) {
        outcome := Drawn;
      } else {
        currentPlayer := if currentPlayer == 1 then 2 else 1;
        selectedColor := None;
        outcome := NextTurn;
      }
    }

    /** nextLevel: the level number goes up by one; past the last level both
        level and score go back to 0. Player 1 starts, on an empty board with
        no colour selected. */
    method NextLevel()
      requires Valid()
      modifies this
      ensures Valid() && fresh(board)
      ensures old(level) + 1 < |LEVELS| ==> level == old(level) + 1 && score == old(score)
      ensures old(level) + 1 >= |LEVELS| ==> level == 0 && score == 0
      ensures currentPlayer == 1 && board[..] == EmptyBoard() && selectedColor == None
    {
      level := level + 1;
      if level >= |LEVELS| {
        level := 0;
        score := 0;
      }
      currentPlayer := 1;
      StartLevel();
    }
  }

  /** A walk-through of level 0: player 1 puts the
      palette's first colour in cell 0, player 2 the second in cell 4, player 1
      the third in cell 8. The diagonal is an ascending palette run, so player 1
      wins the level and the score is 10. */
  method DiagonalScenario() returns (first: Outcome, second: Outcome, outcome: Outcome, winner: int, score: int)
    ensures first == NextTurn && second == NextTurn
    ensures outcome == Won && winner == 1 && score == 10
  {
    CatalogueShape();
    var s := new Session();
    var p := s.Palette();
    s.SelectColor(p[0]);
    first := s.MakeMove(0);
    AtMostTwoCellsNeverWin(s.board[..], p, 0, 0);
    s.SelectColor(p[1]);
    second := s.MakeMove(4);
    AtMostTwoCellsNeverWin(s.board[..], p, 0, 4);
    s.SelectColor(p[2]);
    assert s.board[..][8 := Some(p[2])] ==
      EmptyBoard<Color>()[0 := Some(p[0])][4 := Some(p[1])][8 := Some(p[2])];
    DiagonalRunWins(p);
    outcome := s.MakeMove(8);
    winner, score := s.currentPlayer, s.score;
  }
}
