/**
  Concrete turns on 1 x 1 and 2 x 2 boards, and what copying a board does to
  its blue list.
 */
module Scenarios {
  import opened Grid
  import opened Boards

  /** Three sides of the single box of a 1 x 1 board; its right side is missing. */
  function ThreeSides(): seq<Line> {
    [Line(0, 0, 1, 0), Line(0, 1, 1, 1), Line(0, 0, 0, 1)]
  }

  /** A 2 x 2 board with every line but (1, 0, 1, 1), the one between boxes (0, 0) and (1, 0). */
  function AllButLowerMiddle(): seq<Line> {
    [Line(0, 0, 1, 0), Line(1, 0, 2, 0), Line(0, 1, 1, 1), Line(1, 1, 2, 1),
     Line(0, 2, 1, 2), Line(1, 2, 2, 2), Line(0, 0, 0, 1), Line(0, 1, 0, 2),
     Line(1, 1, 1, 2), Line(2, 0, 2, 1), Line(2, 1, 2, 2)]
  }

  /**
    The two options getnewboxes weighs for the upward line (1, 0, 1, 1): the
    box to its right, then the box to its left. The same line is the right
    side of a 1 x 1 board and the lower middle line of a 2 x 2 board.
   */
  function UpLineOptions(): seq<(seq<Line>, Box)> {
    [([Line(1, 1, 2, 1), Line(1, 0, 2, 0), Line(2, 0, 2, 1)], Box(1, 0)),
     ([Line(0, 0, 1, 0), Line(0, 0, 0, 1), Line(0, 1, 1, 1)], Box(0, 0))]
  }

  /** On an empty 1 x 1 board, one line that closes nothing is a whole turn. */
  lemma SingleLineTurn()
    ensures ValidMove(1, [], [Line(0, 0, 1, 0)])
  {
    var first := Line(0, 0, 1, 0);
    var above := [Line(0, 1, 1, 1), Line(0, 0, 0, 1), Line(1, 0, 1, 1)];
    var below := [Line(0, -1, 0, 0), Line(0, -1, 1, -1), Line(1, -1, 1, 0)];
    assert GetNewBoxes([], first) == Completing([], [(above, Box(0, 0)), (below, Box(0, -1))]);
    CompletingPair([], (above, Box(0, 0)), (below, Box(0, -1)));
    assert above[0] in above && below[0] in below;
    assert SetOf([first]) == {first};
    assert [] + [first][..0] == [];
  }

  /**
    On an empty 1 x 1 board, all four lines as one turn are illegal (the
    first closes nothing), and so is the empty move.
   */
  lemma FourLinesInOneTurn()
    ensures !ValidMove(1, [], [Line(0, 0, 1, 0), Line(0, 1, 1, 1), Line(0, 0, 0, 1), Line(1, 0, 1, 1)])
    ensures !ValidMove(1, [], [])
  {
    var four := [Line(0, 0, 1, 0), Line(0, 1, 1, 1), Line(0, 0, 0, 1), Line(1, 0, 1, 1)];
    SingleLineTurn();
    assert [] + four[..0] == [] + [four[0]][..0];
  }

  /** The fourth side of a 1 x 1 board closes its box and, ending the game, is a legal turn. */
  lemma LastSideEndsGame()
    ensures GetNewBoxes(ThreeSides(), Line(1, 0, 1, 1)) == [Box(0, 0)]
    ensures ValidMove(1, ThreeSides(), [Line(1, 0, 1, 1)])
  {
    var last := Line(1, 0, 1, 1);
    assert SetOf([last]) == {last};
    assert GetNewBoxes(ThreeSides(), last) == Completing(ThreeSides(), UpLineOptions());
    CompletingPair(ThreeSides(), UpLineOptions()[0], UpLineOptions()[1]);
    assert UpLineOptions()[0].0[0] in UpLineOptions()[0].0;
  }

  /**
    On a 2 x 2 board the line (1, 0, 1, 1), drawn last, closes both boxes
    it borders at once, and is legal because it completes the board.
   */
  lemma LastLineClosesTwo()
    ensures GetNewBoxes(AllButLowerMiddle(), Line(1, 0, 1, 1)) == [Box(1, 0), Box(0, 0)]
    ensures ValidMove(2, AllButLowerMiddle(), [Line(1, 0, 1, 1)])
  {
    var last := Line(1, 0, 1, 1);
    assert SetOf([last]) == {last};
    assert GetNewBoxes(AllButLowerMiddle(), last) == Completing(AllButLowerMiddle(), UpLineOptions());
    CompletingPair(AllButLowerMiddle(), UpLineOptions()[0], UpLineOptions()[1]);
  }

  /** Closing the last side of a 1 x 1 board credits exactly its one box. */
  lemma OneBoxCredited()
    ensures NewlyFilled(1, ThreeSides(), [Line(1, 0, 1, 1)]) == [Box(0, 0)]
  {
    var three, four := ThreeSides(), ThreeSides() + [Line(1, 0, 1, 1)];
    assert !IsBoxFilled(three, Box(0, 0));
    assert RowBoxes(three, 0, 1) == [];
    assert FilledBoxes(1, three) == [];
    forall b: Box | 0 <= b.x < 1 && 0 <= b.y < 1 ensures IsBoxFilled(four, b) {
      assert b == Box(0, 0);
    }
    FilledBoxesAll(1, four);
    NewlyFilledSplits(1, three, [Line(1, 0, 1, 1)]);
    NewlyFilledSpec(1, three, [Line(1, 0, 1, 1)]);
    var added := NewlyFilled(1, three, [Line(1, 0, 1, 1)]);
    assert added[0] in added;
  }

  /**
    A move played on a copy of a board and credited to blue also lands in the
    original board's blue list, because __copy__ shares that list; the
    original's lines stay as they were.
   */
  method CopiedMoveCreditsOriginalBlue() returns (original: Board, copy: Board)
    ensures copy != original && copy.blue == original.blue
    ensures original.lines == ThreeSides() && copy.lines == ThreeSides() + [Line(1, 0, 1, 1)]
    ensures original.red.items == [] && original.blue.items == [Box(0, 0)]
  {
    original := new Board(1, Some(ThreeSides()), None, None);
    LastSideEndsGame();
    OneBoxCredited();
    assert "blue" != "red";
    var accepted;
    copy, accepted := MakeMove(original, [Line(1, 0, 1, 1)], "blue", true, true);
  }
}
