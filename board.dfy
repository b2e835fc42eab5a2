/**
  The rule engine of board.py: the Board record, getboxes and countboxes,
  isvalidboard, isvalidmove and makemove, with the bookkeeping facts that
  tie box ownership to the lines on the board.
 */
module Boards {
  import opened Grid

  datatype Option<T> = None | Some(value: T)

  /** A Python list of boxes: a mutable object that several boards may share. */
  class BoxList {
    var items: seq<Box>

    constructor (items: seq<Box>)
      ensures this.items == items
    {
      this.items := items;
    }
  }

  /** The Board dataclass (board.py:14-39). */
  class Board {
    var size: int
    var lines: seq<Line>
    var red: BoxList
    var blue: BoxList

    /** Board(size, lines, red_boxes, blue_boxes) followed by __post_init__: a missing list becomes a new empty one. */
    constructor (size: int, lines: Option<seq<Line>>, red: Option<BoxList>, blue: Option<BoxList>)
      ensures this.size == size
      ensures this.lines == if lines.Some? then lines.value else []
      ensures red.Some? ==> this.red == red.value
      ensures red.None? ==> fresh(this.red) && this.red.items == []
      ensures blue.Some? ==> this.blue == blue.value
      ensures blue.None? ==> fresh(this.blue) && this.blue.items == []
      ensures red.None? && blue.None? ==> this.red != this.blue
    {
      var r, b;
      if red.Some? { r := red.value; } else { r := new BoxList([]); }
      if blue.Some? { b := blue.value; } else { b := new BoxList([]); }
      this.size := size;
      this.lines := if lines.Some? then lines.value else [];
      this.red := r;
      this.blue := b;
    }

    /**
      __copy__: a new board with its own copy of the lines and of the red
      list, but sharing the very same blue list object.
     */
    method Copy() returns (c: Board)
      ensures fresh(c) && fresh(c.red)
      ensures c.size == size && c.lines == lines && c.red.items == red.items
      ensures c.blue == blue
    {
      var redCopy := new BoxList(red.items);
      c := new Board(size, Some(lines), Some(redCopy), Some(blue));
    }
  }

  // ---------------------------------------------------------------------------
  // getboxes and countboxes (board.py:42-63)
  // ---------------------------------------------------------------------------

  /** The set of filled boxes of a board of size n. */
  ghost function FilledSet(n: int, lines: seq<Line>): set<Box> {
    set x, y | 0 <= x < n && 0 <= y < n && IsBoxFilled(lines, Box(x, y)) :: Box(x, y)
  }

  lemma FilledSetOf(n: int, lines: seq<Line>)
    ensures SetOf(FilledBoxes(n, lines)) == FilledSet(n, lines)
    ensures |FilledSet(n, lines)| == |FilledBoxes(n, lines)|
  {
    FilledBoxesSpec(n, lines);
    DistinctCount(FilledBoxes(n, lines));
    forall b | b in FilledSet(n, lines) ensures b in SetOf(FilledBoxes(n, lines)) {
    }
  }

  /** getboxes: scans every corner (i, j), row by row, and collects the filled boxes. */
  method GetBoxes(board: Board) returns (boxes: seq<Box>)
    ensures boxes == FilledBoxes(board.size, board.lines)
    ensures forall b :: b in boxes <==>
      0 <= b.x < board.size && 0 <= b.y < board.size && IsBoxFilled(board.lines, b)
    ensures RowMajor(boxes) && NoDup(boxes)
  {
    var lines := board.lines;
    boxes := [];
    var i := 0;
    while i < board.size
      invariant 0 <= i && (i <= board.size || i == 0)
      invariant boxes == RowsBoxes(board.size, lines, i)
    {
      var j := 0;
      while j < board.size
        invariant 0 <= j <= board.size
        invariant boxes == RowsBoxes(board.size, lines, i) + RowBoxes(lines, i, j)
      {
        if Line(i, j, i + 1, j) in lines && Line(i, j + 1, i + 1, j + 1) in lines &&
           Line(i, j, i, j + 1) in lines && Line(i + 1, j, i + 1, j + 1) in lines
        {
          boxes := boxes + [Box(i, j)];
        }
        j := j + 1;
      }
      i := i + 1;
    }
    FilledBoxesSpec(board.size, lines);
  }

  /** countboxes: the number of filled boxes on the board. */
  method CountBoxes(board: Board) returns (count: int)
    ensures count == |FilledBoxes(board.size, board.lines)|
    ensures count == |FilledSet(board.size, board.lines)|
  {
    var boxes := GetBoxes(board);
    count := |boxes|;
    FilledSetOf(board.size, board.lines);
  }

  // ---------------------------------------------------------------------------
  // isvalidboard (board.py:105-121)
  // ---------------------------------------------------------------------------

  function Abs(x: int): nat {
    if x < 0 then -x else x
  }

  /** The per-line test of isvalidboard as written: bounds, and abs(i-j) + abs(r-s) == 1. */
  predicate LineCheckAsWritten(n: int, l: Line) {
    0 <= l.x1 <= n && 0 <= l.y1 <= n && 0 <= l.x2 <= n && 0 <= l.y2 <= n &&
    Abs(l.x1 - l.y1) + Abs(l.x2 - l.y2) == 1
  }

  /** The ownership test of isvalidboard: both lists hold filled boxes and together count them all. */
  predicate OwnershipCheck(n: int, lines: seq<Line>, red: seq<Box>, blue: seq<Box>) {
    var boxes := SetOf(FilledBoxes(n, lines));
    (forall b :: b in red ==> b in boxes) &&
    (forall b :: b in blue ==> b in boxes) &&
    |boxes| == |red| + |blue|
  }

  /**
    isvalidboard, as written: the line test on every line and, only when both
    lists are non-empty, the ownership test. Stated with isboxfilled, the
    ownership test asks that each listed box be a filled box of the board and
    that the two lengths add up to the number of filled boxes.
   */
  predicate IsValidBoard(n: int, lines: seq<Line>, red: seq<Box>, blue: seq<Box>): (valid: bool)
    ensures valid <==>
      (forall l :: l in lines ==> LineCheckAsWritten(n, l)) &&
      (red != [] && blue != [] ==>
        (forall b :: b in red ==> 0 <= b.x < n && 0 <= b.y < n && IsBoxFilled(lines, b)) &&
        (forall b :: b in blue ==> 0 <= b.x < n && 0 <= b.y < n && IsBoxFilled(lines, b)) &&
        |FilledSet(n, lines)| == |red| + |blue|)
  {
    FilledSetOf(n, lines);
    FilledBoxesSpec(n, lines);
    var valid := forall l :: l in lines ==> LineCheckAsWritten(n, l);
    if red != [] && blue != [] then valid && OwnershipCheck(n, lines, red, blue) else valid
  }

  /**
    The per-line test with the segment length measured: abs(i-r) + abs(j-s) == 1.
    On lines stored rightward and upward it accepts exactly the grid's unit segments.
   */
  predicate LineCheckIntended(n: int, l: Line)
    ensures l.x1 <= l.x2 && l.y1 <= l.y2 ==> (LineCheckIntended(n, l) <==> IsGridLine(n, l))
  {
    0 <= l.x1 <= n && 0 <= l.y1 <= n && 0 <= l.x2 <= n && 0 <= l.y2 <= n &&
    Abs(l.x2 - l.x1) + Abs(l.y2 - l.y1) == 1
  }

  /**
    isvalidboard with the line test corrected to measure segment length, so
    that on lines stored rightward and upward it accepts exactly the grid's
    unit segments; the ownership test is unchanged.
   */
  predicate IsValidBoardIntended(n: int, lines: seq<Line>, red: seq<Box>, blue: seq<Box>): (valid: bool)
    ensures (forall l :: l in lines ==> l.x1 <= l.x2 && l.y1 <= l.y2) ==>
      (valid <==>
        (forall l :: l in lines ==> IsGridLine(n, l)) &&
        (red != [] && blue != [] ==>
          (forall b :: b in red ==> 0 <= b.x < n && 0 <= b.y < n && IsBoxFilled(lines, b)) &&
          (forall b :: b in blue ==> 0 <= b.x < n && 0 <= b.y < n && IsBoxFilled(lines, b)) &&
          |FilledSet(n, lines)| == |red| + |blue|))
  {
    FilledSetOf(n, lines);
    FilledBoxesSpec(n, lines);
    var valid := forall l :: l in lines ==> LineCheckIntended(n, l);
    if red != [] && blue != [] then valid && OwnershipCheck(n, lines, red, blue) else valid
  }

  /**
    The line test as written rejects a complete 2 x 2 board: get_all_lines(2)
    holds (0, 2, 1, 2), and abs(0-2) + abs(1-2) == 3. The corrected test
    accepts the same board.
   */
  lemma IsValidBoardRejectsFullBoard()
    ensures !IsValidBoard(2, GetAllLines(2), [], [])
    ensures IsValidBoardIntended(2, GetAllLines(2), [], [])
  {
    AllLinesSpec(2);
    assert IsGridLine(2, Line(0, 2, 1, 2));
    assert !LineCheckAsWritten(2, Line(0, 2, 1, 2));
  }

  // ---------------------------------------------------------------------------
  // isvalidmove (board.py:124-153)
  // ---------------------------------------------------------------------------

  /** 2n(n+1): the number of lines on a complete board of size n. */
  function CompleteCount(n: int): int {
    2 * n * (n + 1)
  }

  /**
    The turn rule: an empty move only on a complete board; no line repeated,
    neither from the board nor within the move; every line but the last
    closes a box; the last closes none unless the board is then complete.
   */
  predicate ValidMove(n: int, lines: seq<Line>, move: seq<Line>) {
    (move == [] ==> |lines| >= CompleteCount(n)) &&
    (forall l :: l in move ==> l !in lines) &&
    |SetOf(move)| == |move| &&
    (forall k {:trigger GetNewBoxes(lines + move[..k], move[k])} :: 0 <= k < |move| - 1 ==> GetNewBoxes(lines + move[..k], move[k]) != []) &&
    (move != [] && |lines| + |move| < CompleteCount(n) ==>
      GetNewBoxes(lines + move[..|move| - 1], move[|move| - 1]) == [])
  }

  /** Indexing the board's lines followed by the move, past the board's own lines. */
  lemma TotalSlices(lines: seq<Line>, move: seq<Line>, i: int)
    requires |lines| <= i < |lines| + |move|
    ensures (lines + move)[..i] == lines + move[..i - |lines|]
    ensures (lines + move)[i] == move[i - |lines|]
  {
  }

  /** A line of the move, before the last, that closes no box makes the move illegal. */
  lemma ValidMoveStopsAt(n: int, lines: seq<Line>, move: seq<Line>, i: int)
    requires |lines| <= i < |lines + move| - 1
    requires GetNewBoxes((lines + move)[..i], (lines + move)[i]) == []
    ensures !ValidMove(n, lines, move)
  {
    TotalSlices(lines, move, i);
    var k := i - |lines|;
    assert 0 <= k < |move| - 1 && GetNewBoxes(lines + move[..k], move[k]) == [];
  }

  /** The checks of isvalidmove, all passed, make the move legal. */
  lemma ValidMoveAccepts(n: int, lines: seq<Line>, move: seq<Line>)
    requires move == [] ==> |lines| >= CompleteCount(n)
    requires forall l :: l in move ==> l !in lines
    requires |SetOf(move)| == |move|
    requires forall i {:trigger GetNewBoxes((lines + move)[..i], (lines + move)[i])} :: |lines| <= i < |lines + move| - 1 ==>
      GetNewBoxes((lines + move)[..i], (lines + move)[i]) != []
    requires move != [] && |lines + move| < CompleteCount(n) ==>
      GetNewBoxes((lines + move)[..|lines + move| - 1], move[|move| - 1]) == []
    ensures ValidMove(n, lines, move)
  {
    forall k | 0 <= k < |move| - 1
      ensures GetNewBoxes(lines + move[..k], move[k]) != []
    {
      TotalSlices(lines, move, |lines| + k);
      assert GetNewBoxes((lines + move)[..|lines| + k], (lines + move)[|lines| + k]) != [];
    }
    assert move != [] && |lines| + |move| < CompleteCount(n) ==>
      GetNewBoxes(lines + move[..|move| - 1], move[|move| - 1]) == [] by {
      if move != [] {
        TotalSlices(lines, move, |lines| + |move| - 1);
      }
    }
  }

  /** isvalidmove: the checks in the source's order, with a loop that returns at the first non-closing line. */
  method IsValidMove(board: Board, move: seq<Line>) returns (ok: bool)
    ensures ok == ValidMove(board.size, board.lines, move)
  {
    var n := board.size;
    var lines := board.lines;
    if move == [] && |lines| < CompleteCount(n) {
      return false;
    }
    if exists l :: l in move && l in lines {
      return false;
    }
    if |SetOf(move)| != |move| {
      return false;
    }
    var total := lines + move;
    var i := |lines|;
    while i < |total| - 1
      invariant |lines| <= i <= |total|
      invariant forall k {:trigger GetNewBoxes(total[..k], total[k])} :: |lines| <= k < i ==> GetNewBoxes(total[..k], total[k]) != []
    {
      if GetNewBoxes(total[..i], total[i]) == [] {
        ValidMoveStopsAt(n, lines, move, i);
        return false;
      }
      i := i + 1;
    }
    if |total| < CompleteCount(n) && GetNewBoxes(total[..|total| - 1], move[|move| - 1]) != [] {
      TotalSlices(lines, move, |total| - 1);
      return false;
    }
    ValidMoveAccepts(n, lines, move);
    return true;
  }

  /**
    The plain consequences of the turn rule: the empty move is legal exactly
    on a complete board, and a move that repeats a line of the board or one
    of its own lines is illegal.
   */
  lemma ValidMoveRejects(n: int, lines: seq<Line>, move: seq<Line>)
    ensures ValidMove(n, lines, []) <==> |lines| >= CompleteCount(n)
    ensures (exists l :: l in move && l in lines) ==> !ValidMove(n, lines, move)
    ensures !NoDup(move) ==> !ValidMove(n, lines, move)
  {
    DistinctCount(move);
  }

  /** A legal move adds only lines that are new, so a board without repeated lines keeps none. */
  lemma ValidMoveKeepsLinesDistinct(n: int, lines: seq<Line>, move: seq<Line>)
    requires NoDup(lines)
    requires ValidMove(n, lines, move)
    ensures NoDup(lines + move)
  {
    DistinctCount(move);
    NoDupConcat(lines, move);
  }

  /** Before its k-th line, a legal move has not drawn that line yet. */
  lemma MoveLineIsNew(n: int, lines: seq<Line>, move: seq<Line>, k: int)
    requires ValidMove(n, lines, move)
    requires 0 <= k < |move|
    ensures move[k] !in lines + move[..k]
  {
    DistinctCount(move);
    assert move[k] in move;
  }

  /**
    What a legal move means on the board: every line but the last closes a
    box it borders, and unless the board is then complete, the last line
    closes no box.
   */
  lemma ValidMoveMeaning(n: int, lines: seq<Line>, move: seq<Line>)
    requires ValidMove(n, lines, move)
    requires forall l :: l in move ==> IsUnitLine(l)
    ensures forall k :: 0 <= k < |move| - 1 ==> ClosesBox(lines + move[..k], move[k])
    ensures move != [] && |lines| + |move| < CompleteCount(n) ==>
      !ClosesBox(lines + move[..|move| - 1], move[|move| - 1])
  {
    forall k | 0 <= k < |move|
      ensures GetNewBoxes(lines + move[..k], move[k]) != [] <==> ClosesBox(lines + move[..k], move[k])
    {
      assert move[k] in move;
      MoveLineIsNew(n, lines, move, k);
      GetNewBoxesCloses(lines + move[..k], move[k]);
    }
  }

  // ---------------------------------------------------------------------------
  // makemove (board.py:156-177)
  // ---------------------------------------------------------------------------

  /** [b for b in newBoxes if b not in oldBoxes] */
  function AddedBoxes(oldBoxes: seq<Box>, newBoxes: seq<Box>): (r: seq<Box>)
    ensures forall b :: b in r <==> b in newBoxes && b !in oldBoxes
    ensures NoDup(newBoxes) ==> NoDup(r)
    ensures |r| <= |newBoxes|
  {
    if newBoxes == [] then []
    else
      var rest := AddedBoxes(oldBoxes, newBoxes[1..]);
      assert NoDup(newBoxes) ==> NoDup(newBoxes[1..]) && newBoxes[0] !in newBoxes[1..] by {
        if NoDup(newBoxes) {
          forall p, q | 0 <= p < q < |newBoxes[1..]| ensures newBoxes[1..][p] != newBoxes[1..][q] {
            assert newBoxes[1..][p] == newBoxes[p + 1] && newBoxes[1..][q] == newBoxes[q + 1];
          }
        }
      }
      var head := if newBoxes[0] in oldBoxes then [] else [newBoxes[0]];
      assert NoDup(newBoxes) ==> NoDup(head + rest) by {
        if NoDup(newBoxes) { NoDupConcat(head, rest); }
      }
      head + rest
  }

  /** The boxes makemove credits for `move`: those filled after it and not before. */
  function NewlyFilled(n: int, lines: seq<Line>, move: seq<Line>): seq<Box> {
    AddedBoxes(FilledBoxes(n, lines), FilledBoxes(n, lines + move))
  }

  lemma {:induction false} NoDupMultiplicity(s: seq<Box>, x: Box)
    requires NoDup(s)
    ensures multiset(s)[x] == if x in s then 1 else 0
  {
    if s != [] {
      var t := s[1..];
      assert s == [s[0]] + t;
      assert NoDup(t) by {
        forall p, q | 0 <= p < q < |t| ensures t[p] != t[q] {
          assert t[p] == s[p + 1] && t[q] == s[q + 1];
        }
      }
      NoDupMultiplicity(t, x);
    }
  }

  /** The boxes filled after a move are those filled before plus the credited ones, each once. */
  lemma NewlyFilledSplits(n: int, lines: seq<Line>, move: seq<Line>)
    ensures multiset(FilledBoxes(n, lines + move)) ==
      multiset(FilledBoxes(n, lines)) + multiset(NewlyFilled(n, lines, move))
    ensures |NewlyFilled(n, lines, move)| == |FilledBoxes(n, lines + move)| - |FilledBoxes(n, lines)|
  {
    var before, after := FilledBoxes(n, lines), FilledBoxes(n, lines + move);
    var added := NewlyFilled(n, lines, move);
    FilledBoxesSpec(n, lines);
    FilledBoxesSpec(n, lines + move);
    FilledBoxesGrow(n, lines, move);
    forall x ensures multiset(after)[x] == (multiset(before) + multiset(added))[x] {
      NoDupMultiplicity(before, x);
      NoDupMultiplicity(after, x);
      NoDupMultiplicity(added, x);
    }
    assert multiset(after) == multiset(before) + multiset(added);
    assert |multiset(after)| == |multiset(before)| + |multiset(added)|;
  }

  /**
    The boxes makemove credits are, without repeats and in row-major order,
    exactly the boxes of the board that the move's lines fill.
   */
  lemma NewlyFilledSpec(n: int, lines: seq<Line>, move: seq<Line>)
    ensures forall b :: b in NewlyFilled(n, lines, move) <==>
      0 <= b.x < n && 0 <= b.y < n && IsBoxFilled(lines + move, b) && !IsBoxFilled(lines, b)
    ensures NoDup(NewlyFilled(n, lines, move))
  {
    FilledBoxesSpec(n, lines);
    FilledBoxesSpec(n, lines + move);
  }

  /**
    makemove: optionally copy the board, optionally reject an illegal move
    (leaving everything as it was), then append the move's lines and credit
    the newly filled boxes to red when player == "red" and to blue otherwise.
    `accepted` is false exactly when the source prints its diagnostic.
   */
  method MakeMove(board: Board, move: seq<Line>, player: string, copyboard: bool, checkmove: bool)
    returns (result: Board, accepted: bool)
    modifies board, board.red, board.blue
    ensures board.size == old(board.size) && board.red == old(board.red) && board.blue == old(board.blue)
    ensures copyboard ==> fresh(result) && fresh(result.red) && result.blue == board.blue
    ensures copyboard ==> board.lines == old(board.lines)
    ensures copyboard && board.red != board.blue ==> board.red.items == old(board.red.items)
    ensures !copyboard ==> result == board
    ensures result.size == old(board.size)
    ensures accepted == (!checkmove || ValidMove(old(board.size), old(board.lines), move))
    ensures result.lines == if accepted then old(board.lines) + move else old(board.lines)
    ensures var added := if accepted then NewlyFilled(old(board.size), old(board.lines), move) else [];
      if player == "red" then
        result.red.items == old(board.red.items) + added &&
        (result.blue != result.red ==> result.blue.items == old(board.blue.items))
      else
        result.blue.items == old(board.blue.items) + added &&
        (result.red != result.blue ==> result.red.items == old(board.red.items))
  {
    result := board;
    if copyboard {
      result := board.Copy();
    }
    accepted := true;
    if checkmove {
      accepted := IsValidMove(result, move);
      if !accepted {
        return;
      }
    }
    var oldBoxes := GetBoxes(result);
    result.lines := result.lines + move;
    var newBoxes := GetBoxes(result);
    var added := AddedBoxes(oldBoxes, newBoxes);
    if player == "red" {
      result.red.items := result.red.items + added;
    } else {
      result.blue.items := result.blue.items + added;
    }
  }

  // ---------------------------------------------------------------------------
  // Box ownership over a game
  // ---------------------------------------------------------------------------

  /** Every filled box of the board is owned by exactly one player, once. */
  ghost predicate Accounted(n: int, lines: seq<Line>, red: seq<Box>, blue: seq<Box>) {
    multiset(red) + multiset(blue) == multiset(FilledBoxes(n, lines))
  }

  /** Starting from an empty board, nobody owns anything and the ownership is accounted. */
  lemma EmptyBoardAccounted(n: int)
    ensures Accounted(n, [], [], [])
  {
    FilledBoxesSpec(n, []);
  }

  /** Whoever makemove credits, it keeps every filled box owned exactly once. */
  lemma MakeMoveKeepsAccounted(n: int, lines: seq<Line>, move: seq<Line>, red: seq<Box>, blue: seq<Box>)
    requires Accounted(n, lines, red, blue)
    ensures Accounted(n, lines + move, red + NewlyFilled(n, lines, move), blue)
    ensures Accounted(n, lines + move, red, blue + NewlyFilled(n, lines, move))
  {
    NewlyFilledSplits(n, lines, move);
  }

  /**
    A board whose lines are grid lines and whose filled boxes are each owned
    once passes the corrected isvalidboard.
   */
  lemma AccountedBoardIsValid(n: int, lines: seq<Line>, red: seq<Box>, blue: seq<Box>)
    requires forall l :: l in lines ==> IsGridLine(n, l)
    requires Accounted(n, lines, red, blue)
    ensures IsValidBoardIntended(n, lines, red, blue)
  {
    var filled := FilledBoxes(n, lines);
    FilledSetOf(n, lines);
    FilledBoxesSpec(n, lines);
    DistinctCount(filled);
    forall b | b in red ensures b in SetOf(filled) {
      assert b in multiset(red);
      assert b in multiset(filled);
    }
    forall b | b in blue ensures b in SetOf(filled) {
      assert b in multiset(blue);
      assert b in multiset(filled);
    }
    assert |multiset(red) + multiset(blue)| == |multiset(filled)|;
  }

  lemma SameSizeSubset<T>(a: set<T>, b: set<T>)
    requires a <= b && |a| == |b|
    ensures a == b
  {
    assert b == a + (b - a);
    assert |b| == |a| + |b - a|;
  }

  /**
    A complete game: once the board holds 2n(n+1) distinct grid lines, every
    box is filled, so if ownership is accounted the two players own n * n
    boxes between them.
   */
  lemma FullBoardScore(n: int, lines: seq<Line>, red: seq<Box>, blue: seq<Box>)
    requires n >= 0
    requires NoDup(lines) && forall l :: l in lines ==> IsGridLine(n, l)
    requires |lines| == CompleteCount(n)
    requires Accounted(n, lines, red, blue)
    ensures |red| + |blue| == n * n
  {
    AllLinesSpec(n);
    var all := GetAllLines(n);
    DistinctCount(lines);
    DistinctCount(all);
    assert SetOf(lines) <= SetOf(all);
    SameSizeSubset(SetOf(lines), SetOf(all));
    forall b: Box | 0 <= b.x < n && 0 <= b.y < n ensures IsBoxFilled(lines, b) {
      assert IsGridLine(n, Bottom(b)) && IsGridLine(n, Top(b));
      assert IsGridLine(n, Left(b)) && IsGridLine(n, Right(b));
      assert Bottom(b) in SetOf(all) && Top(b) in SetOf(all);
      assert Left(b) in SetOf(all) && Right(b) in SetOf(all);
    }
    FilledBoxesAll(n, lines);
    assert |multiset(red) + multiset(blue)| == |multiset(FilledBoxes(n, lines))|;
  }

  lemma SubsetSize<T>(a: set<T>, b: set<T>)
    requires a <= b
    ensures |a| <= |b|
  {
    assert b == a + (b - a);
    assert |b| == |a| + |b - a|;
  }

  /** One line that closes a box raises the number of filled boxes by at least one. */
  /** Appending lines keeps every filled box of the board filled. */
  lemma FilledSetGrows(n: int, lines: seq<Line>, more: seq<Line>)
    ensures FilledSet(n, lines) <= FilledSet(n, lines + more)
  {
    forall b | b in FilledSet(n, lines) ensures b in FilledSet(n, lines + more) {
      FilledStaysFilled(lines, more, b);
    }
  }

  /** A grid line that closes a box adds that box to the board's filled boxes. */
  lemma ClosedBoxIsNew(n: int, prefix: seq<Line>, line: Line) returns (b: Box)
    requires forall l :: l in prefix + [line] ==> IsGridLine(n, l)
    requires line !in prefix
    requires GetNewBoxes(prefix, line) != []
    ensures b in FilledSet(n, prefix + [line]) && b !in FilledSet(n, prefix)
  {
    b := GetNewBoxes(prefix, line)[0];
    assert line in prefix + [line];
    GetNewBoxesExact(prefix, line, b);
    FilledBoxInRange(n, prefix + [line], b);
  }

  lemma ClosingLineAddsBox(n: int, prefix: seq<Line>, line: Line)
    requires forall l :: l in prefix + [line] ==> IsGridLine(n, l)
    requires line !in prefix
    requires GetNewBoxes(prefix, line) != []
    ensures |FilledBoxes(n, prefix + [line])| >= |FilledBoxes(n, prefix)| + 1
  {
    var b := ClosedBoxIsNew(n, prefix, line);
    var small, large := FilledSet(n, prefix), FilledSet(n, prefix + [line]);
    FilledSetGrows(n, prefix, [line]);
    SubsetSize(small + {b}, large);
    FilledSetOf(n, prefix);
    FilledSetOf(n, prefix + [line]);
  }

  lemma {:induction false} ValidMovePrefixEarns(n: int, lines: seq<Line>, move: seq<Line>, k: int)
    requires ValidMove(n, lines, move)
    requires forall l :: l in lines + move ==> IsGridLine(n, l)
    requires 0 <= k < |move|
    ensures |FilledBoxes(n, lines + move[..k])| >= |FilledBoxes(n, lines)| + k
  {
    if k == 0 {
      assert lines + move[..0] == lines;
    } else {
      ValidMovePrefixEarns(n, lines, move, k - 1);
      var prefix := lines + move[..k - 1];
      MoveLineIsNew(n, lines, move, k - 1);
      assert prefix + [move[k - 1]] == lines + move[..k];
      forall l | l in prefix + [move[k - 1]] ensures IsGridLine(n, l) {
        assert l in lines + move;
      }
      ClosingLineAddsBox(n, prefix, move[k - 1]);
    }
  }

  /**
    The turn rule pays off: a legal move of grid lines credits its player at
    least one box for every line but the last.
   */
  lemma ValidMoveEarnsBoxes(n: int, lines: seq<Line>, move: seq<Line>)
    requires ValidMove(n, lines, move)
    requires forall l :: l in lines + move ==> IsGridLine(n, l)
    requires move != []
    ensures |NewlyFilled(n, lines, move)| >= |move| - 1
  {
    var k := |move| - 1;
    ValidMovePrefixEarns(n, lines, move, k);
    FilledBoxesGrow(n, lines + move[..k], [move[k]]);
    assert lines + move[..k] + [move[k]] == lines + move;
    FilledSetOf(n, lines + move[..k]);
    FilledSetOf(n, lines + move);
    FilledBoxesSpec(n, lines + move[..k]);
    FilledBoxesSpec(n, lines + move);
    SubsetSize(FilledSet(n, lines + move[..k]), FilledSet(n, lines + move));
    NewlyFilledSplits(n, lines, move);
  }
}
