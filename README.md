# Dots and Boxes rule engine, modelled in Dafny

This project models the rule engine of a Dots and Boxes program (`board.py`).
It covers the `Board` record with its two box-ownership lists and the queries
over drawn lines: which boxes are filled, and which boxes one new line closes.
It also covers the validity check of a board, the turn rule checked by
`isvalidmove`, `makemove`, and the enumeration of all lines of an n x n board.

A line is the source's 4-tuple `(i, j, r, s)`, written `Line(x1, y1, x2, y2)`.
A box is named by its bottom-left corner, `Box(x, y)`. Coordinates are
unbounded integers, like Python's.

- `grid.dfy`, module `Grid`: lines and boxes, `isboxfilled`, `getnewboxes`,
  `get_all_lines`, and `FilledBoxes`, the function that says what `getboxes`
  returns. Also small facts about lists without repeats. `len(set(s)) == len(s)`
  is proved to hold exactly when `s` has no repeats.
- `board.dfy`, module `Boards`:
  - The `Board` class. Its constructor is the dataclass constructor followed by
    `__post_init__`, and `Copy` is `__copy__`.
  - `getboxes` and `countboxes` as methods with the source's nested loops.
  - `isvalidboard` as written, and with its line test corrected (see Findings).
  - `isvalidmove` as a method whose early-return loop is proved equal to
    `ValidMove`, a plain statement of the turn rule.
  - `makemove`.
  - Lemmas about ownership over a game.
- `scenarios.dfy`, module `Scenarios`: concrete turns on 1 x 1 and 2 x 2
  boards. It also shows that a move played on a copied board lands in the
  original board's blue list.

Box lists are objects (`BoxList`), because Python lists are shared by
reference. `__copy__` gives the copy a new red list but the very same blue
list. `MakeMove` states this sharing (`copyboard ==> result.blue ==
board.blue`), and `CopiedMoveCreditsOriginalBlue` shows its effect.

The player argument is compared with the string `"red"`. Any other value
credits blue.

`MakeMove` returns the board plus a flag `accepted`. On an illegal move the
source prints a message and returns the board, or its copy, unchanged. The flag
is false exactly then. The board behaves the same either way.

Some documented intentions for the engine differ from `board.py`. The model
follows `board.py` in each case:
- Lines and box ownership are lists, not sets. A complete board is judged by
  the length of the list, not by counting distinct lines.
- `isvalidboard` makes no disjointness check. It checks ownership only when
  both lists are non-empty.
- `isvalidmove` makes no range check on the move's lines.
- A copied board is not independent of the original: the two share the blue
  list.
- A rejected move is reported only by a printed message.

## Model

| member | source | states |
|---|---|---|
| Boards.Board.constructor | board.py:26-35 | size and lines are stored, with a missing line list becoming empty; each missing box list becomes a new empty list, distinct from the other one; a given list is kept as the same object |
| Boards.Board.Copy | board.py:37-39 | the copy is a new board with the same size and lines and a new red list with the same boxes, but it shares the original's blue list object |
| Grid.IsBoxFilled | board.py:66-74 | a box is filled exactly when every one of its four sides is among the drawn lines |
| Grid.FilledStaysFilled | board.py:66-74 | drawing more lines never unfills a box |
| Grid.FilledBoxInRange | board.py:66-74 | on a board of size n whose drawn lines are all grid lines, a filled box has its corner in [0,n) x [0,n) |
| Boards.GetBoxes | board.py:42-56 | the nested loops return exactly the boxes (i, j) with 0 <= i, j < size that are filled, in row-major order (i outer, j inner) and without repeats |
| Grid.FilledBoxesSpec | board.py:42-56 | what getboxes returns holds exactly the filled boxes of the board, in row-major order, without repeats |
| Grid.FilledBoxesAll | board.py:42-56 | when every box of an n x n board is filled, getboxes returns n * n boxes |
| Grid.FilledBoxesGrow | board.py:168-170 | every box filled before lines are appended is still returned by getboxes afterwards |
| Boards.FilledSetOf | board.py:117-120 | set(getboxes(board)) is the set of filled boxes of the board and has as many elements as the list |
| Boards.CountBoxes | board.py:59-63 | countboxes is the length of getboxes, which is the number of distinct filled boxes on the board |
| Grid.Completing | board.py:101 | the comprehension returns at most one box per option |
| Grid.CompletingSpec | board.py:101 | a box is in the comprehension's result exactly when some option names it and all of that option's remaining sides are drawn |
| Grid.GetNewBoxes | board.py:77-102 | at most two boxes; none when the line is already drawn; none when the line is neither r-i == 1 nor s-j == 1 |
| Grid.GetNewBoxesHorizontal | board.py:88-96 | for a rightward unit line not yet drawn, a box is returned exactly when it is the box above or below the line and it is filled once the line is added |
| Grid.GetNewBoxesVertical | board.py:90-99 | for an upward unit line not yet drawn, a box is returned exactly when it is the box right or left of the line and it is filled once the line is added |
| Grid.GetNewBoxesExact | board.py:86-101 | for a canonical unit line not yet drawn: every returned box borders the line, is filled once the line is added and was not filled before (soundness); every bordering box filled once the line is added is returned (completeness) |
| Grid.GetNewBoxesCloses | board.py:77-102 | for a canonical unit line not yet drawn, getnewboxes is non-empty exactly when the line closes a box it borders |
| Grid.PairsSpec | board.py:184-185 | the range(n) x range(n) comprehension yields each pair (i, j) with 0 <= i, j < n exactly once, n * n in all |
| Grid.DrawnOrderSpec | board.py:184-187 | the four comprehensions together list each canonical unit segment of [0,n] x [0,n] exactly once, 2n(n+1) in all |
| Grid.GetAllLines | board.py:189 | putting the lines in (min, min, max, max) form keeps one line per segment listed |
| Grid.AllLinesSpec | board.py:180-190 | get_all_lines(n) has exactly 2n(n+1) lines (0 for n <= 0), no repeats, and a line is in it exactly when it is canonical (x1 <= x2, y1 <= y2), unit length, axis-aligned and has all coordinates in [0, n] |
| Boards.IsValidBoard | board.py:105-121 | isvalidboard as written holds exactly when every line passes the bounds test and abs(i-j)+abs(r-s) == 1, and, when both box lists are non-empty, every red and every blue box is a filled box of the board and the number of filled boxes is len(red) + len(blue) |
| Boards.IsValidBoardIntended | board.py:110-120 | isvalidboard with the corrected length test abs(r-i)+abs(s-j) == 1: on rightward/upward lines it holds exactly when every line is a unit segment of the grid and, when both box lists are non-empty, every listed box is a filled box of the board and the number of filled boxes is len(red) + len(blue) |
| Boards.IsValidBoardRejectsFullBoard | board.py:110-114 | isvalidboard as written rejects the complete 2 x 2 board built from get_all_lines(2), while the corrected test accepts it |
| Boards.LineCheckIntended | board.py:111-112 | the corrected line test accepts a rightward/upward line exactly when it is a unit segment of the grid |
| Grid.DistinctCount | board.py:138 | len(set(move)) == len(move) holds exactly when the move repeats no line |
| Boards.IsValidMove | board.py:124-153 | the checks with their early returns give true exactly when: the move is non-empty or the board already has 2n(n+1) lines; no line of the move is on the board or repeated in the move; every line but the last has a non-empty getnewboxes against the lines before it; and the last line has an empty getnewboxes unless the total reaches 2n(n+1) |
| Boards.ValidMoveStopsAt | board.py:141-145 | a line of the move before the last whose getnewboxes against the lines before it is empty makes the move illegal |
| Boards.ValidMoveAccepts | board.py:132-153 | a move that passes every check of isvalidmove, as the source indexes the board's lines followed by the move, is legal under the turn rule |
| Boards.ValidMoveRejects | board.py:133-139 | an empty move is legal exactly when the board has at least 2n(n+1) lines; a move repeating a board line or one of its own lines is illegal |
| Boards.MoveLineIsNew | board.py:136-139 | in a legal move, each line is absent from the board and from the move's earlier lines |
| Boards.ValidMoveKeepsLinesDistinct | board.py:136-139 | a legal move appended to a board without repeated lines leaves no repeated lines |
| Boards.ValidMoveMeaning | board.py:141-151 | in a legal move of unit lines, every line but the last closes a box it borders, and the last closes no box unless the board then has 2n(n+1) lines |
| Boards.ValidMoveEarnsBoxes | board.py:141-145 | a legal move of m grid lines fills at least m - 1 new boxes on the board |
| Boards.AddedBoxes | board.py:171 | the comprehension keeps exactly the boxes of the new list that are not in the old one, and adds no repeats |
| Boards.NewlyFilledSpec | board.py:168-171 | the boxes makemove credits are exactly the boxes of the board filled after the move and not before, without repeats |
| Boards.NewlyFilledSplits | board.py:168-171 | the filled boxes after the move are those before plus the credited ones, each once; so the number credited is the difference of the two counts |
| Boards.MakeMove | board.py:156-177 | on an accepted move (valid, or not checked) the lines become old lines + move and the credited list (red only when player == "red") gains exactly the newly filled boxes while the other list is unchanged; on a rejected move lines and both lists are unchanged; with copyboard the result is a new board with a new red list but the original's blue list, and the original's lines are untouched |
| Boards.EmptyBoardAccounted | board.py:32-35 | a board with no lines and empty box lists has every filled box owned exactly once (there are none) |
| Boards.MakeMoveKeepsAccounted | board.py:168-175 | crediting the newly filled boxes to either player keeps every filled box owned by exactly one player, once |
| Boards.AccountedBoardIsValid | board.py:116-120 | a board of grid lines on which every filled box is owned exactly once passes isvalidboard with the corrected line test |
| Boards.FullBoardScore | board.py:147-150 | once a board holds 2n(n+1) distinct grid lines, every box is filled, so with ownership accounted the players own n * n boxes between them |
| Scenarios.SingleLineTurn | board.py:147-153 | on an empty 1 x 1 board, one line that closes nothing is a legal turn |
| Scenarios.FourLinesInOneTurn | board.py:133-145 | on an empty 1 x 1 board, all four lines in one turn are illegal because the first closes nothing, and the empty move is illegal |
| Scenarios.LastSideEndsGame | board.py:147-153 | the fourth side of a 1 x 1 board closes its box and, completing the board, is a legal turn |
| Scenarios.LastLineClosesTwo | board.py:94-101 | on a 2 x 2 board the line (1, 0, 1, 1) between boxes (0, 0) and (1, 0), drawn last, closes both boxes it borders and is a legal turn |
| Scenarios.OneBoxCredited | board.py:168-171 | closing the last side of a 1 x 1 board credits exactly that one box |
| Scenarios.CopiedMoveCreditsOriginalBlue | board.py:37-39 | a move played on a copy and credited to blue also appears in the original board's blue list, while the original's lines and red list stay as they were |

## Left out

- draw.py is not part of this model. It renders the board with floating-point screen coordinates and an image library.
- The `print` in makemove (board.py:165) is console output. Only its effect is modelled: the board is returned unchanged and `accepted` is false.
- The numpy import and the type annotations (board.py:8-12) have no behaviour.
- Boards.Board.constructor: the line list is held as a value. A caller who keeps a reference to the list passed as `lines` would see makemove's in-place `+=` when `copyboard` is false; that sharing is not modelled. `__copy__` copies the lines, so copies are unaffected.
- Boards.MakeMove: the player is a string. An integer argument, as the annotation `Literal[0,1]` suggests, behaves like any string other than `"red"` and credits blue.
- Python's dynamic typing is not modelled: fields of other types, tuples of another length, and non-integer coordinates.
- The cost of list membership tests, and concurrency. The code is single-threaded.

## Findings

| source | as written | input that shows it | evidently intended | confidence | as-written member | corrected member |
|---|---|---|---|---|---|---|
| board.py:112 | `abs(i-j)+abs(r-s) == 1` compares x1 with y1 and x2 with y2 | size 2 with the lines of get_all_lines(2), which include (0, 2, 1, 2): abs(0-2) + abs(1-2) == 3, so the complete board is reported invalid | `abs(r-i)+abs(s-j) == 1`, the length of the segment; with it every grid line passes and an accounted board is valid (Boards.AccountedBoardIsValid) | high; not executed | Boards.IsValidBoardRejectsFullBoard | Boards.IsValidBoardIntended |
