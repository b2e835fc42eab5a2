/**
  Geometry of a Dots and Boxes grid of size n: the unit segments that can be
  drawn, the boxes they close, and the queries over a list of drawn lines
  (board.py:42-102 and board.py:180-190).
 */
module Grid {

  /** A segment from (x1, y1) to (x2, y2), one of the source's 4-tuples. */
  datatype Line = Line(x1: int, y1: int, x2: int, y2: int)

  /** A box, named by its bottom-left corner. */
  datatype Box = Box(x: int, y: int)

  // ---------------------------------------------------------------------------
  // Sequences without repeats
  // ---------------------------------------------------------------------------

  predicate NoDup<T(==)>(s: seq<T>) {
    forall p, q :: 0 <= p < q < |s| ==> s[p] != s[q]
  }

  /** The elements of a list, as Python's set(s) gives them. */
  function SetOf<T(==)>(s: seq<T>): set<T> {
    set x | x in s
  }

  lemma {:induction false} SetOfSize<T>(s: seq<T>)
    ensures |SetOf(s)| <= |s|
  {
    if s != [] {
      SetOfSize(s[1..]);
      assert SetOf(s) == {s[0]} + SetOf(s[1..]);
    }
  }

  /** len(set(s)) == len(s) holds exactly when s has no repeated element. */
  lemma {:induction false} DistinctCount<T>(s: seq<T>)
    ensures |SetOf(s)| == |s| <==> NoDup(s)
  {
    if s != [] {
      var t := s[1..];
      DistinctCount(t);
      assert SetOf(s) == {s[0]} + SetOf(t);
      if s[0] in t {
        var k :| 0 <= k < |t| && t[k] == s[0];
        assert s[0] == s[k + 1];
        assert SetOf(s) == SetOf(t);
        SetOfSize(t);
      } else {
        assert s[0] !in SetOf(t);
        assert NoDup(s) <==> NoDup(t) by {
          if NoDup(t) {
            forall p, q | 0 <= p < q < |s| ensures s[p] != s[q] {
              if p > 0 { assert s[p] == t[p - 1] && s[q] == t[q - 1]; }
              else { assert s[q] == t[q - 1]; }
            }
          }
          if NoDup(s) {
            forall p, q | 0 <= p < q < |t| ensures t[p] != t[q] {
              assert t[p] == s[p + 1] && t[q] == s[q + 1];
            }
          }
        }
      }
    }
  }

  lemma NoDupConcat<T>(a: seq<T>, b: seq<T>)
    requires NoDup(a) && NoDup(b)
    requires forall x :: x in a ==> x !in b
    ensures NoDup(a + b)
  {
    forall p, q | 0 <= p < q < |a + b| ensures (a + b)[p] != (a + b)[q] {
      if q < |a| {
      } else if p >= |a| {
        assert (a + b)[p] == b[p - |a|] && (a + b)[q] == b[q - |a|];
      } else {
        assert (a + b)[p] == a[p] && (a + b)[q] == b[q - |a|];
        assert a[p] in a;
      }
    }
  }

  // ---------------------------------------------------------------------------
  // Lines and boxes
  // ---------------------------------------------------------------------------

  /** A canonical unit segment: one step rightward or one step upward. */
  predicate IsUnitLine(l: Line) {
    (l.x2 == l.x1 + 1 && l.y2 == l.y1) || (l.x2 == l.x1 && l.y2 == l.y1 + 1)
  }

  /** A canonical unit segment whose end points lie on the grid [0, n] x [0, n]. */
  predicate IsGridLine(n: int, l: Line) {
    IsUnitLine(l) &&
    0 <= l.x1 <= n && 0 <= l.y1 <= n && 0 <= l.x2 <= n && 0 <= l.y2 <= n
  }

  /** The four sides of box b, as the source spells them (board.py:50-53). */
  function Bottom(b: Box): Line { Line(b.x, b.y, b.x + 1, b.y) }
  function Top(b: Box): Line { Line(b.x, b.y + 1, b.x + 1, b.y + 1) }
  function Left(b: Box): Line { Line(b.x, b.y, b.x, b.y + 1) }
  function Right(b: Box): Line { Line(b.x + 1, b.y, b.x + 1, b.y + 1) }

  predicate IsSide(l: Line, b: Box) {
    l == Bottom(b) || l == Top(b) || l == Left(b) || l == Right(b)
  }

  /** isboxfilled: all four bounding unit lines of b have been drawn. */
  predicate IsBoxFilled(lines: seq<Line>, b: Box)
    ensures IsBoxFilled(lines, b) <==> forall l :: IsSide(l, b) ==> l in lines
  {
    Bottom(b) in lines && Top(b) in lines && Left(b) in lines && Right(b) in lines
  }

  /** Drawing more lines never empties a box. */
  lemma FilledStaysFilled(lines: seq<Line>, more: seq<Line>, b: Box)
    requires IsBoxFilled(lines, b)
    ensures IsBoxFilled(lines + more, b)
  {
  }

  /** On a board whose drawn lines are all grid lines, a filled box lies on the board. */
  lemma FilledBoxInRange(n: int, lines: seq<Line>, b: Box)
    requires forall l :: l in lines ==> IsGridLine(n, l)
    requires IsBoxFilled(lines, b)
    ensures 0 <= b.x < n && 0 <= b.y < n
  {
    assert IsGridLine(n, Bottom(b)) && IsGridLine(n, Top(b));
  }

  // ---------------------------------------------------------------------------
  // getnewboxes (board.py:77-102)
  // ---------------------------------------------------------------------------

  /** all(l in lines for l in remaining) */
  predicate AllIn(remaining: seq<Line>, lines: seq<Line>) {
    forall l :: l in remaining ==> l in lines
  }

  /** [box for (remaining, box) in options if all(l in lines for l in remaining)] */
  function Completing(lines: seq<Line>, options: seq<(seq<Line>, Box)>): (r: seq<Box>)
    ensures |r| <= |options|
  {
    if options == [] then []
    else (if AllIn(options[0].0, lines) then [options[0].1] else []) + Completing(lines, options[1..])
  }

  /** The comprehension keeps the box of exactly those options whose remaining sides are all drawn. */
  lemma {:induction false} CompletingSpec(lines: seq<Line>, options: seq<(seq<Line>, Box)>)
    ensures forall b :: b in Completing(lines, options) <==>
      exists k :: 0 <= k < |options| && options[k].1 == b && AllIn(options[k].0, lines)
  {
    if options != [] {
      CompletingSpec(lines, options[1..]);
      assert forall k :: 1 <= k < |options| ==> options[k] == options[1..][k - 1];
      forall b | b in Completing(lines, options[1..])
        ensures exists k :: 0 <= k < |options| && options[k].1 == b && AllIn(options[k].0, lines)
      {
        var k :| 0 <= k < |options[1..]| && options[1..][k].1 == b && AllIn(options[1..][k].0, lines);
        assert options[k + 1] == options[1..][k];
      }
    }
  }

  /** The comprehension over the two options of a line, written out. */
  lemma CompletingPair(lines: seq<Line>, near: (seq<Line>, Box), far: (seq<Line>, Box))
    ensures Completing(lines, [near, far]) ==
      (if AllIn(near.0, lines) then [near.1] else []) + (if AllIn(far.0, lines) then [far.1] else [])
  {
    assert [near, far][1..] == [far];
    assert [far][1..] == [];
  }

  /**
    getnewboxes: the boxes that drawing `line` after `lines` completes. The
    line's orientation picks its two neighbouring boxes, and each of those is
    kept when its other three sides are already drawn.
   */
  function GetNewBoxes(lines: seq<Line>, line: Line): (r: seq<Box>)
    ensures |r| <= 2
    ensures line in lines ==> r == []
    ensures line.x2 - line.x1 != 1 && line.y2 - line.y1 != 1 ==> r == []
  {
    if line in lines then []
    else
      var i, j, r, s := line.x1, line.y1, line.x2, line.y2;
      var above := [Line(i, j + 1, i + 1, j + 1), Line(i, j, i, j + 1), Line(i + 1, j, i + 1, j + 1)];
      var below := [Line(i, j - 1, i, j), Line(i, j - 1, i + 1, j - 1), Line(i + 1, j - 1, i + 1, j)];
      var right := [Line(i, j + 1, i + 1, j + 1), Line(i, j, i + 1, j), Line(i + 1, j, i + 1, j + 1)];
      var left := [Line(i - 1, j, i, j), Line(i - 1, j, i - 1, j + 1), Line(i - 1, j + 1, i, j + 1)];
      var options :=
        if r - i == 1 then [(above, Box(i, j)), (below, Box(i, j - 1))]
        else if s - j == 1 then [(right, Box(i, j)), (left, Box(i - 1, j))]
        else [];
      Completing(lines, options)
  }

  /** GetNewBoxesExact for a line with x2 == x1 + 1: the boxes above and below it. */
  lemma GetNewBoxesHorizontal(lines: seq<Line>, line: Line, b: Box)
    requires IsUnitLine(line) && line !in lines && line.x2 == line.x1 + 1
    ensures b in GetNewBoxes(lines, line) <==> IsSide(line, b) && IsBoxFilled(lines + [line], b)
  {
    var near, far := Box(line.x1, line.y1), Box(line.x1, line.y1 - 1);
    assert line == Bottom(near) && line == Top(far);
    var options := [([Top(near), Left(near), Right(near)], near),
                    ([Left(far), Bottom(far), Right(far)], far)];
    assert GetNewBoxes(lines, line) == Completing(lines, options);
    CompletingSpec(lines, options);
    if IsSide(line, b) && IsBoxFilled(lines + [line], b) {
      var k := if b == near then 0 else 1;
      assert options[k].1 == b;
      assert AllIn(options[k].0, lines);
    }
  }

  /** GetNewBoxesExact for a line with y2 == y1 + 1: the boxes right and left of it. */
  lemma GetNewBoxesVertical(lines: seq<Line>, line: Line, b: Box)
    requires IsUnitLine(line) && line !in lines && line.x2 == line.x1
    ensures b in GetNewBoxes(lines, line) <==> IsSide(line, b) && IsBoxFilled(lines + [line], b)
  {
    var near, far := Box(line.x1, line.y1), Box(line.x1 - 1, line.y1);
    assert line == Left(near) && line == Right(far);
    var options := [([Top(near), Bottom(near), Right(near)], near),
                    ([Bottom(far), Left(far), Top(far)], far)];
    assert GetNewBoxes(lines, line) == Completing(lines, options);
    CompletingSpec(lines, options);
    if IsSide(line, b) && IsBoxFilled(lines + [line], b) {
      var k := if b == near then 0 else 1;
      assert options[k].1 == b;
      assert AllIn(options[k].0, lines);
    }
  }

  /**
    For a canonical unit line not yet drawn, getnewboxes is sound (every box it
    returns is filled once the line is added and was not filled before) and
    complete (every box the line borders that is then filled is returned).
   */
  lemma GetNewBoxesExact(lines: seq<Line>, line: Line, b: Box)
    requires IsUnitLine(line) && line !in lines
    ensures b in GetNewBoxes(lines, line) ==>
      IsSide(line, b) && IsBoxFilled(lines + [line], b) && !IsBoxFilled(lines, b)
    ensures IsSide(line, b) && IsBoxFilled(lines + [line], b) ==> b in GetNewBoxes(lines, line)
    ensures b in GetNewBoxes(lines, line) <==> IsBoxFilled(lines + [line], b) && !IsBoxFilled(lines, b)
  {
    if line.x2 == line.x1 + 1 {
      GetNewBoxesHorizontal(lines, line, b);
    } else {
      GetNewBoxesVertical(lines, line, b);
    }
    if IsBoxFilled(lines + [line], b) && !IsBoxFilled(lines, b) {
      // the one side missing before is the new line
      assert IsSide(line, b);
    }
    if IsSide(line, b) {
      assert !IsBoxFilled(lines, b);
    }
  }

  /** Drawing `line` after `lines` fills a box that the line borders. */
  ghost predicate ClosesBox(lines: seq<Line>, line: Line) {
    exists b :: IsSide(line, b) && IsBoxFilled(lines + [line], b) && !IsBoxFilled(lines, b)
  }

  /** For a canonical unit line not yet drawn, getnewboxes is non-empty exactly when the line closes a box. */
  lemma GetNewBoxesCloses(lines: seq<Line>, line: Line)
    requires IsUnitLine(line) && line !in lines
    ensures GetNewBoxes(lines, line) != [] <==> ClosesBox(lines, line)
  {
    if GetNewBoxes(lines, line) != [] {
      var b := GetNewBoxes(lines, line)[0];
      GetNewBoxesExact(lines, line, b);
    }
    if ClosesBox(lines, line) {
      var b :| IsSide(line, b) && IsBoxFilled(lines + [line], b) && !IsBoxFilled(lines, b);
      GetNewBoxesExact(lines, line, b);
    }
  }

  // ---------------------------------------------------------------------------
  // getboxes, as a specification (board.py:42-56)
  // ---------------------------------------------------------------------------

  /** The filled boxes (i, 0), ..., (i, j - 1) in that order: the inner loop of getboxes. */
  function RowBoxes(lines: seq<Line>, i: int, j: int): seq<Box>
    decreases j
  {
    if j <= 0 then []
    else RowBoxes(lines, i, j - 1) + (if IsBoxFilled(lines, Box(i, j - 1)) then [Box(i, j - 1)] else [])
  }

  /** The filled boxes of rows 0, ..., i - 1 of a board of size n, row after row. */
  function RowsBoxes(n: int, lines: seq<Line>, i: int): seq<Box>
    decreases i
  {
    if i <= 0 then []
    else RowsBoxes(n, lines, i - 1) + RowBoxes(lines, i - 1, n)
  }

  /** What getboxes returns on a board of size n with the given lines. */
  function FilledBoxes(n: int, lines: seq<Line>): seq<Box> {
    RowsBoxes(n, lines, n)
  }

  /** Row-major order: i outer, j inner. */
  predicate Before(a: Box, b: Box) {
    a.x < b.x || (a.x == b.x && a.y < b.y)
  }

  predicate RowMajor(s: seq<Box>) {
    forall p, q :: 0 <= p < q < |s| ==> Before(s[p], s[q])
  }

  lemma RowMajorConcat(a: seq<Box>, b: seq<Box>)
    requires RowMajor(a) && RowMajor(b)
    requires forall x, y :: x in a && y in b ==> Before(x, y)
    ensures RowMajor(a + b)
  {
    forall p, q | 0 <= p < q < |a + b| ensures Before((a + b)[p], (a + b)[q]) {
      if q < |a| {
      } else if p >= |a| {
        assert (a + b)[p] == b[p - |a|] && (a + b)[q] == b[q - |a|];
      } else {
        assert (a + b)[p] == a[p] && (a + b)[q] == b[q - |a|];
      }
    }
  }

  lemma {:induction false} RowBoxesSpec(lines: seq<Line>, i: int, j: int)
    ensures forall b :: b in RowBoxes(lines, i, j) <==> b.x == i && 0 <= b.y < j && IsBoxFilled(lines, b)
    ensures RowMajor(RowBoxes(lines, i, j))
    ensures |RowBoxes(lines, i, j)| <= if j < 0 then 0 else j
  {
    if j > 0 {
      RowBoxesSpec(lines, i, j - 1);
      var prev := RowBoxes(lines, i, j - 1);
      var last := if IsBoxFilled(lines, Box(i, j - 1)) then [Box(i, j - 1)] else [];
      assert RowBoxes(lines, i, j) == prev + last;
      forall x, y | x in prev && y in last ensures Before(x, y) {
        assert y == Box(i, j - 1);
      }
      RowMajorConcat(prev, last);
      forall b: Box ensures b in prev + last <==> b.x == i && 0 <= b.y < j && IsBoxFilled(lines, b) {
        if b == Box(i, j - 1) {
          assert b in last <==> IsBoxFilled(lines, b);
        }
      }
    }
  }

  lemma {:induction false} RowsBoxesSpec(n: int, lines: seq<Line>, i: int)
    ensures forall b :: b in RowsBoxes(n, lines, i) <==>
      0 <= b.x < i && 0 <= b.y < n && IsBoxFilled(lines, b)
    ensures RowMajor(RowsBoxes(n, lines, i))
  {
    if i > 0 {
      RowsBoxesSpec(n, lines, i - 1);
      RowBoxesSpec(lines, i - 1, n);
      RowMajorConcat(RowsBoxes(n, lines, i - 1), RowBoxes(lines, i - 1, n));
    }
  }

  /**
    getboxes returns, without repeats and in row-major order, exactly the boxes
    (i, j) with 0 <= i, j < n that are filled.
   */
  lemma FilledBoxesSpec(n: int, lines: seq<Line>)
    ensures forall b :: b in FilledBoxes(n, lines) <==>
      0 <= b.x < n && 0 <= b.y < n && IsBoxFilled(lines, b)
    ensures RowMajor(FilledBoxes(n, lines))
    ensures NoDup(FilledBoxes(n, lines))
  {
    RowsBoxesSpec(n, lines, n);
  }

  /** Drawing more lines keeps every filled box of the board filled. */
  lemma FilledBoxesGrow(n: int, lines: seq<Line>, more: seq<Line>)
    ensures forall b :: b in FilledBoxes(n, lines) ==> b in FilledBoxes(n, lines + more)
  {
    FilledBoxesSpec(n, lines);
    FilledBoxesSpec(n, lines + more);
    forall b | b in FilledBoxes(n, lines) ensures b in FilledBoxes(n, lines + more) {
      FilledStaysFilled(lines, more, b);
    }
  }

  lemma {:induction false} RowBoxesFull(lines: seq<Line>, i: int, j: int)
    requires j >= 0
    requires forall b: Box :: b.x == i && 0 <= b.y < j ==> IsBoxFilled(lines, b)
    ensures |RowBoxes(lines, i, j)| == j
  {
    if j > 0 {
      RowBoxesFull(lines, i, j - 1);
    }
  }

  lemma {:induction false} RowsBoxesFull(n: int, lines: seq<Line>, i: int)
    requires n >= 0 && i >= 0
    requires forall b: Box :: 0 <= b.x < i && 0 <= b.y < n ==> IsBoxFilled(lines, b)
    ensures |RowsBoxes(n, lines, i)| == i * n
  {
    if i > 0 {
      RowsBoxesFull(n, lines, i - 1);
      RowBoxesFull(lines, i - 1, n);
      assert i * n == (i - 1) * n + n;
    }
  }

  /** On a board where every box is filled, getboxes returns n * n boxes. */
  lemma FilledBoxesAll(n: int, lines: seq<Line>)
    requires n >= 0
    requires forall b: Box :: 0 <= b.x < n && 0 <= b.y < n ==> IsBoxFilled(lines, b)
    ensures |FilledBoxes(n, lines)| == n * n
  {
    RowsBoxesFull(n, lines, n);
  }

  // ---------------------------------------------------------------------------
  // get_all_lines (board.py:180-190)
  // ---------------------------------------------------------------------------

  /** [(i, j) for i in range(lo, m) for j in range(m)] */
  function Pairs(lo: int, m: int): seq<(int, int)>
    requires 0 <= lo
    decreases m - lo
  {
    if lo >= m then [] else seq(m, j => (lo, j)) + Pairs(lo + 1, m)
  }

  lemma {:induction false} PairsSpec(lo: int, m: int)
    requires 0 <= lo
    ensures forall p :: p in Pairs(lo, m) <==> lo <= p.0 < m && 0 <= p.1 < m
    ensures NoDup(Pairs(lo, m))
    ensures |Pairs(lo, m)| == if lo >= m then 0 else (m - lo) * m
    decreases m - lo
  {
    if lo < m {
      PairsSpec(lo + 1, m);
      var row := seq(m, j => (lo, j));
      forall p: (int, int) | lo <= p.0 < m && 0 <= p.1 < m ensures p in Pairs(lo, m) {
        if p.0 == lo { assert row[p.1] == p; }
      }
      NoDupConcat(row, Pairs(lo + 1, m));
      assert (m - lo) * m == m + (m - (lo + 1)) * m;
    }
  }

  /** (min(i,r), min(j,s), max(i,r), max(j,s)) */
  function Canonical(l: Line): Line {
    Line(if l.x1 <= l.x2 then l.x1 else l.x2, if l.y1 <= l.y2 then l.y1 else l.y2,
         if l.x1 <= l.x2 then l.x2 else l.x1, if l.y1 <= l.y2 then l.y2 else l.y1)
  }

  /** [(i, j, i+1, j) for (i, j) in ps] */
  function Horizontals(ps: seq<(int, int)>): seq<Line> {
    seq(|ps|, k requires 0 <= k < |ps| => Line(ps[k].0, ps[k].1, ps[k].0 + 1, ps[k].1))
  }

  /** [(i, j, i, j+1) for (i, j) in ps] */
  function Verticals(ps: seq<(int, int)>): seq<Line> {
    seq(|ps|, k requires 0 <= k < |ps| => Line(ps[k].0, ps[k].1, ps[k].0, ps[k].1 + 1))
  }

  /** The lines of get_all_lines before they are put in canonical form. */
  function DrawnOrder(n: int): seq<Line> {
    var m := if n < 0 then 0 else n;
    Horizontals(Pairs(0, m)) + Verticals(Pairs(0, m))
    + seq(m, i => Line(n, i, n, i + 1))
    + seq(m, i => Line(i, n, i + 1, n))
  }

  /** get_all_lines: every segment of an n x n board. */
  function GetAllLines(n: int): (r: seq<Line>)
    ensures |r| == |DrawnOrder(n)|
  {
    var all := DrawnOrder(n);
    seq(|all|, k requires 0 <= k < |all| => Canonical(all[k]))
  }

  lemma HorizontalsSpec(m: int)
    ensures |Horizontals(Pairs(0, m))| == |Pairs(0, m)|
    ensures forall l: Line :: l in Horizontals(Pairs(0, m)) <==>
      l.x2 == l.x1 + 1 && l.y2 == l.y1 && 0 <= l.x1 < m && 0 <= l.y1 < m
    ensures NoDup(Horizontals(Pairs(0, m)))
  {
    var ps := Pairs(0, m);
    var h := Horizontals(ps);
    PairsSpec(0, m);
    forall l: Line | l.x2 == l.x1 + 1 && l.y2 == l.y1 && 0 <= l.x1 < m && 0 <= l.y1 < m
      ensures l in h
    {
      assert (l.x1, l.y1) in ps;
      var k :| 0 <= k < |ps| && ps[k] == (l.x1, l.y1);
      assert h[k] == l;
    }
    forall l | l in h ensures 0 <= l.x1 < m && 0 <= l.y1 < m {
      var k :| 0 <= k < |h| && h[k] == l;
      assert ps[k] in ps;
    }
    forall p, q | 0 <= p < q < |h| ensures h[p] != h[q] {
      assert ps[p] != ps[q];
    }
  }

  lemma VerticalsSpec(m: int)
    ensures |Verticals(Pairs(0, m))| == |Pairs(0, m)|
    ensures forall l: Line :: l in Verticals(Pairs(0, m)) <==>
      l.x2 == l.x1 && l.y2 == l.y1 + 1 && 0 <= l.x1 < m && 0 <= l.y1 < m
    ensures NoDup(Verticals(Pairs(0, m)))
  {
    var ps := Pairs(0, m);
    var v := Verticals(ps);
    PairsSpec(0, m);
    forall l: Line | l.x2 == l.x1 && l.y2 == l.y1 + 1 && 0 <= l.x1 < m && 0 <= l.y1 < m
      ensures l in v
    {
      assert (l.x1, l.y1) in ps;
      var k :| 0 <= k < |ps| && ps[k] == (l.x1, l.y1);
      assert v[k] == l;
    }
    forall l | l in v ensures 0 <= l.x1 < m && 0 <= l.y1 < m {
      var k :| 0 <= k < |v| && v[k] == l;
      assert ps[k] in ps;
    }
    forall p, q | 0 <= p < q < |v| ensures v[p] != v[q] {
      assert ps[p] != ps[q];
    }
  }

  lemma EdgesSpec(n: int, m: nat)
    ensures forall l: Line :: l in seq(m, i => Line(n, i, n, i + 1)) <==>
      l.x1 == n && l.x2 == n && l.y2 == l.y1 + 1 && 0 <= l.y1 < m
    ensures forall l: Line :: l in seq(m, i => Line(i, n, i + 1, n)) <==>
      l.y1 == n && l.y2 == n && l.x2 == l.x1 + 1 && 0 <= l.x1 < m
    ensures NoDup(seq(m, i => Line(n, i, n, i + 1)))
    ensures NoDup(seq(m, i => Line(i, n, i + 1, n)))
  {
    var v2 := seq(m, i => Line(n, i, n, i + 1));
    var h2 := seq(m, i => Line(i, n, i + 1, n));
    forall l: Line | l.x1 == n && l.x2 == n && l.y2 == l.y1 + 1 && 0 <= l.y1 < m ensures l in v2 {
      assert v2[l.y1] == l;
    }
    forall l: Line | l.y1 == n && l.y2 == n && l.x2 == l.x1 + 1 && 0 <= l.x1 < m ensures l in h2 {
      assert h2[l.x1] == l;
    }
  }

  lemma DrawnOrderSpec(n: int)
    ensures var m := if n < 0 then 0 else n; |DrawnOrder(n)| == 2 * m * (m + 1)
    ensures forall l :: l in DrawnOrder(n) <==> IsGridLine(n, l)
    ensures NoDup(DrawnOrder(n))
  {
    var m := if n < 0 then 0 else n;
    var ps := Pairs(0, m);
    PairsSpec(0, m);
    HorizontalsSpec(m);
    VerticalsSpec(m);
    EdgesSpec(n, m);
    var h, v := Horizontals(ps), Verticals(ps);
    var v2 := seq(m, i => Line(n, i, n, i + 1));
    var h2 := seq(m, i => Line(i, n, i + 1, n));
    assert DrawnOrder(n) == h + v + v2 + h2;
    assert |ps| == m * m;
    assert 2 * m * (m + 1) == m * m + m * m + m + m;
    NoDupConcat(h, v);
    NoDupConcat(h + v, v2);
    NoDupConcat(h + v + v2, h2);
  }

  /**
    get_all_lines(n) holds exactly the 2n(n+1) canonical unit segments of the
    grid [0, n] x [0, n], each once.
   */
  lemma AllLinesSpec(n: int)
    ensures var m := if n < 0 then 0 else n; |GetAllLines(n)| == 2 * m * (m + 1)
    ensures forall l :: l in GetAllLines(n) <==> IsGridLine(n, l)
    ensures NoDup(GetAllLines(n))
  {
    DrawnOrderSpec(n);
    var all := DrawnOrder(n);
    forall k | 0 <= k < |all| ensures GetAllLines(n)[k] == all[k] {
      assert all[k] in all;
    }
    assert GetAllLines(n) == all;
  }
}
