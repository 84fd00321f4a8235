/** The two computations inside the board game's view code: the snake-shaped
    order in which the squares are laid out on the grid, and the dots of the
    die face. */
module BoardView {
  import opened Optional

  function Min(a: int, b: int): int
  {
    if a < b then a else b
  }

  // ---------------------------------------------------------------- snake layout

  /** `row * cols`, spelled out as repeated addition so that the proofs about
      rows stay within linear arithmetic. */
  function Offset(row: int, cols: nat): nat
    decreases row
  {
    if row <= 0 then 0 else Offset(row - 1, cols) + cols
  }

  lemma {:induction false} OffsetIsProduct(row: int, cols: nat)
    requires row >= 0
    ensures Offset(row, cols) == row * cols
    decreases row
  {
    if row > 0 {
      OffsetIsProduct(row - 1, cols);
      assert (row - 1) * cols + cols == row * cols;
    }
  }

  lemma {:induction false} OffsetMonotone(a: int, b: int, cols: nat)
    requires 0 <= a <= b
    ensures Offset(a, cols) <= Offset(b, cols)
    decreases b - a
  {
    if a < b {
      OffsetMonotone(a, b - 1, cols);
    }
  }

  /** The number of rows of a board `cols` squares wide: rows of `cols`
      squares each, the last one possibly shorter. */
  function Rows(n: nat, cols: nat): nat
    requires cols > 0
    decreases n
  {
    if n == 0 then 0 else if n <= cols then 1 else Rows(n - cols, cols) + 1
  }

  /** The rows cover the board, and the last one is not empty. */
  lemma {:induction false} RowsCover(n: nat, cols: nat)
    requires cols > 0
    ensures Rows(n, cols) == 0 <==> n == 0
    ensures Offset(Rows(n, cols), cols) >= n
    ensures n > 0 ==> Offset(Rows(n, cols) - 1, cols) < n
    decreases n
  {
    if n > cols {
      RowsCover(n - cols, cols);
    }
  }

  /** It is `Math.ceil(n / cols)`, which the source writes as a division. */
  lemma {:induction false} RowsIsCeiling(n: nat, cols: nat)
    requires cols > 0
    ensures Rows(n, cols) == (n + cols - 1) / cols
    decreases n
  {
    if n > cols {
      RowsIsCeiling(n - cols, cols);
      DivStep(n - 1, cols);
    } else if n > 0 {
      assert (n + cols - 1) / cols == 1 by {
        assert cols <= n + cols - 1 < 2 * cols;
      }
    }
  }

  lemma {:induction false} DivStep(x: nat, d: nat)
    requires d > 0
    ensures (x + d) / d == x / d + 1
  {
    var q, q' := x / d, (x + d) / d;
    assert (q' - q - 1) * d == x % d - (x + d) % d;
    SmallMultiple(q' - q - 1, d);
  }

  lemma {:induction false} SmallMultiple(k: int, d: int)
    requires d > 0 && -d < k * d < d
    ensures k == 0
  {
  }

  /** Where row `row` begins and ends in the board order, clamped to the board
      as `slice` clamps. */
  function RowStart(n: nat, cols: nat, row: int): nat
  {
    if row <= 0 then 0 else Min(Offset(row, cols), n)
  }

  function RowEnd(n: nat, cols: nat, row: int): nat
  {
    if row < 0 then 0 else Min(Offset(row, cols) + cols, n)
  }

  /** `squares.slice(row * cols, min(row * cols + cols, n))`. */
  function RowOf<T>(squares: seq<T>, cols: nat, row: int): (r: seq<T>)
    ensures RowStart(|squares|, cols, row) <= RowEnd(|squares|, cols, row) ==>
              r == squares[RowStart(|squares|, cols, row)..RowEnd(|squares|, cols, row)]
    ensures RowEnd(|squares|, cols, row) < RowStart(|squares|, cols, row) ==> r == []
  {
    var start, end := RowStart(|squares|, cols, row), RowEnd(|squares|, cols, row);
    if start <= end then squares[start..end] else []
  }

  /** The sequence in reverse order. */
  function Reversed<T>(s: seq<T>): (r: seq<T>)
    ensures |r| == |s|
  {
    if s == [] then [] else Reversed(s[1..]) + [s[0]]
  }

  /** Element `k` of the reversed sequence is element `|s| - 1 - k` of `s`. */
  lemma {:induction false} ReversedAt<T>(s: seq<T>, k: int)
    requires 0 <= k < |s|
    ensures Reversed(s)[k] == s[|s| - 1 - k]
    decreases |s|
  {
    if k < |s| - 1 {
      ReversedAt(s[1..], k);
    }
  }

  lemma {:induction false} ReversedIs<T>(s: seq<T>)
    ensures forall k :: 0 <= k < |s| ==> Reversed(s)[k] == s[|s| - 1 - k]
  {
    forall k | 0 <= k < |s|
      ensures Reversed(s)[k] == s[|s| - 1 - k]
    {
      ReversedAt(s, k);
    }
  }

  /** The row as it is laid out: reversed, or in board order. */
  function Oriented<T>(r: seq<T>, reversed: bool): (o: seq<T>)
    ensures |o| == |r|
  {
    if reversed then Reversed(r) else r
  }

  /** Whether row `row` of `rows` rows is laid out reversed: the rows an odd
      number of rows up from the last one are. */
  predicate ReversedRow(rows: int, row: int)
  {
    (rows - 1 - row) % 2 == 1
  }

  /** The board cut into its rows, in board order. */
  function Chunks<T>(squares: seq<T>, cols: nat): (rows: seq<seq<T>>)
    requires cols > 0
    ensures |rows| == Rows(|squares|, cols)
  {
    ChunksUpTo(squares, cols, Rows(|squares|, cols))
  }

  /** Rows 0 to `k - 1` of the board. */
  function ChunksUpTo<T>(squares: seq<T>, cols: nat, k: nat): (rows: seq<seq<T>>)
    ensures |rows| == k
  {
    if k == 0 then [] else ChunksUpTo(squares, cols, k - 1) + [RowOf(squares, cols, k - 1)]
  }

  lemma {:induction false} ChunkAt<T>(squares: seq<T>, cols: nat, k: nat, r: int)
    requires 0 <= r < k
    ensures ChunksUpTo(squares, cols, k)[r] == RowOf(squares, cols, r)
  {
    if r < k - 1 {
      ChunkAt(squares, cols, k - 1, r);
    }
  }

  /** Entry `r` of the rows is row `r` of the board. */
  lemma {:induction false} ChunkIs<T>(squares: seq<T>, cols: nat, r: int)
    requires cols > 0 && 0 <= r < Rows(|squares|, cols)
    ensures Chunks(squares, cols)[r] == RowOf(squares, cols, r)
  {
    ChunkAt(squares, cols, Rows(|squares|, cols), r);
  }

  /** Rows `row` down to 0, each oriented. */
  function Layout<T>(rows: seq<seq<T>>, row: int): seq<T>
    requires row < |rows|
    decreases row + 1
  {
    if row < 0 then []
    else Oriented(rows[row], ReversedRow(|rows|, row)) + Layout(rows, row - 1)
  }

  /** The order of the squares on the grid in `renderBoard`: rows from the last
      one down to row 0. */
  function Snake<T>(squares: seq<T>, cols: nat): seq<T>
    requires cols > 0
  {
    Layout(Chunks(squares, cols), Rows(|squares|, cols) - 1)
  }

  /** Reversing keeps the elements. */
  lemma {:induction false} ReversedPermutes<T>(s: seq<T>)
    ensures multiset(Reversed(s)) == multiset(s)
  {
    if s != [] {
      ReversedPermutes(s[1..]);
      assert s == [s[0]] + s[1..];
    }
  }

  /** Consecutive rows meet: the end of one row is the start of the next. */
  lemma {:induction false} RowsMeet(n: nat, cols: nat, row: int)
    requires cols > 0 && row >= 0
    ensures RowEnd(n, cols, row - 1) == RowStart(n, cols, row)
    ensures RowStart(n, cols, row) <= RowEnd(n, cols, row)
  {
  }

  lemma {:induction false} RowEndMonotone(n: nat, cols: nat, r: int, top: int)
    requires cols > 0 && 0 <= r <= top
    ensures RowEnd(n, cols, r) <= RowEnd(n, cols, top)
    decreases top - r
  {
    if r < top {
      RowsMeet(n, cols, top);
      RowEndMonotone(n, cols, r, top - 1);
    }
  }

  /** Rows 0 up to `row`, each in board order. */
  function Flatten<T>(rows: seq<seq<T>>, row: int): seq<T>
    requires row < |rows|
    decreases row + 1
  {
    if row < 0 then [] else Flatten(rows, row - 1) + rows[row]
  }

  lemma {:induction false} PrefixStep<T>(s: seq<T>, mid: int, end: int)
    requires 0 <= mid <= end <= |s|
    ensures s[..end] == s[..mid] + s[mid..end]
  {
  }

  /** Rows 0 to `row` of the board are the board up to the end of row `row`. */
  lemma {:induction false} FlattenIsPrefix<T>(squares: seq<T>, cols: nat, row: int)
    requires cols > 0 && row < Rows(|squares|, cols)
    ensures Flatten(Chunks(squares, cols), row) == squares[..RowEnd(|squares|, cols, row)]
    decreases row + 1
  {
    if row >= 0 {
      RowsMeet(|squares|, cols, row);
      ChunkIs(squares, cols, row);
      FlattenIsPrefix(squares, cols, row - 1);
      PrefixStep(squares, RowStart(|squares|, cols, row), RowEnd(|squares|, cols, row));
    }
  }

  /** Putting one more row, oriented, in front of a permutation of the rows below. */
  lemma {:induction false} RowStepPermutes<T>(r: seq<T>, reversed: bool, rest: seq<T>, before: seq<T>)
    requires multiset(rest) == multiset(before)
    ensures multiset(Oriented(r, reversed) + rest) == multiset(before + r)
  {
    ReversedPermutes(r);
    assert multiset(Oriented(r, reversed)) == multiset(r);
  }

  /** The rows from `row` down to 0, oriented, hold the elements of rows 0 to
      `row` in board order. */
  lemma {:induction false} LayoutPermutes<T>(rows: seq<seq<T>>, row: int)
    requires row < |rows|
    ensures multiset(Layout(rows, row)) == multiset(Flatten(rows, row))
    decreases row + 1
  {
    if row >= 0 {
      LayoutPermutes(rows, row - 1);
      RowStepPermutes(rows[row], ReversedRow(|rows|, row), Layout(rows, row - 1), Flatten(rows, row - 1));
    }
  }

  lemma {:induction false} LayoutLength<T>(rows: seq<seq<T>>, row: int)
    requires row < |rows|
    ensures |Layout(rows, row)| == |Flatten(rows, row)|
    decreases row + 1
  {
    if row >= 0 {
      LayoutLength(rows, row - 1);
    }
  }

  /** On a board of `n` squares, row `r` of the `Rows(n, cols)` rows runs
      from `r * cols` up to `min(r * cols + cols, n)`, and the last row ends
      the board. */
  lemma {:induction false} RowBounds(n: nat, cols: nat, r: int)
    requires cols > 0 && 0 <= r < Rows(n, cols)
    ensures RowStart(n, cols, r) == r * cols < n
    ensures RowEnd(n, cols, r) == Min(r * cols + cols, n)
    ensures RowEnd(n, cols, Rows(n, cols) - 1) == n
  {
    RowsCover(n, cols);
    OffsetIsProduct(r, cols);
    OffsetMonotone(r, Rows(n, cols) - 1, cols);
  }

  /** The last row ends the board. */
  lemma {:induction false} LastRowEnd(n: nat, cols: nat)
    requires cols > 0 && n > 0
    ensures RowEnd(n, cols, Rows(n, cols) - 1) == n
  {
    RowsCover(n, cols);
    assert Offset(Rows(n, cols), cols) == Offset(Rows(n, cols) - 1, cols) + cols;
  }

  /** The rows of the board, in board order, are the board. */
  lemma {:induction false} ChunksCover<T>(squares: seq<T>, cols: nat)
    requires cols > 0
    ensures Flatten(Chunks(squares, cols), Rows(|squares|, cols) - 1) == squares
  {
    if |squares| == 0 {
      assert Flatten(Chunks(squares, cols), -1) == [];
    } else {
      FlattenIsPrefix(squares, cols, Rows(|squares|, cols) - 1);
      LastRowEnd(|squares|, cols);
      assert squares[..|squares|] == squares;
    }
  }

  lemma {:induction false} SnakeLength<T>(squares: seq<T>, cols: nat)
    requires cols > 0
    ensures |Snake(squares, cols)| == |squares|
  {
    FlattenLength(squares, cols);
    LayoutLength(Chunks(squares, cols), Rows(|squares|, cols) - 1);
  }

  lemma {:induction false} FlattenLength<T>(squares: seq<T>, cols: nat)
    requires cols > 0
    ensures |Flatten(Chunks(squares, cols), Rows(|squares|, cols) - 1)| == |squares|
  {
    ChunksCover(squares, cols);
  }

  /** The layout shows every square exactly once: it is a permutation of the board. */
  lemma {:induction false} SnakePermutes<T>(squares: seq<T>, cols: nat)
    requires cols > 0
    ensures |Snake(squares, cols)| == |squares|
    ensures multiset(Snake(squares, cols)) == multiset(squares)
  {
    SnakeLength(squares, cols);
    assert Snake(squares, cols) == Layout(Chunks(squares, cols), Rows(|squares|, cols) - 1);
    LayoutPermutes(Chunks(squares, cols), Rows(|squares|, cols) - 1);
    FlattenMultiset(squares, cols);
  }

  lemma {:induction false} FlattenMultiset<T>(squares: seq<T>, cols: nat)
    requires cols > 0
    ensures multiset(Flatten(Chunks(squares, cols), Rows(|squares|, cols) - 1)) == multiset(squares)
  {
    ChunksCover(squares, cols);
  }

  /** Rows `top` down to just above row `r`, oriented as in `Layout`. */
  function Above<T>(rows: seq<seq<T>>, top: int, r: int): seq<T>
    requires 0 <= r && top < |rows|
    decreases top - r
  {
    if top <= r then [] else Oriented(rows[top], ReversedRow(|rows|, top)) + Above(rows, top - 1, r)
  }

  lemma {:induction false} EmptyFront<T>(e: seq<T>, o: seq<T>, b: seq<T>)
    requires e == []
    ensures e + o + b == o + b
  {
  }

  lemma {:induction false} SplitStep<T>(s: seq<T>, h: seq<T>, rest: seq<T>, above: seq<T>, a: seq<T>, o: seq<T>, b: seq<T>)
    requires s == h + rest && above == h + a && rest == a + o + b
    ensures s == above + o + b
  {
  }

  /** Rows `top` down to 0 split at row `r`: the rows above it, row `r`
      itself, the rows below it. */
  lemma {:induction false} LayoutSplit<T>(rows: seq<seq<T>>, top: int, r: int)
    requires 0 <= r <= top < |rows|
    ensures Layout(rows, top)
            == Above(rows, top, r) + Oriented(rows[r], ReversedRow(|rows|, r)) + Layout(rows, r - 1)
    decreases top - r
  {
    if r == top {
      EmptyFront(Above(rows, top, r), Oriented(rows[r], ReversedRow(|rows|, r)), Layout(rows, r - 1));
    } else {
      LayoutSplit(rows, top - 1, r);
      SplitStep(Layout(rows, top), Oriented(rows[top], ReversedRow(|rows|, top)), Layout(rows, top - 1),
                Above(rows, top, r), Above(rows, top - 1, r), Oriented(rows[r], ReversedRow(|rows|, r)),
                Layout(rows, r - 1));
    }
  }

  lemma {:induction false} SplitLength<T>(s: seq<T>, a: seq<T>, o: seq<T>, b: seq<T>)
    requires s == a + o + b
    ensures |a| == |s| - |o| - |b|
  {
  }

  /** The layout split at row `r` of the board. */
  lemma {:induction false} SnakeSplit<T>(squares: seq<T>, cols: nat, r: int)
    requires cols > 0 && 0 <= r < Rows(|squares|, cols)
    ensures Snake(squares, cols)
            == Above(Chunks(squares, cols), Rows(|squares|, cols) - 1, r)
               + Oriented(Chunks(squares, cols)[r], ReversedRow(|Chunks(squares, cols)|, r))
               + Layout(Chunks(squares, cols), r - 1)
  {
    assert Snake(squares, cols) == Layout(Chunks(squares, cols), Rows(|squares|, cols) - 1);
    LayoutSplit(Chunks(squares, cols), Rows(|squares|, cols) - 1, r);
  }

  /** Row `r` of the board has `RowEnd(r) - RowStart(r)` squares. */
  lemma {:induction false} ChunkLength<T>(squares: seq<T>, cols: nat, r: int)
    requires cols > 0 && 0 <= r < Rows(|squares|, cols)
    ensures |Chunks(squares, cols)[r]| == RowEnd(|squares|, cols, r) - RowStart(|squares|, cols, r)
  {
    RowsMeet(|squares|, cols, r);
    ChunkIs(squares, cols, r);
  }

  /** The rows below row `r` fill `RowStart(r)` places. */
  lemma {:induction false} BelowLength<T>(squares: seq<T>, cols: nat, r: int)
    requires cols > 0 && 0 <= r < Rows(|squares|, cols)
    ensures |Layout(Chunks(squares, cols), r - 1)| == RowStart(|squares|, cols, r)
  {
    LayoutLength(Chunks(squares, cols), r - 1);
    FlattenIsPrefix(squares, cols, r - 1);
    RowsMeet(|squares|, cols, r);
  }

  /** The rows above row `r`, row `r` and the rows below it share out the
      length of the layout. */
  lemma {:induction false} AboveLayoutLength<T>(rows: seq<seq<T>>, top: int, r: int)
    requires 0 <= r <= top < |rows|
    ensures |Above(rows, top, r)| == |Layout(rows, top)| - |rows[r]| - |Layout(rows, r - 1)|
  {
    LayoutSplit(rows, top, r);
    SplitLength(Layout(rows, top), Above(rows, top, r), Oriented(rows[r], ReversedRow(|rows|, r)),
                Layout(rows, r - 1));
  }

  /** The rows above row `r` fill the first `n - RowEnd(r)` places of the layout. */
  lemma {:induction false} AboveLength<T>(squares: seq<T>, cols: nat, r: int)
    requires cols > 0 && 0 <= r < Rows(|squares|, cols)
    ensures |Above(Chunks(squares, cols), Rows(|squares|, cols) - 1, r)| == |squares| - RowEnd(|squares|, cols, r)
  {
    SnakeLength(squares, cols);
    assert |Layout(Chunks(squares, cols), Rows(|squares|, cols) - 1)| == |squares|;
    ChunkLength(squares, cols, r);
    BelowLength(squares, cols, r);
    AboveLayoutLength(Chunks(squares, cols), Rows(|squares|, cols) - 1, r);
  }

  /** The layout is the rows above row `r`, then row `r` itself, reversed
      exactly when `rows - 1 - r` is odd, then the rows below it; the rows
      above fill the first `n - RowEnd(r)` places. */
  lemma {:induction false} SnakeRows<T>(squares: seq<T>, cols: nat, r: int)
    requires cols > 0 && 0 <= r < Rows(|squares|, cols)
    ensures Snake(squares, cols)
            == Above(Chunks(squares, cols), Rows(|squares|, cols) - 1, r)
               + Oriented(RowOf(squares, cols, r), ReversedRow(Rows(|squares|, cols), r))
               + Layout(Chunks(squares, cols), r - 1)
    ensures |Above(Chunks(squares, cols), Rows(|squares|, cols) - 1, r)| == |squares| - RowEnd(|squares|, cols, r)
  {
    SnakeSplit(squares, cols, r);
    ChunkIs(squares, cols, r);
    Replace(Snake(squares, cols), Above(Chunks(squares, cols), Rows(|squares|, cols) - 1, r),
            Oriented(Chunks(squares, cols)[r], ReversedRow(|Chunks(squares, cols)|, r)),
            Oriented(RowOf(squares, cols, r), ReversedRow(Rows(|squares|, cols), r)),
            Layout(Chunks(squares, cols), r - 1));
    AboveLength(squares, cols, r);
  }

  lemma {:induction false} Replace<T>(s: seq<T>, a: seq<T>, o: seq<T>, o': seq<T>, b: seq<T>)
    requires s == a + o + b && o == o'
    ensures s == a + o' + b
  {
  }

  /** A layout opens with the first element of its last row, which is never
      reversed. */
  lemma {:induction false} LayoutHead<T>(rows: seq<seq<T>>, top: int)
    requires top == |rows| - 1 && 0 <= top && |rows[top]| > 0
    ensures |Layout(rows, top)| > 0
    ensures Layout(rows, top)[0] == rows[top][0]
  {
    assert !ReversedRow(|rows|, top);
    HeadOf(Layout(rows, top), [], rows[top], Layout(rows, top - 1));
  }

  /** A layout closes with row 0, as laid out. */
  lemma {:induction false} LayoutTail<T>(rows: seq<seq<T>>, top: int)
    requires top == |rows| - 1 && 0 <= top && |rows[0]| > 0
    ensures |Layout(rows, top)| > 0
    ensures Layout(rows, top)[|Layout(rows, top)| - 1] == Oriented(rows[0], ReversedRow(|rows|, 0))[|rows[0]| - 1]
  {
    LayoutSplit(rows, top, 0);
    LastOf(Layout(rows, top), Above(rows, top, 0), Oriented(rows[0], ReversedRow(|rows|, 0)), Layout(rows, -1));
  }

  /** The last row of the board is not empty and starts at `RowStart`. */
  lemma {:induction false} TopRowHead<T>(squares: seq<T>, cols: nat)
    requires cols > 0 && |squares| > 0
    ensures |Chunks(squares, cols)[Rows(|squares|, cols) - 1]| > 0
    ensures Chunks(squares, cols)[Rows(|squares|, cols) - 1][0]
            == squares[RowStart(|squares|, cols, Rows(|squares|, cols) - 1)]
  {
    RowBounds(|squares|, cols, Rows(|squares|, cols) - 1);
    ChunkIs(squares, cols, Rows(|squares|, cols) - 1);
  }

  /** The last row is never reversed, so the first square drawn is the first
      square of the last row. */
  lemma {:induction false} FirstDrawn<T>(squares: seq<T>, cols: nat)
    requires cols > 0 && |squares| > 0
    ensures |Snake(squares, cols)| > 0 && RowStart(|squares|, cols, Rows(|squares|, cols) - 1) < |squares|
    ensures Snake(squares, cols)[0] == squares[RowStart(|squares|, cols, Rows(|squares|, cols) - 1)]
  {
    TopRowHead(squares, cols);
    assert Snake(squares, cols) == Layout(Chunks(squares, cols), Rows(|squares|, cols) - 1);
    LayoutHead(Chunks(squares, cols), Rows(|squares|, cols) - 1);
  }

  /** Row 0 of the board is not empty. */
  lemma {:induction false} BottomRowNonEmpty<T>(squares: seq<T>, cols: nat)
    requires cols > 0 && |squares| > 0
    ensures |Chunks(squares, cols)[0]| > 0
  {
    RowBounds(|squares|, cols, 0);
    ChunkIs(squares, cols, 0);
  }

  /** Row 0 as laid out ends with square 0 when it is reversed, otherwise with
      its own last square. */
  lemma {:induction false} BottomRowTail<T>(squares: seq<T>, cols: nat)
    requires cols > 0 && |squares| > 0
    ensures |Chunks(squares, cols)[0]| > 0
    ensures Oriented(Chunks(squares, cols)[0], ReversedRow(|Chunks(squares, cols)|, 0))[|Chunks(squares, cols)[0]| - 1]
            == if ReversedRow(Rows(|squares|, cols), 0) then squares[0] else squares[RowEnd(|squares|, cols, 0) - 1]
  {
    RowBounds(|squares|, cols, 0);
    ChunkIs(squares, cols, 0);
    assert Chunks(squares, cols)[0] == squares[0..RowEnd(|squares|, cols, 0)];
    OrientedLast(Chunks(squares, cols)[0], ReversedRow(|Chunks(squares, cols)|, 0));
  }

  /** The last square drawn closes row 0: square 0 when row 0 is reversed,
      otherwise the last square of row 0. */
  lemma {:induction false} LastDrawn<T>(squares: seq<T>, cols: nat)
    requires cols > 0 && |squares| > 0
    ensures |Snake(squares, cols)| > 0
    ensures Snake(squares, cols)[|Snake(squares, cols)| - 1]
            == if ReversedRow(Rows(|squares|, cols), 0) then squares[0] else squares[RowEnd(|squares|, cols, 0) - 1]
  {
    BottomRowNonEmpty(squares, cols);
    assert Snake(squares, cols) == Layout(Chunks(squares, cols), Rows(|squares|, cols) - 1);
    LayoutTail(Chunks(squares, cols), Rows(|squares|, cols) - 1);
    BottomRowTail(squares, cols);
  }

  /** On the 30-square, 5-column board the first square drawn is square 25 and
      the last one is square 0, so START is the bottom-right cell. */
  lemma {:induction false} StartCorner<T>(squares: seq<T>)
    requires |squares| == 30
    ensures |Snake(squares, 5)| == 30
    ensures Snake(squares, 5)[0] == squares[25] && Snake(squares, 5)[29] == squares[0]
  {
    SnakeLength(squares, 5);
    SixRows(squares);
    FirstDrawn(squares, 5);
    LastDrawn(squares, 5);
  }

  /** Thirty squares in five columns make six rows; the last one starts at
      square 25 and row 0 is reversed. */
  lemma {:induction false} SixRows<T>(squares: seq<T>)
    requires |squares| == 30
    ensures Rows(|squares|, 5) == 6
    ensures RowStart(|squares|, 5, Rows(|squares|, 5) - 1) == 25
    ensures ReversedRow(Rows(|squares|, 5), 0)
  {
    RowsIsCeiling(|squares|, 5);
    OffsetIsProduct(5, 5);
  }

  lemma {:induction false} OrientedLast<T>(r: seq<T>, reversed: bool)
    requires |r| > 0
    ensures Oriented(r, reversed)[|r| - 1] == if reversed then r[0] else r[|r| - 1]
  {
    ReversedAt(r, |r| - 1);
  }

  lemma {:induction false} HeadOf<T>(s: seq<T>, a: seq<T>, o: seq<T>, b: seq<T>)
    requires s == a + o + b && a == [] && |o| > 0
    ensures s[0] == o[0]
  {
  }

  lemma {:induction false} LastOf<T>(s: seq<T>, a: seq<T>, o: seq<T>, b: seq<T>)
    requires s == a + o + b && b == [] && |o| > 0
    ensures s[|s| - 1] == o[|o| - 1]
  {
  }

  /** Reverses the array in place, swapping from both ends. */
  method ReverseInPlace<T>(a: array<T>)
    modifies a
    ensures a[..] == Reversed(old(a[..]))
  {
    var i := 0;
    while i < a.Length / 2
      invariant 0 <= i <= a.Length / 2
      invariant forall k :: 0 <= k < i ==> a[k] == old(a[a.Length - 1 - k]) && a[a.Length - 1 - k] == old(a[k])
      invariant forall k :: i <= k < a.Length - i ==> a[k] == old(a[k])
    {
      a[i], a[a.Length - 1 - i] := a[a.Length - 1 - i], a[i];
      i := i + 1;
    }
    ReversedIs(old(a[..]));
  }

  /** `squares.slice(start, end)`, copied into a fresh array. */
  method Slice<T>(squares: seq<T>, start: nat, end: nat) returns (a: array<T>)
    requires start <= end <= |squares|
    ensures fresh(a) && a[..] == squares[start..end]
  {
    a := new T[end - start](k requires 0 <= k < end - start => squares[start + k]);
  }

  /** One pass of the ordering loop of `renderBoard`: row `row` sliced out of
      the board, reversed in place when its distance from the last row is odd. */
  method OrientedRow<T>(squares: seq<T>, cols: nat, rows: int, row: int) returns (rowSquares: array<T>)
    requires cols > 0 && 0 <= row < rows == Rows(|squares|, cols)
    ensures fresh(rowSquares)
    ensures rowSquares[..] == Oriented(RowOf(squares, cols, row), ReversedRow(rows, row))
  {
    var start := row * cols;
    var end := Min(start + cols, |squares|);
    RowBounds(|squares|, cols, row);
    rowSquares := Slice(squares, start, end);
    assert rowSquares[..] == RowOf(squares, cols, row);
    var rowFromBottom := rows - 1 - row;
    if rowFromBottom % 2 == 1 {
      ReverseInPlace(rowSquares);
      assert ReversedRow(rows, row);
    } else {
      assert !ReversedRow(rows, row);
    }
  }

  /** `Math.ceil(n / cols)`, on integers. */
  method RowCount(n: nat, cols: nat) returns (rows: int)
    requires cols > 0
    ensures rows == Rows(n, cols)
  {
    rows := (n + cols - 1) / cols;
    RowsIsCeiling(n, cols);
  }

  /** The ordering loop of `renderBoard`: rows from the last down to the first,
      each oriented and appended. */
  method OrderSquares<T>(squares: seq<T>, cols: nat) returns (ordered: seq<T>)
    requires cols > 0
    ensures ordered == Snake(squares, cols)
  {
    var rows := RowCount(|squares|, cols);
    ghost var chunks := Chunks(squares, cols);
    assert |chunks| == rows;
    ordered := [];
    var row := rows - 1;
    while row >= 0
      invariant -1 <= row < rows
      invariant ordered + Layout(chunks, row) == Layout(chunks, rows - 1)
      decreases row + 1
    {
      var rowSquares := OrientedRow(squares, cols, rows, row);
      ChunkIs(squares, cols, row);
      assert rowSquares[..] == Oriented(chunks[row], ReversedRow(|chunks|, row));
      OrderStep(ordered, rowSquares[..], Layout(chunks, row), Layout(chunks, row - 1));
      ordered := ordered + rowSquares[..];
      row := row - 1;
    }
  }

  lemma {:induction false} OrderStep<T>(ordered: seq<T>, piece: seq<T>, rest: seq<T>, below: seq<T>)
    requires rest == piece + below
    ensures ordered + rest == (ordered + piece) + below
  {
  }

  // ---------------------------------------------------------------- die face

  /** A cell of the 3 by 3 die grid. */
  datatype Cell = Cell(row: int, col: int)

  /** `DICE_DOTS[value]`: the cells that carry a dot, for the six faces only. */
  function DiceDots(value: int): (dots: Option<seq<Cell>>)
    ensures dots.Some? <==> 1 <= value <= 6
  {
    if value == 1 then Some([Cell(1, 1)])
    else if value == 2 then Some([Cell(0, 2), Cell(2, 0)])
    else if value == 3 then Some([Cell(0, 2), Cell(1, 1), Cell(2, 0)])
    else if value == 4 then Some([Cell(0, 0), Cell(0, 2), Cell(2, 0), Cell(2, 2)])
    else if value == 5 then Some([Cell(0, 0), Cell(0, 2), Cell(1, 1), Cell(2, 0), Cell(2, 2)])
    else if value == 6 then Some([Cell(0, 0), Cell(0, 1), Cell(0, 2), Cell(2, 0), Cell(2, 1), Cell(2, 2)])
    else None
  }

  /** What the die shows: the `?` placeholder, or the 3 by 3 grid of cells with
      `true` where a dot is drawn. */
  datatype DiceFace = Placeholder | Grid(cells: seq<seq<bool>>)

  /** The face `renderDice` draws for the die value (`None` is `null`). A falsy
      value (none, or 0) draws the placeholder; a value without an entry draws
      an empty grid. */
  function RenderDice(value: Option<int>): (face: DiceFace)
    ensures face.Placeholder? <==> value.None? || value.value == 0
    ensures face.Grid? ==> |face.cells| == 3 && forall r :: 0 <= r < 3 ==> |face.cells[r]| == 3
    ensures face.Grid? ==>
              forall r, c :: 0 <= r < 3 && 0 <= c < 3 ==>
                (face.cells[r][c] <==> DiceDots(value.value).Some? && Cell(r, c) in DiceDots(value.value).value)
  {
    if value.None? || value.value == 0 then Placeholder
    else
      var dots := match DiceDots(value.value) case Some(d) => d case None => [];
      Grid(seq(3, r => seq(3, c => Cell(r, c) in dots)))
  }

  /** The dot lists hold distinct cells. */
  predicate DistinctCells(dots: seq<Cell>)
  {
    forall i, j :: 0 <= i < j < |dots| ==> dots[i] != dots[j]
  }

  /** Each of the six faces lists exactly as many cells as its value, all
      distinct and all inside the grid. */
  lemma {:induction false} DiceDotsShape(value: int)
    requires 1 <= value <= 6
    ensures var dots := DiceDots(value).value;
            && |dots| == value
            && DistinctCells(dots)
            && forall k :: 0 <= k < |dots| ==> 0 <= dots[k].row < 3 && 0 <= dots[k].col < 3
  {
  }

  function CountTrue(bs: seq<bool>): nat
  {
    if bs == [] then 0 else (if bs[0] then 1 else 0) + CountTrue(bs[1..])
  }

  lemma {:induction false} CountRow(a: bool, b: bool, c: bool)
    ensures CountTrue([a, b, c]) == (if a then 1 else 0) + (if b then 1 else 0) + (if c then 1 else 0)
  {
    assert [a, b, c][1..] == [b, c] && [b, c][1..] == [c] && [c][1..] == [];
    assert CountTrue([c]) == (if c then 1 else 0);
    assert CountTrue([b, c]) == (if b then 1 else 0) + CountTrue([c]);
  }

  /** The number of dots drawn on a face. */
  function DotCount(face: DiceFace): nat
  {
    match face
    case Placeholder => 0
    case Grid(cells) =>
      if |cells| == 3 then CountTrue(cells[0]) + CountTrue(cells[1]) + CountTrue(cells[2]) else 0
  }

  /** A face is the grid `e` when `e` marks exactly the value's dot cells. */
  lemma {:induction false} FaceIs(value: int, e: seq<seq<bool>>)
    requires value != 0 && |e| == 3 && |e[0]| == 3 && |e[1]| == 3 && |e[2]| == 3
    requires forall r, c :: 0 <= r < 3 && 0 <= c < 3 ==>
               (e[r][c] <==> DiceDots(value).Some? && Cell(r, c) in DiceDots(value).value)
    ensures RenderDice(Some(value)) == Grid(e)
  {
    var cells := RenderDice(Some(value)).cells;
    assert cells[0] == e[0] && cells[1] == e[1] && cells[2] == e[2];
  }

  /** The face of a die value between 1 and 6 draws exactly that many dots;
      any other non-zero value draws none. */
  lemma {:induction false} DiceFaceDots(value: int)
    requires value != 0
    ensures 1 <= value <= 6 ==> DotCount(RenderDice(Some(value))) == value
    ensures !(1 <= value <= 6) ==>
              RenderDice(Some(value)) == Grid([[false, false, false], [false, false, false], [false, false, false]])
  {
    var o, x := false, true;
    CountRow(o, o, o); CountRow(o, x, o); CountRow(o, o, x); CountRow(x, o, o);
    CountRow(x, o, x); CountRow(x, x, x);
    var e :=
      if value == 1 then [[o, o, o], [o, x, o], [o, o, o]]
      else if value == 2 then [[o, o, x], [o, o, o], [x, o, o]]
      else if value == 3 then [[o, o, x], [o, x, o], [x, o, o]]
      else if value == 4 then [[x, o, x], [o, o, o], [x, o, x]]
      else if value == 5 then [[x, o, x], [o, x, o], [x, o, x]]
      else if value == 6 then [[x, x, x], [o, o, o], [x, x, x]]
      else [[o, o, o], [o, o, o], [o, o, o]];
    FaceIs(value, e);
  }
}
