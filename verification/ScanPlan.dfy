/** The 2D scan planner (src/experiment_control/scan_plan.py): the order in which the
    cells of a rows x cols grid are visited, for every pattern and both axis orders. */
module ScanPlan {
  import opened OrderedDict

  datatype Cell = Cell(row: int, col: int)
  datatype Pattern = Raster | Serpentine | Random | CenterOut
  datatype Order = RowMajor | ColMajor
  datatype ScanError = EmptyX | EmptyY
  datatype Result<T> = Ok(value: T) | Err(error: ScanError)
  datatype Record = Record(x: real, y: real, row: int, col: int, index: nat, u: real, v: real, count: nat)

  // ---------------------------------------------------------------- grid and lines

  ghost function Grid(rows: nat, cols: nat): set<Cell> {
    set r, c | 0 <= r < rows && 0 <= c < cols :: Cell(r, c)
  }

  /** Every grid cell is visited exactly once and nothing else is visited. */
  ghost predicate VisitsEachOnce(cells: seq<Cell>, rows: nat, cols: nat) {
    multiset(cells) == multiset(Grid(rows, cols))
  }

  // A scan runs along lines: `Width` cells per line, `Height` lines.
  function Width(order: Order, rows: nat, cols: nat): nat { if order == RowMajor then cols else rows }

  function Height(order: Order, rows: nat, cols: nat): nat { if order == RowMajor then rows else cols }

  function Place(order: Order, line: int, pos: int): Cell {
    if order == RowMajor then Cell(line, pos) else Cell(pos, line)
  }

  function Line(order: Order, c: Cell): int { if order == RowMajor then c.row else c.col }

  function Pos(order: Order, c: Cell): int { if order == RowMajor then c.col else c.row }

  /** Odd lines of a serpentine run backwards. */
  function Bend(w: nat, line: int, pos: int): int { if line % 2 == 1 then w - 1 - pos else pos }

  /** The k-th cell of a raster, and of a serpentine, with lines of width w. */
  function RasterCell(order: Order, w: nat, k: nat): Cell
    requires w > 0
  {
    Place(order, k / w, k % w)
  }

  function SerpentineCell(order: Order, w: nat, k: nat): Cell
    requires w > 0
  {
    Place(order, k / w, Bend(w, k / w, k % w))
  }

  /** The closed-form position of a cell in the serpentine. */
  function SerpentineIndex(order: Order, w: nat, c: Cell): int {
    Line(order, c) * w + Bend(w, Line(order, c), Pos(order, c))
  }

  function RasterPlan(order: Order, rows: nat, cols: nat): seq<Cell>
    requires rows > 0 && cols > 0
  {
    var w := Width(order, rows, cols);
    seq(rows * cols, k requires 0 <= k => RasterCell(order, w, k))
  }

  function SerpentinePlan(order: Order, rows: nat, cols: nat): seq<Cell>
    requires rows > 0 && cols > 0
  {
    var w := Width(order, rows, cols);
    seq(rows * cols, k requires 0 <= k => SerpentineCell(order, w, k))
  }

  lemma MulMonotone(a: int, b: int, w: nat)
    ensures a <= b ==> a * w <= b * w
  {}

  lemma DivModUnique(q: nat, w: nat, r: nat)
    requires r < w
    ensures (q * w + r) / w == q && (q * w + r) % w == r
  {
    var k := q * w + r;
    assert k == (k / w) * w + k % w;
    MulMonotone(k / w + 1, q, w);
    MulMonotone(q + 1, k / w, w);
  }

  lemma LineInRange(k: nat, w: nat, h: nat)
    requires w > 0 && k < h * w
    ensures k / w < h
  {
    MulMonotone(h, k / w, w);
  }

  lemma IndexInRange(line: nat, pos: nat, w: nat, h: nat)
    requires line < h && pos < w
    ensures 0 <= line * w + pos < h * w
  {
    assert (line + 1) * w <= h * w;
  }

  lemma AreaCommutes(order: Order, rows: nat, cols: nat)
    ensures Height(order, rows, cols) * Width(order, rows, cols) == rows * cols
  {}

  // ---------------------------------------------------------------- each cell once

  lemma {:induction false} DistinctCount<T>(s: seq<T>, x: T)
    requires Distinct(s)
    ensures multiset(s)[x] == if x in s then 1 else 0
  {
    if s == [] {
    } else {
      var n := |s| - 1;
      assert s == s[..n] + [s[n]];
      DistinctCount(s[..n], x);
      assert s[n] !in s[..n];
    }
  }

  lemma OnceFromBijection(s: seq<Cell>, rows: nat, cols: nat)
    requires Distinct(s)
    requires forall c :: c in s <==> c in Grid(rows, cols)
    ensures VisitsEachOnce(s, rows, cols)
  {
    forall c ensures multiset(s)[c] == multiset(Grid(rows, cols))[c] {
      DistinctCount(s, c);
    }
  }

  /** Position and cell determine each other, so the serpentine is a bijection. */
  lemma SerpentineRoundTrip(order: Order, rows: nat, cols: nat, k: nat)
    requires rows > 0 && cols > 0 && k < rows * cols
    ensures var w := Width(order, rows, cols);
            var c := SerpentineCell(order, w, k);
            c in Grid(rows, cols) && SerpentineIndex(order, w, c) == k
  {
    var w, h := Width(order, rows, cols), Height(order, rows, cols);
    AreaCommutes(order, rows, cols);
    LineInRange(k, w, h);
  }

  lemma SerpentineInverse(order: Order, rows: nat, cols: nat, c: Cell)
    requires rows > 0 && cols > 0 && c in Grid(rows, cols)
    ensures var w := Width(order, rows, cols);
            var k := SerpentineIndex(order, w, c);
            0 <= k < rows * cols && SerpentineCell(order, w, k) == c
  {
    var w, h := Width(order, rows, cols), Height(order, rows, cols);
    AreaCommutes(order, rows, cols);
    var line, pos := Line(order, c), Bend(w, Line(order, c), Pos(order, c));
    IndexInRange(line, pos, w, h);
    DivModUnique(line, w, pos);
  }

  lemma SerpentineVisitsEachOnce(order: Order, rows: nat, cols: nat)
    requires rows > 0 && cols > 0
    ensures VisitsEachOnce(SerpentinePlan(order, rows, cols), rows, cols)
  {
    var s, w := SerpentinePlan(order, rows, cols), Width(order, rows, cols);
    forall k: nat | k < |s| ensures s[k] in Grid(rows, cols) && SerpentineIndex(order, w, s[k]) == k {
      SerpentineRoundTrip(order, rows, cols, k);
    }
    forall c | c in Grid(rows, cols) ensures c in s {
      SerpentineInverse(order, rows, cols, c);
      assert s[SerpentineIndex(order, w, c)] == c;
    }
    OnceFromBijection(s, rows, cols);
  }

  lemma RasterVisitsEachOnce(order: Order, rows: nat, cols: nat)
    requires rows > 0 && cols > 0
    ensures VisitsEachOnce(RasterPlan(order, rows, cols), rows, cols)
  {
    hide RasterCell, RasterIndex;
    var s, w := RasterPlan(order, rows, cols), Width(order, rows, cols);
    forall k: nat | k < |s| ensures s[k] in Grid(rows, cols) && RasterIndex(order, w, s[k]) == k {
      RasterRoundTrip(order, rows, cols, k);
    }
    forall c | c in Grid(rows, cols) ensures c in s {
      RasterInverse(order, rows, cols, c);
      assert s[RasterIndex(order, w, c)] == c;
    }
    OnceFromBijection(s, rows, cols);
  }

  function RasterIndex(order: Order, w: nat, c: Cell): int { Line(order, c) * w + Pos(order, c) }

  lemma RasterRoundTrip(order: Order, rows: nat, cols: nat, k: nat)
    requires rows > 0 && cols > 0 && k < rows * cols
    ensures var w := Width(order, rows, cols);
            var c := RasterCell(order, w, k);
            c in Grid(rows, cols) && RasterIndex(order, w, c) == k
  {
    AreaCommutes(order, rows, cols);
    LineInRange(k, Width(order, rows, cols), Height(order, rows, cols));
  }

  lemma RasterInverse(order: Order, rows: nat, cols: nat, c: Cell)
    requires rows > 0 && cols > 0 && c in Grid(rows, cols)
    ensures var w := Width(order, rows, cols);
            var k := RasterIndex(order, w, c);
            0 <= k < rows * cols && RasterCell(order, w, k) == c
  {
    var w := Width(order, rows, cols);
    AreaCommutes(order, rows, cols);
    IndexInRange(Line(order, c), Pos(order, c), w, Height(order, rows, cols));
    DivModUnique(Line(order, c), w, Pos(order, c));
  }

  /** The next position is one further along the line, or the start of the next line. */
  lemma NextOnLine(k: nat, w: nat)
    requires w > 0
    ensures if k % w + 1 < w then (k + 1) / w == k / w && (k + 1) % w == k % w + 1
            else (k + 1) / w == k / w + 1 && (k + 1) % w == 0
  {
    var line, pos := k / w, k % w;
    assert k == line * w + pos;
    if pos + 1 < w {
      DivModUnique(line, w, pos + 1);
    } else {
      assert (line + 1) * w == line * w + w;
      DivModUnique(line + 1, w, 0);
    }
  }

  function Abs(x: int): nat { if x < 0 then -x else x }

  function Manhattan(a: Cell, b: Cell): nat { Abs(a.row - b.row) + Abs(a.col - b.col) }

  /** The serpentine is a Hamiltonian path: consecutive cells are grid neighbours. */
  lemma SerpentineStepsToNeighbour(order: Order, rows: nat, cols: nat, k: nat)
    requires rows > 0 && cols > 0 && k + 1 < rows * cols
    ensures var w := Width(order, rows, cols);
            Manhattan(SerpentineCell(order, w, k), SerpentineCell(order, w, k + 1)) == 1
  {
    var w := Width(order, rows, cols);
    NextOnLine(k, w);
    assert Line(order, SerpentineCell(order, w, k)) == k / w;
  }

  // ---------------------------------------------------------------- center-out

  /** Squared distance to the grid centre. */
  function Radius2(c: Cell, rows: nat, cols: nat): real {
    var dr := c.row as real - (rows - 1) as real / 2.0;
    var dc := c.col as real - (cols - 1) as real / 2.0;
    dr * dr + dc * dc
  }

  function CenterRadius(rows: nat, cols: nat): Cell -> real {
    (c: Cell) => Radius2(c, rows, cols)
  }

  /** Order of the sort key (radius2, row, col). */
  predicate KeyLe(a: Cell, b: Cell, radius2: Cell -> real) {
    radius2(a) < radius2(b) ||
    (radius2(a) == radius2(b) && (a.row < b.row || (a.row == b.row && a.col <= b.col)))
  }

  ghost predicate KeySorted(s: seq<Cell>, radius2: Cell -> real) {
    forall i, j :: 0 <= i < j < |s| ==> KeyLe(s[i], s[j], radius2)
  }

  /** The built-in `sorted` with this key. */
  function SortedByKey(s: seq<Cell>, radius2: Cell -> real): (r: seq<Cell>)
    ensures multiset(r) == multiset(s) && KeySorted(r, radius2)
  {
    if s == [] then [] else
      assert s == [s[0]] + s[1..];
      InsertByKey(s[0], SortedByKey(s[1..], radius2), radius2)
  }

  function InsertByKey(c: Cell, s: seq<Cell>, radius2: Cell -> real): (r: seq<Cell>)
    requires KeySorted(s, radius2)
    ensures multiset(r) == multiset{c} + multiset(s) && KeySorted(r, radius2)
  {
    if s == [] then [c]
    else if KeyLe(c, s[0], radius2) then [c] + s
    else
      assert s == [s[0]] + s[1..];
      var t := InsertByKey(c, s[1..], radius2);
      assert forall x :: x in t ==> KeyLe(s[0], x, radius2) by { ElementsAfterInsert(c, s[1..], t); }
      [s[0]] + t
  }

  lemma ElementsAfterInsert(c: Cell, s: seq<Cell>, t: seq<Cell>)
    requires multiset(t) == multiset{c} + multiset(s)
    ensures forall x :: x in t ==> x == c || x in s
  {
    forall x | x in t ensures x == c || x in s {
      assert x in multiset(t);
    }
  }

  /** The key is a total order on cells, so a multiset of cells has one sorted listing. */
  lemma {:induction false} SortedUnique(a: seq<Cell>, b: seq<Cell>, radius2: Cell -> real)
    requires KeySorted(a, radius2) && KeySorted(b, radius2) && multiset(a) == multiset(b)
    ensures a == b
  {
    assert |multiset(a)| == |a| && |multiset(b)| == |b|;
    if a == [] {
    } else {
      hide KeyLe;
      FirstIsLeast(a, b, radius2);
      FirstIsLeast(b, a, radius2);
      KeyAntisymmetric(a[0], b[0], radius2);
      hide KeySorted;
      TailMultiset(a);
      TailMultiset(b);
      TailSorted(a, radius2);
      TailSorted(b, radius2);
      SortedUnique(a[1..], b[1..], radius2);
    }
  }

  lemma FirstIsLeast(a: seq<Cell>, b: seq<Cell>, radius2: Cell -> real)
    requires a != [] && b != [] && KeySorted(a, radius2) && multiset(a) == multiset(b)
    ensures b[0] == a[0] || KeyLe(a[0], b[0], radius2)
  {
    hide KeyLe;
    assert b[0] in multiset(a);
    var i :| 0 <= i < |a| && a[i] == b[0];
  }

  lemma KeyAntisymmetric(a: Cell, b: Cell, radius2: Cell -> real)
    requires (a == b || KeyLe(a, b, radius2)) && (a == b || KeyLe(b, a, radius2))
    ensures a == b
  {}

  lemma TailMultiset(s: seq<Cell>)
    requires s != []
    ensures multiset(s) == multiset{s[0]} + multiset(s[1..])
    ensures multiset(s[1..]) == multiset(s) - multiset{s[0]}
  {
    assert s == [s[0]] + s[1..];
  }

  lemma TailSorted(s: seq<Cell>, radius2: Cell -> real)
    requires s != [] && KeySorted(s, radius2)
    ensures KeySorted(s[1..], radius2)
  {
    hide KeyLe;
  }

  // ---------------------------------------------------------------- the whole plan

  function Coords(pattern: Pattern, order: Order, rows: nat, cols: nat, shuffle: seq<Cell> -> seq<Cell>): seq<Cell>
    requires rows > 0 && cols > 0
  {
    match pattern
    case Raster => RasterPlan(order, rows, cols)
    case Serpentine => SerpentinePlan(order, rows, cols)
    case Random => shuffle(RasterPlan(order, rows, cols))
    case CenterOut => SortedByKey(RasterPlan(order, rows, cols), CenterRadius(rows, cols))
  }

  ghost predicate IsShuffle(shuffle: seq<Cell> -> seq<Cell>) {
    forall s :: multiset(shuffle(s)) == multiset(s)
  }

  /** Every pattern, in both orders, under every shuffle, visits each cell exactly once. */
  lemma EveryPatternVisitsEachOnce(pattern: Pattern, order: Order, rows: nat, cols: nat,
                                   shuffle: seq<Cell> -> seq<Cell>)
    requires rows > 0 && cols > 0 && IsShuffle(shuffle)
    ensures VisitsEachOnce(Coords(pattern, order, rows, cols, shuffle), rows, cols)
    ensures |Coords(pattern, order, rows, cols, shuffle)| == rows * cols
  {
    RasterVisitsEachOnce(order, rows, cols);
    SerpentineVisitsEachOnce(order, rows, cols);
    var raster := RasterPlan(order, rows, cols);
    assert |multiset(raster)| == rows * cols;
    var plan := Coords(pattern, order, rows, cols, shuffle);
    assert |multiset(plan)| == |plan|;
  }

  /** Center-out moves outwards, breaks ties by (row, col), and ignores the axis order. */
  lemma CenterOutIgnoresOrder(rows: nat, cols: nat, shuffle: seq<Cell> -> seq<Cell>)
    requires rows > 0 && cols > 0
    ensures Coords(CenterOut, RowMajor, rows, cols, shuffle) == Coords(CenterOut, ColMajor, rows, cols, shuffle)
    ensures KeySorted(Coords(CenterOut, RowMajor, rows, cols, shuffle), CenterRadius(rows, cols))
    ensures forall i, j :: 0 <= i < j < |Coords(CenterOut, RowMajor, rows, cols, shuffle)| ==>
      var s := Coords(CenterOut, RowMajor, rows, cols, shuffle);
      Radius2(s[i], rows, cols) <= Radius2(s[j], rows, cols)
  {
    RasterVisitsEachOnce(RowMajor, rows, cols);
    RasterVisitsEachOnce(ColMajor, rows, cols);
    SortedUnique(Coords(CenterOut, RowMajor, rows, cols, shuffle),
                 Coords(CenterOut, ColMajor, rows, cols, shuffle), CenterRadius(rows, cols));
    var s := Coords(CenterOut, RowMajor, rows, cols, shuffle);
    forall i, j | 0 <= i < j < |s| ensures Radius2(s[i], rows, cols) <= Radius2(s[j], rows, cols) {
      assert KeyLe(s[i], s[j], CenterRadius(rows, cols));
    }
  }

  // ---------------------------------------------------------------- the orders by what they mean

  /** Earlier in the order of rows, or of columns. */
  predicate Before(order: Order, a: Cell, b: Cell) {
    match order
    case RowMajor => a.row < b.row || (a.row == b.row && a.col < b.col)
    case ColMajor => a.col < b.col || (a.col == b.col && a.row < b.row)
  }

  /** Row-major visits the rows one after another, column-major the columns. */
  lemma RasterIsLexicographic(order: Order, rows: nat, cols: nat, i: nat, j: nat)
    requires rows > 0 && cols > 0 && i < j < rows * cols
    ensures Before(order, RasterPlan(order, rows, cols)[i], RasterPlan(order, rows, cols)[j])
  {
    var w := Width(order, rows, cols);
    LinesAscend(i, j, w);
  }

  lemma LinesAscend(i: nat, j: nat, w: nat)
    requires w > 0 && i < j
    ensures i / w < j / w || (i / w == j / w && i % w < j % w)
  {
    assert i == i / w * w + i % w && j == j / w * w + j % w;
    assert (j / w + 1) * w == j / w * w + w;
    if i / w > j / w { MulMonotone(j / w + 1, i / w, w); }
  }

  /** The serpentine is the raster with every second line reversed: it starts at the origin, runs
      forwards on even lines and backwards on odd ones. */
  lemma SerpentineIsBentRaster(order: Order, rows: nat, cols: nat, line: nat, pos: nat)
    requires rows > 0 && cols > 0 && line < Height(order, rows, cols) && pos < Width(order, rows, cols)
    ensures var w := Width(order, rows, cols);
            var at := line * w + (if line % 2 == 0 then pos else w - 1 - pos);
            line * w + pos < rows * cols && 0 <= at < rows * cols &&
            SerpentinePlan(order, rows, cols)[line * w + pos] == RasterPlan(order, rows, cols)[at]
    ensures SerpentinePlan(order, rows, cols)[0] == RasterPlan(order, rows, cols)[0] == Cell(0, 0)
  {
    var w, h := Width(order, rows, cols), Height(order, rows, cols);
    AreaCommutes(order, rows, cols);
    IndexInRange(line, pos, w, h);
    IndexInRange(line, w - 1 - pos, w, h);
    DivModUnique(line, w, pos);
    DivModUnique(line, w, w - 1 - pos);
    DivModUnique(0, w, 0);
  }

  function Square(x: real): real { x * x }

  lemma SquareMonotone(a: real, b: real)
    requires 0.0 <= a && (a <= b || a <= -b)
    ensures Square(a) <= Square(b) && (Square(a) == Square(b) ==> a == b || a == -b)
  {
    var c := if b < 0.0 then -b else b;
    assert b * b == c * c;
    assert c * c - a * a == (c - a) * (c + a);
    if a < c { assert (c - a) * (c + a) > 0.0; }
  }

  /** Of the indices of an axis the middle one, rounded down, is nearest to its centre; an index as
      near lies beyond it. */
  lemma NearestIndex(i: int, n: nat)
    requires 0 <= i < n
    ensures var mid, centre := (n - 1) / 2, (n - 1) as real / 2.0;
            Square(mid as real - centre) <= Square(i as real - centre) &&
            (Square(mid as real - centre) == Square(i as real - centre) ==> mid <= i)
  {
    var mid, centre := (n - 1) / 2, (n - 1) as real / 2.0;
    var off := centre - mid as real;
    assert off == 0.0 || off == 0.5 by {
      assert n - 1 == 2 * mid || n - 1 == 2 * mid + 1;
      assert (n - 1) as real == 2.0 * mid as real || (n - 1) as real == 2.0 * mid as real + 1.0;
    }
    assert Square(off) == Square(mid as real - centre);
    assert i < mid ==> i as real <= mid as real - 1.0;
    assert i > mid ==> i as real >= mid as real + 1.0;
    SquareMonotone(off, i as real - centre);
    hide Square;
  }

  /** Center-out starts at the middle cell. */
  lemma CenterOutStartsAtCentre(rows: nat, cols: nat, shuffle: seq<Cell> -> seq<Cell>)
    requires rows > 0 && cols > 0
    ensures var s := Coords(CenterOut, RowMajor, rows, cols, shuffle);
            s != [] && s[0] == Cell((rows - 1) / 2, (cols - 1) / 2)
  {
    var s, mid := Coords(CenterOut, RowMajor, rows, cols, shuffle), Cell((rows - 1) / 2, (cols - 1) / 2);
    var radius2 := CenterRadius(rows, cols);
    RasterVisitsEachOnce(RowMajor, rows, cols);
    assert mid in Grid(rows, cols) && mid in multiset(s);
    var i :| 0 <= i < |s| && s[i] == mid;
    GridCells(s, rows, cols);
    MiddleIsFirst(s[0], rows, cols);
    KeyAntisymmetric(s[0], mid, radius2);
  }

  lemma MiddleIsFirst(c: Cell, rows: nat, cols: nat)
    requires 0 <= c.row < rows && 0 <= c.col < cols
    ensures KeyLe(Cell((rows - 1) / 2, (cols - 1) / 2), c, CenterRadius(rows, cols))
  {
    NearestIndex(c.row, rows);
    NearestIndex(c.col, cols);
  }

  /** Position on an axis scaled to [0, 1]; a one-point axis sits at 0. */
  function Unit(i: nat, n: nat): (u: real)
    requires i < n
    ensures 0.0 <= u <= 1.0
    ensures n > 1 ==> u * (n - 1) as real == i as real
  {
    if n > 1 then
      var d := (n - 1) as real;
      assert i as real <= d;
      assert i as real / d * d == i as real;
      i as real / d
    else 0.0
  }

  predicate RecordMatches(rec: Record, c: Cell, i: nat, total: nat, xs: seq<real>, ys: seq<real>) {
    0 <= c.row < |ys| && 0 <= c.col < |xs| &&
    rec == Record(xs[c.col], ys[c.row], c.row, c.col, i, Unit(c.col, |xs|), Unit(c.row, |ys|), total)
  }

  /** What a record says of its cell: column and row give x and y and, scaled to the axes, u and v. */
  ghost predicate Describes(rec: Record, c: Cell, i: nat, xs: seq<real>, ys: seq<real>) {
    rec.row == c.row && rec.col == c.col && rec.index == i && rec.count == |xs| * |ys| &&
    0 <= c.row < |ys| && 0 <= c.col < |xs| && rec.x == xs[c.col] && rec.y == ys[c.row] &&
    (if |xs| == 1 then rec.u == 0.0 else rec.u * (|xs| - 1) as real == c.col as real) &&
    (if |ys| == 1 then rec.v == 0.0 else rec.v * (|ys| - 1) as real == c.row as real)
  }

  lemma MatchingRecordDescribes(rec: Record, c: Cell, i: nat, xs: seq<real>, ys: seq<real>)
    requires RecordMatches(rec, c, i, |xs| * |ys|, xs, ys)
    ensures Describes(rec, c, i, xs, ys)
  {
    assert |xs| == 1 ==> Unit(c.col, 1) == 0.0;
    assert |ys| == 1 ==> Unit(c.row, 1) == 0.0;
    hide Unit;
  }

  method RasterCoords(order: Order, rows: nat, cols: nat) returns (coords: seq<Cell>)
    requires rows > 0 && cols > 0
    ensures coords == RasterPlan(order, rows, cols)
  {
    var w, h := Width(order, rows, cols), Height(order, rows, cols);
    AreaCommutes(order, rows, cols);
    coords := [];
    for line := 0 to h
      invariant |coords| == line * w
      invariant forall k :: 0 <= k < |coords| ==> coords[k] == RasterCell(order, w, k)
    {
      for pos := 0 to w
        invariant |coords| == line * w + pos
        invariant forall k :: 0 <= k < |coords| ==> coords[k] == RasterCell(order, w, k)
      {
        DivModUnique(line, w, pos);
        coords := coords + [Place(order, line, pos)];
      }
    }
  }

  method Reverse(s: seq<Cell>) returns (r: seq<Cell>)
    ensures |r| == |s| && forall i :: 0 <= i < |s| ==> r[i] == s[|s| - 1 - i]
  {
    r := [];
    for i := 0 to |s|
      invariant |r| == i && forall k :: 0 <= k < i ==> r[k] == s[|s| - 1 - k]
    {
      r := r + [s[|s| - 1 - i]];
    }
  }

  /** The plan grows by one line, bent where the line is odd. */
  lemma AppendLine(order: Order, w: nat, line: nat, out: seq<Cell>, cells: seq<Cell>)
    requires w > 0 && |out| == line * w && |cells| == w
    requires forall k :: 0 <= k < |out| ==> out[k] == SerpentineCell(order, w, k)
    requires forall pos :: 0 <= pos < w ==> cells[pos] == Place(order, line, Bend(w, line, pos))
    ensures |out + cells| == (line + 1) * w
    ensures forall k :: 0 <= k < |out + cells| ==> (out + cells)[k] == SerpentineCell(order, w, k)
  {
    hide Place, Bend;
    forall k | |out| <= k < |out| + w ensures SerpentineCell(order, w, k) == cells[k - |out|] {
      DivModUnique(line, w, k - |out|);
    }
    hide SerpentineCell;
  }

  method ApplySerpentine(order: Order, rows: nat, cols: nat) returns (out: seq<Cell>)
    requires rows > 0 && cols > 0
    ensures out == SerpentinePlan(order, rows, cols)
  {
    var w, h := Width(order, rows, cols), Height(order, rows, cols);
    AreaCommutes(order, rows, cols);
    out := [];
    for line := 0 to h
      invariant |out| == line * w
      invariant forall k :: 0 <= k < |out| ==> out[k] == SerpentineCell(order, w, k)
    {
      var cells := seq(w, pos => Place(order, line, pos));
      if line % 2 == 1 {
        cells := Reverse(cells);
      }
      AppendLine(order, w, line, out, cells);
      out := out + cells;
    }
  }

  method GenerateScan2dRecords(xs: seq<real>, ys: seq<real>, pattern: Pattern, order: Order,
                               shuffle: seq<Cell> -> seq<Cell>) returns (r: Result<seq<Record>>)
    requires IsShuffle(shuffle)
    ensures r == Err(EmptyX) <==> xs == []
    ensures r == Err(EmptyY) <==> xs != [] && ys == []
    ensures r.Ok? ==>
      var coords := Coords(pattern, order, |ys|, |xs|, shuffle);
      |r.value| == |coords| == |xs| * |ys| &&
      forall i :: 0 <= i < |coords| ==> Describes(r.value[i], coords[i], i, xs, ys)
  {
    if |xs| == 0 { return Err(EmptyX); }
    if |ys| == 0 { return Err(EmptyY); }
    var coords := RasterCoords(order, |ys|, |xs|);
    match pattern {
      case Raster =>
      case Serpentine => coords := ApplySerpentine(order, |ys|, |xs|);
      case Random => coords := shuffle(coords);
      case CenterOut => coords := SortedByKey(coords, CenterRadius(|ys|, |xs|));
    }
    EveryPatternVisitsEachOnce(pattern, order, |ys|, |xs|, shuffle);
    GridCells(coords, |ys|, |xs|);
    var records := BuildRecords(coords, xs, ys);
    assert |coords| == |xs| * |ys|;
    forall i | 0 <= i < |coords| ensures Describes(records[i], coords[i], i, xs, ys) {
      MatchingRecordDescribes(records[i], coords[i], i, xs, ys);
    }
    return Ok(records);
  }

  lemma GridCells(cells: seq<Cell>, rows: nat, cols: nat)
    requires VisitsEachOnce(cells, rows, cols)
    ensures forall i :: 0 <= i < |cells| ==> 0 <= cells[i].row < rows && 0 <= cells[i].col < cols
  {
    forall i | 0 <= i < |cells| ensures cells[i] in Grid(rows, cols) {
      assert cells[i] in multiset(cells);
    }
  }

  method BuildRecords(coords: seq<Cell>, xs: seq<real>, ys: seq<real>) returns (records: seq<Record>)
    requires forall i :: 0 <= i < |coords| ==> 0 <= coords[i].row < |ys| && 0 <= coords[i].col < |xs|
    ensures |records| == |coords|
    ensures forall i :: 0 <= i < |coords| ==> RecordMatches(records[i], coords[i], i, |coords|, xs, ys)
  {
    hide Unit;
    records := [];
    for index := 0 to |coords|
      invariant |records| == index
      invariant forall i :: 0 <= i < index ==> RecordMatches(records[i], coords[i], i, |coords|, xs, ys)
    {
      var c := coords[index];
      records := records + [Record(xs[c.col], ys[c.row], c.row, c.col, index,
                                   Unit(c.col, |xs|), Unit(c.row, |ys|), |coords|)];
    }
  }
}
