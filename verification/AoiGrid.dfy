/** The cell grid: entity and watcher lists per cell, and the window of cells around a position. */
module AoiGrid {
  import opened Common
  import opened AoiTypes

  datatype Cell = Cell(entities: seq<EntityId>, watchers: seq<EntityId>)

  /** The list without any occurrence of x. */
  function Without(s: seq<EntityId>, x: EntityId): (r: seq<EntityId>)
    ensures forall y :: y in r <==> y in s && y != x
  {
    if s == [] then []
    else if s[0] == x then Without(s[1..], x)
    else [s[0]] + Without(s[1..], x)
  }

  class Grid {
    const m: GridMap
    var cells: seq<Cell>
    /** The visibility test as a relation; clients reason about it without its arithmetic. */
    ghost const near: (nat, nat) -> bool
    /** Likewise the position-to-cell function. */
    ghost const at: (nat, nat) -> Option<nat>

    ghost predicate Valid()
      reads this
    {
      && m.Ok() && |cells| == m.CellCount()
      && (forall a, b {:trigger m.Visible(a, b)} :: near(a, b) == m.Visible(a, b))
      && (forall x, y {:trigger m.Locate(x, y)} :: at(x, y) == m.Locate(x, y))
      && (forall c: nat :: c < m.CellCount() ==> near(c, c))
    }

    /** The cell's entity list contains x. */
    ghost predicate Holds(c: nat, x: EntityId)
      reads this
    {
      c < |cells| && x in cells[c].entities
    }

    /** The cell's watcher list contains x. */
    ghost predicate Watched(c: nat, x: EntityId)
      reads this
    {
      c < |cells| && x in cells[c].watchers
    }

    constructor (m: GridMap)
      requires m.Ok()
      ensures Valid() && this.m == m
      ensures forall c: nat, x :: !Holds(c, x) && !Watched(c, x)
    {
      this.m := m;
      this.near := (a: nat, b: nat) => m.cols > 0 && m.Visible(a, b);
      this.at := (x: nat, y: nat) => m.Locate(x, y);
      this.cells := seq(m.CellCount(), _ => Cell([], []));
    }

    /** A copy that shares nothing with the original. */
    constructor Copy(g: Grid)
      requires g.Valid()
      ensures Valid() && m == g.m && near == g.near && at == g.at && cells == g.cells
    {
      this.m := g.m;
      this.near := g.near;
      this.at := g.at;
      this.cells := g.cells;
    }

    method AddEntity(id: EntityId, cell: nat)
      requires Valid()
      modifies this
      ensures Valid()
      ensures forall c: nat, x :: Holds(c, x) == (old(Holds(c, x)) || (c == cell && x == id && cell < m.CellCount()))
      ensures forall c: nat, x :: Watched(c, x) == old(Watched(c, x))
    {
      if cell < |cells| {
        cells := cells[cell := cells[cell].(entities := cells[cell].entities + [id])];
      }
    }

    method RemoveEntity(id: EntityId, cell: nat)
      requires Valid()
      modifies this
      ensures Valid()
      ensures forall c: nat, x :: Holds(c, x) == (old(Holds(c, x)) && !(c == cell && x == id))
      ensures forall c: nat, x :: Watched(c, x) == old(Watched(c, x))
    {
      if cell < |cells| {
        cells := cells[cell := cells[cell].(entities := Without(cells[cell].entities, id))];
      }
    }

    method AddWatcher(id: EntityId, cell: nat)
      requires Valid()
      modifies this
      ensures Valid()
      ensures forall c: nat, x :: Watched(c, x) == (old(Watched(c, x)) || (c == cell && x == id && cell < m.CellCount()))
      ensures forall c: nat, x :: Holds(c, x) == old(Holds(c, x))
    {
      if cell < |cells| {
        cells := cells[cell := cells[cell].(watchers := cells[cell].watchers + [id])];
      }
    }

    method RemoveWatcher(id: EntityId, cell: nat)
      requires Valid()
      modifies this
      ensures Valid()
      ensures forall c: nat, x :: Watched(c, x) == (old(Watched(c, x)) && !(c == cell && x == id))
      ensures forall c: nat, x :: Holds(c, x) == old(Holds(c, x))
    {
      if cell < |cells| {
        cells := cells[cell := cells[cell].(watchers := Without(cells[cell].watchers, id))];
      }
    }

    /** The watchers of a cell, added to a dirty set. */
    method MarkWatchers(cell: nat, dirty: set<EntityId>) returns (marked: set<EntityId>)
      requires Valid()
      ensures forall x :: x in marked <==> x in dirty || Watched(cell, x)
    {
      marked := dirty;
      if cell < |cells| {
        var list := cells[cell].watchers;
        for i := 0 to |list|
          invariant forall x :: x in marked <==> x in dirty || x in list[..i]
        {
          marked := marked + {list[i]};
        }
        assert list[..|list|] == list;
      }
    }

    /** The cells around a position, clipped to the grid: exactly those the visibility test accepts. */
    method WatchCells(x: nat, y: nat) returns (r: seq<nat>)
      requires Valid()
      ensures m.TryCellOf(x, y).None? ==> r == []
      ensures m.TryCellOf(x, y).Some? ==> forall c: nat :: c in r <==> near(m.TryCellOf(x, y).value, c)
    {
      var center := m.TryCellOf(x, y);
      if center.None? {
        r := [];
      } else {
        r := WindowAround(m, center.value);
        forall c: nat
          ensures c in r <==> near(center.value, c)
        {
          assert c in r <==> m.Visible(center.value, c);
        }
      }
    }

    /** Registers id as a watcher of every cell around a position. */
    method Watch(id: EntityId, x: nat, y: nat, ghost center: nat)
      requires Valid() && at(x, y) == Some(center)
      modifies this
      ensures Valid()
      ensures forall c: nat, o :: Watched(c, o) == (old(Watched(c, o)) || (o == id && near(center, c) && c < m.CellCount()))
      ensures forall c: nat, o :: Holds(c, o) == old(Holds(c, o))
    {
      assert m.Locate(x, y) == Some(center);
      var window := WatchCells(x, y);
      for i := 0 to |window|
        invariant Valid()
        invariant forall c: nat, o :: Watched(c, o) == (old(Watched(c, o)) || (o == id && c in window[..i] && c < m.CellCount()))
        invariant forall c: nat, o :: Holds(c, o) == old(Holds(c, o))
      {
        AddWatcher(id, window[i]);
        assert window[..i + 1] == window[..i] + [window[i]];
      }
      assert window[..|window|] == window;
    }

    /** Removes id from the watchers of every cell around a position. */
    method Unwatch(id: EntityId, x: nat, y: nat, ghost center: nat)
      requires Valid() && at(x, y) == Some(center)
      modifies this
      ensures Valid()
      ensures forall c: nat, o :: Watched(c, o) == (old(Watched(c, o)) && !(o == id && near(center, c)))
      ensures forall c: nat, o :: Holds(c, o) == old(Holds(c, o))
    {
      assert m.Locate(x, y) == Some(center);
      var window := WatchCells(x, y);
      for i := 0 to |window|
        invariant Valid()
        invariant forall c: nat, o :: Watched(c, o) == (old(Watched(c, o)) && !(o == id && c in window[..i]))
        invariant forall c: nat, o :: Holds(c, o) == old(Holds(c, o))
      {
        RemoveWatcher(id, window[i]);
        assert window[..i + 1] == window[..i] + [window[i]];
      }
      assert window[..|window|] == window;
    }
  }

  method WindowAround(m: GridMap, center: nat) returns (r: seq<nat>)
    requires m.Ok() && center < m.CellCount()
    ensures forall c: nat :: c in r <==> m.Visible(center, c)
  {
    CenterInRange(m, center);
    var centerCol, centerRow := m.Col(center), m.Row(center);
    var col0, col1 := centerCol - m.radius, centerCol + m.radius;
    var row0, row1 := centerRow - m.radius, centerRow + m.radius;
    if col0 < 0 { col0 := 0; }
    if row0 < 0 { row0 := 0; }
    if col1 >= m.cols { col1 := m.cols - 1; }
    if row1 >= m.rows { row1 := m.rows - 1; }
    r := ListWindow(m.cols, col0, col1, row0, row1);
    WindowIsVisible(m, center, col0, col1, row0, row1);
  }

  method ListWindow(cols: nat, col0: nat, col1: nat, row0: nat, row1: nat) returns (r: seq<nat>)
    requires col0 <= col1 && row0 <= row1
    ensures r == WindowRows(cols, col0, col1 + 1, row0, row1 + 1)
  {
    r := [];
    var j := row0;
    while j <= row1
      invariant row0 <= j <= row1 + 1
      invariant r == WindowRows(cols, col0, col1 + 1, row0, j)
    {
      var i := col0;
      while i <= col1
        invariant col0 <= i <= col1 + 1
        invariant r == WindowRows(cols, col0, col1 + 1, row0, j) + RowCells(cols, j, col0, i)
      {
        r := r + [j * cols + i];
        i := i + 1;
      }
      j := j + 1;
    }
  }

  /** The cells of one row, from column col0 up to, but not including, column i. */
  function RowCells(cols: nat, row: nat, col0: nat, i: nat): seq<nat> {
    if i <= col0 then [] else RowCells(cols, row, col0, i - 1) + [row * cols + (i - 1)]
  }

  /** The rows row0 up to, but not including, row j of a window of columns. */
  function WindowRows(cols: nat, col0: nat, colEnd: nat, row0: nat, j: nat): seq<nat> {
    if j <= row0 then [] else WindowRows(cols, col0, colEnd, row0, j - 1) + RowCells(cols, j - 1, col0, colEnd)
  }

  lemma CellFromCoordinates(cols: nat, c: nat, row: nat, col: nat)
    requires col < cols
    ensures c == row * cols + col <==> c / cols == row && c % cols == col
  {
    CellCoordinates(row, cols, col);
    assert c == (c / cols) * cols + c % cols;
  }

  lemma {:induction false} RowMember(cols: nat, row: nat, col0: nat, i: nat, c: nat)
    requires i <= cols && 0 < cols
    ensures c in RowCells(cols, row, col0, i) <==> c / cols == row && col0 <= c % cols < i
  {
    if i > col0 {
      RowMember(cols, row, col0, i - 1, c);
      CellFromCoordinates(cols, c, row, i - 1);
    }
  }

  lemma {:induction false} WindowMember(cols: nat, col0: nat, colEnd: nat, row0: nat, j: nat, c: nat)
    requires colEnd <= cols && 0 < cols
    ensures c in WindowRows(cols, col0, colEnd, row0, j) <==> row0 <= c / cols < j && col0 <= c % cols < colEnd
  {
    if j > row0 {
      WindowMember(cols, col0, colEnd, row0, j - 1, c);
      RowMember(cols, j - 1, col0, colEnd, c);
    }
  }

  lemma CenterInRange(m: GridMap, c: nat)
    requires m.Ok() && c < m.CellCount()
    ensures c % m.cols < m.cols && c / m.cols < m.rows
  {
    DivBelow(c, m.rows, m.cols);
  }

  lemma RowInRange(m: GridMap, c: nat)
    requires m.Ok()
    ensures c / m.cols < m.rows <==> c < m.CellCount()
  {
    if c < m.CellCount() {
      DivBelow(c, m.rows, m.cols);
    } else {
      assert c == (c / m.cols) * m.cols + c % m.cols;
      MulMonotone(c / m.cols + 1, m.rows, m.cols);
    }
  }

  /** The clipped window of cells and the visibility test agree. */
  lemma WindowIsVisible(m: GridMap, center: nat, col0: nat, col1: nat, row0: nat, row1: nat)
    requires m.Ok() && center < m.CellCount()
    requires col0 == (if m.Col(center) < m.radius then 0 else m.Col(center) - m.radius)
    requires col1 == (if m.Col(center) + m.radius >= m.cols then m.cols - 1 else m.Col(center) + m.radius)
    requires row0 == (if m.Row(center) < m.radius then 0 else m.Row(center) - m.radius)
    requires row1 == (if m.Row(center) + m.radius >= m.rows then m.rows - 1 else m.Row(center) + m.radius)
    ensures forall c: nat :: c in WindowRows(m.cols, col0, col1 + 1, row0, row1 + 1) <==> m.Visible(center, c)
  {
    forall c
      ensures c in WindowRows(m.cols, col0, col1 + 1, row0, row1 + 1) <==> m.Visible(center, c)
    {
      WindowMember(m.cols, col0, col1 + 1, row0, row1 + 1, c);
      RowInRange(m, c);
    }
  }

  // ---- what the radius covers ----------------------------------------------------------

  /** The radius the configuration derives from a view range in map units. */
  function RadiusFor(viewRange: nat, cellSize: nat): nat
    requires cellSize > 0
  {
    viewRange / cellSize + (if viewRange % cellSize != 0 then 1 else 0)
  }

  lemma RadiusReaches(viewRange: nat, cellSize: nat)
    requires cellSize > 0
    ensures viewRange <= RadiusFor(viewRange, cellSize) * cellSize
  {
    var q := viewRange / cellSize;
    assert viewRange == q * cellSize + viewRange % cellSize;
    assert (q + 1) * cellSize == q * cellSize + cellSize;
  }

  /** And no smaller radius would. */
  lemma RadiusIsLeast(viewRange: nat, cellSize: nat, radius: nat)
    requires cellSize > 0 && viewRange <= radius * cellSize
    ensures RadiusFor(viewRange, cellSize) <= radius
  {
    var q := viewRange / cellSize;
    assert viewRange == q * cellSize + viewRange % cellSize;
    if radius <= q {
      assert radius < q ==> (q - radius) * cellSize >= cellSize;
      assert (q - radius) * cellSize == q * cellSize - radius * cellSize;
    }
  }

  lemma RadiusCoversAxis(a: nat, b: nat, viewRange: nat, cellSize: nat)
    requires cellSize > 0 && a <= b <= a + viewRange
    ensures 0 <= b / cellSize - a / cellSize <= RadiusFor(viewRange, cellSize)
  {
    RadiusReaches(viewRange, cellSize);
    QuotientGap(a, b, cellSize, RadiusFor(viewRange, cellSize));
  }

  lemma QuotientGap(a: nat, b: nat, d: nat, r: nat)
    requires d > 0 && a <= b <= a + r * d
    ensures 0 <= b / d - a / d <= r
  {
    var qa, qb := a / d, b / d;
    assert a == qa * d + a % d && b == qb * d + b % d;
    assert (qb - qa) * d == b - a + a % d - b % d;
    assert (r + 1) * d == r * d + d;
    MulMonotone(r + 1, qb - qa, d);
    MulMonotone(qb - qa, -1, d);
  }

  lemma CellOfPosition(m: GridMap, x: nat, y: nat)
    requires m.Ok() && m.TryCellOf(x, y).Some?
    ensures m.minX <= x && m.minY <= y
    ensures m.Col(m.TryCellOf(x, y).value) == (x - m.minX) / m.cellSize
    ensures m.Row(m.TryCellOf(x, y).value) == (y - m.minY) / m.cellSize
  {
    DivBelow(x - m.minX, m.cols, m.cellSize);
    DivBelow(y - m.minY, m.rows, m.cellSize);
    IndexCoordinates(m, (y - m.minY) / m.cellSize, (x - m.minX) / m.cellSize);
  }

  lemma IndexCoordinates(m: GridMap, row: nat, col: nat)
    requires m.Ok() && row < m.rows && col < m.cols
    ensures m.Col((row * m.cols + col) % (MAX_U32 + 1)) == col
    ensures m.Row((row * m.cols + col) % (MAX_U32 + 1)) == row
  {
    CellIndexInRange(row, m.rows, m.cols, col);
    CellCoordinates(row, m.cols, col);
  }

  /** With the configured radius, nobody within the view range on both axes is missed. */
  lemma NobodyInRangeIsMissed(m: GridMap, viewRange: nat, x0: nat, y0: nat, x1: nat, y1: nat)
    requires m.Ok() && m.radius == RadiusFor(viewRange, m.cellSize)
    requires m.TryCellOf(x0, y0).Some? && m.TryCellOf(x1, y1).Some?
    requires x0 <= x1 + viewRange && x1 <= x0 + viewRange
    requires y0 <= y1 + viewRange && y1 <= y0 + viewRange
    ensures m.Visible(m.TryCellOf(x0, y0).value, m.TryCellOf(x1, y1).value)
  {
    CellOfPosition(m, x0, y0);
    CellOfPosition(m, x1, y1);
    AxisDistance(x0 - m.minX, x1 - m.minX, viewRange, m.cellSize);
    AxisDistance(y0 - m.minY, y1 - m.minY, viewRange, m.cellSize);
  }

  lemma AxisDistance(a: nat, b: nat, viewRange: nat, cellSize: nat)
    requires cellSize > 0 && a <= b + viewRange && b <= a + viewRange
    ensures -(RadiusFor(viewRange, cellSize) as int) <= a / cellSize - b / cellSize <= RadiusFor(viewRange, cellSize)
  {
    if a <= b {
      RadiusCoversAxis(a, b, viewRange, cellSize);
    } else {
      RadiusCoversAxis(b, a, viewRange, cellSize);
    }
  }
}
