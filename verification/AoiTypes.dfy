/** The records exchanged by the area-of-interest replicas of the scene workers, and the
    fixed map geometry they all share. */
module AoiTypes {
  import opened Common

  type WorkerId = nat

  /** A 64-bit entity id: the allocating worker in the high half, its local counter in the low half. */
  datatype EntityId = EntityId(worker: WorkerId, counter: nat)

  const NO_ENTITY := EntityId(0, 0)

  const MAX_U32: nat := 0xFFFF_FFFF
  const MAX_U64: nat := 0xFFFF_FFFF_FFFF_FFFF
  const MAX_I32: nat := 0x7FFF_FFFF

  datatype EntityKind = PlayerKind | MonsterKind | NpcKind | DropKind | InvalidKind

  datatype MsgKind = Entry | Move | Leave | InvalidMsg

  datatype Entity = Entity(
    id: EntityId, kind: EntityKind, businessId: nat,
    x: nat, y: nat, dir: int, cell: nat,
    generation: nat, actorEpoch: nat, version: nat,
    owner: WorkerId, ownerSeq: nat)

  datatype Event = Event(
    kind: MsgKind, entityKind: EntityKind, id: EntityId, businessId: nat,
    x: nat, y: nat, dir: int,
    generation: nat, actorEpoch: nat, version: nat,
    owner: WorkerId, ownerSeq: nat)

  datatype Tombstone = Tombstone(generation: nat, version: nat, ownerSeq: nat, owner: WorkerId)

  datatype Snapshot = Snapshot(seqNo: nat, owner: WorkerId, ents: seq<Entity>)

  datatype ApplyResult = Ignored | Applied | BadSource | OutOfBounds | Invalid | NeedSnapshot

  /** A loaded map cut into square cells, with the view radius counted in cells. */
  datatype GridMap = GridMap(
    length: nat, width: nat, minX: nat, minY: nat,
    cols: nat, rows: nat, cellSize: nat, radius: nat)
  {
    /** What map loading and configuration validation establish, plus the int32 headroom
        that the window computation needs. */
    predicate Ok() {
      && cellSize > 0 && cols > 0 && rows > 0
      && cols * rows <= MAX_U32
      && cols + radius <= MAX_I32 && rows + radius <= MAX_I32
    }

    function CellCount(): nat { cols * rows }

    function Col(cell: nat): nat requires cols > 0 { cell % cols }
    function Row(cell: nat): nat requires cols > 0 { cell / cols }

    /** Position to cell index; out of range gives None. */
    function TryCellOf(x: nat, y: nat): (r: Option<nat>)
      ensures r.Some? && cols * rows <= MAX_U32 ==> r.value < CellCount()
    {
      if cellSize == 0 || cols == 0 || rows == 0 then None
      else if x < minX || x >= minX + cols * cellSize || y < minY || y >= minY + rows * cellSize then None
      else
        var col := (x - minX) / cellSize;
        var row := (y - minY) / cellSize;
        DivBelow(x - minX, cols, cellSize);
        DivBelow(y - minY, rows, cellSize);
        CellIndexInRange(row, rows, cols, col);
        Some((row * cols + col) % (MAX_U32 + 1))
    }

    /** The cell an event or entity at this position occupies, when the map holds it. */
    function Locate(x: nat, y: nat): Option<nat> {
      if x >= length || y >= width then None else TryCellOf(x, y)
    }

    /** Chebyshev distance of the two cells is at most the view radius. */
    predicate Near(a: nat, b: nat)
      requires cols > 0
    {
      && -(radius as int) <= Col(a) - Col(b) <= radius
      && -(radius as int) <= Row(a) - Row(b) <= radius
    }

    /** The grid's own visibility test. */
    predicate Visible(a: nat, b: nat)
      requires cols > 0
    {
      a < CellCount() && b < CellCount() && Near(a, b)
    }
  }

  lemma DivBelow(a: nat, n: nat, d: nat)
    requires d > 0 && a < n * d
    ensures a / d < n
  {
    assert a == (a / d) * d + a % d;
  }

  lemma CellIndexInRange(row: nat, rows: nat, cols: nat, col: nat)
    requires row < rows && col < cols
    ensures row * cols + col < cols * rows
  {
    assert (row + 1) * cols <= rows * cols;
  }

  /** A cell index decomposes uniquely into its row and column. */
  lemma CellCoordinates(row: nat, cols: nat, col: nat)
    requires col < cols
    ensures (row * cols + col) / cols == row && (row * cols + col) % cols == col
  {
    var c := row * cols + col;
    var q, r := c / cols, c % cols;
    assert c == q * cols + r;
    SmallMultipleIsZero(q - row, cols);
  }

  lemma SmallMultipleIsZero(d: int, n: int)
    requires n > 0 && -n < d * n < n
    ensures d == 0
  {
    MulMonotone(1, d, n);
    MulMonotone(d, -1, n);
  }

  lemma MulMonotone(a: int, b: int, n: int)
    requires n >= 0
    ensures a <= b ==> a * n <= b * n
  {
  }

  predicate ValidKind(k: EntityKind) {
    k != InvalidKind
  }
}
