/** The playing field and the engine that owns it (src/engine/mod.rs). */
module Engine {

  /** A signed displacement on the grid; the source uses a two-component
      vector of machine-sized signed integers. */
  datatype Offset = Offset(x: int, y: int)

  /** Number of occupied cells in a flat occupancy grid. */
  function Occupied(cells: seq<bool>): (n: nat)
    ensures n <= |cells|
    ensures n == 0 ==> cells == [] || !cells[0]
  {
    if cells == [] then 0 else (if cells[0] then 1 else 0) + Occupied(cells[1..])
  }

  /** A grid has no occupied cell exactly when every one of its cells is empty. */
  lemma {:induction false} NoneOccupiedIffAllEmpty(cells: seq<bool>)
    ensures Occupied(cells) == 0 <==> forall i :: 0 <= i < |cells| ==> !cells[i]
  {
    if cells != [] {
      NoneOccupiedIffAllEmpty(cells[1..]);
      assert forall i :: 1 <= i < |cells| ==> cells[i] == cells[1..][i - 1];
    }
  }

  /** The fixed-size playing field: WIDTH x HEIGHT occupancy flags stored
      flat, `true` meaning occupied. */
  datatype Board = Board(cells: seq<bool>) {
    static const WIDTH: nat := 10
    static const HEIGHT: nat := 20
    static const SIZE: nat := WIDTH * HEIGHT

    /** The source's fixed-length array type: exactly SIZE cells. */
    predicate Valid() {
      |cells| == SIZE
    }

    /** The empty field. */
    static function Blank(): (b: Board)
      ensures b.Valid()
      ensures forall i :: 0 <= i < |b.cells| ==> !b.cells[i]
    {
      Board(seq(SIZE, _ => false))
    }
  }

  /** The field holds 10 x 20 = 200 cells. */
  lemma SizeIsWidthTimesHeight()
    ensures Board.SIZE == Board.WIDTH * Board.HEIGHT == 200
  {
  }

  /** The game engine; in the source it owns nothing but the field. */
  datatype Engine = Engine(board: Board) {

    /** A fresh engine: a well-sized field with no occupied cell. */
    static function New(): (e: Engine)
      ensures e.board.Valid()
      ensures |e.board.cells| == Board.WIDTH * Board.HEIGHT
      ensures Occupied(e.board.cells) == 0
      ensures e.board == Board.Blank()
    {
      var b := Board.Blank();
      NoneOccupiedIffAllEmpty(b.cells);
      Engine(b)
    }
  }
}
