/** The seven piece shapes (src/piece/mod.rs). */
module Piece {
  import opened Engine

  /** A piece; the source records only its kind. */
  datatype Piece = Piece(kind: Kind) {
    /** Every piece is made of four cells. */
    static const CELL_COUNT: nat := 4
  }

  /** The seven kinds of piece. */
  datatype Kind = O | I | T | L | J | S | Z {

    /** Every kind, each listed once. */
    static const ALL: seq<Kind> := [O, I, T, L, J, S, Z]

    /** Side of the square local grid the shape is drawn in: 4 for I, 3 for
        every other kind. */
    function GridSize(): nat {
      if I? then 4 else 3
    }

    /** The kind's cells as offsets within its local grid. */
    function Cells(): (r: seq<Offset>)
      ensures |r| == Piece.CELL_COUNT
      ensures forall i, j :: 0 <= i < j < |r| ==> r[i] != r[j]
      ensures forall c :: c in r ==> 0 <= c.x < GridSize() && 0 <= c.y < GridSize()
    {
      match this
      case O => [Offset(1, 1), Offset(1, 2), Offset(2, 1), Offset(2, 2)]
      case I => [Offset(0, 2), Offset(1, 2), Offset(2, 2), Offset(3, 2)]
      case T => [Offset(0, 1), Offset(1, 1), Offset(2, 1), Offset(1, 2)]
      case L => [Offset(0, 1), Offset(1, 1), Offset(2, 1), Offset(2, 2)]
      case J => [Offset(0, 2), Offset(0, 1), Offset(1, 1), Offset(2, 1)]
      case S => [Offset(0, 1), Offset(1, 1), Offset(1, 2), Offset(2, 2)]
      case Z => [Offset(0, 2), Offset(1, 2), Offset(1, 1), Offset(2, 1)]
    }
  }

  /** ALL has seven entries and lists every kind exactly once. */
  lemma AllListsEveryKindOnce()
    ensures |Kind.ALL| == 7
    ensures forall k: Kind :: k in Kind.ALL
    ensures forall i, j :: 0 <= i < j < |Kind.ALL| ==> Kind.ALL[i] != Kind.ALL[j]
    ensures forall k: Kind :: multiset(Kind.ALL)[k] == 1
  {
    forall k: Kind ensures k in Kind.ALL && multiset(Kind.ALL)[k] == 1 {
      match k
      case O => assert Kind.ALL == [O] + Kind.ALL[1..];
      case I => assert Kind.ALL[1] == I;
      case T => assert Kind.ALL[2] == T;
      case L => assert Kind.ALL[3] == L;
      case J => assert Kind.ALL[4] == J;
      case S => assert Kind.ALL[5] == S;
      case Z => assert Kind.ALL[6] == Z;
    }
  }

  /** O is the 2x2 block whose corners are (1,1) and (2,2). */
  lemma OIsTwoByTwoBlock()
    ensures forall c :: c in O.Cells() <==> 1 <= c.x <= 2 && 1 <= c.y <= 2
  {
  }

  /** I is the horizontal bar on row 2, columns 0 to 3 in order. */
  lemma IIsBarOnRowTwo()
    ensures forall i :: 0 <= i < |I.Cells()| ==> I.Cells()[i] == Offset(i, 2)
  {
  }

  /** No two kinds share a shape: each kind has a cell the other lacks. */
  lemma ShapesDiffer(k1: Kind, k2: Kind)
    requires k1 != k2
    ensures exists i :: 0 <= i < |k1.Cells()| && k1.Cells()[i] !in k2.Cells()
  {
    var a, b := k1.Cells(), k2.Cells();
    assert a[0] !in b || a[1] !in b || a[2] !in b || a[3] !in b;
  }
}
