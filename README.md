# Falling-block game: piece shapes and engine construction

This project models the rules-engine skeleton of a falling-block puzzle game
written in Rust. The skeleton holds two parts, both constant data plus a
constructor:

- **Piece shapes** (`piece.dfy`, module `Piece`): the seven piece kinds
  O, I, T, L, J, S and Z, the list `ALL` of every kind, the constant
  `CELL_COUNT` = 4, and `Cells`, which gives each kind its four cells as
  offsets in a small local grid (4×4 for I, 3×3 for the rest).
- **Board and engine** (`engine.dfy`, module `Engine`): the signed `Offset`
  pair, the 10×20 occupancy field `Board` stored flat, its `Blank`
  constructor, and `Engine.New`, which wraps a blank field.

Every part of the source is pure, so the model is datatypes, functions and
lemmas. The field's fixed-length array is a `seq<bool>` with a `Valid`
predicate requiring exactly `SIZE` cells. "No occupied cell" is stated with
the counting function `Occupied`. The lemma `NoneOccupiedIffAllEmpty`
proves that a zero count means every cell is empty, and the converse.

Some descriptions of this game say the S shape has a duplicated cell. The
table modelled here lists four distinct S cells, and the model follows that
table; `Cells` proves the four cells of every kind pairwise distinct.

## Model

| member | source | states |
|---|---|---|
| `Engine.NoneOccupiedIffAllEmpty` | src/engine/mod.rs:14 | a flat occupancy grid has zero occupied cells if and only if every cell is `false` |
| `Engine.SizeIsWidthTimesHeight` | src/engine/mod.rs:17-19 | `SIZE` is `WIDTH * HEIGHT`, which is 10 × 20 = 200 |
| `Engine.Board.Blank` | src/engine/mod.rs:20-22 | the blank field has exactly `SIZE` cells and every one of them is empty |
| `Engine.Engine.New` | src/engine/mod.rs:7-11 | a new engine holds the blank field: `SIZE` = `WIDTH * HEIGHT` cells, none occupied |
| `Piece.Kind.Cells` | src/piece/mod.rs:32-43 | every kind gives exactly `CELL_COUNT` = 4 cells, pairwise distinct, with non-negative components below the local grid size (4 for I, 3 otherwise) |
| `Piece.AllListsEveryKindOnce` | src/piece/mod.rs:11-30 | `ALL` has length 7, contains every kind, holds no kind twice, and counts each kind exactly once |
| `Piece.OIsTwoByTwoBlock` | src/piece/mod.rs:34 | an offset is a cell of O if and only if both its components lie in 1..2, so O is the 2×2 block {(1,1),(1,2),(2,1),(2,2)} |
| `Piece.IIsBarOnRowTwo` | src/piece/mod.rs:35 | the i-th cell of I is (i, 2): four cells on row 2 with x running 0, 1, 2, 3 |
| `Piece.ShapesDiffer` | src/piece/mod.rs:33-41 | for two different kinds, the first has a cell the second lacks, so no two kinds share a shape |

## Left out

- `Offset`: the source's offset is a two-component vector of machine-sized signed integers from a foreign linear-algebra library. It is an unbounded integer pair here. Every constant in the shape table is between 0 and 3, so no overflow can occur.
- `Cells`: the source writes each shape as integer pairs and converts them with the vector library's pair conversion. The model writes the offsets directly, which gives the same values.
- `Board.Valid`: the source's array type fixes the length at compile time. The model states the length as a predicate that `Blank` and `New` establish.
- The process entry point (`src/main.rs`) builds an engine and hands it to the terminal interface. The interface is rendering and input I/O and is not part of this model.
- Rotation states and transforms, absolute-cell computation, collision and placeability checks, the shuffled bag of kinds, cursor moves, gravity ticks, hard drop and locking do not exist in the modelled source, so none is modelled.
