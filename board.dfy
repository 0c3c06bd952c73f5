/**
 * The occupancy board: a dense `spots[y][x]` grid of nullable pieces that the
 * game updates in place.
 */
module Boards {
  import opened Wrappers
  import opened Geometry

  /** A piece on the board: the name of its type and the number of its owner. */
  datatype Piece = Piece(pieceTypeName: string, playerNo: int)

  /** The rows of the board, `spots[y][x]`, each cell empty (`None`) or holding a piece. */
  type Spots = seq<seq<Option<Piece>>>

  /** The walker's bounds test: both `spots[y]` and `spots[y][x]` exist. */
  predicate OnBoard(spots: Spots, loc: Vec) {
    0 <= loc.y < |spots| && 0 <= loc.x < |spots[loc.y]|
  }

  /** `spots` has `height` rows of `width` cells each. */
  predicate IsGrid(spots: Spots, width: int, height: int) {
    |spots| == height && forall y :: 0 <= y < |spots| ==> |spots[y]| == width
  }

  function At(spots: Spots, loc: Vec): Option<Piece>
    requires OnBoard(spots, loc)
  {
    spots[loc.y][loc.x]
  }

  /** `height` rows of `width` empty cells. */
  function EmptyGrid(width: nat, height: nat): Spots {
    seq(height, _ => seq(width, _ => None))
  }

  /** The grid with the cell at `loc` overwritten by `p`. */
  function Place(spots: Spots, loc: Vec, p: Option<Piece>): Spots
    requires OnBoard(spots, loc)
  {
    spots[loc.y := spots[loc.y][loc.x := p]]
  }

  /** Overwriting one cell keeps the shape and changes that cell only. */
  lemma PlaceAt(spots: Spots, loc: Vec, p: Option<Piece>, q: Vec)
    requires OnBoard(spots, loc)
    ensures OnBoard(Place(spots, loc, p), q) <==> OnBoard(spots, q)
    ensures OnBoard(spots, q) ==> At(Place(spots, loc, p), q) == if q == loc then p else At(spots, q)
  {
  }

  lemma PlaceGrid(spots: Spots, loc: Vec, p: Option<Piece>, width: int, height: int)
    requires OnBoard(spots, loc) && IsGrid(spots, width, height)
    ensures IsGrid(Place(spots, loc, p), width, height)
  {
  }

  /**
   * Moving a piece: the old occupant of `from` lands on `to`, `from` is then
   * emptied (so `from == to` deletes the piece), every other cell is kept.
   */
  lemma MoveAt(spots: Spots, from: Vec, to: Vec, q: Vec)
    requires OnBoard(spots, from) && OnBoard(spots, to) && OnBoard(spots, q)
    ensures var moved := Place(Place(spots, to, At(spots, from)), from, None);
      OnBoard(moved, q) &&
      At(moved, q) == if q == from then None else if q == to then At(spots, from) else At(spots, q)
  {
    PlaceAt(spots, to, At(spots, from), q);
    PlaceAt(spots, to, At(spots, from), from);
    PlaceAt(Place(spots, to, At(spots, from)), from, None, q);
  }

  class Board {
    var spots: Spots

    /** At least one row and one column, all rows equally long. */
    ghost predicate Valid()
      reads this
    {
      |spots| >= 1 && |spots[0]| >= 1 && IsGrid(spots, |spots[0]|, |spots|)
    }

    /** Builds `height` rows of `width` empty cells, one push at a time. */
    constructor (width: int, height: int)
      requires width >= 1 && height >= 1
      ensures Valid()
      ensures spots == EmptyGrid(width, height)
    {
      var rows: Spots := [];
      var i := 0;
      while i < height
        invariant 0 <= i <= height
        invariant rows == EmptyGrid(width, i)
      {
        rows := rows + [[]];
        var j := 0;
        while j < width
          invariant 0 <= j <= width
          invariant |rows| == i + 1 && rows[..i] == EmptyGrid(width, i)
          invariant rows[i] == seq(j, _ => None)
        {
          rows := rows[i := rows[i] + [None]];
          j := j + 1;
        }
        assert rows == EmptyGrid(width, i + 1);
        i := i + 1;
      }
      spots := rows;
    }

    function GetHeight(): (h: int)
      reads this
      requires Valid()
      ensures h >= 1 && IsGrid(spots, |spots[0]|, h)
    {
      |spots|
    }

    function GetWidth(): (w: int)
      reads this
      requires Valid()
      ensures w >= 1 && IsGrid(spots, w, |spots|)
    {
      |spots[0]|
    }

    function GetPieceAtLocation(loc: Vec): Option<Piece>
      reads this
      requires Valid() && OnBoard(spots, loc)
    {
      At(spots, loc)
    }

    /** Overwrites the cell at `loc`, whatever it held. */
    method AddPiece(loc: Vec, piece: Option<Piece>)
      requires Valid() && OnBoard(spots, loc)
      modifies this
      ensures Valid()
      ensures spots == Place(old(spots), loc, piece)
    {
      PlaceGrid(spots, loc, piece, |spots[0]|, |spots|);
      spots := spots[loc.y := spots[loc.y][loc.x := piece]];
    }

    /** Empties the cell at `loc`. */
    method RemovePiece(loc: Vec)
      requires Valid() && OnBoard(spots, loc)
      modifies this
      ensures Valid()
      ensures spots == Place(old(spots), loc, None)
    {
      PlaceGrid(spots, loc, None, |spots[0]|, |spots|);
      spots := spots[loc.y := spots[loc.y][loc.x := None]];
    }

    /** Puts the occupant of `from` (possibly none) at `to`, then empties `from`. */
    method MovePiece(from: Vec, to: Vec)
      requires Valid() && OnBoard(spots, from) && OnBoard(spots, to)
      modifies this
      ensures Valid()
      ensures spots == Place(Place(old(spots), to, old(At(spots, from))), from, None)
      ensures forall q :: OnBoard(spots, q) ==>
        At(spots, q) == if q == from then None else if q == to then old(At(spots, from)) else old(At(spots, q))
    {
      ghost var before := spots;
      AddPiece(to, spots[from.y][from.x]);
      PlaceAt(before, to, At(before, from), from);
      RemovePiece(from);
      forall q | OnBoard(spots, q)
        ensures At(spots, q) == if q == from then None else if q == to then At(before, from) else At(before, q)
      {
        PlaceAt(Place(before, to, At(before, from)), from, None, q);
        MoveAt(before, from, to, q);
      }
    }
  }
}
