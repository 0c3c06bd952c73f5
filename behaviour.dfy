/**
 * A piece type's behaviour: the movement rules used for plain moves and the
 * ones used for captures, and the grid of highlight flags they produce for a
 * piece standing at one location.
 */
module Behaviours {
  import opened Wrappers
  import opened Geometry
  import opened Boards
  import opened Movements
  import opened MovementFacts

  /** One cell of the highlight grid. */
  datatype Cell = Cell(move: bool, capture: bool)

  const Blank := Cell(false, false)

  /** The rules for moving, the rules for capturing, and a `fires` flag that is stored and never read. */
  datatype Behaviour = Behaviour(movements: seq<Movement>, captures: seq<Movement>, fires: bool)

  /** What a piece type is: a behaviour and the name of its image. */
  datatype PieceType = PieceType(behaviour: Behaviour, image: string)

  /** Building a behaviour: leaving out the capture rules means capturing the way the piece moves. */
  function NewBehaviour(movements: seq<Movement>, captures: Option<seq<Movement>> := None, fires: bool := false): (b: Behaviour)
    ensures b.movements == movements && b.fires == fires
    ensures captures.Some? ==> b.captures == captures.value
    ensures captures.None? ==> b.captures == movements
  {
    Behaviour(movements, if captures.Some? then captures.value else movements, fires)
  }

  /** What each rule yields on its own. */
  function Walks(rules: seq<Movement>, origin: Vec, spots: Spots, player: Player, capture: bool): seq<seq<Vec>> {
    seq(|rules|, i requires 0 <= i < |rules| => Walk(rules[i], origin, spots, player, capture))
  }

  /** The cells all rules yield, one rule's cells after another's. */
  function Collect(rules: seq<Movement>, origin: Vec, spots: Spots, player: Player, capture: bool): seq<Vec> {
    Concat(Walks(rules, origin, spots, player, capture), |rules|)
  }

  /**
   * A cell is collected exactly when one of the rules yields it, and then it
   * is on the board, empty for moves and another player's piece for captures.
   */
  lemma CollectMembership(rules: seq<Movement>, origin: Vec, spots: Spots, player: Player, capture: bool, loc: Vec)
    ensures loc in Collect(rules, origin, spots, player, capture)
      <==> exists i :: 0 <= i < |rules| && loc in Walk(rules[i], origin, spots, player, capture)
    ensures loc in Collect(rules, origin, spots, player, capture) ==>
      OnBoard(spots, loc) && Recordable(spots, loc, player.playerNo, capture)
  {
    var ws := Walks(rules, origin, spots, player, capture);
    ConcatMembership(ws, |rules|, loc);
    if loc in Collect(rules, origin, spots, player, capture) {
      var i :| 0 <= i < |rules| && loc in ws[i];
      assert ws[i] == Walk(rules[i], origin, spots, player, capture);
      WalkSound(rules[i], origin, spots, player, capture);
    }
    if i :| 0 <= i < |rules| && loc in Walk(rules[i], origin, spots, player, capture) {
      assert loc in ws[i];
    }
  }

  /**
   * The highlight grid for a piece at `location`: as many rows as the board
   * and as many cells per row as its first row; a cell's move flag says a
   * movement rule reaches it, its capture flag that a capture rule does.
   */
  function Highlights(b: Behaviour, spots: Spots, location: Vec, player: Player): (g: seq<seq<Cell>>)
    requires |spots| >= 1
    ensures |g| == |spots| && forall y :: 0 <= y < |g| ==> |g[y]| == |spots[0]|
  {
    var movable := Collect(b.movements, location, spots, player, false);
    var capturable := Collect(b.captures, location, spots, player, true);
    seq(|spots|, y => seq(|spots[0]|, x => Cell(Vec(x, y) in movable, Vec(x, y) in capturable)))
  }

  /**
   * What the grid means: a cell is flagged for moving exactly when some
   * movement rule yields it, and for capturing exactly when some capture rule
   * yields it in capture mode; a move flag marks an empty cell and a capture
   * flag another player's piece.
   */
  lemma HighlightsMeaning(b: Behaviour, spots: Spots, location: Vec, player: Player, x: int, y: int)
    requires |spots| >= 1 && IsGrid(spots, |spots[0]|, |spots|)
    requires 0 <= y < |spots| && 0 <= x < |spots[0]|
    ensures var c := Highlights(b, spots, location, player)[y][x];
      (c.move <==> exists i :: 0 <= i < |b.movements| && Vec(x, y) in Walk(b.movements[i], location, spots, player, false))
      && (c.capture <==> exists i :: 0 <= i < |b.captures| && Vec(x, y) in Walk(b.captures[i], location, spots, player, true))
      && (c.move ==> Free(spots, Vec(x, y)))
      && (c.capture ==> Enemy(spots, Vec(x, y), player.playerNo))
  {
    CollectMembership(b.movements, location, spots, player, false, Vec(x, y));
    CollectMembership(b.captures, location, spots, player, true, Vec(x, y));
  }

  /** Without capture rules of its own, a piece captures on the cells its movement rules reach in capture mode. */
  lemma DefaultCaptures(movements: seq<Movement>, spots: Spots, location: Vec, player: Player, x: int, y: int)
    requires |spots| >= 1 && IsGrid(spots, |spots[0]|, |spots|)
    requires 0 <= y < |spots| && 0 <= x < |spots[0]|
    ensures Highlights(NewBehaviour(movements), spots, location, player)[y][x].capture
      <==> exists i :: 0 <= i < |movements| && Vec(x, y) in Walk(movements[i], location, spots, player, true)
  {
    HighlightsMeaning(NewBehaviour(movements), spots, location, player, x, y);
  }

  /** Adding a movement rule never clears a flag, and leaves the capture flags as they are. */
  lemma AddMovementMonotone(b: Behaviour, r: Movement, spots: Spots, location: Vec, player: Player, x: int, y: int)
    requires |spots| >= 1 && IsGrid(spots, |spots[0]|, |spots|)
    requires 0 <= y < |spots| && 0 <= x < |spots[0]|
    ensures var c := Highlights(b, spots, location, player)[y][x];
      var c' := Highlights(b.(movements := b.movements + [r]), spots, location, player)[y][x];
      (c.move ==> c'.move) && c'.capture == c.capture
  {
    var b' := b.(movements := b.movements + [r]);
    HighlightsMeaning(b, spots, location, player, x, y);
    HighlightsMeaning(b', spots, location, player, x, y);
    if Highlights(b, spots, location, player)[y][x].move {
      var i :| 0 <= i < |b.movements| && Vec(x, y) in Walk(b.movements[i], location, spots, player, false);
      assert b'.movements[i] == b.movements[i];
    }
  }

  /** Adding a capture rule never clears a flag, and leaves the move flags as they are. */
  lemma AddCaptureMonotone(b: Behaviour, r: Movement, spots: Spots, location: Vec, player: Player, x: int, y: int)
    requires |spots| >= 1 && IsGrid(spots, |spots[0]|, |spots|)
    requires 0 <= y < |spots| && 0 <= x < |spots[0]|
    ensures var c := Highlights(b, spots, location, player)[y][x];
      var c' := Highlights(b.(captures := b.captures + [r]), spots, location, player)[y][x];
      (c.capture ==> c'.capture) && c'.move == c.move
  {
    var b' := b.(captures := b.captures + [r]);
    HighlightsMeaning(b, spots, location, player, x, y);
    HighlightsMeaning(b', spots, location, player, x, y);
    if Highlights(b, spots, location, player)[y][x].capture {
      var i :| 0 <= i < |b.captures| && Vec(x, y) in Walk(b.captures[i], location, spots, player, true);
      assert b'.captures[i] == b.captures[i];
    }
  }

  /**
   * Without capture rules of its own, adding a movement rule adds it to the
   * capture rules too, and neither flag of any cell is ever cleared.
   */
  lemma DefaultRuleMonotone(movements: seq<Movement>, r: Movement, spots: Spots, location: Vec, player: Player, x: int, y: int)
    requires |spots| >= 1 && IsGrid(spots, |spots[0]|, |spots|)
    requires 0 <= y < |spots| && 0 <= x < |spots[0]|
    ensures var c := Highlights(NewBehaviour(movements), spots, location, player)[y][x];
      var c' := Highlights(NewBehaviour(movements + [r]), spots, location, player)[y][x];
      (c.move ==> c'.move) && (c.capture ==> c'.capture)
  {
    var b := NewBehaviour(movements);
    var b' := NewBehaviour(movements + [r]);
    HighlightsMeaning(b, spots, location, player, x, y);
    HighlightsMeaning(b', spots, location, player, x, y);
    if Highlights(b, spots, location, player)[y][x].move {
      var i :| 0 <= i < |movements| && Vec(x, y) in Walk(movements[i], location, spots, player, false);
      assert b'.movements[i] == movements[i];
    }
    if Highlights(b, spots, location, player)[y][x].capture {
      var i :| 0 <= i < |movements| && Vec(x, y) in Walk(movements[i], location, spots, player, true);
      assert b'.captures[i] == movements[i];
    }
  }

  /** The cells all rules yield, concatenated rule after rule. */
  method CollectMoves(rules: seq<Movement>, location: Vec, spots: Spots, player: Player, capture: bool)
    returns (cells: seq<Vec>)
    ensures cells == Collect(rules, location, spots, player, capture)
  {
    ghost var ws := Walks(rules, location, spots, player, capture);
    cells := [];
    for i := 0 to |rules|
      invariant cells == Concat(ws, i)
    {
      var found := Movements.GetAllMoves(rules[i], location, spots, player, capture);
      assert found == ws[i];
      cells := cells + found;
    }
  }

  /** A `width` x `height` grid of cells with neither flag set. */
  method BlankGrid(width: nat, height: nat) returns (result: seq<seq<Cell>>)
    ensures |result| == height
    ensures forall y :: 0 <= y < height ==> |result[y]| == width
    ensures forall y, x :: 0 <= y < height && 0 <= x < width ==> result[y][x] == Blank
  {
    result := [];
    for i := 0 to height
      invariant |result| == i
      invariant forall y :: 0 <= y < i ==> |result[y]| == width
      invariant forall y, x :: 0 <= y < i && 0 <= x < width ==> result[y][x] == Blank
    {
      result := result + [[]];
      for j := 0 to width
        invariant |result| == i + 1
        invariant forall y :: 0 <= y < i ==> |result[y]| == width
        invariant forall y, x :: 0 <= y < i && 0 <= x < width ==> result[y][x] == Blank
        invariant |result[i]| == j && forall x :: 0 <= x < j ==> result[i][x] == Blank
      {
        result := result[i := result[i] + [Blank]];
      }
    }
  }

  /** Whether `grid` is `width` x `height`, every cell's move flag saying it is in `moves` and its capture flag saying it is in `captures`. */
  ghost predicate Painted(grid: seq<seq<Cell>>, width: nat, height: nat, moves: seq<Vec>, captures: seq<Vec>) {
    |grid| == height
    && (forall y :: 0 <= y < height ==> |grid[y]| == width)
    && forall y, x :: 0 <= y < height && 0 <= x < width ==> grid[y][x] == Cell(Vec(x, y) in moves, Vec(x, y) in captures)
  }

  /** Sets one flag of cell `loc`, the move flag or the capture flag. */
  method Mark(grid: seq<seq<Cell>>, loc: Vec, capture: bool) returns (result: seq<seq<Cell>>)
    requires 0 <= loc.y < |grid| && 0 <= loc.x < |grid[loc.y]|
    ensures var c := grid[loc.y][loc.x];
      result == grid[loc.y := grid[loc.y][loc.x := if capture then c.(capture := true) else c.(move := true)]]
  {
    var c := grid[loc.y][loc.x];
    if capture {
      c := c.(capture := true);
    } else {
      c := c.(move := true);
    }
    result := grid[loc.y := grid[loc.y][loc.x := c]];
  }

  /** Marking the next cell of a list keeps the grid painted with one more cell of that list. */
  lemma MarkNext(grid: seq<seq<Cell>>, width: nat, height: nat, moves: seq<Vec>, captures: seq<Vec>, loc: Vec, capture: bool)
    requires Painted(grid, width, height, moves, captures)
    requires 0 <= loc.y < height && 0 <= loc.x < width
    ensures var c := grid[loc.y][loc.x];
      var grid' := grid[loc.y := grid[loc.y][loc.x := if capture then c.(capture := true) else c.(move := true)]];
      if capture then Painted(grid', width, height, moves, captures + [loc])
      else Painted(grid', width, height, moves + [loc], captures)
  {
  }

  /** Flags every cell of `cells` in turn, for moving or for capturing. */
  method Paint(grid: seq<seq<Cell>>, width: nat, height: nat, ghost moves: seq<Vec>, ghost captures: seq<Vec>,
               cells: seq<Vec>, capture: bool)
    returns (result: seq<seq<Cell>>)
    requires Painted(grid, width, height, moves, captures)
    requires forall p :: p in cells ==> 0 <= p.y < height && 0 <= p.x < width
    ensures if capture then Painted(result, width, height, moves, captures + cells)
            else Painted(result, width, height, moves + cells, captures)
  {
    result := grid;
    for k := 0 to |cells|
      invariant if capture then Painted(result, width, height, moves, captures + cells[..k])
                else Painted(result, width, height, moves + cells[..k], captures)
    {
      assert cells[k] in cells;
      MarkNext(result, width, height, if capture then moves else moves + cells[..k],
               if capture then captures + cells[..k] else captures, cells[k], capture);
      result := Mark(result, cells[k], capture);
      assert cells[..k + 1] == cells[..k] + [cells[k]];
      assert captures + cells[..k + 1] == captures + cells[..k] + [cells[k]];
      assert moves + cells[..k + 1] == moves + cells[..k] + [cells[k]];
    }
    assert cells[..|cells|] == cells;
  }

  /** A grid painted with the cells all rules yield is the highlight grid. */
  lemma PaintedHighlights(grid: seq<seq<Cell>>, b: Behaviour, spots: Spots, location: Vec, player: Player)
    requires |spots| >= 1
    requires Painted(grid, |spots[0]|, |spots|,
                     Collect(b.movements, location, spots, player, false),
                     Collect(b.captures, location, spots, player, true))
    ensures grid == Highlights(b, spots, location, player)
  {
    var g := Highlights(b, spots, location, player);
    assert forall y :: 0 <= y < |spots| ==> grid[y] == g[y];
  }

  /**
   * Behaviour.getAllMoves: collects the cells of the movement rules and, in
   * capture mode, of the capture rules; builds an unflagged grid the size of
   * the board; then flags each collected cell.
   */
  method GetAllMoves(b: Behaviour, spots: Spots, location: Vec, player: Player) returns (result: seq<seq<Cell>>)
    requires |spots| >= 1 && IsGrid(spots, |spots[0]|, |spots|)
    ensures result == Highlights(b, spots, location, player)
  {
    var height := |spots|;
    var width := |spots[0]|;
    var movable := CollectMoves(b.movements, location, spots, player, false);
    var capturable := CollectMoves(b.captures, location, spots, player, true);
    forall p | p in movable
      ensures 0 <= p.y < height && 0 <= p.x < width
    {
      CollectMembership(b.movements, location, spots, player, false, p);
    }
    forall p | p in capturable
      ensures 0 <= p.y < height && 0 <= p.x < width
    {
      CollectMembership(b.captures, location, spots, player, true, p);
    }

    result := BlankGrid(width, height);
    result := Paint(result, width, height, [], [], movable, false);
    assert [] + movable == movable;
    result := Paint(result, width, height, movable, [], capturable, true);
    assert [] + capturable == capturable;
    PaintedHighlights(result, b, spots, location, player);
  }

  /** PieceType.getAllMoves: the highlight grid of the type's behaviour. */
  method PieceTypeMoves(t: PieceType, spots: Spots, location: Vec, player: Player) returns (result: seq<seq<Cell>>)
    requires |spots| >= 1 && IsGrid(spots, |spots[0]|, |spots|)
    ensures result == Highlights(t.behaviour, spots, location, player)
  {
    result := GetAllMoves(t.behaviour, spots, location, player);
  }
}
