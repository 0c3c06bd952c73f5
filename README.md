# Chess move generation, modelled in Dafny

This project models the move-generation engine of a small browser chess game
(`script.js`), together with the occupancy board it reads.

- **Board.** The board is a dense `spots[y][x]` grid. Each cell is empty or
  holds a piece, which has a type name and a player number. `addPiece`,
  `removePiece` and `movePiece` update the grid in place.
- **Movement rule.** A rule is a list of delta vectors, a number of extra
  quarter-turned variants (`rotate`) and a repetition count (`times`, possibly
  unbounded). The walker first turns a copy of the vectors once for each step
  of the player's facing index. It then walks `rotate + 1` variants, each
  turned clockwise one more quarter than the last. A variant is walked by
  moving a cursor through the vector list up to `times` times.
- **Move mode and capture mode.** In move mode the walker records empty cells
  and stops at the first occupied one. In capture mode it records a cell held
  by another player's piece, and stops at any piece.
- **Leaving the board, or hitting a piece in capture mode.** Either event
  cancels only the *next* repetition. The rest of the current vector list is
  still applied.
- **Behaviour.** A behaviour concatenates what its movement rules yield in
  move mode and what its capture rules yield in capture mode. Capture rules
  default to the movement rules. It paints both lists into a fresh
  height × width grid of `{move, capture}` flags.

The source is imperative, so the model is too:

- The board is a class with a `spots` field.
- The walker (`Movements.GetAllMoves`, built from `WalkRay`, `WalkPass`,
  `OrientForPlayer` and `RotateLocations`) is a set of methods with the
  source's loops.
- The behaviour's grid building (`Behaviours.GetAllMoves`, built from
  `CollectMoves`, `BlankGrid` and `Paint`) is likewise a set of methods.

Each method is proved equal to a specification function:

- The walker is specified step by step. `PassUpTo` covers one repetition,
  `RayUpTo` the repetitions of one variant, and `Walk` all variants.
- The grid is specified by `Highlights`.

The lemmas of `MovementFacts`, `Behaviours` and `Catalog` then prove what the
engine promises of those functions: bounds, ownership, blocking, rotation, the
`continue` quirk, and the concrete behaviour of the pawn, knight and rook.

Files:

- `geometry.dfy`: vectors, quarter turns, net displacement, concatenation.
- `board.dfy`: pieces, the grid and the `Board` class.
- `movement.dfy`: rules, players and the walker proved against its
  specification.
- `movement_facts.dfy`: properties of the walker.
- `behaviour.dfy`: behaviours, piece types and the highlight grid.
- `catalog.dfy`: the shipped piece types and players, and lemmas about them.

## Model

| member | source | states |
|---|---|---|
| Geometry.RotateFour | script.js:333-340 | turning a vector four quarter turns gives the vector back |
| Geometry.RotateCompose | script.js:333-355 | turning `a` times and then `b` times is turning `a + b` times, so the facing turns and the variant turns add up |
| Geometry.RotatePeriodic | script.js:333-355 | only the number of quarter turns modulo four matters |
| Geometry.RotateAllCompose | script.js:333-355 | turning every vector of a rule composes the same way |
| Geometry.SumRotateAll | script.js:333-355 | the net displacement of a turned rule is the turned net displacement |
| Geometry.RotateLinear | script.js:336-337 | a quarter turn is linear, and maps only the zero vector to zero |
| Geometry.ShiftScales | script.js:357-360 | `k` steps of `v` from `c` land on `c + k·v` |
| Geometry.ConcatMembership | script.js:278 | a cell is in a concatenation of lists exactly when it is in one of them |
| Boards.PlaceAt | script.js:84 | overwriting one cell keeps the board's shape and changes that cell only |
| Boards.MoveAt | script.js:86-89 | after a move, `from` is empty, `to` holds the old occupant of `from` (so `from == to` deletes the piece), and every other cell is unchanged |
| Boards.Board.constructor | script.js:53-73 | builds `height` rows of `width` empty cells |
| Boards.Board.GetHeight | script.js:74-76 | the number of rows, at least 1 |
| Boards.Board.GetWidth | script.js:77-79 | the length of the first row, which every row shares |
| Boards.Board.AddPiece | script.js:83-85 | only the target cell is overwritten, with whatever was given |
| Boards.Board.RemovePiece | script.js:90-92 | only the target cell is emptied |
| Boards.Board.MovePiece | script.js:86-89 | the new grid is the old one with the occupant of `from` put at `to` and then `from` emptied, cell by cell as in `MoveAt` |
| Movements.IndexOf | script.js:324 | the first position of the element, or -1 exactly when it is absent |
| Movements.RotateLocations | script.js:349-354 | the vector list turned once clockwise, vector by vector |
| Movements.OrientForPlayer | script.js:324-340 | a copy of the rule's vectors turned once per step of the facing index, and not at all for an unknown facing |
| Movements.WalkPass | script.js:358-385 | one repetition of the inner loop yields the cursor, the recorded cells and the cancel flag of `PassUpTo` |
| Movements.WalkRay | script.js:343-386 | all repetitions of one variant yield the cells of `RayUpTo`, stopping after the first cancelling repetition |
| Movements.HaltedStays | script.js:381-384 | after a `break` in move mode, the rest of the vector list changes nothing |
| Movements.StoppedStays | script.js:357-386 | once `maxj = 0`, later repetitions change nothing |
| Movements.NextVariant | script.js:348-355 | turning variant `i`'s vectors once gives variant `i + 1`'s |
| Movements.GetAllMoves | script.js:321-390 | the walker's result is `Walk`: the variants' rays concatenated in order |
| MovementFacts.WalkSound | script.js:362-384 | every cell a rule yields is on the board; in move mode it is empty, in capture mode it holds another player's piece |
| MovementFacts.PassSound | script.js:369-380 | every cell recorded in one repetition is recordable in its mode |
| MovementFacts.RaySound | script.js:357-386 | every cell recorded by a variant is recordable in its mode |
| MovementFacts.WalkVariants | script.js:342-355 | a cell is yielded exactly when one of the `rotate + 1` variants records it, and variant `i` walks the rule's vectors turned (facing index + i) times |
| MovementFacts.FacingTurns | script.js:324 | north, east, south and west give 0, 1, 2 and 3 turns; any other facing gives 0 |
| MovementFacts.UnreadFlags | script.js:313-318 | `jump` and `rotateForPlayer` do not change what a rule yields |
| MovementFacts.PassOutcome | script.js:358-385 | a repetition ends early exactly in move mode when some cursor position holds a piece; otherwise the cursor visits every cumulative position, records those its mode allows, and cancels the next repetition exactly when some position was off the board or occupied |
| MovementFacts.PassHalts | script.js:377-384 | in move mode, a repetition that ends early ends at the first cursor position holding a piece, with the cursor there, having recorded exactly the empty positions before it and nothing at or beyond it |
| MovementFacts.OffBoardContinues | script.js:362-365 | on an empty 6×6 board from (0, 0), the rule `[(-1, 0), (1, 1)]` repeated twice records (0, 1): stepping off the board does not stop the current repetition |
| MovementFacts.SinglePass | script.js:358-385 | one repetition of a one-vector list visits the next cell, records it when its mode allows, and cancels unless that cell is on the board and empty |
| MovementFacts.SingleStep | script.js:357-386 | a one-vector list walked once records the next cell exactly when its mode allows |
| MovementFacts.SingleVectorVariant | script.js:333-355 | variant `i` of a one-vector rule is that vector turned (facing index + i) times |
| MovementFacts.FreeSteps | script.js:377-384 | the number of leading free cells along a vector is at most the bound, and when below it the next cell is not free |
| MovementFacts.FreeStepsFree | script.js:377-380 | every cell before that count is on the board and empty |
| MovementFacts.Steps | script.js:378-380 | the cells `c + v`, …, `c + m·v`, one per step |
| MovementFacts.StepsCells | script.js:378-380 | the `i`-th of those cells is `c + (i + 1)·v` |
| MovementFacts.SlideMoves | script.js:377-384 | in move mode a one-vector ray records exactly the leading empty cells along its vector, stops at the first occupied or off-board cell, and records nothing at or beyond it |
| MovementFacts.SlideCaptures | script.js:369-376 | in capture mode a one-vector ray passes over empty cells, records the first occupied cell only when another player owns it, and stops there whoever owns it |
| MovementFacts.PassCursor | script.js:359-360 | until a repetition cancels, the cursor is the origin plus the vectors walked so far, and on the board |
| MovementFacts.RayCursor | script.js:343-360 | until a ray stops, after `j` repetitions the cursor stands on the board at `c + j·Sum(vs)` |
| MovementFacts.Escapes | script.js:362-365 | moving `f ≥ w` times by a nonzero step leaves an interval of width `w` |
| MovementFacts.FuelSuffices | script.js:357-365 | a ray with nonzero net displacement from a cell on the board stops within `height + width` repetitions |
| MovementFacts.RayFuel | script.js:346-357 | any `n` at least that bound gives a variant the same ray as the bound |
| MovementFacts.RaysFuel | script.js:342-357 | the same holds for all variants together |
| MovementFacts.UnboundedIsLimit | script.js:313-357 | for nonzero net displacement, `times = Infinity` yields what any `times = n ≥ height + width` yields |
| MovementFacts.ReachSucc | script.js:359-360 | the cursor moves cumulatively, one vector at a time |
| Behaviours.NewBehaviour | script.js:265-268 | the movement rules and `fires` are kept; the capture rules are the given ones, or the movement rules when none are given |
| Behaviours.CollectMembership | script.js:277-282 | a cell is collected exactly when one of the rules yields it, and then it is on the board and recordable in its mode |
| Behaviours.Highlights | script.js:284-292 | the grid has as many rows as the board and as many cells per row as its first row |
| Behaviours.HighlightsMeaning | script.js:277-301 | a cell's move flag is set exactly when some movement rule yields it, and it is then empty; its capture flag is set exactly when some capture rule yields it in capture mode, and it then holds another player's piece |
| Behaviours.DefaultCaptures | script.js:267-299 | without capture rules, a cell's capture flag is set exactly when a movement rule yields it in capture mode |
| Behaviours.AddMovementMonotone | script.js:277-299 | adding a movement rule never clears a move flag and leaves every capture flag as it was |
| Behaviours.AddCaptureMonotone | script.js:280-282 | adding a capture rule never clears a capture flag and leaves every move flag as it was |
| Behaviours.DefaultRuleMonotone | script.js:265-282 | without capture rules of its own, adding a movement rule also adds it to the capture rules, and then neither flag of any cell is cleared |
| Behaviours.CollectMoves | script.js:277-282 | the loop concatenates the rules' walks, rule after rule |
| Behaviours.BlankGrid | script.js:284-292 | `height` rows of `width` cells with neither flag set |
| Behaviours.Mark | script.js:294-299 | only the one flag of the one cell is set |
| Behaviours.MarkNext | script.js:294-299 | marking the next listed cell keeps the grid painted with one more cell of that list |
| Behaviours.Paint | script.js:294-299 | after the loop, every flag says whether its cell is in the painted list |
| Behaviours.PaintedHighlights | script.js:284-301 | a grid painted with the collected cells is the highlight grid |
| Behaviours.GetAllMoves | script.js:270-302 | the method returns the highlight grid |
| Behaviours.PieceTypeMoves | script.js:260-262 | a piece type's moves are its behaviour's highlight grid |
| Catalog.JumpRay | script.js:357-386 | variant `i` of a one-vector rule, walked once, records its turned cell when the mode allows |
| Catalog.JumpVariant | script.js:342-386 | the same, for each variant of the rule |
| Catalog.JumpWalk | script.js:342-386 | a one-vector rule walked once yields its turned cells, variant after variant |
| Catalog.JumpOnce | script.js:342-386 | a one-vector rule with `rotate = 0` walked once yields at most the one cell of its vector turned to the facing |
| Catalog.JumpPair | script.js:342-386 | the same with `rotate = 1`: the turned cell, then the one a further quarter round |
| Catalog.JumpFour | script.js:342-386 | the same with `rotate = 3`: the four turned cells in clockwise order |
| Catalog.SlideRay | script.js:377-384 | variant `i` of a one-vector rule in move mode is the slide along its turned vector |
| Catalog.SlideVariant | script.js:342-384 | the same, for each variant of the rule |
| Catalog.SlideWalk | script.js:342-386 | a one-vector rule in move mode yields the slides along its turned vectors, variant after variant |
| Catalog.SlideFour | script.js:342-386 | with `rotate = 3`, the four slides in clockwise order |
| Catalog.RookSlidesNorth | script.js:427-429 | a rook facing north slides along (1, 0), (0, −1), (−1, 0) and (0, 1) in that order, each time over the empty cells up to the first occupied one or the edge of the board |
| Catalog.PawnStepsNorth | script.js:445-446 | a pawn facing north moves to (x, y+1) when that cell is on the board and empty, and nowhere else |
| Catalog.PawnStepsSouth | script.js:445-446 | a pawn facing south moves to (x, y−1) when that cell is on the board and empty, and nowhere else |
| Catalog.PawnStepsUnknownFacing | script.js:324 | with an unrecognised facing, the pawn moves as if facing north |
| Catalog.PawnCapturesNorth | script.js:447-448 | facing north, a pawn captures at (x−1, y+1), then (x+1, y+1), wherever another player's piece stands |
| Catalog.PawnCapturesSouth | script.js:447-448 | facing south, a pawn captures at (x+1, y−1), then (x−1, y−1) |
| Catalog.KnightWideJumps | script.js:442 | facing north, the knight's first rule reaches (2, 1), (1, −2), (−2, −1) and (−1, 2) from its square, each when its mode records it |
| Catalog.KnightTallJumps | script.js:443 | facing north, the knight's second rule reaches (1, 2), (2, −1), (−1, −2) and (−2, 1) from its square, each when its mode records it |
| Catalog.PawnHighlightsNorth | script.js:445-449 | on a pawn's highlight grid, facing north, exactly the empty cell above is flagged for moving, and exactly the two diagonal cells above that hold another player's piece are flagged for capturing |

## Left out

- `Painter` (DOM table building, CSS classes, images) and `GameMaster` (click handling over the rendered page) are user interface. They are not part of this model.
- The page bootstrap and the initial layout are not modelled as code. The piece catalog and the two players appear only as constants in `catalog.dfy`.
- `script.old.js` is an earlier version that the current script supersedes. It is not part of this model.
- `Board`'s stored `pieceTypes` and `players` are never read by the engine, so they are not fields of the model.
- Boards.Board.constructor: `width < 1` or `height < 1` is a precondition. The source logs an error and returns an object that has no `spots`.
- Boards.Board.AddPiece, Boards.Board.RemovePiece and Boards.Board.MovePiece: the target cells must be on the board. In the source, an out-of-range index would make the row grow or throw.
- Boards.Board.MovePiece from an empty cell follows the code: it empties `to` and reports nothing. Refusing such a move would be safer, but the model keeps the code's behaviour.
- MovementFacts.UnboundedIsLimit: `times = Infinity` is modelled by a repetition bound of `height + width`. The model matches the source only for rules whose net displacement is nonzero. For a zero-displacement rule that never hits a stop, the source loops forever, whereas the model stops at the bound.
- `Movement.jump`, `Behaviour.fires` and `Movement.rotateForPlayer` are kept in the data but never read. The commented-out king "blink" branch is not modelled.
- The walker reads its inputs as values. That it leaves the rule's `locations` and the board unchanged holds because the model's methods have no `modifies` clause. The aliasing of the source's shallow copies is not modelled.
- Behaviours.GetAllMoves and Behaviours.PieceTypeMoves require a rectangular board with at least one row. On a ragged board the source could index past the end of a shorter row; on an empty board it fails on `spots[0]`.
- Catalog: the queen, bishop and king are not expanded cell by cell. Their rules are one-vector rules covered by `SlideFour` and `JumpFour`.
- Catalog: the rook and the knight are expanded only for a player facing north. Any other facing is covered by `SlideFour` and `JumpFour` with the turn count given by `FacingTurns`.
- `Times`: a count of 0 gives no repetitions, as the loop at script.js:357 does. A comment in the source (script.js:308) calls 0 infinite; the model follows the code, and only `Unbounded` repeats until stopped.
