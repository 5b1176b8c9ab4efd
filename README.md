# Masterdrez board in Dafny

Masterdrez is a four-player chess variant played on a cross-shaped board: a 16 x 16
grid whose four 4 x 4 corners are not part of the game. The repository has two React board
components. This project models the logic inside them:

- `MasterdrezBoard.tsx`, the drag-and-drop board. `generateBoard` builds the grid with a
  `playable` flag and four demonstration kings. `movePiece` copies the board, clears the
  moved piece object wherever it stands and puts it on the target. `handleDrop` picks the
  piece to move: the first occupied square of the flattened board. The `canDrop` gate lets a
  drop through only on playable squares, and `bgClass` picks each square's colour.
- `App.tsx`, the static board. `generateBoard` marks every square off the cross with the
  string `"null"`. `setupPieces` then places the four armies as two-letter codes (`wK`, `bP`,
  `rQ`, `uN`, ...), and the render picks a class for each square.

The board has 192 playable squares and 64 off the cross, and the static board starts with
64 pieces, 16 per side.

Modules:

- `Cross` (`cross.dfy`): the shared geometry. It holds the playable predicate, the
  checkerboard parity and the count of playable squares (192 playable, 64 off the cross).
- `Masterdrez` (`masterdrez.dfy`): the drag-and-drop board.
  - A board is an `array2<Square>`. Pieces are objects of `class Piece`, so a piece is the
    same piece only when it is the same object, as with `===` in the source.
  - `Snap` reads an array as a `seq<seq<Square>>`. The methods are proved against
    value-level functions on that snapshot (`Move`, `FirstOccupied`).
- `App` (`app.dfy`): the static board.
  - Its methods fill an `array2<Cell>` in place.
  - The methods are proved against `Initial(x, y)`, the code each square ends up with.
  - The lemmas read the initial position off `Initial`: home lines, kings, the sentinel and
    a census of the board.
- `Optional` (`option.dfy`): the `Option` type. `None` stands for an `undefined` piece.

## Model

| member | source | states |
|---|---|---|
| Cross.Playable | my-chess-app/src/MasterdrezBoard.tsx:28 | a square is on the cross when x or y lies in 4..11; the same predicate as my-chess-app/src/App.tsx:46 |
| Cross.CrossSymmetric | my-chess-app/src/App.tsx:46 | the cross is unchanged by swapping x and y and by mirroring either axis, so every side's arm has the same shape |
| Cross.Parity | my-chess-app/src/MasterdrezBoard.tsx:86-88 | an in-play square is never empty; it is light exactly when x + y is even |
| Cross.ParityAlternates | my-chess-app/src/MasterdrezBoard.tsx:86-88 | one step along a row or a column always changes light to dark and back |
| Cross.RowPrefixCount | my-chess-app/src/MasterdrezBoard.tsx:28 | a band row (y in 4..11) has all of its first n squares playable; any other row has only x in 4..11 playable |
| Cross.RowsPrefixCount | my-chess-app/src/MasterdrezBoard.tsx:25-28 | the first m rows hold 8 playable squares per outer row and 16 per band row |
| Cross.CrossSize | my-chess-app/src/MasterdrezBoard.tsx:21-37 | the grid has 192 playable squares and 64 unplayable ones |
| Cross.CornersUnplayable | my-chess-app/src/App.tsx:46 | a square is unplayable exactly when both of its coordinates lie outside 4..11 |
| Masterdrez.GenerateBoard | my-chess-app/src/MasterdrezBoard.tsx:23-46 | returns a fresh 16 x 16 board in which each square knows its coordinates and its playable flag; there is a red king at (6, 0), a blue one at (7, 13), a white one at (0, 6) and a black one at (13, 7), and every other square is empty |
| Masterdrez.DemoBoardFacts | my-chess-app/src/MasterdrezBoard.tsx:39-43 | on the demonstration board a square is occupied exactly when it is one of the four king squares; every piece is on the cross; no piece object stands on two squares |
| Masterdrez.WithoutPiece | my-chess-app/src/MasterdrezBoard.tsx:113 | a square that held the piece object becomes empty with its coordinates and flag kept; a square holding a different piece, or none, is unchanged |
| Masterdrez.Move | my-chess-app/src/MasterdrezBoard.tsx:107-120 | the target holds p; every other square that held p becomes empty and every other square keeps its piece; coordinates and playable flags never change |
| Masterdrez.MovePiece | my-chess-app/src/MasterdrezBoard.tsx:107-120 | the copy-clear-place loops produce a fresh array whose contents are Move of the old board; the old array is untouched |
| Masterdrez.MovePreserves | my-chess-app/src/MasterdrezBoard.tsx:107-120 | a move keeps the board well formed and keeps every piece object on one square; when the target is playable it also keeps all pieces on the cross |
| Masterdrez.MoveOntoOwnSquare | my-chess-app/src/MasterdrezBoard.tsx:111-117 | moving a piece onto the square it already occupies leaves the board equal to what it was |
| Masterdrez.MoveOverwrites | my-chess-app/src/MasterdrezBoard.tsx:117 | a different piece standing on the target disappears from the board |
| Masterdrez.MoveRelocates | my-chess-app/src/MasterdrezBoard.tsx:107-120 | moving a piece to an empty square empties its old square, fills the target and leaves every other square as it was |
| Masterdrez.Flat | my-chess-app/src/MasterdrezBoard.tsx:123 | board.flat() of a board of full rows has 16 squares per row |
| Masterdrez.FlatAt | my-chess-app/src/MasterdrezBoard.tsx:123 | in the flattened board the square (x, y) sits at position 16 * y + x |
| Masterdrez.FindOccupied | my-chess-app/src/MasterdrezBoard.tsx:123 | returns the position of an occupied square with only empty squares before it, or None exactly when no square is occupied |
| Masterdrez.FirstOccupied | my-chess-app/src/MasterdrezBoard.tsx:123 | the square found holds a piece |
| Masterdrez.FirstOccupiedRowMajor | my-chess-app/src/MasterdrezBoard.tsx:122-125 | handleDrop finds nothing exactly when the board is empty; otherwise it finds the occupied square that comes first in row-major order (y, then x), and that square is the one found |
| Masterdrez.CanDrop | my-chess-app/src/MasterdrezBoard.tsx:77 | a drop is accepted exactly on the playable squares of the cross |
| Masterdrez.HandleDrop | my-chess-app/src/MasterdrezBoard.tsx:122-125 | an empty board is left as it is; otherwise the board becomes a fresh Move of the first occupied square's piece to (x, y) |
| Masterdrez.Drop | my-chess-app/src/MasterdrezBoard.tsx:74-82 | drops outside the cross change nothing; on the cross the drop is handleDrop; either way the board stays well formed, pieces stay on the cross and no piece object stands twice |
| Masterdrez.DemoDropMovesRedKing | my-chess-app/src/MasterdrezBoard.tsx:39-43 | on the demonstration board every drop takes the red king at (6, 0), whichever piece was dragged |
| Masterdrez.DemoDragIgnored | my-chess-app/src/MasterdrezBoard.tsx:49-56 | dragging the blue king to (7, 12) on the demonstration board leaves the blue king where it was and puts another piece on (7, 12) |
| Masterdrez.DropDragged | my-chess-app/src/MasterdrezBoard.tsx:49-56 | the corrected drop moves the dragged piece itself: off the cross nothing changes; on the cross the dragged piece stands on the target and the move's invariants hold |
| Masterdrez.BgClass | my-chess-app/src/MasterdrezBoard.tsx:84-88 | a square is empty exactly when it is unplayable; a playable square is light exactly when x + y is even |
| Masterdrez.BoardShading | my-chess-app/src/MasterdrezBoard.tsx:84-88 | on a well-formed board the corners render empty and neighbouring cross squares alternate light and dark, along rows and along columns |
| App.ArmyPiece | my-chess-app/src/App.tsx:19-37 | a side writes only two-letter codes made of its own colour letter and a piece letter, and only on playable grid squares |
| App.ArmyLines | my-chess-app/src/App.tsx:19-37 | the source's i-th back-rank write and i-th pawn write land where ArmyPiece puts them, inside the grid, and nowhere else on that line |
| App.ArmiesDisjoint | my-chess-app/src/App.tsx:13-38 | no square is written by two armies, so the order of the four blocks does not matter |
| App.ArmyAt | my-chess-app/src/App.tsx:13-38 | after setupPieces a square holds a two-letter code other than "null", and only on a playable grid square |
| App.Initial | my-chess-app/src/App.tsx:41-53 | a code that is not the sentinel has two letters |
| App.BackRankPiece | my-chess-app/src/App.tsx:20-21 | the back-rank loop writes only what the army's placement puts on that square |
| App.PlaceBackRank | my-chess-app/src/App.tsx:20-21 | in place, writes each side's R N B Q K B N R along its home edge and leaves every other square as it was |
| App.PlacePawns | my-chess-app/src/App.tsx:22 | in place, writes the side's eight pawns one line in from its edge and leaves every other square as it was |
| App.PlaceArmy | my-chess-app/src/App.tsx:19-22 | in place, one army's back rank and pawns, nothing else |
| App.SetupPieces | my-chess-app/src/App.tsx:13-38 | in place, the four armies in the source's order; every other square keeps its contents |
| App.GenerateBoard | my-chess-app/src/App.tsx:41-53 | returns a fresh 16 x 16 board whose cell (x, y) has its own coordinates and the initial code of that square |
| App.SentinelOffCross | my-chess-app/src/App.tsx:46-47 | after setup the "null" sentinel sits exactly on the unplayable squares; every empty square is playable |
| App.PieceCodes | my-chess-app/src/App.tsx:21-37 | every piece code is one of w, b, r, u followed by one of K, Q, R, B, N, P |
| App.HomeLines | my-chess-app/src/App.tsx:19-37 | white's back rank is on row 15 and its pawns on row 14, black's on rows 0 and 1, red's on columns 0 and 1, blue's on columns 15 and 14, each back rank in R N B Q K B N R order from square 4 |
| App.OwnArmy | my-chess-app/src/App.tsx:13-38 | a piece whose code starts with a side's letter was placed by that side |
| App.KingOnlyThere | my-chess-app/src/App.tsx:20-36 | a side's king code appears only on that side's king square |
| App.OneKingEach | my-chess-app/src/App.tsx:20-36 | each side has exactly one king: white at (8, 15), black at (8, 0), red at (0, 8), blue at (15, 8) |
| App.MiddleRowCounts | my-chess-app/src/App.tsx:31-37 | each row 4..11 holds two red codes, twelve empty squares and two blue codes |
| App.OuterRowCounts | my-chess-app/src/App.tsx:21-27 | each outer row holds 8 sentinels plus 8 black codes (rows 0, 1), 8 white codes (rows 14, 15) or 8 empty squares (rows 2, 3, 12, 13) |
| App.RowCounts | my-chess-app/src/App.tsx:41-53 | every row's count of each content equals that row's census |
| App.Census | my-chess-app/src/App.tsx:41-53 | the initial board has 64 sentinel squares, 128 empty playable squares and 16 pieces of each colour w, b, r and u (64 in all), and no other codes |
| App.RenderClass | my-chess-app/src/App.tsx:71-77 | a square renders empty exactly when it holds the "null" sentinel |
| App.RenderAgreesWithBgClass | my-chess-app/src/App.tsx:71-77 | on the initial board the static render gives every square the same class as bgClass of the drag-and-drop board, and a square renders empty exactly when it is unplayable |

## Left out

- React state (`useState`, `setBoard`) and the render cycle: a new board is a method result, not a state update.
- `handleDrop` looks for the piece on the rendered `board`, while `movePiece` applies its updater to `prev`. The model uses one board for both, so a stale rendered board is not modelled.
- The react-dnd wiring (`useDrag`, `useDrop`, `DndProvider`, hover outlines, `isDragging` opacity): only the `canDrop` gate and the drop callback are modelled.
- `getPieceImage` in `App.tsx` builds an asset URL and is not modelled; neither are the CSS file and the JSX markup.
- `my-chess-app/App.jsx` and `my-chess-app/src/types/react-chessground.d.ts` only wire the components together and declare types; they are not part of this model.
- The source builds rows by `push` onto empty arrays. The model allocates a 16 x 16 `array2` up front and fills it in the same order.
- `board.flat().find(...)` returns a square. The model finds its position in the flattened board and then takes the square at that position.
- Masterdrez.Drop: assumes the board it receives is well formed (16 x 16, each square with its own coordinates); the component only ever holds boards that generateBoard and movePiece produced.

## Findings

| source | as written | input that shows it | evidently intended | confidence | as-written member | corrected member |
|---|---|---|---|---|---|---|
| my-chess-app/src/MasterdrezBoard.tsx:122-125 | `handleDrop` moves the first occupied square's piece in row-major order. It ignores the dragged item `{ piece }` of line 52, although the comment on line 123 says it fetches the dragged piece | on the initial board, drag the blue king from (7, 13) to (7, 12): the red king from (6, 0) lands on (7, 12) and the blue king stays put | the dragged piece moves to the drop square | not executed; high | Masterdrez.DemoDragIgnored | Masterdrez.DropDragged |
