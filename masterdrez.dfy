/**
 * The drag-and-drop Masterdrez board: a 16 x 16 grid of squares, four demonstration
 * kings, and the move executor that the drop handler calls.
 */
module Masterdrez {
  import opened Optional
  import opened Cross

  datatype Color = White | Black | Red | Blue
  datatype Kind = King | Queen | Rook | Bishop | Knight | Pawn

  /** A piece object. Pieces are compared by reference, so two white kings stay distinct. */
  class Piece {
    const color: Color
    const kind: Kind

    constructor (color: Color, kind: Kind)
      ensures this.color == color && this.kind == kind
    {
      this.color := color;
      this.kind := kind;
    }
  }

  /** One square of the board; `piece` is None where the source leaves it undefined. */
  datatype Square = Square(x: int, y: int, piece: Option<Piece>, playable: bool)

  /** A board snapshot, indexed g[y][x]. */
  type Grid = seq<seq<Square>>

  /** The value held by a board array, row by row. */
  function Snap(board: array2<Square>): (g: Grid)
    reads board
    ensures |g| == board.Length0
    ensures forall y :: 0 <= y < |g| ==> |g[y]| == board.Length1
    ensures forall y, x :: 0 <= y < board.Length0 && 0 <= x < board.Length1 ==> g[y][x] == board[y, x]
  {
    seq(board.Length0, y requires 0 <= y < board.Length0 reads board =>
      seq(board.Length1, x requires 0 <= x < board.Length1 reads board => board[y, x]))
  }

  /** 16 rows of 16 squares, each knowing its own coordinates and whether it lies on the cross. */
  ghost predicate WellFormed(g: Grid)
  {
    |g| == Size &&
    (forall y :: 0 <= y < Size ==> |g[y]| == Size) &&
    (forall y, x :: 0 <= y < Size && 0 <= x < Size ==>
      |g[y]| == Size && g[y][x].x == x && g[y][x].y == y && g[y][x].playable == Playable(x, y))
  }

  /** Every occupied square is a playable one. */
  ghost predicate OnlyOnCross(g: Grid)
    requires WellFormed(g)
  {
    forall y, x :: OnGrid(x, y) && g[y][x].piece.Some? ==> g[y][x].playable
  }

  /** No piece object stands on two squares. */
  ghost predicate UniquePieces(g: Grid)
    requires WellFormed(g)
  {
    forall y1, x1, y2, x2 ::
      OnGrid(x1, y1) && OnGrid(x2, y2) && g[y1][x1].piece.Some? && g[y1][x1].piece == g[y2][x2].piece
      ==> x1 == x2 && y1 == y2
  }

  // ---------------------------------------------------------------- generateBoard

  predicate IsDemoSquare(x: int, y: int)
  {
    (x, y) == (6, 0) || (x, y) == (7, 13) || (x, y) == (0, 6) || (x, y) == (13, 7)
  }

  ghost predicate HoldsKing(g: Grid, x: int, y: int, c: Color)
    requires WellFormed(g) && OnGrid(x, y)
  {
    g[y][x].piece.Some? && g[y][x].piece.value.color == c && g[y][x].piece.value.kind == King
  }

  /** The board generateBoard hands out: the empty cross plus four kings. */
  ghost predicate DemoBoard(g: Grid)
  {
    WellFormed(g) &&
    HoldsKing(g, 6, 0, Red) && HoldsKing(g, 7, 13, Blue) &&
    HoldsKing(g, 0, 6, White) && HoldsKing(g, 13, 7, Black) &&
    (forall y, x :: OnGrid(x, y) && !IsDemoSquare(x, y) ==> g[y][x].piece.None?)
  }

  /** Reads the demonstration board off the cells of the array generateBoard fills. */
  lemma DemoFromCells(board: array2<Square>)
    requires board.Length0 == Size && board.Length1 == Size
    requires forall r, c :: 0 <= r < Size && 0 <= c < Size ==>
      board[r, c].x == c && board[r, c].y == r && board[r, c].playable == Playable(c, r) &&
      (!IsDemoSquare(c, r) ==> board[r, c].piece.None?)
    requires board[0, 6].piece.Some? && board[0, 6].piece.value.color == Red && board[0, 6].piece.value.kind == King
    requires board[13, 7].piece.Some? && board[13, 7].piece.value.color == Blue && board[13, 7].piece.value.kind == King
    requires board[6, 0].piece.Some? && board[6, 0].piece.value.color == White && board[6, 0].piece.value.kind == King
    requires board[7, 13].piece.Some? && board[7, 13].piece.value.color == Black && board[7, 13].piece.value.kind == King
    ensures DemoBoard(Snap(board))
  {
  }

  method GenerateBoard() returns (board: array2<Square>)
    ensures fresh(board)
    ensures DemoBoard(Snap(board))
  {
    board := new Square[Size, Size];
    for y := 0 to Size
      invariant forall r, c :: 0 <= r < y && 0 <= c < Size ==> board[r, c] == Square(c, r, None, Playable(c, r))
    {
      for x := 0 to Size
        invariant forall r, c :: 0 <= r < y && 0 <= c < Size ==> board[r, c] == Square(c, r, None, Playable(c, r))
        invariant forall c :: 0 <= c < x ==> board[y, c] == Square(c, y, None, Playable(c, y))
      {
        var playable := (x >= 4 && x <= 11) || (y >= 4 && y <= 11);
        board[y, x] := Square(x, y, None, playable);
      }
    }
    var red := new Piece(Red, King);
    var blue := new Piece(Blue, King);
    var white := new Piece(White, King);
    var black := new Piece(Black, King);
    board[0, 6] := board[0, 6].(piece := Some(red));
    board[13, 7] := board[13, 7].(piece := Some(blue));
    board[6, 0] := board[6, 0].(piece := Some(white));
    board[7, 13] := board[7, 13].(piece := Some(black));
    DemoFromCells(board);
  }

  /** The demonstration board has exactly four occupied squares, all on the cross, holding four distinct kings. */
  lemma DemoBoardFacts(g: Grid)
    requires DemoBoard(g)
    ensures forall y, x :: OnGrid(x, y) ==> (g[y][x].piece.Some? <==> IsDemoSquare(x, y))
    ensures OnlyOnCross(g)
    ensures UniquePieces(g)
  {
  }

  // ---------------------------------------------------------------- movePiece

  /** The square after the clearing pass: emptied when it held `p` itself. */
  function WithoutPiece(sq: Square, p: Piece): (r: Square)
    ensures r.x == sq.x && r.y == sq.y && r.playable == sq.playable
    ensures sq.piece == Some(p) ==> r == sq.(piece := None)
    ensures sq.piece != Some(p) ==> r == sq
  {
    if sq.piece == Some(p) then sq.(piece := None) else sq
  }

  /** The board after moving `p` to (x, y): every copy of `p` is cleared, then `p` overwrites the target. */
  function Move(g: Grid, x: int, y: int, p: Piece): (r: Grid)
    requires 0 <= y < |g| && 0 <= x < |g[y]|
    ensures |r| == |g| && forall j :: 0 <= j < |g| ==> |r[j]| == |g[j]|
    ensures r[y][x].piece == Some(p)
    ensures forall j, i :: 0 <= j < |g| && 0 <= i < |g[j]| ==>
      r[j][i].x == g[j][i].x && r[j][i].y == g[j][i].y && r[j][i].playable == g[j][i].playable
    ensures forall j, i :: 0 <= j < |g| && 0 <= i < |g[j]| && (j, i) != (y, x) ==>
      r[j][i].piece == (if g[j][i].piece == Some(p) then None else g[j][i].piece)
  {
    var cleared := seq(|g|, j requires 0 <= j < |g| =>
      seq(|g[j]|, i requires 0 <= i < |g[j]| => WithoutPiece(g[j][i], p)));
    cleared[y := cleared[y][x := cleared[y][x].(piece := Some(p))]]
  }

  method MovePiece(prev: array2<Square>, x: int, y: int, piece: Piece) returns (next: array2<Square>)
    requires 0 <= y < prev.Length0 && 0 <= x < prev.Length1
    ensures fresh(next)
    ensures Snap(next) == Move(Snap(prev), x, y, piece)
  {
    next := new Square[prev.Length0, prev.Length1]((r, c) reads prev =>
      if 0 <= r < prev.Length0 && 0 <= c < prev.Length1 then prev[r, c] else Square(c, r, None, false));
    for j := 0 to next.Length0
      invariant forall r, c :: 0 <= r < next.Length0 && 0 <= c < next.Length1 ==>
        next[r, c] == if r < j then WithoutPiece(prev[r, c], piece) else prev[r, c]
    {
      for i := 0 to next.Length1
        invariant forall r, c :: 0 <= r < next.Length0 && 0 <= c < next.Length1 ==>
          next[r, c] == if r < j || (r == j && c < i) then WithoutPiece(prev[r, c], piece) else prev[r, c]
      {
        if next[j, i].piece == Some(piece) {
          next[j, i] := next[j, i].(piece := None);
        }
      }
    }
    next[y, x] := next[y, x].(piece := Some(piece));
    ghost var want := Move(Snap(prev), x, y, piece);
    forall r | 0 <= r < next.Length0
      ensures Snap(next)[r] == want[r]
    {
    }
  }

  /** A move keeps the board well formed, keeps pieces unique, and keeps pieces on the cross when the target is on it. */
  lemma MovePreserves(g: Grid, x: int, y: int, p: Piece)
    requires WellFormed(g) && OnGrid(x, y)
    ensures WellFormed(Move(g, x, y, p))
    ensures UniquePieces(g) ==> UniquePieces(Move(g, x, y, p))
    ensures OnlyOnCross(g) && Playable(x, y) ==> OnlyOnCross(Move(g, x, y, p))
  {
  }

  /** Moving a piece onto the only square it occupies gives back the same board. */
  lemma MoveOntoOwnSquare(g: Grid, x: int, y: int, p: Piece)
    requires WellFormed(g) && OnGrid(x, y) && UniquePieces(g)
    requires g[y][x].piece == Some(p)
    ensures Move(g, x, y, p) == g
  {
    var r := Move(g, x, y, p);
    forall j | 0 <= j < Size
      ensures r[j] == g[j]
    {
      forall i | 0 <= i < Size
        ensures r[j][i] == g[j][i]
      {
      }
    }
  }

  /** A piece standing alone on the target is overwritten and so leaves the board. */
  lemma MoveOverwrites(g: Grid, x: int, y: int, p: Piece, q: Piece)
    requires WellFormed(g) && OnGrid(x, y) && UniquePieces(g)
    requires g[y][x].piece == Some(q) && q != p
    ensures forall j, i :: OnGrid(i, j) ==> Move(g, x, y, p)[j][i].piece != Some(q)
  {
  }

  /** Moving a piece from its square to an empty one: the old square empties, nothing else changes. */
  lemma MoveRelocates(g: Grid, x0: int, y0: int, x: int, y: int, p: Piece)
    requires WellFormed(g) && OnGrid(x0, y0) && OnGrid(x, y) && UniquePieces(g)
    requires g[y0][x0].piece == Some(p) && g[y][x].piece.None?
    ensures Move(g, x, y, p)[y][x] == g[y][x].(piece := Some(p))
    ensures Move(g, x, y, p)[y0][x0] == g[y0][x0].(piece := None)
    ensures forall j, i :: OnGrid(i, j) && (i, j) != (x0, y0) && (i, j) != (x, y) ==> Move(g, x, y, p)[j][i] == g[j][i]
  {
  }

  // ---------------------------------------------------------------- handleDrop

  /** The board flattened row after row (board.flat()): a board of full rows gives Size squares per row. */
  function Flat(g: Grid): (s: seq<Square>)
    ensures (forall j :: 0 <= j < |g| ==> |g[j]| == Size) ==> |s| == Size * |g|
  {
    if g == [] then [] else g[0] + Flat(g[1..])
  }

  /** Square (x, y) of the board is entry Size * y + x of the flattened board. */
  lemma {:induction false} FlatAt(g: Grid, y: int, x: int)
    requires forall j :: 0 <= j < |g| ==> |g[j]| == Size
    requires 0 <= y < |g| && 0 <= x < Size
    ensures |Flat(g)| == Size * |g|
    ensures Flat(g)[Size * y + x] == g[y][x]
  {
    if y > 0 {
      FlatAt(g[1..], y - 1, x);
    }
  }

  /** Position of the first square that holds a piece (the square that find returns). */
  function FindOccupied(s: seq<Square>): (r: Option<nat>)
    ensures r.Some? ==> r.value < |s| && s[r.value].piece.Some?
    ensures r.Some? ==> forall k :: 0 <= k < r.value ==> s[k].piece.None?
    ensures r.None? ==> forall k :: 0 <= k < |s| ==> s[k].piece.None?
  {
    if s == [] then None
    else if s[0].piece.Some? then Some(0)
    else match FindOccupied(s[1..])
      case None => None
      case Some(k) => Some(k + 1)
  }

  /** The square handleDrop takes its piece from: the first occupied one of the flattened board. */
  function FirstOccupied(g: Grid): (r: Option<Square>)
    ensures r.Some? ==> r.value.piece.Some?
  {
    match FindOccupied(Flat(g))
    case None => None
    case Some(k) => Some(Flat(g)[k])
  }

  /** (x, y) is occupied and every square before it in row-major order (y, then x) is empty. */
  ghost predicate FirstInRowMajor(g: Grid, x: int, y: int)
    requires WellFormed(g)
  {
    OnGrid(x, y) && g[y][x].piece.Some? &&
    forall j, i :: OnGrid(i, j) && (j < y || (j == y && i < x)) ==> g[j][i].piece.None?
  }

  /** handleDrop's choice is the first occupied square in row-major order, and there is none only on an empty board. */
  lemma FirstOccupiedRowMajor(g: Grid)
    requires WellFormed(g)
    ensures FirstOccupied(g).None? <==> forall y, x :: OnGrid(x, y) ==> g[y][x].piece.None?
    ensures FirstOccupied(g).Some? ==>
      var sq := FirstOccupied(g).value;
      OnGrid(sq.x, sq.y) && g[sq.y][sq.x] == sq && FirstInRowMajor(g, sq.x, sq.y)
    ensures forall y, x :: OnGrid(x, y) && FirstInRowMajor(g, x, y) ==> FirstOccupied(g) == Some(g[y][x])
  {
    var s := Flat(g);
    forall y, x | OnGrid(x, y)
      ensures s[Size * y + x] == g[y][x]
    {
      FlatAt(g, y, x);
    }
    match FindOccupied(s)
    case None =>
    case Some(k) =>
      assert s[k] == g[k / Size][k % Size];
      forall j, i | OnGrid(i, j) && (j < k / Size || (j == k / Size && i < k % Size))
        ensures g[j][i].piece.None?
      {
        assert s[Size * j + i] == g[j][i];
      }
    forall y, x | OnGrid(x, y) && FirstInRowMajor(g, x, y)
      ensures FirstOccupied(g) == Some(g[y][x])
    {
      forall m | 0 <= m < Size * y + x
        ensures s[m].piece.None?
      {
        assert s[m] == g[m / Size][m % Size];
      }
    }
  }

  /** The drop gate: react-dnd only fires the drop on a square that reports itself playable. */
  function CanDrop(g: Grid, x: int, y: int): (ok: bool)
    requires WellFormed(g) && OnGrid(x, y)
    ensures ok <==> Playable(x, y)
  {
    g[y][x].playable
  }

  /** handleDrop: move the first occupied square's piece (not the dragged one) to (x, y); nothing on an empty board. */
  method HandleDrop(board: array2<Square>, x: int, y: int) returns (next: array2<Square>)
    requires 0 <= y < board.Length0 && 0 <= x < board.Length1
    ensures FirstOccupied(Snap(board)).None? ==> next == board
    ensures FirstOccupied(Snap(board)).Some? ==>
      fresh(next) && Snap(next) == Move(Snap(board), x, y, FirstOccupied(Snap(board)).value.piece.value)
  {
    var found := FirstOccupied(Snap(board));
    if found.Some? {
      next := MovePiece(board, x, y, found.value.piece.value);
    } else {
      next := board;
    }
  }

  /** A drop on square (x, y): ignored off the cross, otherwise handled by handleDrop. */
  method Drop(board: array2<Square>, x: int, y: int) returns (next: array2<Square>)
    requires WellFormed(Snap(board)) && OnGrid(x, y)
    ensures !Playable(x, y) ==> next == board
    ensures Playable(x, y) && FirstOccupied(Snap(board)).None? ==> next == board
    ensures Playable(x, y) && FirstOccupied(Snap(board)).Some? ==>
      fresh(next) && Snap(next) == Move(Snap(board), x, y, FirstOccupied(Snap(board)).value.piece.value)
    ensures WellFormed(Snap(next))
    ensures OnlyOnCross(Snap(board)) ==> OnlyOnCross(Snap(next))
    ensures UniquePieces(Snap(board)) ==> UniquePieces(Snap(next))
  {
    assert |Snap(board)[y]| == board.Length1;
    var square := board[y, x];
    if CanDrop(Snap(board), x, y) {
      next := HandleDrop(board, square.x, square.y);
      var found := FirstOccupied(Snap(board));
      if found.Some? {
        MovePreserves(Snap(board), x, y, found.value.piece.value);
      }
    } else {
      next := board;
    }
  }

  /** On the demonstration board every drop moves the red king, the first piece in row-major order. */
  lemma DemoDropMovesRedKing(g: Grid)
    requires DemoBoard(g)
    ensures FirstOccupied(g) == Some(g[0][6])
    ensures g[0][6].piece.value.color == Red && g[0][6].piece.value.kind == King
  {
    FirstOccupiedRowMajor(g);
    assert FirstInRowMajor(g, 6, 0);
  }

  /**
   * Dragging the blue king on the demonstration board from (7, 13) to the empty square (7, 12)
   * moves the red king there instead, and the blue king stays where it was.
   */
  lemma DemoDragIgnored(g: Grid)
    requires DemoBoard(g)
    ensures FirstOccupied(g).Some?
    ensures var r := Move(g, 7, 12, FirstOccupied(g).value.piece.value);
      r[12][7].piece != g[13][7].piece && r[13][7].piece == g[13][7].piece
  {
    DemoDropMovesRedKing(g);
    DemoBoardFacts(g);
    assert g[0][6].piece != g[13][7].piece;
  }

  /**
   * The drop as the drag item intends it: the dragged piece goes to (x, y) when the square
   * is playable, and the board is left alone otherwise.
   */
  method DropDragged(board: array2<Square>, x: int, y: int, piece: Piece) returns (next: array2<Square>)
    requires WellFormed(Snap(board)) && OnGrid(x, y)
    ensures !Playable(x, y) ==> next == board
    ensures Playable(x, y) ==> fresh(next) && Snap(next) == Move(Snap(board), x, y, piece)
    ensures WellFormed(Snap(next))
    ensures Playable(x, y) ==> Snap(next)[y][x].piece == Some(piece)
    ensures OnlyOnCross(Snap(board)) ==> OnlyOnCross(Snap(next))
    ensures UniquePieces(Snap(board)) ==> UniquePieces(Snap(next))
  {
    assert |Snap(board)[y]| == board.Length1;
    if CanDrop(Snap(board), x, y) {
      next := MovePiece(board, x, y, piece);
      MovePreserves(Snap(board), x, y, piece);
    } else {
      next := board;
    }
  }

  // ---------------------------------------------------------------- square colour

  /** The class a rendered square gets: empty off the cross, else light or dark by the parity of x + y. */
  function BgClass(sq: Square): (s: Shade)
    ensures s == Empty <==> !sq.playable
    ensures sq.playable ==> (s == Light <==> (sq.x + sq.y) % 2 == 0)
  {
    if !sq.playable then Empty else Parity(sq.x, sq.y)
  }

  /** On a well-formed board the corners render empty and neighbouring cross squares alternate light and dark. */
  lemma BoardShading(g: Grid)
    requires WellFormed(g)
    ensures forall y, x :: OnGrid(x, y) ==> (BgClass(g[y][x]) == Empty <==> !Playable(x, y))
    ensures forall y, x :: OnGrid(x, y) && x + 1 < Size && Playable(x, y) && Playable(x + 1, y) ==>
      BgClass(g[y][x]) != BgClass(g[y][x + 1])
    ensures forall y, x :: OnGrid(x, y) && y + 1 < Size && Playable(x, y) && Playable(x, y + 1) ==>
      BgClass(g[y][x]) != BgClass(g[y + 1][x])
  {
  }
}
