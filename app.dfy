/**
 * The static Masterdrez board: the cross marked with a "null" sentinel off the board,
 * and the four armies placed as two-character piece codes.
 */
module App {
  import opened Optional
  import opened Cross
  import Masterdrez

  /** One square; `piece` is a code such as "wK", the sentinel "null" off the cross, or None. */
  datatype Cell = Cell(x: int, y: int, piece: Option<string>)

  const Sentinel: string := "null"

  /** The four armies; each owns one edge of the cross. */
  datatype Side = White | Black | Red | Blue

  /** The colour letter that starts every code of a side. */
  function Prefix(c: Side): char
  {
    match c
    case White => 'w'
    case Black => 'b'
    case Red => 'r'
    case Blue => 'u'
  }

  /** Back-rank order, the same for every side. */
  const BackRank: seq<string> := ["R", "N", "B", "Q", "K", "B", "N", "R"]

  const WhiteRow := 15
  const BlackRow := 0
  const RedCol := 0
  const BlueCol := 15

  /** Square (x, y) of a side's i-th back-rank piece, as setupPieces indexes it. */
  function BackSquare(c: Side, i: int): (int, int)
  {
    match c
    case White => (4 + i, WhiteRow)
    case Black => (4 + i, BlackRow)
    case Red => (RedCol, 4 + i)
    case Blue => (BlueCol, 4 + i)
  }

  /** Square (x, y) of a side's i-th pawn: one line further in from the edge. */
  function PawnSquare(c: Side, i: int): (int, int)
  {
    match c
    case White => (4 + i, WhiteRow - 1)
    case Black => (4 + i, BlackRow + 1)
    case Red => (RedCol + 1, 4 + i)
    case Blue => (BlueCol - 1, 4 + i)
  }

  /** Position of (x, y) along a side's home edge, counted from the band's first square. */
  function Along(c: Side, x: int, y: int): int
  {
    match c
    case White => x - 4
    case Black => x - 4
    case Red => y - 4
    case Blue => y - 4
  }

  /** Distance of (x, y) from a side's home edge. */
  function Depth(c: Side, x: int, y: int): int
  {
    match c
    case White => 15 - y
    case Black => y
    case Red => x
    case Blue => 15 - x
  }

  /** The code a side's placement writes on (x, y): back rank on its edge, pawns one line in. */
  function ArmyPiece(c: Side, x: int, y: int): (r: Option<string>)
    ensures r.Some? ==> |r.value| == 2 && r.value[0] == Prefix(c)
    ensures r.Some? ==> r.value[1] in "KQRBNP"
    ensures r.Some? ==> OnGrid(x, y) && Playable(x, y)
  {
    var a, d := Along(c, x, y), Depth(c, x, y);
    if 0 <= a < 8 && d == 0 then Some([Prefix(c)] + BackRank[a])
    else if 0 <= a < 8 && d == 1 then Some([Prefix(c)] + "P")
    else None
  }

  /** The source's indexing puts the i-th back-rank piece and the i-th pawn where ArmyPiece says. */
  lemma ArmyLines(c: Side, i: int)
    requires 0 <= i < 8
    ensures ArmyPiece(c, BackSquare(c, i).0, BackSquare(c, i).1) == Some([Prefix(c)] + BackRank[i])
    ensures ArmyPiece(c, PawnSquare(c, i).0, PawnSquare(c, i).1) == Some([Prefix(c)] + "P")
    ensures OnGrid(BackSquare(c, i).0, BackSquare(c, i).1) && OnGrid(PawnSquare(c, i).0, PawnSquare(c, i).1)
    ensures forall x, y :: Depth(c, x, y) == 0 && Along(c, x, y) == i <==> (x, y) == BackSquare(c, i)
    ensures forall x, y :: Depth(c, x, y) == 1 && Along(c, x, y) == i <==> (x, y) == PawnSquare(c, i)
  {
  }

  /** No square is written by two armies. */
  lemma ArmiesDisjoint(c1: Side, c2: Side, x: int, y: int)
    requires c1 != c2
    ensures ArmyPiece(c1, x, y).None? || ArmyPiece(c2, x, y).None?
  {
  }

  function Placed(cell: Cell, code: Option<string>): Cell
  {
    if code.Some? then cell.(piece := code) else cell
  }

  /** The code setupPieces leaves on (x, y): the last army (white, black, red, blue) that writes there. */
  function ArmyAt(x: int, y: int): (r: Option<string>)
    ensures r.Some? ==> |r.value| == 2 && r.value != Sentinel && OnGrid(x, y) && Playable(x, y)
  {
    if ArmyPiece(Blue, x, y).Some? then ArmyPiece(Blue, x, y)
    else if ArmyPiece(Red, x, y).Some? then ArmyPiece(Red, x, y)
    else if ArmyPiece(Black, x, y).Some? then ArmyPiece(Black, x, y)
    else ArmyPiece(White, x, y)
  }

  /** The piece field generateBoard leaves on (x, y). */
  function Initial(x: int, y: int): (r: Option<string>)
    ensures r.Some? && r.value != Sentinel ==> |r.value| == 2
  {
    if ArmyAt(x, y).Some? then ArmyAt(x, y)
    else if Playable(x, y) then None
    else Some(Sentinel)
  }

  // ---------------------------------------------------------------- setupPieces and generateBoard

  /** The code a side's back-rank loop writes on (x, y), if any. */
  function BackRankPiece(c: Side, x: int, y: int): (r: Option<string>)
    ensures r.Some? ==> r == ArmyPiece(c, x, y)
  {
    if Depth(c, x, y) == 0 then ArmyPiece(c, x, y) else None
  }

  /** One army's back rank: the forEach over R N B Q K B N R along its home edge. */
  method PlaceBackRank(board: array2<Cell>, c: Side)
    requires board.Length0 == Size && board.Length1 == Size
    modifies board
    ensures forall y, x :: OnGrid(x, y) ==> board[y, x] == Placed(old(board[y, x]), BackRankPiece(c, x, y))
  {
    var pieces := BackRank;
    for i := 0 to 8
      invariant forall y, x :: OnGrid(x, y) ==>
        board[y, x] == Placed(old(board[y, x]), if Along(c, x, y) < i then BackRankPiece(c, x, y) else None)
    {
      ArmyLines(c, i);
      var (x, y) := BackSquare(c, i);
      assert board[y, x] == old(board[y, x]);
      board[y, x] := board[y, x].(piece := Some([Prefix(c)] + pieces[i]));
      forall y', x' | OnGrid(x', y')
        ensures board[y', x'] == Placed(old(board[y', x']), if Along(c, x', y') < i + 1 then BackRankPiece(c, x', y') else None)
      {
        if (x', y') != (x, y) && Along(c, x', y') == i {
          assert BackRankPiece(c, x', y').None?;
        }
      }
    }
  }

  /** One army's pawn line: eight pawns one line in from its home edge. */
  method PlacePawns(board: array2<Cell>, c: Side)
    requires board.Length0 == Size && board.Length1 == Size
    modifies board
    ensures forall y, x :: OnGrid(x, y) ==>
      board[y, x] == Placed(old(board[y, x]), if Depth(c, x, y) == 1 then ArmyPiece(c, x, y) else None)
  {
    for i := 0 to 8
      invariant forall y, x :: OnGrid(x, y) ==>
        board[y, x] == Placed(old(board[y, x]),
          if Depth(c, x, y) == 1 && Along(c, x, y) < i then ArmyPiece(c, x, y) else None)
    {
      ArmyLines(c, i);
      var (x, y) := PawnSquare(c, i);
      board[y, x] := board[y, x].(piece := Some([Prefix(c)] + "P"));
    }
  }

  /** One army: its back rank, then its pawns. */
  method PlaceArmy(board: array2<Cell>, c: Side)
    requires board.Length0 == Size && board.Length1 == Size
    modifies board
    ensures forall y, x :: OnGrid(x, y) ==> board[y, x] == Placed(old(board[y, x]), ArmyPiece(c, x, y))
  {
    PlaceBackRank(board, c);
    PlacePawns(board, c);
  }

  /** setupPieces: white, black, red and blue armies in that order, in place. */
  method SetupPieces(board: array2<Cell>)
    requires board.Length0 == Size && board.Length1 == Size
    modifies board
    ensures forall y, x :: OnGrid(x, y) ==> board[y, x] == Placed(old(board[y, x]), ArmyAt(x, y))
  {
    PlaceArmy(board, White);
    PlaceArmy(board, Black);
    PlaceArmy(board, Red);
    PlaceArmy(board, Blue);
  }

  /** generateBoard: the cross with "null" off it, then the four armies. */
  method GenerateBoard() returns (board: array2<Cell>)
    ensures fresh(board) && board.Length0 == Size && board.Length1 == Size
    ensures forall y, x :: OnGrid(x, y) ==> board[y, x] == Cell(x, y, Initial(x, y))
  {
    board := new Cell[Size, Size];
    for y := 0 to Size
      invariant forall r, k :: 0 <= r < y && 0 <= k < Size ==>
        board[r, k] == Cell(k, r, if Playable(k, r) then None else Some(Sentinel))
    {
      for x := 0 to Size
        invariant forall r, k :: 0 <= r < y && 0 <= k < Size ==>
          board[r, k] == Cell(k, r, if Playable(k, r) then None else Some(Sentinel))
        invariant forall k :: 0 <= k < x ==> board[y, k] == Cell(k, y, if Playable(k, y) then None else Some(Sentinel))
      {
        var isPlayable := (x >= 4 && x <= 11) || (y >= 4 && y <= 11);
        board[y, x] := Cell(x, y, if isPlayable then None else Some(Sentinel));
      }
    }
    SetupPieces(board);
  }

  // ---------------------------------------------------------------- the initial position

  /** setupPieces never writes on a sentinel: "null" marks exactly the 64 corner squares. */
  lemma SentinelOffCross(x: int, y: int)
    requires OnGrid(x, y)
    ensures Initial(x, y) == Some(Sentinel) <==> !Playable(x, y)
    ensures Initial(x, y).None? ==> Playable(x, y)
  {
  }

  /** Every piece code is a colour letter w, b, r or u followed by a piece letter. */
  lemma PieceCodes(x: int, y: int)
    requires Initial(x, y).Some? && Initial(x, y) != Some(Sentinel)
    ensures |Initial(x, y).value| == 2
    ensures Initial(x, y).value[0] in "wbru"
    ensures Initial(x, y).value[1] in "KQRBNP"
  {
  }

  /** The i-th square of each home line holds the i-th back-rank piece, with a pawn in front of it. */
  lemma HomeLines(i: int)
    requires 0 <= i < 8
    ensures Initial(4 + i, 15) == Some(['w'] + BackRank[i]) && Initial(4 + i, 14) == Some("wP")
    ensures Initial(4 + i, 0) == Some(['b'] + BackRank[i]) && Initial(4 + i, 1) == Some("bP")
    ensures Initial(0, 4 + i) == Some(['r'] + BackRank[i]) && Initial(1, 4 + i) == Some("rP")
    ensures Initial(15, 4 + i) == Some(['u'] + BackRank[i]) && Initial(14, 4 + i) == Some("uP")
  {
    ArmyLines(White, i);
    ArmyLines(Black, i);
    ArmyLines(Red, i);
    ArmyLines(Blue, i);
    assert ['w'] + "P" == "wP" && ['b'] + "P" == "bP" && ['r'] + "P" == "rP" && ['u'] + "P" == "uP";
  }

  /** A piece whose code starts with a side's letter was placed by that side. */
  lemma OwnArmy(c: Side, x: int, y: int)
    requires Initial(x, y).Some? && Initial(x, y).value != Sentinel
    requires Initial(x, y).value[0] == Prefix(c)
    ensures Initial(x, y) == ArmyPiece(c, x, y)
  {
  }

  /** The square of each side's king. */
  function KingSquare(c: Side): (int, int)
  {
    match c
    case White => (8, 15)
    case Black => (8, 0)
    case Red => (0, 8)
    case Blue => (15, 8)
  }

  /** A king code of a side appears only on that side's king square. */
  lemma KingOnlyThere(c: Side, x: int, y: int)
    requires Initial(x, y) == Some([Prefix(c), 'K'])
    ensures (x, y) == KingSquare(c)
  {
    OwnArmy(c, x, y);
    var a := Along(c, x, y);
    assert Depth(c, x, y) == 0 && 0 <= a < 8 && BackRank[a] == "K";
    assert a == 4;
  }

  /** Each side has exactly one king, on its king square. */
  lemma OneKingEach(c: Side, x: int, y: int)
    ensures Initial(x, y) == Some([Prefix(c), 'K']) <==> (x, y) == KingSquare(c)
  {
    if Initial(x, y) == Some([Prefix(c), 'K']) {
      KingOnlyThere(c, x, y);
    }
    if (x, y) == KingSquare(c) {
      HomeLines(4);
      assert [Prefix(c)] + BackRank[4] == [Prefix(c), 'K'];
    }
  }

  /** What a rendered square shows: off the board, an empty square, or a piece whose code starts with `prefix`. */
  datatype Content = Off | Vacant | Holds(prefix: char)

  function ContentAt(x: int, y: int): Content
  {
    match Initial(x, y)
    case None => Vacant
    case Some(s) => if s == Sentinel then Off else Holds(s[0])
  }

  /** Number of squares x < n of row y whose content is k. */
  function CountInRow(k: Content, y: int, n: nat): nat
  {
    if n == 0 then 0 else CountInRow(k, y, n - 1) + (if ContentAt(n - 1, y) == k then 1 else 0)
  }

  /** Number of squares in rows y < m whose content is k. */
  function CountInRows(k: Content, m: nat): nat
  {
    if m == 0 then 0 else CountInRows(k, m - 1) + CountInRow(k, m - 1, Size)
  }

  /** A run of squares with one content adds its length to that content's count and nothing to the others. */
  lemma {:induction false} RowRun(y: int, lo: nat, hi: nat, k0: Content)
    requires lo <= hi
    requires forall x :: lo <= x < hi ==> ContentAt(x, y) == k0
    ensures forall k :: CountInRow(k, y, hi) == CountInRow(k, y, lo) + (if k == k0 then hi - lo else 0)
  {
    if lo < hi {
      RowRun(y, lo, hi - 1, k0);
    }
  }

  /** How many squares of row y hold content k after setup. */
  function RowCensus(k: Content, y: int): nat
  {
    if y == 0 || y == 1 then (if k == Off || k == Holds('b') then 8 else 0)
    else if y == 14 || y == 15 then (if k == Off || k == Holds('w') then 8 else 0)
    else if 4 <= y <= 11 then (if k == Vacant then 12 else if k == Holds('r') || k == Holds('u') then 2 else 0)
    else (if k == Off || k == Vacant then 8 else 0)
  }

  /** A middle row: a red piece, twelve empty squares, a blue piece. */
  lemma MiddleRowCounts(y: int)
    requires 4 <= y <= 11
    ensures forall k :: CountInRow(k, y, Size) == RowCensus(k, y)
  {
    RowRun(y, 0, 2, Holds('r'));
    RowRun(y, 2, 14, Vacant);
    RowRun(y, 14, 16, Holds('u'));
  }

  /** An outer row: four sentinels, eight squares of the band, four sentinels. */
  lemma OuterRowCounts(y: int)
    requires 0 <= y < 4 || 12 <= y < Size
    ensures forall k :: CountInRow(k, y, Size) == RowCensus(k, y)
  {
    var band := if y <= 1 then Holds('b') else if y >= 14 then Holds('w') else Vacant;
    RowRun(y, 0, 4, Off);
    RowRun(y, 4, 12, band);
    RowRun(y, 12, 16, Off);
  }

  /** Each row's counts, content by content. */
  lemma RowCounts(y: int)
    requires 0 <= y < Size
    ensures forall k :: CountInRow(k, y, Size) == RowCensus(k, y)
  {
    if 4 <= y <= 11 {
      MiddleRowCounts(y);
    } else {
      OuterRowCounts(y);
    }
  }

  /** Closed form of the number of squares with content k in the first m rows. */
  function CensusUpTo(k: Content, m: int): int
  {
    match k
    case Off => if m <= 4 then 8 * m else if m <= 12 then 32 else 32 + 8 * (m - 12)
    case Vacant =>
      if m <= 2 then 0 else if m <= 4 then 8 * (m - 2) else if m <= 12 then 16 + 12 * (m - 4)
      else if m <= 14 then 112 + 8 * (m - 12) else 128
    case Holds(p) =>
      if p == 'b' then (if m <= 2 then 8 * m else 16)
      else if p == 'w' then (if m <= 14 then 0 else 8 * (m - 14))
      else if p == 'r' || p == 'u' then (if m <= 4 then 0 else if m <= 12 then 2 * (m - 4) else 16)
      else 0
  }

  /** The closed form grows by one row's census per row. */
  lemma CensusStep(k: Content, y: nat)
    requires y < Size
    ensures CensusUpTo(k, y + 1) == CensusUpTo(k, y) + RowCensus(k, y)
  {
  }

  /** Counting the first m rows square by square agrees with the closed form. */
  lemma {:induction false} CountUpTo(k: Content, m: nat)
    requires m <= Size
    ensures CountInRows(k, m) == CensusUpTo(k, m)
  {
    if m > 0 {
      CountUpTo(k, m - 1);
      RowCounts(m - 1);
      CensusStep(k, m - 1);
    }
  }

  /** How many squares show each content after setup. */
  function Expected(k: Content): nat
  {
    match k
    case Off => 64
    case Vacant => 128
    case Holds(p) => if p in "wbru" then 16 else 0
  }

  /**
   * The census of the initial position: 64 sentinel squares, 128 empty playable squares,
   * 16 pieces for each of the colour letters w, b, r and u (64 pieces in all), and no other.
   */
  lemma Census(k: Content)
    ensures CountInRows(k, Size) == Expected(k)
  {
    CountUpTo(k, Size);
  }

  // ---------------------------------------------------------------- rendering

  /** The class the render map gives square (x, y): empty on the sentinel, else light or dark by parity. */
  function RenderClass(cell: Cell, x: int, y: int): (s: Shade)
    ensures s == Empty <==> cell.piece == Some(Sentinel)
  {
    if cell.piece == Some(Sentinel) then Empty else Parity(x, y)
  }

  /** On the initial board this render classes each square exactly as the drag-and-drop board's bgClass does. */
  lemma RenderAgreesWithBgClass(x: int, y: int)
    ensures RenderClass(Cell(x, y, Initial(x, y)), x, y) == Masterdrez.BgClass(Masterdrez.Square(x, y, None, Playable(x, y)))
    ensures RenderClass(Cell(x, y, Initial(x, y)), x, y) == Empty <==> !Playable(x, y)
  {
  }
}
