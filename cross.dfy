/**
 * The cross-shaped Masterdrez board shared by both board components:
 * a 16 x 16 grid whose four 4 x 4 corners are not part of the game.
 */
module Cross {

  /** Side length of the square grid (BOARD_SIZE in both components). */
  const Size: nat := 16

  /** A square is playable when it lies in the central vertical or horizontal band. */
  predicate Playable(x: int, y: int)
  {
    (x >= 4 && x <= 11) || (y >= 4 && y <= 11)
  }

  predicate OnGrid(x: int, y: int)
  {
    0 <= x < Size && 0 <= y < Size
  }

  /** The CSS class a rendered square receives. */
  datatype Shade = Empty | Light | Dark

  /**
   * The checkerboard colour of an in-play square: light when x + y is even. Testing the
   * remainder against 0 gives the same answer for truncating and Euclidean remainders.
   */
  function Parity(x: int, y: int): (s: Shade)
    ensures s != Empty
    ensures s == Light <==> (x + y) % 2 == 0
  {
    if (x + y) % 2 == 0 then Light else Dark
  }

  /** Moving one step along a row or a column always flips the checkerboard colour. */
  lemma ParityAlternates(x: int, y: int)
    ensures Parity(x + 1, y) != Parity(x, y)
    ensures Parity(x, y + 1) != Parity(x, y)
  {
  }

  /** Number of playable squares among the first n squares of row y. */
  function PlayableInRow(y: int, n: nat): (c: nat)
    ensures c <= n
  {
    if n == 0 then 0 else PlayableInRow(y, n - 1) + (if Playable(n - 1, y) then 1 else 0)
  }

  /** Number of playable squares in the first m rows. */
  function PlayableInRows(m: nat): (c: nat)
    ensures c <= m * Size
  {
    if m == 0 then 0 else PlayableInRows(m - 1) + PlayableInRow(m - 1, Size)
  }

  /** Closed form of a row prefix count: a band row is full, any other row only has x in 4..11. */
  lemma {:induction false} RowPrefixCount(y: int, n: nat)
    requires n <= Size
    ensures 4 <= y <= 11 ==> PlayableInRow(y, n) == n
    ensures !(4 <= y <= 11) ==> PlayableInRow(y, n) == (if n <= 4 then 0 else if n <= 12 then n - 4 else 8)
  {
    if n > 0 {
      RowPrefixCount(y, n - 1);
    }
  }

  /** Rows 0..3 and 12..15 have 8 playable squares each, rows 4..11 have 16. */
  lemma {:induction false} RowsPrefixCount(m: nat)
    requires m <= Size
    ensures PlayableInRows(m) == (if m <= 4 then 8 * m else if m <= 12 then 32 + 16 * (m - 4) else 160 + 8 * (m - 12))
  {
    if m > 0 {
      RowsPrefixCount(m - 1);
      RowPrefixCount(m - 1, Size);
    }
  }

  /** The cross has 192 playable squares; the four corners hold the other 64. */
  lemma CrossSize()
    ensures PlayableInRows(Size) == 192
    ensures Size * Size - PlayableInRows(Size) == 64
  {
    RowsPrefixCount(Size);
  }

  /** The cross looks the same from every side: swapping x and y, or mirroring either axis, keeps it. */
  lemma CrossSymmetric(x: int, y: int)
    ensures Playable(x, y) <==> Playable(y, x)
    ensures Playable(x, y) <==> Playable(Size - 1 - x, y)
    ensures Playable(x, y) <==> Playable(x, Size - 1 - y)
  {
  }

  /** The corners are exactly the squares outside both bands. */
  lemma CornersUnplayable(x: int, y: int)
    requires OnGrid(x, y)
    ensures !Playable(x, y) <==> (x < 4 || x > 11) && (y < 4 || y > 11)
  {
  }
}
