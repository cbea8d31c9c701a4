/**
 * The arithmetic behind what `ChessBoard` draws: the clock text of `formatTime` and the
 * mapping in `renderSquare` from the 64 cells of the grid, read row by row from the top
 * left, to algebraic square names and square colours.
 */
module BoardView {
  import opened Wrappers
  import opened Decimal
  import opened Fen

  // ---------------------------------------------------------------------------
  // formatTime
  // ---------------------------------------------------------------------------

  /** `seconds % 60` on numbers: the remainder takes the sign of the dividend. */
  function RemainingSeconds(seconds: int): (r: int)
    ensures -60 < r < 60
    ensures seconds >= 0 ==> r == seconds % 60
    ensures seconds <= 0 ==> r <= 0
    ensures seconds == 60 * (seconds / 60) + r || seconds == 60 * (seconds / 60 + 1) + r
  {
    if seconds >= 0 then seconds % 60 else -((-seconds) % 60)
  }

  /** `t.padStart(2, '0')`. */
  function PadTwo(t: string): (p: string)
    ensures |p| == if |t| >= 2 then |t| else 2
    ensures p[|p| - |t|..] == t
    ensures forall i :: 0 <= i < |p| - |t| ==> p[i] == '0'
  {
    if |t| >= 2 then t else if |t| == 1 then "0" + t else "00"
  }

  /** `formatTime(seconds)`: `Math.floor(seconds / 60)`, a colon, then `seconds % 60` padded to two characters. */
  function FormatTime(seconds: int): (t: string) {
    IntToString(seconds / 60) + ":" + PadTwo(IntToString(RemainingSeconds(seconds)))
  }

  /** How a reader takes "m:ss" apart: two seconds digits at the end, a colon before them, decimal minutes before that. */
  function ReadClock(t: string): (r: Option<int>)
    ensures r.Some? ==> r.value >= 0
  {
    if |t| >= 4 && t[|t| - 3] == ':' && AllDigits(t[..|t| - 3]) && IsDigit(t[|t| - 2]) && IsDigit(t[|t| - 1]) then
      Some(DigitsValue(t[..|t| - 3]) * 60 + DigitValue(t[|t| - 2]) * 10 + DigitValue(t[|t| - 1]))
    else None
  }

  /** The seconds of a non-negative time print as exactly two digits. */
  lemma SecondsText(seconds: int)
    requires seconds >= 0
    ensures var t := PadTwo(IntToString(seconds % 60));
      |t| == 2 && IsDigit(t[0]) && IsDigit(t[1]) && DigitValue(t[0]) * 10 + DigitValue(t[1]) == seconds % 60
  {
    var r := seconds % 60;
    var d := IntToString(r);
    assert d == NatToString(r);
    if r < 10 {
      assert d == [DigitChar(r)];
      assert PadTwo(d) == "0" + d;
    } else {
      assert d == NatToString(r / 10) + [DigitChar(r % 10)];
      assert NatToString(r / 10) == [DigitChar(r / 10)];
    }
  }

  /** Minutes, a colon and two seconds digits read back as their total. */
  lemma ReadClockOf(m: string, t: string, minutes: int, secs: int)
    requires |m| > 0 && AllDigits(m) && |t| == 2 && IsDigit(t[0]) && IsDigit(t[1])
    requires minutes == DigitsValue(m) && secs == DigitValue(t[0]) * 10 + DigitValue(t[1])
    ensures ReadClock(m + ([':'] + t)) == Some(minutes * 60 + secs)
  {
    var s := m + ([':'] + t);
    assert s[..|s| - 3] == m;
  }

  /** The text of a non-negative time: its minutes, a colon and its seconds. */
  lemma FormatTimeShape(seconds: int)
    requires seconds >= 0
    ensures FormatTime(seconds) == IntToString(seconds / 60) + ([':'] + PadTwo(IntToString(seconds % 60)))
  {
    assert RemainingSeconds(seconds) == seconds % 60;
  }

  /** A non-negative time prints as minutes and seconds that read back as the same number of seconds. */
  lemma FormatTimeRoundTrip(seconds: int)
    requires seconds >= 0
    ensures ReadClock(FormatTime(seconds)) == Some(seconds)
  {
    var q, r := seconds / 60, seconds % 60;
    var m := IntToString(q);
    var t := PadTwo(IntToString(r));
    FormatTimeShape(seconds);
    assert m == NatToString(q);
    DigitsValueOfNatToString(q);
    SecondsText(seconds);
    ReadClockOf(m, t, q, r);
    assert q * 60 + r == seconds;
  }

  // ---------------------------------------------------------------------------
  // renderSquare
  // ---------------------------------------------------------------------------

  const Files: string := "abcdefgh"

  /** The grid index as the board reads it: turned half way round for the black player. */
  function Oriented(i: int, player: Color): (k: int)
    requires 0 <= i < 64
    ensures 0 <= k < 64
  {
    if player == Black then 63 - i else i
  }

  /** The square drawn in cell `i`: file letter `'abcdefgh'[k % 8]`, rank `8 - floor(k / 8)`. */
  function SquareAt(i: int, player: Color): (sq: string)
    requires 0 <= i < 64
    ensures ValidSquare(sq)
  {
    var k := Oriented(i, player);
    var file := k % 8;
    var rank := k / 8;
    [Files[file]] + IntToString(8 - rank)
  }

  /** Whether cell `i` is drawn dark: `(file + rank) % 2 === 1`. */
  predicate IsDarkAt(i: int, player: Color)
    requires 0 <= i < 64
  {
    var k := Oriented(i, player);
    (k % 8 + k / 8) % 2 == 1
  }

  /** The colour of a square on a real chessboard: a1 is dark, and colours alternate along files and ranks. */
  predicate DarkSquare(sq: string)
    requires ValidSquare(sq)
  {
    ((sq[0] as int - 'a' as int) + (sq[1] as int - '0' as int)) % 2 == 1
  }

  /** The cell that shows a square. */
  function CellOf(sq: string, player: Color): (i: int)
    requires ValidSquare(sq)
    ensures 0 <= i < 64
  {
    var file := sq[0] as int - 'a' as int;
    var rank := 8 - (sq[1] as int - '0' as int);
    var k := rank * 8 + file;
    if player == Black then 63 - k else k
  }

  /** The rank text of a rank number 1..8 is its single digit. */
  lemma RankText(n: int)
    requires 1 <= n <= 8
    ensures IntToString(n) == [('0' as int + n) as char]
  {
    assert IntToString(n) == NatToString(n);
  }

  /** Each cell shows the square that maps back to it. */
  lemma CellOfSquareAt(i: int, player: Color)
    requires 0 <= i < 64
    ensures CellOf(SquareAt(i, player), player) == i
  {
    var k := Oriented(i, player);
    RankText(8 - k / 8);
    assert Files[k % 8] as int - 'a' as int == k % 8;
  }

  /** Each square is shown in exactly one cell: the one that maps to it. */
  lemma SquareAtCellOf(sq: string, player: Color)
    requires ValidSquare(sq)
    ensures SquareAt(CellOf(sq, player), player) == sq
  {
    var file := sq[0] as int - 'a' as int;
    var n := sq[1] as int - '0' as int;
    var k := (8 - n) * 8 + file;
    assert Oriented(CellOf(sq, player), player) == k;
    assert k % 8 == file && k / 8 == 8 - n;
    RankText(n);
    assert Files[file] == sq[0];
    assert sq == [sq[0]] + [sq[1]];
  }

  /** Dark and light cells are those of a real chessboard, whichever side the player sits. */
  lemma DarkCells(i: int, player: Color)
    requires 0 <= i < 64
    ensures IsDarkAt(i, player) <==> DarkSquare(SquareAt(i, player))
  {
    var k := Oriented(i, player);
    RankText(8 - k / 8);
    assert Files[k % 8] as int - 'a' as int == k % 8;
  }
}
