/**
 * Forsyth-Edwards Notation (section 16.1 of the PGN Standard) as the fallback engine
 * `SimpleChess` reads and writes it: the functions here are the specification of its
 * `load`, `fen`, `move` and `put`, and the lemmas are what those promise.
 */
module Fen {
  import opened Wrappers
  import opened Decimal

  /** The side to move and the colour of a piece: 'w' or 'b'. */
  datatype Color = White | Black

  function Opponent(c: Color): (o: Color)
    ensures o != c
  {
    if c == White then Black else White
  }

  function ColorChar(c: Color): char {
    if c == White then 'w' else 'b'
  }

  /** A piece: its colour and its type letter (lower case: 'p', 'n', 'b', 'r', 'q', 'k'). */
  datatype Piece = Piece(color: Color, kind: char)

  /** The engine's `board` map, keyed by square name. */
  type Board = map<string, Piece>

  function Lookup(b: Board, sq: string): (r: Option<Piece>)
    ensures r.Some? <==> sq in b
    ensures r.Some? ==> r.value == b[sq]
  {
    if sq in b then Some(b[sq]) else None
  }

  /** `toUpperCase` on a one-character string, for ASCII letters. */
  function ToUpper(c: char): (u: char)
    ensures 'a' <= c <= 'z' ==> 'A' <= u <= 'Z' && u as int == c as int - 32
    ensures !('a' <= c <= 'z') ==> u == c
  {
    if 'a' <= c <= 'z' then (c as int - 32) as char else c
  }

  /** `toLowerCase` on a one-character string, for ASCII letters. */
  function ToLower(c: char): (l: char)
    ensures 'A' <= c <= 'Z' ==> 'a' <= l <= 'z' && l as int == c as int + 32
    ensures !('A' <= c <= 'Z') ==> l == c
  {
    if 'A' <= c <= 'Z' then (c as int + 32) as char else c
  }

  /**
   * `fileRankToSquare`: the file letter `'abcdefgh'[file - 1]` followed by the rank in
   * decimal. A file outside 1..8 indexes past the string and prints as "undefined".
   */
  function FileRankToSquare(file: int, rank: int): (sq: string) {
    (if 1 <= file <= 8 then [('a' as int + file - 1) as char] else "undefined") + IntToString(rank)
  }

  /** The square pattern `/^[a-h][1-8]$/`. */
  predicate ValidSquare(sq: string) {
    |sq| == 2 && 'a' <= sq[0] <= 'h' && '1' <= sq[1] <= '8'
  }

  /** What the board holds on the square of a file and a rank. */
  function At(b: Board, file: int, rank: int): Option<Piece> {
    Lookup(b, FileRankToSquare(file, rank))
  }

  // ---------------------------------------------------------------------------
  // Reading the piece-placement field (the character loop of `load`)
  // ---------------------------------------------------------------------------

  /** The loop variables `rank`, `file` and the board being filled. */
  datatype Cursor = Cursor(rank: int, file: int, board: Board)

  /** A character that is neither '/' nor a digit 1-8: upper case is white, the type is the lower-case letter. */
  function PieceOfChar(ch: char): (p: Piece)
    ensures 'A' <= ch <= 'Z' ==> p.color == White && p.kind as int == ch as int + 32
    ensures 'a' <= ch <= 'z' ==> p == Piece(Black, ch)
  {
    Piece(if ch == ToUpper(ch) then White else Black, ToLower(ch))
  }

  /** One iteration of the placement loop. */
  function Step(c: Cursor, ch: char): Cursor {
    if ch == '/' then Cursor(c.rank - 1, 1, c.board)
    else if '1' <= ch <= '8' then Cursor(c.rank, c.file + DigitValue(ch), c.board)
    else Cursor(c.rank, c.file + 1, c.board[FileRankToSquare(c.file, c.rank) := PieceOfChar(ch)])
  }

  /** The whole loop over the characters of `s`. */
  function Scan(s: string, c: Cursor): Cursor
    decreases |s|
  {
    if s == [] then c else Scan(s[1..], Step(c, s[0]))
  }

  // ---------------------------------------------------------------------------
  // Writing the piece-placement field (the rank and file loops of `fen`)
  // ---------------------------------------------------------------------------

  /** The pending `emptyCount`, written out when it is positive. */
  function Flush(empty: nat): string {
    if empty > 0 then NatToString(empty) else ""
  }

  /** A white piece prints its type in upper case, a black one as it is. */
  function PieceChar(p: Piece): char {
    if p.color == White then ToUpper(p.kind) else p.kind
  }

  /** The text for the squares `cells` of one rank, `empty` empty squares being pending before them. */
  function RowString(cells: seq<Option<Piece>>, empty: nat): string
    decreases |cells|
  {
    if cells == [] then Flush(empty)
    else match cells[0]
      case Some(p) => Flush(empty) + [PieceChar(p)] + RowString(cells[1..], 0)
      case None => RowString(cells[1..], empty + 1)
  }

  /** The eight squares of a rank, file a first. */
  function Rank(b: Board, rank: int): (cells: seq<Option<Piece>>)
    ensures |cells| == 8
  {
    seq(8, i => At(b, i + 1, rank))
  }

  function RowText(b: Board, rank: int): string {
    RowString(Rank(b, rank), 0)
  }

  /** Ranks `rank` down to 1, separated by '/'. */
  function Ranks(b: Board, rank: int): string
    decreases rank
  {
    if rank < 1 then ""
    else RowText(b, rank) + (if rank > 1 then "/" + Ranks(b, rank - 1) else "")
  }

  lemma AppendAssoc(a: string, b: string, c: string)
    ensures a + b + c == a + (b + c)
  {
  }

  lemma AppendAssoc4(a: string, b: string, c: string, d: string)
    ensures a + b + c + d == a + (b + c + d)
  {
  }

  /** One step of the file loop of `fen` over an occupied square. */
  lemma RowStringOccupied(cells: seq<Option<Piece>>, i: nat, e: nat)
    requires i < |cells| && cells[i].Some?
    ensures RowString(cells[i..], e) == Flush(e) + [PieceChar(cells[i].value)] + RowString(cells[i + 1..], 0)
  {
    assert cells[i..][1..] == cells[i + 1..];
  }

  /** One step of the file loop of `fen` over an empty square. */
  lemma RowStringEmpty(cells: seq<Option<Piece>>, i: nat, e: nat)
    requires i < |cells| && cells[i].None?
    ensures RowString(cells[i..], e) == RowString(cells[i + 1..], e + 1)
  {
    assert cells[i..][1..] == cells[i + 1..];
  }

  /** One step of the rank loop of `fen`. */
  lemma RanksStep(b: Board, rank: int)
    requires rank >= 1
    ensures Ranks(b, rank) == RowText(b, rank) + (if rank > 1 then "/" else "") + Ranks(b, rank - 1)
  {
  }

  // ---------------------------------------------------------------------------
  // The whole record
  // ---------------------------------------------------------------------------

  /**
   * The engine's state other than its move history. A missing field is `None`;
   * a counter that `parseInt` could not read is NaN, also `None`.
   */
  datatype FenFields = FenFields(
    board: Board,
    turn: Color,
    castling: Option<string>,
    enPassant: Option<string>,
    halfMoves: Option<int>,
    fullMoves: Option<int>)

  /** `s.split(sep)`: the pieces between separators; empty pieces are kept. */
  function Split(s: string, sep: char): (parts: seq<string>)
    ensures |parts| >= 1
    decreases |s|
  {
    if s == [] then [""]
    else
      var rest := Split(s[1..], sep);
      if s[0] == sep then [""] + rest else [[s[0]] + rest[0]] + rest[1..]
  }

  /** `parts.join(sep)`. */
  function JoinWith(parts: seq<string>, sep: char): string
    requires |parts| >= 1
    decreases |parts|
  {
    if |parts| == 1 then parts[0] else parts[0] + ([sep] + JoinWith(parts[1..], sep))
  }

  /** Array destructuring: a missing element is undefined. */
  function Part(parts: seq<string>, i: nat): Option<string> {
    if i < |parts| then Some(parts[i]) else None
  }

  /** `parseInt(field, 10)`; `parseInt(undefined, 10)` is NaN. */
  function ParseCounter(field: Option<string>): Option<int> {
    match field
    case None => None
    case Some(t) => ParseInt(t)
  }

  function CounterText(n: Option<int>): string {
    match n
    case None => "NaN"
    case Some(v) => IntToString(v)
  }

  /** `x || '-'`: undefined, null and the empty string all print as '-'. */
  function OrDash(o: Option<string>): (t: string)
    ensures t != ""
    ensures o.Some? && o.value != "" ==> t == o.value
    ensures !(o.Some? && o.value != "") ==> t == "-"
  {
    if o.Some? && o.value != "" then o.value else "-"
  }

  /** What `load(fen)` leaves in the engine's fields. */
  function LoadFields(fen: string): (f: FenFields)
    ensures f.turn == White <==> Part(Split(fen, ' '), 1) == Some("w")
    ensures f.enPassant.None? <==> Part(Split(fen, ' '), 3) in {None, Some("-")}
    ensures f.enPassant.Some? ==> Part(Split(fen, ' '), 3) == f.enPassant
    ensures f.castling == Part(Split(fen, ' '), 2)
  {
    var parts := Split(fen, ' ');
    FenFields(
      Scan(parts[0], Cursor(8, 1, map[])).board,
      if Part(parts, 1) == Some("w") then White else Black,
      Part(parts, 2),
      if Part(parts, 3) == Some("-") then None else Part(parts, 3),
      ParseCounter(Part(parts, 4)),
      ParseCounter(Part(parts, 5)))
  }

  /** What `fen()` returns for the engine's fields. */
  function FenOf(f: FenFields): string {
    JoinWith([Ranks(f.board, 8), [ColorChar(f.turn)], OrDash(f.castling), OrDash(f.enPassant),
              CounterText(f.halfMoves), CounterText(f.fullMoves)], ' ')
  }

  const StartFen: string := "rnbqkbnr/pppppppp/8/8/8/8/PPPPPPPP/RNBQKBNR w KQkq - 0 1"

  // ---------------------------------------------------------------------------
  // Canonical FEN text
  // ---------------------------------------------------------------------------

  predicate IsPieceLetter(c: char) {
    c in {'p', 'n', 'b', 'r', 'q', 'k', 'P', 'N', 'B', 'R', 'Q', 'K'}
  }

  predicate RankChar(c: char) {
    IsPieceLetter(c) || '1' <= c <= '8'
  }

  function CharWidth(c: char): nat {
    if '1' <= c <= '8' then DigitValue(c) else 1
  }

  /** How far the characters of `r` advance the file. */
  function Width(r: string): nat
    decreases |r|
  {
    if r == [] then 0 else CharWidth(r[0]) + Width(r[1..])
  }

  predicate NoAdjacentDigits(r: string) {
    forall i :: 0 <= i < |r| - 1 ==> !(IsDigit(r[i]) && IsDigit(r[i + 1]))
  }

  /** One rank as canonical FEN writes it: piece letters and maximal runs of empty squares, eight files wide. */
  predicate CanonicalRank(r: string) {
    && (forall i :: 0 <= i < |r| ==> RankChar(r[i]))
    && NoAdjacentDigits(r)
    && Width(r) == 8
  }

  /** Every text of `rs` is a canonical rank. */
  predicate CanonicalRanks(rs: seq<string>) {
    forall i :: 0 <= i < |rs| ==> CanonicalRank(rs[i])
  }

  lemma CanonicalRanksTail(rs: seq<string>)
    requires |rs| >= 1 && CanonicalRanks(rs)
    ensures CanonicalRank(rs[0]) && CanonicalRanks(rs[1..])
  {
    forall i | 0 <= i < |rs[1..]| ensures CanonicalRank(rs[1..][i]) { assert rs[1..][i] == rs[i + 1]; }
  }

  /** A canonical FEN record: eight canonical ranks, the side to move, two fields without spaces, two decimal counters. */
  function Compose(ranks: seq<string>, turn: Color, castling: string, enPassant: string, half: int, full: int): string
    requires |ranks| >= 1
  {
    JoinWith([JoinWith(ranks, '/'), [ColorChar(turn)], castling, enPassant, IntToString(half), IntToString(full)], ' ')
  }

  function Nones(n: nat): (s: seq<Option<Piece>>)
    ensures |s| == n && forall i :: 0 <= i < n ==> s[i] == None
  {
    seq(n, i => None)
  }

  /** The squares a rank's text stands for. */
  function Expand(r: string): (cells: seq<Option<Piece>>)
    ensures |cells| == Width(r)
    decreases |r|
  {
    if r == [] then []
    else (if '1' <= r[0] <= '8' then Nones(DigitValue(r[0])) else [Some(PieceOfChar(r[0]))]) + Expand(r[1..])
  }

  /** Square `n` (from 1) of the squares `r` stands for; `None` past its end. */
  function Cell(r: string, n: int): Option<Piece> {
    if 1 <= n <= Width(r) then Expand(r)[n - 1] else None
  }

  // ---------------------------------------------------------------------------
  // Split and join
  // ---------------------------------------------------------------------------

  lemma {:induction false} SplitPrefix(a: string, rest: string, sep: char)
    requires sep !in a
    ensures Split(a + rest, sep) == [a + Split(rest, sep)[0]] + Split(rest, sep)[1..]
    decreases |a|
  {
    if a != [] {
      assert (a + rest)[0] == a[0];
      assert (a + rest)[1..] == a[1..] + rest;
      SplitPrefix(a[1..], rest, sep);
      assert [a[0]] + (a[1..] + Split(rest, sep)[0]) == a + Split(rest, sep)[0];
    } else {
      var sp := Split(rest, sep);
      assert a + rest == rest;
      assert a + sp[0] == sp[0];
      assert sp == [sp[0]] + sp[1..];
    }
  }

  /** Splitting a join on its separator gives the parts back, when no part holds the separator. */
  lemma {:induction false} SplitJoin(parts: seq<string>, sep: char)
    requires |parts| >= 1
    requires forall i :: 0 <= i < |parts| ==> sep !in parts[i]
    ensures Split(JoinWith(parts, sep), sep) == parts
    decreases |parts|
  {
    if |parts| == 1 {
      SplitPrefix(parts[0], "", sep);
      assert parts[0] + "" == parts[0];
    } else {
      var tail := JoinWith(parts[1..], sep);
      SplitJoin(parts[1..], sep);
      SplitPrefix(parts[0], [sep] + tail, sep);
      assert ([sep] + tail)[0] == sep && ([sep] + tail)[1..] == tail;
      assert parts[0] + "" == parts[0];
      assert parts == [parts[0]] + parts[1..];
    }
  }

  lemma {:induction false} JoinWithAvoids(parts: seq<string>, sep: char, c: char)
    requires |parts| >= 1 && c != sep
    requires forall i :: 0 <= i < |parts| ==> c !in parts[i]
    ensures c !in JoinWith(parts, sep)
    decreases |parts|
  {
    if |parts| > 1 {
      JoinWithAvoids(parts[1..], sep, c);
    }
  }

  // ---------------------------------------------------------------------------
  // Reading a canonical placement
  // ---------------------------------------------------------------------------

  lemma {:induction false} ScanAppend(a: string, b: string, c: Cursor)
    ensures Scan(a + b, c) == Scan(b, Scan(a, c))
    decreases |a|
  {
    if a == [] {
      assert a + b == b;
    } else {
      assert (a + b)[0] == a[0];
      assert (a + b)[1..] == a[1..] + b;
      ScanAppend(a[1..], b, Step(c, a[0]));
    }
  }

  /** Distinct grid coordinates name distinct squares. */
  lemma SquareNamesDistinct(f1: int, r1: int, f2: int, r2: int)
    requires 1 <= f1 <= 8 && 1 <= r1 <= 8 && 1 <= f2 <= 8 && 1 <= r2 <= 8
    requires f1 != f2 || r1 != r2
    ensures FileRankToSquare(f1, r1) != FileRankToSquare(f2, r2)
  {
    GridSquareName(f1, r1);
    GridSquareName(f2, r2);
    var a, b := FileRankToSquare(f1, r1), FileRankToSquare(f2, r2);
    if f1 != f2 { assert a[0] != b[0]; } else { assert a[1] != b[1]; }
  }

  /** On the grid, a square's name is its file letter and its rank digit, and matches the square pattern. */
  lemma GridSquareName(file: int, rank: int)
    requires 1 <= file <= 8 && 1 <= rank <= 8
    ensures var sq := FileRankToSquare(file, rank);
      |sq| == 2 && sq[0] as int == 'a' as int + file - 1 && sq[1] as int == '0' as int + rank && ValidSquare(sq)
  {
  }

  /** The squares of a rank's text, looked at from its first character. */
  lemma CellOfFirst(r: string, n: int)
    requires r != [] && (!('1' <= r[0] <= '8') || DigitValue(r[0]) > 0)
    ensures '1' <= r[0] <= '8' ==> Cell(r, n) == if n <= DigitValue(r[0]) then None else Cell(r[1..], n - DigitValue(r[0]))
    ensures !('1' <= r[0] <= '8') ==> Cell(r, n) == if n == 1 then Some(PieceOfChar(r[0])) else Cell(r[1..], n - 1)
  {
    var rest := r[1..];
    if '1' <= r[0] <= '8' {
      var d := DigitValue(r[0]);
      assert Expand(r) == Nones(d) + Expand(rest);
    } else {
      assert Expand(r) == [Some(PieceOfChar(r[0]))] + Expand(rest);
    }
  }

  predicate RankChars(r: string) {
    forall i :: 0 <= i < |r| ==> RankChar(r[i])
  }

  /** Squares of rank `k` from file `f` on are empty. */
  ghost predicate ClearFrom(b: Board, k: int, f: int) {
    forall g :: f <= g <= 8 ==> At(b, g, k) == None
  }

  /** `b'` and `b` agree on every grid square outside rank `k` and before file `f` on rank `k`. */
  ghost predicate SameBefore(b': Board, b: Board, k: int, f: int) {
    forall g, j :: 1 <= g <= 8 && 1 <= j <= 8 && (j != k || g < f) ==> At(b', g, j) == At(b, g, j)
  }

  /** Rank `k` of `b`, from file `f` on, holds the squares text `r` stands for. */
  ghost predicate FilledFrom(b: Board, k: int, f: int, r: string) {
    forall g :: f <= g <= 8 ==> At(b, g, k) == Cell(r, g - f + 1)
  }

  lemma PlaceFrame(b: Board, f: int, k: int, p: Piece)
    requires 1 <= f <= 8 && 1 <= k <= 8
    ensures At(b[FileRankToSquare(f, k) := p], f, k) == Some(p)
    ensures SameBefore(b[FileRankToSquare(f, k) := p], b, k, f)
    ensures ClearFrom(b, k, f + 1) ==> ClearFrom(b[FileRankToSquare(f, k) := p], k, f + 1)
  {
    var sq := FileRankToSquare(f, k);
    forall g, j | 1 <= g <= 8 && 1 <= j <= 8 && (g != f || j != k)
      ensures At(b[sq := p], g, j) == At(b, g, j)
    {
      SquareNamesDistinct(g, j, f, k);
    }
    var b1 := b[sq := p];
    if ClearFrom(b, k, f + 1) {
      forall g | f + 1 <= g <= 8 ensures At(b1, g, k) == None {
        assert At(b, g, k) == None;
        SquareNamesDistinct(g, k, f, k);
      }
    }
  }

  /** The digit case of `ScanRank`: the skipped squares stay empty. */
  lemma ScanRankSkip(r: string, k: int, f: int, b: Board, b': Board)
    requires r != [] && '1' <= r[0] <= '8' && 1 <= k <= 8 && 1 <= f
    requires ClearFrom(b, k, f)
    requires SameBefore(b', b, k, f + DigitValue(r[0]))
    requires FilledFrom(b', k, f + DigitValue(r[0]), r[1..])
    ensures SameBefore(b', b, k, f)
    ensures FilledFrom(b', k, f, r)
  {
    forall g | f <= g <= 8 ensures At(b', g, k) == Cell(r, g - f + 1) {
      CellOfFirst(r, g - f + 1);
    }
  }

  /** The letter case of `ScanRank`: the piece lands on file `f`. */
  lemma ScanRankPlace(r: string, k: int, f: int, b: Board, b': Board)
    requires r != [] && !('1' <= r[0] <= '8') && 1 <= k <= 8 && 1 <= f <= 8
    requires SameBefore(b', b[FileRankToSquare(f, k) := PieceOfChar(r[0])], k, f + 1)
    requires FilledFrom(b', k, f + 1, r[1..])
    ensures SameBefore(b', b, k, f)
    ensures FilledFrom(b', k, f, r)
  {
    var b1 := b[FileRankToSquare(f, k) := PieceOfChar(r[0])];
    PlaceFrame(b, f, k, PieceOfChar(r[0]));
    assert At(b', f, k) == At(b1, f, k);
    forall g | f <= g <= 8 ensures At(b', g, k) == Cell(r, g - f + 1) {
      CellOfFirst(r, g - f + 1);
    }
  }

  lemma RankCharsTail(r: string)
    requires r != [] && RankChars(r)
    ensures RankChars(r[1..])
  {
    var rest := r[1..];
    forall i | 0 <= i < |rest| ensures RankChar(rest[i]) { assert rest[i] == r[i + 1]; }
  }

  /**
   * Reading one rank's characters from file `f` on rank `k` fills exactly the squares
   * the rank stands for and touches no square of another rank or an earlier file.
   */
  lemma {:induction false} ScanRank(r: string, k: int, f: int, b: Board)
    requires RankChars(r)
    requires 1 <= k <= 8 && 1 <= f && f - 1 + Width(r) <= 8
    requires ClearFrom(b, k, f)
    ensures Scan(r, Cursor(k, f, b)).rank == k
    ensures SameBefore(Scan(r, Cursor(k, f, b)).board, b, k, f)
    ensures FilledFrom(Scan(r, Cursor(k, f, b)).board, k, f, r)
    decreases |r|, 1
  {
    if r == [] {
      assert Scan(r, Cursor(k, f, b)) == Cursor(k, f, b);
    } else if '1' <= r[0] <= '8' {
      ScanRankDigit(r, k, f, b);
    } else {
      ScanRankLetter(r, k, f, b);
    }
  }

  /** `ScanRank` when the text starts with a digit. */
  lemma {:induction false} ScanRankDigit(r: string, k: int, f: int, b: Board)
    requires RankChars(r) && r != [] && '1' <= r[0] <= '8'
    requires 1 <= k <= 8 && 1 <= f && f - 1 + Width(r) <= 8
    requires ClearFrom(b, k, f)
    ensures Scan(r, Cursor(k, f, b)).rank == k
    ensures SameBefore(Scan(r, Cursor(k, f, b)).board, b, k, f)
    ensures FilledFrom(Scan(r, Cursor(k, f, b)).board, k, f, r)
    decreases |r|, 0
  {
    var d := DigitValue(r[0]);
    var c := Scan(r, Cursor(k, f, b));
    RankCharsTail(r);
    assert Step(Cursor(k, f, b), r[0]) == Cursor(k, f + d, b);
    assert c == Scan(r[1..], Cursor(k, f + d, b));
    ScanRank(r[1..], k, f + d, b);
    ScanRankSkip(r, k, f, b, c.board);
  }

  /** `ScanRank` when the text starts with a piece letter. */
  lemma {:induction false} ScanRankLetter(r: string, k: int, f: int, b: Board)
    requires RankChars(r) && r != [] && !('1' <= r[0] <= '8')
    requires 1 <= k <= 8 && 1 <= f && f - 1 + Width(r) <= 8
    requires ClearFrom(b, k, f)
    ensures Scan(r, Cursor(k, f, b)).rank == k
    ensures SameBefore(Scan(r, Cursor(k, f, b)).board, b, k, f)
    ensures FilledFrom(Scan(r, Cursor(k, f, b)).board, k, f, r)
    decreases |r|, 0
  {
    var b1 := b[FileRankToSquare(f, k) := PieceOfChar(r[0])];
    var c := Scan(r, Cursor(k, f, b));
    RankCharsTail(r);
    assert Step(Cursor(k, f, b), r[0]) == Cursor(k, f + 1, b1);
    assert c == Scan(r[1..], Cursor(k, f + 1, b1));
    PlaceFrame(b, f, k, PieceOfChar(r[0]));
    ScanRank(r[1..], k, f + 1, b1);
    ScanRankPlace(r, k, f, b, c.board);
  }

  /** Ranks `k` down to `k - n + 1` of `b` hold what the texts `rs` stand for. */
  ghost predicate FilledRanks(b: Board, rs: seq<string>, k: int) {
    forall g, j :: 1 <= g <= 8 && k - |rs| < j <= k ==> At(b, g, j) == Cell(rs[k - j], g)
  }

  function Placement(rs: seq<string>, k: int, b: Board): Board
    requires |rs| >= 1
  {
    Scan(JoinWith(rs, '/'), Cursor(k, 1, b)).board
  }

  /** Outside ranks `lo + 1` to `hi`, `b'` and `b` agree on every grid square. */
  ghost predicate UnchangedOutside(b': Board, b: Board, lo: int, hi: int) {
    forall g, j :: 1 <= g <= 8 && 1 <= j <= 8 && !(lo < j <= hi) ==> At(b', g, j) == At(b, g, j)
  }

  /** Ranks `lo + 1` to `hi` of `b` are empty. */
  ghost predicate ClearRanks(b: Board, lo: int, hi: int) {
    forall g, j :: 1 <= g <= 8 && lo < j <= hi ==> At(b, g, j) == None
  }

  /** Reading the first rank and the '/' after it leaves the rest to be read from the rank below. */
  lemma PlacementCons(rs: seq<string>, k: int, b: Board)
    requires |rs| >= 2
    requires Scan(rs[0], Cursor(k, 1, b)).rank == k
    ensures Placement(rs, k, b) == Placement(rs[1..], k - 1, Scan(rs[0], Cursor(k, 1, b)).board)
  {
    var c0 := Cursor(k, 1, b);
    var c1 := Scan(rs[0], c0);
    var tail := JoinWith(rs[1..], '/');
    ScanAppend(rs[0], "/" + tail, c0);
    assert ("/" + tail)[0] == '/' && ("/" + tail)[1..] == tail;
    assert Scan("/" + tail, c1) == Scan(tail, Cursor(k - 1, 1, c1.board));
  }

  /** What reading the first rank leaves for the ranks below it. */
  lemma ScanRanksFirst(rs: seq<string>, k: int, lo: int, b: Board, b1: Board)
    requires 1 <= |rs| <= k <= 8 && lo == k - |rs|
    requires ClearRanks(b, lo, k)
    requires SameBefore(b1, b, k, 1) && FilledFrom(b1, k, 1, rs[0])
    ensures ClearRanks(b1, lo, k - 1)
    ensures UnchangedOutside(b1, b, k - 1, k)
    ensures forall g :: 1 <= g <= 8 ==> At(b1, g, k) == Cell(rs[0], g)
  {
  }

  /** Putting the first rank and the ranks below it together. */
  lemma ScanRanksJoin(rs: seq<string>, k: int, lo: int, b: Board, b1: Board, b2: Board)
    requires 2 <= |rs| <= k <= 8 && lo == k - |rs|
    requires UnchangedOutside(b1, b, k - 1, k)
    requires forall g :: 1 <= g <= 8 ==> At(b1, g, k) == Cell(rs[0], g)
    requires UnchangedOutside(b2, b1, lo, k - 1)
    requires FilledRanks(b2, rs[1..], k - 1)
    ensures UnchangedOutside(b2, b, lo, k)
    ensures FilledRanks(b2, rs, k)
  {
    forall g, j | 1 <= g <= 8 && k - |rs| < j <= k
      ensures At(b2, g, j) == Cell(rs[k - j], g)
    {
      if j < k {
        assert rs[1..][(k - 1) - j] == rs[k - j];
      } else {
        assert At(b2, g, k) == At(b1, g, k);
      }
    }
  }

  /** Reading ranks `rs`, joined by '/', from rank `k` down to rank `lo + 1` fills those ranks as the texts say. */
  lemma {:induction false} ScanRanks(rs: seq<string>, k: int, lo: int, b: Board)
    requires 1 <= |rs| <= k <= 8 && lo == k - |rs|
    requires CanonicalRanks(rs)
    requires ClearRanks(b, lo, k)
    ensures UnchangedOutside(Placement(rs, k, b), b, lo, k)
    ensures FilledRanks(Placement(rs, k, b), rs, k)
    decreases |rs|
  {
    assert ClearFrom(b, k, 1);
    CanonicalRanksTail(rs);
    ScanRank(rs[0], k, 1, b);
    var b1 := Scan(rs[0], Cursor(k, 1, b)).board;
    ScanRanksFirst(rs, k, lo, b, b1);
    if |rs| == 1 {
      assert JoinWith(rs, '/') == rs[0];
      assert Placement(rs, k, b) == b1;
    } else {
      PlacementCons(rs, k, b);
      ScanRanks(rs[1..], k - 1, lo, b1);
      ScanRanksJoin(rs, k, lo, b, b1, Placement(rs[1..], k - 1, b1));
    }
  }

  lemma {:induction false} RowStringNones(n: nat, rest: seq<Option<Piece>>, e: nat)
    ensures RowString(Nones(n) + rest, e) == RowString(rest, e + n)
    decreases n
  {
    if n > 0 {
      var cells := Nones(n) + rest;
      assert cells[0] == None;
      assert cells[1..] == Nones(n - 1) + rest;
      RowStringNones(n - 1, rest, e + 1);
    } else {
      assert Nones(n) + rest == rest;
    }
  }

  lemma PieceCharOfLetter(c: char)
    requires IsPieceLetter(c)
    ensures PieceChar(PieceOfChar(c)) == c
  {
  }

  lemma NoAdjacentDigitsTail(r: string)
    requires r != [] && NoAdjacentDigits(r)
    ensures NoAdjacentDigits(r[1..])
    ensures |r| > 1 && IsDigit(r[0]) ==> !IsDigit(r[1..][0])
  {
    var rest := r[1..];
    forall i | 0 <= i < |rest| - 1 ensures !(IsDigit(rest[i]) && IsDigit(rest[i + 1])) {
      assert rest[i] == r[i + 1] && rest[i + 1] == r[i + 2];
    }
  }

  lemma RowStringSome(cells: seq<Option<Piece>>, e: nat)
    requires cells != [] && cells[0].Some?
    ensures RowString(cells, e) == Flush(e) + [PieceChar(cells[0].value)] + RowString(cells[1..], 0)
  {
  }

  lemma ExpandLetter(r: string)
    requires r != [] && !('1' <= r[0] <= '8')
    ensures Expand(r) == [Some(PieceOfChar(r[0]))] + Expand(r[1..])
  {
  }

  lemma ConsSplit(r: string)
    requires r != []
    ensures r == [r[0]] + r[1..]
  {
  }

  /** A piece letter after `e` pending empty squares. */
  lemma RowStringLetter(r: string, e: nat)
    requires r != [] && !('1' <= r[0] <= '8') && PieceChar(PieceOfChar(r[0])) == r[0]
    requires RowString(Expand(r[1..]), 0) == r[1..]
    ensures RowString(Expand(r), e) == Flush(e) + r
  {
    var rest := r[1..];
    var cells := Expand(r);
    ExpandLetter(r);
    assert cells[0] == Some(PieceOfChar(r[0]));
    assert cells[1..] == Expand(rest);
    RowStringSome(cells, e);
    ConsSplit(r);
    AppendAssoc(Flush(e), [r[0]], rest);
  }

  /** A digit, nothing pending before it and no digit after it. */
  lemma RowStringDigit(r: string)
    requires r != [] && '1' <= r[0] <= '8'
    requires RowString(Expand(r[1..]), DigitValue(r[0])) == Flush(DigitValue(r[0])) + r[1..]
    ensures RowString(Expand(r), 0) == r
  {
    var d := DigitValue(r[0]);
    assert Expand(r) == Nones(d) + Expand(r[1..]);
    RowStringNones(d, Expand(r[1..]), 0);
    assert Flush(d) == [r[0]];
    assert r == [r[0]] + r[1..];
  }

  /** Writing out the squares a canonical rank stands for gives the rank's text back. */
  lemma {:induction false} RowStringExpand(r: string, e: nat)
    requires RankChars(r) && NoAdjacentDigits(r)
    requires e > 0 ==> r == [] || !IsDigit(r[0])
    ensures RowString(Expand(r), e) == Flush(e) + r
    decreases |r|
  {
    if r == [] {
      assert Flush(e) + r == Flush(e);
    } else {
      RankCharsTail(r);
      NoAdjacentDigitsTail(r);
      if '1' <= r[0] <= '8' {
        RowStringExpand(r[1..], DigitValue(r[0]));
        RowStringDigit(r);
      } else {
        assert RankChar(r[0]);
        RowStringExpand(r[1..], 0);
        PieceCharOfLetter(r[0]);
        RowStringLetter(r, e);
      }
    }
  }

  /** A rank whose squares hold what a canonical rank's text stands for is written as that text. */
  lemma RowTextOfFilled(b: Board, k: int, r: string)
    requires CanonicalRank(r)
    requires forall g :: 1 <= g <= 8 ==> At(b, g, k) == Cell(r, g)
    ensures RowText(b, k) == r
  {
    assert Rank(b, k) == Expand(r) by {
      forall g | 0 <= g < 8 ensures Rank(b, k)[g] == Expand(r)[g] {
        assert At(b, g + 1, k) == Cell(r, g + 1);
      }
    }
    RowStringExpand(r, 0);
  }

  lemma JoinWithCons(parts: seq<string>, sep: char)
    requires |parts| >= 2
    ensures JoinWith(parts, sep) == parts[0] + ([sep] + JoinWith(parts[1..], sep))
  {
  }

  /** After reading eight canonical ranks, writing ranks `k` down to 1 gives their texts back. */
  lemma {:induction false} RanksOfScanned(rs: seq<string>, b: Board, k: int)
    requires |rs| == 8 && 1 <= k <= 8
    requires CanonicalRanks(rs)
    requires FilledRanks(b, rs, 8)
    ensures Ranks(b, k) == JoinWith(rs[8 - k..], '/')
    decreases k
  {
    var r := rs[8 - k];
    RowTextOfFilled(b, k, r);
    var tail := rs[8 - k..];
    if k > 1 {
      RanksOfScanned(rs, b, k - 1);
      assert tail[1..] == rs[8 - (k - 1)..];
      JoinWithCons(tail, '/');
    } else {
      assert tail == [r];
    }
  }

  /** Loading a canonical placement and writing it out gives the same text. */
  lemma PlacementRoundTrip(ranks: seq<string>)
    requires |ranks| == 8 && CanonicalRanks(ranks)
    ensures Ranks(Scan(JoinWith(ranks, '/'), Cursor(8, 1, map[])).board, 8) == JoinWith(ranks, '/')
  {
    assert ClearRanks(map[], 0, 8);
    ScanRanks(ranks, 8, 0, map[]);
    RanksOfScanned(ranks, Placement(ranks, 8, map[]), 8);
    assert ranks[0..] == ranks;
  }

  lemma SplitCompose(ranks: seq<string>, turn: Color, castling: string, enPassant: string, half: int, full: int)
    requires |ranks| == 8 && CanonicalRanks(ranks)
    requires ' ' !in castling && ' ' !in enPassant
    ensures Split(Compose(ranks, turn, castling, enPassant, half, full), ' ')
         == [JoinWith(ranks, '/'), [ColorChar(turn)], castling, enPassant, IntToString(half), IntToString(full)]
  {
    var fields := [JoinWith(ranks, '/'), [ColorChar(turn)], castling, enPassant, IntToString(half), IntToString(full)];
    assert forall i :: 0 <= i < 8 ==> ' ' !in ranks[i] by {
      forall i | 0 <= i < 8 ensures ' ' !in ranks[i] {
        assert RankChars(ranks[i]);
      }
    }
    JoinWithAvoids(ranks, '/', ' ');
    SplitJoin(fields, ' ');
  }

  /**
   * Round trip: loading a canonical FEN record and writing it out again gives the
   * same text.
   */
  lemma LoadFenRoundTrip(ranks: seq<string>, turn: Color, castling: string, enPassant: string, half: int, full: int)
    requires |ranks| == 8 && CanonicalRanks(ranks)
    requires castling != "" && ' ' !in castling
    requires enPassant != "" && ' ' !in enPassant
    ensures FenOf(LoadFields(Compose(ranks, turn, castling, enPassant, half, full)))
         == Compose(ranks, turn, castling, enPassant, half, full)
  {
    var s := Compose(ranks, turn, castling, enPassant, half, full);
    SplitCompose(ranks, turn, castling, enPassant, half, full);
    var f := LoadFields(s);
    PlacementRoundTrip(ranks);
    assert Ranks(f.board, 8) == JoinWith(ranks, '/');
    ParseIntOfIntToString(half);
    ParseIntOfIntToString(full);
    assert f.halfMoves == Some(half) && f.fullMoves == Some(full);
    assert f.turn == turn by {
      assert [ColorChar(turn)] == "w" <==> turn == White;
    }
    assert OrDash(f.castling) == castling;
    assert OrDash(f.enPassant) == enPassant;
  }

  lemma CanonicalRankOfLetters(r: string)
    requires |r| == 8 && forall i :: 0 <= i < 8 ==> IsPieceLetter(r[i])
    ensures CanonicalRank(r) && Width(r) == 8
  {
    WidthOfLetters(r);
  }

  lemma {:induction false} WidthOfLetters(r: string)
    requires forall i :: 0 <= i < |r| ==> IsPieceLetter(r[i])
    ensures Width(r) == |r|
    decreases |r|
  {
    if r != [] {
      assert forall i :: 0 <= i < |r[1..]| ==> IsPieceLetter(r[1..][i]) by {
        forall i | 0 <= i < |r[1..]| ensures IsPieceLetter(r[1..][i]) { assert r[1..][i] == r[i + 1]; }
      }
      WidthOfLetters(r[1..]);
    }
  }

  const StartRanks: seq<string> := ["rnbqkbnr", "pppppppp", "8", "8", "8", "8", "PPPPPPPP", "RNBQKBNR"]

  lemma StartRanksCanonical()
    ensures |StartRanks| == 8 && CanonicalRanks(StartRanks)
  {
    forall i | 0 <= i < 8 ensures CanonicalRank(StartRanks[i]) {
      var r := StartRanks[i];
      if i == 0 { CanonicalRankOfLetters(r); }
      else if i == 1 { CanonicalRankOfLetters(r); }
      else if i == 6 { CanonicalRankOfLetters(r); }
      else if i == 7 { CanonicalRankOfLetters(r); }
      else { EmptyRankCanonical(); }
    }
  }

  lemma EmptyRankCanonical()
    ensures CanonicalRank("8")
  {
    assert Width("8") == CharWidth('8') + Width("");
  }

  /** Joining one more part on the right. */
  lemma {:induction false} JoinWithSnoc(parts: seq<string>, x: string, sep: char)
    requires |parts| >= 1
    ensures JoinWith(parts + [x], sep) == JoinWith(parts, sep) + [sep] + x
    decreases |parts|
  {
    var all := parts + [x];
    if |parts| == 1 {
      assert all[1..] == [x];
    } else {
      assert all[1..] == parts[1..] + [x];
      JoinWithSnoc(parts[1..], x, sep);
    }
  }

  /** The first `k + 1` parts joined, from the first `k`. */
  lemma JoinPrefixStep(parts: seq<string>, k: nat, sep: char, text: string)
    requires 1 <= k < |parts| && JoinWith(parts[..k], sep) == text
    ensures JoinWith(parts[..k + 1], sep) == text + [sep] + parts[k]
  {
    assert parts[..k + 1] == parts[..k] + [parts[k]];
    JoinWithSnoc(parts[..k], parts[k], sep);
  }

  lemma StartPlacementText()
    ensures JoinWith(StartRanks, '/') == "rnbqkbnr/pppppppp/8/8/8/8/PPPPPPPP/RNBQKBNR"
  {
    assert StartRanks[..1] == ["rnbqkbnr"];
    JoinPrefixStep(StartRanks, 1, '/', "rnbqkbnr");
    assert "rnbqkbnr" + "/" + "pppppppp" == "rnbqkbnr/pppppppp";
    JoinPrefixStep(StartRanks, 2, '/', "rnbqkbnr/pppppppp");
    assert "rnbqkbnr/pppppppp" + "/" + "8" == "rnbqkbnr/pppppppp/8";
    JoinPrefixStep(StartRanks, 3, '/', "rnbqkbnr/pppppppp/8");
    assert "rnbqkbnr/pppppppp/8" + "/" + "8" == "rnbqkbnr/pppppppp/8/8";
    JoinPrefixStep(StartRanks, 4, '/', "rnbqkbnr/pppppppp/8/8");
    assert "rnbqkbnr/pppppppp/8/8" + "/" + "8" == "rnbqkbnr/pppppppp/8/8/8";
    JoinPrefixStep(StartRanks, 5, '/', "rnbqkbnr/pppppppp/8/8/8");
    assert "rnbqkbnr/pppppppp/8/8/8" + "/" + "8" == "rnbqkbnr/pppppppp/8/8/8/8";
    JoinPrefixStep(StartRanks, 6, '/', "rnbqkbnr/pppppppp/8/8/8/8");
    assert "rnbqkbnr/pppppppp/8/8/8/8" + "/" + "PPPPPPPP" == "rnbqkbnr/pppppppp/8/8/8/8/PPPPPPPP";
    JoinPrefixStep(StartRanks, 7, '/', "rnbqkbnr/pppppppp/8/8/8/8/PPPPPPPP");
    assert "rnbqkbnr/pppppppp/8/8/8/8/PPPPPPPP" + "/" + "RNBQKBNR" == "rnbqkbnr/pppppppp/8/8/8/8/PPPPPPPP/RNBQKBNR";
    assert StartRanks[..8] == StartRanks;
  }

  lemma StartComposeText()
    ensures Compose(StartRanks, White, "KQkq", "-", 0, 1) == StartFen
  {
    StartPlacementText();
    assert IntToString(0) == "0" && IntToString(1) == "1";
    var fields := ["rnbqkbnr/pppppppp/8/8/8/8/PPPPPPPP/RNBQKBNR", "w", "KQkq", "-", "0", "1"];
    assert fields[..1] == ["rnbqkbnr/pppppppp/8/8/8/8/PPPPPPPP/RNBQKBNR"];
    JoinPrefixStep(fields, 1, ' ', "rnbqkbnr/pppppppp/8/8/8/8/PPPPPPPP/RNBQKBNR");
    assert "rnbqkbnr/pppppppp/8/8/8/8/PPPPPPPP/RNBQKBNR" + " " + "w" == "rnbqkbnr/pppppppp/8/8/8/8/PPPPPPPP/RNBQKBNR w";
    JoinPrefixStep(fields, 2, ' ', "rnbqkbnr/pppppppp/8/8/8/8/PPPPPPPP/RNBQKBNR w");
    assert "rnbqkbnr/pppppppp/8/8/8/8/PPPPPPPP/RNBQKBNR w" + " " + "KQkq" == "rnbqkbnr/pppppppp/8/8/8/8/PPPPPPPP/RNBQKBNR w KQkq";
    JoinPrefixStep(fields, 3, ' ', "rnbqkbnr/pppppppp/8/8/8/8/PPPPPPPP/RNBQKBNR w KQkq");
    assert "rnbqkbnr/pppppppp/8/8/8/8/PPPPPPPP/RNBQKBNR w KQkq" + " " + "-" == "rnbqkbnr/pppppppp/8/8/8/8/PPPPPPPP/RNBQKBNR w KQkq -";
    JoinPrefixStep(fields, 4, ' ', "rnbqkbnr/pppppppp/8/8/8/8/PPPPPPPP/RNBQKBNR w KQkq -");
    assert "rnbqkbnr/pppppppp/8/8/8/8/PPPPPPPP/RNBQKBNR w KQkq -" + " " + "0" == "rnbqkbnr/pppppppp/8/8/8/8/PPPPPPPP/RNBQKBNR w KQkq - 0";
    JoinPrefixStep(fields, 5, ' ', "rnbqkbnr/pppppppp/8/8/8/8/PPPPPPPP/RNBQKBNR w KQkq - 0");
    assert "rnbqkbnr/pppppppp/8/8/8/8/PPPPPPPP/RNBQKBNR w KQkq - 0" + " " + "1" == "rnbqkbnr/pppppppp/8/8/8/8/PPPPPPPP/RNBQKBNR w KQkq - 0 1";
    assert fields[..6] == fields;
  }

  lemma StartFieldsWithoutSpaces()
    ensures ' ' !in "KQkq" && ' ' !in "-"
  {
  }

  /** `new SimpleChess()` starts from the standard position, and `fen()` then gives the start text back. */
  lemma StartFenRoundTrip()
    ensures FenOf(LoadFields(StartFen)) == StartFen
  {
    StartRanksCanonical();
    StartComposeText();
    StartFieldsWithoutSpaces();
    LoadFenRoundTrip(StartRanks, White, "KQkq", "-", 0, 1);
  }

  // ---------------------------------------------------------------------------
  // What `fen()` writes, whatever the board holds
  // ---------------------------------------------------------------------------

  /** The six piece types: 'p', 'n', 'b', 'r', 'q', 'k'. */
  predicate StandardKind(p: Piece) {
    p.kind in {'p', 'n', 'b', 'r', 'q', 'k'}
  }

  /** Every piece on the board has one of the six types. */
  predicate StandardBoard(b: Board) {
    forall sq :: sq in b ==> StandardKind(b[sq])
  }

  lemma {:induction false} WidthAppend(a: string, c: string)
    ensures Width(a + c) == Width(a) + Width(c)
    decreases |a|
  {
    if a == [] {
      assert a + c == c;
    } else {
      assert (a + c)[0] == a[0] && (a + c)[1..] == a[1..] + c;
      WidthAppend(a[1..], c);
    }
  }

  /** A pending run of one to eight empty squares is written as one digit of that width. */
  lemma FlushDigit(e: nat)
    requires 0 < e <= 8
    ensures Flush(e) == [DigitChar(e)] && RankChar(DigitChar(e)) && Width(Flush(e)) == e
  {
    var d := DigitChar(e);
    assert DigitValue(d) == e;
    assert Width([d]) == CharWidth(d) + Width([d][1..]);
  }

  /** A piece letter in front of a text without adjacent digits. */
  lemma LetterFront(c: char, t: string)
    requires IsPieceLetter(c) && RankChars(t) && NoAdjacentDigits(t)
    ensures RankChars([c] + t) && NoAdjacentDigits([c] + t) && Width([c] + t) == 1 + Width(t)
  {
    var u := [c] + t;
    assert u[0] == c && u[1..] == t;
    forall i | 1 <= i < |u| ensures RankChar(u[i]) {
      assert u[i] == t[i - 1];
    }
    forall i | 1 <= i < |u| - 1 ensures !(IsDigit(u[i]) && IsDigit(u[i + 1])) {
      assert u[i] == t[i - 1] && u[i + 1] == t[i];
    }
  }

  /** A run (one digit or nothing) in front of a text that starts with a piece letter. */
  lemma RunFront(f: string, u: string)
    requires |f| <= 1 && (f != [] ==> RankChar(f[0]))
    requires u != [] && IsPieceLetter(u[0]) && RankChars(u) && NoAdjacentDigits(u)
    ensures RankChars(f + u) && NoAdjacentDigits(f + u) && Width(f + u) == Width(f) + Width(u)
  {
    WidthAppend(f, u);
    if f != [] {
      var s := f + u;
      assert s[0] == f[0] && s[1..] == u;
      forall i | 1 <= i < |s| ensures RankChar(s[i]) {
        assert s[i] == u[i - 1];
      }
      forall i | 1 <= i < |s| - 1 ensures !(IsDigit(s[i]) && IsDigit(s[i + 1])) {
        assert s[i] == u[i - 1] && s[i + 1] == u[i];
      }
    } else {
      assert f + u == u;
    }
  }

  /** A run (one digit or nothing), a piece letter, then a text without adjacent digits. */
  lemma LetterJoin(f: string, c: char, t: string)
    requires |f| <= 1 && (f != [] ==> RankChar(f[0]))
    requires IsPieceLetter(c) && RankChars(t) && NoAdjacentDigits(t)
    ensures RankChars(f + [c] + t) && NoAdjacentDigits(f + [c] + t)
    ensures Width(f + [c] + t) == Width(f) + 1 + Width(t)
  {
    LetterFront(c, t);
    RunFront(f, [c] + t);
    assert f + [c] + t == f + ([c] + t);
  }

  /**
   * The text of a rank of standard pieces, `e` empty squares pending before them: piece
   * letters and single-digit runs, no two digits in a row, as wide as its squares.
   */
  lemma {:induction false} RowStringCanonical(cells: seq<Option<Piece>>, e: nat)
    requires e + |cells| <= 8
    requires forall i :: 0 <= i < |cells| && cells[i].Some? ==> StandardKind(cells[i].value)
    ensures RankChars(RowString(cells, e)) && NoAdjacentDigits(RowString(cells, e))
    ensures Width(RowString(cells, e)) == e + |cells|
    decreases |cells|
  {
    if cells == [] {
      if e > 0 {
        FlushDigit(e);
      } else {
        assert Flush(e) == "";
      }
    } else {
      var rest := cells[1..];
      forall i | 0 <= i < |rest| && rest[i].Some? ensures StandardKind(rest[i].value) {
        assert rest[i] == cells[i + 1];
      }
      match cells[0]
      case None =>
        RowStringCanonical(rest, e + 1);
      case Some(p) =>
        RowStringCanonical(rest, 0);
        var c := PieceChar(p);
        assert IsPieceLetter(c) by {
          assert StandardKind(cells[0].value);
        }
        var f := Flush(e);
        if e > 0 {
          FlushDigit(e);
        } else {
          assert f == "";
        }
        assert RowString(cells, e) == f + [c] + RowString(rest, 0);
        LetterJoin(f, c, RowString(rest, 0));
    }
  }

  /** Each rank `fen()` writes for a board of standard pieces is canonical. */
  lemma RowTextCanonical(b: Board, rank: int)
    requires StandardBoard(b)
    ensures CanonicalRank(RowText(b, rank))
  {
    var cells := Rank(b, rank);
    forall i | 0 <= i < 8 && cells[i].Some? ensures StandardKind(cells[i].value) {
      assert cells[i] == At(b, i + 1, rank);
    }
    RowStringCanonical(cells, 0);
  }

  /** The texts of ranks `rank` down to 1. */
  function RowTexts(b: Board, rank: nat): (rs: seq<string>)
    ensures |rs| == rank
    ensures forall i :: 0 <= i < rank ==> rs[i] == RowText(b, rank - i)
  {
    seq(rank, i => RowText(b, rank - i))
  }

  lemma {:induction false} RanksJoin(b: Board, rank: nat)
    requires rank >= 1
    ensures Ranks(b, rank) == JoinWith(RowTexts(b, rank), '/')
    decreases rank
  {
    var rs := RowTexts(b, rank);
    if rank == 1 {
      assert Ranks(b, 1) == RowText(b, 1) + "";
    } else {
      RanksJoin(b, rank - 1);
      assert rs[1..] == RowTexts(b, rank - 1);
      JoinWithCons(rs, '/');
    }
  }

  /**
   * Whatever a board of standard pieces holds, the placement `fen()` writes is eight
   * ranks separated by '/', each of piece letters and run-length digits for the empty
   * squares, no two digits in a row, eight files wide.
   */
  lemma FenPlacementCanonical(b: Board)
    requires StandardBoard(b)
    ensures Split(Ranks(b, 8), '/') == RowTexts(b, 8)
    ensures CanonicalRanks(RowTexts(b, 8))
  {
    var rs := RowTexts(b, 8);
    forall i | 0 <= i < 8 ensures CanonicalRank(rs[i]) && '/' !in rs[i] {
      RowTextCanonical(b, 8 - i);
      assert RankChars(rs[i]);
    }
    RanksJoin(b, 8);
    SplitJoin(rs, '/');
  }
}
