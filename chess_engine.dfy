/**
 * `SimpleChess`, the fallback engine: a board map and the FEN side fields, updated in
 * place. Its loops are proved against the functions of module `Fen`; `move` and `put`
 * are specified by `ApplyMove` and `PutPiece`, whose contracts carry what they promise.
 */
module ChessEngine {
  import opened Wrappers
  import opened Decimal
  import opened Fen

  /** What a caller asks `move` for: origin, destination and an optional promotion letter. */
  datatype MoveRequest = MoveRequest(from: string, to: string, promotion: Option<string>)

  /** `move` takes either a coordinate string ("e2e4", "e7e8q") or an object. */
  datatype MoveInput = MoveText(text: string) | MoveObject(request: MoveRequest)

  /** The move object `move` returns and appends to the history. */
  datatype MoveRecord = MoveRecord(from: string, to: string, promotion: Option<string>, piece: Piece, captured: Option<Piece>)

  /** A successful move: the record and the fields after it. */
  datatype Moved = Moved(record: MoveRecord, after: FenFields)

  /** The argument of `put`: an object whose colour or type may be missing (or empty). */
  datatype PieceArg = PieceArg(color: Option<Color>, kind: Option<char>)

  /** `s.substring(start, end)` for `start <= end`: both ends are clamped to the string. */
  function Substring(s: string, start: nat, end: nat): (t: string)
    requires start <= end
    ensures end <= |s| ==> t == s[start..end]
    ensures end > |s| ==> t == s[(if start <= |s| then start else |s|)..]
    ensures |t| == if end <= |s| then end - start else if start <= |s| then |s| - start else 0
  {
    var a := if start <= |s| then start else |s|;
    var b := if end <= |s| then end else |s|;
    s[a..b]
  }

  /** How `move` reads its argument: a string gives `substring(0, 2)`, `substring(2, 4)` and, past four characters, `substring(4, 5)`. */
  function RequestOf(m: MoveInput): (r: MoveRequest)
    ensures m.MoveObject? ==> r == m.request
    ensures m.MoveText? ==> r.from == if |m.text| >= 2 then m.text[..2] else m.text
    ensures m.MoveText? ==> r.to == if |m.text| >= 4 then m.text[2..4] else if |m.text| >= 2 then m.text[2..] else ""
    ensures m.MoveText? && |m.text| >= 4 ==> r.from + r.to == m.text[..4]
    ensures m.MoveText? ==> (r.promotion.Some? <==> |m.text| > 4)
    ensures m.MoveText? && |m.text| > 4 ==> r.promotion == Some([m.text[4]])
  {
    match m
    case MoveObject(req) => req
    case MoveText(s) =>
      var promotion := if |s| > 4 then assert s[4..5] == [s[4]]; Some(Substring(s, 4, 5)) else None;
      MoveRequest(Substring(s, 0, 2), Substring(s, 2, 4), promotion)
  }

  /** `n++` on a counter: NaN stays NaN. */
  function Inc(n: Option<int>): (r: Option<int>)
    ensures r.Some? <==> n.Some?
    ensures r.Some? ==> r.value == n.value + 1
  {
    match n
    case None => None
    case Some(v) => Some(v + 1)
  }

  /**
   * `move`: null when the origin is empty or holds a piece of the side not to move;
   * otherwise the piece goes from `from` to `to` (whatever stood there is the capture),
   * the turn flips, the full-move counter grows when White is to move again and the
   * half-move clock restarts on a pawn move or a capture. No other rule is checked.
   */
  function ApplyMove(f: FenFields, req: MoveRequest): (r: Option<Moved>)
    ensures r.None? <==> req.from !in f.board || f.board[req.from].color != f.turn
    ensures r.Some? ==>
      var rec := r.value.record;
      && rec.from == req.from && rec.to == req.to && rec.promotion == req.promotion
      && rec.piece == f.board[req.from]
      && rec.captured == Lookup(f.board, req.to)
    ensures r.Some? ==>
      var g := r.value.after;
      && Lookup(g.board, req.to) == Some(f.board[req.from])
      && (req.from != req.to ==> req.from !in g.board)
      && (forall sq :: sq != req.from && sq != req.to ==> Lookup(g.board, sq) == Lookup(f.board, sq))
    ensures r.Some? ==>
      var g := r.value.after;
      && g.turn == Opponent(f.turn)
      && g.castling == f.castling && g.enPassant == f.enPassant
      && g.fullMoves == (if g.turn == White then Inc(f.fullMoves) else f.fullMoves)
      && g.halfMoves == (if f.board[req.from].kind == 'p' || req.to in f.board then Some(0) else Inc(f.halfMoves))
  {
    if req.from !in f.board then None
    else
      var piece := f.board[req.from];
      if piece.color != f.turn then None
      else
        var captured := Lookup(f.board, req.to);
        var turn := Opponent(f.turn);
        Some(Moved(
          MoveRecord(req.from, req.to, req.promotion, piece, captured),
          FenFields(
            (f.board - {req.from})[req.to := piece],
            turn,
            f.castling,
            f.enPassant,
            if piece.kind == 'p' || captured.Some? then Some(0) else Inc(f.halfMoves),
            if turn == White then Inc(f.fullMoves) else f.fullMoves)))
  }

  /**
   * `put`: refused when the square does not match `[a-h][1-8]` or the piece, its colour
   * or its type is missing; otherwise only that square changes.
   */
  function PutPiece(b: Board, p: Option<PieceArg>, sq: string): (r: Option<Board>)
    ensures r.Some? <==> ValidSquare(sq) && p.Some? && p.value.color.Some? && p.value.kind.Some?
    ensures r.Some? ==> Lookup(r.value, sq) == Some(Piece(p.value.color.value, p.value.kind.value))
    ensures r.Some? ==> forall s :: s != sq ==> Lookup(r.value, s) == Lookup(b, s)
  {
    if !ValidSquare(sq) then None
    else if p.None? || p.value.color.None? || p.value.kind.None? then None
    else Some(b[sq := Piece(p.value.color.value, p.value.kind.value)])
  }

  class SimpleChess {
    var board: Board
    var turn: Color
    var castling: Option<string>
    var enPassant: Option<string>
    var halfMoves: Option<int>
    var fullMoves: Option<int>
    var moveHistory: seq<MoveRecord>

    /** The fields `load` sets and `fen` reads. */
    function Fields(): FenFields
      reads this
    {
      FenFields(board, turn, castling, enPassant, halfMoves, fullMoves)
    }

    /** `new SimpleChess(fen)`: loads `fen`, or the start position when it is missing or empty. */
    constructor(fen: Option<string>)
      ensures Fields() == LoadFields(if fen.Some? && fen.value != "" then fen.value else StartFen)
      ensures fen.None? || fen.value == "" ==> FenOf(Fields()) == StartFen
      ensures moveHistory == []
    {
      moveHistory := [];
      var text := if fen.Some? && fen.value != "" then fen.value else StartFen;
      board := map[];
      turn := White;
      castling := Some("KQkq");
      enPassant := None;
      halfMoves := Some(0);
      fullMoves := Some(1);
      new;
      var _ := Load(text);
      if fen.None? || fen.value == "" {
        StartFenRoundTrip();
      }
    }

    /** `load(fen)`: the board is cleared and refilled, the side fields are read; the history is kept. */
    method Load(fen: string) returns (ok: bool)
      modifies this
      ensures ok
      ensures Fields() == LoadFields(fen)
      ensures moveHistory == old(moveHistory)
    {
      board := map[];
      var parts := Split(fen, ' ');
      var position := parts[0];
      var rank, file := 8, 1;
      var i := 0;
      while i < |position|
        invariant 0 <= i <= |position|
        invariant Scan(position[i..], Cursor(rank, file, board)) == Scan(position, Cursor(8, 1, map[]))
        invariant moveHistory == old(moveHistory)
      {
        var ch := position[i];
        assert position[i..][1..] == position[i + 1..];
        if ch == '/' {
          rank := rank - 1;
          file := 1;
        } else if '1' <= ch <= '8' {
          file := file + DigitValue(ch);
        } else {
          var square := FileRankToSquare(file, rank);
          var color := if ch == ToUpper(ch) then White else Black;
          board := board[square := Piece(color, ToLower(ch))];
          file := file + 1;
        }
        i := i + 1;
      }
      turn := if Part(parts, 1) == Some("w") then White else Black;
      castling := Part(parts, 2);
      enPassant := if Part(parts, 3) == Some("-") then None else Part(parts, 3);
      halfMoves := ParseCounter(Part(parts, 4));
      fullMoves := ParseCounter(Part(parts, 5));
      ok := true;
    }

    /** `fen()`: ranks 8 down to 1, empty squares run-length coded, then the side fields. */
    method Fen() returns (s: string)
      ensures s == FenOf(Fields())
    {
      var position := "";
      var rank := 8;
      while rank >= 1
        invariant 0 <= rank <= 8
        invariant position + Ranks(board, rank) == Ranks(board, 8)
      {
        ghost var start := position;
        ghost var sep := if rank > 1 then "/" else "";
        position := WriteRank(position, rank);
        if rank > 1 {
          position := position + "/";
        }
        assert position == start + RowText(board, rank) + sep;
        RanksStep(board, rank);
        AppendAssoc4(start, RowText(board, rank), sep, Ranks(board, rank - 1));
        rank := rank - 1;
      }
      assert Ranks(board, 0) == "";
      assert position == Ranks(board, 8);
      var fenParts := [position, [ColorChar(turn)], OrDash(castling), OrDash(enPassant), CounterText(halfMoves), CounterText(fullMoves)];
      s := JoinWith(fenParts, ' ');
    }

    /** The file loop of `fen()` for one rank: appends the rank's text to `position`. */
    method WriteRank(position: string, rank: int) returns (out: string)
      ensures out == position + RowText(board, rank)
    {
      out := position;
      ghost var cells := Rank(board, rank);
      var emptyCount: nat := 0;
      var file := 1;
      while file <= 8
        invariant 1 <= file <= 9
        invariant out + RowString(cells[file - 1..], emptyCount) == position + RowText(board, rank)
      {
        var piece := Lookup(board, FileRankToSquare(file, rank));
        assert piece == cells[file - 1];
        ghost var before := out;
        if piece.Some? {
          RowStringOccupied(cells, file - 1, emptyCount);
          ghost var flushed := Flush(emptyCount);
          if emptyCount > 0 {
            out := out + NatToString(emptyCount);
            emptyCount := 0;
          }
          assert out == before + flushed;
          out := out + [PieceChar(piece.value)];
          AppendAssoc(before, flushed + [PieceChar(piece.value)], RowString(cells[file..], 0));
          assert out + RowString(cells[file..], emptyCount) == position + RowText(board, rank);
        } else {
          RowStringEmpty(cells, file - 1, emptyCount);
          assert out + RowString(cells[file..], emptyCount + 1) == position + RowText(board, rank);
          emptyCount := emptyCount + 1;
        }
        file := file + 1;
      }
      assert cells[8..] == [];
      if emptyCount > 0 {
        out := out + NatToString(emptyCount);
      }
    }

    /** `get(square)`: the piece there, or null. */
    function Get(square: string): (r: Option<Piece>)
      reads this
      ensures r.Some? <==> square in board
      ensures r.Some? ==> r.value == board[square]
    {
      Lookup(board, square)
    }

    /** `turn()`: the side to move. */
    function Turn(): Color
      reads this
    {
      turn
    }

    /** `history()`: the moves made so far. */
    function History(): seq<MoveRecord>
      reads this
    {
      moveHistory
    }

    /** `move(m)`: as `ApplyMove` says; a successful move is appended to the history. */
    method Move(m: MoveInput) returns (r: Option<MoveRecord>)
      modifies this
      ensures var res := ApplyMove(old(Fields()), RequestOf(m));
        && (res.None? ==> r.None? && Fields() == old(Fields()))
        && (res.Some? ==> r == Some(res.value.record) && Fields() == res.value.after)
      ensures moveHistory == old(moveHistory) + (if r.Some? then [r.value] else [])
    {
      var req := RequestOf(m);
      var from, to := req.from, req.to;
      if from !in board {
        return None;
      }
      var piece := board[from];
      if piece.color != turn {
        return None;
      }
      var captured := Lookup(board, to);
      var record := MoveRecord(from, to, req.promotion, piece, captured);
      board := (board - {from})[to := piece];
      turn := if turn == White then Black else White;
      if turn == White {
        fullMoves := Inc(fullMoves);
      }
      if piece.kind == 'p' || captured.Some? {
        halfMoves := Some(0);
      } else {
        halfMoves := Inc(halfMoves);
      }
      moveHistory := moveHistory + [record];
      r := Some(record);
    }

    /** `put(piece, square)`: as `PutPiece` says; nothing but the board changes. */
    method Put(p: Option<PieceArg>, square: string) returns (ok: bool)
      modifies this
      ensures var res := PutPiece(old(board), p, square);
        && ok == res.Some?
        && board == (if ok then res.value else old(board))
      ensures turn == old(turn) && castling == old(castling) && enPassant == old(enPassant)
      ensures halfMoves == old(halfMoves) && fullMoves == old(fullMoves) && moveHistory == old(moveHistory)
    {
      if !ValidSquare(square) {
        return false;
      }
      if p.None? || p.value.color.None? || p.value.kind.None? {
        return false;
      }
      board := board[square := Piece(p.value.color.value, p.value.kind.value)];
      ok := true;
    }

    /** `reset()`: back to the start position; the history is kept. */
    method Reset()
      modifies this
      ensures Fields() == LoadFields(StartFen)
      ensures FenOf(Fields()) == StartFen
      ensures moveHistory == old(moveHistory)
    {
      var _ := Load(StartFen);
      StartFenRoundTrip();
    }
  }
}
