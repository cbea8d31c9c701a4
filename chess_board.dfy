/**
 * The game session kept by the `ChessBoard` component: the position, both clocks, whose
 * turn it is, the last move, the game-over flags, the square selection and the socket
 * messages sent so far. Every event handler is specified by a function from one session
 * state to the next (`After...`); class `Session` keeps the same fields and updates them
 * in place. The rules engine is an oracle over FEN strings: the board asks its engine
 * object for the side to move, pieces, targets and end-of-game flags, but every such
 * object is built fresh from a FEN, so no answer can depend on a history the FEN does
 * not hold.
 */
module ChessBoard {
  import opened Wrappers
  import opened Fen
  import opened ChessEngine

  // ---------------------------------------------------------------------------
  // The rules engine, as the board sees it
  // ---------------------------------------------------------------------------

  /** A move the engine accepted: the position after it and the promotion it reports. */
  datatype Applied = Applied(position: string, promotion: Option<string>)

  /**
   * The engine behind `createChess`: the start position, the position `load(fen)` leaves,
   * a partial `move`, and the queries the board makes of a position.
   */
  datatype Rules = Rules(
    start: string,
    load: string -> string,
    move: (string, MoveRequest) -> Option<Applied>,
    turn: string -> Color,
    get: (string, string) -> Option<Piece>,
    targets: (string, string) -> seq<string>,
    isCheckmate: string -> bool,
    isDraw: string -> bool,
    isStalemate: string -> bool,
    isGameOver: string -> bool)

  // ---------------------------------------------------------------------------
  // Session data
  // ---------------------------------------------------------------------------

  /** The two clocks, in seconds. */
  datatype Clock = Clock(white: int, black: int) {
    function Of(c: Color): int {
      if c == White then white else black
    }

    /** `{...time, [c]: v}`: one side's clock replaced, the other kept. */
    function With(c: Color, v: int): (r: Clock)
      ensures r.Of(c) == v && r.Of(Opponent(c)) == Of(Opponent(c))
    {
      if c == White then Clock(v, black) else Clock(white, v)
    }
  }

  datatype Winner = Won(color: Color) | Draw

  datatype Reason = Checkmate | Stalemate | Time

  datatype LastMove = LastMove(from: string, to: string)

  /** The socket messages the session sends. */
  datatype Emit =
    | JoinGame(gameId: string, player: Color)
    | RequestGameState(gameId: string)
    | MoveSent(gameId: string, move: string, whiteTimeLeft: int, blackTimeLeft: int)
    | GameOverSent(gameId: string, winner: Winner)
    | GameOverReported(gameId: string, winner: Winner, reason: Option<Reason>)

  /** The component's properties, fixed for the session. */
  datatype Config = Config(rules: Rules, gameId: string, player: Color, timeControl: int, increment: int)

  /** The state the component keeps, plus the messages it has sent. */
  datatype State = State(
    game: string,
    time: Clock,
    isMyTurn: bool,
    lastMove: Option<LastMove>,
    gameOver: bool,
    reason: Option<Reason>,
    winner: Option<Winner>,
    selected: Option<string>,
    available: seq<string>,
    outbox: seq<Emit>)

  /** A `gameState` message; a field the server leaves out (or sends empty) is `None`. */
  datatype GameStateData = GameStateData(
    fen: Option<string>,
    whiteTimeLeft: Option<int>,
    blackTimeLeft: Option<int>,
    status: Option<string>,
    winner: Option<Winner>,
    reason: Option<Reason>)

  /** A reason is shown exactly when the game is over, a winner only then, and moves are offered only for a selected square. */
  predicate Consistent(s: State) {
    && (s.gameOver <==> s.reason.Some?)
    && (s.winner.Some? ==> s.gameOver)
    && (s.selected.None? ==> s.available == [])
  }

  /** What every event keeps: messages are only appended, a finished game stays finished, consistency is kept. */
  predicate Follows(s: State, r: State) {
    && s.outbox <= r.outbox
    && (s.gameOver ==> r.gameOver)
    && (Consistent(s) ==> Consistent(r))
  }

  /** The state when the component mounts: the start position, full clocks, White to move, and the first `joinGame`. */
  function Initial(cfg: Config): (s: State)
    ensures s.game == cfg.rules.start
    ensures s.time.Of(White) == cfg.timeControl && s.time.Of(Black) == cfg.timeControl
    ensures s.isMyTurn <==> cfg.player == White
    ensures !s.gameOver && s.lastMove.None? && s.selected.None? && Consistent(s)
    ensures s.outbox == [JoinGame(cfg.gameId, cfg.player)]
  {
    State(cfg.rules.start, Clock(cfg.timeControl, cfg.timeControl), cfg.player == White, None,
          false, None, None, None, [], [JoinGame(cfg.gameId, cfg.player)])
  }

  // ---------------------------------------------------------------------------
  // Move strings on the wire
  // ---------------------------------------------------------------------------

  /** A move as read from a `moveMade` message. */
  datatype WireMove = WireMove(from: string, to: string, promotion: Option<string>)

  /** The `move` field sent to the server: origin, destination, then the reported promotion or nothing. */
  function EncodeMove(from: string, to: string, promotion: Option<string>): (m: string)
    ensures |m| == |from| + |to| + |promotion.GetOr("")|
    ensures m[..|from|] == from && m[|from|..|from| + |to|] == to && m[|from| + |to|..] == promotion.GetOr("")
  {
    from + to + promotion.GetOr("")
  }

  /** How `handleMoveMade` reads a move: missing or shorter than four characters is refused; the rest after four is the promotion. */
  function DecodeMove(move: Option<string>): (r: Option<WireMove>)
    ensures r.Some? <==> move.Some? && |move.value| >= 4
    ensures r.Some? ==> |r.value.from| == 2 && |r.value.to| == 2 && r.value.from + r.value.to == move.value[..4]
    ensures r.Some? ==> (r.value.promotion.Some? <==> |move.value| > 4)
    ensures r.Some? && r.value.promotion.Some? ==> move.value == move.value[..4] + r.value.promotion.value
  {
    if move.None? || |move.value| < 4 then None
    else
      var m := move.value;
      Some(WireMove(Substring(m, 0, 2), Substring(m, 2, 4), if |m| > 4 then Some(m[4..]) else None))
  }

  /** Decoding an encoded move gives it back, when the squares have two characters and a promotion is not empty. */
  lemma DecodeEncode(from: string, to: string, promotion: Option<string>)
    requires |from| == 2 && |to| == 2
    requires promotion.None? || promotion.value != ""
    ensures DecodeMove(Some(EncodeMove(from, to, promotion))) == Some(WireMove(from, to, promotion))
  {
    var m := EncodeMove(from, to, promotion);
    assert m[..2] == from && m[2..4] == to;
    if promotion.Some? {
      assert m[4..] == promotion.value;
    } else {
      assert m == from + to;
    }
  }

  /** Encoding a decoded move gives back the string. */
  lemma EncodeDecode(m: string)
    requires DecodeMove(Some(m)).Some?
    ensures var w := DecodeMove(Some(m)).value; EncodeMove(w.from, w.to, w.promotion) == m
  {
    var w := DecodeMove(Some(m)).value;
    assert m == m[..4] + m[4..];
    if |m| == 4 {
      assert m[..4] == m;
    }
  }

  // ---------------------------------------------------------------------------
  // Local moves: makeMove, handleSquareClick, handleDragStart, handleDrop
  // ---------------------------------------------------------------------------

  /** Local moves always ask for a queen on promotion. */
  function QueenRequest(from: string, to: string): MoveRequest {
    MoveRequest(from, to, Some("q"))
  }

  /** Input is taken only on our turn in a game that is not over. */
  predicate Accepting(s: State) {
    s.isMyTurn && !s.gameOver
  }

  /** `if (selectedSquare)`: a square is selected (the empty string counts as none). */
  predicate HasSelection(s: State) {
    s.selected.Some? && s.selected.value != ""
  }

  function ClearSelection(s: State): (r: State)
    ensures r.selected.None? && r.available == []
  {
    s.(selected := None, available := [])
  }

  /** The square holds a piece of our colour. */
  predicate OwnPiece(cfg: Config, s: State, square: string) {
    var p := cfg.rules.get(s.game, square);
    p.Some? && p.value.color == cfg.player
  }

  /**
   * The bookkeeping of an accepted local move: the new position and last move, no longer
   * our turn, the increment added to our clock, and a `move` message carrying both clocks.
   */
  function Commit(cfg: Config, s: State, from: string, to: string, a: Applied): (r: State)
    ensures r.game == a.position && r.lastMove == Some(LastMove(from, to)) && !r.isMyTurn
    ensures r.time.Of(cfg.player) == s.time.Of(cfg.player) + cfg.increment
    ensures r.time.Of(Opponent(cfg.player)) == s.time.Of(Opponent(cfg.player))
    ensures r.outbox == s.outbox + [MoveSent(cfg.gameId, EncodeMove(from, to, a.promotion), r.time.white, r.time.black)]
    ensures r == s.(game := r.game, lastMove := r.lastMove, isMyTurn := false, time := r.time, outbox := r.outbox)
  {
    var time := s.time.With(cfg.player, s.time.Of(cfg.player) + cfg.increment);
    s.(game := a.position, lastMove := Some(LastMove(from, to)), isMyTurn := false, time := time,
       outbox := s.outbox + [MoveSent(cfg.gameId, EncodeMove(from, to, a.promotion), time.white, time.black)])
  }

  /** `makeMove(from, to)`: refused off turn or by the engine, with nothing changed; otherwise committed. */
  function AfterMakeMove(cfg: Config, s: State, from: string, to: string): (r: (State, bool))
    ensures r.1 <==> s.isMyTurn && cfg.rules.move(s.game, QueenRequest(from, to)).Some?
    ensures !r.1 ==> r.0 == s
    ensures r.1 ==> r.0 == Commit(cfg, s, from, to, cfg.rules.move(s.game, QueenRequest(from, to)).value)
    ensures Follows(s, r.0)
  {
    if !s.isMyTurn then (s, false)
    else
      match cfg.rules.move(s.game, QueenRequest(from, to))
      case None => (s, false)
      case Some(a) => (Commit(cfg, s, from, to, a), true)
  }

  /** Selecting a square: our piece with at least one target is selected with its targets; anything else clears the selection. */
  function SelectPiece(cfg: Config, s: State, square: string): (r: State)
    ensures r == s.(selected := r.selected, available := r.available)
    ensures r.selected.Some? <==> OwnPiece(cfg, s, square) && |cfg.rules.targets(s.game, square)| > 0
    ensures r.selected.Some? ==> r.selected == Some(square) && r.available == cfg.rules.targets(s.game, square)
    ensures r.selected.None? ==> r.available == []
  {
    if OwnPiece(cfg, s, square) then
      var moves := cfg.rules.targets(s.game, square);
      if |moves| > 0 then s.(selected := Some(square), available := moves) else ClearSelection(s)
    else ClearSelection(s)
  }

  /** The click completes a move: a square is selected and the clicked square is another one among its targets. */
  predicate ClickTargets(s: State, square: string) {
    HasSelection(s) && square != s.selected.value && square in s.available
  }

  /**
   * `handleSquareClick(square)`: ignored off turn or after the game is over; clicking the
   * selected square deselects it; clicking one of its targets tries the move (a refused
   * move only clears the selection); otherwise the clicked square is selected if it holds
   * one of our pieces with somewhere to go.
   */
  function AfterSquareClick(cfg: Config, s: State, square: string): (r: State)
    ensures !Accepting(s) ==> r == s
    ensures Accepting(s) && HasSelection(s) && square == s.selected.value ==> r == ClearSelection(s)
    ensures r.outbox == s.outbox ==> r == s.(selected := r.selected, available := r.available)
    ensures Accepting(s) && r.outbox == s.outbox && r.selected.Some? ==>
      && r.selected == Some(square) && OwnPiece(cfg, s, square)
      && r.available == cfg.rules.targets(s.game, square) && |r.available| > 0
    ensures r.outbox != s.outbox ==>
      && Accepting(s) && ClickTargets(s, square)
      && cfg.rules.move(s.game, QueenRequest(s.selected.value, square)).Some?
      && r == ClearSelection(Commit(cfg, s, s.selected.value, square, cfg.rules.move(s.game, QueenRequest(s.selected.value, square)).value))
    ensures Accepting(s) && ClickTargets(s, square) && cfg.rules.move(s.game, QueenRequest(s.selected.value, square)).Some? ==>
      r.outbox != s.outbox
    ensures Accepting(s) && ClickTargets(s, square) && cfg.rules.move(s.game, QueenRequest(s.selected.value, square)).None? ==>
      r == ClearSelection(s)
    ensures Accepting(s) && !(HasSelection(s) && square == s.selected.value) && !ClickTargets(s, square) ==>
      r == SelectPiece(cfg, s, square)
    ensures Follows(s, r)
  {
    if !Accepting(s) then s
    else if HasSelection(s) && square == s.selected.value then ClearSelection(s)
    else if ClickTargets(s, square) then
      match cfg.rules.move(s.game, QueenRequest(s.selected.value, square))
      case None => ClearSelection(s)
      case Some(a) => ClearSelection(Commit(cfg, s, s.selected.value, square, a))
    else SelectPiece(cfg, s, square)
  }

  /** `handleDragStart(square)`: on our turn, picking up our own piece selects it with its targets, however few. */
  function AfterDragStart(cfg: Config, s: State, square: string): (r: State)
    ensures r == s.(selected := r.selected, available := r.available)
    ensures Accepting(s) && OwnPiece(cfg, s, square) ==>
      r.selected == Some(square) && r.available == cfg.rules.targets(s.game, square)
    ensures !(Accepting(s) && OwnPiece(cfg, s, square)) ==> r == s
    ensures Follows(s, r)
  {
    if Accepting(s) && OwnPiece(cfg, s, square) then
      s.(selected := Some(square), available := cfg.rules.targets(s.game, square))
    else s
  }

  /**
   * The `gameOver` report `handleDrop` sends after a move that ends the game: checkmate
   * names the side not to move, a draw or stalemate gives "draw" and "stalemate", and
   * any other end gives "draw" with no reason.
   */
  function DropReport(rules: Rules, pos: string): (r: (Winner, Option<Reason>))
    ensures rules.isCheckmate(pos) ==> r == (Won(Opponent(rules.turn(pos))), Some(Checkmate))
    ensures !rules.isCheckmate(pos) && (rules.isDraw(pos) || rules.isStalemate(pos)) ==> r == (Draw, Some(Stalemate))
    ensures !rules.isCheckmate(pos) && !rules.isDraw(pos) && !rules.isStalemate(pos) ==> r == (Draw, None)
  {
    if rules.isCheckmate(pos) then (Won(if rules.turn(pos) == White then Black else White), Some(Checkmate))
    else if rules.isDraw(pos) || rules.isStalemate(pos) then (Draw, Some(Stalemate))
    else (Draw, None)
  }

  /** The messages `handleDrop` adds after a committed move: a report when the new position is over. */
  function DropNotes(cfg: Config, pos: string): (e: seq<Emit>)
    ensures |e| <= 1
    ensures e != [] <==> cfg.rules.isGameOver(pos)
  {
    if cfg.rules.isGameOver(pos) then
      var report := DropReport(cfg.rules, pos);
      [GameOverReported(cfg.gameId, report.0, report.1)]
    else []
  }

  /**
   * `handleDrop(source, target)`: ignored off turn, after the game is over, or when the
   * target is not offered; a move the engine refuses changes nothing; an accepted one is
   * committed, the selection cleared, and a `gameOver` report follows if the new position
   * is over. The local game-over flags are left to the terminal check.
   */
  function AfterDrop(cfg: Config, s: State, source: string, target: string): (r: State)
    ensures !Accepting(s) || target !in s.available ==> r == s
    ensures r.outbox == s.outbox ==> r == s
    ensures r.outbox != s.outbox ==>
      && Accepting(s) && target in s.available
      && cfg.rules.move(s.game, QueenRequest(source, target)).Some?
      && var t := ClearSelection(Commit(cfg, s, source, target, cfg.rules.move(s.game, QueenRequest(source, target)).value));
         r == t.(outbox := t.outbox + DropNotes(cfg, t.game))
    ensures Accepting(s) && target in s.available && cfg.rules.move(s.game, QueenRequest(source, target)).Some? ==>
      r.outbox != s.outbox
    ensures r.gameOver == s.gameOver && r.reason == s.reason && r.winner == s.winner
    ensures Follows(s, r)
  {
    if !Accepting(s) || target !in s.available then s
    else
      match cfg.rules.move(s.game, QueenRequest(source, target))
      case None => s
      case Some(a) =>
        var t := ClearSelection(Commit(cfg, s, source, target, a));
        t.(outbox := t.outbox + DropNotes(cfg, t.game))
  }

  // ---------------------------------------------------------------------------
  // Remote events: moveMade, gameState, gameEnded, connect and reconnect
  // ---------------------------------------------------------------------------

  /** The incoming move repeats our last move. */
  predicate IsEcho(s: State, w: WireMove) {
    s.lastMove.Some? && s.lastMove.value.from == w.from && s.lastMove.value.to == w.to
  }

  /** The clocks of a `moveMade` message, with a missing side falling back to our own value. */
  function ServerClock(s: State, white: Option<int>, black: Option<int>): (c: Clock)
    ensures c.white == (if white.Some? then white.value else s.time.white)
    ensures c.black == (if black.Some? then black.value else s.time.black)
  {
    Clock(white.GetOr(s.time.white), black.GetOr(s.time.black))
  }

  /**
   * A remote move that is not our echo, tried on a copy of the position: a move the
   * engine refuses changes nothing; an accepted one replaces the position and the last
   * move, makes it our turn exactly when the side to move is ours, adopts the given
   * clocks and clears the selection.
   */
  function AcceptRemote(cfg: Config, s: State, w: WireMove, clocks: Clock): (r: State)
    ensures cfg.rules.move(s.game, MoveRequest(w.from, w.to, w.promotion)).None? ==> r == s
    ensures cfg.rules.move(s.game, MoveRequest(w.from, w.to, w.promotion)).Some? ==>
      var a := cfg.rules.move(s.game, MoveRequest(w.from, w.to, w.promotion)).value;
      && r.game == a.position && r.lastMove == Some(LastMove(w.from, w.to))
      && (r.isMyTurn <==> cfg.rules.turn(a.position) == cfg.player)
      && r.time == clocks && r.selected.None? && r.available == []
      && r == s.(game := r.game, lastMove := r.lastMove, isMyTurn := r.isMyTurn, time := clocks, selected := None, available := [])
    ensures Follows(s, r)
  {
    match cfg.rules.move(s.game, MoveRequest(w.from, w.to, w.promotion))
    case None => s
    case Some(a) =>
      var isWhiteTurn := cfg.rules.turn(a.position) == White;
      var mine := (isWhiteTurn && cfg.player == White) || (!isWhiteTurn && cfg.player == Black);
      ClearSelection(s.(game := a.position, lastMove := Some(LastMove(w.from, w.to)), isMyTurn := mine, time := clocks))
  }

  /**
   * `handleMoveMade`: a malformed move changes nothing; the echo of our own last move only
   * adopts the server's clocks; another move is tried as `AcceptRemote` says. Nothing is
   * sent, and the game-over flags are left alone.
   */
  function AfterMoveMade(cfg: Config, s: State, move: Option<string>, white: Option<int>, black: Option<int>): (r: State)
    ensures r.outbox == s.outbox && r.gameOver == s.gameOver && r.reason == s.reason && r.winner == s.winner
    ensures DecodeMove(move).None? ==> r == s
    ensures DecodeMove(move).Some? && IsEcho(s, DecodeMove(move).value) ==> r == s.(time := ServerClock(s, white, black))
    ensures DecodeMove(move).Some? && !IsEcho(s, DecodeMove(move).value) ==>
      r == AcceptRemote(cfg, s, DecodeMove(move).value, ServerClock(s, white, black))
    ensures Follows(s, r)
  {
    match DecodeMove(move)
    case None => s
    case Some(w) =>
      var clocks := ServerClock(s, white, black);
      if IsEcho(s, w) then s.(time := clocks) else AcceptRemote(cfg, s, w, clocks)
  }

  /** `updateGameState(fen)`: a fresh engine loads the position; it is our turn when the side to move is ours. */
  function AfterUpdateGameState(cfg: Config, s: State, fen: string): (r: State)
    ensures r.game == cfg.rules.load(fen)
    ensures r.isMyTurn <==> cfg.rules.turn(r.game) == cfg.player
    ensures r == s.(game := r.game, isMyTurn := r.isMyTurn)
    ensures Follows(s, r)
  {
    var game := cfg.rules.load(fen);
    s.(game := game, isMyTurn := cfg.rules.turn(game) == cfg.player)
  }

  /**
   * The `gameState` handler: the position is replaced only when a FEN is given, the
   * clocks only when both are given, and the game is marked over only when the status is
   * "completed" and a winner is named, the reason defaulting to checkmate.
   */
  function AfterGameState(cfg: Config, s: State, d: GameStateData): (r: State)
    ensures d.fen.Some? && d.fen.value != "" ==>
      r.game == cfg.rules.load(d.fen.value) && (r.isMyTurn <==> cfg.rules.turn(r.game) == cfg.player)
    ensures !(d.fen.Some? && d.fen.value != "") ==> r.game == s.game && r.isMyTurn == s.isMyTurn
    ensures d.whiteTimeLeft.Some? && d.blackTimeLeft.Some? ==> r.time == Clock(d.whiteTimeLeft.value, d.blackTimeLeft.value)
    ensures !(d.whiteTimeLeft.Some? && d.blackTimeLeft.Some?) ==> r.time == s.time
    ensures d.status == Some("completed") && d.winner.Some? ==>
      r.gameOver && r.winner == d.winner && r.reason == Some(d.reason.GetOr(Checkmate))
    ensures !(d.status == Some("completed") && d.winner.Some?) ==>
      r.gameOver == s.gameOver && r.winner == s.winner && r.reason == s.reason
    ensures r.lastMove == s.lastMove && r.selected == s.selected && r.available == s.available && r.outbox == s.outbox
    ensures Follows(s, r)
  {
    var s1 := if d.fen.Some? && d.fen.value != "" then AfterUpdateGameState(cfg, s, d.fen.value) else s;
    var s2 := if d.whiteTimeLeft.Some? && d.blackTimeLeft.Some? then s1.(time := Clock(d.whiteTimeLeft.value, d.blackTimeLeft.value)) else s1;
    if d.status == Some("completed") && d.winner.Some? then
      s2.(gameOver := true, winner := d.winner, reason := Some(d.reason.GetOr(Checkmate)))
    else s2
  }

  /** The `gameEnded` handler: the game is over with the announced winner (possibly none) and reason, checkmate by default. */
  function AfterGameEnded(s: State, winner: Option<Winner>, reason: Option<Reason>): (r: State)
    ensures r.gameOver && r.winner == winner && r.reason == Some(reason.GetOr(Checkmate))
    ensures r == s.(gameOver := true, winner := winner, reason := r.reason)
    ensures Follows(s, r)
  {
    s.(gameOver := true, winner := winner, reason := Some(reason.GetOr(Checkmate)))
  }

  /** On `connect` the session joins the game room again. */
  function AfterConnect(cfg: Config, s: State): (r: State)
    ensures r == s.(outbox := s.outbox + [JoinGame(cfg.gameId, cfg.player)])
    ensures Follows(s, r)
  {
    s.(outbox := s.outbox + [JoinGame(cfg.gameId, cfg.player)])
  }

  /** On `reconnect` it joins again and asks for the game state. */
  function AfterReconnect(cfg: Config, s: State): (r: State)
    ensures r == s.(outbox := s.outbox + [JoinGame(cfg.gameId, cfg.player), RequestGameState(cfg.gameId)])
    ensures Follows(s, r)
  {
    s.(outbox := s.outbox + [JoinGame(cfg.gameId, cfg.player), RequestGameState(cfg.gameId)])
  }

  // ---------------------------------------------------------------------------
  // The clock and the end of the game
  // ---------------------------------------------------------------------------

  /** The countdown runs while neither the engine nor the session says the game is over. */
  predicate ClockRunning(cfg: Config, s: State) {
    !cfg.rules.isGameOver(s.game) && !s.gameOver
  }

  /** The side whose clock runs: the side to move. */
  function Active(cfg: Config, s: State): Color {
    cfg.rules.turn(s.game)
  }

  /**
   * One second of the countdown: nothing while the clock is stopped; the side to move
   * loses a second while it has more than one; at one second or less the clocks stay,
   * the game is over on time, the other side wins and a `gameOver` message is sent.
   */
  function AfterTick(cfg: Config, s: State): (r: State)
    ensures !ClockRunning(cfg, s) ==> r == s
    ensures ClockRunning(cfg, s) && s.time.Of(Active(cfg, s)) > 1 ==>
      && r.time.Of(Active(cfg, s)) == s.time.Of(Active(cfg, s)) - 1
      && r.time.Of(Opponent(Active(cfg, s))) == s.time.Of(Opponent(Active(cfg, s)))
      && r == s.(time := r.time)
    ensures ClockRunning(cfg, s) && s.time.Of(Active(cfg, s)) <= 1 ==>
      r == s.(gameOver := true, reason := Some(Time), winner := Some(Won(Opponent(Active(cfg, s)))),
              outbox := s.outbox + [GameOverSent(cfg.gameId, Won(Opponent(Active(cfg, s))))])
    ensures Follows(s, r)
  {
    if !ClockRunning(cfg, s) then s
    else
      var active := Active(cfg, s);
      if s.time.Of(active) <= 1 then
        var winner := Won(if active == White then Black else White);
        s.(gameOver := true, reason := Some(Time), winner := Some(winner),
           outbox := s.outbox + [GameOverSent(cfg.gameId, winner)])
      else s.(time := s.time.With(active, s.time.Of(active) - 1))
  }

  /**
   * The check made whenever the position changes: checkmate ends the game with the side
   * not to move as winner, a draw or stalemate ends it as a draw "by stalemate", and each
   * sends a `gameOver` message naming that winner. Otherwise nothing changes.
   */
  function AfterTerminalCheck(cfg: Config, s: State): (r: State)
    ensures cfg.rules.isCheckmate(s.game) ==>
      r == s.(gameOver := true, reason := Some(Checkmate), winner := Some(Won(Opponent(cfg.rules.turn(s.game)))),
              outbox := s.outbox + [GameOverSent(cfg.gameId, Won(Opponent(cfg.rules.turn(s.game))))])
    ensures !cfg.rules.isCheckmate(s.game) && (cfg.rules.isDraw(s.game) || cfg.rules.isStalemate(s.game)) ==>
      r == s.(gameOver := true, reason := Some(Stalemate), winner := Some(Draw),
              outbox := s.outbox + [GameOverSent(cfg.gameId, Draw)])
    ensures !cfg.rules.isCheckmate(s.game) && !cfg.rules.isDraw(s.game) && !cfg.rules.isStalemate(s.game) ==> r == s
    ensures Follows(s, r)
  {
    if cfg.rules.isCheckmate(s.game) then
      var winner := Won(if cfg.rules.turn(s.game) == White then Black else White);
      s.(gameOver := true, reason := Some(Checkmate), winner := Some(winner),
         outbox := s.outbox + [GameOverSent(cfg.gameId, winner)])
    else if cfg.rules.isDraw(s.game) || cfg.rules.isStalemate(s.game) then
      s.(gameOver := true, reason := Some(Stalemate), winner := Some(Draw),
         outbox := s.outbox + [GameOverSent(cfg.gameId, Draw)])
    else s
  }

  /** The report a drop sends names the same winner and reason the terminal check records for that position. */
  lemma DropReportAgrees(cfg: Config, s: State)
    requires cfg.rules.isCheckmate(s.game) || cfg.rules.isDraw(s.game) || cfg.rules.isStalemate(s.game)
    ensures var t := AfterTerminalCheck(cfg, s);
      t.winner == Some(DropReport(cfg.rules, s.game).0) && t.reason == DropReport(cfg.rules, s.game).1
  {
  }

  /** `n` seconds of the countdown. */
  function Ticks(cfg: Config, s: State, n: nat): State
    decreases n
  {
    if n == 0 then s else Ticks(cfg, AfterTick(cfg, s), n - 1)
  }

  /** Once stopped, the countdown changes nothing. */
  lemma {:induction false} TicksStopped(cfg: Config, s: State, n: nat)
    requires !ClockRunning(cfg, s)
    ensures Ticks(cfg, s, n) == s
    decreases n
  {
    if n > 0 {
      TicksStopped(cfg, AfterTick(cfg, s), n - 1);
    }
  }

  /** Fewer seconds than the side to move has left just count down its clock. */
  lemma {:induction false} TicksCountDown(cfg: Config, s: State, n: nat)
    requires ClockRunning(cfg, s) && n < s.time.Of(Active(cfg, s))
    ensures Ticks(cfg, s, n) == s.(time := s.time.With(Active(cfg, s), s.time.Of(Active(cfg, s)) - n))
    decreases n
  {
    var a := Active(cfg, s);
    if n == 0 {
      assert s.time.With(a, s.time.Of(a)) == s.time;
    } else {
      var s1 := AfterTick(cfg, s);
      assert s1 == s.(time := s.time.With(a, s.time.Of(a) - 1));
      assert Active(cfg, s1) == a && ClockRunning(cfg, s1);
      TicksCountDown(cfg, s1, n - 1);
      assert s1.time.With(a, s1.time.Of(a) - (n - 1)) == s.time.With(a, s.time.Of(a) - n);
    }
  }

  /**
   * Given at least as many seconds as the side to move has left (one or more), the
   * countdown ends the game on time: that clock stops at one, the other side wins and
   * exactly one `gameOver` message is sent.
   */
  lemma {:induction false} TicksTimeOut(cfg: Config, s: State, n: nat)
    requires ClockRunning(cfg, s) && 1 <= s.time.Of(Active(cfg, s)) <= n
    ensures var a := Active(cfg, s);
      Ticks(cfg, s, n) == s.(time := s.time.With(a, 1), gameOver := true, reason := Some(Time),
                             winner := Some(Won(Opponent(a))),
                             outbox := s.outbox + [GameOverSent(cfg.gameId, Won(Opponent(a)))])
    decreases n
  {
    var a := Active(cfg, s);
    var s1 := AfterTick(cfg, s);
    if s.time.Of(a) == 1 {
      assert s.time.With(a, 1) == s.time;
      assert !ClockRunning(cfg, s1);
      TicksStopped(cfg, s1, n - 1);
    } else {
      assert s1 == s.(time := s.time.With(a, s.time.Of(a) - 1));
      assert Active(cfg, s1) == a && ClockRunning(cfg, s1);
      TicksTimeOut(cfg, s1, n - 1);
      assert s1.time.With(a, 1) == s.time.With(a, 1);
    }
  }

  // ---------------------------------------------------------------------------
  // Properties across handlers
  // ---------------------------------------------------------------------------

  /**
   * The server echoes our own move back: the echo of the string a committed move sent
   * is recognised by its squares and only its clocks are adopted.
   */
  lemma EchoOfOwnMove(cfg: Config, s: State, from: string, to: string, a: Applied, white: Option<int>, black: Option<int>)
    requires |from| == 2 && |to| == 2
    ensures var t := Commit(cfg, s, from, to, a);
      AfterMoveMade(cfg, t, Some(EncodeMove(from, to, a.promotion)), white, black) == t.(time := ServerClock(t, white, black))
  {
    var m := EncodeMove(from, to, a.promotion);
    assert m[..4] == from + to;
    var w := DecodeMove(Some(m)).value;
    assert w.from + w.to == from + to;
    assert w.from == (w.from + w.to)[..2] && from == (from + to)[..2];
    assert w.to == (w.from + w.to)[2..] && to == (from + to)[2..];
  }

  /** The `move` message of a successful `makeMove` comes back as an echo that changes nothing but the clocks. */
  lemma MakeMoveEchoIgnored(cfg: Config, s: State, from: string, to: string, white: Option<int>, black: Option<int>)
    requires |from| == 2 && |to| == 2
    requires AfterMakeMove(cfg, s, from, to).1
    ensures var t := AfterMakeMove(cfg, s, from, to).0;
      && t.outbox[|t.outbox| - 1].MoveSent?
      && AfterMoveMade(cfg, t, Some(t.outbox[|t.outbox| - 1].move), white, black) == t.(time := ServerClock(t, white, black))
  {
    var a := cfg.rules.move(s.game, QueenRequest(from, to)).value;
    EchoOfOwnMove(cfg, s, from, to, a, white, black);
  }

  /** A local move sends exactly the clocks it leaves: the mover's increased by the increment, the other unchanged. */
  lemma MoveCarriesClocks(cfg: Config, s: State, square: string)
    requires AfterSquareClick(cfg, s, square).outbox != s.outbox
    ensures var r := AfterSquareClick(cfg, s, square);
      && r.outbox == s.outbox + [MoveSent(cfg.gameId, EncodeMove(s.selected.value, square, cfg.rules.move(s.game, QueenRequest(s.selected.value, square)).value.promotion), r.time.white, r.time.black)]
      && r.time.Of(cfg.player) == s.time.Of(cfg.player) + cfg.increment
      && r.time.Of(Opponent(cfg.player)) == s.time.Of(Opponent(cfg.player))
      && !r.isMyTurn && r.lastMove == Some(LastMove(s.selected.value, square))
  {
  }

  /** The events the session reacts to. */
  datatype Event =
    | LocalMove(from: string, to: string)
    | SquareClick(square: string)
    | DragStart(square: string)
    | Drop(source: string, target: string)
    | MoveMade(move: Option<string>, white: Option<int>, black: Option<int>)
    | GameState(data: GameStateData)
    | GameEnded(winner: Option<Winner>, reason: Option<Reason>)
    | Tick
    | TerminalCheck
    | Connect
    | Reconnect

  function Step(cfg: Config, s: State, e: Event): (r: State)
    ensures Follows(s, r)
  {
    match e
    case LocalMove(from, to) => AfterMakeMove(cfg, s, from, to).0
    case SquareClick(square) => AfterSquareClick(cfg, s, square)
    case DragStart(square) => AfterDragStart(cfg, s, square)
    case Drop(source, target) => AfterDrop(cfg, s, source, target)
    case MoveMade(move, white, black) => AfterMoveMade(cfg, s, move, white, black)
    case GameState(d) => AfterGameState(cfg, s, d)
    case GameEnded(winner, reason) => AfterGameEnded(s, winner, reason)
    case Tick => AfterTick(cfg, s)
    case TerminalCheck => AfterTerminalCheck(cfg, s)
    case Connect => AfterConnect(cfg, s)
    case Reconnect => AfterReconnect(cfg, s)
  }

  /** The session after a sequence of events. */
  function Run(cfg: Config, s: State, es: seq<Event>): State
    decreases |es|
  {
    if es == [] then s else Run(cfg, Step(cfg, s, es[0]), es[1..])
  }

  /** Over any sequence of events, messages are only appended, a finished game stays finished and consistency is kept. */
  lemma {:induction false} RunFollows(cfg: Config, s: State, es: seq<Event>)
    ensures Follows(s, Run(cfg, s, es))
    decreases |es|
  {
    if es != [] {
      var s1 := Step(cfg, s, es[0]);
      RunFollows(cfg, s1, es[1..]);
      var r := Run(cfg, s1, es[1..]);
      assert s.outbox <= s1.outbox && s1.outbox <= r.outbox;
    }
  }

  /** Every state the session reaches from mount is consistent and starts with the first `joinGame`. */
  lemma ReachableConsistent(cfg: Config, es: seq<Event>)
    ensures Consistent(Run(cfg, Initial(cfg), es))
    ensures |Run(cfg, Initial(cfg), es).outbox| > 0 && Run(cfg, Initial(cfg), es).outbox[0] == JoinGame(cfg.gameId, cfg.player)
  {
    RunFollows(cfg, Initial(cfg), es);
  }

  // ---------------------------------------------------------------------------
  // The fallback engine behind the same interface
  // ---------------------------------------------------------------------------

  /** The fields `new SimpleChess(fen)` holds: the position read from `fen`, or the start position for an empty string. */
  function FallbackPosition(fen: string): FenFields {
    LoadFields(if fen != "" then fen else StartFen)
  }

  /** What a move made with `SimpleChess` gives back to the board. */
  function FallbackMove(pos: string, req: MoveRequest): (r: Option<Applied>)
    ensures r.Some? <==> ApplyMove(FallbackPosition(pos), req).Some?
    ensures r.Some? ==> r.value.promotion == req.promotion
  {
    match ApplyMove(FallbackPosition(pos), req)
    case None => None
    case Some(m) => Some(Applied(FenOf(m.after), m.record.promotion))
  }

  /**
   * The board's engine when chess.js is not available: `SimpleChess`, whose move list is
   * always empty and whose check, mate, draw and game-over flags are never raised. A new
   * `SimpleChess` writes the standard start position (its constructor's contract).
   */
  function FallbackRules(): Rules {
    Rules(StartFen, FallbackLoad, FallbackMove, FallbackTurn, FallbackGet, NoTargets, Never, Never, Never, Never)
  }

  /** `load(fen)` on a fresh `SimpleChess`, then `fen()`. */
  function FallbackLoad(fen: string): string {
    FenOf(LoadFields(fen))
  }

  function FallbackTurn(pos: string): Color {
    FallbackPosition(pos).turn
  }

  function FallbackGet(pos: string, sq: string): Option<Piece> {
    Lookup(FallbackPosition(pos).board, sq)
  }

  /** `moves()` of `SimpleChess`: always empty. */
  function NoTargets(pos: string, sq: string): seq<string> {
    []
  }

  /** The check, mate, draw and game-over flags of `SimpleChess`: never raised. */
  function Never(pos: string): bool {
    false
  }

  /** The engine never offers a target square and never reports the end of a game. */
  ghost predicate Inert(rules: Rules) {
    && (forall pos, sq :: rules.targets(pos, sq) == [])
    && (forall pos :: !rules.isCheckmate(pos) && !rules.isDraw(pos) && !rules.isStalemate(pos) && !rules.isGameOver(pos))
  }

  /** The fallback engine is inert. */
  lemma FallbackInert()
    ensures Inert(FallbackRules())
  {
  }

  /**
   * Under an inert engine, a state offering no targets keeps offering none, no click,
   * drag or drop moves a piece or sends anything, the terminal check does nothing, and
   * the clock runs until the session itself is told the game is over.
   */
  lemma InertLocalInput(cfg: Config, s: State, e: Event)
    requires Inert(cfg.rules) && s.available == []
    ensures Step(cfg, s, e).available == []
    ensures e.SquareClick? || e.DragStart? || e.Drop? || e.TerminalCheck? ==>
      Step(cfg, s, e).game == s.game && Step(cfg, s, e).outbox == s.outbox
    ensures ClockRunning(cfg, s) <==> !s.gameOver
  {
    assert !cfg.rules.isGameOver(s.game);
    match e
    case SquareClick(square) =>
      assert !ClickTargets(s, square);
      assert cfg.rules.targets(s.game, square) == [];
    case DragStart(square) =>
      assert cfg.rules.targets(s.game, square) == [];
    case TerminalCheck =>
      assert !cfg.rules.isCheckmate(s.game) && !cfg.rules.isDraw(s.game) && !cfg.rules.isStalemate(s.game);
    case _ =>
  }

  /** Under an inert engine (the fallback one), no state reached from mount offers a target square. */
  lemma {:induction false} InertNeverOffers(cfg: Config, s: State, es: seq<Event>)
    requires Inert(cfg.rules) && s.available == []
    ensures Run(cfg, s, es).available == []
    decreases |es|
  {
    if es != [] {
      InertLocalInput(cfg, s, es[0]);
      InertNeverOffers(cfg, Step(cfg, s, es[0]), es[1..]);
    }
  }

  // ---------------------------------------------------------------------------
  // The component's state, updated in place
  // ---------------------------------------------------------------------------

  /** The state of one mounted `ChessBoard`; each method is one event handler. */
  class Session {
    const cfg: Config
    var game: string
    var time: Clock
    var isMyTurn: bool
    var lastMove: Option<LastMove>
    var gameOver: bool
    var gameOverReason: Option<Reason>
    var winner: Option<Winner>
    var selectedSquare: Option<string>
    var availableMoves: seq<string>
    var outbox: seq<Emit>

    function Snapshot(): State
      reads this
    {
      State(game, time, isMyTurn, lastMove, gameOver, gameOverReason, winner, selectedSquare, availableMoves, outbox)
    }

    /** Mounting: the initial state, then `joinGame`. */
    constructor(cfg: Config)
      ensures this.cfg == cfg && Snapshot() == Initial(cfg)
    {
      this.cfg := cfg;
      game := cfg.rules.start;
      time := Clock(cfg.timeControl, cfg.timeControl);
      isMyTurn := cfg.player == White;
      lastMove := None;
      gameOver := false;
      gameOverReason := None;
      winner := None;
      selectedSquare := None;
      availableMoves := [];
      outbox := [JoinGame(cfg.gameId, cfg.player)];
    }

    method Deselect()
      modifies this
      ensures Snapshot() == ClearSelection(old(Snapshot()))
    {
      selectedSquare := None;
      availableMoves := [];
    }

    /** The state updates and the `move` message shared by the three local move paths. */
    method CommitMove(from: string, to: string, a: Applied)
      modifies this
      ensures Snapshot() == Commit(cfg, old(Snapshot()), from, to, a)
    {
      var updated := time.With(cfg.player, time.Of(cfg.player) + cfg.increment);
      var moveString := EncodeMove(from, to, a.promotion);
      game := a.position;
      lastMove := Some(LastMove(from, to));
      isMyTurn := false;
      time := updated;
      outbox := outbox + [MoveSent(cfg.gameId, moveString, updated.white, updated.black)];
    }

    method MakeMove(from: string, to: string) returns (ok: bool)
      modifies this
      ensures (Snapshot(), ok) == AfterMakeMove(cfg, old(Snapshot()), from, to)
    {
      if !isMyTurn {
        return false;
      }
      var result := cfg.rules.move(game, QueenRequest(from, to));
      if result.None? {
        return false;
      }
      CommitMove(from, to, result.value);
      return true;
    }

    method HandleSquareClick(square: string)
      modifies this
      ensures Snapshot() == AfterSquareClick(cfg, old(Snapshot()), square)
    {
      if !isMyTurn || gameOver {
        return;
      }
      var piece := cfg.rules.get(game, square);
      if selectedSquare.Some? && selectedSquare.value != "" {
        var from := selectedSquare.value;
        if square == from {
          Deselect();
          return;
        }
        if square in availableMoves {
          var result := cfg.rules.move(game, QueenRequest(from, square));
          if result.None? {
            Deselect();
            return;
          }
          CommitMove(from, square, result.value);
          Deselect();
          return;
        }
      }
      if piece.Some? && piece.value.color == cfg.player {
        var moves := cfg.rules.targets(game, square);
        if |moves| > 0 {
          selectedSquare := Some(square);
          availableMoves := moves;
        } else {
          Deselect();
        }
      } else {
        Deselect();
      }
    }

    method HandleDragStart(square: string)
      modifies this
      ensures Snapshot() == AfterDragStart(cfg, old(Snapshot()), square)
    {
      if !isMyTurn || gameOver {
        return;
      }
      var piece := cfg.rules.get(game, square);
      if piece.None? || piece.value.color != cfg.player {
        return;
      }
      selectedSquare := Some(square);
      availableMoves := cfg.rules.targets(game, square);
    }

    method HandleDrop(source: string, target: string)
      modifies this
      ensures Snapshot() == AfterDrop(cfg, old(Snapshot()), source, target)
    {
      if !isMyTurn || gameOver {
        return;
      }
      if target in availableMoves {
        var result := cfg.rules.move(game, QueenRequest(source, target));
        if result.None? {
          return;
        }
        CommitMove(source, target, result.value);
        Deselect();
        outbox := outbox + DropNotes(cfg, game);
      }
    }

    method HandleMoveMade(move: Option<string>, white: Option<int>, black: Option<int>)
      modifies this
      ensures Snapshot() == AfterMoveMade(cfg, old(Snapshot()), move, white, black)
    {
      var whiteTimeLeft := if white.Some? then white.value else time.white;
      var blackTimeLeft := if black.Some? then black.value else time.black;
      if move.None? || |move.value| < 4 {
        return;
      }
      var m := move.value;
      var from := Substring(m, 0, 2);
      var to := Substring(m, 2, 4);
      var promotion := if |m| > 4 then Some(m[4..]) else None;
      ghost var s0 := Snapshot();
      assert DecodeMove(move) == Some(WireMove(from, to, promotion));
      assert ServerClock(s0, white, black) == Clock(whiteTimeLeft, blackTimeLeft);
      if lastMove.Some? && lastMove.value.from == from && lastMove.value.to == to {
        time := Clock(whiteTimeLeft, blackTimeLeft);
        return;
      }
      ApplyRemote(WireMove(from, to, promotion), Clock(whiteTimeLeft, blackTimeLeft));
    }

    method ApplyRemote(w: WireMove, clocks: Clock)
      modifies this
      ensures Snapshot() == AcceptRemote(cfg, old(Snapshot()), w, clocks)
    {
      var newGame := cfg.rules.move(game, MoveRequest(w.from, w.to, w.promotion));
      if newGame.Some? {
        game := newGame.value.position;
        lastMove := Some(LastMove(w.from, w.to));
        var isWhiteTurn := cfg.rules.turn(game) == White;
        isMyTurn := (isWhiteTurn && cfg.player == White) || (!isWhiteTurn && cfg.player == Black);
        time := clocks;
        Deselect();
      }
    }

    method UpdateGameState(fen: string)
      modifies this
      ensures Snapshot() == AfterUpdateGameState(cfg, old(Snapshot()), fen)
    {
      game := cfg.rules.load(fen);
      isMyTurn := cfg.rules.turn(game) == cfg.player;
    }

    method OnGameState(d: GameStateData)
      modifies this
      ensures Snapshot() == AfterGameState(cfg, old(Snapshot()), d)
    {
      if d.fen.Some? && d.fen.value != "" {
        UpdateGameState(d.fen.value);
      }
      if d.whiteTimeLeft.Some? && d.blackTimeLeft.Some? {
        time := Clock(d.whiteTimeLeft.value, d.blackTimeLeft.value);
      }
      if d.status == Some("completed") && d.winner.Some? {
        gameOver := true;
        winner := d.winner;
        gameOverReason := Some(d.reason.GetOr(Checkmate));
      }
    }

    method OnGameEnded(announced: Option<Winner>, reason: Option<Reason>)
      modifies this
      ensures Snapshot() == AfterGameEnded(old(Snapshot()), announced, reason)
    {
      gameOver := true;
      winner := announced;
      gameOverReason := Some(reason.GetOr(Checkmate));
    }

    method OnConnect()
      modifies this
      ensures Snapshot() == AfterConnect(cfg, old(Snapshot()))
    {
      outbox := outbox + [JoinGame(cfg.gameId, cfg.player)];
    }

    method OnReconnect()
      modifies this
      ensures Snapshot() == AfterReconnect(cfg, old(Snapshot()))
    {
      outbox := outbox + [JoinGame(cfg.gameId, cfg.player)];
      outbox := outbox + [RequestGameState(cfg.gameId)];
    }

    /** One firing of the one-second interval (none is running once the game is over). */
    method Tick()
      modifies this
      ensures Snapshot() == AfterTick(cfg, old(Snapshot()))
    {
      if cfg.rules.isGameOver(game) || gameOver {
        return;
      }
      var activeColor := cfg.rules.turn(game);
      if time.Of(activeColor) <= 1 {
        var w := Won(if activeColor == White then Black else White);
        gameOver := true;
        gameOverReason := Some(Time);
        winner := Some(w);
        outbox := outbox + [GameOverSent(cfg.gameId, w)];
        return;
      }
      time := time.With(activeColor, time.Of(activeColor) - 1);
    }

    /** The check run whenever the position changes. */
    method CheckGameOver()
      modifies this
      ensures Snapshot() == AfterTerminalCheck(cfg, old(Snapshot()))
    {
      if cfg.rules.isCheckmate(game) {
        var checkmatedColor := if cfg.rules.turn(game) == White then Black else White;
        gameOver := true;
        gameOverReason := Some(Checkmate);
        winner := Some(Won(checkmatedColor));
        outbox := outbox + [GameOverSent(cfg.gameId, Won(checkmatedColor))];
      } else if cfg.rules.isDraw(game) || cfg.rules.isStalemate(game) {
        gameOver := true;
        gameOverReason := Some(Stalemate);
        winner := Some(Draw);
        outbox := outbox + [GameOverSent(cfg.gameId, Draw)];
      }
    }
  }
}
