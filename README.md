# Chess site: the client game session, the fallback engine and the setup form

This project models the client side of a two-player online chess site.

- `ChessBoard` is the React component that plays one game. Its handlers change the
  session state: the position, both clocks, whose turn it is, the last move, the
  game-over flags and the square selection. They also send socket messages.
- `SimpleChess` is the small engine the board falls back to when chess.js is not
  available. It keeps a board map and the side fields of FEN (Forsyth–Edwards Notation,
  section 16.1 of the PGN Standard).
- The home page turns the typed time control and increment into the values it submits.

Layout, one module per file:

- `wrappers.dfy` (`Wrappers`): `Option`.
- `decimal.dfy` (`Decimal`): the two number conversions the code relies on.
  - `toString` of an integer-valued number.
  - A decimal `parseInt`: an optional sign, then the longest run of digits. `None` stands for NaN.
- `fen.dfy` (`Fen`): the specification functions of `SimpleChess`.
  - The placement scan of `load` and the rank/file writer of `fen`.
  - `FenFields`, `LoadFields` and `FenOf`.
  - The round-trip proofs: reading a canonical FEN and writing it back gives the same text.
- `chess_engine.dfy` (`ChessEngine`): class `SimpleChess`.
  - It has the source's fields.
  - Its `load`/`fen` loops are proved against `Fen`.
  - `move` and `put` are specified by `ApplyMove` and `PutPiece`.
- `chess_board.dfy` (`ChessBoard`): the game session.
  - The rules engine is an oracle over FEN strings: the datatype `Rules` of functions.
  - Each handler is a pure transition `After…` over a `State` datatype. Class `Session`
    keeps the same fields and updates them in place; each method is proved to be its
    transition.
  - `Step`/`Run` fold all events. Lemmas show that every event keeps the outbox growing,
    keeps a finished game finished and keeps the state consistent.
  - `FallbackRules` instantiates the oracle with `SimpleChess`.
- `board_view.dfy` (`BoardView`): `formatTime` and the index arithmetic of `renderSquare`.
- `home_page.dfy` (`HomePage`): `validTimeControl`, `validIncrement` and the `onChange` guards.

Modelling choices that follow JavaScript:

- `x || d` treats the empty string, 0, NaN and `undefined` as missing.
- `%` keeps the sign of the dividend (`RemainingSeconds`).
- `substring` clamps its ends.
- `parseInt` of a missing field is NaN, `NaN++` stays NaN, and NaN prints as "NaN".

Two of the modelled functions are never called in the component itself:

- `makeMove` (`src/components/ChessBoard.tsx:405-462`).
- `updateGameState` (`src/components/ChessBoard.tsx:52-57`).

The clicks and drops repeat `makeMove`'s bookkeeping inline, and the `gameState` handler
inlines `updateGameState`. Both functions are modelled all the same.

## Model

| member | source | states |
|---|---|---|
| Decimal.NatToString | src/utils/chessEngine.ts:98 | `emptyCount.toString()`: at least one digit, only digits, no leading zero, a single digit below ten |
| Decimal.IntToString | src/utils/chessEngine.ts:122-123 | `toString` of an integer: non-empty, begins with a digit exactly when the number is not negative, contains no space or '/' |
| Decimal.ParseInt | src/utils/chessEngine.ts:71-72 | `parseInt` gives a number exactly when the text starts with a digit or a sign followed by a digit; a text of digits only reads as its decimal value |
| Decimal.DigitsValueOfNatToString | src/utils/chessEngine.ts:98 | the digits `toString` writes for a natural number read back as that number |
| Decimal.ParseIntOfIntToString | src/utils/chessEngine.ts:71-72 | `parseInt` of any integer's `toString`, negative or not, gives that integer back |
| Fen.Opponent | src/utils/chessEngine.ts:223 | the turn flip gives the other colour |
| Fen.Lookup | src/utils/chessEngine.ts:141-143 | `board.get(square)`, or null: a piece exactly when the square is a key, and then the stored piece |
| Fen.ToUpper | src/utils/chessEngine.ts:60 | ASCII lower-case letters become upper case and everything else is kept |
| Fen.ToLower | src/utils/chessEngine.ts:61 | ASCII upper-case letters become lower case and everything else is kept |
| Fen.PieceOfChar | src/utils/chessEngine.ts:60-62 | an upper-case letter is a white piece whose type is the lower-case letter; a lower-case letter is a black piece of that type |
| Fen.GridSquareName | src/utils/chessEngine.ts:129-131 | on the 8x8 grid, `fileRankToSquare` gives the file letter then the rank digit, which matches `[a-h][1-8]` |
| Fen.SquareNamesDistinct | src/utils/chessEngine.ts:129-131 | distinct grid coordinates give distinct square names |
| Fen.FileRankToSquare | src/utils/chessEngine.ts:129-131 | no contract of its own: `GridSquareName` and `SquareNamesDistinct` state what it gives on the grid; off the grid the file part is the text "undefined", which is what the template literal makes of an out-of-range index into "abcdefgh" |
| Fen.OrDash | src/utils/chessEngine.ts:120-121 | the `'-'` fallback: a non-empty field is kept as it is, and a missing or empty one is written '-' |
| Fen.Step | src/utils/chessEngine.ts:52-65 | no contract of its own: one character of the placement loop; `ScanRank`, `ScanRankDigit` and `ScanRankLetter` state its effect on a canonical rank |
| Fen.Scan | src/utils/chessEngine.ts:52-65 | no contract of its own: the whole placement loop; `ScanAppend` splits it over concatenation, `ScanRanks` and `PlacementRoundTrip` state the board it builds from eight canonical ranks |
| Fen.RowString | src/utils/chessEngine.ts:90-111 | no contract of its own: one rank of `fen()`; `RowStringCanonical` states the text is canonical and `RowStringExpand` that it writes back the rank it was read from |
| Fen.Ranks | src/utils/chessEngine.ts:89-116 | no contract of its own: the ranks from eight down, joined by '/'; `RanksJoin` and `FenPlacementCanonical` state it splits back into the eight rank texts |
| Fen.FenOf | src/utils/chessEngine.ts:118-125 | no contract of its own: the six fields of `fen()` joined by spaces; `LoadFenRoundTrip` states it gives back every canonical FEN that was loaded |
| Fen.Split | src/utils/chessEngine.ts:46 | `split` always returns at least one part; `SplitJoin` states it undoes `JoinWith` |
| Fen.JoinWith | src/utils/chessEngine.ts:125 | no contract of its own: `join`; `SplitJoin` states `Split` recovers the parts, `JoinWithCons` that it is the first part, the separator and the join of the rest |
| Fen.LoadFields | src/utils/chessEngine.ts:46-72 | after `load`, the turn is White exactly when the second field is "w"; en passant is null exactly when the field is missing or "-" and otherwise is the field; castling is the third field |
| Fen.SplitJoin | src/utils/chessEngine.ts:46 | `split` undoes `join` when no part contains the separator |
| Fen.PlacementRoundTrip | src/utils/chessEngine.ts:52-116 | scanning eight canonical ranks joined by '/' and writing the board out gives the same placement text |
| Fen.LoadFenRoundTrip | src/utils/chessEngine.ts:43-126 | `fen()` after `load(s)` returns `s` for every canonical FEN `s`: eight canonical ranks, the side to move, non-empty castling and en-passant fields without spaces, and decimal counters |
| Fen.StartFenRoundTrip | src/utils/chessEngine.ts:38-40 | loading the standard start position and writing it gives `rnbqkbnr/pppppppp/8/8/8/8/PPPPPPPP/RNBQKBNR w KQkq - 0 1` |
| Fen.RowStringCanonical | src/utils/chessEngine.ts:90-111 | the rank writer emits piece letters and single-digit empty runs, never two digits in a row, as wide as the squares it was given |
| Fen.FenPlacementCanonical | src/utils/chessEngine.ts:88-116 | for any board of standard piece types, the placement `fen()` writes splits on '/' into exactly the eight rank texts, and each is canonical: no adjacent digits, eight files wide |
| ChessEngine.Substring | src/components/ChessBoard.tsx:267-269 | `substring(start, end)` clamps both ends to the string: within bounds it is the slice, and past the end it is the rest of the string from the clamped start, with the matching length |
| ChessEngine.RequestOf | src/utils/chessEngine.ts:193-203 | a move object is taken as it is; a move string gives characters 0-1 as origin and 2-3 as destination (what is left of them when it is shorter), and a one-letter promotion exactly when it is longer than four |
| ChessEngine.Inc | src/utils/chessEngine.ts:227-233 | `n++` adds one to a number and leaves NaN as NaN |
| ChessEngine.ApplyMove | src/utils/chessEngine.ts:205-237 | null exactly when the origin is empty or holds a piece of the side not to move; otherwise it records the piece and the former occupant of `to` as the capture, empties `from`, puts the piece on `to`, leaves every other square unchanged and flips the turn; the full-move counter grows exactly when White is to move again; the half-move clock restarts on a pawn move or capture and otherwise grows |
| ChessEngine.PutPiece | src/utils/chessEngine.ts:247-268 | refused exactly when the square fails `[a-h][1-8]` or the piece, its colour or its type is missing; otherwise that square holds the piece and no other square changes |
| ChessEngine.SimpleChess.constructor | src/utils/chessEngine.ts:38-40 | `new SimpleChess(fen)` holds `load(fen)`'s fields, or the start position for a missing or empty FEN (whose `fen()` is then the start text); the history is empty |
| ChessEngine.SimpleChess.Load | src/utils/chessEngine.ts:43-81 | the character loop leaves exactly `LoadFields(fen)` in the fields; the history is kept and the result is true |
| ChessEngine.SimpleChess.Fen | src/utils/chessEngine.ts:84-126 | the rank and file loops return `FenOf` of the current fields |
| ChessEngine.SimpleChess.WriteRank | src/utils/chessEngine.ts:89-116 | the file loop for one rank, with its `emptyCount`, appends exactly that rank's text |
| ChessEngine.SimpleChess.Get | src/utils/chessEngine.ts:141-143 | a piece exactly when the square is on the board, and then the piece there |
| ChessEngine.SimpleChess.Move | src/utils/chessEngine.ts:185-244 | the new fields are `ApplyMove`'s result, and the result is its move record; a refused move changes nothing; the history grows by exactly the returned move |
| ChessEngine.SimpleChess.Put | src/utils/chessEngine.ts:247-272 | the board becomes `PutPiece`'s board when it accepts and is kept otherwise; the result says which; nothing else changes |
| ChessEngine.SimpleChess.Reset | src/utils/chessEngine.ts:277-279 | back to the start position, whose `fen()` is the start text; the history is kept |
| ChessBoard.Initial | src/components/ChessBoard.tsx:35-47 | on mount: the start position, both clocks at the time control, our turn exactly when we play White, no last move, no selection, not over, a consistent state, and the first `joinGame` (line 240) |
| ChessBoard.DecodeMove | src/components/ChessBoard.tsx:258-269 | a missing move or one shorter than four characters is refused; otherwise origin and destination have two characters each and together are the first four; a promotion is present exactly when the string is longer and is then the rest of it |
| ChessBoard.EncodeMove | src/components/ChessBoard.tsx:449 | the move string is origin, then destination, then the promotion or nothing, and its length is the sum of theirs; `DecodeEncode` states that `DecodeMove` reads it back |
| ChessBoard.IsEcho | src/components/ChessBoard.tsx:271-278 | no contract of its own: same origin and destination as the last local move; `AfterMoveMade` states an echo only adopts the clocks and `EchoOfOwnMove` that the echo of our own move is one |
| ChessBoard.ClickTargets | src/components/ChessBoard.tsx:541-559 | no contract of its own: a selection exists, the clicked square is another one and is among the available targets; `AfterSquareClick` states a move is sent exactly when this holds and the rules accept the move |
| ChessBoard.ClockRunning | src/components/ChessBoard.tsx:119-128 | no contract of its own: neither the engine nor the session says the game is over; `AfterTick` and `TicksStopped` state nothing changes when it is false, and `InertLocalInput` that on the fallback engine it is exactly `!gameOver` |
| ChessBoard.Active | src/components/ChessBoard.tsx:127 | no contract of its own: the colour whose clock runs is the engine's side to move; `AfterTick`, `TicksCountDown` and `TicksTimeOut` state that only that clock changes |
| ChessBoard.DecodeEncode | src/components/ChessBoard.tsx:449 | decoding the `move` string (origin, destination, then the promotion or nothing) gives the move back when both squares have two characters and the promotion is not empty |
| ChessBoard.EncodeDecode | src/components/ChessBoard.tsx:262-269 | encoding any accepted move string after decoding it gives the same string |
| ChessBoard.ClearSelection | src/components/ChessBoard.tsx:477-478 | no square selected and no moves offered |
| ChessBoard.Commit | src/components/ChessBoard.tsx:434-455 | an accepted local move: the new position, `lastMove = {from, to}`, not our turn, the increment added to our clock only, and one `move` message carrying exactly the updated clocks; nothing else changes |
| ChessBoard.AfterMakeMove | src/components/ChessBoard.tsx:405-462 | succeeds exactly on our turn with a move the engine accepts, and then commits; otherwise nothing changes; the session invariant holds |
| ChessBoard.SelectPiece | src/components/ChessBoard.tsx:541-559 | a square is selected exactly when it holds our piece with at least one target, and then its targets are offered; otherwise the selection is cleared; only the selection changes |
| ChessBoard.AfterSquareClick | src/components/ChessBoard.tsx:464-563 | ignored off turn or after the game is over; clicking the selected square deselects it; a message is sent exactly when an offered target is clicked and the engine accepts the move, which is then committed with the selection cleared; a refused move only clears the selection; any other click selects the square exactly when it holds our piece with at least one target, and otherwise clears the selection |
| ChessBoard.AfterDragStart | src/components/ChessBoard.tsx:565-584 | on our turn in a running game, picking up our own piece selects it with its targets, even when there are none; otherwise nothing changes |
| ChessBoard.DropReport | src/components/ChessBoard.tsx:643-656 | the `gameOver` report after a drop: checkmate names the side not to move as winner with reason checkmate; a draw or stalemate gives "draw" with reason stalemate; any other end gives "draw" with no reason |
| ChessBoard.DropNotes | src/components/ChessBoard.tsx:644 | a report is sent exactly when the new position is over, and at most one |
| ChessBoard.AfterDrop | src/components/ChessBoard.tsx:590-664 | ignored off turn, after the game is over, or when the target is not offered; a refused move changes nothing; a message is sent exactly when the engine accepts, and the move is then committed, the selection cleared and the report added; the game-over flags are never touched |
| ChessBoard.ServerClock | src/components/ChessBoard.tsx:259-260 | each side's clock is the server's value when one is given and our own otherwise |
| ChessBoard.AcceptRemote | src/components/ChessBoard.tsx:280-305 | a remote move the engine refuses changes nothing; an accepted one replaces the position and the last move, makes it our turn exactly when the colour to move is ours, adopts the given clocks and clears the selection, and nothing else |
| ChessBoard.AfterMoveMade | src/components/ChessBoard.tsx:253-312 | a malformed move changes nothing; the echo of our last move only adopts the server's clocks; any other move is tried as `AcceptRemote` says; nothing is sent and the game-over flags are kept |
| ChessBoard.AfterUpdateGameState | src/components/ChessBoard.tsx:52-57 | a fresh engine loads the FEN; it is our turn exactly when the side to move is ours; nothing else changes |
| ChessBoard.AfterGameState | src/components/ChessBoard.tsx:195-229 | the position (and the turn) is replaced only when a non-empty FEN is given; the clocks only when both are given; the game is over only when the status is "completed" and a winner is named, the reason then defaulting to checkmate; the last move, selection and outbox are kept |
| ChessBoard.AfterGameEnded | src/components/ChessBoard.tsx:232-237 | the game is over with the announced winner and the reason, checkmate by default |
| ChessBoard.AfterConnect | src/components/ChessBoard.tsx:169-174 | `connect` sends `joinGame` again and changes nothing else |
| ChessBoard.AfterReconnect | src/components/ChessBoard.tsx:184-192 | `reconnect` sends `joinGame` then `requestGameState` and changes nothing else |
| ChessBoard.AfterTick | src/components/ChessBoard.tsx:119-164 | no change while the engine or the session says the game is over; with more than one second left the side to move loses exactly one and the other clock is kept; with one or less both clocks are kept, the game is over on time, the other colour wins and one `gameOver` message names it |
| ChessBoard.AfterTerminalCheck | src/components/ChessBoard.tsx:89-112 | checkmate: over, reason checkmate, the side not to move wins, and `gameOver` names it; a draw or stalemate: over, reason stalemate, winner "draw", and `gameOver` says so; otherwise no change |
| ChessBoard.DropReportAgrees | src/components/ChessBoard.tsx:643-656 | for a finished position, the winner and reason a drop reports are those the terminal check records |
| ChessBoard.TicksStopped | src/components/ChessBoard.tsx:124-126 | no tick changes anything once the game is over |
| ChessBoard.TicksCountDown | src/components/ChessBoard.tsx:149-153 | `n` ticks, fewer than the seconds the side to move has left, take exactly `n` from that clock and nothing else |
| ChessBoard.TicksTimeOut | src/components/ChessBoard.tsx:130-146 | at least as many ticks as the side to move has seconds end the game on time: that clock stops at one, the other side wins, and exactly one `gameOver` message is sent |
| ChessBoard.EchoOfOwnMove | src/components/ChessBoard.tsx:271-278 | the server's echo of the string a committed move sent is recognised as our own and only adopts the clocks |
| ChessBoard.MakeMoveEchoIgnored | src/components/ChessBoard.tsx:449-455 | after a successful `makeMove`, its `move` message coming back changes nothing but the clocks |
| ChessBoard.MoveCarriesClocks | src/components/ChessBoard.tsx:503-524 | a click that sends a move sends exactly the clocks it leaves (ours plus the increment, the other unchanged) and sets `lastMove` and the turn |
| ChessBoard.Step | src/components/ChessBoard.tsx:89-664 | every handler only appends messages, never reopens a finished game and keeps the state consistent |
| ChessBoard.RunFollows | src/components/ChessBoard.tsx:89-664 | the same holds over any sequence of events |
| ChessBoard.ReachableConsistent | src/components/ChessBoard.tsx:35-240 | every state reached from mount is consistent (a reason exactly when over, a winner only when over, moves offered only for a selection), and its first message is the initial `joinGame` |
| ChessBoard.FallbackMove | src/utils/chessEngine.ts:185-244 | a move on the fallback engine succeeds exactly when `SimpleChess.move` does on that position, and reports the requested promotion |
| ChessBoard.FallbackInert | src/utils/chessEngine.ts:151-182 | `SimpleChess` never offers a target and never reports check, mate, a draw or an end of game |
| ChessBoard.InertLocalInput | src/components/ChessBoard.tsx:541-559 | with such an engine no click, drag, drop or terminal check moves a piece or sends a message, nothing comes to be offered, and the clock runs until the session is told the game is over |
| ChessBoard.InertNeverOffers | src/components/ChessBoard.tsx:321-337 | with such an engine no state reached by any events offers a target square |
| ChessBoard.Session.constructor | src/components/ChessBoard.tsx:35-47 | the fields are `Initial` of the properties |
| ChessBoard.Session.Deselect | src/components/ChessBoard.tsx:477-478 | the new state is `ClearSelection` of the old one |
| ChessBoard.Session.CommitMove | src/components/ChessBoard.tsx:434-455 | the new state is `Commit` of the old one |
| ChessBoard.Session.MakeMove | src/components/ChessBoard.tsx:405-462 | the new state and the result are `AfterMakeMove` |
| ChessBoard.Session.HandleSquareClick | src/components/ChessBoard.tsx:464-563 | the new state is `AfterSquareClick` |
| ChessBoard.Session.HandleDragStart | src/components/ChessBoard.tsx:565-584 | the new state is `AfterDragStart` |
| ChessBoard.Session.HandleDrop | src/components/ChessBoard.tsx:590-664 | the new state is `AfterDrop` |
| ChessBoard.Session.HandleMoveMade | src/components/ChessBoard.tsx:253-312 | the new state is `AfterMoveMade` |
| ChessBoard.Session.ApplyRemote | src/components/ChessBoard.tsx:280-305 | the new state is `AcceptRemote` |
| ChessBoard.Session.UpdateGameState | src/components/ChessBoard.tsx:52-57 | the new state is `AfterUpdateGameState` |
| ChessBoard.Session.OnGameState | src/components/ChessBoard.tsx:195-229 | the new state is `AfterGameState` |
| ChessBoard.Session.OnGameEnded | src/components/ChessBoard.tsx:232-237 | the new state is `AfterGameEnded` |
| ChessBoard.Session.OnConnect | src/components/ChessBoard.tsx:169-174 | the new state is `AfterConnect` |
| ChessBoard.Session.OnReconnect | src/components/ChessBoard.tsx:184-192 | the new state is `AfterReconnect` |
| ChessBoard.Session.Tick | src/components/ChessBoard.tsx:130-153 | the new state is `AfterTick` |
| ChessBoard.Session.CheckGameOver | src/components/ChessBoard.tsx:89-112 | the new state is `AfterTerminalCheck` |
| BoardView.RemainingSeconds | src/components/ChessBoard.tsx:752 | `seconds % 60` has the sign of `seconds`, lies strictly between -60 and 60, equals the Euclidean remainder for non-negative times, and completes `seconds` with the floor quotient or the next one |
| BoardView.PadTwo | src/components/ChessBoard.tsx:753 | `padStart(2, '0')` is at least two long, ends with the text, and is filled with '0' in front |
| BoardView.SecondsText | src/components/ChessBoard.tsx:752-753 | the seconds of a non-negative time print as exactly two digits of that value |
| BoardView.FormatTimeRoundTrip | src/components/ChessBoard.tsx:750-754 | a non-negative time prints as "m:ss", which reads back as the same number of seconds |
| BoardView.FormatTime | src/components/ChessBoard.tsx:750-754 | no contract of its own: minutes, ':', padded seconds; `FormatTimeShape` and `FormatTimeRoundTrip` state the "m:ss" shape and that it reads back |
| BoardView.Oriented | src/components/ChessBoard.tsx:668 | the oriented index stays within 0..63 |
| BoardView.SquareAt | src/components/ChessBoard.tsx:666-671 | every cell shows a square matching `[a-h][1-8]` |
| BoardView.CellOfSquareAt | src/components/ChessBoard.tsx:666-671 | the square drawn in a cell maps back to that cell, for either player |
| BoardView.SquareAtCellOf | src/components/ChessBoard.tsx:666-671 | every square is drawn in exactly one cell |
| BoardView.DarkCells | src/components/ChessBoard.tsx:675 | a cell is drawn dark exactly when its square is dark on a real board (a1 dark), for either player |
| BoardView.IsDarkAt | src/components/ChessBoard.tsx:675 | no contract of its own: the `(col + row) % 2 === 1` test on the oriented index; `DarkCells` states it is dark exactly for the dark squares of a real board |
| HomePage.OrDefault | src/app/page.tsx:17-18 | the `parseInt(text)` default is the number unless it is NaN or 0, which give `d` |
| HomePage.ValidTimeControl | src/app/page.tsx:17 | the submitted time control is at least 60 and a multiple of 60; NaN or 0 gives 300; a positive `m` gives `m*60`; a negative one gives 60 |
| HomePage.ValidIncrement | src/app/page.tsx:18 | the submitted increment is never negative; NaN or a non-positive value gives 0; a positive `n` gives `n` |
| HomePage.OnTimeInput | src/app/page.tsx:51-57 | the typed text is kept; the time control becomes `parsed*60` only when the text parses and is kept otherwise; the increment fields are kept |
| HomePage.OnIncrementInput | src/app/page.tsx:71-77 | the typed text is kept; the increment becomes the parsed value only when the text parses and is kept otherwise; the time fields are kept |
| HomePage.CreateGameRequest | src/app/page.tsx:14-29 | the body posted is the validated time control and increment of the raw texts |
| HomePage.TypedMinutes | src/app/page.tsx:17 | typing a positive whole number of minutes submits that many minutes in seconds |
| HomePage.TypedIncrement | src/app/page.tsx:18 | typing a non-negative whole number submits exactly that increment |
| HomePage.SubmittedMatchesForm | src/app/page.tsx:51-77 | when the typed minutes are positive and the typed increment is not negative, the submitted values are the ones the form holds |
| HomePage.ZeroMinutesSubmitsDefault | src/app/page.tsx:17 | typing "0" stores 0 minutes in the form, but five minutes are submitted |

## Left out

- The rules of chess as chess.js applies them: legal moves, check, mate, draws. They are
  not visible, so the engine is an oracle (`ChessBoard.Rules`) that only asserts what the
  board relies on.
- `src/utils/chessWrapper.ts`: the dynamic `require` of chess.js and the defensive
  `safeCall` with its `||` fallbacks. They are not modelled. `FallbackRules` uses
  `SimpleChess` directly, and the oracle's `load` stands for `createChess()` followed by
  `load`.
- `SimpleChess.turn()` and `history()` are plain field reads. They are modelled as
  `ChessEngine.SimpleChess.Turn`/`History` with no contract of their own.
- `SimpleChess`'s `isCheck`/`isCheckmate`/`isDraw`/`isStalemate`/`isGameOver` and
  `moves()` are modelled only as the constant answers of `FallbackRules`
  (`FallbackInert`): false, and an empty list.
- `squareToFileRank` is never called and is not modelled.
- The `try`/`catch` paths are not modelled: `load`'s recovery, the catch blocks of the
  handlers, and the `typeof … === 'function'` guards. With string input, `load` has
  nothing that throws.
- `ChessEngine.SimpleChess.Load`: its contract states `ok` as always true, because the
  false result exists only on the exception path.
- Promotion: `SimpleChess` records the promotion on the move but never changes the
  piece. The model does the same.
- `parseInt` is decimal only. Leading whitespace, hexadecimal prefixes and fractional
  inputs are not modelled. Clock values and counters are integers; floating point is not
  modelled.
- Socket.IO is an outbox of `Emit` values, and I/O is left out: `fetch`, the router and
  `console` logging.
- React effect timing and the dependencies of `useCallback` are not modelled.
  - The terminal check and the clock tick are explicit events (`TerminalCheck`, `Tick`).
  - Effect re-runs can send `gameOver` more than once; the code does not promise otherwise.
  - The mount effect that sets the clocks again (`src/components/ChessBoard.tsx:60-73`)
    writes the values `Initial` already holds.
- The `setInterval` wall clock is not modelled. Each firing is one `Tick`, and the
  interval's colour is recomputed from the position at every tick. The source's interval
  is restarted whenever `game` changes, so the colour is the same.
- The drag state: `draggedPiece` and `dataTransfer` are left out. The drop's source
  square is a parameter.
- Not modelled: the debug-info gatherer, `getPieceSymbol`, `isCapture` and the class
  names of `renderSquare`. They only change what is rendered.
- `BoardView.FormatTimeRoundTrip`: stated for non-negative times only. A negative clock
  prints with a minus sign on both parts (for example "-1:-1"), which the reader does not
  take back.
- `ChessBoard.DecodeEncode`: stated only for two-character squares and a non-empty
  promotion. Those are the strings local moves produce; other squares do not decode back
  to themselves.
- `Fen.FenPlacementCanonical`: stated for boards whose pieces have one of the six piece
  types. `put` accepts any type, and `load` of a non-FEN letter stores it; such boards
  are not canonical.
- `Fen.ToUpper`, `Fen.ToLower`, `Fen.PieceOfChar`: the case mapping is ASCII only.
  JavaScript's `toUpperCase`/`toLowerCase` also map non-ASCII letters (for example 'é'),
  so a placement letter outside ASCII is not modelled as the source treats it.
- `ChessBoard.Winner`, `ChessBoard.Reason`: closed datatypes. The source stores whatever
  string the server sends as `winner` and `reason`
  (`src/components/ChessBoard.tsx:222-224`, `234-236`); the model keeps only the values
  the board itself produces or compares against.
