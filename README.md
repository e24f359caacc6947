# chesspro — a Dafny model of the game coordination core

chesspro is a physical chess board driven by a Raspberry Pi. Hall sensors under
the squares are read through a multiplexer and an MCP3008 converter, and the
board lights squares through LEDs. It also has a WebSocket server that seats
players, relays their moves and keeps a move ledger in PostgreSQL. This project
models the parts of it that decide things, as listed below.

- **Session coordinator** (`websocket_server/websocket-server.js`, module
  `Session`, class `Coordinator`). This is the module-level state:
  - connected clients, admin, game mode and the ongoing flag;
  - the two player slots and their colours;
  - the connection, message and close handlers;
  - `transferAdmin`, `setGameMode`, `setColor`, `isGameReady`, the two move
    handlers, `resetGame` and `endGame`.

  Connections are abstract ids. Everything the server sends is appended to an
  outbox of envelopes (recipients, message).
- **Move ledger** (module `Ledger`). The `current_game` table is a sequence of
  rows `(move, white, black)` plus the next value of its identity column. The
  turn protocol is pure functions over that sequence:
  - White may append only once the last row is complete;
  - Black may fill only the last row's empty half.

  They are proved to keep the table well formed: rows numbered 1..n, and every
  row but the last complete. Any alternating game is replayed into the expected
  table. `getPGN` serialises it with a result marker as in section 8.2.6 of the
  PGN standard. Module `Text` supplies the decimal rendering of numbers used in
  the PGN and in the "You are client #n" notice.
- **Relay server** (`websocket_server/server.js`, module `Relay`). This is the
  older server:
  - it admits at most two clients;
  - on a `move` it stores the PGN and relays it to both;
  - on close it drops the connection from its list.
- **Game managers** (modules `BoardGame` and `EngineGame`). These model
  `raspberrypi_code/game/game_manager.py` and its near-duplicate under
  `chess_engine/`. They hold the mode, the active flag and the board's move
  history. python-chess is a `Rules` value of parameters: UCI parsing, legality,
  game over, and result. Python exceptions are `Raised` outcomes.
- **Board manager** (`raspberrypi_code/board/board_manager.py`, module `Board`).
  This is the lift and place state machine on `lifted_square`, plus the LED
  commands it issues.
- **Sensors** (modules `MoveDetector` and `SensorReader`). They model:
  - the classification of readings into black, white or empty;
  - the 64-sensor scan and the leave/appear diff against the previous scan;
  - the MCP3008 command frame and 10-bit decode;
  - the multiplexer select bits.

What the source does, as modelled (and where it departs from its apparent design):

- The close handler passes `clients[0]` to `transferAdmin`. Indexing a `Set`
  gives `undefined`, so no one is promoted when the admin leaves. `OnClose`
  models exactly that.
- The "player2" role message sent on connection assigns no player slot.
- `setGameMode("pvp")` with no other connection leaves `player2` `undefined`
  (what `Array.find` returns), not `null`. The connection handler offers the
  "player2" role only when `player2 === null`, so a later joiner is told
  "spectator". The close handler and the other modes store `null`.
- `admin.start_game` calls `setColor(player1Color)` again. While the colour is
  still "random", this resolves it anew.
- There is no reset command in the message handler. The table is emptied only
  when a game starts. `endGame` exists but nothing calls it.
- `BoardManager.clear_lights` calls itself with no base case, so in Python it
  ends in a `RecursionError`. The following are modelled as not completing
  (`completed == false`):
  - a lift (through `show_legal_moves`);
  - an accepted placement (through `validate_move`).

  As a result, `lifted_square` is reset only after a rejected placement.

## Model

| member | source | states |
|---|---|---|
| Text.Decimal | websocket_server/websocket-server.js:293 | the rendering of `row.move` is a non-empty digit string without a leading zero, one digit exactly below 10 |
| Text.DecimalRoundTrip | websocket_server/websocket-server.js:293 | reading the rendered digits back gives the number |
| Text.DecimalInjective | websocket_server/websocket-server.js:101 | different client counts and move numbers render differently |
| Ledger.Latest | websocket_server/websocket-server.js:253 | the last-row query finds nothing exactly on an empty table |
| Ledger.LatestHasLargestNumber | websocket_server/websocket-server.js:253 | in a well-formed table the last row kept is the one with the largest move number, as `ORDER BY move DESC LIMIT 1` selects |
| Ledger.WhiteMove | websocket_server/websocket-server.js:252-263 | refused with "Wait for Black to move!" exactly when the last row lacks Black's half; otherwise exactly one row (next id, move, null) is appended and the earlier rows are untouched |
| Ledger.SetBlackWhere | websocket_server/websocket-server.js:282 | the UPDATE sets Black's half on the rows with the given number and leaves every other row as it was |
| Ledger.BlackMove | websocket_server/websocket-server.js:266-284 | refused with "White must move first!" on an empty table and with "Wait for White to move!" when the last row is complete, and only then |
| Ledger.BlackMoveFillsLastRow | websocket_server/websocket-server.js:276-282 | on a well-formed table an accepted black move changes only the last row, only its black half |
| Ledger.BlackMoveOnWaitingRow | websocket_server/websocket-server.js:270-282 | a black move on a well-formed table waiting for Black is accepted and yields the table with the last row completed |
| Ledger.WhiteMovePreservesWellFormed | websocket_server/websocket-server.js:256-262 | an accepted white move with the next identity value keeps rows numbered 1..n and all but the last complete |
| Ledger.BlackMovePreservesWellFormed | websocket_server/websocket-server.js:270-282 | an accepted black move keeps the table well formed |
| Ledger.ExactlyOneSideMayMove | websocket_server/websocket-server.js:256-279 | on any table exactly one of White's and Black's moves is accepted |
| Ledger.AlternatingPlayIsAccepted | websocket_server/websocket-server.js:252-284 | every alternating sequence of half-moves, White first, is accepted move by move and produces the table pairing half 2i and 2i+1 in row i+1, which is well formed |
| Ledger.ResultMarker | websocket_server/websocket-server.js:296-298 | WHITE_WIN gives "1-0", BLACK_WIN "0-1", DRAW and STALEMATE "1/2-1/2"; the marker is empty exactly for every other result |
| Ledger.RowText | websocket_server/websocket-server.js:293 | a row's text is at least four characters ("N." and two spaces) and ends with the separating space |
| Ledger.MovesText | websocket_server/websocket-server.js:291-294 | the accumulated text is at least four characters per row; `MovesTextSnoc`, `MovesTextAppend`, `MovesTextHasRowAt`, `MovesTextEndsWithSpace` and `WhiteMoveExtendsMovesText` prove the rows' texts appear in move order |
| Ledger.Pgn | websocket_server/websocket-server.js:286-301 | the result marker can be read back from the PGN's last character, so the marker is never confused with move text; with `PgnDeterminesOutcome`, equal PGNs mean equal outcomes and move texts |
| Ledger.MovesTextAppend | websocket_server/websocket-server.js:291-294 | the move text of a table is the move texts of its parts joined in order |
| Ledger.MovesTextHasRowAt | websocket_server/websocket-server.js:292-294 | row i's "N.white black " text sits in the move text right after the text of the rows before it |
| Ledger.MovesTextEndsWithSpace | websocket_server/websocket-server.js:292-294 | the move text is empty exactly for an empty table, and otherwise ends with the space every row's text ends with |
| Ledger.PgnDeterminesOutcome | websocket_server/websocket-server.js:286-301 | two equal PGNs carry the same result marker and the same move text |
| Ledger.WhiteMoveExtendsMovesText | websocket_server/websocket-server.js:292-293 | an accepted white move adds exactly "N.move  " to the move text |
| Session.ParseColor | websocket_server/websocket-server.js:216-218 | only "white", "black" and "random" are accepted colour choices, and each parses to the colour of that name |
| Session.Opposite | websocket_server/websocket-server.js:225 | player 2's colour is the other of white and black |
| Session.Resolve | websocket_server/websocket-server.js:220-224 | the stored colour is never "random"; a fixed choice is kept, and "random" gives white exactly when the coin says so |
| Session.IsGameReady | websocket_server/websocket-server.js:228-237 | never ready during a game or for a mode other than pvp/pvb/bvb; pvp needs both players, pvb player 1, bvb nothing more; both directions |
| Session.KnownNames | websocket_server/websocket-server.js:73-78 | every non-empty username of a connection is in the player list, and the list holds nothing else |
| Session.Coordinator.constructor | websocket_server/websocket-server.js:22-30 | starts with no connections, no admin, mode or players, colour "random", over a well-formed stored table |
| Session.Coordinator.TransferAdmin | websocket_server/websocket-server.js:179-184 | changes nothing unless the target is a live connection, which then becomes admin and is told so; the invariant is kept |
| Session.Coordinator.SetGameMode | websocket_server/websocket-server.js:186-205 | the mode is stored; pvp makes the admin player 1 and another live connection player 2, told so, or leaves player 2 `undefined` (not `null`) exactly when there is none; pvb makes the admin player 1 and player 2 `null`; bvb sets both to `null`; any other string only changes the mode |
| Session.Coordinator.SetColor | websocket_server/websocket-server.js:215-226 | an invalid colour changes nothing; otherwise player 1 gets the resolved colour and player 2 the opposite |
| Session.Coordinator.ResetGame | websocket_server/websocket-server.js:312-316 | the table becomes empty and its identity restarts at 1, whatever it held, so resetting twice is resetting once |
| Session.Coordinator.HandleWhiteMove | websocket_server/websocket-server.js:252-264 | a refusal reaches only the sender and leaves the table; acceptance applies `WhiteMove` and broadcasts the new table |
| Session.Coordinator.HandleBlackMove | websocket_server/websocket-server.js:266-284 | a refusal reaches only the sender and leaves the table; acceptance applies `BlackMove` and broadcasts the new table |
| Session.Coordinator.StartGame | websocket_server/websocket-server.js:114-124 | the table is emptied, player 1's colour re-resolved and player 2's set opposite, the game marked ongoing and announced to all |
| Session.Coordinator.EndGame | websocket_server/websocket-server.js:303-310 | clears the ongoing flag and sets both player slots to `null`; the PGN the source computes and then drops is returned |
| Session.Coordinator.AdminCommand | websocket_server/websocket-server.js:107-128 | for the admin, set_mode and set_color between games do what `SetGameMode` and `SetColor` do, start_game when ready does what `StartGame` does, transfer_admin changes nothing; every other command changes nothing |
| Session.Coordinator.RouteMove | websocket_server/websocket-server.js:129-142 | during a game, a player's command naming that player's colour does what `HandleWhiteMove` or `HandleBlackMove` does (error to the sender alone, or the new table to all); every other message changes nothing |
| Session.Coordinator.OnMessage | websocket_server/websocket-server.js:103-146 | unparseable messages and messages that pass neither the admin gate nor the move routing change nothing; an admin command that passes the gate has `AdminCommand`'s effect and a routed move `RouteMove`'s; no message changes the admin or the connections |
| Session.Coordinator.OnClose | websocket_server/websocket-server.js:153-176 | the connection leaves; each of admin, player 1 and player 2 it held becomes empty and the others stay; no one is promoted to admin; the others hear of a named user's departure |
| Session.Coordinator.OnConnect | websocket_server/websocket-server.js:32-101 | an unverified connection changes nothing; a verified one becomes admin only when hinted and there is none; it receives its role, the player list, a second role ("player2" only while there is an admin, the mode is pvp and player 2 is `null`, not `undefined`), the table and its client number in that order, while all hear of it; no player slot changes |
| Relay.Without | websocket_server/server.js:50 | the filtered list has no occurrence of the closed connection and the same number of every other |
| Relay.WithoutAppend | websocket_server/server.js:50 | filtering keeps the survivors in their order |
| Relay.WithoutAbsent | websocket_server/server.js:50 | closing a connection not in the list leaves it as it is |
| Relay.Broadcast | websocket_server/server.js:37-41 | one update with the same PGN to each client, in list order |
| Relay.RelayServer.constructor | websocket_server/server.js:15-16 | no clients, the stored row as the database holds it |
| Relay.RelayServer.OnConnection | websocket_server/server.js:18-26 | a third connection is told "Server full" and the list is unchanged; otherwise it is appended; the list never exceeds two |
| Relay.RelayServer.OnMessage | websocket_server/server.js:28-47 | a stored move sets the PGN of row 1 when that row exists and sends it to every client; a parse or database failure sends "Invalid request" to the sender only; the list never changes |
| Relay.RelayServer.OnClose | websocket_server/server.js:49-51 | the list loses the closed connection and keeps the others in order |
| Chess.Truthy | raspberrypi_code/game/game_manager.py:18 | Python truthiness of `game_mode`: None and the empty string are false, every other string true |
| BoardGame.GameManager.constructor | raspberrypi_code/game/game_manager.py:5-9 | no board, no mode, no active game |
| BoardGame.GameManager.SetGameMode | raspberrypi_code/game/game_manager.py:11-15 | stores the mode and answers True exactly when no game is active; otherwise the mode is kept |
| BoardGame.GameManager.StartGame | raspberrypi_code/game/game_manager.py:17-23 | succeeds exactly with a truthy mode and no active game, leaving an active game on a fresh board; a second start fails |
| BoardGame.GameManager.Move | raspberrypi_code/game/game_manager.py:28-39 | no board raises; a finished game or an illegal move gives False with the board unchanged; unparseable text raises; otherwise exactly that move is pushed and, if it ends the game, the result is reported |
| BoardGame.GameManager.ValidateMove | raspberrypi_code/game/game_manager.py:45-56 | pushes start+end exactly when it parses and is legal on a present board; otherwise False with the board unchanged |
| BoardGame.GameManager.EndGame | raspberrypi_code/game/game_manager.py:58-61 | clears the active flag, the board and the mode, so the mode is no longer truthy and a start fails until a mode is set |
| BoardGame.GameManager.NotifyGameEnd | raspberrypi_code/game/game_manager.py:69-71 | the callback hears the result only when there is one |
| EngineGame.GameManager.constructor | raspberrypi_code/chess_engine/game_manager.py:5-9 | no board, no mode, no active game |
| EngineGame.GameManager.SetGameMode | raspberrypi_code/chess_engine/game_manager.py:11-15 | succeeds exactly when no game is active; otherwise the mode is kept |
| EngineGame.GameManager.StartGame | raspberrypi_code/chess_engine/game_manager.py:17-23 | succeeds exactly with a truthy mode and no active game, then the game is active on a fresh board |
| EngineGame.GameManager.Move | raspberrypi_code/chess_engine/game_manager.py:28-37 | pushes exactly the move when the game is not over and it is legal, else False (or an exception) with the board unchanged; the callback never hears |
| EngineGame.GameManager.NotifyGameEnd | raspberrypi_code/chess_engine/game_manager.py:50-52 | the callback hears the result only when there is one |
| EngineGame.GameManager.EndGame | raspberrypi_code/chess_engine/game_manager.py:39-42 | clears the active flag, the board and the mode |
| Board.BoardManager.constructor | raspberrypi_code/board/board_manager.py:5-7 | nothing lifted, no LED commands |
| Board.BoardManager.ClearLights | raspberrypi_code/board/board_manager.py:40-41 | recurses until the recursion limit and never completes |
| Board.BoardManager.ValidateMove | raspberrypi_code/board/board_manager.py:29-38 | a rejected move lights start and end red ("r"+square) and completes; an accepted one is pushed, issues no red command and runs into clear_lights |
| Board.BoardManager.UpdateBoard | raspberrypi_code/board/board_manager.py:9-20 | one square left and none appeared records it as lifted; one appeared, none left and a lifted square present validates lifted→appeared once: a rejected move lights both squares red and forgets the lifted square, an accepted one is pushed, runs into clear_lights and so keeps the lifted square; any other combination changes nothing and validates nothing |
| MoveDetector.PieceColor | raspberrypi_code/sensors/move_detector.py:10-16 | black exactly below 341, white exactly above 683, empty exactly from 341 to 683 |
| MoveDetector.Indices | raspberrypi_code/sensors/move_detector.py:33-40 | the reported indices changed in the given way, lie below the bound and increase strictly, so there are at most 64 |
| MoveDetector.Labels | raspberrypi_code/sensors/move_detector.py:37-40 | the j-th reported label is `sensors_order` at the j-th reported index |
| MoveDetector.IndicesComplete | raspberrypi_code/sensors/move_detector.py:37-40 | every index that changed in the given way is reported |
| MoveDetector.IndexReportedIff | raspberrypi_code/sensors/move_detector.py:37-40 | an index is a leave exactly when it went from occupied to empty, an appearance exactly when it went from empty to occupied |
| MoveDetector.ReportsAreDisjoint | raspberrypi_code/sensors/move_detector.py:37-40 | no index is both; an index whose occupancy did not change, a white/black swap included, is neither |
| MoveDetector.FirstScan | raspberrypi_code/sensors/move_detector.py:6-12 | the initial 2.5 readings count as black pieces, so the first scan reports every empty square as a leave and nothing as appeared |
| MoveDetector.Reading | raspberrypi_code/sensors/move_detector.py:23-27 | reading i comes from multiplexer input i/8 and converter channel i%8 and lies in 0..1023 |
| MoveDetector.Scan | raspberrypi_code/sensors/move_detector.py:20-28 | the scan yields 64 readings, reading i from input i/8 and channel i%8 |
| MoveDetector.Diff | raspberrypi_code/sensors/move_detector.py:31-40 | the two lists are the labels of the leave and appear indices, in increasing index order, each at most 64 long |
| MoveDetector.Detector.constructor | raspberrypi_code/sensors/move_detector.py:6 | the previous values start as 64 readings of 2.5 |
| MoveDetector.Detector.DetectBoardChanges | raspberrypi_code/sensors/move_detector.py:18-43 | reports the diff between the previous and the new scan, and the new scan becomes the previous one |
| SensorReader.Command | raspberrypi_code/sensors/sensor_reader.py:19 | the frame is [1, (8+channel)<<4, 0], its second byte between 128 and 240 with a zero low nibble |
| SensorReader.CommandChannel | raspberrypi_code/sensors/sensor_reader.py:19 | a second byte with bit 7 set selects a channel 0..7 |
| SensorReader.CommandRoundTrip | raspberrypi_code/sensors/sensor_reader.py:19 | the converter is asked for exactly the channel requested |
| SensorReader.Decode | raspberrypi_code/sensors/sensor_reader.py:20 | the decoded sample lies in 0..1023 |
| SensorReader.DecodeArithmetic | raspberrypi_code/sensors/sensor_reader.py:20 | the shift, mask and or amount to (b1 mod 4)·256 + b2 |
| SensorReader.DecodeBits | raspberrypi_code/sensors/sensor_reader.py:20 | the low 8 bits are b2, bits 8-9 are b1's low two bits, and the first byte and b1's other bits do not matter |
| SensorReader.ReadAdc | raspberrypi_code/sensors/sensor_reader.py:15-21 | -1 exactly for a channel outside 0..7, without a transfer; otherwise the decoded reply to that channel's command |
| SensorReader.MuxBits | raspberrypi_code/sensors/sensor_reader.py:25 | one level per select pin |
| SensorReader.MuxBitsSpellChannel | raspberrypi_code/sensors/sensor_reader.py:23-26 | each level is 0 or 1 and together they spell the channel modulo 8 in binary, the channel itself for 0..7 |
| SensorReader.MuxBitsInjective | raspberrypi_code/sensors/sensor_reader.py:25 | different channels 0..7 drive different pin levels |

## Left out

- PostgreSQL is not modelled. The `current_game` table is an in-memory sequence,
  and the stored table at process start is taken to be well formed.
- A failing query is not modelled. The coordinator's handlers log such errors.
  In the relay, a failed update is the `stored` flag.
- JWT verification is not modelled. The connection handler receives the
  verified username, or None when the token is missing or invalid or names no
  user.
- The `ws` transport is not modelled:
  - every `send` becomes an outbox envelope;
  - `close` is not recorded: a refused connection simply leaves the state
    unchanged (the relay's "Server full" message is recorded, its close is not);
  - `readyState` is left out, so every live connection counts as open;
  - the `error` handler (which only closes the socket) is left out;
  - all console logging is left out.
- The `await` points of the coordinator are not modelled. Each handler runs as
  one atomic step, so the race between the last-row query and the
  INSERT/UPDATE under concurrent messages is not captured.
- The asynchronous `sendGameState` and `broadcastGameState` are not modelled as
  asynchronous. Their table message is placed in order, where the call is made.
- A connection still inside the asynchronous part of the connection handler is
  not modelled. It is already in `wss.clients` but not yet in `clients`; the
  two sets are one set here.
- `Math.random` is the `coin` parameter.
- Session.Coordinator.SetGameMode picks any other live connection as player 2.
  `Array.find` takes the first in insertion order, and connection order is not
  kept here.
- A JSON message whose `mode`, `color` or `move` field is missing is not
  modelled. There the source passes `undefined` on, and the ledger would store
  NULL. Likewise a relay `move` message without `pgn` would store NULL and
  relay `undefined`. These fields are strings here.
- The `targetWs` field of `admin.transfer_admin` is not a field of the parsed
  message. After `JSON.parse` it cannot be a socket, so the command calls
  `transferAdmin` with no target and changes nothing.
- Session.KnownNames: the player list is a set, not the array the source
  builds. The source lists the names in `wss.clients` order and repeats a name
  that is connected twice; connection order and duplicates are not kept here.
- Session.Coordinator.constructor: the identity column's next value is taken
  to be one more than the number of stored rows. The stored table is assumed to
  number its rows 1..n from a fresh identity.
- The relay's `await` between the UPDATE and the broadcast is not modelled.
  Each message runs as one atomic step, so a connection or close that lands
  while the UPDATE is pending is not captured.
- python-chess is the `Rules` parameter. The following are left out:
  - `get_legal_moves`, `is_game_over`, `get_result` and `print_board`, which
    only delegate to the library or print;
  - the cyan LED commands of `show_legal_moves`, which follow `clear_lights`
    and so are never reached.
- The unseen `sensors_order` module is a 64-label parameter, not assumed
  injective.
- The hardware is not modelled:
  - the SPI transfer and the multiplexer's effect on it are the `Bus` parameter;
  - `time.sleep` is left out;
  - the GPIO writes are left out; their levels are `MuxBits`.
- `update_board`'s own call of `detect_board_changes` is replaced by passing
  the two lists it returns as parameters; `MoveDetector.Detector` models that
  call separately.
- Chess.Truthy: game modes are modelled as strings only. A mode taken from
  JSON could also be `0`, `false` or `[]`, which Python treats as false; such
  values are not modelled.
- Integer readings are modelled as reals. Readings are compared against the
  341/683 thresholds, and the initial 2.5 is not an integer.
- The following parts of the repository are not part of this model:
  - `app_backend/app-backend.js`;
  - the Bluetooth server and command handler;
  - the light controller;
  - the hardware demo loops;
  - the interactive command-line client;
  - `raspberrypi_code/main.py`.
- A reset command and admin failover are not modelled: the code has neither.
