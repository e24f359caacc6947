/**
 * The rules of chess as the board code sees them through python-chess: a
 * parser for UCI move text and, over the history of moves pushed so far, a
 * legality test, a game-over test and the result string. The library is not
 * part of this model, so these are parameters.
 */
module Chess {
  import opened Wrappers

  /** The moves pushed on a `chess.Board()` since it was created, in UCI text. */
  type History = seq<string>

  datatype Rules = Rules(
    isUci: string -> bool,                 // chess.Move.from_uci does not raise
    isLegal: (History, string) -> bool,    // the parsed move is in board.legal_moves
    isGameOver: History -> bool,           // board.is_game_over()
    result: History -> string)             // board.result()

  /** Python truthiness of `game_mode`: set and not the empty string. */
  predicate Truthy(mode: Option<string>): (t: bool)
    ensures mode == None || mode == Some("") ==> !t
    ensures mode.Some? && |mode.value| > 0 ==> t
  {
    mode.Some? && mode.value != ""
  }
}

/**
 * GameManager of raspberrypi_code/game/game_manager.py: the game mode, the
 * active flag and the board's move history, with a callback told of the
 * result when a move ends the game.
 */
module BoardGame {
  import opened Wrappers
  import opened Chess

  class GameManager {
    const rules: Rules
    const hasCallback: bool                  // on_game_event is truthy
    var board: Option<History>               // None while self.board is None
    var gameMode: Option<string>
    var isGameActive: bool
    var events: seq<string>                  // results passed to on_game_event, in order

    constructor (rules: Rules, hasCallback: bool)
      ensures this.rules == rules && this.hasCallback == hasCallback
      ensures board == None && gameMode == None && !isGameActive && events == []
    {
      this.rules, this.hasCallback := rules, hasCallback;
      board, gameMode, isGameActive, events := None, None, false, [];
    }

    /** set_game_mode: stores the mode and answers True only when no game is active. */
    method SetGameMode(mode: Option<string>) returns (ok: bool)
      modifies this
      ensures ok <==> !old(isGameActive)
      ensures gameMode == if ok then mode else old(gameMode)
      ensures board == old(board) && isGameActive == old(isGameActive) && events == old(events)
    {
      if !isGameActive {
        gameMode := mode;
        return true;
      }
      return false;
    }

    /** start_game: with a truthy mode and no active game, activates a fresh board. */
    method StartGame() returns (ok: bool)
      modifies this
      ensures ok <==> Truthy(old(gameMode)) && !old(isGameActive)
      ensures ok ==> isGameActive && board == Some([])
      ensures !ok ==> board == old(board) && isGameActive == old(isGameActive)
      ensures gameMode == old(gameMode) && events == old(events)
    {
      if Truthy(gameMode) && !isGameActive {
        isGameActive := true;
        board := Some([]);
        return true;
      }
      return false;
    }

    /** notify_game_end: the callback hears the result only when there is one. */
    method NotifyGameEnd(result: string)
      modifies this
      ensures events == if hasCallback then old(events) + [result] else old(events)
      ensures board == old(board) && gameMode == old(gameMode) && isGameActive == old(isGameActive)
    {
      if hasCallback {
        events := events + [result];
      }
    }

    /**
     * move: False with the board unchanged when the game is over or the move
     * is illegal; otherwise exactly that move is pushed, and if it ends the
     * game the callback is told the result. With no board an AttributeError
     * escapes; unparseable text on a live game raises ValueError.
     */
    method Move(move: string) returns (r: Outcome<bool>)
      modifies this
      ensures old(board).None? ==> r.Raised? && board == old(board) && events == old(events)
      ensures old(board).Some? ==>
                var h := old(board).value;
                if rules.isGameOver(h) then r == Returned(false) && board == old(board) && events == old(events)
                else if !rules.isUci(move) then r.Raised? && board == old(board) && events == old(events)
                else if !rules.isLegal(h, move) then r == Returned(false) && board == old(board) && events == old(events)
                else
                  r == Returned(true) && board == Some(h + [move]) &&
                  events == old(events) +
                    (if hasCallback && rules.isGameOver(h + [move]) then [rules.result(h + [move])] else [])
      ensures gameMode == old(gameMode) && isGameActive == old(isGameActive)
    {
      if board.None? {
        return Raised("AttributeError");
      }
      var h := board.value;
      if rules.isGameOver(h) {
        return Returned(false);
      }
      if !rules.isUci(move) {
        return Raised("ValueError");
      }
      if !rules.isLegal(h, move) {
        return Returned(false);
      }
      board := Some(h + [move]);
      if rules.isGameOver(board.value) {
        NotifyGameEnd(rules.result(board.value));
      }
      r := Returned(true);
    }

    /**
     * validate_move: pushes the move `start + end` only when it parses and is
     * legal on the current board; a parse error, a missing board or an
     * illegal move all give False with the board unchanged. It does not
     * consult the game-over test or the active flag.
     */
    method ValidateMove(start: string, end: string) returns (ok: bool)
      modifies this
      ensures ok <==> old(board).Some? && rules.isUci(start + end) && rules.isLegal(old(board).value, start + end)
      ensures board == if ok then Some(old(board).value + [start + end]) else old(board)
      ensures gameMode == old(gameMode) && isGameActive == old(isGameActive) && events == old(events)
    {
      var move := start + end;
      if !rules.isUci(move) || board.None? {
        return false;
      }
      if rules.isLegal(board.value, move) {
        board := Some(board.value + [move]);
        return true;
      }
      return false;
    }

    /** end_game: no game, no board, no mode; start_game then fails until a mode is set again. */
    method EndGame()
      modifies this
      ensures !isGameActive && board == None && gameMode == None && !Truthy(gameMode)
      ensures events == old(events)
    {
      isGameActive, board, gameMode := false, None, None;
    }
  }
}

/**
 * GameManager of raspberrypi_code/chess_engine/game_manager.py: the same
 * lifecycle, except that `move` never reports the end of the game.
 */
module EngineGame {
  import opened Wrappers
  import opened Chess

  class GameManager {
    const rules: Rules
    const hasCallback: bool
    var board: Option<History>
    var gameMode: Option<string>
    var isGameActive: bool
    var events: seq<string>

    constructor (rules: Rules, hasCallback: bool)
      ensures this.rules == rules && this.hasCallback == hasCallback
      ensures board == None && gameMode == None && !isGameActive && events == []
    {
      this.rules, this.hasCallback := rules, hasCallback;
      board, gameMode, isGameActive, events := None, None, false, [];
    }

    /** set_game_mode: succeeds only when no game is active; otherwise the mode is kept. */
    method SetGameMode(mode: Option<string>) returns (ok: bool)
      modifies this
      ensures ok <==> !old(isGameActive)
      ensures gameMode == if ok then mode else old(gameMode)
      ensures board == old(board) && isGameActive == old(isGameActive) && events == old(events)
    {
      if !isGameActive {
        gameMode := mode;
        return true;
      }
      return false;
    }

    /** start_game: needs a truthy mode and an inactive game, then activates a fresh board. */
    method StartGame() returns (ok: bool)
      modifies this
      ensures ok <==> Truthy(old(gameMode)) && !old(isGameActive)
      ensures ok ==> isGameActive && board == Some([])
      ensures !ok ==> board == old(board) && isGameActive == old(isGameActive)
      ensures gameMode == old(gameMode) && events == old(events)
    {
      if Truthy(gameMode) && !isGameActive {
        isGameActive := true;
        board := Some([]);
        return true;
      }
      return false;
    }

    /**
     * move: pushes exactly the move when the game is not over and the move is
     * legal, else False with the board unchanged; the callback is never told.
     */
    method Move(move: string) returns (r: Outcome<bool>)
      modifies this
      ensures old(board).None? ==> r.Raised? && board == old(board)
      ensures old(board).Some? ==>
                var h := old(board).value;
                if rules.isGameOver(h) then r == Returned(false) && board == old(board)
                else if !rules.isUci(move) then r.Raised? && board == old(board)
                else if !rules.isLegal(h, move) then r == Returned(false) && board == old(board)
                else r == Returned(true) && board == Some(h + [move])
      ensures gameMode == old(gameMode) && isGameActive == old(isGameActive) && events == old(events)
    {
      if board.None? {
        return Raised("AttributeError");
      }
      var h := board.value;
      if rules.isGameOver(h) {
        return Returned(false);
      }
      if !rules.isUci(move) {
        return Raised("ValueError");
      }
      if !rules.isLegal(h, move) {
        return Returned(false);
      }
      board := Some(h + [move]);
      r := Returned(true);
    }

    /** notify_game_end: the callback hears the result only when there is one. */
    method NotifyGameEnd(result: string)
      modifies this
      ensures events == if hasCallback then old(events) + [result] else old(events)
      ensures board == old(board) && gameMode == old(gameMode) && isGameActive == old(isGameActive)
    {
      if hasCallback {
        events := events + [result];
      }
    }

    /** end_game: resets the active flag, the board and the mode. */
    method EndGame()
      modifies this
      ensures !isGameActive && board == None && gameMode == None
      ensures events == old(events)
    {
      isGameActive, board, gameMode := false, None, None;
    }
  }
}
