/**
 * BoardManager of raspberrypi_code/board/board_manager.py: the lift/place
 * state machine on `lifted_square`, fed with the squares a sensor scan saw
 * a piece leave and appear on, and the LED commands it issues.
 *
 * `clear_lights` calls itself with no base case, so in Python it ends in a
 * RecursionError; every path through it is modelled as an operation that
 * does not complete (`completed == false`). Only `set_led` commands that are
 * actually reached are recorded.
 */
module Board {
  import opened Wrappers
  import BoardGame

  /** CPython's default recursion limit, the depth at which clear_lights stops. */
  const RecursionLimit: nat := 1000

  class BoardManager {
    const game: BoardGame.GameManager
    var liftedSquare: Option<string>
    var leds: seq<string>                // set_led commands issued, in order

    constructor (game: BoardGame.GameManager)
      ensures this.game == game && liftedSquare == None && leds == []
    {
      this.game := game;
      liftedSquare, leds := None, [];
    }

    /**
     * clear_lights: calls itself with no base case; at `depth` frames below
     * the interpreter's recursion limit the call raises RecursionError,
     * having lit nothing.
     */
    method ClearLights(depth: nat) returns (completed: bool)
      requires depth <= RecursionLimit
      ensures !completed
      decreases RecursionLimit - depth
    {
      if depth == RecursionLimit {
        return false;
      }
      completed := ClearLights(depth + 1);
    }

    /**
     * validate_move: asks the game manager; a rejected move lights both
     * squares red ("r" + square) and returns, an accepted one goes on to
     * clear_lights and so does not complete.
     */
    method ValidateMove(start: string, end: string) returns (completed: bool)
      modifies this, game
      ensures var legal := old(game.board).Some? && game.rules.isUci(start + end) &&
                           game.rules.isLegal(old(game.board).value, start + end);
              completed == !legal &&
              game.board == (if legal then Some(old(game.board).value + [start + end]) else old(game.board)) &&
              leds == (if legal then old(leds) else old(leds) + ["r" + start, "r" + end])
      ensures game.gameMode == old(game.gameMode) && game.isGameActive == old(game.isGameActive)
      ensures game.events == old(game.events)
      ensures liftedSquare == old(liftedSquare)
    {
      var isValid := game.ValidateMove(start, end);
      if isValid {
        completed := ClearLights(0);
      } else {
        leds := leds + ["r" + start, "r" + end];
        completed := true;
      }
    }

    /**
     * update_board: one square left and none appeared records it as lifted
     * (show_legal_moves then runs into clear_lights); one square appeared,
     * none left and a lifted square present validates the move from the
     * lifted square and, if validation completes, forgets the lifted square;
     * every other combination changes nothing.
     */
    method UpdateBoard(leaves: seq<string>, appears: seq<string>) returns (completed: bool)
      modifies this, game
      ensures |leaves| == 1 && |appears| == 0 ==>
                liftedSquare == Some(leaves[0]) && !completed &&
                leds == old(leds) && game.board == old(game.board)
      ensures |leaves| == 0 && |appears| == 1 && old(liftedSquare).Some? ==>
                var start, end := old(liftedSquare).value, appears[0];
                var legal := old(game.board).Some? && game.rules.isUci(start + end) &&
                             game.rules.isLegal(old(game.board).value, start + end);
                completed == !legal &&
                liftedSquare == (if legal then old(liftedSquare) else None) &&
                game.board == (if legal then Some(old(game.board).value + [start + end]) else old(game.board)) &&
                leds == (if legal then old(leds) else old(leds) + ["r" + start, "r" + end])
      ensures !(|leaves| == 1 && |appears| == 0) && !(|leaves| == 0 && |appears| == 1 && old(liftedSquare).Some?) ==>
                completed && liftedSquare == old(liftedSquare) && leds == old(leds) && game.board == old(game.board)
      ensures game.gameMode == old(game.gameMode) && game.isGameActive == old(game.isGameActive)
      ensures game.events == old(game.events)
    {
      if |leaves| == 1 && |appears| == 0 {
        liftedSquare := Some(leaves[0]);
        completed := ClearLights(0);   // show_legal_moves starts with clear_lights
      } else if |leaves| == 0 && |appears| == 1 && liftedSquare.Some? {
        completed := ValidateMove(liftedSquare.value, appears[0]);
        if completed {
          liftedSquare := None;
        }
      } else {
        completed := true;
      }
    }
  }
}
