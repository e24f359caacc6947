/**
 * The session coordinator of websocket_server/websocket-server.js: the
 * module-level state (admin, game mode, ongoing flag, the two player slots
 * and their colours), the move ledger, and the connection, message and close
 * handlers that change them. Connections are abstract ids; everything the
 * server sends is appended to an outbox.
 */
module Session {
  import opened Wrappers
  import opened Text
  import opened Ledger

  /** An open WebSocket connection. */
  type ConnId = nat

  /** A colour setting: `player1Color` starts as "random" until a colour is resolved. */
  datatype Color = White | Black | Random

  /** Messages the server sends; `MoveError` is the bare `{error: ...}` object of the move handlers. */
  datatype Msg =
    | RoleMsg(role: string)
    | UserConnected(username: string)
    | UserDisconnected(username: string)
    | PlayerList(usernames: set<string>)
    | GameState(rows: seq<Row>)
    | GameStarted(mode: string)
    | Info(message: string)
    | MoveError(error: string)

  /** One `send`, or one broadcast loop, addressed to the connections in `to`. */
  datatype Envelope = Envelope(to: set<ConnId>, msg: Msg)

  /**
   * A parsed JSON message: its `command` and the fields the commands read.
   * Its `targetWs` is not a field here: a value out of `JSON.parse` is never
   * a socket, so it never names a live connection.
   */
  datatype Message = Message(command: string, mode: string, color: string, move: string)

  /**
   * What `player2` holds: `null`, `undefined` (what `Array.find` gives when no
   * connection matches), or a connection. The handlers tell the first two
   * apart with `===`.
   */
  datatype Slot = Null | Undefined | Conn(id: ConnId)

  function ColorName(c: Color): string {
    match c
    case White => "white"
    case Black => "black"
    case Random => "random"
  }

  /** setColor's guard: only "white", "black" and "random" are colour choices. */
  function ParseColor(s: string): (c: Option<Color>)
    ensures c.Some? <==> s == "white" || s == "black" || s == "random"
    ensures c.Some? ==> ColorName(c.value) == s
  {
    if s == "white" then Some(White)
    else if s == "black" then Some(Black)
    else if s == "random" then Some(Random)
    else None
  }

  /** Player 2's colour given player 1's: `color === "white" ? "black" : "white"`. */
  function Opposite(c: Color): (o: Color)
    ensures c != Random ==> o != Random && o != c
  {
    if c == White then Black else White
  }

  /**
   * The colour setColor stores for player 1: a fixed choice is kept and
   * "random" becomes white exactly when the coin (`Math.random() < 0.5`) says so.
   */
  function Resolve(c: Color, coin: bool): (r: Color)
    ensures r != Random
    ensures c != Random ==> r == c
    ensures c == Random ==> (r == White <==> coin)
  {
    if c == Random then (if coin then White else Black) else c
  }

  /** The two colour variables agree: unresolved together, or opposite colours. */
  predicate ColorsAgree(c1: Color, c2: Option<Color>) {
    (c1 == Random && c2 == None) || (c1 != Random && c2 == Some(Opposite(c1)))
  }

  /** isGameReady: whether `admin.start_game` may start a game. */
  function IsGameReady(gamemode: Option<string>, ongoing: bool, p1: Option<ConnId>, p2: Slot): (ready: bool)
    ensures ready ==> !ongoing
    ensures ready ==> gamemode == Some("pvp") || gamemode == Some("pvb") || gamemode == Some("bvb")
    ensures ready && gamemode == Some("pvp") ==> p1.Some? && p2.Conn?
    ensures ready && gamemode == Some("pvb") ==> p1.Some?
    ensures !ongoing && gamemode == Some("bvb") ==> ready
    ensures !ongoing && gamemode == Some("pvb") && p1.Some? ==> ready
    ensures !ongoing && gamemode == Some("pvp") && p1.Some? && p2.Conn? ==> ready
  {
    if gamemode == Some("pvp") then !ongoing && p1.Some? && p2.Conn?
    else if gamemode == Some("pvb") then !ongoing && p1.Some?
    else if gamemode == Some("bvb") then !ongoing
    else false
  }

  /** The player_list: the non-empty usernames of the given open connections. */
  function KnownNames(conns: set<ConnId>, usernames: map<ConnId, string>): (names: set<string>)
    ensures forall d :: d in conns && d in usernames && usernames[d] != "" ==> usernames[d] in names
    ensures forall n :: n in names ==> n != "" && exists d :: d in conns && d in usernames && usernames[d] == n
  {
    set d | d in conns && d in usernames && usernames[d] != "" :: usernames[d]
  }

  class Coordinator {
    var clients: set<ConnId>             // wss.clients and the module's `clients`
    var usernames: map<ConnId, string>   // ws.lastUsernameConnected of every connection seen
    var admin: Option<ConnId>
    var gamemode: Option<string>
    var isGameOngoing: bool
    var player1: Option<ConnId>
    var player2: Slot
    var player1Color: Color
    var player2Color: Option<Color>
    var ledger: seq<Row>                 // the current_game table
    var nextMove: nat                    // the next value of its `move` identity column
    var outbox: seq<Envelope>

    /** Every role is held by a live connection, the players differ, and the ledger is well formed. */
    ghost predicate Valid()
      reads this
    {
      (admin.Some? ==> admin.value in clients) &&
      (player1.Some? ==> player1.value in clients) &&
      (player2.Conn? ==> player2.id in clients) &&
      (player1.Some? && player2.Conn? ==> player1.value != player2.id) &&
      ColorsAgree(player1Color, player2Color) &&
      WellFormed(ledger) && nextMove == |ledger| + 1
    }

    ghost function Roles(): (Option<ConnId>, Option<ConnId>, Slot)
      reads this
    {
      (admin, player1, player2)
    }

    ghost function Config(): (Option<string>, bool, Color, Option<Color>)
      reads this
    {
      (gamemode, isGameOngoing, player1Color, player2Color)
    }

    ghost function Table(): (seq<Row>, nat)
      reads this
    {
      (ledger, nextMove)
    }

    ghost function Connections(): (set<ConnId>, map<ConnId, string>)
      reads this
    {
      (clients, usernames)
    }

    /** Process start: no connections, no roles; `stored` is what current_game already holds. */
    constructor (stored: seq<Row>)
      requires WellFormed(stored)
      ensures Valid()
      ensures clients == {} && admin == None && gamemode == None && !isGameOngoing
      ensures player1 == None && player2 == Null && player1Color == Random && player2Color == None
      ensures ledger == stored && outbox == []
    {
      clients, usernames := {}, map[];
      admin, gamemode, isGameOngoing := None, None, false;
      player1, player2 := None, Null;
      player1Color, player2Color := Random, None;
      ledger, nextMove := stored, |stored| + 1;
      outbox := [];
    }

    /** transferAdmin: a no-op unless the target is a live connection, which then becomes admin. */
    method TransferAdmin(target: Option<ConnId>)
      modifies this
      ensures old(Valid()) ==> Valid()
      ensures target.Some? && target.value in clients ==>
                admin == target && outbox == old(outbox) + [Envelope({target.value}, RoleMsg("admin"))]
      ensures !(target.Some? && target.value in clients) ==> unchanged(this)
      ensures player1 == old(player1) && player2 == old(player2)
      ensures Config() == old(Config()) && Table() == old(Table()) && Connections() == old(Connections())
    {
      if target.Some? && target.value in clients {
        admin := target;
        outbox := outbox + [Envelope({target.value}, RoleMsg("admin"))];
      }
    }

    /**
     * What setGameMode does, between the state before and after: the mode is
     * stored; pvp makes the admin player 1 and some other live connection
     * player 2, or `undefined` when there is none; pvb makes the admin player
     * 1 and player 2 `null`; bvb sets both slots to `null`; any other mode
     * leaves them. Nothing else changes.
     */
    twostate predicate ModeApplied(mode: string)
      reads this
    {
      gamemode == Some(mode) &&
      (mode == "pvp" ==>
         old(admin).Some? && player1 == old(admin) &&
         (player2 == Undefined <==> old(clients) - {old(admin).value} == {}) &&
         (player2.Conn? ==> player2.id in old(clients) && player2.id != old(admin).value) &&
         player2 != Null &&
         outbox == old(outbox) + [Envelope({old(admin).value}, RoleMsg("player1"))] +
                   (if player2.Conn? then [Envelope({player2.id}, RoleMsg("player2"))] else [])) &&
      (mode == "pvb" ==>
         old(admin).Some? && player1 == old(admin) && player2 == Null &&
         outbox == old(outbox) + [Envelope({old(admin).value}, RoleMsg("player1"))]) &&
      (mode == "bvb" ==> player1 == None && player2 == Null && outbox == old(outbox)) &&
      (mode != "pvp" && mode != "pvb" && mode != "bvb" ==>
         player1 == old(player1) && player2 == old(player2) && outbox == old(outbox)) &&
      admin == old(admin) && isGameOngoing == old(isGameOngoing) &&
      player1Color == old(player1Color) && player2Color == old(player2Color) &&
      ledger == old(ledger) && nextMove == old(nextMove) &&
      clients == old(clients) && usernames == old(usernames)
    }

    /** setGameMode. The pvp and pvb branches send to `admin`, so the handler calls it only for the admin. */
    method SetGameMode(mode: string)
      requires Valid()
      requires mode == "pvp" || mode == "pvb" ==> admin.Some?
      modifies this
      ensures Valid() && ModeApplied(mode)
    {
      gamemode := Some(mode);
      if mode == "pvp" {
        player1 := admin;
        outbox := outbox + [Envelope({admin.value}, RoleMsg("player1"))];
        if exists d :: d in clients && d != admin.value {
          var d :| d in clients && d != admin.value;
          assert d in clients - {admin.value};
          player2 := Conn(d);
          outbox := outbox + [Envelope({d}, RoleMsg("player2"))];
        } else {
          assert clients - {admin.value} == {};
          player2 := Undefined;
        }
      } else if mode == "pvb" {
        player1 := admin;
        outbox := outbox + [Envelope({admin.value}, RoleMsg("player1"))];
        player2 := Null;
      } else if mode == "bvb" {
        player1 := None;
        player2 := Null;
      }
    }

    /**
     * What setColor does: a string outside white/black/random changes
     * nothing; otherwise player 1 gets the resolved colour and player 2 the
     * opposite. Nothing else changes and nothing is sent.
     */
    twostate predicate ColorApplied(color: string, coin: bool)
      reads this
    {
      (ParseColor(color).None? ==> player1Color == old(player1Color) && player2Color == old(player2Color)) &&
      (ParseColor(color).Some? ==>
         player1Color == Resolve(ParseColor(color).value, coin) && player2Color == Some(Opposite(player1Color))) &&
      gamemode == old(gamemode) && isGameOngoing == old(isGameOngoing) &&
      admin == old(admin) && player1 == old(player1) && player2 == old(player2) &&
      ledger == old(ledger) && nextMove == old(nextMove) &&
      clients == old(clients) && usernames == old(usernames) && outbox == old(outbox)
    }

    /** setColor: reports whether the colour was a valid choice. */
    method SetColor(color: string, coin: bool) returns (valid: bool)
      requires Valid()
      modifies this
      ensures Valid()
      ensures valid <==> ParseColor(color).Some?
      ensures ColorApplied(color, coin)
    {
      var choice := ParseColor(color);
      if choice.None? {
        return false;
      }
      var c := Resolve(choice.value, coin);
      player1Color := c;
      player2Color := Some(Opposite(c));
      valid := true;
    }

    /** resetGame: `TRUNCATE TABLE current_game RESTART IDENTITY`; the result does not depend on the old table. */
    method ResetGame()
      requires Valid()
      modifies this
      ensures Valid()
      ensures ledger == [] && nextMove == 1
      ensures Config() == old(Config()) && Roles() == old(Roles()) && Connections() == old(Connections())
      ensures outbox == old(outbox)
    {
      ledger, nextMove := [], 1;
    }

    /** Seats, modes, colours and connections are as they were. */
    twostate predicate SeatsKept()
      reads this
    {
      admin == old(admin) && gamemode == old(gamemode) && isGameOngoing == old(isGameOngoing) &&
      player1 == old(player1) && player2 == old(player2) &&
      player1Color == old(player1Color) && player2Color == old(player2Color) &&
      clients == old(clients) && usernames == old(usernames)
    }

    /**
     * What handleWhiteMove does: on refusal the sender alone gets the error
     * and the ledger is unchanged; on acceptance one row is inserted and the
     * new table is broadcast to every connection.
     */
    twostate predicate WhitePlayed(sender: ConnId, move: string)
      reads this
    {
      var v := WhiteMove(old(ledger), old(nextMove), move);
      (v.Refused? ==> ledger == old(ledger) && nextMove == old(nextMove) &&
                      outbox == old(outbox) + [Envelope({sender}, MoveError(v.message))]) &&
      (v.Accepted? ==> ledger == v.rows && nextMove == old(nextMove) + 1 &&
                       outbox == old(outbox) + [Envelope(clients, GameState(ledger))]) &&
      SeatsKept()
    }

    /**
     * What handleBlackMove does: on refusal the sender alone gets the error;
     * on acceptance the last row gets Black's half and the table is broadcast.
     */
    twostate predicate BlackPlayed(sender: ConnId, move: string)
      reads this
    {
      var v := BlackMove(old(ledger), move);
      (v.Refused? ==> ledger == old(ledger) &&
                      outbox == old(outbox) + [Envelope({sender}, MoveError(v.message))]) &&
      (v.Accepted? ==> ledger == v.rows &&
                       outbox == old(outbox) + [Envelope(clients, GameState(ledger))]) &&
      nextMove == old(nextMove) && SeatsKept()
    }

    method HandleWhiteMove(sender: ConnId, move: string)
      requires Valid()
      modifies this
      ensures Valid() && WhitePlayed(sender, move)
    {
      var v := WhiteMove(ledger, nextMove, move);
      if v.Refused? {
        outbox := outbox + [Envelope({sender}, MoveError(v.message))];
      } else {
        WhiteMovePreservesWellFormed(ledger, move);
        ledger, nextMove := v.rows, nextMove + 1;
        outbox := outbox + [Envelope(clients, GameState(ledger))];
      }
    }

    method HandleBlackMove(sender: ConnId, move: string)
      requires Valid()
      modifies this
      ensures Valid() && BlackPlayed(sender, move)
    {
      var v := BlackMove(ledger, move);
      if v.Refused? {
        outbox := outbox + [Envelope({sender}, MoveError(v.message))];
      } else {
        BlackMovePreservesWellFormed(ledger, move);
        ledger := v.rows;
        outbox := outbox + [Envelope(clients, GameState(ledger))];
      }
    }

    /**
     * What the `admin.start_game` branch does: the ledger is emptied, player
     * 1's colour re-applied (resolving "random" the first time) and player
     * 2's set opposite, the game marked ongoing and announced to everyone.
     */
    twostate predicate Started(coin: bool)
      reads this
    {
      old(gamemode).Some? &&
      ledger == [] && nextMove == 1 && isGameOngoing &&
      player1Color == Resolve(old(player1Color), coin) && player2Color == Some(Opposite(player1Color)) &&
      gamemode == old(gamemode) && admin == old(admin) && player1 == old(player1) && player2 == old(player2) &&
      clients == old(clients) && usernames == old(usernames) &&
      outbox == old(outbox) + [Envelope(clients, GameStarted(gamemode.value))]
    }

    method StartGame(coin: bool)
      requires Valid()
      requires IsGameReady(gamemode, isGameOngoing, player1, player2)
      modifies this
      ensures Valid() && Started(coin)
    {
      ResetGame();
      var _ := SetColor(ColorName(player1Color), coin);
      isGameOngoing := true;
      outbox := outbox + [Envelope(clients, GameStarted(gamemode.value))];
    }

    /** endGame: clears the ongoing flag and both player slots; the PGN it computes is returned here. */
    method EndGame(gameResult: string) returns (pgn: string)
      requires Valid()
      modifies this
      ensures Valid()
      ensures !isGameOngoing && player1 == None && player2 == Null
      ensures pgn == Pgn(ledger, gameResult)
      ensures admin == old(admin) && gamemode == old(gamemode)
      ensures player1Color == old(player1Color) && player2Color == old(player2Color)
      ensures Table() == old(Table()) && Connections() == old(Connections()) && outbox == old(outbox)
    {
      isGameOngoing := false;
      player1, player2 := None, Null;
      pgn := Pgn(ledger, gameResult);
    }

    /** Whether an admin command from `sender` passes the handler's gate. */
    ghost predicate AdminActs(sender: ConnId, data: Message)
      reads this
    {
      admin == Some(sender) &&
      ((data.command == "admin.set_mode" && !isGameOngoing) ||
       (data.command == "admin.set_color" && !isGameOngoing) ||
       (data.command == "admin.start_game" && IsGameReady(gamemode, isGameOngoing, player1, player2)) ||
       data.command == "admin.transfer_admin")
    }

    /** What a command that passed the admin gate does. `transferAdmin` of a parsed value is a no-op. */
    twostate predicate AdminApplied(data: Message, coin: bool)
      reads this
    {
      (data.command == "admin.set_mode" ==> ModeApplied(data.mode)) &&
      (data.command == "admin.set_color" ==> ColorApplied(data.color, coin)) &&
      (data.command == "admin.start_game" ==> Started(coin)) &&
      (data.command == "admin.transfer_admin" ==> unchanged(this))
    }

    /** Whether a move command from `sender` is routed: a player during a game, naming that player's colour. */
    ghost predicate RoutesMove(sender: ConnId, data: Message)
      reads this
    {
      isGameOngoing &&
      if player1 == Some(sender) then
        (player1Color == White && data.command == "white_move") ||
        (player1Color == Black && data.command == "black_move")
      else
        player2 == Conn(sender) &&
        ((player2Color == Some(White) && data.command == "white_move") ||
         (player2Color == Some(Black) && data.command == "black_move"))
    }

    /** What a routed move does: the handler of the colour the command names. */
    twostate predicate MovePlayed(sender: ConnId, data: Message)
      reads this
    {
      (data.command == "white_move" ==> WhitePlayed(sender, data.move)) &&
      (data.command == "black_move" ==> BlackPlayed(sender, data.move))
    }

    /** The admin-specific commands of the message handler. */
    method AdminCommand(sender: ConnId, data: Message, coin: bool)
      requires Valid() && admin == Some(sender)
      modifies this
      ensures Valid()
      ensures !old(AdminActs(sender, data)) ==> unchanged(this)
      ensures old(AdminActs(sender, data)) ==> AdminApplied(data, coin)
    {
      if data.command == "admin.set_mode" && !isGameOngoing {
        SetGameMode(data.mode);
      } else if data.command == "admin.set_color" && !isGameOngoing {
        var _ := SetColor(data.color, coin);
      } else if data.command == "admin.start_game" && IsGameReady(gamemode, isGameOngoing, player1, player2) {
        StartGame(coin);
      } else if data.command == "admin.transfer_admin" {
        TransferAdmin(None);
      }
    }

    /** The player-specific commands of the message handler. */
    method RouteMove(sender: ConnId, data: Message)
      requires Valid()
      modifies this
      ensures Valid()
      ensures !old(RoutesMove(sender, data)) ==> unchanged(this)
      ensures old(RoutesMove(sender, data)) ==> MovePlayed(sender, data)
    {
      if player1 == Some(sender) && isGameOngoing {
        if player1Color == White && data.command == "white_move" {
          HandleWhiteMove(sender, data.move);
        } else if player1Color == Black && data.command == "black_move" {
          HandleBlackMove(sender, data.move);
        }
      } else if player2 == Conn(sender) && isGameOngoing {
        if player2Color == Some(White) && data.command == "white_move" {
          HandleWhiteMove(sender, data.move);
        } else if player2Color == Some(Black) && data.command == "black_move" {
          HandleBlackMove(sender, data.move);
        }
      }
    }

    /**
     * The message handler. `msg` is None when the payload is not JSON.
     * Admin commands act only for the admin and, for mode and colour, only
     * between games; moves are routed only from the player whose colour the
     * command names, during a game. Every other message changes nothing, and
     * no message changes the admin or the connections.
     */
    method OnMessage(sender: ConnId, msg: Option<Message>, coin: bool)
      requires Valid()
      modifies this
      ensures Valid()
      ensures msg.None? ==> unchanged(this)
      ensures msg.Some? && !old(AdminActs(sender, msg.value)) && !old(RoutesMove(sender, msg.value)) ==>
                unchanged(this)
      ensures msg.Some? && old(AdminActs(sender, msg.value)) ==> AdminApplied(msg.value, coin)
      ensures msg.Some? && old(RoutesMove(sender, msg.value)) ==> MovePlayed(sender, msg.value)
      ensures admin == old(admin) && Connections() == old(Connections())
    {
      if msg.None? {
        return;
      }
      var data := msg.value;
      if admin == Some(sender) {
        AdminCommand(sender, data, coin);
      }
      RouteMove(sender, data);
    }

    /**
     * The close handler: the others hear of the departure, and each of
     * admin, player 1 and player 2 held by the closing connection becomes
     * `null`. No one is promoted to admin: the handler passes `clients[0]`,
     * which is undefined on a Set, to transferAdmin.
     */
    method OnClose(c: ConnId)
      requires Valid()
      modifies this
      ensures Valid()
      ensures clients == old(clients) - {c} && usernames == old(usernames)
      ensures admin == (if old(admin) == Some(c) then None else old(admin))
      ensures player1 == (if old(player1) == Some(c) then None else old(player1))
      ensures player2 == (if old(player2) == Conn(c) then Null else old(player2))
      ensures Config() == old(Config()) && Table() == old(Table())
      ensures outbox == old(outbox) +
                (if c in old(usernames) && old(usernames)[c] != ""
                 then [Envelope(old(clients) - {c}, UserDisconnected(old(usernames)[c]))] else [])
    {
      var notice := if c in usernames && usernames[c] != ""
                    then [Envelope(clients - {c}, UserDisconnected(usernames[c]))] else [];
      outbox, clients := outbox + notice, clients - {c};
      player1 := if player1 == Some(c) then None else player1;
      player2 := if player2 == Conn(c) then Null else player2;
      if admin == Some(c) {
        admin := None;
        if |clients| > 0 {
          TransferAdmin(None);
        }
      }
    }

    /**
     * The connection handler. `identity` is the verified user's name, or
     * None when the token is missing or invalid or names no user, in which
     * case the connection is closed and nothing else happens. An admin-hinted
     * connection becomes admin only if there is none; the later "player2"
     * role message, sent only while player 2 is `null` (not `undefined`),
     * assigns no slot.
     */
    method OnConnect(c: ConnId, isAdminHint: bool, identity: Option<string>)
      requires Valid() && c !in clients
      modifies this
      ensures Valid()
      ensures identity.None? ==> unchanged(this)
      ensures identity.Some? ==>
                clients == old(clients) + {c} && usernames == old(usernames)[c := identity.value] &&
                admin == (if isAdminHint && old(admin).None? then Some(c) else old(admin))
      ensures identity.Some? ==>
                var first := if !isAdminHint then "guest" else if old(admin).None? then "admin" else "spectator";
                var second := if admin.Some? && gamemode == Some("pvp") && player2 == Null then "player2" else "spectator";
                outbox == old(outbox) + [
                  Envelope({c}, RoleMsg(first)),
                  Envelope(clients, UserConnected(identity.value)),
                  Envelope({c}, PlayerList(KnownNames(clients, usernames))),
                  Envelope({c}, RoleMsg(second)),
                  Envelope({c}, GameState(ledger)),
                  Envelope({c}, Info("You are client #" + Decimal(|clients|)))]
      ensures player1 == old(player1) && player2 == old(player2)
      ensures Config() == old(Config()) && Table() == old(Table())
    {
      if identity.None? {
        return;
      }
      var name := identity.value;
      var first := "guest";
      if isAdminHint {
        if admin.None? {
          admin := Some(c);
          first := "admin";
        } else {
          first := "spectator";
        }
      }
      usernames := usernames[c := name];
      var names := KnownNames(clients + {c}, usernames);
      var second := if admin.Some? && gamemode == Some("pvp") && player2 == Null then "player2" else "spectator";
      clients := clients + {c};
      outbox := outbox + [
        Envelope({c}, RoleMsg(first)),
        Envelope(clients, UserConnected(name)),
        Envelope({c}, PlayerList(names)),
        Envelope({c}, RoleMsg(second)),
        Envelope({c}, GameState(ledger)),
        Envelope({c}, Info("You are client #" + Decimal(|clients|)))];
    }
  }
}
