/**
 * The older two-player relay of websocket_server/server.js: at most two
 * connections are admitted, and a `move` message stores its PGN and relays
 * it to both.
 */
module Relay {
  import opened Wrappers

  /** An open WebSocket connection. */
  type ConnId = nat

  /** What the relay sends. */
  datatype Msg = Update(pgn: string) | Error(message: string)

  /** One `send` to one connection. */
  datatype Envelope = Envelope(to: ConnId, msg: Msg)

  /** A parsed JSON message: its `type` and `pgn` fields. */
  datatype Message = Message(kind: string, pgn: string)

  /** The list `clients.filter(client => client !== c)`: every occurrence of `c` dropped, the rest in order. */
  function Without(s: seq<ConnId>, c: ConnId): (r: seq<ConnId>)
    ensures c !in r
    ensures forall d :: d != c ==> multiset(r)[d] == multiset(s)[d]
    ensures |r| <= |s|
  {
    if s == [] then []
    else
      assert s == s[..|s| - 1] + [s[|s| - 1]];
      Without(s[..|s| - 1], c) + (if s[|s| - 1] == c then [] else [s[|s| - 1]])
  }

  /** Filtering distributes over concatenation, so the survivors keep their relative order. */
  lemma {:induction false} WithoutAppend(a: seq<ConnId>, b: seq<ConnId>, c: ConnId)
    ensures Without(a + b, c) == Without(a, c) + Without(b, c)
  {
    if b == [] {
      assert a + b == a;
    } else {
      var b' := b[..|b| - 1];
      assert (a + b)[..|a + b| - 1] == a + b';
      assert (a + b)[|a + b| - 1] == b[|b| - 1];
      WithoutAppend(a, b', c);
    }
  }

  /** A list without `c` is left as it is. */
  lemma {:induction false} WithoutAbsent(s: seq<ConnId>, c: ConnId)
    requires c !in s
    ensures Without(s, c) == s
  {
    if s != [] {
      WithoutAbsent(s[..|s| - 1], c);
      assert s == s[..|s| - 1] + [s[|s| - 1]];
    }
  }

  /** The `forEach` that sends `{type: 'update', pgn}` to every registered client, in list order. */
  method Broadcast(clients: seq<ConnId>, pgn: string) returns (sent: seq<Envelope>)
    ensures |sent| == |clients|
    ensures forall i :: 0 <= i < |clients| ==> sent[i] == Envelope(clients[i], Update(pgn))
  {
    sent := [];
    for i := 0 to |clients|
      invariant |sent| == i
      invariant forall k :: 0 <= k < i ==> sent[k] == Envelope(clients[k], Update(pgn))
    {
      sent := sent + [Envelope(clients[i], Update(pgn))];
    }
  }

  class RelayServer {
    var clients: seq<ConnId>
    var storedPgn: Option<string>   // current_game.pgn of the row with id 1; None when there is no such row
    var outbox: seq<Envelope>

    ghost predicate Valid()
      reads this
    {
      |clients| <= 2
    }

    /** Process start; `stored` is the row with id 1 as the database already holds it. */
    constructor (stored: Option<string>)
      ensures Valid() && clients == [] && storedPgn == stored && outbox == []
    {
      clients, storedPgn, outbox := [], stored, [];
    }

    /**
     * A new connection: with two clients registered it is told 'Server
     * full' and closed, the list unchanged; otherwise it is appended.
     */
    method OnConnection(c: ConnId) returns (admitted: bool)
      requires Valid()
      modifies this
      ensures Valid()
      ensures admitted <==> |old(clients)| < 2
      ensures admitted ==> clients == old(clients) + [c] && outbox == old(outbox)
      ensures !admitted ==> clients == old(clients) && outbox == old(outbox) + [Envelope(c, Error("Server full"))]
      ensures storedPgn == old(storedPgn)
    {
      if |clients| >= 2 {
        outbox := outbox + [Envelope(c, Error("Server full"))];
        return false;
      }
      clients := clients + [c];
      admitted := true;
    }

    /**
     * A message. `msg` is None when the payload is not JSON, and `stored`
     * says whether the database update succeeded; either failure sends
     * 'Invalid request' to the sender only. A `move` stores its PGN and
     * relays it to every client; the UPDATE changes nothing when there is
     * no row with id 1. Any other type does nothing.
     */
    method OnMessage(sender: ConnId, msg: Option<Message>, stored: bool)
      requires Valid() && sender in clients   // the handler is registered only after the push
      modifies this
      ensures Valid() && clients == old(clients)
      ensures msg.None? || (msg.value.kind == "move" && !stored) ==>
                storedPgn == old(storedPgn) && outbox == old(outbox) + [Envelope(sender, Error("Invalid request"))]
      ensures msg.Some? && msg.value.kind == "move" && stored ==>
                storedPgn == (if old(storedPgn).Some? then Some(msg.value.pgn) else None) &&
                |outbox| == |old(outbox)| + |clients| && outbox[..|old(outbox)|] == old(outbox) &&
                forall i :: 0 <= i < |clients| ==> outbox[|old(outbox)| + i] == Envelope(clients[i], Update(msg.value.pgn))
      ensures msg.Some? && msg.value.kind != "move" ==> storedPgn == old(storedPgn) && outbox == old(outbox)
    {
      if msg.None? {
        outbox := outbox + [Envelope(sender, Error("Invalid request"))];
        return;
      }
      var data := msg.value;
      if data.kind == "move" {
        if !stored {
          outbox := outbox + [Envelope(sender, Error("Invalid request"))];
          return;
        }
        if storedPgn.Some? {
          storedPgn := Some(data.pgn);
        }
        var sent := Broadcast(clients, data.pgn);
        outbox := outbox + sent;
      }
    }

    /** A closed connection leaves the list; the others stay, in order. */
    method OnClose(c: ConnId)
      requires Valid()
      modifies this
      ensures Valid()
      ensures clients == Without(old(clients), c)
      ensures storedPgn == old(storedPgn) && outbox == old(outbox)
    {
      clients := Without(clients, c);
    }
  }
}
