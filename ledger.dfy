/**
 * The move ledger of websocket_server/websocket-server.js: the `current_game`
 * table, one row per move number holding White's half-move and, once played,
 * Black's. The table is only ever read at its last row, appended to by
 * White, updated at its last row by Black and truncated; the functions here
 * say what each of those does to the rows, and getPGN's serialisation.
 */
module Ledger {
  import opened Wrappers
  import opened Text

  /** One row of `current_game`: columns `move`, `white_halfmove`, `black_halfmove`. */
  datatype Row = Row(move: nat, white: string, black: Option<string>)

  /** What a move handler does with a move: a new table, or the error it sends back. */
  datatype Verdict = Accepted(rows: seq<Row>) | Refused(message: string)

  /**
   * The turn protocol's invariant: the rows are numbered 1..n in order and
   * every row except possibly the last has both half-moves.
   */
  predicate WellFormed(rows: seq<Row>) {
    (forall i :: 0 <= i < |rows| ==> rows[i].move == i + 1) &&
    (forall i :: 0 <= i < |rows| - 1 ==> rows[i].black.Some?)
  }

  /** `SELECT * FROM current_game ORDER BY move DESC LIMIT 1`; rows are kept in insertion order. */
  function Latest(rows: seq<Row>): (r: Option<Row>)
    ensures r.None? <==> rows == []
  {
    if rows == [] then None else Some(rows[|rows| - 1])
  }

  /** In a well-formed ledger the row kept last is the one with the largest move number. */
  lemma LatestHasLargestNumber(rows: seq<Row>, i: nat)
    requires WellFormed(rows) && i < |rows|
    ensures Latest(rows).Some? && rows[i].move <= Latest(rows).value.move
    ensures rows[i].move == Latest(rows).value.move ==> i == |rows| - 1
  {
  }

  /**
   * handleWhiteMove: refused while the last row still waits for Black,
   * otherwise one row `(id, move, null)` is inserted, where `id` is the next
   * value of the table's identity sequence.
   */
  function WhiteMove(rows: seq<Row>, id: nat, move: string): (v: Verdict)
    ensures v.Refused? <==> |rows| > 0 && rows[|rows| - 1].black.None?
    ensures v.Refused? ==> v.message == "Wait for Black to move!"
    ensures v.Accepted? ==>
              |v.rows| == |rows| + 1 && v.rows[..|rows|] == rows &&
              v.rows[|rows|] == Row(id, move, None)
  {
    var last := Latest(rows);
    if last.Some? && last.value.black.None? then Refused("Wait for Black to move!")
    else Accepted(rows + [Row(id, move, None)])
  }

  /** `UPDATE current_game SET black_halfmove = move WHERE move = n`. */
  function SetBlackWhere(rows: seq<Row>, n: nat, move: string): (r: seq<Row>)
    ensures |r| == |rows|
    ensures forall i :: 0 <= i < |rows| && rows[i].move != n ==> r[i] == rows[i]
    ensures forall i :: 0 <= i < |rows| && rows[i].move == n ==> r[i] == rows[i].(black := Some(move))
  {
    seq(|rows|, i requires 0 <= i < |rows| =>
      if rows[i].move == n then rows[i].(black := Some(move)) else rows[i])
  }

  /**
   * handleBlackMove: refused on an empty table or when the last row already
   * has Black's half; otherwise the row carrying the last row's number gets
   * Black's half-move.
   */
  function BlackMove(rows: seq<Row>, move: string): (v: Verdict)
    ensures v.Refused? <==> rows == [] || rows[|rows| - 1].black.Some?
    ensures rows == [] ==> v == Refused("White must move first!")
    ensures rows != [] && rows[|rows| - 1].black.Some? ==> v == Refused("Wait for White to move!")
  {
    match Latest(rows)
    case None => Refused("White must move first!")
    case Some(last) =>
      if last.black.Some? then Refused("Wait for White to move!")
      else Accepted(SetBlackWhere(rows, last.move, move))
  }

  /** In a well-formed ledger Black's update touches the last row and no other. */
  lemma BlackMoveFillsLastRow(rows: seq<Row>, move: string)
    requires WellFormed(rows)
    requires BlackMove(rows, move).Accepted?
    ensures var r := BlackMove(rows, move).rows;
            |r| == |rows| && r[..|rows| - 1] == rows[..|rows| - 1] &&
            r[|rows| - 1] == rows[|rows| - 1].(black := Some(move))
  {
    var r := BlackMove(rows, move).rows;
    forall i | 0 <= i < |rows| - 1
      ensures r[i] == rows[i]
    {
      assert rows[i].move == i + 1 != |rows|;
    }
  }

  /** On a well-formed ledger waiting for Black, Black's move is accepted and fills the last row. */
  lemma BlackMoveOnWaitingRow(rows: seq<Row>, move: string)
    requires WellFormed(rows) && rows != [] && rows[|rows| - 1].black.None?
    ensures BlackMove(rows, move) ==
            Accepted(rows[..|rows| - 1] + [rows[|rows| - 1].(black := Some(move))])
  {
    BlackMoveFillsLastRow(rows, move);
    var r := BlackMove(rows, move).rows;
    assert r == r[..|rows| - 1] + [r[|rows| - 1]];
  }

  /** Accepted white moves keep the ledger well formed when `id` is the next number. */
  lemma WhiteMovePreservesWellFormed(rows: seq<Row>, move: string)
    requires WellFormed(rows)
    requires WhiteMove(rows, |rows| + 1, move).Accepted?
    ensures WellFormed(WhiteMove(rows, |rows| + 1, move).rows)
  {
  }

  /** Accepted black moves keep the ledger well formed. */
  lemma BlackMovePreservesWellFormed(rows: seq<Row>, move: string)
    requires WellFormed(rows)
    requires BlackMove(rows, move).Accepted?
    ensures WellFormed(BlackMove(rows, move).rows)
  {
    BlackMoveFillsLastRow(rows, move);
  }

  /** At every point of a game exactly one of the two colours may move. */
  lemma ExactlyOneSideMayMove(rows: seq<Row>, white: string, black: string)
    ensures WhiteMove(rows, |rows| + 1, white).Accepted? != BlackMove(rows, black).Accepted?
  {
  }

  /**
   * The ledger a game's half-moves should produce: half-move 2i is White's
   * half of row i + 1 and half-move 2i + 1 is Black's.
   */
  function Expected(halves: seq<string>): (rows: seq<Row>)
    ensures |rows| == (|halves| + 1) / 2
  {
    seq((|halves| + 1) / 2, i requires 0 <= i < (|halves| + 1) / 2 =>
      Row(i + 1, halves[2 * i], if 2 * i + 1 < |halves| then Some(halves[2 * i + 1]) else None))
  }

  /**
   * Feeding half-moves alternately to the White and Black handlers, starting
   * from the empty table that a reset leaves: `Some(rows)` when every one is
   * accepted, `None` when one is refused.
   */
  function Replay(halves: seq<string>): Option<seq<Row>>
  {
    if halves == [] then Some([])
    else
      match Replay(halves[..|halves| - 1])
      case None => None
      case Some(rows) =>
        var v := if |halves| % 2 == 1 then WhiteMove(rows, |rows| + 1, halves[|halves| - 1])
                 else BlackMove(rows, halves[|halves| - 1]);
        if v.Accepted? then Some(v.rows) else None
  }

  /** The expected rows are numbered 1..n and only the last can lack Black's half. */
  lemma ExpectedIsWellFormed(halves: seq<string>)
    ensures WellFormed(Expected(halves))
  {
  }

  /** An odd number of half-moves ends with White's: one more row, Black's half empty. */
  lemma ExpectedAfterWhite(halves: seq<string>)
    requires |halves| % 2 == 1
    ensures var init := halves[..|halves| - 1];
            Expected(halves) == Expected(init) + [Row(|init| / 2 + 1, halves[|halves| - 1], None)]
  {
    var init := halves[..|halves| - 1];
    var a, b := Expected(halves), Expected(init) + [Row(|init| / 2 + 1, halves[|halves| - 1], None)];
    assert |a| == |b|;
    forall i | 0 <= i < |a|
      ensures a[i] == b[i]
    {
      if i < |a| - 1 {
        assert 2 * i + 1 < |init|;
      }
    }
  }

  /** An even, non-zero number of half-moves ends with Black's: it fills the last row. */
  lemma ExpectedAfterBlack(halves: seq<string>)
    requires |halves| % 2 == 0 && halves != []
    ensures var init := halves[..|halves| - 1];
            var e := Expected(init);
            e != [] && e[|e| - 1].black.None? &&
            Expected(halves) == e[..|e| - 1] + [e[|e| - 1].(black := Some(halves[|halves| - 1]))]
  {
    var init := halves[..|halves| - 1];
    var e := Expected(init);
    var a, b := Expected(halves), e[..|e| - 1] + [e[|e| - 1].(black := Some(halves[|halves| - 1]))];
    assert |a| == |b|;
    forall i | 0 <= i < |a|
      ensures a[i] == b[i]
    {
      if i < |a| - 1 {
        assert 2 * i + 1 < |init|;
      }
    }
  }

  /**
   * Turn alternation: half-moves played alternately from a reset table are
   * all accepted, and the table then holds exactly the expected rows.
   */
  lemma {:induction false} AlternatingPlayIsAccepted(halves: seq<string>)
    ensures Replay(halves) == Some(Expected(halves))
    ensures WellFormed(Expected(halves))
  {
    ExpectedIsWellFormed(halves);
    if halves != [] {
      var init := halves[..|halves| - 1];
      AlternatingPlayIsAccepted(init);
      var rows := Expected(init);
      var m := halves[|halves| - 1];
      if |halves| % 2 == 1 {
        ExpectedAfterWhite(halves);
      } else {
        ExpectedAfterBlack(halves);
        BlackMoveOnWaitingRow(rows, m);
      }
    }
  }

  // ---------------------------------------------------------------------
  // getPGN

  /** One row as getPGN prints it: `N.white black `, a missing half printed as "". */
  function RowText(r: Row): (t: string)
    ensures |t| >= 4 && t[|t| - 1] == ' '
  {
    Decimal(r.move) + "." + r.white + " " + (if r.black.Some? then r.black.value else "") + " "
  }

  /** The rows' texts concatenated in move order (getPGN's accumulation loop). */
  function MovesText(rows: seq<Row>): (m: string)
    ensures |m| >= 4 * |rows|
  {
    if rows == [] then "" else MovesText(rows[..|rows| - 1]) + RowText(rows[|rows| - 1])
  }

  /** The termination marker appended for a game result, as in section 8.2.6 of the PGN standard. */
  function ResultMarker(gameResult: string): (m: string)
    ensures gameResult == "WHITE_WIN" ==> m == "1-0"
    ensures gameResult == "BLACK_WIN" ==> m == "0-1"
    ensures gameResult == "DRAW" || gameResult == "STALEMATE" ==> m == "1/2-1/2"
    ensures m == "" <==> gameResult !in {"WHITE_WIN", "BLACK_WIN", "DRAW", "STALEMATE"}
  {
    if gameResult == "WHITE_WIN" then "1-0"
    else if gameResult == "BLACK_WIN" then "0-1"
    else if gameResult == "DRAW" || gameResult == "STALEMATE" then "1/2-1/2"
    else ""
  }

  /** getPGN: the move text of the whole ledger followed by the result marker. */
  function Pgn(rows: seq<Row>, gameResult: string): (p: string)
    ensures MarkerOf(p) == ResultMarker(gameResult)
  {
    MovesTextEndsWithSpace(rows);
    MovesText(rows) + ResultMarker(gameResult)
  }

  /** Appending one row appends its text. */
  lemma MovesTextSnoc(rows: seq<Row>, r: Row)
    ensures MovesText(rows + [r]) == MovesText(rows) + RowText(r)
  {
    assert (rows + [r])[..|rows|] == rows;
  }

  /** The move text of a ledger split in two is the two move texts joined. */
  lemma {:induction false} MovesTextAppend(a: seq<Row>, b: seq<Row>)
    ensures MovesText(a + b) == MovesText(a) + MovesText(b)
  {
    if b == [] {
      assert a + b == a;
    } else {
      var b', last := b[..|b| - 1], b[|b| - 1];
      assert b == b' + [last];
      assert a + b == (a + b') + [last];
      MovesTextAppend(a, b');
      MovesTextSnoc(a + b', last);
      MovesTextSnoc(b', last);
    }
  }

  /** The move text is the rows' texts in order: row i's text starts where the first i rows' text ends. */
  lemma MovesTextHasRowAt(rows: seq<Row>, i: nat)
    requires i < |rows|
    ensures var prefix := MovesText(rows[..i]);
            var text := RowText(rows[i]);
            |prefix| + |text| <= |MovesText(rows)| &&
            MovesText(rows)[|prefix|..|prefix| + |text|] == text
  {
    assert rows == rows[..i] + [rows[i]] + rows[i + 1..];
    MovesTextAppend(rows[..i] + [rows[i]], rows[i + 1..]);
    MovesTextAppend(rows[..i], [rows[i]]);
    assert MovesText([rows[i]]) == RowText(rows[i]) by {
      assert [rows[i]][..0] == [];
    }
  }

  /** Every row's text ends with a space, so a non-empty move text does too. */
  lemma MovesTextEndsWithSpace(rows: seq<Row>)
    ensures MovesText(rows) == [] <==> rows == []
    ensures rows != [] ==> MovesText(rows)[|MovesText(rows)| - 1] == ' '
  {
    if rows != [] {
      var t := RowText(rows[|rows| - 1]);
      assert t[|t| - 1] == ' ';
    }
  }

  /** The result marker a PGN ends with, told apart by its last character. */
  function MarkerOf(pgn: string): string {
    if pgn == [] then ""
    else if pgn[|pgn| - 1] == '0' then "1-0"
    else if pgn[|pgn| - 1] == '1' then "0-1"
    else if pgn[|pgn| - 1] == '2' then "1/2-1/2"
    else ""
  }

  /** Two equal PGNs carry the same result marker and the same move text. */
  lemma PgnDeterminesOutcome(rows: seq<Row>, gameResult: string, rows': seq<Row>, gameResult': string)
    requires Pgn(rows, gameResult) == Pgn(rows', gameResult')
    ensures ResultMarker(gameResult) == ResultMarker(gameResult')
    ensures MovesText(rows) == MovesText(rows')
  {
    var p := Pgn(rows, gameResult);
    var m := ResultMarker(gameResult);
    assert MovesText(rows) == p[..|p| - |m|] == MovesText(rows');
  }

  /** White's accepted move adds exactly its row's text to the PGN's move text. */
  lemma WhiteMoveExtendsMovesText(rows: seq<Row>, id: nat, move: string)
    requires WhiteMove(rows, id, move).Accepted?
    ensures MovesText(WhiteMove(rows, id, move).rows) ==
            MovesText(rows) + Decimal(id) + "." + move + "  "
  {
    var r := WhiteMove(rows, id, move).rows;
    assert r[..|r| - 1] == rows;
  }
}
