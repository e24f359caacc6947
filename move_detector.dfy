/**
 * Change detection of raspberrypi_code/sensors/move_detector.py: each of the
 * 64 hall-sensor readings is classified as a black piece, a white piece or
 * an empty square, and a scan reports the squares whose occupancy changed
 * since the previous scan, labelled through `sensors_order`.
 */
module MoveDetector {
  import opened SensorReader

  /**
   * The SPI bus as the scan sees it: given the levels on the multiplexer's
   * select pins, the converter's reply to a command frame.
   */
  type Bus = seq<int> -> seq<bv8> -> Reply

  /** piece_color's three answers. */
  datatype Occupancy = Black | White | Empty

  /** Which way a square's occupancy changed. */
  datatype Change = Leave | Appear

  const LowerThreshold: real := 341.0
  const UpperThreshold: real := 683.0
  /** `previous_values` before the first scan. */
  const InitialReading: real := 2.5
  const Squares: nat := 64

  /** piece_color: low readings are black, high ones white, the band between them empty. */
  function PieceColor(value: real): (c: Occupancy)
    ensures c == Black <==> value < LowerThreshold
    ensures c == White <==> value > UpperThreshold
    ensures c == Empty <==> LowerThreshold <= value <= UpperThreshold
  {
    if value < LowerThreshold then Black
    else if value > UpperThreshold then White
    else Empty
  }

  predicate Occupied(value: real) {
    PieceColor(value) != Empty
  }

  /** A piece left (occupied, then empty) or appeared (empty, then occupied). */
  predicate Changed(kind: Change, prev: real, curr: real) {
    match kind
    case Leave => Occupied(prev) && !Occupied(curr)
    case Appear => !Occupied(prev) && Occupied(curr)
  }

  /** The sensor indices below `k` that changed in the given way, in increasing order. */
  function Indices(prev: seq<real>, curr: seq<real>, k: nat, kind: Change): (r: seq<nat>)
    requires k <= |prev| && k <= |curr|
    ensures |r| <= k
    ensures forall j :: 0 <= j < |r| ==> r[j] < k && Changed(kind, prev[r[j]], curr[r[j]])
    ensures forall a, b :: 0 <= a < b < |r| ==> r[a] < r[b]
  {
    if k == 0 then []
    else Indices(prev, curr, k - 1, kind) + (if Changed(kind, prev[k - 1], curr[k - 1]) then [k - 1] else [])
  }

  /** The labels `sensors_order[i]` of the given indices, in the same order. */
  function Labels(order: seq<string>, idx: seq<nat>): (r: seq<string>)
    requires forall j :: 0 <= j < |idx| ==> idx[j] < |order|
    ensures |r| == |idx|
    ensures forall j :: 0 <= j < |idx| ==> r[j] == order[idx[j]]
  {
    seq(|idx|, j requires 0 <= j < |idx| => order[idx[j]])
  }

  /** Every index below `k` that changed in the given way is reported. */
  lemma {:induction false} IndicesComplete(prev: seq<real>, curr: seq<real>, k: nat, kind: Change, i: nat)
    requires k <= |prev| && k <= |curr|
    requires i < k && Changed(kind, prev[i], curr[i])
    ensures i in Indices(prev, curr, k, kind)
  {
    if i < k - 1 {
      IndicesComplete(prev, curr, k - 1, kind, i);
    }
  }

  /** An index is reported exactly when its square changed in the given way. */
  lemma IndexReportedIff(prev: seq<real>, curr: seq<real>, k: nat, kind: Change, i: nat)
    requires k <= |prev| && k <= |curr| && i < k
    ensures i in Indices(prev, curr, k, kind) <==> Changed(kind, prev[i], curr[i])
  {
    if Changed(kind, prev[i], curr[i]) {
      IndicesComplete(prev, curr, k, kind, i);
    }
  }

  /**
   * No square is reported both as left and as appeared, and a square whose
   * occupancy did not change (a white piece swapped for a black one
   * included) is reported as neither.
   */
  lemma ReportsAreDisjoint(prev: seq<real>, curr: seq<real>, k: nat, i: nat)
    requires k <= |prev| && k <= |curr| && i < k
    ensures !(i in Indices(prev, curr, k, Leave) && i in Indices(prev, curr, k, Appear))
    ensures Occupied(prev[i]) == Occupied(curr[i]) ==>
              i !in Indices(prev, curr, k, Leave) && i !in Indices(prev, curr, k, Appear)
  {
    IndexReportedIff(prev, curr, k, Leave, i);
    IndexReportedIff(prev, curr, k, Appear, i);
  }

  /**
   * The initial readings of 2.5 classify as black, so the first scan
   * reports every square empty now as left, and nothing as appeared.
   */
  lemma {:induction false} FirstScan(curr: seq<real>, k: nat)
    requires k <= |curr| == Squares
    ensures var prev := seq(Squares, _ => InitialReading);
            Indices(prev, curr, k, Appear) == [] &&
            (forall i :: 0 <= i < k ==> (i in Indices(prev, curr, k, Leave) <==> !Occupied(curr[i])))
  {
    var prev := seq(Squares, _ => InitialReading);
    forall i | 0 <= i < k
      ensures i in Indices(prev, curr, k, Leave) <==> !Occupied(curr[i])
    {
      IndexReportedIff(prev, curr, k, Leave, i);
    }
    if k > 0 {
      FirstScan(curr, k - 1);
    }
  }

  /** Reading `i` of a scan: multiplexer input `i / 8`, converter channel `i % 8`. */
  function Reading(bus: Bus, i: nat): (v: real)
    requires i < Squares
    ensures 0.0 <= v <= 1023.0
  {
    ReadAdc(i % 8, bus(MuxBits(i / 8))) as real
  }

  /**
   * The reading loops of detect_board_changes: for each multiplexer input in
   * turn, every converter channel, appending each sample; 64 readings, none
   * of them the out-of-range -1.
   */
  method Scan(bus: Bus) returns (values: seq<real>)
    ensures |values| == Squares
    ensures forall i :: 0 <= i < Squares ==> values[i] == Reading(bus, i)
  {
    values := [];
    for mux := 0 to 8
      invariant |values| == 8 * mux
      invariant forall i :: 0 <= i < |values| ==> values[i] == Reading(bus, i)
    {
      var levels := MuxBits(mux);
      for channel := 0 to 8
        invariant |values| == 8 * mux + channel
        invariant forall i :: 0 <= i < |values| ==> values[i] == Reading(bus, i)
      {
        assert (8 * mux + channel) / 8 == mux && (8 * mux + channel) % 8 == channel;
        values := values + [ReadAdc(channel, bus(levels)) as real];
      }
    }
  }

  /** The comparison loop of detect_board_changes over two full scans. */
  method Diff(prev: seq<real>, curr: seq<real>, order: seq<string>) returns (leaves: seq<string>, appears: seq<string>)
    requires |prev| == Squares && |curr| == Squares && |order| == Squares
    ensures leaves == Labels(order, Indices(prev, curr, Squares, Leave))
    ensures appears == Labels(order, Indices(prev, curr, Squares, Appear))
    ensures |leaves| <= Squares && |appears| <= Squares
  {
    leaves, appears := [], [];
    for i := 0 to Squares
      invariant leaves == Labels(order, Indices(prev, curr, i, Leave))
      invariant appears == Labels(order, Indices(prev, curr, i, Appear))
    {
      if Occupied(prev[i]) && !Occupied(curr[i]) {
        leaves := leaves + [order[i]];
      } else if !Occupied(prev[i]) && Occupied(curr[i]) {
        appears := appears + [order[i]];
      }
    }
  }

  /** The module's `previous_values` and the scan that replaces them. */
  class Detector {
    var previousValues: seq<real>

    ghost predicate Valid()
      reads this
    {
      |previousValues| == Squares
    }

    constructor ()
      ensures Valid() && previousValues == seq(Squares, _ => InitialReading)
    {
      previousValues := seq(Squares, _ => InitialReading);
    }

    /**
     * detect_board_changes: scans the 64 sensors, reports the labels
     * (`sensors_order`) of the squares a piece left and appeared on since
     * the previous scan, and remembers this scan for the next one.
     */
    method DetectBoardChanges(bus: Bus, order: seq<string>) returns (leaves: seq<string>, appears: seq<string>)
      requires Valid() && |order| == Squares
      modifies this
      ensures Valid()
      ensures forall i :: 0 <= i < Squares ==> previousValues[i] == Reading(bus, i)
      ensures leaves == Labels(order, Indices(old(previousValues), previousValues, Squares, Leave))
      ensures appears == Labels(order, Indices(old(previousValues), previousValues, Squares, Appear))
    {
      var current := Scan(bus);
      leaves, appears := Diff(previousValues, current, order);
      previousValues := current;
    }
  }
}
