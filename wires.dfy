/**
 * The per-wire records of a circuit. A qubit wire keeps the gates it hosts
 * (tag, 1-based position, angle list) and the connections it takes part in
 * (tag, peer wire, position), plus the next free position `earliestPos`. A
 * classical-bit wire keeps its bit and its connection records.
 */
module Wires {
  import opened Gates

  datatype Qubit = Qubit(
    gates: seq<Tag>,
    gatePos: seq<int>,
    gateAngles: seq<AngleList>,
    connections: seq<Tag>,
    connectTo: seq<int>,
    connectPos: seq<int>,
    earliestPos: int)

  datatype Cbit = Cbit(
    state: Bit,
    connections: seq<Tag>,
    connectTo: seq<int>,
    connectPos: seq<int>,
    earliestPos: int)

  /** A qubit wire as the circuit creates it: nothing recorded, first free position 1. */
  const FRESH_QUBIT: Qubit := Qubit([], [], [], [], [], [], 1)

  function FreshCbit(state: Bit): Cbit {
    Cbit(state, [], [], [], 1)
  }

  /** The lists of a wire that run side by side have equal lengths. */
  predicate Shaped(q: Qubit) {
    |q.gatePos| == |q.gates| == |q.gateAngles| && |q.connectPos| == |q.connections| == |q.connectTo|
  }

  predicate Increasing(s: seq<int>) {
    forall i, j :: 0 <= i < j < |s| ==> s[i] < s[j]
  }

  /** Every recorded position is at least 1 and below `bound`. */
  predicate PositionsBelow(s: seq<int>, bound: int) {
    forall i :: 0 <= i < |s| ==> 1 <= s[i] < bound
  }

  /**
   * The wire invariant: parallel lists have equal lengths, positions start
   * at 1, strictly increase in append order and stay below the next free
   * position.
   */
  predicate QubitOk(q: Qubit) {
    && Shaped(q)
    && 1 <= q.earliestPos
    && Increasing(q.gatePos) && PositionsBelow(q.gatePos, q.earliestPos)
    && Increasing(q.connectPos) && PositionsBelow(q.connectPos, q.earliestPos)
  }

  /** Every qubit of a circuit keeps the wire invariant. */
  predicate QubitsOk(qs: seq<Qubit>) {
    forall i :: 0 <= i < |qs| ==> QubitOk(qs[i])
  }

  predicate CbitOk(c: Cbit) {
    && |c.connectPos| == |c.connections| == |c.connectTo|
    && 1 <= c.earliestPos
    && Increasing(c.connectPos) && PositionsBelow(c.connectPos, c.earliestPos)
  }

  /**
   * Connection `c` of qubit `i` names a peer qubit that hosts a gate at the
   * same position (the control's target, the SWAP's second wire, qubit 0
   * for a barrier).
   */
  predicate PeerOk(qs: seq<Qubit>, i: int, c: int)
    requires 0 <= i < |qs| && 0 <= c < |qs[i].connectPos| && c < |qs[i].connectTo|
  {
    var j := qs[i].connectTo[c];
    0 <= j < |qs| && qs[i].connectPos[c] in qs[j].gatePos
  }

  /** Every connection of every qubit has its peer gate. */
  predicate PeersHold(qs: seq<Qubit>) {
    forall i, c :: 0 <= i < |qs| && 0 <= c < |qs[i].connectPos| && c < |qs[i].connectTo| ==> PeerOk(qs, i, c)
  }

  /** Append a gate record at position `pos` (the next free position is not touched). */
  function RecordGate(q: Qubit, tag: Tag, angles: AngleList, pos: int): Qubit {
    q.(gates := q.gates + [tag], gateAngles := q.gateAngles + [angles], gatePos := q.gatePos + [pos])
  }

  /** Append a connection record at position `pos` with peer `peer`. */
  function RecordConnection(q: Qubit, tag: Tag, peer: int, pos: int): Qubit {
    q.(connections := q.connections + [tag], connectTo := q.connectTo + [peer], connectPos := q.connectPos + [pos])
  }

  /** The next free positions of qubits lo .. hi-1, in wire order. */
  function EarliestPositions(qs: seq<Qubit>, lo: int, hi: int): seq<int>
    requires 0 <= lo <= hi <= |qs|
  {
    seq(hi - lo, k requires 0 <= k < hi - lo => qs[lo + k].earliestPos)
  }

  /** The largest element of a non-empty list (Python's `max`). */
  function Max(s: seq<int>): (m: int)
    requires |s| > 0
    ensures forall i :: 0 <= i < |s| ==> s[i] <= m
    ensures exists i :: 0 <= i < |s| && s[i] == m
  {
    if |s| == 1 then s[0]
    else
      var rest := Max(s[..|s| - 1]);
      assert forall i :: 0 <= i < |s| - 1 ==> s[..|s| - 1][i] == s[i];
      if s[|s| - 1] > rest then s[|s| - 1] else rest
  }

  /** The smallest element of a non-empty list (Python's `min`). */
  function Min(s: seq<int>): (m: int)
    requires |s| > 0
    ensures forall i :: 0 <= i < |s| ==> m <= s[i]
    ensures exists i :: 0 <= i < |s| && s[i] == m
  {
    if |s| == 1 then s[0]
    else
      var rest := Min(s[..|s| - 1]);
      assert forall i :: 0 <= i < |s| - 1 ==> s[..|s| - 1][i] == s[i];
      if s[|s| - 1] < rest then s[|s| - 1] else rest
  }

  /**
   * The scheduling position of an operation spanning qubits lo .. hi:
   * the largest next free position in that inclusive range.
   */
  function SpanPosition(qs: seq<Qubit>, lo: int, hi: int): (pos: int)
    requires 0 <= lo <= hi < |qs|
    ensures forall i :: lo <= i <= hi ==> qs[i].earliestPos <= pos
    ensures exists i :: lo <= i <= hi && qs[i].earliestPos == pos
  {
    var e := EarliestPositions(qs, lo, hi + 1);
    assert forall i :: lo <= i <= hi ==> e[i - lo] == qs[i].earliestPos;
    Max(e)
  }
}
