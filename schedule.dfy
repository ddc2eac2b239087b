/**
 * Scheduling of the circuit-building methods, on values. Each method
 * assigns a 1-based position from the wires' next free positions, appends
 * its gate and connection records at that position and advances the next
 * free positions of the wires it reserves. `Touch` is the change to one
 * wire; each method's effect is a `Touch` of every wire with that method's
 * choice of records and reserved wires.
 */
module Schedule {
  import opened Gates
  import opened Wires

  /** A connection record to append: its tag and the peer wire it points to. */
  datatype Link = Link(tag: Tag, peer: int)

  /** The qubit and classical-bit wires of a circuit. */
  datatype Wiring = Wiring(qubits: seq<Qubit>, cbits: seq<Cbit>)

  /**
   * One wire after an operation at position `pos`: optionally a gate record
   * and a connection record at `pos`, and, when the wire is reserved, the
   * next free position moved to pos + 1.
   */
  function Touch(q: Qubit, gate: Option<Cell>, link: Option<Link>, pos: int, reserve: bool): Qubit {
    var g := if gate.Some? then RecordGate(q, gate.value.tag, gate.value.angles, pos) else q;
    var c := if link.Some? then RecordConnection(g, link.value.tag, link.value.peer, pos) else g;
    if reserve then c.(earliestPos := pos + 1) else c
  }

  function TouchAll(qs: seq<Qubit>, gs: seq<Option<Cell>>, ls: seq<Option<Link>>, pos: int, reserved: seq<bool>): (r: seq<Qubit>)
    requires |gs| == |qs| && |ls| == |qs| && |reserved| == |qs|
  {
    seq(|qs|, i requires 0 <= i < |qs| => Touch(qs[i], gs[i], ls[i], pos, reserved[i]))
  }

  // The circuit invariant

  /** No record carries the identity tag, and no connection is a measurement. */
  predicate RecordTagsOk(q: Qubit) {
    I !in q.gates && I !in q.connections && M !in q.connections
  }

  predicate AllRecordTagsOk(qs: seq<Qubit>) {
    forall i :: 0 <= i < |qs| ==> RecordTagsOk(qs[i])
  }

  predicate CbitsOk(cs: seq<Cbit>) {
    forall j :: 0 <= j < |cs| ==> CbitOk(cs[j])
  }

  /** All classical bits share one next free position. */
  predicate SharedCounter(cs: seq<Cbit>) {
    forall j :: 0 <= j < |cs| ==> cs[j].earliestPos == cs[0].earliestPos
  }

  /** The classical bits' shared next free position never passes the last qubit's. */
  predicate CounterTracked(qs: seq<Qubit>, cs: seq<Cbit>) {
    |qs| > 0 && |cs| > 0 ==> cs[0].earliestPos <= qs[|qs| - 1].earliestPos
  }

  /** Every measurement gate on qubit t shares its position with a connection of classical bit t. */
  predicate MeasuresLinked(qs: seq<Qubit>, cs: seq<Cbit>) {
    forall t, g :: 0 <= t < |qs| && t < |cs| && 0 <= g < |qs[t].gates| && g < |qs[t].gatePos| && qs[t].gates[g] == M ==>
      qs[t].gatePos[g] in cs[t].connectPos
  }

  /** No two classical bits have a connection at the same position. */
  predicate CbitPositionsDistinct(cs: seq<Cbit>) {
    forall j1, c1, j2, c2 :: 0 <= j1 < |cs| && 0 <= j2 < |cs| && j1 != j2 && 0 <= c1 < |cs[j1].connectPos| && 0 <= c2 < |cs[j2].connectPos| ==>
      cs[j1].connectPos[c1] != cs[j2].connectPos[c2]
  }

  /**
   * Position p is a barrier position: it is below every next free position,
   * qubit 0 holds a B gate there, and the only records at p are B gates of
   * qubit 0 and B connections of the last qubit.
   */
  predicate FenceOk(qs: seq<Qubit>, p: int) {
    && |qs| > 0
    && (forall i :: 0 <= i < |qs| ==> p < qs[i].earliestPos)
    && (exists g :: 0 <= g < |qs[0].gates| && g < |qs[0].gatePos| && qs[0].gatePos[g] == p && qs[0].gates[g] == B)
    && (forall i, g :: 0 <= i < |qs| && 0 <= g < |qs[i].gatePos| && g < |qs[i].gates| && qs[i].gatePos[g] == p ==> i == 0 && qs[i].gates[g] == B)
    && (forall i, c :: 0 <= i < |qs| && 0 <= c < |qs[i].connectPos| && c < |qs[i].connections| && qs[i].connectPos[c] == p ==>
          i == |qs| - 1 && qs[i].connections[c] == B)
  }

  /** A connection at a barrier position is the barrier's B connection on the last qubit. */
  lemma FenceConnection(qs: seq<Qubit>, p: int, i: int, c: int)
    requires FenceOk(qs, p) && 0 <= i < |qs| && 0 <= c < |qs[i].connectPos| && c < |qs[i].connections| && qs[i].connectPos[c] == p
    ensures i == |qs| - 1 && qs[i].connections[c] == B
  {
  }

  predicate FencesHold(qs: seq<Qubit>, fences: set<int>) {
    forall p :: p in fences ==> FenceOk(qs, p)
  }

  /** The invariant every circuit-building method keeps. */
  ghost predicate CircuitOk(w: Wiring, fences: set<int>) {
    && |w.cbits| == |w.qubits|
    && QubitsOk(w.qubits) && PeersHold(w.qubits) && AllRecordTagsOk(w.qubits)
    && CbitsOk(w.cbits) && SharedCounter(w.cbits) && CounterTracked(w.qubits, w.cbits)
    && MeasuresLinked(w.qubits, w.cbits) && CbitPositionsDistinct(w.cbits)
    && FencesHold(w.qubits, fences)
  }

  /** A fresh circuit of n qubits and n classical bits in state 0: nothing recorded, no barrier. */
  function FreshWiring(n: nat): (w: Wiring)
    ensures CircuitOk(w, {})
  {
    Wiring(seq(n, _ => FRESH_QUBIT), seq(n, _ => FreshCbit(0)))
  }

  // One wire

  /** Wire `r` is wire `q` with at most one gate record and one connection record appended at `pos`. */
  predicate Appended(q: Qubit, r: Qubit, gate: Option<Cell>, link: Option<Link>, pos: int) {
    && r.gates == q.gates + (if gate.Some? then [gate.value.tag] else [])
    && r.gateAngles == q.gateAngles + (if gate.Some? then [gate.value.angles] else [])
    && r.gatePos == q.gatePos + (if gate.Some? then [pos] else [])
    && r.connections == q.connections + (if link.Some? then [link.value.tag] else [])
    && r.connectTo == q.connectTo + (if link.Some? then [link.value.peer] else [])
    && r.connectPos == q.connectPos + (if link.Some? then [pos] else [])
  }

  /** A touched wire gains exactly the given records, whatever its state. */
  lemma TouchAppends(q: Qubit, gate: Option<Cell>, link: Option<Link>, pos: int)
    ensures Appended(q, Touch(q, gate, link, pos, true), gate, link, pos)
    ensures Appended(q, Touch(q, gate, link, pos, false), gate, link, pos)
  {
    assert q.gatePos + [] == q.gatePos && q.gates + [] == q.gates && q.gateAngles + [] == q.gateAngles;
    assert q.connectPos + [] == q.connectPos && q.connections + [] == q.connections && q.connectTo + [] == q.connectTo;
  }

  /** Appending a position no smaller than the bound keeps a position list increasing. */
  lemma AppendPosition(s: seq<int>, bound: int, x: int)
    requires Increasing(s) && PositionsBelow(s, bound) && bound <= x && 1 <= bound
    ensures Increasing(s + [x]) && PositionsBelow(s + [x], x + 1)
  {
  }

  /**
   * A touched wire keeps the wire invariant and its old records, provided
   * records are placed no earlier than its next free position and only
   * when the wire is reserved; its next free position never goes back.
   */
  lemma TouchKeepsWire(q: Qubit, gate: Option<Cell>, link: Option<Link>, pos: int, reserve: bool)
    requires QubitOk(q)
    requires (gate.Some? || link.Some?) ==> reserve && q.earliestPos <= pos
    requires reserve ==> q.earliestPos <= pos + 1
    ensures var r := Touch(q, gate, link, pos, reserve);
      QubitOk(r) && r.earliestPos >= q.earliestPos && Appended(q, r, gate, link, pos)
  {
    var r := Touch(q, gate, link, pos, reserve);
    assert q.gatePos + [] == q.gatePos && q.gates + [] == q.gates && q.gateAngles + [] == q.gateAngles;
    assert q.connectPos + [] == q.connectPos && q.connections + [] == q.connections && q.connectTo + [] == q.connectTo;
    if gate.Some? { AppendPosition(q.gatePos, q.earliestPos, pos); }
    if link.Some? { AppendPosition(q.connectPos, q.earliestPos, pos); }
  }

  // All wires

  /**
   * What a method may do to the wires: records go only on reserved wires at
   * or after their next free position, reserved wires can only move
   * forward, tags are proper record tags, and every connection points to a
   * wire that receives a gate at the same position.
   */
  predicate TouchFits(qs: seq<Qubit>, gs: seq<Option<Cell>>, ls: seq<Option<Link>>, pos: int, reserved: seq<bool>) {
    && |gs| == |qs| && |ls| == |qs| && |reserved| == |qs|
    && forall i :: 0 <= i < |qs| ==>
      && ((gs[i].Some? || ls[i].Some?) ==> reserved[i] && qs[i].earliestPos <= pos)
      && (reserved[i] ==> qs[i].earliestPos <= pos + 1)
      && (gs[i].Some? ==> gs[i].value.tag != I)
      && (ls[i].Some? ==> ls[i].value.tag != I && ls[i].value.tag != M)
      && (ls[i].Some? ==> 0 <= ls[i].value.peer < |qs| && gs[ls[i].value.peer].Some?)
  }

  /** Every touched wire keeps its invariant and record tags, gains only records at `pos`, and never moves back. */
  lemma TouchAllWires(qs: seq<Qubit>, gs: seq<Option<Cell>>, ls: seq<Option<Link>>, pos: int, reserved: seq<bool>)
    requires QubitsOk(qs) && AllRecordTagsOk(qs) && TouchFits(qs, gs, ls, pos, reserved)
    ensures var r := TouchAll(qs, gs, ls, pos, reserved);
      && QubitsOk(r) && AllRecordTagsOk(r)
      && (forall i :: 0 <= i < |qs| ==> r[i].earliestPos >= qs[i].earliestPos)
      && (forall i :: 0 <= i < |qs| ==> Appended(qs[i], r[i], gs[i], ls[i], pos))
  {
    var r := TouchAll(qs, gs, ls, pos, reserved);
    forall i | 0 <= i < |qs|
      ensures QubitOk(r[i]) && r[i].earliestPos >= qs[i].earliestPos && RecordTagsOk(r[i])
      ensures Appended(qs[i], r[i], gs[i], ls[i], pos)
    {
      assert QubitOk(qs[i]) && RecordTagsOk(qs[i]);
      TouchKeepsWire(qs[i], gs[i], ls[i], pos, reserved[i]);
    }
  }

  /** Connections keep their peers: old records stay, and each new connection points to a new gate at `pos`. */
  lemma TouchAllPeers(qs: seq<Qubit>, r: seq<Qubit>, gs: seq<Option<Cell>>, ls: seq<Option<Link>>, pos: int)
    requires |r| == |qs| == |gs| == |ls| && QubitsOk(qs) && PeersHold(qs)
    requires forall i :: 0 <= i < |qs| ==> Appended(qs[i], r[i], gs[i], ls[i], pos)
    requires forall i :: 0 <= i < |qs| && ls[i].Some? ==> 0 <= ls[i].value.peer < |qs| && gs[ls[i].value.peer].Some?
    ensures PeersHold(r)
  {
    forall i, c | 0 <= i < |r| && 0 <= c < |r[i].connectPos| && c < |r[i].connectTo|
      ensures PeerOk(r, i, c)
    {
      assert QubitOk(qs[i]) && Appended(qs[i], r[i], gs[i], ls[i], pos);
      if c < |qs[i].connectPos| {
        assert PeerOk(qs, i, c);
        var j := qs[i].connectTo[c];
        assert r[i].connectTo[c] == j && r[i].connectPos[c] == qs[i].connectPos[c];
        assert Appended(qs[j], r[j], gs[j], ls[j], pos);
        var g :| 0 <= g < |qs[j].gatePos| && qs[j].gatePos[g] == qs[i].connectPos[c];
        assert r[j].gatePos[g] == qs[j].gatePos[g];
      } else {
        var j := ls[i].value.peer;
        assert r[i].connectTo[c] == j && r[i].connectPos[c] == pos;
        assert Appended(qs[j], r[j], gs[j], ls[j], pos);
        assert r[j].gatePos[|qs[j].gatePos|] == pos;
      }
    }
  }

  /** An earlier barrier position stays a barrier position when nothing new lands on it. */
  lemma TouchAllFence(qs: seq<Qubit>, r: seq<Qubit>, gs: seq<Option<Cell>>, ls: seq<Option<Link>>, pos: int, p: int)
    requires |r| == |qs| == |gs| == |ls| && QubitsOk(qs) && FenceOk(qs, p) && p < pos
    requires forall i :: 0 <= i < |qs| ==> Appended(qs[i], r[i], gs[i], ls[i], pos) && r[i].earliestPos >= qs[i].earliestPos
    ensures FenceOk(r, p)
  {
    var g0 :| 0 <= g0 < |qs[0].gates| && g0 < |qs[0].gatePos| && qs[0].gatePos[g0] == p && qs[0].gates[g0] == B;
    assert Appended(qs[0], r[0], gs[0], ls[0], pos);
    assert r[0].gatePos[g0] == p && r[0].gates[g0] == B;
    forall i, g | 0 <= i < |r| && 0 <= g < |r[i].gatePos| && g < |r[i].gates| && r[i].gatePos[g] == p
      ensures i == 0 && r[i].gates[g] == B
    {
      assert QubitOk(qs[i]) && Appended(qs[i], r[i], gs[i], ls[i], pos);
      assert g < |qs[i].gatePos|;
      assert r[i].gatePos[g] == qs[i].gatePos[g] && r[i].gates[g] == qs[i].gates[g];
    }
    forall i, c | 0 <= i < |r| && 0 <= c < |r[i].connectPos| && c < |r[i].connections| && r[i].connectPos[c] == p
      ensures i == |r| - 1 && r[i].connections[c] == B
    {
      assert QubitOk(qs[i]) && Appended(qs[i], r[i], gs[i], ls[i], pos);
      assert c < |qs[i].connectPos|;
      assert r[i].connectPos[c] == qs[i].connectPos[c] && r[i].connections[c] == qs[i].connections[c];
    }
  }

  /**
   * A method's change keeps the qubit part of the invariant: wire
   * invariants, peers, record tags and earlier barriers; no next free
   * position goes back.
   */
  lemma TouchAllKeeps(qs: seq<Qubit>, fences: set<int>, gs: seq<Option<Cell>>, ls: seq<Option<Link>>, pos: int, reserved: seq<bool>)
    requires QubitsOk(qs) && PeersHold(qs) && AllRecordTagsOk(qs) && FencesHold(qs, fences)
    requires TouchFits(qs, gs, ls, pos, reserved)
    requires forall p :: p in fences ==> p < pos
    ensures var r := TouchAll(qs, gs, ls, pos, reserved);
      && QubitsOk(r) && PeersHold(r) && AllRecordTagsOk(r) && FencesHold(r, fences)
      && (forall i :: 0 <= i < |qs| ==> r[i].earliestPos >= qs[i].earliestPos)
      && (forall i :: 0 <= i < |qs| ==> Appended(qs[i], r[i], gs[i], ls[i], pos))
  {
    var r := TouchAll(qs, gs, ls, pos, reserved);
    TouchAllWires(qs, gs, ls, pos, reserved);
    TouchAllPeers(qs, r, gs, ls, pos);
    forall p | p in fences
      ensures FenceOk(r, p)
    {
      TouchAllFence(qs, r, gs, ls, pos, p);
    }
  }

  /** A change that adds no measurement gate keeps every measurement gate linked to its classical bit. */
  lemma TouchKeepsMeasures(qs: seq<Qubit>, r: seq<Qubit>, cs: seq<Cbit>, gs: seq<Option<Cell>>, ls: seq<Option<Link>>, pos: int)
    requires |r| == |qs| == |gs| == |ls| && QubitsOk(qs) && MeasuresLinked(qs, cs)
    requires forall i :: 0 <= i < |qs| ==> Appended(qs[i], r[i], gs[i], ls[i], pos)
    requires forall i :: 0 <= i < |gs| && gs[i].Some? ==> gs[i].value.tag != M
    ensures MeasuresLinked(r, cs)
  {
    forall t, g | 0 <= t < |r| && t < |cs| && 0 <= g < |r[t].gates| && g < |r[t].gatePos| && r[t].gates[g] == M
      ensures r[t].gatePos[g] in cs[t].connectPos
    {
      assert QubitOk(qs[t]) && Appended(qs[t], r[t], gs[t], ls[t], pos);
      assert g < |qs[t].gates|;
      assert qs[t].gates[g] == M && qs[t].gatePos[g] == r[t].gatePos[g];
    }
  }

  /**
   * A change that adds no measurement gate and leaves the classical bits
   * alone keeps the whole circuit invariant.
   */
  lemma TouchKeepsCircuit(w: Wiring, fences: set<int>, gs: seq<Option<Cell>>, ls: seq<Option<Link>>, pos: int, reserved: seq<bool>)
    requires CircuitOk(w, fences) && TouchFits(w.qubits, gs, ls, pos, reserved)
    requires forall p :: p in fences ==> p < pos
    requires forall i :: 0 <= i < |gs| && gs[i].Some? ==> gs[i].value.tag != M
    ensures CircuitOk(Wiring(TouchAll(w.qubits, gs, ls, pos, reserved), w.cbits), fences)
  {
    var qs, cs := w.qubits, w.cbits;
    var r := TouchAll(qs, gs, ls, pos, reserved);
    TouchAllKeeps(qs, fences, gs, ls, pos, reserved);
    TouchKeepsMeasures(qs, r, cs, gs, ls, pos);
  }

  /** Every barrier lies below a position that is at least some wire's next free position. */
  lemma FencesBefore(qs: seq<Qubit>, fences: set<int>, i: int, pos: int)
    requires FencesHold(qs, fences) && 0 <= i < |qs| && qs[i].earliestPos <= pos
    ensures forall p :: p in fences ==> p < pos
  {
    forall p | p in fences ensures p < pos {
      assert FenceOk(qs, p);
    }
  }

  // Choices of records

  /** A gate record on wire t only. */
  function GateAt(n: nat, t: int, cell: Cell): (gs: seq<Option<Cell>>)
    ensures |gs| == n
  {
    seq(n, i => if i == t then Some(cell) else None)
  }

  /** The same connection record on each of the given wires. */
  function LinksAt(n: nat, wires: seq<int>, link: Link): (ls: seq<Option<Link>>)
    ensures |ls| == n
  {
    seq(n, i => if i in wires then Some(link) else None)
  }

  /** The wires lo .. hi (inclusive) are reserved. */
  function Span(n: nat, lo: int, hi: int): (rs: seq<bool>)
    ensures |rs| == n
  {
    seq(n, i => lo <= i <= hi)
  }

  /**
   * A gate record on wire t alone, no connection, wires t .. hi reserved,
   * at a position no wire of that range has passed: a change that fits.
   */
  lemma SingleFits(qs: seq<Qubit>, t: int, cell: Cell, link: Link, pos: int, hi: int)
    requires 0 <= t <= hi < |qs| && cell.tag != I
    requires forall i :: t <= i <= hi ==> qs[i].earliestPos <= pos
    ensures TouchFits(qs, GateAt(|qs|, t, cell), LinksAt(|qs|, [], link), pos, Span(|qs|, t, hi))
  {
    var n := |qs|;
    var gs, ls := GateAt(n, t, cell), LinksAt(n, [], link);
    forall i | 0 <= i < n ensures ls[i].None? && (gs[i].Some? ==> i == t) { assert i !in []; }
  }

  // Single-qubit gates

  /** A single-qubit gate on wire t: recorded at t's next free position, which then moves on by one. */
  function PlaceGate(qs: seq<Qubit>, tag: Tag, angles: AngleList, t: int): seq<Qubit>
    requires 0 <= t < |qs|
  {
    TouchAll(qs, GateAt(|qs|, t, Cell(tag, angles)), LinksAt(|qs|, [], Link(tag, t)), qs[t].earliestPos, Span(|qs|, t, t))
  }

  /**
   * A single-qubit gate appends exactly one record to each of the target's
   * gate, angle and position lists, at the target's old next free position,
   * moves that position on by one, and changes no other wire.
   */
  lemma PlaceGateEffect(qs: seq<Qubit>, tag: Tag, angles: AngleList, t: int)
    requires 0 <= t < |qs|
    ensures PlaceGate(qs, tag, angles, t) ==
      qs[t := qs[t].(gates := qs[t].gates + [tag], gateAngles := qs[t].gateAngles + [angles],
                     gatePos := qs[t].gatePos + [qs[t].earliestPos], earliestPos := qs[t].earliestPos + 1)]
  {
    var r := PlaceGate(qs, tag, angles, t);
    forall i | 0 <= i < |qs|
      ensures r[i] == if i == t then qs[t].(gates := qs[t].gates + [tag], gateAngles := qs[t].gateAngles + [angles],
                     gatePos := qs[t].gatePos + [qs[t].earliestPos], earliestPos := qs[t].earliestPos + 1) else qs[i]
    {
      assert i !in [];
    }
  }

  /** The single-qubit gate applied to each target in turn. */
  function PlaceGates(qs: seq<Qubit>, tag: Tag, angles: AngleList, targets: seq<int>): (r: seq<Qubit>)
    requires forall k :: 0 <= k < |targets| ==> 0 <= targets[k] < |qs|
    ensures |r| == |qs|
  {
    if |targets| == 0 then qs
    else PlaceGate(PlaceGates(qs, tag, angles, targets[..|targets| - 1]), tag, angles, targets[|targets| - 1])
  }

  /** One more target is one more gate, placed after those of the earlier targets. */
  lemma PlaceGatesStep(qs: seq<Qubit>, tag: Tag, angles: AngleList, targets: seq<int>, k: int)
    requires 0 <= k < |targets| && forall k :: 0 <= k < |targets| ==> 0 <= targets[k] < |qs|
    ensures PlaceGates(qs, tag, angles, targets[..k + 1]) == PlaceGate(PlaceGates(qs, tag, angles, targets[..k]), tag, angles, targets[k])
  {
    assert targets[..k + 1][..k] == targets[..k];
  }

  /** A single-qubit gate keeps the circuit invariant. */
  lemma GateKeepsOk(w: Wiring, fences: set<int>, tag: Tag, angles: AngleList, t: int)
    requires CircuitOk(w, fences) && 0 <= t < |w.qubits| && IsSingleQubitGate(tag)
    ensures CircuitOk(Wiring(PlaceGate(w.qubits, tag, angles, t), w.cbits), fences)
  {
    var qs := w.qubits;
    var n, pos := |qs|, qs[t].earliestPos;
    var gs, ls, rs := GateAt(n, t, Cell(tag, angles)), LinksAt(n, [], Link(tag, t)), Span(n, t, t);
    SingleFits(qs, t, Cell(tag, angles), Link(tag, t), pos, t);
    FencesBefore(qs, fences, t, pos);
    assert PlaceGate(qs, tag, angles, t) == TouchAll(qs, gs, ls, pos, rs);
    TouchKeepsCircuit(w, fences, gs, ls, pos, rs);
  }

  /** The gate applied to every target in turn keeps the circuit invariant. */
  lemma {:induction false} GatesKeepOk(w: Wiring, fences: set<int>, tag: Tag, angles: AngleList, targets: seq<int>)
    requires CircuitOk(w, fences) && IsSingleQubitGate(tag)
    requires forall k :: 0 <= k < |targets| ==> 0 <= targets[k] < |w.qubits|
    ensures CircuitOk(Wiring(PlaceGates(w.qubits, tag, angles, targets), w.cbits), fences)
  {
    if |targets| > 0 {
      var init := targets[..|targets| - 1];
      GatesKeepOk(w, fences, tag, angles, init);
      GateKeepsOk(Wiring(PlaceGates(w.qubits, tag, angles, init), w.cbits), fences, tag, angles, targets[|targets| - 1]);
    }
  }

  // Controlled gates and SWAP

  /** The span an operation crosses: from the lowest to the highest of its wires. */
  function SpanLow(links: seq<int>, target: int): int
    requires |links| > 0
  {
    Min(links + [target])
  }

  function SpanHigh(links: seq<int>, target: int): int
    requires |links| > 0
  {
    Max(links + [target])
  }

  /** The wires of a linked operation lie in its span, and the span lies in the circuit. */
  lemma SpanCovers(n: nat, links: seq<int>, target: int)
    requires |links| > 0 && 0 <= target < n && forall k :: 0 <= k < |links| ==> 0 <= links[k] < n
    ensures 0 <= SpanLow(links, target) <= target <= SpanHigh(links, target) < n
    ensures forall k :: 0 <= k < |links| ==> SpanLow(links, target) <= links[k] <= SpanHigh(links, target)
  {
    var all := links + [target];
    assert all[|links|] == target;
    assert forall k :: 0 <= k < |links| ==> all[k] == links[k];
    assert forall k :: 0 <= k < |all| ==> 0 <= all[k] < n;
  }

  /** The position of a linked operation: the largest next free position over its span. */
  function LinkedPosition(qs: seq<Qubit>, links: seq<int>, target: int): int
    requires |links| > 0 && 0 <= target < |qs| && forall k :: 0 <= k < |links| ==> 0 <= links[k] < |qs|
  {
    SpanCovers(|qs|, links, target);
    SpanPosition(qs, SpanLow(links, target), SpanHigh(links, target))
  }

  /**
   * A controlled gate or a SWAP: the gate record on the target, a
   * connection record to the target on each linked wire (the controls, or
   * SWAP's first wire), all at the largest next free position over the
   * span; every wire of the span is reserved.
   */
  function PlaceLinked(qs: seq<Qubit>, tag: Tag, angles: AngleList, linkTag: Tag, links: seq<int>, target: int): seq<Qubit>
    requires |links| > 0 && 0 <= target < |qs| && forall k :: 0 <= k < |links| ==> 0 <= links[k] < |qs|
  {
    var n := |qs|;
    TouchAll(qs, GateAt(n, target, Cell(tag, angles)), LinksAt(n, links, Link(linkTag, target)),
      LinkedPosition(qs, links, target), Span(n, SpanLow(links, target), SpanHigh(links, target)))
  }

  /**
   * The records of a linked operation: its position is the largest next
   * free position in the span; the target's gate lists gain the gate there
   * and every linked wire's connection lists gain the link there.
   */
  lemma LinkedRecords(qs: seq<Qubit>, tag: Tag, angles: AngleList, linkTag: Tag, links: seq<int>, target: int)
    requires |links| > 0 && 0 <= target < |qs| && forall k :: 0 <= k < |links| ==> 0 <= links[k] < |qs|
    ensures var r, pos := PlaceLinked(qs, tag, angles, linkTag, links, target), LinkedPosition(qs, links, target);
      var lo, hi := SpanLow(links, target), SpanHigh(links, target);
      && |r| == |qs|
      && (forall i :: lo <= i <= hi ==> qs[i].earliestPos <= pos) && (exists i :: lo <= i <= hi && qs[i].earliestPos == pos)
      && r[target].gates == qs[target].gates + [tag] && r[target].gatePos == qs[target].gatePos + [pos]
      && r[target].gateAngles == qs[target].gateAngles + [angles]
      && (forall k :: 0 <= k < |links| ==>
            r[links[k]].connections == qs[links[k]].connections + [linkTag]
            && r[links[k]].connectTo == qs[links[k]].connectTo + [target]
            && r[links[k]].connectPos == qs[links[k]].connectPos + [pos])
  {
    var n := |qs|;
    SpanCovers(n, links, target);
    var pos := LinkedPosition(qs, links, target);
    var gs, ls := GateAt(n, target, Cell(tag, angles)), LinksAt(n, links, Link(linkTag, target));
    var r := TouchAll(qs, gs, ls, pos, Span(n, SpanLow(links, target), SpanHigh(links, target)));
    assert r == PlaceLinked(qs, tag, angles, linkTag, links, target);
    TouchAppends(qs[target], gs[target], ls[target], pos);
    forall k | 0 <= k < |links|
      ensures r[links[k]].connections == qs[links[k]].connections + [linkTag]
      ensures r[links[k]].connectTo == qs[links[k]].connectTo + [target]
      ensures r[links[k]].connectPos == qs[links[k]].connectPos + [pos]
    {
      var i := links[k];
      assert ls[i] == Some(Link(linkTag, target));
      TouchAppends(qs[i], gs[i], ls[i], pos);
    }
  }

  /**
   * The reservation of a linked operation: every wire of the span moves to
   * position pos + 1, every wire outside the span is unchanged.
   */
  lemma LinkedReserves(qs: seq<Qubit>, tag: Tag, angles: AngleList, linkTag: Tag, links: seq<int>, target: int)
    requires |links| > 0 && 0 <= target < |qs| && forall k :: 0 <= k < |links| ==> 0 <= links[k] < |qs|
    ensures var r, pos := PlaceLinked(qs, tag, angles, linkTag, links, target), LinkedPosition(qs, links, target);
      var lo, hi := SpanLow(links, target), SpanHigh(links, target);
      forall i :: 0 <= i < |qs| ==> if lo <= i <= hi then r[i].earliestPos == pos + 1 else r[i] == qs[i]
  {
    var n := |qs|;
    SpanCovers(n, links, target);
    var lo, hi := SpanLow(links, target), SpanHigh(links, target);
    forall i | 0 <= i < n && !(lo <= i <= hi)
      ensures i != target && i !in links
    {
    }
  }

  /** The records and reservations of a linked operation fit. */
  lemma LinkedFits(qs: seq<Qubit>, tag: Tag, angles: AngleList, linkTag: Tag, links: seq<int>, target: int)
    requires |links| > 0 && 0 <= target < |qs| && forall k :: 0 <= k < |links| ==> 0 <= links[k] < |qs|
    requires tag != I && linkTag != I && linkTag != M
    ensures var n := |qs|;
      TouchFits(qs, GateAt(n, target, Cell(tag, angles)), LinksAt(n, links, Link(linkTag, target)),
        LinkedPosition(qs, links, target), Span(n, SpanLow(links, target), SpanHigh(links, target)))
    ensures qs[target].earliestPos <= LinkedPosition(qs, links, target)
  {
    var n := |qs|;
    SpanCovers(n, links, target);
    var lo, hi := SpanLow(links, target), SpanHigh(links, target);
    var ls := LinksAt(n, links, Link(linkTag, target));
    forall i | 0 <= i < n && ls[i].Some?
      ensures lo <= i <= hi
    {
      var k :| 0 <= k < |links| && links[k] == i;
    }
  }

  /** A controlled gate or SWAP keeps the circuit invariant. */
  lemma LinkedKeepsOk(w: Wiring, fences: set<int>, tag: Tag, angles: AngleList, linkTag: Tag, links: seq<int>, target: int)
    requires CircuitOk(w, fences)
    requires |links| > 0 && 0 <= target < |w.qubits| && forall k :: 0 <= k < |links| ==> 0 <= links[k] < |w.qubits|
    requires tag != I && tag != M && linkTag != I && linkTag != M
    ensures CircuitOk(Wiring(PlaceLinked(w.qubits, tag, angles, linkTag, links, target), w.cbits), fences)
  {
    var qs := w.qubits;
    var n := |qs|;
    var lo, hi, pos := SpanLow(links, target), SpanHigh(links, target), LinkedPosition(qs, links, target);
    var gs, ls, rs := GateAt(n, target, Cell(tag, angles)), LinksAt(n, links, Link(linkTag, target)), Span(n, lo, hi);
    LinkedFits(qs, tag, angles, linkTag, links, target);
    FencesBefore(qs, fences, target, pos);
    assert PlaceLinked(qs, tag, angles, linkTag, links, target) == TouchAll(qs, gs, ls, pos, rs);
    TouchKeepsCircuit(w, fences, gs, ls, pos, rs);
  }

  // Barrier

  /** The barrier position: the largest next free position over all qubits. */
  function BarrierPosition(qs: seq<Qubit>): int
    requires |qs| > 0
  {
    SpanPosition(qs, 0, |qs| - 1)
  }

  /**
   * A barrier: a B gate on qubit 0 and a B connection to qubit 0 on the
   * last qubit, at the barrier position; every qubit is reserved.
   */
  function PlaceBarrier(qs: seq<Qubit>): seq<Qubit>
    requires |qs| > 0
  {
    var n := |qs|;
    TouchAll(qs, GateAt(n, 0, Cell(B, UNUSED_ANGLES)), LinksAt(n, [n - 1], Link(B, 0)), BarrierPosition(qs), Span(n, 0, n - 1))
  }

  /** The records and reservations of a barrier fit. */
  lemma BarrierFits(qs: seq<Qubit>)
    requires |qs| > 0
    ensures var n := |qs|;
      TouchFits(qs, GateAt(n, 0, Cell(B, UNUSED_ANGLES)), LinksAt(n, [n - 1], Link(B, 0)), BarrierPosition(qs), Span(n, 0, n - 1))
  {
    var n := |qs|;
    var ls := LinksAt(n, [n - 1], Link(B, 0));
    forall i | 0 <= i < n && ls[i].Some? ensures i == n - 1 { }
  }

  /** On a reserved wire whose next free position is at most pos, the only records at pos are the new ones. */
  lemma FreshRecords(q: Qubit, gate: Option<Cell>, link: Option<Link>, pos: int)
    requires QubitOk(q) && q.earliestPos <= pos
    ensures var r := Touch(q, gate, link, pos, true);
      && r.earliestPos == pos + 1
      && (forall g :: 0 <= g < |r.gatePos| && g < |r.gates| && r.gatePos[g] == pos ==> gate.Some? && r.gates[g] == gate.value.tag)
      && (forall c :: 0 <= c < |r.connectPos| && c < |r.connections| && r.connectPos[c] == pos ==>
            link.Some? && r.connections[c] == link.value.tag)
  {
    TouchKeepsWire(q, gate, link, pos, true);
  }

  /**
   * Right after a barrier at p every qubit's next free position is p + 1,
   * and p holds only the barrier's records: it is a barrier position.
   */
  lemma NewFence(qs: seq<Qubit>)
    requires QubitsOk(qs) && |qs| > 0
    ensures var r, p := PlaceBarrier(qs), BarrierPosition(qs);
      FenceOk(r, p) && forall i :: 0 <= i < |qs| ==> r[i].earliestPos == p + 1
  {
    var n, p := |qs|, BarrierPosition(qs);
    var gs, ls := GateAt(n, 0, Cell(B, UNUSED_ANGLES)), LinksAt(n, [n - 1], Link(B, 0));
    var r := PlaceBarrier(qs);
    forall i | 0 <= i < n
      ensures r[i] == Touch(qs[i], gs[i], ls[i], p, true)
      ensures r[i].earliestPos == p + 1
      ensures forall g :: 0 <= g < |r[i].gatePos| && g < |r[i].gates| && r[i].gatePos[g] == p ==> i == 0 && r[i].gates[g] == B
      ensures forall c :: 0 <= c < |r[i].connectPos| && c < |r[i].connections| && r[i].connectPos[c] == p ==>
        i == n - 1 && r[i].connections[c] == B
    {
      assert QubitOk(qs[i]);
      FreshRecords(qs[i], gs[i], ls[i], p);
    }
    assert QubitOk(qs[0]);
    assert r[0].gatePos[|qs[0].gatePos|] == p && r[0].gates[|qs[0].gates|] == B;
  }

  /**
   * A barrier keeps the circuit invariant with its position added to the
   * barrier positions.
   */
  lemma BarrierKeepsOk(w: Wiring, fences: set<int>)
    requires CircuitOk(w, fences) && |w.qubits| > 0
    ensures CircuitOk(Wiring(PlaceBarrier(w.qubits), w.cbits), fences + {BarrierPosition(w.qubits)})
  {
    var qs := w.qubits;
    var n, p := |qs|, BarrierPosition(qs);
    var gs, ls, rs := GateAt(n, 0, Cell(B, UNUSED_ANGLES)), LinksAt(n, [n - 1], Link(B, 0)), Span(n, 0, n - 1);
    BarrierFits(qs);
    FencesBefore(qs, fences, 0, p);
    assert PlaceBarrier(qs) == TouchAll(qs, gs, ls, p, rs);
    TouchKeepsCircuit(w, fences, gs, ls, p, rs);
    NewFence(qs);
  }

  // Measurement

  /** The next free positions of classical bits lo .. hi-1. */
  function CbitPositions(cs: seq<Cbit>, lo: int, hi: int): seq<int>
    requires 0 <= lo <= hi <= |cs|
  {
    seq(hi - lo, k requires 0 <= k < hi - lo => cs[lo + k].earliestPos)
  }

  /**
   * The position of a measurement of qubit t: the largest next free
   * position over qubits t .. n-1 and classical bits 0 .. t-1.
   */
  function MeasurePosition(w: Wiring, t: int): (pos: int)
    requires 0 <= t < |w.qubits| && |w.cbits| == |w.qubits|
    ensures forall i :: t <= i < |w.qubits| ==> w.qubits[i].earliestPos <= pos
    ensures forall j :: 0 <= j < t ==> w.cbits[j].earliestPos <= pos
    ensures (exists i :: t <= i < |w.qubits| && w.qubits[i].earliestPos == pos)
      || (exists j :: 0 <= j < t && w.cbits[j].earliestPos == pos)
  {
    var e := EarliestPositions(w.qubits, t, |w.qubits|) + CbitPositions(w.cbits, 0, t);
    assert forall i :: t <= i < |w.qubits| ==> e[i - t] == w.qubits[i].earliestPos;
    assert forall j :: 0 <= j < t ==> e[|w.qubits| - t + j] == w.cbits[j].earliestPos;
    CandidateAttained(w, t);
    Max(e)
  }

  /** The largest measurement candidate is a later qubit's or an earlier classical bit's next free position. */
  lemma CandidateAttained(w: Wiring, t: int)
    requires 0 <= t < |w.qubits| && |w.cbits| == |w.qubits|
    ensures var m := Max(EarliestPositions(w.qubits, t, |w.qubits|) + CbitPositions(w.cbits, 0, t));
      (exists i :: t <= i < |w.qubits| && w.qubits[i].earliestPos == m)
      || (exists j :: 0 <= j < t && w.cbits[j].earliestPos == m)
  {
    var n := |w.qubits|;
    var e := EarliestPositions(w.qubits, t, n) + CbitPositions(w.cbits, 0, t);
    var k :| 0 <= k < |e| && e[k] == Max(e);
    if k < n - t {
      assert w.qubits[t + k].earliestPos == e[k];
    } else {
      assert w.cbits[k - (n - t)].earliestPos == e[k];
    }
  }

  /** Classical bit c after a measurement into it at position pos. */
  function RecordOutcomeLink(c: Cbit, t: int, pos: int): Cbit {
    c.(connections := c.connections + [O], connectTo := c.connectTo + [t], connectPos := c.connectPos + [pos])
  }

  /**
   * A measurement of qubit t into classical bit t: an M gate on qubit t and
   * an O connection on classical bit t at the measurement position; qubits
   * t .. n-1 and every classical bit are reserved.
   */
  function PlaceMeasure(w: Wiring, t: int): (r: Wiring)
    requires 0 <= t < |w.qubits| && |w.cbits| == |w.qubits|
    ensures |r.qubits| == |w.qubits| && |r.cbits| == |w.cbits|
  {
    var n, pos := |w.qubits|, MeasurePosition(w, t);
    Wiring(
      TouchAll(w.qubits, GateAt(n, t, Cell(M, UNUSED_ANGLES)), LinksAt(n, [], Link(O, t)), pos, Span(n, t, n - 1)),
      seq(n, j requires 0 <= j < n => (if j == t then RecordOutcomeLink(w.cbits[j], t, pos) else w.cbits[j]).(earliestPos := pos + 1)))
  }

  /** The measurements of the targets, in turn. */
  function PlaceMeasures(w: Wiring, targets: seq<int>): (r: Wiring)
    requires |w.cbits| == |w.qubits| && forall k :: 0 <= k < |targets| ==> 0 <= targets[k] < |w.qubits|
    ensures |r.qubits| == |w.qubits| && |r.cbits| == |w.cbits|
  {
    if |targets| == 0 then w
    else PlaceMeasure(PlaceMeasures(w, targets[..|targets| - 1]), targets[|targets| - 1])
  }

  /** One more target is one more measurement, placed after those of the earlier targets. */
  lemma PlaceMeasuresStep(w: Wiring, targets: seq<int>, k: int)
    requires |w.cbits| == |w.qubits| && 0 <= k < |targets| && forall k :: 0 <= k < |targets| ==> 0 <= targets[k] < |w.qubits|
    ensures PlaceMeasures(w, targets[..k + 1]) == PlaceMeasure(PlaceMeasures(w, targets[..k]), targets[k])
  {
    assert targets[..k + 1][..k] == targets[..k];
  }

  /** Under the invariant the measurement position is at least the classical bits' shared next free position. */
  lemma MeasureAfterCounter(w: Wiring, t: int)
    requires |w.cbits| == |w.qubits| && SharedCounter(w.cbits) && CounterTracked(w.qubits, w.cbits) && 0 <= t < |w.qubits|
    ensures forall j :: 0 <= j < |w.cbits| ==> w.cbits[j].earliestPos <= MeasurePosition(w, t)
  {
    var n := |w.qubits|;
    assert w.cbits[0].earliestPos <= w.qubits[n - 1].earliestPos <= MeasurePosition(w, t);
  }

  /**
   * A new measurement lands strictly after every measurement already
   * recorded, on any qubit.
   */
  lemma MeasureIsLater(w: Wiring, t: int)
    requires |w.cbits| == |w.qubits| && QubitsOk(w.qubits) && CbitsOk(w.cbits) && MeasuresLinked(w.qubits, w.cbits)
    requires SharedCounter(w.cbits) && CounterTracked(w.qubits, w.cbits) && 0 <= t < |w.qubits|
    ensures forall i, g :: 0 <= i < |w.qubits| && 0 <= g < |w.qubits[i].gates| && w.qubits[i].gates[g] == M ==>
      w.qubits[i].gatePos[g] < MeasurePosition(w, t)
  {
    MeasureAfterCounter(w, t);
    forall i, g | 0 <= i < |w.qubits| && 0 <= g < |w.qubits[i].gates| && w.qubits[i].gates[g] == M
      ensures w.qubits[i].gatePos[g] < MeasurePosition(w, t)
    {
      assert QubitOk(w.qubits[i]);
      assert CbitOk(w.cbits[i]);
      var c :| 0 <= c < |w.cbits[i].connectPos| && w.cbits[i].connectPos[c] == w.qubits[i].gatePos[g];
    }
  }

  /** After a measurement every classical bit keeps its wire invariant and all share next free position pos + 1. */
  lemma MeasureKeepsCbits(w: Wiring, t: int)
    requires |w.cbits| == |w.qubits| && CbitsOk(w.cbits) && SharedCounter(w.cbits) && CounterTracked(w.qubits, w.cbits)
    requires 0 <= t < |w.qubits|
    ensures var r, pos := PlaceMeasure(w, t), MeasurePosition(w, t);
      CbitsOk(r.cbits) && forall j :: 0 <= j < |r.cbits| ==> r.cbits[j].earliestPos == pos + 1
  {
    var cs, pos := w.cbits, MeasurePosition(w, t);
    var r := PlaceMeasure(w, t);
    MeasureAfterCounter(w, t);
    forall j | 0 <= j < |cs| ensures CbitOk(r.cbits[j]) {
      assert CbitOk(cs[j]);
      if j == t { AppendPosition(cs[j].connectPos, cs[j].earliestPos, pos); }
    }
  }

  /** After a measurement the classical bits' connection positions are still pairwise distinct. */
  lemma MeasureKeepsDistinct(w: Wiring, t: int)
    requires |w.cbits| == |w.qubits| && CbitsOk(w.cbits) && SharedCounter(w.cbits) && CounterTracked(w.qubits, w.cbits)
    requires CbitPositionsDistinct(w.cbits) && 0 <= t < |w.qubits|
    ensures CbitPositionsDistinct(PlaceMeasure(w, t).cbits)
  {
    var cs, pos := w.cbits, MeasurePosition(w, t);
    var n := |cs|;
    var r := PlaceMeasure(w, t).cbits;
    MeasureAfterCounter(w, t);
    forall j | 0 <= j < n
      ensures r[j].connectPos == cs[j].connectPos + (if j == t then [pos] else [])
      ensures CbitOk(cs[j])
    {
      assert cs[j].connectPos + [] == cs[j].connectPos;
    }
    forall j1, c1, j2, c2 | 0 <= j1 < n && 0 <= j2 < n && j1 != j2 && 0 <= c1 < |r[j1].connectPos| && 0 <= c2 < |r[j2].connectPos|
      ensures r[j1].connectPos[c1] != r[j2].connectPos[c2]
    {
      if c1 < |cs[j1].connectPos| && c2 < |cs[j2].connectPos| {
        assert r[j1].connectPos[c1] == cs[j1].connectPos[c1];
        assert r[j2].connectPos[c2] == cs[j2].connectPos[c2];
      } else if c1 < |cs[j1].connectPos| {
        assert r[j1].connectPos[c1] == cs[j1].connectPos[c1] < cs[j1].earliestPos <= pos;
      } else {
        assert r[j2].connectPos[c2] == cs[j2].connectPos[c2] < cs[j2].earliestPos <= pos;
      }
    }
  }

  /** After a measurement every measurement gate, the new one included, is still linked to its classical bit. */
  lemma MeasureKeepsLinks(w: Wiring, t: int)
    requires |w.cbits| == |w.qubits| && QubitsOk(w.qubits) && MeasuresLinked(w.qubits, w.cbits) && 0 <= t < |w.qubits|
    requires var n := |w.qubits|;
      forall i :: 0 <= i < n ==> Appended(w.qubits[i], PlaceMeasure(w, t).qubits[i], GateAt(n, t, Cell(M, UNUSED_ANGLES))[i], LinksAt(n, [], Link(O, t))[i], MeasurePosition(w, t))
    ensures MeasuresLinked(PlaceMeasure(w, t).qubits, PlaceMeasure(w, t).cbits)
  {
    var qs, cs, pos := w.qubits, w.cbits, MeasurePosition(w, t);
    var n := |qs|;
    var r := PlaceMeasure(w, t);
    var gs, ls := GateAt(n, t, Cell(M, UNUSED_ANGLES)), LinksAt(n, [], Link(O, t));
    forall j | 0 <= j < n
      ensures r.cbits[j].connectPos == cs[j].connectPos + (if j == t then [pos] else [])
    {
      assert cs[j].connectPos + [] == cs[j].connectPos;
    }
    forall u, g | 0 <= u < n && u < |r.cbits| && 0 <= g < |r.qubits[u].gates| && g < |r.qubits[u].gatePos| && r.qubits[u].gates[g] == M
      ensures r.qubits[u].gatePos[g] in r.cbits[u].connectPos
    {
      assert Appended(qs[u], r.qubits[u], gs[u], ls[u], pos);
      assert QubitOk(qs[u]);
      if g < |qs[u].gates| {
        assert qs[u].gates[g] == M && r.qubits[u].gatePos[g] == qs[u].gatePos[g];
        var c :| 0 <= c < |cs[u].connectPos| && cs[u].connectPos[c] == qs[u].gatePos[g];
        assert r.cbits[u].connectPos[c] == cs[u].connectPos[c];
      } else {
        assert u == t && r.qubits[u].gatePos[g] == pos;
        assert r.cbits[t].connectPos[|cs[t].connectPos|] == pos;
      }
    }
  }

  /** A measurement keeps the qubit part of the invariant and appends only its M gate, at its position. */
  lemma MeasureKeepsQubits(w: Wiring, fences: set<int>, t: int)
    requires QubitsOk(w.qubits) && PeersHold(w.qubits) && AllRecordTagsOk(w.qubits) && FencesHold(w.qubits, fences)
    requires 0 <= t < |w.qubits| && |w.cbits| == |w.qubits|
    ensures var r, n, pos := PlaceMeasure(w, t).qubits, |w.qubits|, MeasurePosition(w, t);
      && QubitsOk(r) && PeersHold(r) && AllRecordTagsOk(r) && FencesHold(r, fences)
      && (forall i :: 0 <= i < n ==> if t <= i then r[i].earliestPos == pos + 1 else r[i] == w.qubits[i])
      && forall i :: 0 <= i < n ==> Appended(w.qubits[i], r[i], GateAt(n, t, Cell(M, UNUSED_ANGLES))[i], LinksAt(n, [], Link(O, t))[i], pos)
  {
    var qs := w.qubits;
    var n, pos := |qs|, MeasurePosition(w, t);
    var gs, ls, rs := GateAt(n, t, Cell(M, UNUSED_ANGLES)), LinksAt(n, [], Link(O, t)), Span(n, t, n - 1);
    SingleFits(qs, t, Cell(M, UNUSED_ANGLES), Link(O, t), pos, n - 1);
    FencesBefore(qs, fences, t, pos);
    TouchAllKeeps(qs, fences, gs, ls, pos, rs);
    assert PlaceMeasure(w, t).qubits == TouchAll(qs, gs, ls, pos, rs);
    MeasureReserves(w, t);
  }

  /** A measurement of qubit t moves qubits t .. n-1 to the position after it and leaves the lower qubits as they were. */
  lemma MeasureReserves(w: Wiring, t: int)
    requires 0 <= t < |w.qubits| && |w.cbits| == |w.qubits|
    ensures var r, n, pos := PlaceMeasure(w, t).qubits, |w.qubits|, MeasurePosition(w, t);
      forall i :: 0 <= i < n ==> if t <= i then r[i].earliestPos == pos + 1 else r[i] == w.qubits[i]
  {
  }

  /** A measurement keeps the circuit invariant. */
  lemma MeasureKeepsOk(w: Wiring, fences: set<int>, t: int)
    requires CircuitOk(w, fences) && 0 <= t < |w.qubits|
    ensures CircuitOk(PlaceMeasure(w, t), fences)
  {
    MeasureKeepsQubits(w, fences, t);
    MeasureKeepsCbits(w, t);
    MeasureKeepsDistinct(w, t);
    MeasureKeepsLinks(w, t);
  }

  /** Measuring every target in turn keeps the circuit invariant. */
  lemma {:induction false} MeasuresKeepOk(w: Wiring, fences: set<int>, targets: seq<int>)
    requires CircuitOk(w, fences) && forall k :: 0 <= k < |targets| ==> 0 <= targets[k] < |w.qubits|
    ensures CircuitOk(PlaceMeasures(w, targets), fences)
  {
    if |targets| > 0 {
      var init := targets[..|targets| - 1];
      MeasuresKeepOk(w, fences, init);
      MeasureKeepsOk(PlaceMeasures(w, init), fences, targets[|targets| - 1]);
    }
  }

  /**
   * Under the invariant no two measurement gates share a position: a
   * circuit position holds at most one measurement.
   */
  lemma OneMeasurementPerPosition(w: Wiring, fences: set<int>, t1: int, g1: int, t2: int, g2: int)
    requires CircuitOk(w, fences)
    requires 0 <= t1 < |w.qubits| && 0 <= g1 < |w.qubits[t1].gates| && w.qubits[t1].gates[g1] == M
    requires 0 <= t2 < |w.qubits| && 0 <= g2 < |w.qubits[t2].gates| && w.qubits[t2].gates[g2] == M
    requires w.qubits[t1].gatePos[g1] == w.qubits[t2].gatePos[g2]
    ensures t1 == t2 && g1 == g2
  {
    assert QubitOk(w.qubits[t1]) && QubitOk(w.qubits[t2]);
    var p := w.qubits[t1].gatePos[g1];
    var c1 :| 0 <= c1 < |w.cbits[t1].connectPos| && w.cbits[t1].connectPos[c1] == p;
    var c2 :| 0 <= c2 < |w.cbits[t2].connectPos| && w.cbits[t2].connectPos[c2] == p;
  }

  // Steps of the imperative methods

  /** With nothing reserved, a gate record on wire t alone is one record appended to that wire. */
  lemma GateStep(qs: seq<Qubit>, t: int, cell: Cell, link: Link, pos: int, reserved: seq<bool>)
    requires 0 <= t < |qs| && |reserved| == |qs| && forall i :: 0 <= i < |qs| ==> !reserved[i]
    ensures TouchAll(qs, GateAt(|qs|, t, cell), LinksAt(|qs|, [], link), pos, reserved) ==
      qs[t := RecordGate(qs[t], cell.tag, cell.angles, pos)]
  {
    var r := TouchAll(qs, GateAt(|qs|, t, cell), LinksAt(|qs|, [], link), pos, reserved);
    forall i | 0 <= i < |qs|
      ensures r[i] == qs[t := RecordGate(qs[t], cell.tag, cell.angles, pos)][i]
    {
      assert i !in [];
    }
  }

  /**
   * One more linked wire on an unreserved wire not linked before: that
   * wire gains one connection record.
   */
  lemma LinkStep(qs: seq<Qubit>, gs: seq<Option<Cell>>, wires: seq<int>, k: int, link: Link, pos: int, reserved: seq<bool>)
    requires |gs| == |qs| && |reserved| == |qs|
    requires 0 <= k < |wires| && 0 <= wires[k] < |qs| && wires[k] !in wires[..k] && !reserved[wires[k]]
    ensures var n, before := |qs|, TouchAll(qs, gs, LinksAt(|qs|, wires[..k], link), pos, reserved);
      TouchAll(qs, gs, LinksAt(n, wires[..k + 1], link), pos, reserved) ==
      before[wires[k] := RecordConnection(before[wires[k]], link.tag, link.peer, pos)]
  {
    var n := |qs|;
    var before := TouchAll(qs, gs, LinksAt(n, wires[..k], link), pos, reserved);
    var after := TouchAll(qs, gs, LinksAt(n, wires[..k + 1], link), pos, reserved);
    assert wires[..k + 1] == wires[..k] + [wires[k]];
    forall i | 0 <= i < n
      ensures after[i] == before[wires[k] := RecordConnection(before[wires[k]], link.tag, link.peer, pos)][i]
    {
      assert (i in wires[..k + 1]) == (i in wires[..k] || i == wires[k]);
    }
  }

  /** Wires lo .. hi of r moved past position pos, the others unchanged. */
  function Reserved(r: seq<Qubit>, lo: int, hi: int, pos: int): (r': seq<Qubit>)
    ensures |r'| == |r|
  {
    seq(|r|, i requires 0 <= i < |r| => if lo <= i <= hi then r[i].(earliestPos := pos + 1) else r[i])
  }

  /** Reserving a span is the same as placing the records with nothing reserved and then moving the span on. */
  lemma TouchAllReserved(qs: seq<Qubit>, gs: seq<Option<Cell>>, ls: seq<Option<Link>>, pos: int, lo: int, hi: int)
    requires |gs| == |qs| && |ls| == |qs|
    ensures var n := |qs|;
      TouchAll(qs, gs, ls, pos, Span(n, lo, hi)) == Reserved(TouchAll(qs, gs, ls, pos, Span(n, 0, -1)), lo, hi, pos)
  {
  }

  // The methods' loops, on values

  /**
   * The wire updates of a controlled gate or SWAP as the method performs
   * them: the gate on the target, a connection on each linked wire in
   * turn, then every wire of the span moved past the position.
   */
  method LinkWires(qs: seq<Qubit>, tag: Tag, angles: AngleList, linkTag: Tag, links: seq<int>, target: int) returns (r: seq<Qubit>)
    requires |links| > 0 && 0 <= target < |qs| && forall k :: 0 <= k < |links| ==> 0 <= links[k] < |qs|
    requires forall k, l :: 0 <= k < l < |links| ==> links[k] != links[l]
    ensures r == PlaceLinked(qs, tag, angles, linkTag, links, target)
  {
    var n := |qs|;
    SpanCovers(n, links, target);
    var lo, hi := Min(links + [target]), Max(links + [target]);
    var position := SpanPosition(qs, lo, hi);
    ghost var link := Link(linkTag, target);
    ghost var gs, ls := GateAt(n, target, Cell(tag, angles)), LinksAt(n, links, link);
    ghost var none := Span(n, 0, -1);
    GateStep(qs, target, Cell(tag, angles), link, position, none);
    r := qs[target := RecordGate(qs[target], tag, angles, position)];
    assert links[..0] == [];
    for k := 0 to |links|
      invariant r == TouchAll(qs, gs, LinksAt(n, links[..k], link), position, none)
    {
      var control := links[k];
      LinkStep(qs, gs, links, k, link, position, none);
      r := r[control := RecordConnection(r[control], linkTag, target, position)];
    }
    assert links[..|links|] == links;
    r := ReserveWires(r, lo, hi, position);
    TouchAllReserved(qs, gs, ls, position, lo, hi);
  }

  /**
   * The wire updates of a barrier: the B gate on qubit 0, the B connection
   * on the last qubit, then every qubit moved past the position.
   */
  method FenceWires(qs: seq<Qubit>) returns (r: seq<Qubit>, earliestPosition: int)
    requires |qs| > 0
    ensures r == PlaceBarrier(qs) && earliestPosition == BarrierPosition(qs)
  {
    var n := |qs|;
    earliestPosition := BarrierPosition(qs);
    ghost var link := Link(B, 0);
    ghost var gs, ls := GateAt(n, 0, Cell(B, UNUSED_ANGLES)), LinksAt(n, [n - 1], link);
    ghost var none := Span(n, 0, -1);
    GateStep(qs, 0, Cell(B, UNUSED_ANGLES), link, earliestPosition, none);
    r := qs[0 := RecordGate(qs[0], B, UNUSED_ANGLES, earliestPosition)];
    assert [n - 1][..0] == [] && [n - 1][..1] == [n - 1];
    LinkStep(qs, gs, [n - 1], 0, link, earliestPosition, none);
    r := r[n - 1 := RecordConnection(r[n - 1], B, 0, earliestPosition)];
    r := ReserveWires(r, 0, n - 1, earliestPosition);
    TouchAllReserved(qs, gs, ls, earliestPosition, 0, n - 1);
  }

  /**
   * The candidate positions of a measurement of qubit `target`: the next
   * free positions of the qubits from the target on, then those of the
   * classical bits below it, one by one.
   */
  method MeasureCandidates(w: Wiring, target: int) returns (earliestPositions: seq<int>)
    requires 0 <= target < |w.qubits| && |w.cbits| == |w.qubits|
    ensures earliestPositions == EarliestPositions(w.qubits, target, |w.qubits|) + CbitPositions(w.cbits, 0, target)
  {
    earliestPositions := EarliestPositions(w.qubits, target, |w.qubits|);
    for j := 0 to target
      invariant earliestPositions == EarliestPositions(w.qubits, target, |w.qubits|) + CbitPositions(w.cbits, 0, j)
    {
      earliestPositions := earliestPositions + [w.cbits[j].earliestPos];
    }
  }

  /** Every classical bit moved past position pos, one by one. */
  method StampCbits(cs: seq<Cbit>, pos: int) returns (r: seq<Cbit>)
    ensures |r| == |cs| && forall j :: 0 <= j < |cs| ==> r[j] == cs[j].(earliestPos := pos + 1)
  {
    r := cs;
    for j := 0 to |cs|
      invariant |r| == |cs|
      invariant forall m :: 0 <= m < |cs| ==> r[m] == if m < j then cs[m].(earliestPos := pos + 1) else cs[m]
    {
      r := r[j := r[j].(earliestPos := pos + 1)];
    }
  }

  /**
   * The qubit updates of a measurement at a given position: the M gate on
   * the target, then the qubits from the target on moved past it.
   */
  method MeasureQubitWires(qs: seq<Qubit>, target: int, position: int) returns (r: seq<Qubit>)
    requires 0 <= target < |qs|
    ensures var n := |qs|;
      r == TouchAll(qs, GateAt(n, target, Cell(M, UNUSED_ANGLES)), LinksAt(n, [], Link(O, target)), position, Span(n, target, n - 1))
  {
    var n := |qs|;
    ghost var gs, ls := GateAt(n, target, Cell(M, UNUSED_ANGLES)), LinksAt(n, [], Link(O, target));
    GateStep(qs, target, Cell(M, UNUSED_ANGLES), Link(O, target), position, Span(n, 0, -1));
    r := qs[target := RecordGate(qs[target], M, UNUSED_ANGLES, position)];
    r := ReserveWires(r, target, n - 1, position);
    TouchAllReserved(qs, gs, ls, position, target, n - 1);
  }

  /**
   * The classical-bit updates of a measurement at a given position: the O
   * connection on the target's bit, then every bit moved past it.
   */
  method MeasureCbitWires(cs: seq<Cbit>, target: int, position: int) returns (r: seq<Cbit>)
    requires 0 <= target < |cs|
    ensures r == seq(|cs|, j requires 0 <= j < |cs| =>
      (if j == target then RecordOutcomeLink(cs[j], target, position) else cs[j]).(earliestPos := position + 1))
  {
    r := cs[target := RecordOutcomeLink(cs[target], target, position)];
    r := StampCbits(r, position);
  }

  /**
   * The wire updates of one measurement: the largest candidate position,
   * then the qubit and classical-bit records there.
   */
  method MeasureWires(w: Wiring, target: int) returns (r: Wiring)
    requires 0 <= target < |w.qubits| && |w.cbits| == |w.qubits|
    ensures r == PlaceMeasure(w, target)
  {
    var earliestPositions := MeasureCandidates(w, target);
    var position := Max(earliestPositions);
    assert position == MeasurePosition(w, target);
    var qs := MeasureQubitWires(w.qubits, target, position);
    var cs := MeasureCbitWires(w.cbits, target, position);
    r := Wiring(qs, cs);
  }

  /** Wires lo .. hi moved past position pos, one by one. */
  method ReserveWires(qs: seq<Qubit>, lo: int, hi: int, pos: int) returns (r: seq<Qubit>)
    requires 0 <= lo <= hi + 1 <= |qs|
    ensures r == Reserved(qs, lo, hi, pos)
  {
    r := qs;
    assert r == Reserved(qs, lo, lo - 1, pos);
    for i := lo to hi + 1
      invariant r == Reserved(qs, lo, i - 1, pos)
    {
      r := r[i := r[i].(earliestPos := pos + 1)];
    }
  }
}
