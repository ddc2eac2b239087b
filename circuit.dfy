/**
 * The circuit object: its qubit and classical-bit wires, its state, and the
 * methods that schedule gates onto the wires and run the circuit. The
 * wires are value records held in sequence fields; each circuit creates
 * its own and never shares them.
 */
module Circuits {
  import opened Gates
  import opened Wires
  import opened Grids
  import opened Operators
  import opened Execution
  import opened Schedule

  /** The classical bits' states, bit 0 first. */
  function Bits(cs: seq<Cbit>): (b: seq<Bit>)
    ensures |b| == |cs|
  {
    seq(|cs|, j requires 0 <= j < |cs| => cs[j].state)
  }

  /** The classical-bit wires with their values cleared: the part of them a shot leaves alone. */
  function Unvalued(cs: seq<Cbit>): (r: seq<Cbit>)
    ensures |r| == |cs|
  {
    seq(|cs|, j requires 0 <= j < |cs| => cs[j].(state := 0))
  }

  /** What each row of the compiled grid does to a shot. */
  function Actions(qs: seq<Qubit>): (a: seq<RowAction>)
    requires QubitsOk(qs)
    ensures |a| == CircuitLength(qs) && ActionsFit(a, |qs|)
    ensures forall r :: 0 <= r < |a| ==> |Grid(qs)[r]| == |qs| > 0 && a[r] == Classify(Grid(qs)[r])
  {
    var len := CircuitLength(qs);
    seq(len, r requires 0 <= r < len =>
      var cells := Grid(qs)[r];
      GridCell(qs, r, 0);
      Classify(cells))
  }

  /** Every cell strictly between the first and the last is idle. */
  predicate IdleBetween(row: seq<Cell>) {
    forall i :: 0 < i < |row| - 1 ==> row[i] == IDLE_CELL
  }

  /** A barrier position names a grid row whose column 0 shows the barrier. */
  lemma BarrierRowColumn(qs: seq<Qubit>, p: int)
    requires Compilable(qs) && FenceOk(qs, p)
    ensures 1 <= p <= CircuitLength(qs) && |Grid(qs)[p - 1]| == |qs|
    ensures Grid(qs)[p - 1][0].tag == B
  {
    var g :| 0 <= g < |qs[0].gates| && g < |qs[0].gatePos| && qs[0].gatePos[g] == p && qs[0].gates[g] == B;
    RowOf(qs, 0, p);
    if p in qs[0].connectPos {
      var c :| 0 <= c < |qs[0].connectPos| && qs[0].connectPos[c] == p;
      assert QubitOk(qs[0]);
      FenceConnection(qs, p, 0, c);
      ConnectionCell(qs, 0, c, p);
    } else {
      GateCell(qs, 0, g, p);
    }
  }

  /** The row of a barrier position is skipped. */
  lemma BarrierRowSkipped(qs: seq<Qubit>, p: int)
    requires Compilable(qs) && FenceOk(qs, p)
    ensures 1 <= p <= CircuitLength(qs) && Actions(qs)[p - 1] == Skip
  {
    BarrierRowColumn(qs, p);
    var row := Grid(qs)[p - 1];
    assert Actions(qs)[p - 1] == Classify(row);
  }

  /** In a barrier row every column strictly between the first and the last is idle. */
  lemma BarrierRowIdle(qs: seq<Qubit>, p: int)
    requires Compilable(qs) && AllRecordTagsOk(qs) && FenceOk(qs, p) && 1 <= p <= CircuitLength(qs)
    ensures IdleBetween(Grid(qs)[p - 1])
  {
    var row := Grid(qs)[p - 1];
    GridCell(qs, p - 1, 0);
    forall i | 0 < i < |qs| - 1
      ensures row[i] == IDLE_CELL
    {
      assert RecordTagsOk(qs[i]) && QubitOk(qs[i]);
      CellSource(qs, p - 1, i);
    }
  }

  /**
   * A grid row of a well-formed circuit holds at most one measurement cell,
   * so the measured qubit of a measurement row is its only M cell.
   */
  lemma OneMeasurementPerRow(w: Wiring, fences: set<int>, r: int, i1: int, i2: int)
    requires CircuitOk(w, fences) && 0 <= r < CircuitLength(w.qubits)
    requires 0 <= i1 < |w.qubits| && 0 <= i2 < |w.qubits|
    requires Grid(w.qubits)[r][i1].tag == M && Grid(w.qubits)[r][i2].tag == M
    ensures i1 == i2
  {
    var qs := w.qubits;
    assert RecordTagsOk(qs[i1]) && RecordTagsOk(qs[i2]);
    CellSource(qs, r, i1);
    CellSource(qs, r, i2);
    var g1 :| 0 <= g1 < |qs[i1].gates| && qs[i1].gatePos[g1] == r + 1 && qs[i1].gates[g1] == M;
    var g2 :| 0 <= g2 < |qs[i2].gates| && qs[i2].gatePos[g2] == r + 1 && qs[i2].gates[g2] == M;
    OneMeasurementPerPosition(w, fences, i1, g1, i2, g2);
  }

  /** The compiled grid's rows are the rows the actions classify. */
  lemma GridActions(qs: seq<Qubit>, grid: seq<seq<Cell>>)
    requires QubitsOk(qs) && grid == Grid(qs)
    ensures |grid| == |Actions(qs)| && ActionsFit(Actions(qs), |qs|)
    ensures forall r :: 0 <= r < |grid| ==> |grid[r]| > 0 && Actions(qs)[r] == Classify(grid[r])
  {
  }

  /** The classical bits' states play no part in the circuit invariant. */
  lemma CbitStatesIgnored(w: Wiring, fences: set<int>, cs: seq<Cbit>)
    requires CircuitOk(w, fences) && Unvalued(cs) == Unvalued(w.cbits)
    ensures CircuitOk(Wiring(w.qubits, cs), fences)
  {
    forall j | 0 <= j < |cs| ensures cs[j] == w.cbits[j].(state := cs[j].state) {
      assert Unvalued(cs)[j] == Unvalued(w.cbits)[j];
    }
    forall j | 0 <= j < |cs| ensures CbitOk(cs[j]) {
      assert CbitOk(w.cbits[j]);
    }
  }

  class Circuit {
    const numQubits: nat
    var qubits: seq<Qubit>
    var cbits: seq<Cbit>
    var state: StateExpr
    /** The positions holding a barrier. */
    ghost var fences: set<int>

    ghost predicate Valid()
      reads this
    {
      |qubits| == numQubits && CircuitOk(Wiring(qubits, cbits), fences)
    }

    /**
     * A circuit of numQubits qubits and as many classical bits, all wires
     * empty, in the all-zero state vector of length 2^numQubits.
     */
    constructor (numQubits: nat)
      ensures Valid() && this.numQubits == numQubits && fences == {}
      ensures Wiring(qubits, cbits) == FreshWiring(numQubits)
      ensures state.Vector? && |state.amplitudes| == Pow2(numQubits)
      ensures state.amplitudes[0] == 1 && forall j :: 0 < j < |state.amplitudes| ==> state.amplitudes[j] == 0
    {
      this.numQubits := numQubits;
      qubits := seq(numQubits, _ => FRESH_QUBIT);
      var v := InitialState(numQubits);
      state := Vector(v);
      cbits := seq(numQubits, _ => FreshCbit(0));
      fences := {};
    }

    /** One target of a single-qubit gate method: the gate at the target's next free position, which moves on by one. */
    method GateOn(tag: Tag, angles: AngleList, target: int)
      requires Valid() && IsSingleQubitGate(tag) && 0 <= target < numQubits
      modifies this
      ensures Valid() && fences == old(fences) && cbits == old(cbits) && state == old(state)
      ensures qubits == PlaceGate(old(qubits), tag, angles, target)
    {
      ghost var before := qubits;
      var q := qubits[target];
      q := q.(gates := q.gates + [tag], gateAngles := q.gateAngles + [angles], gatePos := q.gatePos + [q.earliestPos]);
      q := q.(earliestPos := q.earliestPos + 1);
      qubits := qubits[target := q];
      PlaceGateEffect(before, tag, angles, target);
      GateKeepsOk(Wiring(before, cbits), fences, tag, angles, target);
    }

    /**
     * A single-qubit gate (X, Y, Z, H, S, T, P, RX, RY, RZ or U) on each
     * target in turn, with the angle list its method builds.
     */
    method Gate(tag: Tag, angles: AngleList, targets: seq<int>)
      requires Valid() && IsSingleQubitGate(tag) && AnglesFit(tag, angles)
      requires forall k :: 0 <= k < |targets| ==> 0 <= targets[k] < numQubits
      modifies this
      ensures Valid() && fences == old(fences) && cbits == old(cbits) && state == old(state)
      ensures qubits == PlaceGates(old(qubits), tag, angles, targets)
    {
      for k := 0 to |targets|
        invariant Valid() && fences == old(fences) && cbits == old(cbits) && state == old(state)
        invariant qubits == PlaceGates(old(qubits), tag, angles, targets[..k])
      {
        PlaceGatesStep(old(qubits), tag, angles, targets, k);
        GateOn(tag, angles, targets[k]);
      }
      assert targets[..|targets|] == targets;
    }

    /**
     * The scheduling shared by the controlled gates and SWAP: the gate on
     * the target, a connection to the target on each linked wire, at the
     * largest next free position over the span, which is then reserved.
     */
    method Connect(tag: Tag, angles: AngleList, linkTag: Tag, links: seq<int>, target: int)
      requires Valid()
      requires |links| > 0 && 0 <= target < numQubits && forall k :: 0 <= k < |links| ==> 0 <= links[k] < numQubits
      requires forall k, l :: 0 <= k < l < |links| ==> links[k] != links[l]
      requires tag != I && tag != M && linkTag != I && linkTag != M
      modifies this
      ensures Valid() && fences == old(fences) && cbits == old(cbits) && state == old(state)
      ensures qubits == PlaceLinked(old(qubits), tag, angles, linkTag, links, target)
    {
      LinkedKeepsOk(Wiring(qubits, cbits), fences, tag, angles, linkTag, links, target);
      qubits := LinkWires(qubits, tag, angles, linkTag, links, target);
    }

    /**
     * A controlled gate (CX, CY, CZ, CP, CRX, CRY, CRZ or CU): the gate on
     * the target and a C connection on every control.
     */
    method ControlledGate(tag: Tag, angles: AngleList, controls: seq<int>, target: int)
      requires Valid() && HasControlledForm(tag) && AnglesFit(tag, angles)
      requires |controls| > 0 && 0 <= target < numQubits && forall k :: 0 <= k < |controls| ==> 0 <= controls[k] < numQubits
      requires forall k, l :: 0 <= k < l < |controls| ==> controls[k] != controls[l]
      modifies this
      ensures Valid() && fences == old(fences) && cbits == old(cbits) && state == old(state)
      ensures qubits == PlaceLinked(old(qubits), tag, angles, C, controls, target)
    {
      Connect(tag, angles, C, controls, target);
    }

    /** SWAP: the gate on target2 and a SWAP connection on target1. */
    method Swap(target1: int, target2: int)
      requires Valid() && 0 <= target1 < numQubits && 0 <= target2 < numQubits
      modifies this
      ensures Valid() && fences == old(fences) && cbits == old(cbits) && state == old(state)
      ensures qubits == PlaceLinked(old(qubits), Gates.Swap, UNUSED_ANGLES, Gates.Swap, [target1], target2)
    {
      Connect(Gates.Swap, UNUSED_ANGLES, Gates.Swap, [target1], target2);
    }

    /**
     * A barrier across all qubits at the largest next free position; every
     * qubit moves past it.
     */
    method Barrier()
      requires Valid() && numQubits > 0
      modifies this
      ensures Valid() && cbits == old(cbits) && state == old(state)
      ensures qubits == PlaceBarrier(old(qubits))
      ensures fences == old(fences) + {BarrierPosition(old(qubits))}
      ensures forall i :: 0 <= i < numQubits ==> qubits[i].earliestPos == BarrierPosition(old(qubits)) + 1
    {
      BarrierKeepsOk(Wiring(qubits, cbits), fences);
      NewFence(qubits);
      var earliestPosition;
      qubits, earliestPosition := FenceWires(qubits);
      fences := fences + {earliestPosition};
    }

    /**
     * Measure one qubit into the classical bit of the same index, at the
     * largest next free position over the qubits from the target on and
     * the classical bits below it.
     */
    method MeasureQubit(target: int)
      requires Valid() && 0 <= target < numQubits
      modifies this
      ensures Valid() && fences == old(fences) && state == old(state)
      ensures Wiring(qubits, cbits) == PlaceMeasure(old(Wiring(qubits, cbits)), target)
    {
      MeasureKeepsOk(Wiring(qubits, cbits), fences, target);
      var w := MeasureWires(Wiring(qubits, cbits), target);
      qubits, cbits := w.qubits, w.cbits;
    }

    /** Measure each target in turn into the classical bit of the same index. */
    method Measure(targets: seq<int>)
      requires Valid() && forall k :: 0 <= k < |targets| ==> 0 <= targets[k] < numQubits
      modifies this
      ensures Valid() && fences == old(fences) && state == old(state)
      ensures Wiring(qubits, cbits) == PlaceMeasures(old(Wiring(qubits, cbits)), targets)
    {
      for k := 0 to |targets|
        invariant Valid() && fences == old(fences) && state == old(state)
        invariant Wiring(qubits, cbits) == PlaceMeasures(old(Wiring(qubits, cbits)), targets[..k])
      {
        PlaceMeasuresStep(old(Wiring(qubits, cbits)), targets, k);
        MeasureQubit(targets[k]);
      }
      assert targets[..|targets|] == targets;
    }

    /**
     * One row of a shot: a skipped or dropped row leaves the shot alone, an
     * operator evolves the state, a measurement (the draw `zero(shot, row)`
     * choosing outcome 0) collapses it and writes the outcome into the
     * classical bit of the measured column.
     */
    method RunRow(action: RowAction, row: nat, shot: nat, zero: (nat, nat) -> bool)
      requires !action.Fails?
      requires action.Measurement? ==> action.qubit < |cbits|
      modifies this
      ensures qubits == old(qubits) && fences == old(fences)
      ensures Unvalued(cbits) == Unvalued(old(cbits))
      ensures Shot(state, Bits(cbits)) == Step(action, row, Shot(old(state), Bits(old(cbits))), Draws(zero, shot))
    {
      match action {
        case Skip =>
        case Discarded(_) =>
        case Apply(op) =>
          state := Evolved(op, state);
        case Measurement(zeroProjector, oneProjector, measuredQubit) =>
          var outcome: Bit := if zero(shot, row) then 0 else 1;
          cbits := cbits[measuredQubit := cbits[measuredQubit].(state := outcome)];
          state := Collapsed(if outcome == 0 then zeroProjector else oneProjector, state);
          assert Bits(cbits) == Bits(old(cbits))[measuredQubit := outcome];
          assert Unvalued(cbits) == Unvalued(old(cbits));
      }
    }

    /**
     * One shot over the compiled grid, from `origin`, row by row. It stops
     * at the first row that raises (`completed` false), with the rows
     * before it applied.
     */
    method RunShot(grid: seq<seq<Cell>>, ghost actions: seq<RowAction>, shot: nat, zero: (nat, nat) -> bool, origin: StateExpr)
      returns (completed: bool)
      requires |grid| == |actions| && ActionsFit(actions, |cbits|)
      requires forall r :: 0 <= r < |grid| ==> |grid[r]| > 0 && actions[r] == Classify(grid[r])
      modifies this
      ensures qubits == old(qubits) && fences == old(fences)
      ensures Unvalued(cbits) == Unvalued(old(cbits))
      ensures completed <==> FailureFrom(actions, 0).None?
      ensures var reached := if completed then |actions| else FailureFrom(actions, 0).value;
        Completes(actions, reached) &&
        Shot(state, Bits(cbits)) == RunRows(actions, reached, Shot(origin, Bits(old(cbits))), Draws(zero, shot))
    {
      ghost var start := Shot(origin, Bits(cbits));
      state := origin;
      for pos := 0 to |grid|
        invariant qubits == old(qubits) && fences == old(fences)
        invariant Unvalued(cbits) == Unvalued(old(cbits))
        invariant Completes(actions, pos)
        invariant Shot(state, Bits(cbits)) == RunRows(actions, pos, start, Draws(zero, shot))
      {
        var gates := grid[pos];
        var action := Synthesize(gates);
        if action.Fails? {
          assert FailureFrom(actions, 0) == Some(pos);
          return false;
        }
        RunRow(action, pos, shot, zero);
      }
      return true;
    }

    /**
     * `shots` shots over the compiled grid, each from `origin` and from the
     * classical bits the previous shot left, each recording its result
     * string. A raising row ends the run in the first shot, with no
     * results (None).
     */
    method RunAllShots(grid: seq<seq<Cell>>, ghost actions: seq<RowAction>, shots: nat, zero: (nat, nat) -> bool, origin: StateExpr)
      returns (results: Option<seq<string>>)
      requires |grid| == |actions| && ActionsFit(actions, |cbits|) && state == origin
      requires forall r :: 0 <= r < |grid| ==> |grid[r]| > 0 && actions[r] == Classify(grid[r])
      modifies this
      ensures qubits == old(qubits) && fences == old(fences)
      ensures Unvalued(cbits) == Unvalued(old(cbits))
      ensures var e := RunCircuit(actions, origin, Bits(old(cbits)), shots, zero);
        results == (if e.Finished? then Some(e.results) else None) && state == e.last.state && Bits(cbits) == e.last.bits
    {
      ghost var bits0 := Bits(cbits);
      var recorded := seq(shots, _ => "");
      for s := 0 to shots
        invariant qubits == old(qubits) && fences == old(fences)
        invariant Unvalued(cbits) == Unvalued(old(cbits))
        invariant |recorded| == shots
        invariant s > 0 ==> FailureFrom(actions, 0).None?
        invariant s == 0 ==> state == origin && Bits(cbits) == bits0
        invariant FailureFrom(actions, 0).None? ==> var o := RunShots(actions, origin, bits0, s, zero);
          recorded[..s] == o.results && state == o.last.state && Bits(cbits) == o.last.bits
      {
        ghost var bitsBefore := Bits(cbits);
        var completed := RunShot(grid, actions, s, zero, origin);
        if !completed {
          return None;
        }
        ghost var before := RunShots(actions, origin, bits0, s, zero);
        ghost var after := RunShots(actions, origin, bits0, s + 1, zero);
        assert bitsBefore == before.last.bits;
        assert Shot(state, Bits(cbits)) == after.last;
        var result := FormatResult(Bits(cbits));
        recorded := recorded[s := result];
        assert recorded[..s + 1] == before.results + [result] == after.results;
      }
      assert recorded[..shots] == recorded;
      return Some(recorded);
    }

    /**
     * Run the circuit `shots` times. The grid is compiled once; every shot
     * restarts from the state the circuit had when the run began. The
     * classical bits keep their values from shot to shot, and the circuit
     * keeps the last shot's state. A row that raises ends the run in the
     * first shot without results (None), leaving the state and bits that
     * shot had reached.
     */
    method Run(shots: nat, zero: (nat, nat) -> bool) returns (results: Option<seq<string>>)
      requires Valid()
      modifies this
      ensures Valid() && qubits == old(qubits) && fences == old(fences)
      ensures var e := RunCircuit(Actions(old(qubits)), old(state), Bits(old(cbits)), shots, zero);
        results == (if e.Finished? then Some(e.results) else None) && state == e.last.state && Bits(cbits) == e.last.bits
    {
      var grid := Compile(qubits);
      GridActions(qubits, grid);
      ghost var w0 := Wiring(qubits, cbits);
      var originalState := state;
      results := RunAllShots(grid, Actions(qubits), shots, zero, originalState);
      CbitStatesIgnored(w0, fences, cbits);
    }
  }
}
