/**
 * Grid compilation: the per-wire records become a position-major grid with
 * one row per circuit position and one column per qubit. Positions are
 * 1-based, rows 0-based; a cell nobody writes holds the identity tag. Per
 * qubit the gates are written first and then the connections, so when both
 * share a position the connection's tag replaces the gate's (its angle list
 * stays, because connections only touch the tag grid).
 */
module Grids {
  import opened Gates
  import opened Wires

  /** A circuit's records can be compiled: every wire keeps its invariant and every connection has its peer gate. */
  predicate Compilable(qs: seq<Qubit>) {
    QubitsOk(qs) && PeersHold(qs)
  }

  /**
   * The circuit length: the largest last gate position over the qubits that
   * host gates, 0 when none does.
   */
  function CircuitLength(qs: seq<Qubit>): (len: int)
    requires QubitsOk(qs)
    ensures 0 <= len
    ensures forall i :: 0 <= i < |qs| && |qs[i].gatePos| > 0 ==> qs[i].gatePos[|qs[i].gatePos| - 1] <= len
    ensures len == 0 || exists i :: 0 <= i < |qs| && |qs[i].gatePos| > 0 && qs[i].gatePos[|qs[i].gatePos| - 1] == len
  {
    if |qs| == 0 then 0
    else
      var rest := CircuitLength(qs[..|qs| - 1]);
      assert forall i :: 0 <= i < |qs| - 1 ==> qs[..|qs| - 1][i] == qs[i];
      var q := qs[|qs| - 1];
      assert QubitOk(q);
      if |q.gates| > 0 && q.gatePos[|q.gatePos| - 1] > rest then q.gatePos[|q.gatePos| - 1] else rest
  }

  /** The index of the last occurrence of `v` in `s`. */
  function LastIndex(s: seq<int>, v: int): (r: Option<nat>)
    ensures r.None? <==> v !in s
    ensures r.Some? ==> r.value < |s| && s[r.value] == v && forall k :: r.value < k < |s| ==> s[k] != v
  {
    if |s| == 0 then None
    else if s[|s| - 1] == v then Some(|s| - 1)
    else
      var r := LastIndex(s[..|s| - 1], v);
      assert forall k :: 0 <= k < |s| - 1 ==> s[..|s| - 1][k] == s[k];
      assert v in s ==> v in s[..|s| - 1] by {
        if v in s {
          var k :| 0 <= k < |s| && s[k] == v;
          assert s[..|s| - 1][k] == v;
        }
      }
      r
  }

  /**
   * The cell of row `row` in a qubit's column once its first `ng` gates and
   * first `nc` connections have been written.
   */
  function CellAfter(q: Qubit, ng: nat, nc: nat, row: int): Cell
    requires Shaped(q) && ng <= |q.gates| && nc <= |q.connections|
  {
    var base := match LastIndex(q.gatePos[..ng], row + 1)
      case Some(g) => Cell(q.gates[g], q.gateAngles[g])
      case None => IDLE_CELL;
    match LastIndex(q.connectPos[..nc], row + 1)
    case Some(c) => base.(tag := q.connections[c])
    case None => base
  }

  /** The cell of row `row` in a qubit's column after the whole wire is written. */
  function CellOf(q: Qubit, row: int): Cell
    requires Shaped(q)
  {
    CellAfter(q, |q.gates|, |q.connections|, row)
  }

  /** The compiled grid of a circuit's records. */
  function Grid(qs: seq<Qubit>): (g: seq<seq<Cell>>)
    requires QubitsOk(qs)
  {
    seq(CircuitLength(qs), r =>
      seq(|qs|, c requires 0 <= c < |qs| => assert QubitOk(qs[c]); CellOf(qs[c], r)))
  }

  /** Every recorded position of a compilable circuit names a grid row. */
  lemma PositionInRange(qs: seq<Qubit>, i: int, p: int)
    requires Compilable(qs) && 0 <= i < |qs|
    requires p in qs[i].gatePos || p in qs[i].connectPos
    ensures 1 <= p <= CircuitLength(qs)
  {
    var j := i;
    if p !in qs[i].gatePos {
      var c :| 0 <= c < |qs[i].connectPos| && qs[i].connectPos[c] == p;
      assert PeerOk(qs, i, c);
      j := qs[i].connectTo[c];
    }
    var g :| 0 <= g < |qs[j].gatePos| && qs[j].gatePos[g] == p;
    var last := |qs[j].gatePos| - 1;
    assert g < last ==> qs[j].gatePos[g] < qs[j].gatePos[last];
  }

  /** Grid rows hold one cell per qubit, and cell (r, c) is column c's cell of row r. */
  lemma GridCell(qs: seq<Qubit>, r: int, c: int)
    requires QubitsOk(qs) && 0 <= r < CircuitLength(qs) && 0 <= c < |qs|
    ensures |Grid(qs)| == CircuitLength(qs) && |Grid(qs)[r]| == |qs|
    ensures QubitOk(qs[c]) && Grid(qs)[r][c] == CellOf(qs[c], r)
  {
  }

  /** In a strictly increasing list, every element's last occurrence is its own index. */
  lemma LastIndexOfIncreasing(s: seq<int>, k: int)
    requires Increasing(s) && 0 <= k < |s|
    ensures LastIndex(s, s[k]) == Some(k)
  {
  }

  /** A gate's own row shows the gate, unless a connection of the same wire shares the position. */
  lemma CellOfGate(q: Qubit, g: int)
    requires QubitOk(q) && 0 <= g < |q.gates| && q.gatePos[g] !in q.connectPos
    ensures CellOf(q, q.gatePos[g] - 1) == Cell(q.gates[g], q.gateAngles[g])
  {
    var row := q.gatePos[g] - 1;
    assert q.gatePos[..|q.gates|] == q.gatePos;
    assert q.connectPos[..|q.connections|] == q.connectPos;
    LastIndexOfIncreasing(q.gatePos, g);
    assert LastIndex(q.gatePos, row + 1) == Some(g);
    assert LastIndex(q.connectPos, row + 1).None?;
  }

  /** A connection's own row shows the connection's tag. */
  lemma CellOfConnection(q: Qubit, c: int)
    requires QubitOk(q) && 0 <= c < |q.connections|
    ensures CellOf(q, q.connectPos[c] - 1).tag == q.connections[c]
  {
    var row := q.connectPos[c] - 1;
    assert q.connectPos[..|q.connections|] == q.connectPos;
    LastIndexOfIncreasing(q.connectPos, c);
    assert LastIndex(q.connectPos, row + 1) == Some(c);
  }

  /**
   * A gate lands at row pos-1 of its qubit's column, and that row exists;
   * unless a connection of the same qubit shares the position, the cell
   * holds exactly the gate's tag and angles.
   */
  lemma GateLands(qs: seq<Qubit>, i: int, g: int)
    requires Compilable(qs) && 0 <= i < |qs| && 0 <= g < |qs[i].gates|
    ensures 0 <= qs[i].gatePos[g] - 1 < |Grid(qs)|
    ensures qs[i].gatePos[g] !in qs[i].connectPos ==>
      Grid(qs)[qs[i].gatePos[g] - 1][i] == Cell(qs[i].gates[g], qs[i].gateAngles[g])
  {
    var q := qs[i];
    assert QubitOk(q);
    var p := q.gatePos[g];
    PositionInRange(qs, i, p);
    GridCell(qs, p - 1, i);
    if p !in q.connectPos {
      CellOfGate(q, g);
    }
  }

  /** A qubit's connection lands at row pos-1 of its column, and its tag is what that cell shows. */
  lemma ConnectionLands(qs: seq<Qubit>, i: int, c: int)
    requires Compilable(qs) && 0 <= i < |qs| && 0 <= c < |qs[i].connections|
    ensures 0 <= qs[i].connectPos[c] - 1 < |Grid(qs)|
    ensures Grid(qs)[qs[i].connectPos[c] - 1][i].tag == qs[i].connections[c]
  {
    var q := qs[i];
    assert QubitOk(q);
    var p := q.connectPos[c];
    PositionInRange(qs, i, p);
    GridCell(qs, p - 1, i);
    CellOfConnection(q, c);
  }

  /** The row of a gate position exists and holds one cell per qubit. */
  lemma RowOf(qs: seq<Qubit>, i: int, p: int)
    requires Compilable(qs) && 0 <= i < |qs| && p in qs[i].gatePos
    ensures 1 <= p <= CircuitLength(qs) && |Grid(qs)[p - 1]| == |qs|
  {
    PositionInRange(qs, i, p);
    GridCell(qs, p - 1, i);
  }

  /** The cell of a gate at position p, when no connection of its wire is at p. */
  lemma GateCell(qs: seq<Qubit>, i: int, g: int, p: int)
    requires Compilable(qs) && 0 <= i < |qs|
    requires 0 <= g < |qs[i].gates| && qs[i].gatePos[g] == p && p !in qs[i].connectPos
    ensures 0 <= p - 1 < |Grid(qs)| && Grid(qs)[p - 1][i] == Cell(qs[i].gates[g], qs[i].gateAngles[g])
  {
    GateLands(qs, i, g);
  }

  /** The tag of the cell of a connection at position p. */
  lemma ConnectionCell(qs: seq<Qubit>, i: int, c: int, p: int)
    requires Compilable(qs) && 0 <= i < |qs|
    requires 0 <= c < |qs[i].connections| && qs[i].connectPos[c] == p
    ensures 0 <= p - 1 < |Grid(qs)| && Grid(qs)[p - 1][i].tag == qs[i].connections[c]
  {
    ConnectionLands(qs, i, c);
  }

  /**
   * A cell is idle (tag I, empty angle list) exactly when neither a gate nor
   * a connection of its qubit sits at that position; a non-idle tag is the
   * tag of a record at that position.
   */
  lemma CellSource(qs: seq<Qubit>, r: int, i: int)
    requires Compilable(qs) && 0 <= r < CircuitLength(qs) && 0 <= i < |qs|
    requires I !in qs[i].gates && I !in qs[i].connections
    ensures Grid(qs)[r][i] == IDLE_CELL <==> r + 1 !in qs[i].gatePos && r + 1 !in qs[i].connectPos
    ensures Grid(qs)[r][i].tag != I ==>
      (exists g :: 0 <= g < |qs[i].gates| && qs[i].gatePos[g] == r + 1 && qs[i].gates[g] == Grid(qs)[r][i].tag) ||
      (exists c :: 0 <= c < |qs[i].connections| && qs[i].connectPos[c] == r + 1 && qs[i].connections[c] == Grid(qs)[r][i].tag)
  {
    var q := qs[i];
    GridCell(qs, r, i);
    assert q.gatePos[..|q.gates|] == q.gatePos;
    assert q.connectPos[..|q.connections|] == q.connectPos;
    var lg := LastIndex(q.gatePos, r + 1);
    var lc := LastIndex(q.connectPos, r + 1);
    if lc.Some? {
      assert q.connections[lc.value] in q.connections;
      assert CellOf(q, r).tag == q.connections[lc.value];
    } else if lg.Some? {
      assert q.gates[lg.value] in q.gates;
      assert CellOf(q, r) == Cell(q.gates[lg.value], q.gateAngles[lg.value]);
    }
  }

  /**
   * The grid while it is being compiled: columns before `k` are complete,
   * column `k` holds its first `ng` gates and first `nc` connections, later
   * columns are still idle.
   */
  function PartialGrid(qs: seq<Qubit>, len: nat, k: int, ng: nat, nc: nat): seq<seq<Cell>>
    requires QubitsOk(qs) && 0 <= k <= |qs|
    requires k < |qs| ==> ng <= |qs[k].gates| && nc <= |qs[k].connections|
  {
    seq(len, r =>
      seq(|qs|, c requires 0 <= c < |qs| =>
        assert QubitOk(qs[c]);
        if c < k then CellOf(qs[c], r)
        else if c == k then CellAfter(qs[c], ng, nc, r)
        else IDLE_CELL))
  }

  /** One more gate written: only the gate's own row changes, and it now shows the gate's cell. */
  lemma CellAfterGate(q: Qubit, g: int, row: int)
    requires Shaped(q) && 0 <= g < |q.gates|
    ensures CellAfter(q, g + 1, 0, row) ==
      if row == q.gatePos[g] - 1 then Cell(q.gates[g], q.gateAngles[g]) else CellAfter(q, g, 0, row)
  {
    assert q.gatePos[..g + 1][..g] == q.gatePos[..g];
  }

  /** One more connection written: only its row changes, and there it replaces the tag. */
  lemma CellAfterConnection(q: Qubit, ng: nat, c: int, row: int)
    requires Shaped(q) && ng <= |q.gates| && 0 <= c < |q.connections|
    ensures CellAfter(q, ng, c + 1, row) ==
      if row == q.connectPos[c] - 1 then CellAfter(q, ng, c, row).(tag := q.connections[c]) else CellAfter(q, ng, c, row)
  {
    assert q.connectPos[..c + 1][..c] == q.connectPos[..c];
  }

  /** Writing gate `g` of column `k` at its row extends the partial grid by that gate. */
  lemma WriteGate(qs: seq<Qubit>, k: int, g: int)
    requires Compilable(qs) && 0 <= k < |qs| && 0 <= g < |qs[k].gates|
    ensures QubitOk(qs[k]) && 0 <= qs[k].gatePos[g] - 1 < CircuitLength(qs)
    ensures var q, row := qs[k], qs[k].gatePos[g] - 1;
      var grid := PartialGrid(qs, CircuitLength(qs), k, g, 0);
      grid[row := grid[row][k := Cell(q.gates[g], q.gateAngles[g])]] == PartialGrid(qs, CircuitLength(qs), k, g + 1, 0)
  {
    var q := qs[k];
    assert QubitOk(q);
    PositionInRange(qs, k, q.gatePos[g]);
    var len, row := CircuitLength(qs), q.gatePos[g] - 1;
    var before, after := PartialGrid(qs, len, k, g, 0), PartialGrid(qs, len, k, g + 1, 0);
    var written := before[row := before[row][k := Cell(q.gates[g], q.gateAngles[g])]];
    forall r | 0 <= r < len
      ensures written[r] == after[r]
    {
      forall c | 0 <= c < |qs|
        ensures written[r][c] == after[r][c]
      {
        assert QubitOk(qs[c]);
        if c == k {
          CellAfterGate(q, g, r);
        }
      }
    }
  }

  /** Writing connection `c` of column `k` at its row extends the partial grid by that connection. */
  lemma WriteConnection(qs: seq<Qubit>, k: int, c: int)
    requires Compilable(qs) && 0 <= k < |qs| && 0 <= c < |qs[k].connections|
    ensures QubitOk(qs[k]) && 0 <= qs[k].connectPos[c] - 1 < CircuitLength(qs)
    ensures var q, row := qs[k], qs[k].connectPos[c] - 1;
      var grid := PartialGrid(qs, CircuitLength(qs), k, |q.gates|, c);
      grid[row := grid[row][k := grid[row][k].(tag := q.connections[c])]] == PartialGrid(qs, CircuitLength(qs), k, |q.gates|, c + 1)
  {
    var q := qs[k];
    assert QubitOk(q);
    PositionInRange(qs, k, q.connectPos[c]);
    var len, row := CircuitLength(qs), q.connectPos[c] - 1;
    var before: seq<seq<Cell>>, after := PartialGrid(qs, len, k, |q.gates|, c), PartialGrid(qs, len, k, |q.gates|, c + 1);
    var written := before[row := before[row][k := before[row][k].(tag := q.connections[c])]];
    forall r | 0 <= r < len
      ensures written[r] == after[r]
    {
      forall j | 0 <= j < |qs|
        ensures written[r][j] == after[r][j]
      {
        assert QubitOk(qs[j]);
        if j == k {
          CellAfterConnection(q, |q.gates|, c, r);
        }
      }
    }
  }

  /** The circuit length as the compiler computes it: one pass keeping the largest last gate position. */
  method MeasureLength(qs: seq<Qubit>) returns (circuitLength: int)
    requires QubitsOk(qs)
    ensures circuitLength == CircuitLength(qs)
  {
    var k := 0;
    circuitLength := 0;
    while k < |qs|
      invariant 0 <= k <= |qs|
      invariant circuitLength == CircuitLength(qs[..k])
    {
      var q := qs[k];
      assert qs[..k + 1][..k] == qs[..k];
      if |q.gates| > 0 {
        var lastPos := q.gatePos[|q.gatePos| - 1];
        if lastPos > circuitLength {
          circuitLength := lastPos;
        }
      }
      k := k + 1;
    }
    assert qs[..k] == qs;
  }

  /** Nothing written yet: the partial grid is all identity cells. */
  lemma EmptyGrid(qs: seq<Qubit>, len: nat)
    requires QubitsOk(qs)
    ensures PartialGrid(qs, len, 0, 0, 0) == seq(len, _ => seq(|qs|, _ => IDLE_CELL))
  {
    var g := PartialGrid(qs, len, 0, 0, 0);
    forall r | 0 <= r < len
      ensures g[r] == seq(|qs|, _ => IDLE_CELL)
    {
      forall c | 0 <= c < |qs|
        ensures g[r][c] == IDLE_CELL
      {
        assert QubitOk(qs[c]);
      }
    }
  }

  /** Every column written: the partial grid is the grid. */
  lemma FullGrid(qs: seq<Qubit>)
    requires QubitsOk(qs)
    ensures PartialGrid(qs, CircuitLength(qs), |qs|, 0, 0) == Grid(qs)
  {
    var g := PartialGrid(qs, CircuitLength(qs), |qs|, 0, 0);
    forall r | 0 <= r < CircuitLength(qs)
      ensures g[r] == Grid(qs)[r]
    {
      forall c | 0 <= c < |qs|
        ensures g[r][c] == Grid(qs)[r][c]
      {
        GridCell(qs, r, c);
      }
    }
  }

  /**
   * Compile the records into the grid: measure the circuit length, fill a
   * grid of identity cells, then write every qubit's gates and connections,
   * each in the order it was recorded.
   */
  method Compile(qs: seq<Qubit>) returns (grid: seq<seq<Cell>>)
    requires Compilable(qs)
    ensures grid == Grid(qs)
  {
    var n := |qs|;
    var circuitLength := MeasureLength(qs);
    grid := seq(circuitLength, _ => seq(n, _ => IDLE_CELL));
    EmptyGrid(qs, circuitLength);
    var qIdx := 0;
    while qIdx < n
      invariant 0 <= qIdx <= n
      invariant grid == PartialGrid(qs, circuitLength, qIdx, 0, 0)
    {
      var q := qs[qIdx];
      assert QubitOk(q);
      var gIdx := 0;
      while gIdx < |q.gates|
        invariant 0 <= gIdx <= |q.gates|
        invariant grid == PartialGrid(qs, circuitLength, qIdx, gIdx, 0)
      {
        WriteGate(qs, qIdx, gIdx);
        var row := q.gatePos[gIdx] - 1;
        grid := grid[row := grid[row][qIdx := Cell(q.gates[gIdx], q.gateAngles[gIdx])]];
        gIdx := gIdx + 1;
      }
      var cIdx := 0;
      while cIdx < |q.connections|
        invariant 0 <= cIdx <= |q.connections|
        invariant grid == PartialGrid(qs, circuitLength, qIdx, |q.gates|, cIdx)
      {
        WriteConnection(qs, qIdx, cIdx);
        var row := q.connectPos[cIdx] - 1;
        grid := grid[row := grid[row][qIdx := grid[row][qIdx].(tag := q.connections[cIdx])]];
        cIdx := cIdx + 1;
      }
      NextColumn(qs, circuitLength, qIdx);
      qIdx := qIdx + 1;
    }
    FullGrid(qs);
  }

  /** A completed column is a finished column of the next partial grid. */
  lemma NextColumn(qs: seq<Qubit>, len: nat, k: int)
    requires QubitsOk(qs) && 0 <= k < |qs|
    ensures QubitOk(qs[k])
    ensures PartialGrid(qs, len, k, |qs[k].gates|, |qs[k].connections|) == PartialGrid(qs, len, k + 1, 0, 0)
  {
    var before, after := PartialGrid(qs, len, k, |qs[k].gates|, |qs[k].connections|), PartialGrid(qs, len, k + 1, 0, 0);
    forall r | 0 <= r < len
      ensures before[r] == after[r]
    {
      forall c | 0 <= c < |qs|
        ensures before[r][c] == after[r][c]
      {
        assert QubitOk(qs[c]);
      }
    }
  }
}
