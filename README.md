# QC_Sim circuit core in Dafny

QC_Sim is a small state-vector quantum circuit simulator. A `Circuit` of n qubits starts all qubits in |0...0>. It also has n classical bits, all 0. Each gate method does not touch the state. It only records the gate on the wire records of the qubits involved:

- the gate type, its angle list and its position (column) on the target qubit;
- a connection (C, SWAP, B or O), its peer and its position on each control, partner or classical bit.

Operations are scheduled left-packed. Each qubit has a next free position, `earliestPos`:

- a single-qubit gate takes its qubit's next free position;
- an operation spanning several qubits takes the largest next free position over the whole range it spans, and then reserves that range;
- a measurement also spans every later qubit and every earlier classical bit.

`run(shots)` works in three stages:

1. It compiles the records into a grid of positions × qubits. Gates are written first, then connections.
2. For each grid row it chooses an operator:
   - a barrier in column 0 skips the row;
   - a row with control cells becomes a sum over all control-outcome combinations, built from Kronecker products of projectors and gate matrices; when such a row also holds a cell the matrix lookup cannot serve (a SWAP or a measurement placed at the same position), building it raises an error and `run` ends without results;
   - a SWAP row becomes (I + X⊗X + Y⊗Y + Z⊗Z)/2;
   - a measurement row becomes the two projectors and a random draw;
   - any other row becomes a plain Kronecker product.
3. It runs the rows shot by shot and writes the classical bits of each shot as a string `|b_{n-1}...b_0>`.

`Algorithms.py` holds gate-list generators written against that API: the Deutsch-Jozsa driver with its two example oracles, the quantum Fourier transform and its inverse.

Each core component is one module:

- `Gates` (gates.dfy): tags, angle lists, grid cells and the symbolic matrix lookup.
- `Wires` (wires.dfy): the qubit and classical-bit wire records and their invariant.
- `Schedule` (schedule.dfy): how each gate method places its records, proved to keep the circuit invariant.
  - The invariant is: positions start at 1 and strictly increase on every wire; every connection has its peer gate; a barrier spans every wire; measurement positions are distinct.
- `Grids` (grid.dfy): the circuit length and the compiled grid.
- `Operators` (operators.dfy): row dispatch, and how the control-combination terms, SWAP products, projectors and tensor products are built.
- `Execution` (execution.dfy): the initial state vector, shot semantics and the result string.
- `Circuits` (circuit.dfy): the class `Circuit` with the gate methods and `run`.
- `Algorithms` (algorithms.dfy): the generators, as the lists of circuit-method calls they make, replayed on a circuit by `Apply`.

Matrices are symbolic. A factor names the matrix the lookup returns, and the state vector is an expression over operators and projectors.

## Model

| member | source | states |
|---|---|---|
| Gates.GateMatrix | Simulator.py:9-52 | The identity exactly for I. A gate matrix exactly for the eleven single-qubit types; only the parametrised ones depend on the angles. No matrix for SWAP, M, B, C and O, which have no entry. |
| Wires.Max | Simulator.py:273-274 | The largest of a non-empty list of positions: bounds every element and is one of them. |
| Wires.SpanPosition | Simulator.py:273-274 | The position of an operation over wires lo..hi is at least every next free position in the range and equal to one of them. |
| Schedule.FreshWiring | Simulator.py:81-94 | A new circuit's n empty qubit wires and n zero classical bits satisfy the circuit invariant with no barriers. |
| Schedule.TouchKeepsWire | Simulator.py:101-114 | Appending a record at a position no earlier than the wire's next free position keeps the wire invariant and never moves the next free position back. |
| Schedule.TouchAllKeeps | Simulator.py:262-281 | Touching every wire of a row at one position keeps every wire invariant, peer links, the tag discipline and all earlier barriers. |
| Schedule.TouchKeepsCircuit | Simulator.py:262-281 | A non-measuring placement after every barrier keeps the whole circuit invariant. |
| Schedule.PlaceGateEffect | Simulator.py:106-111 | One gate on target t appends its tag, angles and the target's next free position to that wire only, and advances that position by one. |
| Schedule.GateKeepsOk | Simulator.py:101-114 | A single-qubit gate keeps the circuit invariant. |
| Schedule.GatesKeepOk | Simulator.py:101-257 | A single-qubit gate method over any list of in-range targets, repeats included, keeps the circuit invariant. |
| Schedule.SpanCovers | Simulator.py:273 | The span of an operation runs from the least to the greatest of its target and linked wires and covers all of them. |
| Schedule.LinkedRecords | Simulator.py:262-281 | A controlled gate (or SWAP): the target gets the gate at the span's position, which is the largest next free position in the span; every linked wire gets one connection to the target at that position. |
| Schedule.LinkedReserves | Simulator.py:278-279 | After a controlled gate every wire in the span has next free position one past the gate's, and wires outside the span are unchanged. |
| Schedule.LinkedKeepsOk | Simulator.py:262-455 | Controlled gates and SWAP keep the circuit invariant. |
| Schedule.NewFence | Simulator.py:460-472 | A barrier sits at a position that is a valid fence: B on qubit 0 and its connection on the last qubit. Every wire's next free position becomes one past it. |
| Schedule.BarrierKeepsOk | Simulator.py:460-472 | A barrier keeps the circuit invariant and adds its position to the fences. |
| Schedule.FenceConnection | Simulator.py:464-468 | At a barrier position the only connection is the last qubit's B. |
| Schedule.MeasurePosition | Simulator.py:488-491 | The measurement position is the largest next free position over the later qubits and the earlier classical bits: it bounds all of them and equals one of them. |
| Schedule.MeasureAfterCounter | Simulator.py:488-498 | Every classical bit's next free position is at most the measurement position, because all classical bits advance together. |
| Schedule.MeasureIsLater | Simulator.py:488-498 | A new measurement lies strictly after every earlier measurement on any qubit. |
| Schedule.MeasureKeepsCbits | Simulator.py:483-498 | Measuring keeps every classical-bit wire valid and moves every classical bit's next free position to one past the measurement. |
| Schedule.MeasureKeepsDistinct | Simulator.py:483-498 | Measurement positions stay pairwise distinct over all classical bits. |
| Schedule.MeasureKeepsLinks | Simulator.py:480-493 | Each measurement M on a qubit stays linked to an O connection at the same position on that qubit's classical bit. |
| Schedule.MeasureKeepsQubits | Simulator.py:480-496 | Measuring keeps the qubit-wire invariants and the barriers; qubits t..n-1 move to the position after the measurement and the lower qubits are unchanged; the M record is appended to qubit t only. |
| Schedule.MeasureKeepsOk | Simulator.py:475-499 | One measurement keeps the circuit invariant. |
| Schedule.MeasuresKeepOk | Simulator.py:475-499 | Measuring any list of in-range targets in turn keeps the circuit invariant. |
| Schedule.OneMeasurementPerPosition | Simulator.py:488-498 | Two measurements at the same position are the same gate on the same qubit. |
| Schedule.LinkWires | Simulator.py:262-281 | The record-appending loops of a controlled gate compute exactly the controlled placement. |
| Schedule.FenceWires | Simulator.py:460-472 | The barrier loops compute exactly the barrier placement and its position. |
| Schedule.MeasureCandidates | Simulator.py:488-490 | The collected candidate positions are the later qubits' next free positions followed by the earlier classical bits'. |
| Schedule.StampCbits | Simulator.py:497-498 | Every classical bit's next free position becomes one past the measurement, and nothing else changes. |
| Schedule.MeasureQubitWires | Simulator.py:480-496 | The qubit side of a measurement appends M on the target, and reserves the target and every later qubit. |
| Schedule.MeasureCbitWires | Simulator.py:482-498 | The classical side appends an O link on bit `target` only, and advances every bit. |
| Schedule.MeasureWires | Simulator.py:480-498 | One measurement's loops compute exactly the measurement placement. |
| Schedule.ReserveWires | Simulator.py:278-279 | The reservation loop moves exactly the wires lo..hi to one past the position. |
| Grids.CircuitLength | Simulator.py:652-658 | The circuit length is at least every wire's last gate position, equals one of them, and is 0 when no wire has gates. |
| Grids.MeasureLength | Simulator.py:652-658 | The length loop computes the circuit length. |
| Grids.LastIndex | Simulator.py:663-672 | The last index holding a value, or none exactly when the value is absent (a later write wins). |
| Grids.PositionInRange | Simulator.py:663-672 | Every recorded gate or connection position of a valid circuit lies within 1..circuit length, so the grid write is in range. |
| Grids.GateLands | Simulator.py:664-668 | Each gate lands in its row and column of the grid with its tag and angles when no connection there overwrites it. |
| Grids.ConnectionLands | Simulator.py:669-672 | Each connection's tag lands in its row and column. |
| Grids.CellSource | Simulator.py:661-672 | A cell is idle exactly when its wire records nothing at that position. Any other cell's tag comes from a gate or connection of its wire at that position. |
| Grids.Compile | Simulator.py:660-672 | The nested grid-filling loops compute exactly the grid of the records. |
| Operators.CountPositive | Simulator.py:691-693 | A row has a positive count of a tag exactly when the tag occurs in it. |
| Operators.ControlNumberInRange | Simulator.py:699-713 | The running control number at a control cell is below the total number of controls, so indexing a combination is in range. |
| Operators.LastColumn | Simulator.py:755-761 | The last column holding a tag, or none exactly when the tag is absent. |
| Operators.Combos | Simulator.py:696-697 | There are 2^k combinations of k bits, each of length k. |
| Operators.ComboValue | Simulator.py:696-697 | Combination number idx, read as a binary number (first bit most significant), is idx: the product lists combinations in counting order. |
| Operators.ComboOf | Simulator.py:696-697 | Every bit list of length k is the combination whose number is its binary value, so every combination occurs. |
| Operators.CombosDistinct | Simulator.py:696-697 | All combinations differ. |
| Operators.AllOnesIsLargest | Simulator.py:718 | A bit list is all ones exactly when its binary value is the largest. |
| Operators.AllOnesIsLast | Simulator.py:718 | Only the last combination is all ones. |
| Operators.KronOrderIndex | Simulator.py:700-729 | Multiplying factors onto the left in column order puts column q at position n-1-q of the product, so the highest qubit comes first. |
| Operators.Classify | Simulator.py:684-793 | The row dispatch: skip exactly for a barrier in column 0; control, SWAP and measurement rows in that order. A control row raises exactly when a cell's lookup fails, in particular whenever it also holds a SWAP or an M. An operator is applied exactly when the row has no M and does not raise. Only a SWAP row that also has an M builds its operator and drops it. A measurement names the last M column. |
| Operators.NoMatrixFails | Simulator.py:9-52 | A SWAP or M cell in a control row makes the lookup fail. |
| Operators.ControlledTermsShape | Simulator.py:691-730 | There are 2^c terms, each of full width. A control column holds a projector. Any other non-idle column holds its gate matrix in the all-ones term only and the identity elsewhere. An idle column holds the identity. |
| Operators.ControlledTermsServed | Simulator.py:713-719 | In a control row whose lookups all succeed, no factor of any term is a missing matrix. |
| Operators.ControlBitsSelectProjectors | Simulator.py:704-713 | In the term of combination b, the control with control number j holds P0 or P1 according to bit j of b. |
| Operators.BuildControlled | Simulator.py:691-730 | The control-branch loops raise exactly when a cell's lookup fails, and otherwise compute exactly the controlled terms. |
| Operators.BuildSwap | Simulator.py:733-748 | The SWAP-branch loops compute the X, Y and Z products. |
| Operators.SwapFactors | Simulator.py:738-747 | In each Pauli product, SWAP columns hold that Pauli and every other column the identity. |
| Operators.BuildMeasure | Simulator.py:751-764 | The measure-branch loop computes both projector products and the last M column, or 0 when there is none. |
| Operators.MeasureFactors | Simulator.py:756-764 | A projector product holds the projector on M columns and the identity elsewhere. |
| Operators.BuildTensor | Simulator.py:781-790 | The plain-branch loop computes the product of the cells' matrices. |
| Operators.TensorFactors | Simulator.py:784-790 | Every column of the plain product holds the lookup of its cell's tag and angles. |
| Operators.Synthesize | Simulator.py:684-793 | The row handling of one position computes the dispatched row action, a raising row included. |
| Execution.InitialState | Simulator.py:88-90 | The initial vector has length 2^n, amplitude 1 at index 0 and 0 elsewhere. |
| Execution.Step | Simulator.py:773-778 | One row that does not raise changes no bit unless it measures. A measurement writes 0 or 1, by the draw, into the measured bit only. |
| Execution.FailureFrom | Simulator.py:681-730 | The first raising row at or after k: it raises and no row between k and it does; none exactly when no row from k on raises. |
| Execution.LastMeasurement | Simulator.py:751-778 | The last row before k measuring qubit i, or none exactly when no such row exists. |
| Execution.StateIgnoresBits | Simulator.py:681-794 | The state a shot reaches does not depend on the classical bits it starts with. |
| Execution.BitsAfterRows | Simulator.py:681-794 | After the rows, bit i is the draw of its last measurement, or its starting value when it was never measured. |
| Execution.Digits | Simulator.py:796 | The bits are written highest index first. |
| Execution.FormatResult | Simulator.py:796-798 | The result string is `|`, the digits from bit n-1 down to bit 0, then `>`. |
| Execution.DigitsRoundTrip | Simulator.py:796 | Reading back the written digits gives the bits. |
| Execution.ParsedDigits | Simulator.py:796 | Every digit string that reads as bits is their written form. |
| Execution.ResultRoundTrip | Simulator.py:796-798 | Reading back a result string gives the classical bits that produced it. |
| Execution.ParsedResult | Simulator.py:796-798 | Every string that reads as a result is the formatted result of its bits, so formatting and reading are inverse. |
| Execution.RunShots | Simulator.py:674-799 | The shot loop records one result per shot, each with as many digits as classical bits. |
| Execution.LastShotFromOrigin | Simulator.py:676-679 | The state left after the run is that of the last shot started from the original state. |
| Execution.ResultBits | Simulator.py:674-799 | Digit i of shot s's result is the draw of bit i's last measurement in shot s, or the bit's value from before the run when it is never measured. |
| Execution.UnmeasuredBitKept | Simulator.py:674-799 | A classical bit no row measures keeps its value through the run. |
| Execution.RunCircuit | Simulator.py:674-811 | A run raises exactly when there is at least one shot and some row raises; it then stops at the first raising row. Otherwise every shot yields a result. |
| Execution.RaisedBits | Simulator.py:674-799 | After a raising run, bit i holds the draw of its last measurement before the raising row in the first shot, or its value from before the run. |
| Circuits.Actions | Simulator.py:681-793 | A valid circuit has one row action per position, each the dispatch of its grid row, and every measurement names an existing bit. |
| Circuits.BarrierRowColumn | Simulator.py:460-472 | A barrier position is a grid row whose column 0 shows B. |
| Circuits.BarrierRowSkipped | Simulator.py:687-688 | Every barrier row is skipped by every shot. |
| Circuits.BarrierRowIdle | Simulator.py:460-472 | A barrier row is idle apart from its first and last column. |
| Circuits.OneMeasurementPerRow | Simulator.py:751-761 | A grid row of a valid circuit holds at most one M, so the measured column is unique. |
| Circuits.GridActions | Simulator.py:660-793 | The compiled grid yields exactly the circuit's row actions. |
| Circuits.CbitStatesIgnored | Simulator.py:773-778 | Changing only the classical-bit values keeps the circuit invariant. |
| Circuits.Circuit.constructor | Simulator.py:81-94 | A new circuit: n fresh qubits and zero classical bits, valid, with the all-zero state vector of length 2^n. |
| Circuits.Circuit.GateOn | Simulator.py:106-111 | One target of a gate method: the gate recorded at the target's next free position, which advances by one; the circuit stays valid and nothing else changes. |
| Circuits.Circuit.Gate | Simulator.py:101-257 | The single-qubit gate methods: every target gets the gate in turn, the circuit stays valid, and the bits, state and barriers are not touched. |
| Circuits.Circuit.Connect | Simulator.py:262-455 | The shared body of controlled gates and SWAP: the controlled placement, keeping the circuit valid. |
| Circuits.Circuit.ControlledGate | Simulator.py:262-435 | CX, CY, CZ, CP, CRX, CRY, CRZ and CU: the gate on the target, C connections on the controls, and the span reserved. |
| Circuits.Circuit.Swap | Simulator.py:438-455 | SWAP: the gate on target2 and a SWAP connection on target1 at the span's position. |
| Circuits.Circuit.Barrier | Simulator.py:460-472 | A barrier: the circuit stays valid, the barrier's position becomes a fence and every wire is reserved past it. |
| Circuits.Circuit.MeasureQubit | Simulator.py:480-498 | One measurement of the method's target loop. |
| Circuits.Circuit.Measure | Simulator.py:475-499 | Every target in turn is measured into its classical bit, and the circuit stays valid. |
| Circuits.Circuit.RunRow | Simulator.py:684-794 | One row of a shot that does not raise follows the shot semantics and changes only the classical-bit values and the state. |
| Circuits.Circuit.RunShot | Simulator.py:679-794 | A shot starts from the original state and the current bits and runs the rows in order; it completes exactly when no row raises, and otherwise stops at the first raising row with the rows before it applied. |
| Circuits.Circuit.RunAllShots | Simulator.py:674-799 | The shot loop: the results of all shots and the last shot's state and bits, or no results and the state and bits the first shot reached when a row raises. |
| Circuits.Circuit.Run | Simulator.py:650-811 | run(): compiles the grid once; results (or the raised error), final state and bits are those of the run semantics over the circuit's row actions; the wires are unchanged and the circuit stays valid. |
| Algorithms.Emit | Simulator.py:101-472 | One call changes the wires as its circuit method does, keeping their number. |
| Algorithms.Apply | Simulator.py:101-472 | Replaying calls that fit the circuit keeps it valid, leaves its bits and state alone, and leaves the wires the calls emit. |
| Algorithms.TallyConcat | Algorithms.py:71-106 | Counting a role over two call lists in sequence adds the counts. |
| Algorithms.SwapPairs | Algorithms.py:80-85 | The swap half pairs each of the lower n/2 qubits with its mirror image; no pair is degenerate and no two pairs share a wire. |
| Algorithms.SwapHalves | Algorithms.py:80-85 | The swap loop with its two breaks emits exactly the mirror pairs. |
| Algorithms.ExchangedPrefix | Algorithms.py:80-85 | After the first k pairs, the outer k wires on each side hold their mirror images' contents and the middle is untouched. |
| Algorithms.SwapsReverse | Algorithms.py:80-85 | Exchanging along the swap pairs reverses the wire order. |
| Algorithms.QftBlockCalls | Algorithms.py:76-78 | QFT's inner loop for one target emits H on it, then CP from each lower qubit in rising order. |
| Algorithms.Qft | Algorithms.py:71-87 | QFT's loops emit, for each qubit from the highest down, H and a CP from each lower qubit, then the swap pairs. |
| Algorithms.Iqft | Algorithms.py:90-106 | IQFT's loops emit the swap pairs, then for each qubit from the lowest up, CP from each lower qubit nearest first, then H. |
| Algorithms.IqftBlockCalls | Algorithms.py:102-104 | IQFT's inner loop for one target emits CP from each lower qubit, nearest first, then H on it. |
| Algorithms.QftRotationsShape | Algorithms.py:75-78 | QFT makes n(n+1)/2 rotation calls, each an H or a CP from a lower control with angle pi / 2^(target - control). |
| Algorithms.QftHadamardOnce | Algorithms.py:75-78 | QFT applies H exactly once to each qubit and nowhere else. |
| Algorithms.QftControlsAbove | Algorithms.py:75-78 | In QFT, qubit w controls n-1-w phase gates, one onto each higher qubit. |
| Algorithms.ReverseInvertedConcat | Algorithms.py:101-104 | Reversing and inverting a concatenation swaps the parts. |
| Algorithms.BlockMirror | Algorithms.py:101-104 | IQFT's calls for one target are QFT's calls for that target, backwards, with negated phases. |
| Algorithms.QftMirror | Algorithms.py:90-106 | IQFT's rotations are QFT's in reverse order with negated phase angles. |
| Algorithms.ConcatFits | Algorithms.py:71-106 | Two call lists that fit a circuit fit it in sequence. |
| Algorithms.MirrorRotations | Algorithms.py:101-104 | Mirroring H and positive-phase CP calls gives H and negative-phase CP calls on the same wires. |
| Algorithms.QftCallsFit | Algorithms.py:71-87 | Every call QFT makes is accepted by a circuit of any size. |
| Algorithms.IqftCallsFit | Algorithms.py:90-106 | Every call IQFT makes is accepted by a circuit of any size. |
| Algorithms.ApplyQft | Algorithms.py:71-87 | QFT on a valid circuit keeps it valid and its bits and state unchanged, and leaves the wires of QFT's calls. |
| Algorithms.ApplyIqft | Algorithms.py:90-106 | IQFT on a valid circuit: the same, with IQFT's calls. |
| Algorithms.BalancedOracle | Algorithms.py:16-32 | The balanced oracle's loop emits X on the flips, a barrier, CX from each input onto the output, a barrier, and X on the flips again. |
| Algorithms.ConstantOracle | Algorithms.py:7-13 | The constant oracle emits X on the output qubit exactly when the output is 1. |
| Algorithms.BalancedFlipsTwice | Algorithms.py:19-30 | The balanced oracle applies X to each wire twice per mention in the flips, so the flips undo themselves. |
| Algorithms.BalancedTargets | Algorithms.py:24-25 | Every controlled call of the balanced oracle is a CX from one input qubit onto the output qubit. |
| Algorithms.BalancedControls | Algorithms.py:24-25 | Each input qubit controls exactly one CX, and no other wire controls any. |
| Algorithms.ConstantFlips | Algorithms.py:7-13 | The constant oracle flips only the output qubit, once when the output is 1, and controls nothing. |
| Algorithms.BalancedCallsFit | Algorithms.py:16-32 | On n >= 1 qubits with in-range flips, every call of the balanced oracle is accepted. |
| Algorithms.DeutschJozsa | Algorithms.py:43-68 | The driver emits a barrier, X on the output, H on every qubit, the oracle's calls, H on the inputs, and a barrier. |
| Algorithms.HadamardsOnce | Algorithms.py:51-52 | H on qubits 0..m-1 hits each of them once, and no other wire; it flips and controls nothing. |
| Algorithms.PrologueCounts | Algorithms.py:47-52 | Before the oracle every qubit gets one H and the output qubit one X, and nothing is controlled. |
| Algorithms.EpilogueCounts | Algorithms.py:63-66 | After the oracle only the input qubits get an H, and nothing is flipped or controlled. |
| Algorithms.DeutschJozsaCounts | Algorithms.py:43-68 | With either example oracle each input qubit gets exactly two H, the output qubit exactly one, and the output one X more than the oracle gives it. |
| Algorithms.DeutschJozsaCallsFit | Algorithms.py:43-68 | On n >= 1 qubits every call of the driver is accepted, given in-range flips and an oracle that makes acceptable calls. |
| Algorithms.ApplyDeutschJozsa | Simulator.py:508-510 | Deutsch-Jozsa on a valid circuit keeps it valid and its bits and state unchanged, and leaves the wires of the driver's calls. |

## Left out

- Numerics: the entries of the gate matrices, `np.kron`, the matrix-vector products, `vdot`, the square roots and the operator sums. A factor names the matrix the lookup would return. The state is a symbolic expression (initial vector, operator applied, projector applied and renormalised). Probabilities are not computed.
- Randomness: the draw `np.random.rand(1) < prob0` is the parameter `zero(shot, row)`. So no statement about outcome probabilities is made, including Deutsch-Jozsa's "all zeros for a constant oracle".
- The histogram (`hist=True`, matplotlib), `format_gate` and `display_circuit` are output only.
- BitsAndGates.py, the tutorial scripts and the example QFT.py/IQFT.py scripts are not part of this model.
- The `Simulator.QFT`, `Simulator.IQFT` and `Simulator.QPE` wrappers are left out. They call functions that take other arguments than they pass, or that do not exist. The Deutsch-Jozsa wrapper is modelled by `Algorithms.ApplyDeutschJozsa`.
- Python's negative list indices (a target of -1 meaning the last qubit) are left out. Targets are required to lie in 0..n-1.
- An `int` passed where a target list is expected is left out. It is written as a one-element list.
- Circuits.Circuit.ControlledGate: requires pairwise distinct controls. The source accepts a repeated control and then records two connections at one position on that wire. That breaks the strictly-increasing-positions invariant the model keeps.
- Circuits.Circuit.Connect: requires pairwise distinct links, for the same reason.
- Schedule.LinkWires: requires pairwise distinct links, for the same reason.
- Circuits.Circuit.ControlledGate, Circuits.Circuit.Connect and Schedule.LinkWires: require at least one control. With an empty control list the source appends the gate and its angles to the target, then raises at `min(controls)` before recording a position, leaving the target wire with more gates than positions. The model has no representation of such a half-written wire, so this error path is not modelled.
- Circuits.Circuit.Barrier: requires at least one qubit. On an empty circuit the source's `self.qubits[0]` raises an error.
- Algorithms.ApplyDeutschJozsa: requires at least one qubit. The driver's first barrier fails on an empty circuit.
- Algorithms.DeutschJozsa: an oracle string other than 'balanced' or 'constant' makes the source call the argument as a function. A caller's own oracle is modelled as the list of calls it makes (`Custom`), and a call is a single-qubit gate, a controlled gate, a SWAP or a barrier. An oracle that measures, runs the circuit or does anything else with it is not modelled. A value that is not callable, which fails in the source, is not modelled.
- Operators.BuildControlled: stops at the column whose lookup fails, before that column's combination loop, where the source raises inside the loop at the all-ones combination. The terms built so far are lost either way.
- The scheduling loops over a wire range are modelled as functions over the whole record list (`TouchAll`, `Reserved`) together with methods proved equal to them. The qubit and classical-bit objects are values held in the circuit's lists; the source never shares them, so no aliasing is lost.
- The `gate_angles` grid of rows is merged with the tag grid into one cell per position. A connection overwrites the tag only, as in the source, where connections are written to `qubit_gates` alone.
