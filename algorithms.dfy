/**
 * The preprogrammed algorithms: the Deutsch-Jozsa oracles and driver and
 * the quantum Fourier transform and its inverse. Each generator is a loop
 * that calls the circuit's gate methods in a fixed order; here a generator
 * emits the list of calls it makes, and `Apply` replays such a list on a
 * circuit.
 */
module Algorithms {
  import opened Gates
  import opened Wires
  import opened Schedule
  import opened Circuits

  /**
   * One call of a circuit method: a single-qubit gate method with its
   * target list, a controlled gate method, SWAP or barrier.
   */
  datatype Call =
    | GateCall(tag: Tag, angles: AngleList, targets: seq<int>)
    | ControlledCall(tag: Tag, angles: AngleList, controls: seq<int>, target: int)
    | SwapCall(target1: int, target2: int)
    | BarrierCall

  /** The angle list of CP with theta = pi / 2^k, or -pi / 2^k when `negated`. */
  function PhaseAngles(negated: bool, k: nat): AngleList {
    Triple(Some(PiOverPow2(negated, k)), None, None)
  }

  /** H(q). */
  function HCall(q: int): Call {
    GateCall(H, UNUSED_ANGLES, [q])
  }

  /** X(targets). */
  function XCall(targets: seq<int>): Call {
    GateCall(X, UNUSED_ANGLES, targets)
  }

  /** CP([control], target, theta = (+/-) pi / 2^(target - control)). */
  function PhaseCall(control: nat, target: nat, negated: bool): Call
    requires control < target
  {
    ControlledCall(P, PhaseAngles(negated, target - control), [control], target)
  }

  /** CX([control], target). */
  function CxCall(control: int, target: int): Call {
    ControlledCall(X, UNUSED_ANGLES, [control], target)
  }

  // Calls a circuit of n qubits accepts

  /** The circuit method behind `call` accepts its arguments on a circuit of n qubits. */
  predicate CallFits(call: Call, n: nat) {
    match call
    case GateCall(tag, angles, targets) =>
      IsSingleQubitGate(tag) && AnglesFit(tag, angles) && forall k :: 0 <= k < |targets| ==> 0 <= targets[k] < n
    case ControlledCall(tag, angles, controls, target) =>
      && HasControlledForm(tag) && AnglesFit(tag, angles)
      && |controls| > 0 && 0 <= target < n
      && (forall k :: 0 <= k < |controls| ==> 0 <= controls[k] < n)
      && (forall k, l :: 0 <= k < l < |controls| ==> controls[k] != controls[l])
    case SwapCall(target1, target2) => 0 <= target1 < n && 0 <= target2 < n
    case BarrierCall => n > 0
  }

  predicate CallsFit(calls: seq<Call>, n: nat) {
    forall k :: 0 <= k < |calls| ==> CallFits(calls[k], n)
  }

  /** The wires after one call: what the circuit method behind it schedules. */
  function Emit(qs: seq<Qubit>, call: Call): (r: seq<Qubit>)
    requires CallFits(call, |qs|)
    ensures |r| == |qs|
  {
    match call
    case GateCall(tag, angles, targets) => PlaceGates(qs, tag, angles, targets)
    case ControlledCall(tag, angles, controls, target) => PlaceLinked(qs, tag, angles, C, controls, target)
    case SwapCall(target1, target2) => PlaceLinked(qs, Gates.Swap, UNUSED_ANGLES, Gates.Swap, [target1], target2)
    case BarrierCall => PlaceBarrier(qs)
  }

  /** The wires after a list of calls, made in order. */
  function EmitAll(qs: seq<Qubit>, calls: seq<Call>): (r: seq<Qubit>)
    requires CallsFit(calls, |qs|)
    ensures |r| == |qs|
  {
    if |calls| == 0 then qs else Emit(EmitAll(qs, calls[..|calls| - 1]), calls[|calls| - 1])
  }

  /**
   * Make the calls on circuit c in order. Each call's arguments fit the
   * circuit, so every method's requirements hold and the circuit stays
   * valid; the classical bits and the state are not touched.
   */
  method Apply(c: Circuit, calls: seq<Call>)
    requires c.Valid() && CallsFit(calls, c.numQubits)
    modifies c
    ensures c.Valid() && c.cbits == old(c.cbits) && c.state == old(c.state)
    ensures c.qubits == EmitAll(old(c.qubits), calls)
  {
    for k := 0 to |calls|
      invariant c.Valid() && c.cbits == old(c.cbits) && c.state == old(c.state)
      invariant CallsFit(calls[..k], c.numQubits) && c.qubits == EmitAll(old(c.qubits), calls[..k])
    {
      assert calls[..k + 1][..k] == calls[..k];
      match calls[k]
      case GateCall(tag, angles, targets) => c.Gate(tag, angles, targets);
      case ControlledCall(tag, angles, controls, target) => c.ControlledGate(tag, angles, controls, target);
      case SwapCall(target1, target2) => c.Swap(target1, target2);
      case BarrierCall => c.Barrier();
    }
    assert calls[..|calls|] == calls;
  }

  // Counting what a list of calls does to one wire

  /** What is counted on a wire: the gates of one single-qubit method applied to it, or the controls it takes part in. */
  datatype Role = Applied(tag: Tag) | Controlling

  /** How often one call plays `role` on wire w (a target list may name a wire more than once). */
  function Hits(call: Call, role: Role, w: int): nat {
    match role
    case Applied(tag) => if call.GateCall? && call.tag == tag then multiset(call.targets)[w] else 0
    case Controlling => if call.ControlledCall? then multiset(call.controls)[w] else 0
  }

  function Tally(calls: seq<Call>, role: Role, w: int): nat {
    if |calls| == 0 then 0 else Hits(calls[0], role, w) + Tally(calls[1..], role, w)
  }

  lemma {:induction false} TallyConcat(a: seq<Call>, b: seq<Call>, role: Role, w: int)
    ensures Tally(a + b, role, w) == Tally(a, role, w) + Tally(b, role, w)
  {
    if |a| == 0 {
      assert a + b == b;
    } else {
      assert (a + b)[1..] == a[1..] + b;
      TallyConcat(a[1..], b, role, w);
    }
  }

  /** A list none of whose calls plays the role on w counts 0 there. */
  lemma {:induction false} TallyNone(calls: seq<Call>, role: Role, w: int)
    requires forall k :: 0 <= k < |calls| ==> Hits(calls[k], role, w) == 0
    ensures Tally(calls, role, w) == 0
  {
    if |calls| > 0 {
      TallyNone(calls[1..], role, w);
    }
  }

  /** A list in which only call k plays the role on w, and once, counts 1 there. */
  lemma TallyOne(calls: seq<Call>, role: Role, w: int, k: int)
    requires 0 <= k < |calls| && Hits(calls[k], role, w) == 1
    requires forall j :: 0 <= j < |calls| && j != k ==> Hits(calls[j], role, w) == 0
    ensures Tally(calls, role, w) == 1
  {
    assert calls == calls[..k] + [calls[k]] + calls[k + 1..];
    TallyConcat(calls[..k] + [calls[k]], calls[k + 1..], role, w);
    TallyConcat(calls[..k], [calls[k]], role, w);
    TallyNone(calls[..k], role, w);
    TallyNone(calls[k + 1..], role, w);
  }

  // The SWAP half of the Fourier transforms

  /**
   * SWAP(i, n-1-i) for i = 0, 1, ... below n / 2: qubit i and its mirror
   * image, each wire in at most one pair and none with itself.
   */
  function SwapPairs(n: nat): (calls: seq<Call>)
    ensures |calls| == n / 2
    ensures forall k :: 0 <= k < |calls| ==>
      calls[k].SwapCall? && 0 <= calls[k].target1 < calls[k].target2 < n && calls[k].target1 + calls[k].target2 == n - 1
    ensures forall k, l :: 0 <= k < l < |calls| ==>
      calls[k].target1 != calls[l].target1 && calls[k].target1 != calls[l].target2 &&
      calls[k].target2 != calls[l].target1 && calls[k].target2 != calls[l].target2
  {
    seq(n / 2, i requires 0 <= i < n / 2 => SwapCall(i, n - 1 - i))
  }

  /**
   * The swap loop shared by QFT and IQFT: it stops when the qubit is its
   * own mirror image or reaches half the qubit count.
   */
  method SwapHalves(n: nat) returns (calls: seq<Call>)
    ensures calls == SwapPairs(n)
  {
    calls := [];
    var qubit := 0;
    while qubit < n
      invariant 0 <= qubit <= n / 2 && calls == SwapPairs(n)[..qubit]
    {
      if qubit == n - qubit - 1 {
        break;
      }
      if 2 * qubit >= n {
        break;
      }
      calls := calls + [SwapCall(qubit, n - qubit - 1)];
      qubit := qubit + 1;
    }
  }

  /** The wire contents w after exchanging the contents of each SWAP call's two wires, in order. */
  function Exchanged<T>(w: seq<T>, calls: seq<Call>): (r: seq<T>)
    requires forall k :: 0 <= k < |calls| ==> calls[k].SwapCall? && 0 <= calls[k].target1 < |w| && 0 <= calls[k].target2 < |w|
    ensures |r| == |w|
  {
    if |calls| == 0 then w
    else
      var v := Exchanged(w, calls[..|calls| - 1]);
      var a, b := calls[|calls| - 1].target1, calls[|calls| - 1].target2;
      v[a := v[b]][b := v[a]]
  }

  function Reverse<T>(w: seq<T>): (r: seq<T>)
    ensures |r| == |w|
  {
    seq(|w|, j requires 0 <= j < |w| => w[|w| - 1 - j])
  }

  /** The contents of wire j once the outer k wires on each side hold their mirror images' contents. */
  function PartlyReversed<T>(w: seq<T>, k: nat, j: nat): T
    requires j < |w|
  {
    if j < k || j >= |w| - k then w[|w| - 1 - j] else w[j]
  }

  lemma ReverseIndex<T>(w: seq<T>, j: int)
    requires 0 <= j < |w|
    ensures Reverse(w)[j] == w[|w| - 1 - j]
  {
  }

  /** After the first k pairs, the outer k wires on each side hold their mirror images' contents. */
  lemma {:induction false} ExchangedPrefix<T>(w: seq<T>, k: nat)
    requires k <= |w| / 2
    ensures forall j :: 0 <= j < |w| ==> Exchanged(w, SwapPairs(|w|)[..k])[j] == PartlyReversed(w, k, j)
  {
    var n := |w|;
    var pairs := SwapPairs(n)[..k];
    if k == 0 {
      assert Exchanged(w, pairs) == w;
    } else {
      ExchangedPrefix(w, k - 1);
      assert pairs[..k - 1] == SwapPairs(n)[..k - 1];
      var v := Exchanged(w, pairs[..k - 1]);
      assert pairs[k - 1] == SwapCall(k - 1, n - k);
      var r := v[k - 1 := v[n - k]][n - k := v[k - 1]];
      assert Exchanged(w, pairs) == r;
      forall j | 0 <= j < n
        ensures r[j] == PartlyReversed(w, k, j)
      {
        assert v[j] == PartlyReversed(w, k - 1, j);
        if j == k - 1 {
          assert v[n - k] == PartlyReversed(w, k - 1, n - k);
        } else if j == n - k {
          assert v[k - 1] == PartlyReversed(w, k - 1, k - 1);
        }
      }
    }
  }

  /** Once half the wires on each side are exchanged, every wire holds its mirror image's contents. */
  lemma FullyReversed<T>(w: seq<T>, j: int)
    requires 0 <= j < |w|
    ensures PartlyReversed(w, |w| / 2, j) == w[|w| - 1 - j]
  {
    var n := |w|;
    if n / 2 <= j < n - n / 2 {
      assert j == n - 1 - j;
    }
  }

  /** The swap pairs reverse the order of the wires. */
  lemma SwapsReverse<T>(w: seq<T>)
    ensures Exchanged(w, SwapPairs(|w|)) == Reverse(w)
  {
    var n := |w|;
    ExchangedPrefix(w, n / 2);
    assert SwapPairs(n)[..n / 2] == SwapPairs(n);
    var r := Exchanged(w, SwapPairs(n));
    forall j | 0 <= j < n
      ensures r[j] == Reverse(w)[j]
    {
      assert r[j] == PartlyReversed(w, n / 2, j);
      ReverseIndex(w, j);
      FullyReversed(w, j);
    }
  }

  // The rotation half of the Fourier transforms

  /** CP onto target q from qubits 0 .. m-1, in that order, with theta = pi / 2^(q-c). */
  function RisingPhases(q: nat, m: nat): seq<Call>
    requires m <= q
  {
    seq(m, c requires 0 <= c < m => PhaseCall(c, q, false))
  }

  /** CP onto target q from qubits q-1 down to q-m, in that order, with theta = -pi / 2^(q-c). */
  function FallingPhases(q: nat, m: nat): seq<Call>
    requires m <= q
  {
    seq(m, j requires 0 <= j < m => PhaseCall(q - 1 - j, q, true))
  }

  /** QFT's calls for target q: H(q), then CP from each lower qubit c = 0 .. q-1 with theta = pi / 2^(q-c). */
  function QftBlock(q: nat): seq<Call> {
    [HCall(q)] + RisingPhases(q, q)
  }

  /** QFT's rotation calls: the blocks of targets n-1 down to 0. */
  function QftRotations(n: nat): seq<Call> {
    if n == 0 then [] else QftBlock(n - 1) + QftRotations(n - 1)
  }

  /** IQFT's calls for target q: CP from each lower qubit c = q-1 down to 0 with theta = -pi / 2^(q-c), then H(q). */
  function IqftBlock(q: nat): seq<Call> {
    FallingPhases(q, q) + [HCall(q)]
  }

  /** IQFT's rotation calls: the blocks of targets 0 up to n-1. */
  function IqftRotations(n: nat): seq<Call> {
    if n == 0 then [] else IqftRotations(n - 1) + IqftBlock(n - 1)
  }

  /** Every call QFT emits: the rotations, then the swaps. */
  function QftCalls(n: nat): seq<Call> {
    QftRotations(n) + SwapPairs(n)
  }

  /** Every call IQFT emits: the swaps, then the rotations. */
  function IqftCalls(n: nat): seq<Call> {
    SwapPairs(n) + IqftRotations(n)
  }

  /** QFT's inner loop for target q: H(q), then CP from each lower qubit in rising order. */
  method QftBlockCalls(q: nat) returns (block: seq<Call>)
    ensures block == QftBlock(q)
  {
    block := [HCall(q)];
    for control := 0 to q
      invariant block == [HCall(q)] + RisingPhases(q, control)
    {
      assert RisingPhases(q, control + 1) == RisingPhases(q, control) + [PhaseCall(control, q, false)];
      block := block + [PhaseCall(control, q, false)];
    }
  }

  /** QFT: for each qubit from the highest down, H on it and a phase from every lower qubit; then the swaps. */
  method Qft(n: nat) returns (calls: seq<Call>)
    ensures calls == QftCalls(n)
  {
    calls := [];
    var qubit := n;
    while qubit > 0
      invariant 0 <= qubit <= n && calls + QftRotations(qubit) == QftRotations(n)
    {
      qubit := qubit - 1;
      var block := QftBlockCalls(qubit);
      assert QftRotations(qubit + 1) == block + QftRotations(qubit);
      calls := calls + block;
    }
    var swaps := SwapHalves(n);
    calls := calls + swaps;
  }

  /** IQFT's inner loop for target q: CP from each lower qubit, nearest first, then H(q). */
  method IqftBlockCalls(q: nat) returns (block: seq<Call>)
    ensures block == IqftBlock(q)
  {
    block := [];
    var control := q;
    while control > 0
      invariant 0 <= control <= q && block == FallingPhases(q, q - control)
    {
      control := control - 1;
      assert FallingPhases(q, q - control) == FallingPhases(q, q - control - 1) + [PhaseCall(control, q, true)];
      block := block + [PhaseCall(control, q, true)];
    }
    block := block + [HCall(q)];
  }

  /** IQFT: the swaps; then for each qubit from the lowest up, a phase from every lower qubit, nearest first, and H on it. */
  method Iqft(n: nat) returns (calls: seq<Call>)
    ensures calls == IqftCalls(n)
  {
    calls := SwapHalves(n);
    for qubit := 0 to n
      invariant calls == SwapPairs(n) + IqftRotations(qubit)
    {
      var block := IqftBlockCalls(qubit);
      calls := calls + block;
    }
  }

  // What the Fourier transforms emit

  /** H on one qubit below n. */
  predicate IsHadamard(call: Call, n: nat) {
    call.GateCall? && |call.targets| == 1 && 0 <= call.targets[0] < n && call == HCall(call.targets[0])
  }

  /** CP from a single lower control onto a target below n, with angle (+/-) pi / 2^(target - control). */
  predicate IsPhase(call: Call, n: nat, negated: bool) {
    && call.ControlledCall? && call.tag == P && |call.controls| == 1
    && 0 <= call.controls[0] < call.target < n
    && call.angles == PhaseAngles(negated, call.target - call.controls[0])
  }

  /** QFT's rotations are n(n+1)/2 calls, each an H or a CP from a lower control with angle pi / 2^(target - control). */
  lemma {:induction false} QftRotationsShape(n: nat)
    ensures 2 * |QftRotations(n)| == n * (n + 1)
    ensures forall k :: 0 <= k < |QftRotations(n)| ==>
      IsHadamard(QftRotations(n)[k], n) || IsPhase(QftRotations(n)[k], n, false)
  {
    if n > 0 {
      QftRotationsShape(n - 1);
      var block, rest := QftBlock(n - 1), QftRotations(n - 1);
      assert |block| == n;
      forall k | 0 <= k < |block| + |rest|
        ensures IsHadamard((block + rest)[k], n) || IsPhase((block + rest)[k], n, false)
      {
        if k >= |block| {
          assert (block + rest)[k] == rest[k - |block|];
        }
      }
    }
  }

  /** QFT applies H exactly once to each of the n qubits and never elsewhere. */
  lemma {:induction false} QftHadamardOnce(n: nat, w: int)
    ensures Tally(QftRotations(n), Applied(H), w) == if 0 <= w < n then 1 else 0
  {
    if n > 0 {
      var q := n - 1;
      QftHadamardOnce(q, w);
      TallyConcat(QftBlock(q), QftRotations(q), Applied(H), w);
      TallyConcat([HCall(q)], RisingPhases(q, q), Applied(H), w);
      TallyNone(RisingPhases(q, q), Applied(H), w);
      assert Tally([HCall(q)], Applied(H), w) == if w == q then 1 else 0 by {
        assert [HCall(q)][1..] == [];
      }
    }
  }

  /** In QFT, qubit w controls one CP onto each higher qubit: n-1-w of them. */
  lemma {:induction false} QftControlsAbove(n: nat, w: int)
    ensures Tally(QftRotations(n), Controlling, w) == if 0 <= w < n then n - 1 - w else 0
  {
    if n > 0 {
      var q := n - 1;
      QftControlsAbove(q, w);
      TallyConcat(QftBlock(q), QftRotations(q), Controlling, w);
      TallyConcat([HCall(q)], RisingPhases(q, q), Controlling, w);
      TallyNone([HCall(q)], Controlling, w);
      var phases := RisingPhases(q, q);
      if 0 <= w < q {
        TallyOne(phases, Controlling, w, w);
      } else {
        TallyNone(phases, Controlling, w);
      }
    }
  }

  /** A call with its phase angle's sign flipped; every other call is its own inverse here. */
  function Inverse(call: Call): Call {
    if call.ControlledCall? && call.angles.Triple? && call.angles.theta.Some? && call.angles.theta.value.PiOverPow2? then
      var theta := call.angles.theta.value;
      call.(angles := call.angles.(theta := Some(theta.(negated := !theta.negated))))
    else call
  }

  function Inverted(calls: seq<Call>): (r: seq<Call>)
    ensures |r| == |calls|
  {
    seq(|calls|, k requires 0 <= k < |calls| => Inverse(calls[k]))
  }

  lemma ReverseInvertedConcat(a: seq<Call>, b: seq<Call>)
    ensures Reverse(Inverted(a + b)) == Reverse(Inverted(b)) + Reverse(Inverted(a))
  {
    var lhs, rhs := Reverse(Inverted(a + b)), Reverse(Inverted(b)) + Reverse(Inverted(a));
    forall k | 0 <= k < |a| + |b|
      ensures lhs[k] == rhs[k]
    {
      var j := |a| + |b| - 1 - k;
      assert lhs[k] == Inverse((a + b)[j]);
      if k < |b| {
        assert rhs[k] == Reverse(Inverted(b))[k] == Inverse(b[j - |a|]);
      } else {
        assert rhs[k] == Reverse(Inverted(a))[k - |b|] == Inverse(a[j]);
      }
    }
  }

  lemma InversePhase(control: nat, target: nat)
    requires control < target
    ensures Inverse(PhaseCall(control, target, false)) == PhaseCall(control, target, true)
  {
  }

  /** IQFT's block for a target is QFT's block backwards with its phases negated. */
  lemma BlockMirror(q: nat)
    ensures IqftBlock(q) == Reverse(Inverted(QftBlock(q)))
  {
    var fwd, bwd := QftBlock(q), IqftBlock(q);
    var mirrored := Reverse(Inverted(fwd));
    forall i | 0 <= i <= q
      ensures bwd[i] == mirrored[i]
    {
      assert mirrored[i] == Inverse(fwd[q - i]);
      if i < q {
        assert fwd[q - i] == RisingPhases(q, q)[q - 1 - i] == PhaseCall(q - 1 - i, q, false);
        assert bwd[i] == FallingPhases(q, q)[i] == PhaseCall(q - 1 - i, q, true);
        InversePhase(q - 1 - i, q);
      } else {
        assert fwd[0] == HCall(q) && bwd[q] == HCall(q);
      }
    }
  }

  /**
   * IQFT's rotations are QFT's in reverse order, each phase with the same
   * control, target and power of two but the opposite sign.
   */
  lemma {:induction false} QftMirror(n: nat)
    ensures IqftRotations(n) == Reverse(Inverted(QftRotations(n)))
  {
    if n > 0 {
      QftMirror(n - 1);
      BlockMirror(n - 1);
      ReverseInvertedConcat(QftBlock(n - 1), QftRotations(n - 1));
    }
  }

  lemma ConcatFits(a: seq<Call>, b: seq<Call>, n: nat)
    requires CallsFit(a, n) && CallsFit(b, n)
    ensures CallsFit(a + b, n)
  {
    forall k | 0 <= k < |a| + |b|
      ensures CallFits((a + b)[k], n)
    {
      if k >= |a| {
        assert (a + b)[k] == b[k - |a|];
      }
    }
  }

  /** H calls and CP calls onto qubits below n fit a circuit of n qubits. */
  lemma RotationsFit(calls: seq<Call>, n: nat, negated: bool)
    requires forall k :: 0 <= k < |calls| ==> IsHadamard(calls[k], n) || IsPhase(calls[k], n, negated)
    ensures CallsFit(calls, n)
  {
  }

  /** Mirroring a list of H and CP calls keeps them H and CP calls, with the opposite sign. */
  lemma MirrorRotations(calls: seq<Call>, n: nat)
    requires forall k :: 0 <= k < |calls| ==> IsHadamard(calls[k], n) || IsPhase(calls[k], n, false)
    ensures forall k :: 0 <= k < |calls| ==> IsHadamard(Reverse(Inverted(calls))[k], n) || IsPhase(Reverse(Inverted(calls))[k], n, true)
  {
    forall k | 0 <= k < |calls|
      ensures IsHadamard(Reverse(Inverted(calls))[k], n) || IsPhase(Reverse(Inverted(calls))[k], n, true)
    {
      assert Reverse(Inverted(calls))[k] == Inverse(calls[|calls| - 1 - k]);
    }
  }

  /** Every call QFT makes is accepted by a circuit of n qubits. */
  lemma QftCallsFit(n: nat)
    ensures CallsFit(QftCalls(n), n)
  {
    QftRotationsShape(n);
    RotationsFit(QftRotations(n), n, false);
    ConcatFits(QftRotations(n), SwapPairs(n), n);
  }

  /** Every call IQFT makes is accepted by a circuit of n qubits. */
  lemma IqftCallsFit(n: nat)
    ensures CallsFit(IqftCalls(n), n)
  {
    QftRotationsShape(n);
    QftMirror(n);
    MirrorRotations(QftRotations(n), n);
    RotationsFit(IqftRotations(n), n, true);
    ConcatFits(SwapPairs(n), IqftRotations(n), n);
  }

  /** QFT on circuit c: its calls, made on the circuit's qubits. */
  method ApplyQft(c: Circuit)
    requires c.Valid()
    modifies c
    ensures CallsFit(QftCalls(c.numQubits), c.numQubits)
    ensures c.Valid() && c.cbits == old(c.cbits) && c.state == old(c.state)
    ensures c.qubits == EmitAll(old(c.qubits), QftCalls(c.numQubits))
  {
    var calls := Qft(c.numQubits);
    QftCallsFit(c.numQubits);
    Apply(c, calls);
  }

  /** IQFT on circuit c: its calls, made on the circuit's qubits. */
  method ApplyIqft(c: Circuit)
    requires c.Valid()
    modifies c
    ensures CallsFit(IqftCalls(c.numQubits), c.numQubits)
    ensures c.Valid() && c.cbits == old(c.cbits) && c.state == old(c.state)
    ensures c.qubits == EmitAll(old(c.qubits), IqftCalls(c.numQubits))
  {
    var calls := Iqft(c.numQubits);
    IqftCallsFit(c.numQubits);
    Apply(c, calls);
  }

  // The Deutsch-Jozsa oracles

  /** The number of input qubits 0 .. n-2; the loops over `range(n - 1)` run this often. */
  function InputCount(n: nat): nat {
    if n == 0 then 0 else n - 1
  }

  /** CX from each input qubit 0 .. m-1 onto the output qubit n-1. */
  function ControlsToOutput(n: nat, m: nat): seq<Call> {
    seq(m, c requires 0 <= c < m => CxCall(c, n - 1))
  }

  /** The balanced oracle's calls: X on the flipped inputs, a barrier, CX from every input onto the output, a barrier, the X again. */
  function BalancedCalls(n: nat, flips: seq<int>): seq<Call> {
    [XCall(flips), BarrierCall] + ControlsToOutput(n, InputCount(n)) + [BarrierCall, XCall(flips)]
  }

  /** The constant oracle's calls: X on the output qubit when the output is 1, nothing otherwise. */
  function ConstantCalls(n: nat, output: int): seq<Call> {
    if output == 1 then [XCall([n - 1])] else []
  }

  method BalancedOracle(n: nat, flips: seq<int>) returns (calls: seq<Call>)
    ensures calls == BalancedCalls(n, flips)
  {
    calls := [XCall(flips), BarrierCall];
    var control := 0;
    while control < n - 1
      invariant 0 <= control <= InputCount(n) && calls == [XCall(flips), BarrierCall] + ControlsToOutput(n, control)
    {
      assert ControlsToOutput(n, control + 1) == ControlsToOutput(n, control) + [CxCall(control, n - 1)];
      calls := calls + [CxCall(control, n - 1)];
      control := control + 1;
    }
    calls := calls + [BarrierCall, XCall(flips)];
  }

  method ConstantOracle(n: nat, output: int) returns (calls: seq<Call>)
    ensures calls == ConstantCalls(n, output)
  {
    calls := [];
    if output == 1 {
      calls := calls + [XCall([n - 1])];
    }
  }

  /** One call's tally on its own. */
  lemma TallySingle(call: Call, role: Role, w: int)
    ensures Tally([call], role, w) == Hits(call, role, w)
  {
    assert [call][1..] == [];
  }

  /** The balanced oracle applies X to each wire twice for every time the flips name it (so the flips cancel). */
  lemma BalancedFlipsTwice(n: nat, flips: seq<int>, w: int)
    ensures Tally(BalancedCalls(n, flips), Applied(X), w) == 2 * multiset(flips)[w]
  {
    var role := Applied(X);
    var fence, cxs := [XCall(flips), BarrierCall], ControlsToOutput(n, InputCount(n));
    var closing := [BarrierCall, XCall(flips)];
    TallyConcat(fence + cxs, closing, role, w);
    TallyConcat(fence, cxs, role, w);
    TallyNone(cxs, role, w);
    TallyConcat([XCall(flips)], [BarrierCall], role, w);
    TallyConcat([BarrierCall], [XCall(flips)], role, w);
    TallySingle(XCall(flips), role, w);
    TallySingle(BarrierCall, role, w);
  }

  /** Every controlled call of the balanced oracle is a CX from an input qubit onto the output qubit n-1. */
  lemma BalancedTargets(n: nat, flips: seq<int>)
    ensures forall k :: 0 <= k < |BalancedCalls(n, flips)| && BalancedCalls(n, flips)[k].ControlledCall? ==>
      var call := BalancedCalls(n, flips)[k];
      call.tag == X && call.target == n - 1 && |call.controls| == 1 && 0 <= call.controls[0] < n - 1
  {
    var cxs := ControlsToOutput(n, InputCount(n));
    var all := BalancedCalls(n, flips);
    forall k | 0 <= k < |all| && all[k].ControlledCall?
      ensures all[k].tag == X && all[k].target == n - 1 && |all[k].controls| == 1 && 0 <= all[k].controls[0] < n - 1
    {
      assert 2 <= k < 2 + |cxs| && all[k] == cxs[k - 2];
    }
  }

  /** Each input qubit 0 .. n-2 of the balanced oracle controls exactly one CX, and no other wire controls any. */
  lemma BalancedControls(n: nat, flips: seq<int>, w: int)
    ensures Tally(BalancedCalls(n, flips), Controlling, w) == if 0 <= w < n - 1 then 1 else 0
  {
    var role := Controlling;
    var fence, cxs := [XCall(flips), BarrierCall], ControlsToOutput(n, InputCount(n));
    var closing := [BarrierCall, XCall(flips)];
    TallyConcat(fence + cxs, closing, role, w);
    TallyConcat(fence, cxs, role, w);
    TallyNone(fence, role, w);
    TallyNone(closing, role, w);
    forall j | 0 <= j < |cxs|
      ensures Hits(cxs[j], role, w) == if j == w then 1 else 0
    {
      assert cxs[j] == CxCall(j, n - 1);
      SingletonCount(j, w);
    }
    if 0 <= w < n - 1 {
      TallyOne(cxs, role, w, w);
    } else {
      TallyNone(cxs, role, w);
    }
  }

  /** The constant oracle flips only the output qubit, once when the output is 1, and controls nothing. */
  lemma ConstantFlips(n: nat, output: int, w: int)
    ensures Tally(ConstantCalls(n, output), Applied(X), w) == if output == 1 && w == n - 1 then 1 else 0
    ensures Tally(ConstantCalls(n, output), Controlling, w) == 0
  {
    if output == 1 {
      TallySingle(XCall([n - 1]), Applied(X), w);
      TallySingle(XCall([n - 1]), Controlling, w);
    }
  }

  /** The balanced oracle fits a circuit of n >= 1 qubits whose flips name its qubits. */
  lemma BalancedCallsFit(n: nat, flips: seq<int>)
    requires n >= 1 && forall k :: 0 <= k < |flips| ==> 0 <= flips[k] < n
    ensures CallsFit(BalancedCalls(n, flips), n)
  {
    var cxs := ControlsToOutput(n, InputCount(n));
    assert CallsFit(cxs, n) by {
      forall k | 0 <= k < |cxs| ensures CallFits(cxs[k], n) {
        assert cxs[k] == CxCall(k, n - 1);
      }
    }
    ConcatFits([XCall(flips), BarrierCall], cxs, n);
    ConcatFits([XCall(flips), BarrierCall] + cxs, [BarrierCall, XCall(flips)], n);
  }

  // The Deutsch-Jozsa driver

  /** Which oracle the driver calls: one of the two examples, or the caller's own, given by the calls it makes. */
  datatype Oracle = Balanced | Constant | Custom(calls: seq<Call>)

  function OracleCalls(oracle: Oracle, n: nat, output: int, flips: seq<int>): seq<Call> {
    match oracle
    case Balanced => BalancedCalls(n, flips)
    case Constant => ConstantCalls(n, output)
    case Custom(calls) => calls
  }

  /** H on qubits 0 .. m-1 in order, one call each. */
  function Hadamards(m: nat): seq<Call> {
    seq(m, q requires 0 <= q < m => HCall(q))
  }

  /** Before the oracle: a barrier, X on the output qubit, H on every qubit. */
  function DeutschJozsaPrologue(n: nat): seq<Call> {
    [BarrierCall, XCall([n - 1])] + Hadamards(n)
  }

  /** After the oracle: H on the input qubits only, then a barrier. */
  function DeutschJozsaEpilogue(n: nat): seq<Call> {
    Hadamards(InputCount(n)) + [BarrierCall]
  }

  function DeutschJozsaCalls(n: nat, oracle: Oracle, output: int, flips: seq<int>): seq<Call> {
    DeutschJozsaPrologue(n) + OracleCalls(oracle, n, output, flips) + DeutschJozsaEpilogue(n)
  }

  method DeutschJozsa(n: nat, oracle: Oracle, output: int, flips: seq<int>) returns (calls: seq<Call>)
    ensures calls == DeutschJozsaCalls(n, oracle, output, flips)
  {
    calls := [BarrierCall, XCall([n - 1])];
    for q := 0 to n
      invariant calls == [BarrierCall, XCall([n - 1])] + Hadamards(q)
    {
      assert Hadamards(q + 1) == Hadamards(q) + [HCall(q)];
      calls := calls + [HCall(q)];
    }
    var middle: seq<Call>;
    match oracle {
      case Balanced =>
        middle := BalancedOracle(n, flips);
      case Constant =>
        middle := ConstantOracle(n, output);
      case Custom(own) =>
        middle := own;
    }
    assert calls == DeutschJozsaPrologue(n);
    assert middle == OracleCalls(oracle, n, output, flips);
    calls := calls + middle;
    ghost var before := calls;
    var q := 0;
    while q < n - 1
      invariant 0 <= q <= InputCount(n) && calls == before + Hadamards(q)
    {
      assert Hadamards(q + 1) == Hadamards(q) + [HCall(q)];
      calls := calls + [HCall(q)];
      q := q + 1;
    }
    assert q == InputCount(n);
    calls := calls + [BarrierCall];
    assert calls == before + DeutschJozsaEpilogue(n);
  }

  /** A one-element target or control list names its element once and nothing else. */
  lemma SingletonCount(q: int, w: int)
    ensures multiset([q])[w] == if q == w then 1 else 0
  {
    if q != w {
      assert w !in multiset([q]);
    }
  }

  /** H on qubits 0 .. m-1 applies H once to each of them and to no other wire. */
  lemma HadamardsOnce(m: nat, w: int)
    ensures Tally(Hadamards(m), Applied(H), w) == if 0 <= w < m then 1 else 0
    ensures Tally(Hadamards(m), Applied(X), w) == 0 && Tally(Hadamards(m), Controlling, w) == 0
  {
    var hs := Hadamards(m);
    forall j | 0 <= j < |hs|
      ensures Hits(hs[j], Applied(H), w) == (if j == w then 1 else 0)
      ensures Hits(hs[j], Applied(X), w) == 0 && Hits(hs[j], Controlling, w) == 0
    {
      assert hs[j] == HCall(j);
      SingletonCount(j, w);
    }
    if 0 <= w < m {
      TallyOne(hs, Applied(H), w, w);
    } else {
      TallyNone(hs, Applied(H), w);
    }
    TallyNone(hs, Applied(X), w);
    TallyNone(hs, Controlling, w);
  }

  /** What the opening calls do to a wire: the X on the output qubit and the H on every qubit. */
  lemma PrologueTally(n: nat, role: Role, w: int)
    ensures Tally(DeutschJozsaPrologue(n), role, w) == Hits(XCall([n - 1]), role, w) + Tally(Hadamards(n), role, w)
  {
    var opening := [BarrierCall, XCall([n - 1])];
    TallyConcat(opening, Hadamards(n), role, w);
    TallyConcat([BarrierCall], [XCall([n - 1])], role, w);
    TallySingle(BarrierCall, role, w);
    TallySingle(XCall([n - 1]), role, w);
  }

  /** What the closing calls do to a wire: the H on the input qubits. */
  lemma EpilogueTally(n: nat, role: Role, w: int)
    ensures Tally(DeutschJozsaEpilogue(n), role, w) == Tally(Hadamards(InputCount(n)), role, w)
  {
    TallyConcat(Hadamards(InputCount(n)), [BarrierCall], role, w);
    TallySingle(BarrierCall, role, w);
  }

  /** Before the oracle every qubit gets one H and the output qubit one X; nothing is controlled. */
  lemma PrologueCounts(n: nat, w: int)
    requires n >= 1
    ensures Tally(DeutschJozsaPrologue(n), Applied(H), w) == if 0 <= w < n then 1 else 0
    ensures Tally(DeutschJozsaPrologue(n), Applied(X), w) == if w == n - 1 then 1 else 0
    ensures Tally(DeutschJozsaPrologue(n), Controlling, w) == 0
  {
    HadamardsOnce(n, w);
    PrologueTally(n, Applied(H), w);
    PrologueTally(n, Applied(X), w);
    PrologueTally(n, Controlling, w);
    SingletonCount(n - 1, w);
  }

  /** After the oracle only the input qubits get an H (the output qubit none); nothing is flipped or controlled. */
  lemma EpilogueCounts(n: nat, w: int)
    requires n >= 1
    ensures Tally(DeutschJozsaEpilogue(n), Applied(H), w) == if 0 <= w < n - 1 then 1 else 0
    ensures Tally(DeutschJozsaEpilogue(n), Applied(X), w) == 0 && Tally(DeutschJozsaEpilogue(n), Controlling, w) == 0
  {
    HadamardsOnce(n - 1, w);
    EpilogueTally(n, Applied(H), w);
    EpilogueTally(n, Applied(X), w);
    EpilogueTally(n, Controlling, w);
  }

  /**
   * With either example oracle, each input qubit gets exactly two H (one
   * on each side of the oracle) and the output qubit exactly one; the
   * output qubit gets one X more than the oracle gives it.
   */
  lemma DeutschJozsaCounts(n: nat, oracle: Oracle, output: int, flips: seq<int>, w: int)
    requires n >= 1 && !oracle.Custom?
    ensures Tally(DeutschJozsaCalls(n, oracle, output, flips), Applied(H), w) == if 0 <= w < n - 1 then 2 else if w == n - 1 then 1 else 0
    ensures Tally(DeutschJozsaCalls(n, oracle, output, flips), Applied(X), w) ==
      (if w == n - 1 then 1 else 0) + Tally(OracleCalls(oracle, n, output, flips), Applied(X), w)
  {
    var middle := OracleCalls(oracle, n, output, flips);
    PrologueCounts(n, w);
    EpilogueCounts(n, w);
    forall role: Role
      ensures Tally(DeutschJozsaCalls(n, oracle, output, flips), role, w) ==
        Tally(DeutschJozsaPrologue(n), role, w) + Tally(middle, role, w) + Tally(DeutschJozsaEpilogue(n), role, w)
    {
      TallyConcat(DeutschJozsaPrologue(n) + middle, DeutschJozsaEpilogue(n), role, w);
      TallyConcat(DeutschJozsaPrologue(n), middle, role, w);
    }
    TallyNone(middle, Applied(H), w);
  }

  /**
   * On a circuit of n >= 1 qubits every call of the driver is accepted,
   * provided the flips name qubits of the circuit and a caller's oracle
   * makes acceptable calls.
   */
  lemma DeutschJozsaCallsFit(n: nat, oracle: Oracle, output: int, flips: seq<int>)
    requires n >= 1
    requires oracle.Balanced? ==> forall k :: 0 <= k < |flips| ==> 0 <= flips[k] < n
    requires oracle.Custom? ==> CallsFit(oracle.calls, n)
    ensures CallsFit(DeutschJozsaCalls(n, oracle, output, flips), n)
  {
    var hs := Hadamards(n);
    assert CallsFit(Hadamards(n - 1), n) && CallsFit(hs, n);
    ConcatFits([BarrierCall, XCall([n - 1])], hs, n);
    ConcatFits(Hadamards(n - 1), [BarrierCall], n);
    if oracle.Balanced? {
      BalancedCallsFit(n, flips);
    }
    ConcatFits(DeutschJozsaPrologue(n), OracleCalls(oracle, n, output, flips), n);
    ConcatFits(DeutschJozsaPrologue(n) + OracleCalls(oracle, n, output, flips), DeutschJozsaEpilogue(n), n);
  }

  /** The Deutsch-Jozsa algorithm on circuit c: its calls, made on the circuit's qubits. */
  method ApplyDeutschJozsa(c: Circuit, oracle: Oracle, output: int, flips: seq<int>)
    requires c.Valid() && c.numQubits >= 1
    requires oracle.Balanced? ==> forall k :: 0 <= k < |flips| ==> 0 <= flips[k] < c.numQubits
    requires oracle.Custom? ==> CallsFit(oracle.calls, c.numQubits)
    modifies c
    ensures CallsFit(DeutschJozsaCalls(c.numQubits, oracle, output, flips), c.numQubits)
    ensures c.Valid() && c.cbits == old(c.cbits) && c.state == old(c.state)
    ensures c.qubits == EmitAll(old(c.qubits), DeutschJozsaCalls(c.numQubits, oracle, output, flips))
  {
    var calls := DeutschJozsa(c.numQubits, oracle, output, flips);
    DeutschJozsaCallsFit(c.numQubits, oracle, output, flips);
    Apply(c, calls);
  }
}
