/**
 * Gate tags, angle triples, grid cells and the symbolic 2x2 factors the
 * simulator multiplies together. The numeric matrices are not modelled: a
 * factor is the name of the matrix `gateMatrix` would return.
 */
module Gates {

  datatype Option<T> = None | Some(value: T)

  /** A classical bit value. */
  type Bit = b: int | 0 <= b <= 1

  /**
   * The strings stored in the wire records: gate types (I, X, ..., U),
   * SWAP, measurement M, barrier B, control C and the classical-bit
   * measurement connection O.
   */
  datatype Tag = I | X | Y | Z | H | S | T | P | RX | RY | RZ | U | Swap | M | B | C | O

  /**
   * An angle argument. `Rad(r)` is a value given by the caller;
   * `PiOverPow2(negated, k)` is the angle (+/-) pi / 2^k that the
   * Fourier-transform generators pass.
   */
  datatype Angle = Rad(r: real) | PiOverPow2(negated: bool, k: nat)

  /**
   * The angle list stored next to a gate: `NoAngles` is the empty list a
   * grid cell starts with, `Triple` the [theta, phi, lambda] list a gate
   * method appends (unused slots are None).
   */
  datatype AngleList = NoAngles | Triple(theta: Option<Angle>, phi: Option<Angle>, lambda: Option<Angle>)

  const UNUSED_ANGLES: AngleList := Triple(None, None, None)

  /** One cell of the compiled grid: a tag and the angle list stored with it. */
  datatype Cell = Cell(tag: Tag, angles: AngleList)

  const IDLE_CELL: Cell := Cell(I, NoAngles)

  /** Tags of the single-qubit gate methods X, Y, Z, H, S, T, P, RX, RY, RZ and U. */
  predicate IsSingleQubitGate(t: Tag) {
    t in {X, Y, Z, H, S, T, P, RX, RY, RZ, U}
  }

  /** Tags that have a controlled method: CX, CY, CZ, CP, CRX, CRY, CRZ and CU. */
  predicate HasControlledForm(t: Tag) {
    t in {X, Y, Z, P, RX, RY, RZ, U}
  }

  /** Gate types whose matrix depends on the angle list. */
  predicate Parametric(t: Tag) {
    t in {P, RX, RY, RZ, U}
  }

  /**
   * The angle list a gate method builds for its tag: [None, None, None]
   * for fixed gates, [theta, None, None] for P and the rotations,
   * [theta, phi, lambda] for U.
   */
  predicate AnglesFit(t: Tag, a: AngleList) {
    if t == U then a.Triple? && a.theta.Some? && a.phi.Some? && a.lambda.Some?
    else if Parametric(t) then a.Triple? && a.theta.Some? && a.phi.None? && a.lambda.None?
    else a == UNUSED_ANGLES
  }

  /**
   * A symbolic 2x2 factor of a Kronecker product: the identity, one of the
   * two computational-basis projectors, the matrix of a single-qubit gate
   * type, or `NoMatrix(t)` for a tag the matrix lookup has no entry for
   * (SWAP, M, B, C and O), where the lookup yields no matrix at all.
   */
  datatype Factor = Id | Proj0 | Proj1 | Gate(tag: Tag, angles: AngleList) | NoMatrix(tag: Tag)

  /**
   * The symbolic counterpart of the matrix lookup by tag: the identity for
   * I, the gate's matrix for a single-qubit gate type (depending on the
   * angles only for the parametrised types), and no matrix otherwise.
   */
  function GateMatrix(t: Tag, a: AngleList): (f: Factor)
    ensures f == Id <==> t == I
    ensures f.Gate? <==> IsSingleQubitGate(t)
    ensures f.Gate? ==> f.tag == t && (f.angles == a || (!Parametric(t) && f.angles == NoAngles))
    ensures f.NoMatrix? ==> f.tag == t
  {
    if t == I then Id
    else if IsSingleQubitGate(t) then Gate(t, if Parametric(t) then a else NoAngles)
    else NoMatrix(t)
  }
}
