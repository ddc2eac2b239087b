/**
 * Row dispatch and operator construction. Each row of the compiled grid is
 * turned into an action on the state: skipped (a barrier row), an operator
 * applied, an operator built and then dropped, or a measurement. Operators
 * are symbolic: a Kronecker product is the list of its 2x2 factors, leftmost
 * first. The simulator builds every product by prepending the next column's
 * factor (`kron(new, old)`), so the factor of column q sits at index n-1-q.
 */
module Operators {
  import opened Gates

  function Pow2(k: nat): (p: nat)
    ensures p >= 1
  {
    if k == 0 then 1 else 2 * Pow2(k - 1)
  }

  /** The number of cells of a row that carry tag `t` (the list's `count`). */
  function CountTag(row: seq<Cell>, t: Tag): (n: nat)
    ensures n <= |row|
  {
    if |row| == 0 then 0
    else CountTag(row[..|row| - 1], t) + (if row[|row| - 1].tag == t then 1 else 0)
  }

  /** Some cell of the row carries tag `t` (the list's `in`). */
  predicate HasTag(row: seq<Cell>, t: Tag) {
    exists q :: 0 <= q < |row| && row[q].tag == t
  }

  lemma CountPrefix(row: seq<Cell>, t: Tag, q: int)
    requires 0 <= q < |row|
    ensures CountTag(row[..q + 1], t) == CountTag(row[..q], t) + (if row[q].tag == t then 1 else 0)
  {
    assert row[..q + 1][..q] == row[..q];
  }

  /** Counting over a prefix never gives more than counting over the row. */
  lemma {:induction false} CountPrefixBound(row: seq<Cell>, t: Tag, m: int)
    requires 0 <= m <= |row|
    ensures CountTag(row[..m], t) <= CountTag(row, t)
    decreases |row| - m
  {
    if m == |row| {
      assert row[..m] == row;
    } else {
      CountPrefixBound(row, t, m + 1);
      CountPrefix(row, t, m);
    }
  }

  /** The cells before a `t` cell hold fewer `t` tags than the row: the control numbering stays in range. */
  lemma ControlNumberInRange(row: seq<Cell>, t: Tag, q: int)
    requires 0 <= q < |row| && row[q].tag == t
    ensures CountTag(row[..q], t) < CountTag(row, t)
  {
    CountPrefix(row, t, q);
    CountPrefixBound(row, t, q + 1);
  }

  /** The count is positive exactly when the tag occurs. */
  lemma {:induction false} CountPositive(row: seq<Cell>, t: Tag)
    ensures CountTag(row, t) > 0 <==> HasTag(row, t)
  {
    if |row| > 0 {
      var init := row[..|row| - 1];
      CountPositive(init, t);
      if HasTag(init, t) {
        var q :| 0 <= q < |init| && init[q].tag == t;
        assert row[q].tag == t;
      }
      if HasTag(row, t) && row[|row| - 1].tag != t {
        var q :| 0 <= q < |row| && row[q].tag == t;
        assert init[q].tag == t;
      }
    }
  }

  /** The last column whose cell carries tag `t`. */
  function LastColumn(row: seq<Cell>, t: Tag): (r: Option<nat>)
    ensures r.None? <==> !HasTag(row, t)
    ensures r.Some? ==> r.value < |row| && row[r.value].tag == t && forall q :: r.value < q < |row| ==> row[q].tag != t
  {
    if |row| == 0 then None
    else if row[|row| - 1].tag == t then Some(|row| - 1)
    else
      var r := LastColumn(row[..|row| - 1], t);
      assert forall q :: 0 <= q < |row| - 1 ==> row[..|row| - 1][q] == row[q];
      r
  }

  // Control-bit combinations

  function Prefixed(b: Bit, cs: seq<seq<Bit>>): seq<seq<Bit>> {
    seq(|cs|, i requires 0 <= i < |cs| => [b] + cs[i])
  }

  /**
   * The combinations of k control bits in the order the Cartesian product
   * of [0, 1] repeated k times lists them: all combinations starting with
   * 0, then all starting with 1, each half in the same order.
   */
  function Combos(k: nat): (cs: seq<seq<Bit>>)
    ensures |cs| == Pow2(k)
    ensures forall i :: 0 <= i < |cs| ==> |cs[i]| == k
  {
    if k == 0 then [[]] else Prefixed(0, Combos(k - 1)) + Prefixed(1, Combos(k - 1))
  }

  /** The number a bit string spells, most significant bit first. */
  function FromBits(b: seq<Bit>): (v: nat)
    ensures v < Pow2(|b|)
  {
    if |b| == 0 then 0 else (if b[0] == 1 then Pow2(|b| - 1) else 0) + FromBits(b[1..])
  }

  predicate AllOnes(b: seq<Bit>) {
    forall j :: 0 <= j < |b| ==> b[j] == 1
  }

  /** The combinations of k bits: the first half prefixes 0 to those of k-1 bits, the second half 1. */
  lemma ComboIndex(k: nat, idx: int)
    requires k > 0 && 0 <= idx < Pow2(k)
    ensures Combos(k)[idx] == if idx < Pow2(k - 1) then [0] + Combos(k - 1)[idx] else [1] + Combos(k - 1)[idx - Pow2(k - 1)]
  {
    var rest := Combos(k - 1);
    if idx < Pow2(k - 1) {
      assert Combos(k)[idx] == Prefixed(0, rest)[idx];
    } else {
      assert Combos(k)[idx] == Prefixed(1, rest)[idx - Pow2(k - 1)];
    }
  }

  /** The value of a bit string with one more leading bit. */
  lemma FromBitsCons(x: Bit, t: seq<Bit>)
    ensures FromBits([x] + t) == (if x == 1 then Pow2(|t|) else 0) + FromBits(t)
  {
    assert ([x] + t)[1..] == t;
  }

  /** One step of ComboValue: a combination in the first half spells what its tail spells. */
  lemma ComboValueLow(k: nat, idx: int)
    requires k > 0 && 0 <= idx < Pow2(k - 1)
    requires FromBits(Combos(k - 1)[idx]) == idx
    ensures FromBits(Combos(k)[idx]) == idx
  {
    ComboIndex(k, idx);
    FromBitsCons(0, Combos(k - 1)[idx]);
  }

  /** One step of ComboValue: a combination in the second half adds the leading bit's weight. */
  lemma ComboValueHigh(k: nat, idx: int)
    requires k > 0 && Pow2(k - 1) <= idx < Pow2(k)
    requires FromBits(Combos(k - 1)[idx - Pow2(k - 1)]) == idx - Pow2(k - 1)
    ensures FromBits(Combos(k)[idx]) == idx
  {
    ComboIndex(k, idx);
    FromBitsCons(1, Combos(k - 1)[idx - Pow2(k - 1)]);
  }

  /** Combination number idx spells idx: the combinations come in increasing binary order. */
  lemma {:induction false} ComboValue(k: nat, idx: int)
    requires 0 <= idx < Pow2(k)
    ensures FromBits(Combos(k)[idx]) == idx
  {
    if k > 0 {
      if idx < Pow2(k - 1) {
        ComboValue(k - 1, idx);
        ComboValueLow(k, idx);
      } else {
        ComboValue(k - 1, idx - Pow2(k - 1));
        ComboValueHigh(k, idx);
      }
    }
  }

  /** One step of ComboOf: a leading bit in front of a combination lands at the index it spells. */
  lemma ComboOfStep(b: seq<Bit>)
    requires |b| > 0 && Combos(|b| - 1)[FromBits(b[1..])] == b[1..]
    ensures Combos(|b|)[FromBits(b)] == b
  {
    var tail := b[1..];
    assert b == [b[0]] + tail;
    FromBitsCons(b[0], tail);
    ComboIndex(|b|, FromBits(b));
  }

  /** Every bit string of length k is a combination, at the index it spells. */
  lemma {:induction false} ComboOf(b: seq<Bit>)
    ensures Combos(|b|)[FromBits(b)] == b
  {
    if |b| > 0 {
      ComboOf(b[1..]);
      ComboOfStep(b);
    }
  }

  /** The combinations are pairwise distinct. */
  lemma CombosDistinct(k: nat, i: int, j: int)
    requires 0 <= i < Pow2(k) && 0 <= j < Pow2(k) && i != j
    ensures Combos(k)[i] != Combos(k)[j]
  {
    ComboValue(k, i);
    ComboValue(k, j);
  }

  /** A bit string is all ones exactly when it spells the largest value of its length. */
  lemma {:induction false} AllOnesIsLargest(b: seq<Bit>)
    ensures AllOnes(b) <==> FromBits(b) == Pow2(|b|) - 1
  {
    if |b| > 0 {
      AllOnesIsLargest(b[1..]);
      assert AllOnes(b) <==> b[0] == 1 && AllOnes(b[1..]) by {
        if b[0] == 1 && AllOnes(b[1..]) {
          forall j | 0 <= j < |b| ensures b[j] == 1 {
            if j > 0 { assert b[j] == b[1..][j - 1]; }
          }
        }
      }
    }
  }

  /** Only the last combination is all ones. */
  lemma AllOnesIsLast(k: nat, idx: int)
    requires 0 <= idx < Pow2(k)
    ensures AllOnes(Combos(k)[idx]) <==> idx == Pow2(k) - 1
  {
    ComboValue(k, idx);
    AllOnesIsLargest(Combos(k)[idx]);
  }

  // Kronecker products

  /** The factor list of the Kronecker product built by prepending the column factors in column order. */
  function KronOrder(cols: seq<Factor>): seq<Factor> {
    if |cols| == 0 then [] else [cols[|cols| - 1]] + KronOrder(cols[..|cols| - 1])
  }

  lemma KronStep(cols: seq<Factor>, q: int)
    requires 0 <= q < |cols|
    ensures KronOrder(cols[..q + 1]) == [cols[q]] + KronOrder(cols[..q])
  {
    assert cols[..q + 1][..q] == cols[..q];
  }

  /** The product has one factor per column, and column q's factor is at index n-1-q. */
  lemma {:induction false} KronOrderIndex(cols: seq<Factor>)
    ensures |KronOrder(cols)| == |cols|
    ensures forall k :: 0 <= k < |cols| ==> KronOrder(cols)[k] == cols[|cols| - 1 - k]
  {
    if |cols| > 0 {
      var init := cols[..|cols| - 1];
      KronOrderIndex(init);
      forall k | 0 <= k < |cols|
        ensures KronOrder(cols)[k] == cols[|cols| - 1 - k]
      {
        if k > 0 {
          assert KronOrder(cols)[k] == KronOrder(init)[k - 1];
        }
      }
    }
  }

  /**
   * Column q's factor in the controlled term of combination `combo`: the
   * j-th control column (j controls to its left) gets the projector chosen
   * by bit j, every other non-identity cell gets its gate's matrix in the
   * all-ones term and the identity in the others, identity cells the
   * identity.
   */
  function ControlFactor(row: seq<Cell>, combo: seq<Bit>, q: int): Factor
    requires 0 <= q < |row| && |combo| == CountTag(row, C)
  {
    var cell := row[q];
    if cell.tag == C then
      ControlNumberInRange(row, C, q);
      if combo[CountTag(row[..q], C)] == 0 then Proj0 else Proj1
    else if cell.tag != I && AllOnes(combo) then GateMatrix(cell.tag, cell.angles)
    else Id
  }

  function ControlledColumns(row: seq<Cell>, combo: seq<Bit>): seq<Factor>
    requires |combo| == CountTag(row, C)
  {
    seq(|row|, q requires 0 <= q < |row| => ControlFactor(row, combo, q))
  }

  /**
   * Whether the matrix lookup of a control row raises on this cell: a cell
   * other than a control or the identity is looked up with its own angle
   * list, which fails to unpack when it is empty (a bare connection cell),
   * and a type without a matrix (SWAP, M, B, O) leaves nothing for the
   * Kronecker product.
   */
  predicate LookupFails(cell: Cell) {
    cell.tag != C && cell.tag != I && (cell.angles.NoAngles? || GateMatrix(cell.tag, cell.angles).NoMatrix?)
  }

  /** Some cell of the row makes the controlled branch raise. */
  predicate ControlRowFails(row: seq<Cell>) {
    exists q :: 0 <= q < |row| && LookupFails(row[q])
  }

  /** The terms of a controlled row, one per control-bit combination, in combination order. */
  function ControlledTerms(row: seq<Cell>): seq<seq<Factor>> {
    var cs := Combos(CountTag(row, C));
    seq(|cs|, i requires 0 <= i < |cs| => KronOrder(ControlledColumns(row, cs[i])))
  }

  /** Column factors of one of the three Pauli products of a SWAP row: the Pauli on SWAP cells, the identity elsewhere. */
  function SwapColumns(row: seq<Cell>, pauli: Tag): seq<Factor> {
    seq(|row|, q requires 0 <= q < |row| => if row[q].tag == Swap then GateMatrix(pauli, NoAngles) else Id)
  }

  /** Column factors of a measurement projector: the projector on M cells, the identity elsewhere. */
  function MeasureColumns(row: seq<Cell>, projector: Factor): seq<Factor> {
    seq(|row|, q requires 0 <= q < |row| => if row[q].tag == M then projector else Id)
  }

  /** Column factors of a plain row: each cell's gate matrix. */
  function TensorColumns(row: seq<Cell>): seq<Factor> {
    seq(|row|, q requires 0 <= q < |row| => GateMatrix(row[q].tag, row[q].angles))
  }

  /**
   * A row operator: the sum of the controlled terms, the SWAP operator
   * (identity + X product + Y product + Z product) / 2, or a plain product.
   */
  datatype Operator =
    | ControlledSum(terms: seq<seq<Factor>>)
    | PauliSum(xs: seq<Factor>, ys: seq<Factor>, zs: seq<Factor>)
    | Product(factors: seq<Factor>)

  /**
   * What a row does to a shot: nothing (barrier), apply an operator, build
   * an operator and drop it (the row also holds a measurement), measure
   * with the two projectors into the classical bit of column `qubit`, or
   * raise an error while building a controlled operator.
   */
  datatype RowAction =
    | Skip
    | Fails
    | Apply(op: Operator)
    | Discarded(op: Operator)
    | Measurement(zero: seq<Factor>, one: seq<Factor>, qubit: nat)

  /** An operator is applied unless the row holds a measurement cell. */
  function Guarded(row: seq<Cell>, op: Operator): RowAction {
    if HasTag(row, M) then Discarded(op) else Apply(op)
  }

  /**
   * The action of a grid row, by the dispatch order: a barrier in column 0
   * skips the row; then a control cell, a SWAP cell and a measurement cell
   * select their branch, in that order; otherwise the row is a product. A
   * control row raises when one of its cells has no matrix, which is so
   * whenever it also holds a SWAP or a measurement; a SWAP row that also
   * holds a measurement builds its operator and drops it.
   */
  function Classify(row: seq<Cell>): (a: RowAction)
    requires |row| > 0
    ensures a.Skip? <==> row[0].tag == B
    ensures a.Fails? <==> row[0].tag != B && HasTag(row, C) && ControlRowFails(row)
    ensures row[0].tag != B && HasTag(row, C) && (HasTag(row, Swap) || HasTag(row, M)) ==> a.Fails?
    ensures a.Apply? <==> row[0].tag != B && !HasTag(row, M) && !(HasTag(row, C) && ControlRowFails(row))
    ensures a.Discarded? <==> row[0].tag != B && HasTag(row, M) && !HasTag(row, C) && HasTag(row, Swap)
    ensures a.Measurement? <==> row[0].tag != B && HasTag(row, M) && !HasTag(row, C) && !HasTag(row, Swap)
    ensures (a.Apply? || a.Discarded?) ==>
      (a.op.ControlledSum? <==> HasTag(row, C)) && (a.op.PauliSum? <==> !HasTag(row, C) && HasTag(row, Swap))
    ensures a.Apply? && a.op.ControlledSum? ==> forall q :: 0 <= q < |row| ==> !LookupFails(row[q])
    ensures a.Measurement? ==> a.qubit < |row| && row[a.qubit].tag == M && forall q :: a.qubit < q < |row| ==> row[q].tag != M
  {
    if row[0].tag == B then Skip
    else if HasTag(row, C) then
      NoMatrixFails(row, Swap);
      NoMatrixFails(row, M);
      if ControlRowFails(row) then Fails else Guarded(row, ControlledSum(ControlledTerms(row)))
    else if HasTag(row, Swap) then
      Guarded(row, PauliSum(KronOrder(SwapColumns(row, X)), KronOrder(SwapColumns(row, Y)), KronOrder(SwapColumns(row, Z))))
    else if HasTag(row, M) then
      Measurement(KronOrder(MeasureColumns(row, Proj0)), KronOrder(MeasureColumns(row, Proj1)), LastColumn(row, M).value)
    else Apply(Product(KronOrder(TensorColumns(row))))
  }

  /** A SWAP or measurement cell has no matrix, so a row holding one makes the controlled branch raise. */
  lemma NoMatrixFails(row: seq<Cell>, t: Tag)
    requires t == Swap || t == M
    ensures HasTag(row, t) ==> ControlRowFails(row)
  {
    if HasTag(row, t) {
      var q :| 0 <= q < |row| && row[q].tag == t;
      assert LookupFails(row[q]);
    }
  }

  /**
   * The controlled branch yields 2^k terms of n factors. In term idx the
   * column of the j-th control holds a projector, every other non-identity
   * cell its gate's matrix if idx is the last (all-ones) term and the
   * identity otherwise, and identity cells the identity.
   */
  lemma ControlledTermsShape(row: seq<Cell>, idx: int, q: int)
    requires 0 <= idx < Pow2(CountTag(row, C)) && 0 <= q < |row|
    ensures |ControlledTerms(row)| == Pow2(CountTag(row, C))
    ensures |ControlledTerms(row)[idx]| == |row|
    ensures var f := ControlledTerms(row)[idx][|row| - 1 - q];
      && (row[q].tag == C ==> f == Proj0 || f == Proj1)
      && (row[q].tag != C && row[q].tag != I ==>
            f == if idx == Pow2(CountTag(row, C)) - 1 then GateMatrix(row[q].tag, row[q].angles) else Id)
      && (row[q].tag == I ==> f == Id)
  {
    var k := CountTag(row, C);
    var combo := Combos(k)[idx];
    var cols := ControlledColumns(row, combo);
    assert ControlledTerms(row)[idx] == KronOrder(cols);
    KronOrderIndex(cols);
    assert KronOrder(cols)[|row| - 1 - q] == cols[q] == ControlFactor(row, combo, q);
    AllOnesIsLast(k, idx);
  }

  /**
   * In a control row the lookup serves, every factor of every term is the
   * identity, a projector or a gate's matrix, never a missing matrix.
   */
  lemma ControlledTermsServed(row: seq<Cell>, idx: int, q: int)
    requires 0 <= idx < Pow2(CountTag(row, C)) && 0 <= q < |row| && !ControlRowFails(row)
    ensures |ControlledTerms(row)| == Pow2(CountTag(row, C)) && |ControlledTerms(row)[idx]| == |row|
    ensures !ControlledTerms(row)[idx][|row| - 1 - q].NoMatrix?
  {
    ControlledTermsShape(row, idx, q);
    assert !LookupFails(row[q]);
  }

  /**
   * For every assignment b of the k control bits, exactly one term carries
   * it: term FromBits(b) puts projector P(b[j]) on the j-th control column.
   */
  lemma ControlBitsSelectProjectors(row: seq<Cell>, b: seq<Bit>, q: int)
    requires |b| == CountTag(row, C) && 0 <= q < |row| && row[q].tag == C
    ensures CountTag(row[..q], C) < |b|
    ensures FromBits(b) < |ControlledTerms(row)| && |ControlledTerms(row)[FromBits(b)]| == |row|
    ensures ControlledTerms(row)[FromBits(b)][|row| - 1 - q] == if b[CountTag(row[..q], C)] == 0 then Proj0 else Proj1
  {
    ControlNumberInRange(row, C, q);
    ComboOf(b);
    var cols := ControlledColumns(row, b);
    assert ControlledTerms(row)[FromBits(b)] == KronOrder(cols);
    KronOrderIndex(cols);
    assert KronOrder(cols)[|row| - 1 - q] == cols[q] == ControlFactor(row, b, q);
  }

  /**
   * Build the controlled terms as the simulator does: start every term
   * empty and, column by column, prepend each term's factor for that
   * column, numbering the control columns as they are met. The lookup of a
   * cell it cannot serve raises (None).
   */
  method BuildControlled(row: seq<Cell>) returns (built: Option<seq<seq<Factor>>>)
    ensures built.None? <==> ControlRowFails(row)
    ensures built.Some? ==> built.value == ControlledTerms(row)
  {
    var numControls := CountTag(row, C);
    var numOutcomes := Pow2(numControls);
    var outcomeCombos := Combos(numControls);
    var terms := seq(numOutcomes, _ => []);
    var controlNum := 0;
    for qIdx := 0 to |row|
      invariant controlNum == CountTag(row[..qIdx], C)
      invariant forall q :: 0 <= q < qIdx ==> !LookupFails(row[q])
      invariant |terms| == numOutcomes
      invariant forall i :: 0 <= i < numOutcomes ==> terms[i] == KronOrder(ControlledColumns(row, outcomeCombos[i])[..qIdx])
    {
      var cell := row[qIdx];
      CountPrefix(row, C, qIdx);
      if cell.tag == C {
        ControlNumberInRange(row, C, qIdx);
      } else if LookupFails(cell) {
        return None;
      }
      for idx := 0 to numOutcomes
        invariant |terms| == numOutcomes
        invariant forall i :: 0 <= i < idx ==> terms[i] == KronOrder(ControlledColumns(row, outcomeCombos[i])[..qIdx + 1])
        invariant forall i :: idx <= i < numOutcomes ==> terms[i] == KronOrder(ControlledColumns(row, outcomeCombos[i])[..qIdx])
      {
        var combo := outcomeCombos[idx];
        var factor: Factor;
        if cell.tag == C {
          factor := if combo[controlNum] == 0 then Proj0 else Proj1;
        } else if cell.tag != I {
          factor := if AllOnes(combo) then GateMatrix(cell.tag, cell.angles) else Id;
        } else {
          factor := Id;
        }
        KronStep(ControlledColumns(row, combo), qIdx);
        terms := terms[idx := [factor] + terms[idx]];
      }
      if cell.tag == C {
        controlNum := controlNum + 1;
      }
    }
    forall i | 0 <= i < numOutcomes
      ensures terms[i] == ControlledTerms(row)[i]
    {
      assert ControlledColumns(row, outcomeCombos[i])[..|row|] == ControlledColumns(row, outcomeCombos[i]);
    }
    built := Some(terms);
  }

  /**
   * Build the three Pauli products of a SWAP row: X, Y and Z on the SWAP
   * cells, the identity on every other cell.
   */
  method BuildSwap(row: seq<Cell>) returns (xs: seq<Factor>, ys: seq<Factor>, zs: seq<Factor>)
    ensures xs == KronOrder(SwapColumns(row, X))
    ensures ys == KronOrder(SwapColumns(row, Y))
    ensures zs == KronOrder(SwapColumns(row, Z))
  {
    xs, ys, zs := [], [], [];
    for qIdx := 0 to |row|
      invariant xs == KronOrder(SwapColumns(row, X)[..qIdx])
      invariant ys == KronOrder(SwapColumns(row, Y)[..qIdx])
      invariant zs == KronOrder(SwapColumns(row, Z)[..qIdx])
    {
      KronStep(SwapColumns(row, X), qIdx);
      KronStep(SwapColumns(row, Y), qIdx);
      KronStep(SwapColumns(row, Z), qIdx);
      if row[qIdx].tag == Swap {
        xs, ys, zs := [GateMatrix(X, NoAngles)] + xs, [GateMatrix(Y, NoAngles)] + ys, [GateMatrix(Z, NoAngles)] + zs;
      } else {
        xs, ys, zs := [Id] + xs, [Id] + ys, [Id] + zs;
      }
    }
    assert SwapColumns(row, X)[..|row|] == SwapColumns(row, X);
    assert SwapColumns(row, Y)[..|row|] == SwapColumns(row, Y);
    assert SwapColumns(row, Z)[..|row|] == SwapColumns(row, Z);
  }

  /**
   * A Pauli product of a SWAP row has one factor per column, in reverse
   * column order: the Pauli matrix for a SWAP cell, the identity otherwise.
   */
  lemma SwapFactors(row: seq<Cell>, pauli: Tag)
    requires pauli in {X, Y, Z}
    ensures |KronOrder(SwapColumns(row, pauli))| == |row|
    ensures forall q :: 0 <= q < |row| ==>
      KronOrder(SwapColumns(row, pauli))[|row| - 1 - q] == if row[q].tag == Swap then Gate(pauli, NoAngles) else Id
  {
    KronOrderIndex(SwapColumns(row, pauli));
  }

  /**
   * Build the two projectors of a measurement row (P0, respectively P1, on
   * the M cells, the identity elsewhere) and find the measured column: the
   * last M cell, or 0 when there is none.
   */
  method BuildMeasure(row: seq<Cell>) returns (zero: seq<Factor>, one: seq<Factor>, measured: nat)
    ensures zero == KronOrder(MeasureColumns(row, Proj0)) && one == KronOrder(MeasureColumns(row, Proj1))
    ensures HasTag(row, M) ==> measured < |row| && row[measured].tag == M && forall q :: measured < q < |row| ==> row[q].tag != M
    ensures !HasTag(row, M) ==> measured == 0
  {
    zero, one, measured := [], [], 0;
    for qIdx := 0 to |row|
      invariant zero == KronOrder(MeasureColumns(row, Proj0)[..qIdx])
      invariant one == KronOrder(MeasureColumns(row, Proj1)[..qIdx])
      invariant LastColumn(row[..qIdx], M).Some? ==> measured == LastColumn(row[..qIdx], M).value
      invariant LastColumn(row[..qIdx], M).None? ==> measured == 0
    {
      KronStep(MeasureColumns(row, Proj0), qIdx);
      KronStep(MeasureColumns(row, Proj1), qIdx);
      assert row[..qIdx + 1][..qIdx] == row[..qIdx];
      if row[qIdx].tag == M {
        zero, one, measured := [Proj0] + zero, [Proj1] + one, qIdx;
      } else {
        zero, one := [Id] + zero, [Id] + one;
      }
    }
    assert row[..|row|] == row;
    assert MeasureColumns(row, Proj0)[..|row|] == MeasureColumns(row, Proj0);
    assert MeasureColumns(row, Proj1)[..|row|] == MeasureColumns(row, Proj1);
  }

  /**
   * A measurement projector has one factor per column, in reverse column
   * order: the projector for an M cell, the identity otherwise.
   */
  lemma MeasureFactors(row: seq<Cell>, projector: Factor)
    ensures |KronOrder(MeasureColumns(row, projector))| == |row|
    ensures forall q :: 0 <= q < |row| ==>
      KronOrder(MeasureColumns(row, projector))[|row| - 1 - q] == if row[q].tag == M then projector else Id
  {
    KronOrderIndex(MeasureColumns(row, projector));
  }

  /** Build the product of a plain row: each cell's gate matrix, in Kronecker order. */
  method BuildTensor(row: seq<Cell>) returns (factors: seq<Factor>)
    ensures factors == KronOrder(TensorColumns(row))
  {
    factors := [];
    for qIdx := 0 to |row|
      invariant factors == KronOrder(TensorColumns(row)[..qIdx])
    {
      KronStep(TensorColumns(row), qIdx);
      factors := [GateMatrix(row[qIdx].tag, row[qIdx].angles)] + factors;
    }
    assert TensorColumns(row)[..|row|] == TensorColumns(row);
  }

  /** The product of a plain row has one factor per column, each cell's gate matrix, in reverse column order. */
  lemma TensorFactors(row: seq<Cell>)
    ensures |KronOrder(TensorColumns(row))| == |row|
    ensures forall q :: 0 <= q < |row| ==> KronOrder(TensorColumns(row))[|row| - 1 - q] == GateMatrix(row[q].tag, row[q].angles)
  {
    KronOrderIndex(TensorColumns(row));
  }

  /** Dispatch one grid row and build what its branch builds. */
  method Synthesize(row: seq<Cell>) returns (action: RowAction)
    requires |row| > 0
    ensures action == Classify(row)
  {
    if row[0].tag == B {
      return Skip;
    }
    var op: Operator;
    if HasTag(row, C) {
      var built := BuildControlled(row);
      if built.None? {
        return Fails;
      }
      op := ControlledSum(built.value);
    } else if HasTag(row, Swap) {
      var xs, ys, zs := BuildSwap(row);
      op := PauliSum(xs, ys, zs);
    } else if HasTag(row, M) {
      var zero, one, measured := BuildMeasure(row);
      return Measurement(zero, one, measured);
    } else {
      var factors := BuildTensor(row);
      op := Product(factors);
    }
    action := if HasTag(row, M) then Discarded(op) else Apply(op);
  }
}
