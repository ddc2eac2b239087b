/**
 * Shot execution. The amplitude vector is kept symbolically: the initial
 * vector, an operator applied to a prior state, or a prior state projected
 * by a measurement and renormalised. The random draw of a measurement
 * ("a uniform number below the probability of outcome 0") is an input: a
 * predicate telling, for each shot and row, whether outcome 0 is drawn.
 */
module Execution {
  import opened Gates
  import opened Operators

  datatype StateExpr =
    | Vector(amplitudes: seq<int>)
    | Evolved(op: Operator, prior: StateExpr)
    | Collapsed(projector: seq<Factor>, prior: StateExpr)

  /** The state of a shot in progress: the amplitude expression and the classical bits. */
  datatype Shot = Shot(state: StateExpr, bits: seq<Bit>)

  /**
   * The state vector of n qubits in |0...0>: starting from [1], each qubit
   * multiplies in [1, 0], which keeps the old vector and appends as many
   * zeros.
   */
  method InitialState(n: nat) returns (v: seq<int>)
    ensures |v| == Pow2(n)
    ensures v[0] == 1
    ensures forall j :: 0 < j < |v| ==> v[j] == 0
  {
    v := [1];
    for i := 0 to n
      invariant |v| == Pow2(i)
      invariant v[0] == 1
      invariant forall j :: 0 < j < |v| ==> v[j] == 0
    {
      v := v + seq(|v|, _ => 0);
    }
  }

  /** Every measurement of a row list names a classical bit that exists. */
  predicate ActionsFit(actions: seq<RowAction>, numBits: nat) {
    forall r :: 0 <= r < |actions| && actions[r].Measurement? ==> actions[r].qubit < numBits
  }

  /** None of the first k rows raises. */
  predicate Completes(actions: seq<RowAction>, k: nat) {
    forall r :: 0 <= r < k && r < |actions| ==> !actions[r].Fails?
  }

  /** The first row at or after row k that raises, if any. */
  function FailureFrom(actions: seq<RowAction>, k: nat): (f: Option<nat>)
    requires k <= |actions|
    ensures f.Some? ==> k <= f.value < |actions| && actions[f.value].Fails?
    ensures f.Some? ==> forall r :: k <= r < f.value ==> !actions[r].Fails?
    ensures f.None? ==> forall r :: k <= r < |actions| ==> !actions[r].Fails?
    decreases |actions| - k
  {
    if k == |actions| then None
    else if actions[k].Fails? then Some(k)
    else FailureFrom(actions, k + 1)
  }

  /**
   * One row of a shot that does not raise: barrier rows and dropped
   * operators leave the shot alone, an operator evolves the state, a
   * measurement collapses it with the drawn projector and writes the
   * outcome into its classical bit.
   */
  function Step(a: RowAction, row: nat, sh: Shot, zero: nat -> bool): (next: Shot)
    requires !a.Fails?
    requires a.Measurement? ==> a.qubit < |sh.bits|
    ensures |next.bits| == |sh.bits|
    ensures !a.Measurement? ==> next.bits == sh.bits
    ensures a.Measurement? ==> next.bits == sh.bits[a.qubit := if zero(row) then 0 else 1]
  {
    match a
    case Skip => sh
    case Discarded(_) => sh
    case Apply(op) => sh.(state := Evolved(op, sh.state))
    case Measurement(p0, p1, q) =>
      if zero(row) then Shot(Collapsed(p0, sh.state), sh.bits[q := 0])
      else Shot(Collapsed(p1, sh.state), sh.bits[q := 1])
  }

  /** The shot after its first k rows. */
  function RunRows(actions: seq<RowAction>, k: nat, start: Shot, zero: nat -> bool): (sh: Shot)
    requires k <= |actions| && ActionsFit(actions, |start.bits|) && Completes(actions, k)
    ensures |sh.bits| == |start.bits|
  {
    if k == 0 then start
    else Step(actions[k - 1], k - 1, RunRows(actions, k - 1, start, zero), zero)
  }

  /** The last of the first k rows that measures into classical bit i. */
  function LastMeasurement(actions: seq<RowAction>, k: nat, i: nat): (r: Option<nat>)
    requires k <= |actions|
    ensures r.Some? ==> r.value < k && actions[r.value].Measurement? && actions[r.value].qubit == i
    ensures r.Some? ==> forall s :: r.value < s < k ==> !(actions[s].Measurement? && actions[s].qubit == i)
    ensures r.None? ==> forall s :: 0 <= s < k ==> !(actions[s].Measurement? && actions[s].qubit == i)
  {
    if k == 0 then None
    else if actions[k - 1].Measurement? && actions[k - 1].qubit == i then Some(k - 1)
    else LastMeasurement(actions, k - 1, i)
  }

  /**
   * The amplitude part of a shot does not depend on the classical bits it
   * starts with: bits are written by measurements, never read.
   */
  lemma {:induction false} StateIgnoresBits(actions: seq<RowAction>, k: nat, st: StateExpr, b1: seq<Bit>, b2: seq<Bit>, zero: nat -> bool)
    requires k <= |actions| && |b1| == |b2| && ActionsFit(actions, |b1|) && Completes(actions, k)
    ensures RunRows(actions, k, Shot(st, b1), zero).state == RunRows(actions, k, Shot(st, b2), zero).state
  {
    if k > 0 {
      StateIgnoresBits(actions, k - 1, st, b1, b2, zero);
    }
  }

  /**
   * After the rows, classical bit i holds the outcome of the last row that
   * measured into it, and the value it started with when no row did.
   */
  lemma {:induction false} BitsAfterRows(actions: seq<RowAction>, k: nat, start: Shot, zero: nat -> bool, i: nat)
    requires k <= |actions| && ActionsFit(actions, |start.bits|) && Completes(actions, k) && i < |start.bits|
    ensures RunRows(actions, k, start, zero).bits[i] ==
      match LastMeasurement(actions, k, i)
      case None => start.bits[i]
      case Some(r) => if zero(r) then 0 else 1
  {
    if k > 0 {
      BitsAfterRows(actions, k - 1, start, zero, i);
    }
  }

  /** The digit character of a bit. */
  function Digit(b: Bit): char {
    if b == 0 then '0' else '1'
  }

  /** The bits written highest index first. */
  function Digits(bits: seq<Bit>): (s: string)
    ensures |s| == |bits|
    ensures forall i :: 0 <= i < |bits| ==> s[|bits| - 1 - i] == Digit(bits[i])
  {
    if |bits| == 0 then ""
    else
      var rest := Digits(bits[..|bits| - 1]);
      assert forall i :: 0 <= i < |bits| - 1 ==> bits[..|bits| - 1][i] == bits[i];
      [Digit(bits[|bits| - 1])] + rest
  }

  /**
   * The result string of a shot: the classical bits written highest index
   * first between '|' and '>', so bit i is character n - i.
   */
  function FormatResult(bits: seq<Bit>): (s: string)
    ensures |s| == |bits| + 2
    ensures s[0] == '|' && s[|bits| + 1] == '>'
    ensures forall i :: 0 <= i < |bits| ==> s[|bits| - i] == Digit(bits[i])
  {
    "|" + Digits(bits) + ">"
  }

  /** Read back the bits of a digit string, highest index first. */
  function ParseDigits(s: string): Option<seq<Bit>> {
    if |s| == 0 then Some([])
    else if s[0] != '0' && s[0] != '1' then None
    else match ParseDigits(s[1..])
      case None => None
      case Some(rest) => Some(rest + [if s[0] == '0' then 0 else 1])
  }

  /** Read back the bits of a result string; None when it is not one. */
  function ParseResult(s: string): Option<seq<Bit>> {
    if |s| < 2 || s[0] != '|' || s[|s| - 1] != '>' then None
    else ParseDigits(s[1..|s| - 1])
  }

  lemma {:induction false} DigitsRoundTrip(bits: seq<Bit>)
    ensures ParseDigits(Digits(bits)) == Some(bits)
  {
    if |bits| > 0 {
      var init := bits[..|bits| - 1];
      DigitsRoundTrip(init);
      assert Digits(bits)[1..] == Digits(init);
      assert init + [bits[|bits| - 1]] == bits;
    }
  }

  lemma {:induction false} ParsedDigits(s: string, bits: seq<Bit>)
    requires ParseDigits(s) == Some(bits)
    ensures Digits(bits) == s
  {
    if |s| > 0 {
      var parsed := ParseDigits(s[1..]);
      assert parsed.Some?;
      var rest := parsed.value;
      assert bits == rest + [if s[0] == '0' then 0 else 1];
      ParsedDigits(s[1..], rest);
      assert bits[..|bits| - 1] == rest;
      assert s == [s[0]] + s[1..];
    }
  }

  /** A result string reads back as the bits it was made from. */
  lemma ResultRoundTrip(bits: seq<Bit>)
    ensures ParseResult(FormatResult(bits)) == Some(bits)
  {
    var s := FormatResult(bits);
    assert s[1..|s| - 1] == Digits(bits);
    DigitsRoundTrip(bits);
  }

  /** Every string that reads back as bits is the result string of those bits. */
  lemma ParsedResult(s: string, bits: seq<Bit>)
    requires ParseResult(s) == Some(bits)
    ensures FormatResult(bits) == s
  {
    assert |s| >= 2 && s[0] == '|' && s[|s| - 1] == '>';
    ParsedDigits(s[1..|s| - 1], bits);
    Bracketed(s);
  }

  /** A string of at least two characters between '|' and '>' is its middle in those brackets. */
  lemma Bracketed(s: string)
    requires |s| >= 2 && s[0] == '|' && s[|s| - 1] == '>'
    ensures s == "|" + s[1..|s| - 1] + ">"
  {
    var t := "|" + s[1..|s| - 1] + ">";
    forall k | 0 <= k < |s|
      ensures t[k] == s[k]
    {
      if 0 < k < |s| - 1 {
        assert t[k] == s[1..|s| - 1][k - 1];
      }
    }
  }

  /** The draws of shot s. */
  function Draws(zero: (nat, nat) -> bool, s: nat): nat -> bool {
    (r: nat) => zero(s, r)
  }

  /** The results of the shots so far and the shot that ran last. */
  datatype Outcome = Outcome(results: seq<string>, last: Shot)

  /**
   * Run `shots` shots of rows none of which raises: each starts from the
   * original state `origin` and from the classical bits as the previous
   * shot left them (they are not reset), and records its result string.
   */
  function RunShots(actions: seq<RowAction>, origin: StateExpr, bits: seq<Bit>, shots: nat, zero: (nat, nat) -> bool): (o: Outcome)
    requires ActionsFit(actions, |bits|) && Completes(actions, |actions|)
    ensures |o.results| == shots && |o.last.bits| == |bits|
    ensures forall s :: 0 <= s < shots ==> |o.results[s]| == |bits| + 2
  {
    if shots == 0 then Outcome([], Shot(origin, bits))
    else
      var before := RunShots(actions, origin, bits, shots - 1, zero);
      var sh := RunRows(actions, |actions|, Shot(origin, before.last.bits), Draws(zero, shots - 1));
      Outcome(before.results + [FormatResult(sh.bits)], sh)
  }

  /**
   * Every shot restarts from the original state: the state a run leaves is
   * the last shot's rows applied to `origin`, whatever the earlier shots
   * drew.
   */
  lemma LastShotFromOrigin(actions: seq<RowAction>, origin: StateExpr, bits: seq<Bit>, shots: nat, zero: (nat, nat) -> bool)
    requires ActionsFit(actions, |bits|) && Completes(actions, |actions|) && shots > 0
    ensures RunShots(actions, origin, bits, shots, zero).last.state ==
      RunRows(actions, |actions|, Shot(origin, bits), Draws(zero, shots - 1)).state
  {
    var before := RunShots(actions, origin, bits, shots - 1, zero);
    StateIgnoresBits(actions, |actions|, origin, before.last.bits, bits, Draws(zero, shots - 1));
  }

  /**
   * Result s shows, for classical bit i, the outcome of the last row of
   * shot s that measured into it; a bit no row measures keeps the value it
   * had before the run.
   */
  lemma {:induction false} ResultBits(actions: seq<RowAction>, origin: StateExpr, bits: seq<Bit>, shots: nat, zero: (nat, nat) -> bool, s: nat, i: nat)
    requires ActionsFit(actions, |bits|) && Completes(actions, |actions|) && s < shots && i < |bits|
    ensures |RunShots(actions, origin, bits, shots, zero).results[s]| == |bits| + 2
    ensures RunShots(actions, origin, bits, shots, zero).results[s][|bits| - i] ==
      match LastMeasurement(actions, |actions|, i)
      case None => Digit(bits[i])
      case Some(r) => Digit(if zero(s, r) then 0 else 1)
  {
    var o := RunShots(actions, origin, bits, shots, zero);
    var before := RunShots(actions, origin, bits, shots - 1, zero);
    if s < shots - 1 {
      ResultBits(actions, origin, bits, shots - 1, zero, s, i);
      assert o.results[s] == before.results[s];
    } else {
      var start := Shot(origin, before.last.bits);
      var z := Draws(zero, shots - 1);
      BitsAfterRows(actions, |actions|, start, z, i);
      if LastMeasurement(actions, |actions|, i).None? && shots > 1 {
        UnmeasuredBitKept(actions, origin, bits, shots - 1, zero, i);
      }
    }
  }

  /** A classical bit that no row measures keeps its value across every shot. */
  lemma {:induction false} UnmeasuredBitKept(actions: seq<RowAction>, origin: StateExpr, bits: seq<Bit>, shots: nat, zero: (nat, nat) -> bool, i: nat)
    requires ActionsFit(actions, |bits|) && Completes(actions, |actions|) && i < |bits| && LastMeasurement(actions, |actions|, i).None?
    ensures RunShots(actions, origin, bits, shots, zero).last.bits[i] == bits[i]
  {
    if shots > 0 {
      UnmeasuredBitKept(actions, origin, bits, shots - 1, zero, i);
      var before := RunShots(actions, origin, bits, shots - 1, zero);
      BitsAfterRows(actions, |actions|, Shot(origin, before.last.bits), Draws(zero, shots - 1), i);
    }
  }

  /**
   * How a run ends: every shot finished and recorded its result, or the
   * first shot raised at a row; `last` is the shot as the run left it.
   */
  datatype RunEnd = Finished(results: seq<string>, last: Shot) | Raised(row: nat, last: Shot)

  /**
   * A run of `shots` shots. A row that raises does so in every shot, so
   * the first shot stops at the first such row, with the rows before it
   * applied, and no result is returned; without such a row, or without
   * shots, the run finishes.
   */
  function RunCircuit(actions: seq<RowAction>, origin: StateExpr, bits: seq<Bit>, shots: nat, zero: (nat, nat) -> bool): (e: RunEnd)
    requires ActionsFit(actions, |bits|)
    ensures e.Raised? <==> shots > 0 && exists r :: 0 <= r < |actions| && actions[r].Fails?
    ensures e.Raised? ==> e.row < |actions| && actions[e.row].Fails? && Completes(actions, e.row)
    ensures e.Finished? ==> |e.results| == shots && |e.last.bits| == |bits|
  {
    if shots == 0 then Finished([], Shot(origin, bits))
    else match FailureFrom(actions, 0)
      case None =>
        var o := RunShots(actions, origin, bits, shots, zero);
        Finished(o.results, o.last)
      case Some(f) => Raised(f, RunRows(actions, f, Shot(origin, bits), Draws(zero, 0)))
  }

  /**
   * A run that raises leaves the state of the first shot's rows before the
   * raising one, and in each classical bit the outcome of the last of
   * those rows that measured into it, or its value before the run.
   */
  lemma RaisedBits(actions: seq<RowAction>, origin: StateExpr, bits: seq<Bit>, shots: nat, zero: (nat, nat) -> bool, i: nat)
    requires ActionsFit(actions, |bits|) && i < |bits|
    requires RunCircuit(actions, origin, bits, shots, zero).Raised?
    ensures var e := RunCircuit(actions, origin, bits, shots, zero);
      e.row <= |actions| && |e.last.bits| == |bits| &&
      e.last.bits[i] ==
        match LastMeasurement(actions, e.row, i)
        case None => bits[i]
        case Some(r) => if zero(0, r) then 0 else 1
  {
    var e := RunCircuit(actions, origin, bits, shots, zero);
    BitsAfterRows(actions, e.row, Shot(origin, bits), Draws(zero, 0), i);
  }
}
