/**
 * The tile's quantum-state model: the gate catalogue (`GateTypes`, the wire codes,
 * and `GateOperators`, the unitary matrices), one qubit held as Bloch-sphere
 * angles (`QuantumBitState`) and a register of qubits (`QuStates`).
 *
 * Numbers that need trigonometry or complex arithmetic are not computed here:
 * matrix entries are symbolic `Scalar` terms, and the conversions between angles
 * and basis amplitudes are the functions of a `Numerics` value.
 */
module QuStates {
  import opened Wrappers
  import opened MpyEnum
  import PseudoNumpy

  // ---------------------------------------------------------------------------
  // Scalars and matrices

  /**
   * A complex matrix entry: a Gaussian integer re + im*1j, an irrational
   * constant named by the expression the source evaluates, or a sum or product
   * the kernels formed.
   */
  datatype Scalar =
    | Gaussian(re: int, im: int)
    | Irrational(expr: string)
    | Sum(left: Scalar, right: Scalar)
    | Product(left: Scalar, right: Scalar)

  /** The zero `np.zeros` fills with, and the `+=` and `*` of the kernel loops. */
  const ScalarArith: PseudoNumpy.Arith<Scalar> :=
    PseudoNumpy.Arith(Gaussian(0, 0), (x: Scalar, y: Scalar) => Sum(x, y), (x: Scalar, y: Scalar) => Product(x, y))

  /** Integer arithmetic, for the matrices whose entries are all integers. */
  const IntArith: PseudoNumpy.Arith<int> := PseudoNumpy.Arith(0, (x: int, y: int) => x + y, (x: int, y: int) => x * y)

  /** A matrix as the nested list the source writes. */
  type Matrix = seq<seq<Scalar>>

  /** `np.array(m)` has a two-dimensional shape: at least one row, all rows equally long. */
  predicate Rectangular<S>(m: seq<seq<S>>) {
    |m| >= 1 && forall i :: 0 <= i < |m| ==> |m[i]| == |m[0]|
  }

  predicate IsSquare<S>(m: seq<seq<S>>, d: nat) {
    |m| == d && forall i :: 0 <= i < |m| ==> |m[i]| == d
  }

  /** `mat_vec_mul(m, v)` for a matrix with n columns: entry i is the sum of m[i][k] * v[k] for k < n. */
  function Apply<S>(ar: PseudoNumpy.Arith<S>, m: seq<seq<S>>, v: seq<S>, n: nat): (c: seq<S>)
    requires n <= |v| && forall i :: 0 <= i < |m| ==> n <= |m[i]|
    ensures |c| == |m| && forall i :: 0 <= i < |m| ==> c[i] == PseudoNumpy.Dot(ar, m[i], v, n)
  {
    seq(|m|, i requires 0 <= i < |m| => PseudoNumpy.Dot(ar, m[i], v, n))
  }

  /** An integer matrix as complex entries. */
  function IntMatrix(m: seq<seq<int>>): (r: Matrix)
    ensures |r| == |m| && forall i :: 0 <= i < |m| ==> |r[i]| == |m[i]|
  {
    seq(|m|, i requires 0 <= i < |m| => seq(|m[i]|, j requires 0 <= j < |m[i]| => Gaussian(m[i][j], 0)))
  }

  function Pow2(n: nat): (r: nat)
    ensures r >= 1
    ensures n >= 1 ==> 2 * n <= r
  {
    if n == 0 then 1 else 2 * Pow2(n - 1)
  }

  // ---------------------------------------------------------------------------
  // The gate catalogue

  /** The keyword arguments of `GateTypes = Enum(...)`: gate name and wire code. */
  const GateTypeKwargs: seq<(string, int)> := [
    ("UNDEFINED", 0x00), ("IDENTITY", 0x01), ("PAULI_X", 0x02), ("PAULI_Y", 0x03),
    ("PAULI_Z", 0x04), ("HADAMARD", 0x05), ("RX_PI_DIV2", 0x06), ("RY_PI_DIV2", 0x07),
    ("RZ_PI_DIV2", 0x08), ("RX_PI_DIV4", 0x09), ("RY_PI_DIV4", 0x0a), ("RZ_PI_DIV4", 0x0b),
    ("PHASE", 0x0e), ("TWIRL", 0x0f), ("CONTROLLED_NOT", 0x41), ("CONTROLLED_Z", 0x42),
    ("SWAP", 0x43), ("TOFFOLI", 0x81)
  ]

  /** The members of `GateTypes`, in declaration order. */
  const GateTypes: seq<EnumValue<int>> := MembersOf(GateTypeKwargs)

  const IdentityMatrix: seq<seq<int>> := [[1, 0], [0, 1]]
  const PauliXMatrix: seq<seq<int>> := [[0, 1], [1, 0]]
  const PauliZMatrix: seq<seq<int>> := [[1, 0], [0, -1]]
  const ControlledNotMatrix: seq<seq<int>> := [[1, 0, 0, 0], [0, 1, 0, 0], [0, 0, 0, 1], [0, 0, 1, 0]]
  const ControlledZMatrix: seq<seq<int>> := [[1, 0, 0, 0], [0, 1, 0, 0], [0, 0, 1, 0], [0, 0, 0, -1]]

  /** SWAP as the catalogue writes it, and as the table below holds it: the second and third rows are both [0, 1, 0, 0]. */
  const SwapAsWritten: seq<seq<int>> := [[1, 0, 0, 0], [0, 1, 0, 0], [0, 1, 0, 0], [0, 0, 0, 1]]

  /** SWAP as intended: exchanges |01> and |10>. */
  const SwapMatrix: seq<seq<int>> := [[1, 0, 0, 0], [0, 0, 1, 0], [0, 1, 0, 0], [0, 0, 0, 1]]

  const ToffoliMatrix: seq<seq<int>> := [
    [1, 0, 0, 0, 0, 0, 0, 0], [0, 1, 0, 0, 0, 0, 0, 0], [0, 0, 1, 0, 0, 0, 0, 0], [0, 0, 0, 1, 0, 0, 0, 0],
    [0, 0, 0, 0, 1, 0, 0, 0], [0, 0, 0, 0, 0, 1, 0, 0], [0, 0, 0, 0, 0, 0, 0, 1], [0, 0, 0, 0, 0, 0, 1, 0]
  ]

  /** A rotation about X: [[c, -1j*s], [-1j*s, c]] with c, s the cosine and sine of the half angle. */
  function RxMatrix(c: string, s: string): Matrix {
    [[Irrational(c), Irrational("-1j*" + s)], [Irrational("-1j*" + s), Irrational(c)]]
  }

  /** A rotation about Y: [[c, -s], [s, c]]. */
  function RyMatrix(c: string, s: string): Matrix {
    [[Irrational(c), Irrational("-" + s)], [Irrational(s), Irrational(c)]]
  }

  /** A rotation about Z: diag(exp(-1j*a), exp(1j*a)). */
  function RzMatrix(a: string): Matrix {
    [[Irrational("exp(-1j*" + a + ")"), Gaussian(0, 0)], [Gaussian(0, 0), Irrational("exp(1j*" + a + ")")]]
  }

  /** The keyword arguments of `GateOperators = Enum(...)`: gate name and unitary matrix. */
  const GateOperatorKwargs: seq<(string, Matrix)> := [
    ("IDENTITY", IntMatrix(IdentityMatrix)),
    ("PAULI_X", IntMatrix(PauliXMatrix)),
    ("PAULI_Y", [[Gaussian(0, 0), Gaussian(0, -1)], [Gaussian(0, 1), Gaussian(0, 0)]]),
    ("PAULI_Z", IntMatrix(PauliZMatrix)),
    ("HADAMARD", [[Irrational("1/sqrt(2)"), Irrational("1/sqrt(2)")],
                  [Irrational("1/sqrt(2)"), Irrational("-1/sqrt(2)")]]),
    ("RX_PI_DIV2", RxMatrix("cos(pi/4)", "sin(pi/4)")),
    ("RY_PI_DIV2", RyMatrix("cos(pi/4)", "sin(pi/4)")),
    ("RZ_PI_DIV2", RzMatrix("pi/4")),
    ("RX_PI_DIV4", RxMatrix("cos(pi/8)", "sin(pi/8)")),
    ("RY_PI_DIV4", RyMatrix("cos(pi/8)", "sin(pi/8)")),
    ("RZ_PI_DIV4", RzMatrix("pi/8")),
    ("PHASE", [[Gaussian(1, 0), Gaussian(0, 0)], [Gaussian(0, 0), Gaussian(0, 1)]]),
    ("TWIRL", [[Gaussian(1, 0), Gaussian(0, 0)], [Gaussian(0, 0), Irrational("exp(1j*pi/4)")]]),
    ("CONTROLLED_NOT", IntMatrix(ControlledNotMatrix)),
    ("CONTROLLED_Z", IntMatrix(ControlledZMatrix)),
    ("SWAP", IntMatrix(SwapAsWritten)),
    ("TOFFOLI", IntMatrix(ToffoliMatrix))
  ]

  /** The members of `GateOperators`, in declaration order. */
  const GateOperators: seq<EnumValue<Matrix>> := MembersOf(GateOperatorKwargs)

  /** The number of qubits a gate code stands for: its two high bits count the qubits beyond the first. */
  function Arity(code: int): int {
    code / 0x40 + 1
  }

  /** Gate names and wire codes are each pairwise distinct, and every code fits in one byte. */
  lemma GateTypeCodesDistinct()
    ensures DistinctMemberNames(GateTypes) && DistinctValues(GateTypes)
    ensures forall i :: 0 <= i < |GateTypes| ==> 0 <= GateTypes[i].value < 256
  {
    GateTypeNamesDistinct();
    GateTypeValuesDistinct();
  }

  lemma GateTypeValuesDistinct()
    ensures DistinctValues(GateTypes)
  {
    assert forall i :: 0 <= i < |GateTypes| - 1 ==> GateTypes[i].value < GateTypes[i + 1].value;
    IncreasingValuesDistinct(GateTypes);
  }

  /** Codes listed in increasing order are pairwise distinct. */
  lemma {:induction false} IncreasingValuesDistinct(members: seq<EnumValue<int>>)
    requires forall i :: 0 <= i < |members| - 1 ==> members[i].value < members[i + 1].value
    ensures forall i, j :: 0 <= i < j < |members| ==> members[i].value < members[j].value
  {
    if |members| > 1 {
      var rest := members[1..];
      IncreasingValuesDistinct(rest);
      forall i, j | 0 <= i < j < |members|
        ensures members[i].value < members[j].value
      {
        assert members[j] == rest[j - 1];
        if i > 0 {
          assert members[i] == rest[i - 1];
        } else if j > 1 {
          assert members[1] == rest[0];
        }
      }
    }
  }

  lemma GateTypeNamesDistinct()
    ensures DistinctMemberNames(GateTypes)
  {
  }

  /** So the code-to-name lookup `GateTypes.name(v)` is unambiguous, and inverts `GateTypes.value(n)`. */
  lemma GateTypeLookupInverts(n: string, v: int)
    ensures ValueOf(GateTypes, n) == Some(v) <==> NameOf(GateTypes, v) == Some(n)
  {
    GateTypeCodesDistinct();
    if ValueOf(GateTypes, n) == Some(v) {
      NameOfValueOf(GateTypes, n);
    }
    if NameOf(GateTypes, v) == Some(n) {
      ValueOfNameOf(GateTypes, v);
    }
  }

  /** Member i of `GateTypes`, looked up by its own name, gives back its code. */
  lemma GateTypeByName(i: nat)
    requires i < |GateTypes|
    ensures ValueOf(GateTypes, GateTypes[i].name) == Some(GateTypes[i].value)
  {
    GateTypeCodesDistinct();
  }

  /** Operator i is named after gate type i + 1: the operator table is the type table without UNDEFINED. */
  lemma OperatorNamesFollowTypes()
    ensures |GateOperators| + 1 == |GateTypes| && GateTypes[0].name == "UNDEFINED"
    ensures forall i :: 0 <= i < |GateOperators| ==> GateOperators[i].name == GateTypes[i + 1].name
  {
  }

  /** Every gate type but UNDEFINED has a same-named operator. */
  lemma OperatorForEveryType()
    ensures forall i :: 0 <= i < |GateTypes| ==>
              (ValueOf(GateOperators, GateTypes[i].name).Some? <==> GateTypes[i].name != "UNDEFINED")
  {
    OperatorNamesFollowTypes();
    assert forall i :: 0 <= i < |GateOperators| ==> GateOperators[i].name != "UNDEFINED";
    forall i | 1 <= i < |GateTypes|
      ensures ValueOf(GateOperators, GateTypes[i].name).Some?
    {
      assert GateOperators[i - 1].name == GateTypes[i].name;
    }
  }

  /**
   * Operator i is named after gate type i + 1, whose code its name looks up, and
   * is the square matrix of the size that code calls for: 2x2 below 0x40, 4x4
   * from 0x40, 8x8 from 0x80.
   */
  lemma OperatorShapes(i: nat)
    requires i < |GateOperators|
    ensures i + 1 < |GateTypes| && 0 <= GateTypes[i + 1].value < 256
    ensures ValueOf(GateTypes, GateOperators[i].name) == Some(GateTypes[i + 1].value)
    ensures IsSquare(GateOperators[i].value, Pow2(Arity(GateTypes[i + 1].value)))
  {
    OperatorNamesFollowTypes();
    OperatorSizes();
    GateTypeCodesDistinct();
    GateTypeByName(i + 1);
  }

  /** Operator i has the size the code of gate type i + 1, its namesake, calls for. */
  lemma OperatorSizes()
    ensures forall i :: 0 <= i < |GateOperators| ==> IsSquare(GateOperators[i].value, Pow2(Arity(GateTypes[i + 1].value)))
  {
    SingleQubitSizes();
    TwoQubitSizes();
    assert IsSquare(GateOperators[16].value, 8) && Arity(GateTypes[17].value) == 3;
  }

  lemma SingleQubitSizes()
    ensures forall i :: 0 <= i < 13 ==> IsSquare(GateOperators[i].value, 2) && Arity(GateTypes[i + 1].value) == 1
  {
  }

  lemma TwoQubitSizes()
    ensures forall i :: 13 <= i < 16 ==> IsSquare(GateOperators[i].value, 4) && Arity(GateTypes[i + 1].value) == 2
  {
  }

  /**
   * The catalogue's SWAP operator is the matrix as written, and it maps
   * |01> = [1, 0] (x) [0, 1] to [0, 1, 1, 0], which is not |10>, and not even a unit vector.
   */
  lemma SwapAsWrittenDoesNotSwap()
    ensures GateOperators[15].name == "SWAP" && GateOperators[15].value == IntMatrix(SwapAsWritten)
    ensures PseudoNumpy.KronVV(IntArith, [1, 0], [0, 1]) == [0, 1, 0, 0]
    ensures Apply(IntArith, SwapAsWritten, PseudoNumpy.KronVV(IntArith, [1, 0], [0, 1]), 4)
            == [0, 1, 1, 0]
    ensures PseudoNumpy.KronVV(IntArith, [0, 1], [1, 0]) == [0, 0, 1, 0]
  {
    KronVVOfPairs(IntArith, [1, 0], [0, 1]);
    KronVVOfPairs(IntArith, [0, 1], [1, 0]);
    var v := [0, 1, 0, 0];
    IntDot4(SwapAsWritten[0], v);
    IntDot4(SwapAsWritten[1], v);
    IntDot4(SwapAsWritten[2], v);
    IntDot4(SwapAsWritten[3], v);
  }

  /** The corrected SWAP exchanges the two factors of every two-qubit product state. */
  lemma SwapExchanges(a: seq<int>, b: seq<int>)
    requires |a| == 2 && |b| == 2
    ensures Apply(IntArith, SwapMatrix, PseudoNumpy.KronVV(IntArith, a, b), 4)
            == PseudoNumpy.KronVV(IntArith, b, a)
  {
    KronVVOfPairs(IntArith, a, b);
    KronVVOfPairs(IntArith, b, a);
    var v := PseudoNumpy.KronVV(IntArith, a, b);
    IntDot4(SwapMatrix[0], v);
    IntDot4(SwapMatrix[1], v);
    IntDot4(SwapMatrix[2], v);
    IntDot4(SwapMatrix[3], v);
  }

  /** A four-term integer dot product, written out. */
  lemma IntDot4(row: seq<int>, v: seq<int>)
    requires |row| >= 4 && |v| >= 4
    ensures PseudoNumpy.Dot(IntArith, row, v, 4) == row[0] * v[0] + row[1] * v[1] + row[2] * v[2] + row[3] * v[3]
  {
    assert PseudoNumpy.Dot(IntArith, row, v, 1) == row[0] * v[0];
    assert PseudoNumpy.Dot(IntArith, row, v, 2) == row[0] * v[0] + row[1] * v[1];
    assert PseudoNumpy.Dot(IntArith, row, v, 3) == row[0] * v[0] + row[1] * v[1] + row[2] * v[2];
  }

  /** The Kronecker product of two 2-vectors, written out. */
  lemma KronVVOfPairs<S>(ar: PseudoNumpy.Arith<S>, a: seq<S>, b: seq<S>)
    requires |a| == 2 && |b| == 2
    ensures PseudoNumpy.KronVV(ar, a, b) == [ar.mul(a[0], b[0]), ar.mul(a[0], b[1]), ar.mul(a[1], b[0]), ar.mul(a[1], b[1])]
  {
    PseudoNumpy.KronVVAt(ar, a, b, 0, 0);
    PseudoNumpy.KronVVAt(ar, a, b, 0, 1);
    PseudoNumpy.KronVVAt(ar, a, b, 1, 0);
    PseudoNumpy.KronVVAt(ar, a, b, 1, 1);
    PseudoNumpy.TimesIsMul(2, 2);
  }

  // ---------------------------------------------------------------------------
  // Angle canonicalisation

  /** `math.pi`, the double nearest to pi, as an exact real. */
  const PI: real := 3.141592653589793

  const TWO_PI: real := 2.0 * PI

  /** k full turns. */
  function Turns(k: int): real {
    (k as real) * TWO_PI
  }

  /** r and x differ by a whole number of turns. */
  ghost predicate SameAngle(r: real, x: real) {
    exists k: int :: r == x + Turns(k)
  }

  /**
   * What the two wrapping loops leave of x: x itself when 0 <= x <= 2 pi,
   * otherwise the angle with x's remainder modulo 2 pi that the loops reach first
   * (below 2 pi coming up from a negative x, above 0 coming down from x > 2 pi).
   */
  function Wrap(x: real): (r: real)
    ensures 0.0 <= r <= TWO_PI && SameAngle(r, x)
    ensures 0.0 <= x <= TWO_PI ==> r == x
    ensures x < 0.0 ==> r < TWO_PI
    ensures x > TWO_PI ==> 0.0 < r
  {
    if x < 0.0 then
      var k := -(x / TWO_PI).Floor;
      assert x + Turns(k) == x + (k as real) * TWO_PI;
      x + Turns(k)
    else if x > TWO_PI then
      var k := (-x / TWO_PI).Floor + 1;
      assert x + Turns(k) == x + (k as real) * TWO_PI;
      x + Turns(k)
    else
      assert x == x + Turns(0);
      x
  }

  /** Angles within the documented ranges 0 <= theta <= pi and 0 <= phi <= 2 pi. */
  predicate InRange(theta: real, phi: real) {
    0.0 <= theta <= PI && 0.0 <= phi <= TWO_PI
  }

  /**
   * The angles `QuantumBitState(theta, phi)` keeps: theta wrapped; a wrapped theta
   * above pi mirrored to 2 pi - theta with pi added to phi; then phi wrapped.
   */
  function Canonical(theta: real, phi: real): (r: (real, real))
    ensures InRange(r.0, r.1)
    ensures InRange(theta, phi) ==> r == (theta, phi)
    ensures (SameAngle(r.0, theta) && SameAngle(r.1, phi)) || (SameAngle(r.0, -theta) && SameAngle(r.1, phi + PI))
  {
    var t := Wrap(theta);
    if t > PI then
      var k :| t == theta + Turns(k);
      assert TWO_PI - t == -theta + Turns(1 - k);
      (TWO_PI - t, Wrap(phi + PI))
    else
      (t, Wrap(phi))
  }

  /** Canonicalising twice is canonicalising once. */
  lemma CanonicalIdempotent(theta: real, phi: real)
    ensures Canonical(Canonical(theta, phi).0, Canonical(theta, phi).1) == Canonical(theta, phi)
  {
  }

  /** phi may come out as exactly 2 pi: the loop only subtracts while phi > 2 pi. */
  lemma PhiMayBeTwoPi()
    ensures Canonical(0.0, TWO_PI) == (0.0, TWO_PI)
  {
  }

  /** Two angles less than a turn apart that differ by whole turns are equal. */
  lemma SameAngleUnique(r: real, s: real, k: int)
    requires r == s + Turns(k)
    requires -TWO_PI < r - s < TWO_PI
    ensures r == s
  {
    TurnsBound(k);
  }

  /** A non-zero number of turns is at least a whole turn. */
  lemma TurnsBound(k: int)
    ensures k >= 1 ==> Turns(k) >= TWO_PI
    ensures k <= -1 ==> Turns(k) <= -TWO_PI
  {
  }

  /** The state of the two wrapping loops once they have stopped is `Wrap(x)`. */
  lemma WrapLoopsReachWrap(r: real, x: real, k: int)
    requires r == x + Turns(k) && 0.0 <= r <= TWO_PI
    requires 0.0 <= x <= TWO_PI ==> r == x
    requires x < 0.0 ==> r < TWO_PI
    requires x > TWO_PI ==> 0.0 < r
    ensures r == Wrap(x)
  {
    var w := Wrap(x);
    var j :| w == x + Turns(j);
    assert r == w + Turns(k - j) by {
      assert Turns(k) == Turns(j) + Turns(k - j);
    }
    SameAngleUnique(r, w, k - j);
  }

  /** The constructor's normalisation on local variables: theta wrapped, mirrored past pi, then phi wrapped. */
  method CanonicalAngles(theta0: real, phi0: real) returns (theta: real, phi: real)
    ensures (theta, phi) == Canonical(theta0, phi0)
  {
    theta := WrapAngle(theta0);
    phi := phi0;
    if theta > PI {
      theta := TWO_PI - theta;
      phi := phi + PI;
    }
    phi := WrapAngle(phi);
  }

  /** The pair of loops that add or subtract whole turns until the angle lies in [0, 2 pi]. */
  method WrapAngle(x: real) returns (y: real)
    ensures y == Wrap(x)
  {
    y := x;
    ghost var k := 0;
    while y < 0.0
      invariant y == x + Turns(k)
      invariant x < 0.0 ==> y < TWO_PI
      invariant x >= 0.0 ==> y == x
      decreases (-y).Floor
    {
      y := y + TWO_PI;
      k := k + 1;
    }
    while y > TWO_PI
      invariant y == x + Turns(k) && 0.0 <= y
      invariant x < 0.0 ==> y < TWO_PI
      invariant 0.0 <= x <= TWO_PI ==> y == x
      invariant x > TWO_PI ==> 0.0 < y
      decreases y.Floor
    {
      y := y - TWO_PI;
      k := k - 1;
    }
    WrapLoopsReachWrap(y, x, k);
  }

  // ---------------------------------------------------------------------------
  // One qubit

  /**
   * The floating-point conversions between Bloch angles and basis amplitudes:
   * `basis(theta, phi)` is (cos(theta/2), exp(1j*phi) * sin(theta/2)), and
   * `angles(alpha, beta)` normalises the pair and gives
   * (2 acos|alpha|, phase of beta with alpha's global phase removed).
   */
  datatype Numerics = Numerics(basis: (real, real) -> (Scalar, Scalar), angles: (Scalar, Scalar) -> (real, real))

  /** Why an operation raised. */
  datatype QuError =
    | NotTwoByTwo            // ValueError: a single qubit needs a 2x2 operator
    | SizeMismatch           // ValueError: the operator does not have 2^n rows
    | NoQubits               // ValueError: num_bits <= 0
    | BadStateLength(position: nat)  // ValueError: init state `position` is not a pair
    | IndexError             // an index past the end of a list or array
    | Inhomogeneous          // `np.array` of rows of different lengths

  /** The angles `setStandardBasisState(alpha, beta)` stores: phi is forced to 0 at theta = 0. */
  function Derived(nu: Numerics, alpha: Scalar, beta: Scalar): (r: (real, real))
    ensures r.0 == nu.angles(alpha, beta).0
    ensures r.0 != 0.0 ==> r.1 == nu.angles(alpha, beta).1
    ensures r.0 == 0.0 ==> r.1 == 0.0
  {
    var (t, p) := nu.angles(alpha, beta);
    (t, if t == 0.0 then 0.0 else p)
  }

  /** The basis amplitudes of the angles (theta, phi), as a vector. */
  function BasisVector(nu: Numerics, theta: real, phi: real): (v: seq<Scalar>)
    ensures |v| == 2
  {
    [nu.basis(theta, phi).0, nu.basis(theta, phi).1]
  }

  /** `rotate` succeeds on a rectangular matrix of at most two columns, with two rows or more when it updates. */
  predicate Rotatable(matrix: Matrix, update: bool) {
    Rectangular(matrix) && |matrix[0]| <= 2 && (update ==> |matrix| >= 2)
  }

  /** `QuantumBitState`: one qubit as its Bloch-sphere angles. */
  class QuantumBitState {
    var theta: real
    var phi: real

    /** The angles are canonicalised on construction. */
    constructor (theta0: real := 0.0, phi0: real := 0.0)
      ensures (theta, phi) == Canonical(theta0, phi0)
    {
      var t, p := CanonicalAngles(theta0, phi0);
      theta, phi := t, p;
    }

    /** `setBlochSphereState`: stores the angles as given, without canonicalising them. */
    method SetBlochSphereState(t: real, p: real)
      modifies this
      ensures theta == t && phi == p
    {
      theta, phi := t, p;
    }

    /** `setStandardBasisState`: the angles derived from the amplitudes. */
    method SetStandardBasisState(nu: Numerics, alpha: Scalar, beta: Scalar)
      modifies this
      ensures (theta, phi) == Derived(nu, alpha, beta)
    {
      var (t, p) := nu.angles(alpha, beta);
      theta := t;
      phi := p;
      if theta == 0.0 {
        phi := 0.0;
      }
    }

    /**
     * `rotate(matrix, update)`: the matrix times the basis amplitudes. With update
     * the qubit takes the angles of the first two entries; without it the qubit is
     * left as it was.
     */
    method Rotate(nu: Numerics, matrix: Matrix, update: bool) returns (r: Result<seq<Scalar>, QuError>)
      modifies this
      ensures r.Ok? <==> Rotatable(matrix, update)
      ensures r.Err? ==> r.error in {IndexError, Inhomogeneous}
      ensures r.Ok? ==> r.value == Apply(ScalarArith, matrix, BasisVector(nu, old(theta), old(phi)), |matrix[0]|)
      ensures r.Ok? && update ==> (theta, phi) == Derived(nu, r.value[0], r.value[1])
      ensures !(r.Ok? && update) ==> theta == old(theta) && phi == old(phi)
    {
      if |matrix| == 0 {
        return Err(IndexError);
      }
      if !Rectangular(matrix) {
        return Err(Inhomogeneous);
      }
      if |matrix[0]| > 2 {
        return Err(IndexError);
      }
      var state := BasisVector(nu, theta, phi);
      var mat := PseudoNumpy.Matrix(|matrix|, |matrix[0]|, matrix);
      var c := PseudoNumpy.MatVecMul(ScalarArith, mat, PseudoNumpy.Vector(state));
      var newState := c.elems;
      if update {
        if |newState| < 2 {
          return Err(IndexError);
        }
        SetStandardBasisState(nu, newState[0], newState[1]);
      }
      return Ok(newState);
    }

    /** `operate(operator, update)`: `rotate` with the operator's matrix, which must be 2x2. */
    method Operate(nu: Numerics, operator: EnumValue<Matrix>, update: bool) returns (r: Result<seq<Scalar>, QuError>)
      modifies this
      ensures r.Ok? <==> IsSquare(operator.value, 2)
      ensures !IsSquare(operator.value, 2) ==> r.Err? && r.error in {NotTwoByTwo, IndexError, Inhomogeneous}
      ensures r.Ok? ==> r.value == Apply(ScalarArith, operator.value, BasisVector(nu, old(theta), old(phi)), 2)
      ensures r.Ok? && update ==> (theta, phi) == Derived(nu, r.value[0], r.value[1])
      ensures !(r.Ok? && update) ==> theta == old(theta) && phi == old(phi)
    {
      if |operator.value| == 0 {
        return Err(IndexError);
      }
      if |operator.value| != 2 || |operator.value[0]| != 2 {
        return Err(NotTwoByTwo);
      }
      r := Rotate(nu, operator.value, update);
    }
  }

  // ---------------------------------------------------------------------------
  // A register of qubits

  /**
   * The class attribute `QuStates.states`: one list object, created with the
   * class, that every `QuStates` instance appends to and reads.
   */
  class QubitList {
    var states: seq<QuantumBitState>

    constructor ()
      ensures states == []
    {
      states := [];
    }

    /** No qubit object appears twice: each one was created by the constructor of `QuStates`. */
    ghost predicate Distinct()
      reads this
    {
      forall i, j :: 0 <= i < j < |states| ==> states[i] != states[j]
    }
  }

  /**
   * `tensor_product`: the Kronecker product of the rows, first row outermost.
   * `None` stands for the IndexError on an empty list.
   */
  function TensorProduct(rows: seq<seq<Scalar>>): (r: Option<seq<Scalar>>)
    ensures r.None? <==> |rows| == 0
    ensures r.Some? && (forall i :: 0 <= i < |rows| ==> |rows[i]| == 2) ==> |r.value| == Pow2(|rows|)
  {
    if |rows| == 0 then None
    else if |rows| == 1 then Some(rows[0])
    else
      var rest := TensorProduct(rows[1..]).value;
      PseudoNumpy.TimesIsMul(|rows[0]|, |rest|);
      Some(PseudoNumpy.KronVV(ScalarArith, rows[0], rest))
  }

  /** The basis amplitudes of every qubit of the list, one pair per row. */
  ghost function BasisRows(nu: Numerics, qs: seq<QuantumBitState>): (rows: seq<seq<Scalar>>)
    reads qs
    ensures |rows| == |qs|
    ensures forall i :: 0 <= i < |qs| ==> rows[i] == BasisVector(nu, qs[i].theta, qs[i].phi)
  {
    if qs == [] then [] else [BasisVector(nu, qs[0].theta, qs[0].phi)] + BasisRows(nu, qs[1..])
  }

  /** `operate_multi_qu` succeeds when the operator has 2^n rows of equal length, at most 2^n, for n >= 1 qubits. */
  predicate MultiOperable(m: Matrix, n: nat) {
    n >= 1 && |m| == Pow2(n) && Rectangular(m) && |m[0]| <= Pow2(n)
  }

  /** `QuStates`: a register of qubits, kept in the list shared by all instances. */
  class QuStates {
    const shared: QubitList

    constructor Of(list: QubitList)
      ensures shared == list
    {
      shared := list;
    }

    /**
     * `QuStates(init_states, num_bits, theta, phi)`. Without init_states it appends
     * num_bits qubits at (theta, phi), and raises when num_bits <= 0. With them it
     * appends one qubit per (theta, phi) pair, and raises at the first entry that
     * is not a pair, keeping the qubits appended before it.
     */
    static method New(list: QubitList, initStates: Option<seq<seq<real>>> := None, numBits: int := 1, theta: real := 0.0, phi: real := 0.0)
      returns (r: Result<QuStates, QuError>)
      requires list.Distinct()
      modifies list
      ensures list.Distinct()
      ensures r.Ok? ==> fresh(r.value) && r.value.shared == list
      ensures initStates.None? ==> (r.Err? <==> numBits <= 0) && (r.Err? ==> r.error == NoQubits)
      ensures initStates.Some? ==>
                (r.Err? <==> exists i :: 0 <= i < |initStates.value| && |initStates.value[i]| != 2)
      ensures r.Err? && initStates.Some? ==> r.error.BadStateLength?
      ensures r.Err? && initStates.Some? ==>
                var k := r.error.position;
                && k < |initStates.value| && |initStates.value[k]| != 2
                && forall i :: 0 <= i < k ==> |initStates.value[i]| == 2
      ensures |old(list.states)| <= |list.states| && list.states[..|old(list.states)|] == old(list.states)
      ensures forall i :: |old(list.states)| <= i < |list.states| ==> fresh(list.states[i])
      ensures initStates.None? ==>
                && |list.states| == |old(list.states)| + (if numBits <= 0 then 0 else numBits)
                && forall i :: |old(list.states)| <= i < |list.states| ==>
                     (list.states[i].theta, list.states[i].phi) == Canonical(theta, phi)
      ensures initStates.Some? ==>
                var added := if r.Ok? then |initStates.value| else r.error.position;
                && |list.states| == |old(list.states)| + added
                && forall i :: 0 <= i < added ==>
                     var q := list.states[|old(list.states)| + i];
                     |initStates.value[i]| == 2 && (q.theta, q.phi) == Canonical(initStates.value[i][0], initStates.value[i][1])
    {
      var n0 := |list.states|;
      if initStates.None? {
        if numBits <= 0 {
          return Err(NoQubits);
        }
        var i := 0;
        while i < numBits
          invariant 0 <= i <= numBits && |list.states| == n0 + i
          invariant list.states[..n0] == old(list.states) && list.Distinct()
          invariant forall j :: n0 <= j < |list.states| ==> fresh(list.states[j])
          invariant forall j :: n0 <= j < |list.states| ==> (list.states[j].theta, list.states[j].phi) == Canonical(theta, phi)
        {
          var q := new QuantumBitState(theta, phi);
          list.states := list.states + [q];
          i := i + 1;
        }
      } else {
        var init := initStates.value;
        var i := 0;
        while i < |init|
          invariant 0 <= i <= |init| && |list.states| == n0 + i
          invariant list.states[..n0] == old(list.states) && list.Distinct()
          invariant forall j :: n0 <= j < |list.states| ==> fresh(list.states[j])
          invariant forall j :: 0 <= j < i ==>
                      |init[j]| == 2 && (list.states[n0 + j].theta, list.states[n0 + j].phi) == Canonical(init[j][0], init[j][1])
        {
          if |init[i]| != 2 {
            return Err(BadStateLength(i));
          }
          var q := new QuantumBitState(init[i][0], init[i][1]);
          list.states := list.states + [q];
          i := i + 1;
        }
      }
      var qs := new QuStates.Of(list);
      return Ok(qs);
    }

    /** `getNumBits`: the length of the shared list, counting the qubits of every instance. */
    function NumBits(): nat
      reads this, shared
    {
      |shared.states|
    }

    /** `getStandardBasisState`: the basis amplitudes of every qubit, in list order. */
    method StandardBasisState(nu: Numerics) returns (vec: seq<seq<Scalar>>)
      ensures vec == BasisRows(nu, shared.states)
    {
      vec := [];
      var i := 0;
      while i < |shared.states|
        invariant 0 <= i <= |shared.states| && |vec| == i
        invariant forall j :: 0 <= j < i ==> vec[j] == BasisVector(nu, shared.states[j].theta, shared.states[j].phi)
      {
        var q := shared.states[i];
        vec := vec + [BasisVector(nu, q.theta, q.phi)];
        i := i + 1;
      }
    }

    /**
     * `operate_multi_qu(operator)`: checks that the operator has 2^n rows, applies
     * it to the tensor state, rewrites qubit i from entries 2i and 2i + 1 of the
     * product, and returns the tensor state from before the operator.
     */
    method OperateMultiQu(nu: Numerics, operator: EnumValue<Matrix>) returns (r: Result<seq<Scalar>, QuError>)
      requires shared.Distinct()
      modifies set i | 0 <= i < |shared.states| :: shared.states[i]
      ensures r.Ok? <==> MultiOperable(operator.value, |shared.states|)
      ensures |operator.value| != Pow2(|shared.states|) ==> r.Err? && r.error in {SizeMismatch, IndexError}
      ensures r.Ok? ==> |r.value| == Pow2(|shared.states|)
      ensures r.Ok? ==> Some(r.value) == TensorProduct(old(BasisRows(nu, shared.states)))
      ensures r.Ok? ==>
                var c := Apply(ScalarArith, operator.value, r.value, |operator.value[0]|);
                forall i :: 0 <= i < |shared.states| ==>
                  (shared.states[i].theta, shared.states[i].phi) == Derived(nu, c[2 * i], c[2 * i + 1])
      ensures r.Err? ==> forall i :: 0 <= i < |shared.states| ==>
                           shared.states[i].theta == old(shared.states[i].theta) && shared.states[i].phi == old(shared.states[i].phi)
    {
      var n := |shared.states|;
      var m := operator.value;
      if |m| != Pow2(n) {
        if |m| == 0 {
          return Err(IndexError);
        }
        return Err(SizeMismatch);
      }
      var rows := StandardBasisState(nu);
      var st := TensorProduct(rows);
      if st.None? {
        return Err(IndexError);
      }
      if !Rectangular(m) {
        return Err(Inhomogeneous);
      }
      if |m[0]| > |st.value| {
        return Err(IndexError);
      }
      var c := PseudoNumpy.MatVecMul(ScalarArith, PseudoNumpy.Matrix(|m|, |m[0]|, m), PseudoNumpy.Vector(st.value));
      var newStates := c.elems;
      assert newStates == Apply(ScalarArith, m, st.value, |m[0]|);
      WriteBack(nu, newStates);
      return Ok(st.value);
    }

    /** The loop of `operate_multi_qu` that rewrites qubit i from entries 2i and 2i + 1. */
    method WriteBack(nu: Numerics, newStates: seq<Scalar>)
      requires shared.Distinct() && 2 * |shared.states| <= |newStates|
      modifies set i | 0 <= i < |shared.states| :: shared.states[i]
      ensures forall i :: 0 <= i < |shared.states| ==>
                (shared.states[i].theta, shared.states[i].phi) == Derived(nu, newStates[2 * i], newStates[2 * i + 1])
    {
      var i := 0;
      while i < |shared.states|
        invariant 0 <= i <= |shared.states|
        invariant forall j :: 0 <= j < i ==>
                    (shared.states[j].theta, shared.states[j].phi) == Derived(nu, newStates[2 * j], newStates[2 * j + 1])
      {
        shared.states[i].SetStandardBasisState(nu, newStates[2 * i], newStates[2 * i + 1]);
        i := i + 1;
      }
    }
  }
}
