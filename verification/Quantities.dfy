/** Dimensioned quantities, issue kinds, and the outcome of one evaluation.

    A float64 is modelled as a real. What the core takes from the Go runtime
    (square root, cosine, sine, pi and number formatting) enters as a Platform
    value, and Lawful says which of their properties the proofs rest on. */
module Quantities {
  import opened Reals

  datatype Dimension =
    | Dimensionless | DimMass | DimForce | DimLength | DimArea | DimSpeed | DimDensity
    | DimForcePerArea | DimMassPerArea | DimAngle | DimPower | DimEnergy
    | DimDynamicViscosity | DimMassMoment | DimTime | DimCurrent | DimVoltage
    | DimCharge | DimRotationRate

  /** A value held in its dimension's SI unit. */
  datatype Quantity = Quantity(si: real, dim: Dimension) {
    /** The zero Quantity means "not entered"; a dimensioned zero is a value. */
    predicate Supplied() {
      this != UNSET
    }

    /** A positive value of the given dimension: what an evaluation accepts. */
    predicate Positive(want: Dimension) {
      dim == want && si > 0.0
    }
  }

  const UNSET := Quantity(0.0, Dimensionless)

  datatype Option<+T> = None | Some(value: T)

  datatype IssueKind = IssueMissing | IssueInvalid | IssueUnsupported

  type Issues = seq<IssueKind>

  /** A value, or the issues that withheld it. */
  datatype Outcome<+T> = Ok(value: T) | Refused(issues: Issues) {
    predicate IsFailure() {
      Refused?
    }

    function PropagateFailure<U>(): Outcome<U>
      requires Refused?
    {
      Refused(issues)
    }

    function Extract(): T
      requires Ok?
    {
      value
    }
  }

  datatype ResultStatus = ResultMissing | ResultComputed | ResultInvalid | ResultStale

  datatype LimitStatus = LimitUnknown | LimitMet | LimitUnmet

  /** The relative slack a boundary comparison allows. */
  const TOLERANCE := 0.000000001

  const GRAVITY := 9.80665

  function Abs(x: real): real {
    if x < 0.0 then -x else x
  }

  /** An invalid or unsupported input blocks a result; a missing one leaves it
      uncomputed. */
  function StatusForIssues(issues: Issues): ResultStatus {
    if IssueInvalid in issues || IssueUnsupported in issues then ResultInvalid else ResultMissing
  }

  function StatusFor(ok: bool): LimitStatus {
    if ok then LimitMet else LimitUnmet
  }

  /** The issues of an input that must be a positive value of its dimension. */
  function QuantityIssues(q: Quantity, want: Dimension): Issues {
    if q.dim != want then [if q == UNSET then IssueMissing else IssueInvalid]
    else if q.si > 0.0 then []
    else [IssueInvalid]
  }

  /** The issues of an input whose sign and zero are meaningful. */
  function SignedIssues(q: Quantity, want: Dimension): Issues {
    if q.dim != want then [if q == UNSET then IssueMissing else IssueInvalid] else []
  }

  function ScalarIssues(v: real): Issues {
    if v > 0.0 then [] else [IssueInvalid]
  }

  /** A computed result must itself be positive. */
  function Finish(si: real, dim: Dimension): Outcome<Quantity> {
    if si > 0.0 then Ok(Quantity(si, dim)) else Refused([IssueInvalid])
  }

  function Ratio(v: real): Quantity {
    Quantity(v, Dimensionless)
  }

  function Float(n: int): real {
    n as real
  }

  /** Every integer up to 2^53 in magnitude is a float64. */
  const MAX_EXACT := 9007199254740992

  /** What the core takes from Go's math and strconv packages. */
  datatype Platform = Platform(
    sqrt: real -> real,
    cos: real -> real,
    sin: real -> real,
    pi: real,
    format: real -> string,
    representable: real -> bool
  ) {
    /** A square root on the nonnegative reals, a cosine that is 1 at zero and
        in (0, 1] over the angles the geometry accepts, and a formatter that
        tells representable numbers apart. */
    ghost predicate Lawful() {
      && (forall x :: x >= 0.0 ==> sqrt(x) >= 0.0 && Square(sqrt(x)) == x)
      && 3.0 < pi < 4.0
      && cos(0.0) == 1.0
      && (forall g :: Abs(g) <= 60.0 * pi / 180.0 ==> 0.0 < cos(g) <= 1.0)
      && LawfulFormat()
    }

    /** The shortest decimal form of a finite number: never empty, written with
        number characters only, and different for different float64 values. */
    ghost predicate LawfulFormat() {
      && (forall x :: representable(x) ==>
            format(x) != [] && forall k :: 0 <= k < |format(x)| ==> NumberChar(format(x)[k]))
      && (forall x, y :: representable(x) && representable(y) && format(x) == format(y) ==> x == y)
      && (forall n: int :: -MAX_EXACT <= n <= MAX_EXACT ==> representable(Float(n)))
    }
  }

  predicate NumberChar(c: char) {
    '0' <= c <= '9' || c == '.' || c == '-' || c == '+' || c == 'e'
  }
}

/** The square root the core takes from its platform. */
module Roots {
  import opened Quantities
  import opened Reals

  lemma SqrtPositive(p: Platform, x: real)
    requires p.Lawful() && x > 0.0
    ensures p.sqrt(x) > 0.0 && Square(p.sqrt(x)) == x
  {
    assert Square(p.sqrt(x)) == x;
  }

  /** The positive root of a square is the number squared. */
  lemma SqrtUnique(p: Platform, r: real)
    requires p.Lawful() && r > 0.0
    ensures p.sqrt(Square(r)) == r
  {
    SqrtPositive(p, Square(r));
    SquareMonotone(r, p.sqrt(Square(r)));
  }
}
