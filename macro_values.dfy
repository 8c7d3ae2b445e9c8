// Shared value domain of the macro interpreter: the unset sentinel, the
// unsigned-short variable identifier, the C++ truncating casts and the
// outcome types that stand in for exceptions.
module MacroValues {

  /** DBL_MIN, the smallest positive normalised double. Every unset macro
      variable and every fresh arithmetic node holds it. */
  const NullValue: real := 2.2250738585072014e-308

  /** DBL_MAX, the largest finite double. */
  const DoubleMax: real := 1.7976931348623157e308

  type ushort = x: int | 0 <= x < 0x1_0000

  /** A 32-bit `unsigned` value. */
  type uint32 = x: int | 0 <= x < 0x1_0000_0000

  datatype Option<T> = None | Some(value: T)

  /** The exceptions the interpreter throws, plus the two IEEE/UB situations
      the model turns into errors instead of silent values. */
  datatype Fault =
    | ReadOnlyVariable      // runtime_error: write to #0
    | VariableNotFound      // out_of_range: no namespace owns the ID
    | MissingOperand        // invalid_argument: null child of an assignment
    | CastOutOfRange        // double -> unsigned, unsigned short or int cast outside the target range
    | DivisionByZero        // IEEE infinity / NaN

  /** What a bool-returning C++ member does: `ok` is its return value and
      `state` the object afterwards; `Thrown` is an exception escaping it. */
  datatype Answer<S> = Answer(ok: bool, state: S) | Thrown(fault: Fault)

  /** What a bool-returning method hands back to its caller. */
  datatype Outcome = Returned(ok: bool) | Raised(fault: Fault)

  /** The caller's view of an answer: its flag, or the exception. */
  function OutcomeOf<S>(a: Answer<S>): (r: Outcome)
    ensures a.Answer? <==> r.Returned?
    ensures a.Answer? ==> r.ok == a.ok
    ensures a.Thrown? ==> r.fault == a.fault
  {
    match a
    case Answer(ok, _) => Returned(ok)
    case Thrown(f) => Raised(f)
  }

  /** The sentinel is a positive value, so an unset variable compares
      greater than 0. */
  lemma NullValueIsPositive()
    ensures 0.0 < NullValue < 1.0
  {
  }

  function Floor(x: real): (r: int)
    ensures r as real <= x < r as real + 1.0
  {
    x.Floor
  }

  function Ceil(x: real): (r: int)
    ensures r as real - 1.0 < x <= r as real
  {
    -((-x).Floor)
  }

  /** The C++ floating-to-integer conversion: truncation toward zero. */
  function Truncate(x: real): (r: int)
    ensures 0.0 <= x ==> 0 <= r && r as real <= x < r as real + 1.0
    ensures x < 0.0 ==> r <= 0 && r as real - 1.0 < x <= r as real
  {
    if x < 0.0 then Ceil(x) else Floor(x)
  }

  /** `static_cast<unsigned short>(x)`: defined only when the truncated
      value fits, i.e. for -1 < x < 65536. */
  function ToUnsignedShort(x: real): (r: Option<ushort>)
    ensures r.Some? <==> -1.0 < x < 65536.0
    ensures r.Some? ==> r.value == Truncate(x)
    ensures r.Some? ==> r.value as real <= x + 1.0 && x < r.value as real + 1.0
  {
    if -1.0 < x < 65536.0 then Some(Truncate(x)) else None
  }

  /** `static_cast<unsigned>(x)` on a 32-bit unsigned: defined for
      -1 < x < 2^32. */
  function ToUnsigned(x: real): (r: Option<uint32>)
    ensures r.Some? <==> -1.0 < x < 4294967296.0
    ensures r.Some? ==> r.value == Truncate(x)
    ensures r.Some? ==> r.value as real <= x + 1.0 && x < r.value as real + 1.0
  {
    if -1.0 < x < 4294967296.0 then Some(Truncate(x)) else None
  }

  /** `static_cast<int>(x)` on a 32-bit int: defined for -2^31-1 < x < 2^31. */
  function ToInt(x: real): (r: Option<int>)
    ensures r.Some? <==> -2147483649.0 < x < 2147483648.0
    ensures r.Some? ==> r.value == Truncate(x)
    ensures r.Some? ==> -0x8000_0000 <= r.value < 0x8000_0000
  {
    if -2147483649.0 < x < 2147483648.0 then Some(Truncate(x)) else None
  }

  /** Storing a 32-bit unsigned into an `int`: values from 2^31 up wrap to
      negative. */
  function AsSigned(u: uint32): (r: int)
    ensures -0x8000_0000 <= r < 0x8000_0000
    ensures r % 0x1_0000_0000 == u
  {
    if u < 0x8000_0000 then u else u - 0x1_0000_0000
  }

  /** A bool widened to `unsigned`. */
  function BoolToUnsigned(b: bool): (r: uint32)
    ensures b <==> r == 1
    ensures !b <==> r == 0
  {
    if b then 1 else 0
  }
}
