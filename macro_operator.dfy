// Operator trees of Fanuc Macro-B expressions and their evaluation over
// the variable store. Arithmetic nodes yield a real, relational nodes a
// bool, logical nodes a 32-bit unsigned; only variable and assignment
// nodes touch the store.
module MacroOperator {
  import opened MacroValues
  import opened MacroVariable

  /** std::numbers::pi as a double. */
  const Pi: real := 3.141592653589793

  /** The C library functions the trigonometric, root, logarithm and power
      nodes call. Their values are not modelled. */
  datatype MathLibrary = MathLibrary(
    sin: real -> real, cos: real -> real, tan: real -> real,
    asin: real -> real, acos: real -> real, atan: real -> real,
    sqrt: real -> real, log: real -> real, exp: real -> real,
    pow: (real, real) -> real, atan2: (real, real) -> real)

  /** One-operand function nodes (MacroOperatorID SINE .. EXPONENT). */
  datatype UnaryFunction =
    | Sine | Cosine | Tangent | ArcSine | ArcCosine | ArcTangent
    | SquareRoot | AbsoluteValue | RoundOff | RoundDown | RoundUp
    | NaturalLog | Exponent

  /** Two-operand arithmetic nodes. */
  datatype BinaryFunction = Add | Subtract | Multiply | Divide | Power | ArcTangent2

  datatype Arithmetic =
    | Constant(value: real)
    | Minus(operand: Arithmetic)
      /** #[id]: the variable whose ID the child evaluates to. */
    | VariableAt(id: Arithmetic)
    | Function(kind: UnaryFunction, operand: Arithmetic)
    | Binary(op: BinaryFunction, left: Arithmetic, right: Arithmetic)
      /** target = source; the target must be a variable node. */
    | Assignment(target: Arithmetic, source: AssignmentSource)

  datatype AssignmentSource =
    | FromArithmetic(arithmetic: Arithmetic)
    | FromLogical(logical: Logical)
    | NoSource

  datatype RelationalKind = Equal | NotEqual | Greater | GreaterEqual | Less | LessEqual

  datatype Relational = Relational(kind: RelationalKind, left: Arithmetic, right: Arithmetic)

  datatype LogicalKind = And | Or | Xor

  datatype LogicalOperand =
    | ArithmeticOperand(arithmetic: Arithmetic)
    | RelationalOperand(relational: Relational)
    | LogicalOperand(logical: Logical)

  /** A logical node. The source has constructors for seven operand pairs;
      arithmetic with relational (either way round) has none. */
  datatype Logical = Logical(kind: LogicalKind, left: LogicalOperand, right: LogicalOperand)

  /** GeneralOperatorHandle: each of its constructors fills exactly one of
      the arithmetic, relational and logical handles. */
  datatype GeneralOperatorHandle =
    | ArithmeticHandle(arithmetic: Arithmetic)
    | RelationalHandle(relational: Relational)
    | LogicalHandle(logical: Logical)

  // ---------------------------------------------------------------------
  // Assignment targets: the source casts the left operand to a variable
  // node without checking, so evaluation requires every target to be one.

  predicate TargetsAreVariables(e: Arithmetic)
    decreases e, 1
  {
    match e
    case Constant(_) => true
    case Minus(a) => TargetsAreVariables(a)
    case VariableAt(a) => TargetsAreVariables(a)
    case Function(_, a) => TargetsAreVariables(a)
    case Binary(_, l, r) => TargetsAreVariables(l) && TargetsAreVariables(r)
    case Assignment(t, src) =>
      t.VariableAt? && TargetsAreVariables(t.id) && SourceTargetsAreVariables(src)
  }

  predicate SourceTargetsAreVariables(src: AssignmentSource)
    decreases src, 0
  {
    match src
    case FromArithmetic(a) => TargetsAreVariables(a)
    case FromLogical(l) => LogicalTargetsAreVariables(l)
    case NoSource => true
  }

  predicate RelationalTargetsAreVariables(r: Relational)
    decreases r, 0
  {
    TargetsAreVariables(r.left) && TargetsAreVariables(r.right)
  }

  predicate LogicalTargetsAreVariables(l: Logical)
    decreases l, 1
  {
    OperandTargetsAreVariables(l.left) && OperandTargetsAreVariables(l.right)
  }

  predicate OperandTargetsAreVariables(o: LogicalOperand)
    decreases o, 0
  {
    match o
    case ArithmeticOperand(a) => TargetsAreVariables(a)
    case RelationalOperand(r) => RelationalTargetsAreVariables(r)
    case LogicalOperand(l) => LogicalTargetsAreVariables(l)
  }

  /** Trees without assignment nodes: evaluating them only reads the store. */
  predicate ReadsOnly(e: Arithmetic)
    decreases e, 1
  {
    match e
    case Constant(_) => true
    case Minus(a) => ReadsOnly(a)
    case VariableAt(a) => ReadsOnly(a)
    case Function(_, a) => ReadsOnly(a)
    case Binary(_, l, r) => ReadsOnly(l) && ReadsOnly(r)
    case Assignment(_, _) => false
  }

  predicate RelationalReadsOnly(r: Relational)
    decreases r, 0
  {
    ReadsOnly(r.left) && ReadsOnly(r.right)
  }

  predicate LogicalReadsOnly(l: Logical)
    decreases l, 1
  {
    OperandReadsOnly(l.left) && OperandReadsOnly(l.right)
  }

  predicate OperandReadsOnly(o: LogicalOperand)
    decreases o, 0
  {
    match o
    case ArithmeticOperand(a) => ReadsOnly(a)
    case RelationalOperand(r) => RelationalReadsOnly(r)
    case LogicalOperand(l) => LogicalReadsOnly(l)
  }

  // ---------------------------------------------------------------------
  // Rounding functions.

  function Abs(x: real): real {
    if x < 0.0 then -x else x
  }

  /** FIX (RoundDownOperator): ceil below zero, floor otherwise. */
  function Fix(x: real): (r: real)
    ensures r == r.Floor as real
    ensures Abs(r) <= Abs(x) < Abs(r) + 1.0
    ensures (x < 0.0 ==> r <= 0.0) && (0.0 <= x ==> 0.0 <= r)
  {
    if x < 0.0 then Ceil(x) as real else Floor(x) as real
  }

  /** FUP (RoundUpOperator): floor below zero, ceil otherwise. */
  function Fup(x: real): (r: real)
    ensures r == r.Floor as real
    ensures Abs(x) <= Abs(r) < Abs(x) + 1.0
    ensures (x < 0.0 ==> r < 0.0) && (0.0 <= x ==> 0.0 <= r)
  {
    if x < 0.0 then Floor(x) as real else Ceil(x) as real
  }

  /** ROUND (std::round): nearest integer, halves away from zero. */
  function Round(x: real): (r: real)
    ensures r == r.Floor as real
    ensures Abs(r - x) <= 0.5
  {
    if x < 0.0 then
      var n := Floor(-x + 0.5);
      assert (-n as real).Floor == -n;
      -(n as real)
    else
      var n := Floor(x + 0.5);
      assert (n as real).Floor == n;
      n as real
  }

  /** FIX and FUP truncate toward and away from zero, so both are odd
      functions, unlike floor and ceil. */
  lemma {:induction false} FixFupAreOdd(x: real)
    ensures Fix(-x) == -Fix(x)
    ensures Fup(-x) == -Fup(x)
  {
    if x < 0.0 {
      assert Fix(-x) == Floor(-x) as real;
      assert Fix(x) == Ceil(x) as real;
    } else if x > 0.0 {
      assert Fix(-x) == Ceil(-x) as real;
    }
  }

  /** FIX is Ceil for negative inputs and Floor otherwise, so FIX[-1.5] is
      -1, not floor's -2; FUP[-1.5] is -2, not ceil's -1. */
  lemma FixFupOnNegativeHalf()
    ensures Fix(-1.5) == -1.0 && Floor(-1.5) == -2
    ensures Fup(-1.5) == -2.0 && Ceil(-1.5) == -1
  {
  }

  /** ROUND takes halves away from zero on both sides. */
  lemma {:induction false} RoundHalvesAwayFromZero(n: nat)
    ensures Round(n as real + 0.5) == n as real + 1.0
    ensures Round(-(n as real) - 0.5) == -(n as real) - 1.0
  {
    assert Floor(n as real + 1.0) == n + 1;
  }

  /** The value of a one-operand function node on its operand's value;
      angles are in degrees. */
  function ApplyFunction(f: UnaryFunction, x: real, lib: MathLibrary): (r: real)
    ensures f == AbsoluteValue ==> 0.0 <= r && (r == x || r == -x)
    ensures f == RoundOff ==> r == r.Floor as real && Abs(r - x) <= 0.5
    ensures f == RoundDown ==> r == r.Floor as real && Abs(r) <= Abs(x) < Abs(r) + 1.0
    ensures f == RoundUp ==> r == r.Floor as real && Abs(x) <= Abs(r) < Abs(x) + 1.0
  {
    match f
    case Sine => lib.sin(x / 180.0 * Pi)
    case Cosine => lib.cos(x / 180.0 * Pi)
    case Tangent => lib.tan(x / 180.0 * Pi)
    case ArcSine => lib.asin(x) / Pi * 180.0
    case ArcCosine => lib.acos(x) / Pi * 180.0
    case ArcTangent => lib.atan(x) / Pi * 180.0
    case SquareRoot => lib.sqrt(x)
    case AbsoluteValue => Abs(x)
    case RoundOff => Round(x)
    case RoundDown => Fix(x)
    case RoundUp => Fup(x)
    case NaturalLog => lib.log(x)
    case Exponent => lib.exp(x)
  }

  /** The value of a two-operand node; division by zero is an error. */
  function ApplyBinary(op: BinaryFunction, x: real, y: real, lib: MathLibrary): (r: Option<real>)
    ensures r.None? <==> op == Divide && y == 0.0
    ensures op == Add ==> r == Some(x + y)
    ensures op == Subtract ==> r == Some(x - y)
    ensures op == Multiply ==> r == Some(x * y)
    ensures op == Divide && y != 0.0 ==> r == Some(x / y) && r.value * y == x
  {
    match op
    case Add => Some(x + y)
    case Subtract => Some(x - y)
    case Multiply => Some(x * y)
    case Divide => if y == 0.0 then None else Some(x / y)
    case Power => Some(lib.pow(x, y))
    case ArcTangent2 => Some(lib.atan2(x, y) / Pi * 180.0)
  }

  /** The six comparisons of a relational node. */
  function Compare(kind: RelationalKind, x: real, y: real): (r: bool)
    ensures x < y ==> (r <==> kind in {NotEqual, Less, LessEqual})
    ensures x == y ==> (r <==> kind in {Equal, GreaterEqual, LessEqual})
    ensures x > y ==> (r <==> kind in {NotEqual, Greater, GreaterEqual})
  {
    match kind
    case Equal => x == y
    case NotEqual => x != y
    case Greater => x > y
    case GreaterEqual => x >= y
    case Less => x < y
    case LessEqual => x <= y
  }

  /** NE, GE and LE negate LT, GT and EQ; GT and LT mirror each other. */
  lemma CompareDuals(x: real, y: real)
    ensures Compare(NotEqual, x, y) == !Compare(Equal, x, y)
    ensures Compare(GreaterEqual, x, y) == !Compare(Less, x, y)
    ensures Compare(LessEqual, x, y) == !Compare(Greater, x, y)
    ensures Compare(Greater, x, y) == Compare(Less, y, x)
  {
  }

  /** AND, OR and XOR on the raw 32-bit values. On 0/1 operands the result
      is again 0 or 1: conjunction, disjunction and inequality. */
  function Combine(kind: LogicalKind, x: uint32, y: uint32): (r: uint32)
    ensures x <= 1 && y <= 1 ==> r <= 1
    ensures x <= 1 && y <= 1 && kind == And ==> (r == 1 <==> x == 1 && y == 1)
    ensures x <= 1 && y <= 1 && kind == Or ==> (r == 1 <==> x == 1 || y == 1)
    ensures x <= 1 && y <= 1 && kind == Xor ==> (r == 1 <==> x != y)
  {
    match kind
    case And => ((x as bv32) & (y as bv32)) as int
    case Or => ((x as bv32) | (y as bv32)) as int
    case Xor => ((x as bv32) ^ (y as bv32)) as int
  }

  /** On 0 and 1 the logical nodes are the boolean connectives. */
  lemma CombineOnBits(a: bool, b: bool)
    ensures Combine(And, BoolToUnsigned(a), BoolToUnsigned(b)) == BoolToUnsigned(a && b)
    ensures Combine(Or, BoolToUnsigned(a), BoolToUnsigned(b)) == BoolToUnsigned(a || b)
    ensures Combine(Xor, BoolToUnsigned(a), BoolToUnsigned(b)) == BoolToUnsigned(a != b)
  {
  }

  /** Values are never normalised to 0/1: 2 AND 1 is 0 although both are
      non-zero, and 2 OR 1 is 3. */
  lemma CombineIsBitwise()
    ensures Combine(And, 2, 1) == 0
    ensures Combine(Or, 2, 1) == 3
    ensures Combine(Xor, 3, 1) == 2
  {
  }

  // ---------------------------------------------------------------------
  // Evaluation.

  /** A value and the store after computing it, or the error raised. */
  datatype Evaluated<T> = Value(value: T, store: Store) | Failure(fault: Fault)

  /** Whether evaluation keeps the store's shape: same levels, same pointers. */
  ghost predicate SameShape(s: Store, s': Store) {
    Valid(s') && s'.local.scopes == s.local.scopes
    && |s'.local.tables| == |s.local.tables|
    && |s'.modal.tables| == |s.modal.tables|
    && s'.modal.next == s.modal.next && s'.modal.previous == s.modal.previous
  }

  lemma SameShapeTransitive(s1: Store, s2: Store, s3: Store)
    requires SameShape(s1, s2) && SameShape(s2, s3)
    ensures SameShape(s1, s3)
  {
  }

  /** VariableOperator::Evaluate: the child's value truncated to an
      unsigned short is the ID; an ID nobody owns raises out_of_range. */
  function EvaluateArithmetic(e: Arithmetic, s: Store, lib: MathLibrary): (r: Evaluated<real>)
    requires Valid(s) && TargetsAreVariables(e)
    ensures r.Value? ==> SameShape(s, r.store)
    ensures r.Value? && ReadsOnly(e) ==> r.store == s
    decreases e, 2
  {
    match e {
      case Constant(v) => Value(v, s)
      case Minus(a) =>
        var x := EvaluateArithmetic(a, s, lib);
        if x.Failure? then x else Value(-x.value, x.store)
      case VariableAt(a) => ReadVariable(a, s, lib)
      case Function(f, a) =>
        var x := EvaluateArithmetic(a, s, lib);
        if x.Failure? then x else Value(ApplyFunction(f, x.value, lib), x.store)
      case Binary(op, l, r) =>
        var x := EvaluateArithmetic(l, s, lib);
        if x.Failure? then x
        else
          var y := EvaluateArithmetic(r, x.store, lib);
          if y.Failure? then y
          else
            var z := ApplyBinary(op, x.value, y.value, lib);
            if z.None? then Failure(DivisionByZero) else Value(z.value, y.store)
      case Assignment(t, src) =>
        var x := EvaluateSource(src, s, lib);
        if x.Failure? then x
        else
          var w := WriteVariable(t.id, x.value, x.store, lib);
          if w.Failure? then Failure(w.fault)
          else ReadVariable(t.id, w.store, lib)
    }
  }

  /** The ID a variable node designates: its child's value cast to an
      unsigned short. */
  function VariableId(a: Arithmetic, s: Store, lib: MathLibrary): (r: Evaluated<ushort>)
    requires Valid(s) && TargetsAreVariables(a)
    ensures r.Value? ==> Valid(r.store) && SameShape(s, r.store)
    ensures UnsignedShortCast(EvaluateArithmetic(a, s, lib), r)
    ensures r.Value? && ReadsOnly(a) ==> r.store == s
    decreases a, 3
  {
    var x := EvaluateArithmetic(a, s, lib);
    if x.Failure? then Failure(x.fault)
    else
      var id := ToUnsignedShort(x.value);
      if id.None? then Failure(CastOutOfRange) else Value(id.value, x.store)
  }

  /** VariableOperator::Evaluate on the variable node whose child is `a`. */
  function ReadVariable(a: Arithmetic, s: Store, lib: MathLibrary): (r: Evaluated<real>)
    requires Valid(s) && TargetsAreVariables(a)
    ensures r.Value? ==> SameShape(s, r.store)
    ensures r.Value? && ReadsOnly(a) ==> r.store == s
    decreases a, 4
  {
    var id := VariableId(a, s, lib);
    if id.Failure? then Failure(id.fault)
    else
      var v := Read(id.store, id.value);
      if v.None? then Failure(VariableNotFound) else Value(v.value, id.store)
  }

  /** VariableOperator::WriteVariable: the store's success flag. */
  function WriteVariable(a: Arithmetic, x: real, s: Store, lib: MathLibrary): (r: Evaluated<bool>)
    requires Valid(s) && TargetsAreVariables(a)
    ensures r.Value? ==> SameShape(s, r.store)
    decreases a, 4
  {
    var id := VariableId(a, s, lib);
    if id.Failure? then Failure(id.fault)
    else
      var w := Write(id.store, id.value, x);
      if w.Thrown? then Failure(w.fault) else Value(w.ok, w.state)
  }

  /** `r` is what the store's write `w` reports: its exception, or its
      success flag and the store it leaves. */
  predicate StoreFlag(w: Answer<Store>, r: Evaluated<bool>) {
    && (w.Thrown? ==> r == Failure(w.fault))
    && (w.Answer? ==> r == Value(w.ok, w.state))
  }

  /** An assignment's right side: the logical one if present, else the
      arithmetic one; neither is invalid_argument. */
  function EvaluateSource(src: AssignmentSource, s: Store, lib: MathLibrary): (r: Evaluated<real>)
    requires Valid(s) && SourceTargetsAreVariables(src)
    ensures r.Value? ==> Valid(r.store) && SameShape(s, r.store)
    ensures src.NoSource? ==> r == Failure(MissingOperand)
    ensures src.FromArithmetic? ==> r == EvaluateArithmetic(src.arithmetic, s, lib)
    decreases src, 1
  {
    match src {
      case FromLogical(l) =>
        var u := EvaluateLogical(l, s, lib);
        if u.Failure? then Failure(u.fault) else Value(u.value as real, u.store)
      case FromArithmetic(a) => EvaluateArithmetic(a, s, lib)
      case NoSource => Failure(MissingOperand)
    }
  }

  /** RelationalOperator::Evaluate and the six comparisons: left first,
      then right. */
  function EvaluateRelational(r: Relational, s: Store, lib: MathLibrary): (res: Evaluated<bool>)
    requires Valid(s) && RelationalTargetsAreVariables(r)
    ensures res.Value? ==> Valid(res.store) && SameShape(s, res.store)
    ensures res.Value? && RelationalReadsOnly(r) ==> res.store == s
    decreases r, 1
  {
    var x := EvaluateArithmetic(r.left, s, lib);
    if x.Failure? then Failure(x.fault)
    else
      var y := EvaluateArithmetic(r.right, x.store, lib);
      if y.Failure? then Failure(y.fault) else Value(Compare(r.kind, x.value, y.value), y.store)
  }

  /** An arithmetic operand of a logical node: its value cast to unsigned. */
  function UnsignedOf(a: Arithmetic, s: Store, lib: MathLibrary): (r: Evaluated<uint32>)
    requires Valid(s) && TargetsAreVariables(a)
    ensures r.Value? ==> SameShape(s, r.store)
    ensures UnsignedCast(EvaluateArithmetic(a, s, lib), r)
    ensures r.Value? && ReadsOnly(a) ==> r.store == s
    decreases a, 3
  {
    var x := EvaluateArithmetic(a, s, lib);
    if x.Failure? then Failure(x.fault)
    else
      var u := ToUnsigned(x.value);
      if u.None? then Failure(CastOutOfRange) else Value(u.value, x.store)
  }

  /** An operand of a logical node as `unsigned`: an arithmetic value is
      cast, a relational one is 0 or 1, a logical one is taken as is. */
  function EvaluateOperand(o: LogicalOperand, s: Store, lib: MathLibrary): (r: Evaluated<uint32>)
    requires Valid(s) && OperandTargetsAreVariables(o)
    ensures r.Value? ==> SameShape(s, r.store)
    ensures r.Value? && OperandReadsOnly(o) ==> r.store == s
    decreases o, 2
  {
    match o {
      case ArithmeticOperand(a) => UnsignedOf(a, s, lib)
      case RelationalOperand(rel) =>
        var b := EvaluateRelational(rel, s, lib);
        if b.Failure? then Failure(b.fault) else Value(BoolToUnsigned(b.value), b.store)
      case LogicalOperand(l) => EvaluateLogical(l, s, lib)
    }
  }

  /** Whether the source's LogicalOperator::Evaluate reads the right operand
      for this pair: not for an arithmetic left with a relational right, nor
      for a relational left with an arithmetic right, pairs no constructor
      builds. */
  predicate RightIsRead(l: Logical) {
    !(l.left.ArithmeticOperand? && l.right.RelationalOperand?)
    && !(l.left.RelationalOperand? && l.right.ArithmeticOperand?)
  }

  /** LogicalOperator::Evaluate then &, | or ^: left first, then right; an
      unread right operand keeps its initial 0. */
  function EvaluateLogical(l: Logical, s: Store, lib: MathLibrary): (r: Evaluated<uint32>)
    requires Valid(s) && LogicalTargetsAreVariables(l)
    ensures r.Value? ==> SameShape(s, r.store)
    ensures r.Value? && LogicalReadsOnly(l) ==> r.store == s
    decreases l, 3
  {
    var x := EvaluateOperand(l.left, s, lib);
    if x.Failure? then x
    else if !RightIsRead(l) then Value(Combine(l.kind, x.value, 0), x.store)
    else
      var y := EvaluateOperand(l.right, x.store, lib);
      if y.Failure? then y else Value(Combine(l.kind, x.value, y.value), y.store)
  }

  // ---------------------------------------------------------------------
  // Statement operators: IF ... THEN, IF ... GOTO, WHILE ... DO, END.

  /** The guard of a statement. Every constructor of the source sets at
      most one of the relational and the logical handle. */
  datatype Condition =
    | Unconditional
    | RelationalCondition(relational: Relational)
    | LogicalCondition(logical: Logical)

  predicate ConditionTargetsAreVariables(c: Condition) {
    match c
    case Unconditional => true
    case RelationalCondition(r) => RelationalTargetsAreVariables(r)
    case LogicalCondition(l) => LogicalTargetsAreVariables(l)
  }

  predicate ConditionReadsOnly(c: Condition) {
    match c
    case Unconditional => true
    case RelationalCondition(r) => RelationalReadsOnly(r)
    case LogicalCondition(l) => LogicalReadsOnly(l)
  }

  predicate OptionTargetsAreVariables(a: Option<Arithmetic>) {
    a.Some? ==> TargetsAreVariables(a.value)
  }

  /** A guard's truth: a relational result, a logical result other than 0,
      or true when there is no guard. */
  function EvaluateCondition(c: Condition, s: Store, lib: MathLibrary): (r: Evaluated<bool>)
    requires Valid(s) && ConditionTargetsAreVariables(c)
    ensures r.Value? ==> SameShape(s, r.store)
    ensures r.Value? && ConditionReadsOnly(c) ==> r.store == s
    ensures c.Unconditional? ==> r == Value(true, s)
  {
    match c {
      case Unconditional => Value(true, s)
      case RelationalCondition(rel) => EvaluateRelational(rel, s, lib)
      case LogicalCondition(l) =>
        var u := EvaluateLogical(l, s, lib);
        if u.Failure? then Failure(u.fault) else Value(u.value != 0, u.store)
    }
  }

  /** IF [condition] THEN arithmetic. */
  datatype ConditionalArithmetic = ConditionalArithmetic(condition: Condition, arithmetic: Option<Arithmetic>)
  {
    /** Neither guard, or no statement to run. */
    predicate Empty() {
      condition.Unconditional? || arithmetic.None?
    }

    ghost predicate WellFormed() {
      ConditionTargetsAreVariables(condition) && OptionTargetsAreVariables(arithmetic)
    }

    /** Clear: every handle reset. */
    function Clear(): (r: ConditionalArithmetic)
      ensures r.Empty() && r.condition.Unconditional? && r.arithmetic.None?
    {
      ConditionalArithmetic(Unconditional, None)
    }

    /** Evaluate: false for an empty statement; otherwise the guard, and
        the statement only when the guard holds. */
    function Evaluate(s: Store, lib: MathLibrary): (r: Evaluated<bool>)
      requires Valid(s) && WellFormed()
      ensures r.Value? ==> SameShape(s, r.store)
      ensures Empty() ==> r == Value(false, s)
      ensures !Empty() && EvaluateCondition(condition, s, lib).Failure? ==> r.Failure?
      ensures !Empty() && EvaluateCondition(condition, s, lib).Value? ==>
        var g := EvaluateCondition(condition, s, lib);
        if !g.value then r == Value(false, g.store)
        else
          var x := EvaluateArithmetic(arithmetic.value, g.store, lib);
          (x.Failure? ==> r == Failure(x.fault)) && (x.Value? ==> r == Value(true, x.store))
      ensures r.Value? && !r.value && ConditionReadsOnly(condition) ==> r.store == s
    {
      if Empty() then Value(false, s)
      else
        var g := EvaluateCondition(condition, s, lib);
        if g.Failure? then Failure(g.fault)
        else if !g.value then Value(false, g.store)
        else
          var x := EvaluateArithmetic(arithmetic.value, g.store, lib);
          if x.Failure? then Failure(x.fault) else Value(true, x.store)
    }

    /** ArithmeticValue: the statement evaluated once more. */
    function ArithmeticValue(s: Store, lib: MathLibrary): (r: Evaluated<real>)
      requires Valid(s) && WellFormed() && arithmetic.Some?
      ensures r.Value? ==> SameShape(s, r.store)
    {
      EvaluateArithmetic(arithmetic.value, s, lib)
    }
  }

  /** IF [condition] GOTO n, and the unconditional GOTO n. */
  datatype ConditionalBranch = ConditionalBranch(condition: Condition, arithmetic: Option<Arithmetic>)
  {
    /** No sequence-number expression. */
    predicate Empty() {
      arithmetic.None?
    }

    ghost predicate WellFormed() {
      ConditionTargetsAreVariables(condition) && OptionTargetsAreVariables(arithmetic)
    }

    function Clear(): (r: ConditionalBranch)
      ensures r.Empty() && r.condition.Unconditional?
    {
      ConditionalBranch(Unconditional, None)
    }

    /** Evaluate: whether the jump is taken. */
    function Evaluate(s: Store, lib: MathLibrary): (r: Evaluated<bool>)
      requires Valid(s) && WellFormed()
      ensures r.Value? ==> SameShape(s, r.store)
      ensures Empty() ==> r == Value(false, s)
      ensures !Empty() ==> r == EvaluateCondition(condition, s, lib)
      ensures !Empty() && condition.Unconditional? ==> r == Value(true, s)
    {
      if Empty() then Value(false, s) else EvaluateCondition(condition, s, lib)
    }

    /** BranchNumber: the target sequence number, 0 when empty, the value
        truncated to `int` otherwise. */
    function BranchNumber(s: Store, lib: MathLibrary): (r: Evaluated<int>)
      requires Valid(s) && WellFormed()
      ensures r.Value? ==> SameShape(s, r.store)
      ensures Empty() ==> r == Value(0, s)
      ensures !Empty() && r.Value? ==> -0x8000_0000 <= r.value < 0x8000_0000
      ensures !Empty() ==>
        var x := EvaluateArithmetic(arithmetic.value, s, lib);
        (x.Failure? ==> r == Failure(x.fault))
        && (x.Value? && ToInt(x.value).None? ==> r == Failure(CastOutOfRange))
        && (x.Value? && ToInt(x.value).Some? ==> r == Value(Truncate(x.value), x.store))
    {
      if Empty() then Value(0, s)
      else
        var x := EvaluateArithmetic(arithmetic.value, s, lib);
        if x.Failure? then Failure(x.fault)
        else
          var n := ToInt(x.value);
          if n.None? then Failure(CastOutOfRange) else Value(n.value, x.store)
    }
  }

  /** WHILE [condition] DO n. */
  datatype ConditionalLoop = ConditionalLoop(condition: Condition, arithmetic: Option<Arithmetic>)
  {
    /** No loop-number expression. */
    predicate Empty() {
      arithmetic.None?
    }

    ghost predicate WellFormed() {
      ConditionTargetsAreVariables(condition) && OptionTargetsAreVariables(arithmetic)
    }

    function Clear(): (r: ConditionalLoop)
      ensures r.Empty() && r.condition.Unconditional?
    {
      ConditionalLoop(Unconditional, None)
    }

    /** Evaluate: whether the loop body runs again. */
    function Evaluate(s: Store, lib: MathLibrary): (r: Evaluated<bool>)
      requires Valid(s) && WellFormed()
      ensures r.Value? ==> SameShape(s, r.store)
      ensures Empty() ==> r == Value(false, s)
      ensures !Empty() ==> r == EvaluateCondition(condition, s, lib)
    {
      if Empty() then Value(false, s) else EvaluateCondition(condition, s, lib)
    }

    /** LoopNumber: the DO number, 0 when empty, the value truncated to an
        unsigned short otherwise. */
    function LoopNumber(s: Store, lib: MathLibrary): (r: Evaluated<ushort>)
      requires Valid(s) && WellFormed()
      ensures r.Value? ==> SameShape(s, r.store)
      ensures Empty() ==> r == Value(0, s)
      ensures !Empty() ==> UnsignedShortCast(EvaluateArithmetic(arithmetic.value, s, lib), r)
    {
      if Empty() then Value(0, s) else VariableId(arithmetic.value, s, lib)
    }
  }

  /** END n. */
  datatype LoopEnd = LoopEnd(arithmetic: Option<Arithmetic>)
  {
    predicate Empty() {
      arithmetic.None?
    }

    function Clear(): (r: LoopEnd)
      ensures r.Empty()
    {
      LoopEnd(None)
    }

    /** Evaluate: the END number, 0 when empty. */
    function Evaluate(s: Store, lib: MathLibrary): (r: Evaluated<ushort>)
      requires Valid(s) && OptionTargetsAreVariables(arithmetic)
      ensures r.Value? ==> SameShape(s, r.store)
      ensures Empty() ==> r == Value(0, s)
      ensures !Empty() ==> UnsignedShortCast(EvaluateArithmetic(arithmetic.value, s, lib), r)
    {
      if Empty() then Value(0, s) else VariableId(arithmetic.value, s, lib)
    }
  }

  /** VariableOperator::Evaluate: the ID's error, VariableNotFound for an
      ID that no namespace owns, and otherwise the value the store holds. */
  lemma ReadVariableOutcome(a: Arithmetic, s: Store, lib: MathLibrary)
    requires Valid(s) && TargetsAreVariables(a)
    ensures var id := VariableId(a, s, lib);
            var r := ReadVariable(a, s, lib);
            (id.Failure? ==> r == Failure(id.fault))
            && (id.Value? && Read(id.store, id.value).None? ==> r == Failure(VariableNotFound))
            && (id.Value? && Read(id.store, id.value).Some? ==> r == Value(Read(id.store, id.value).value, id.store))
  {
  }

  /** VariableOperator::WriteVariable: the ID's error, or what the store's
      write reports. */
  lemma WriteVariableFlag(a: Arithmetic, x: real, s: Store, lib: MathLibrary)
    requires Valid(s) && TargetsAreVariables(a)
    ensures var id := VariableId(a, s, lib);
            var r := WriteVariable(a, x, s, lib);
            (id.Failure? ==> r == Failure(id.fault))
            && (id.Value? ==> StoreFlag(Write(id.store, id.value, x), r))
  {
  }

  /** `r` is what `static_cast<unsigned short>` of the evaluated value `x`
      gives: `x`'s error, the truncated value when it fits, and
      CastOutOfRange when it does not. */
  predicate UnsignedShortCast(x: Evaluated<real>, r: Evaluated<ushort>) {
    && (x.Failure? ==> r == Failure(x.fault))
    && (x.Value? && !(-1.0 < x.value < 65536.0) ==> r == Failure(CastOutOfRange))
    && (x.Value? && -1.0 < x.value < 65536.0 ==> r == Value(Truncate(x.value), x.store))
  }

  /** The same for `static_cast<unsigned>`. */
  predicate UnsignedCast(x: Evaluated<real>, r: Evaluated<uint32>) {
    && (x.Failure? ==> r == Failure(x.fault))
    && (x.Value? && !(-1.0 < x.value < 4294967296.0) ==> r == Failure(CastOutOfRange))
    && (x.Value? && -1.0 < x.value < 4294967296.0 ==> r == Value(Truncate(x.value), x.store))
  }

  // ---------------------------------------------------------------------
  // Properties of evaluation.

  /** An assignment to a local or common variable with a constant ID
      stores the right side's value and yields it. */
  lemma {:induction false} AssignmentStoresItsValue(id: ushort, src: AssignmentSource, s: Store, lib: MathLibrary)
    requires Valid(s) && SourceTargetsAreVariables(src)
    // the same fact about the node, spelled out for its evaluation below
    requires TargetsAreVariables(Assignment(VariableAt(Constant(id as real)), src))
    requires 0 < id <= ScopeEnd || 100 <= id <= 199 || 500 <= id <= 999
    requires EvaluateSource(src, s, lib).Value?
    ensures var x := EvaluateSource(src, s, lib);
            var r := EvaluateArithmetic(Assignment(VariableAt(Constant(id as real)), src), s, lib);
            r.Value? && r.value == x.value
            && Read(r.store, id) == Some(x.value)
            && r.store == Write(x.store, id, x.value).state
  {
    var x := EvaluateSource(src, s, lib);
    var target := Constant(id as real);
    assert ToUnsignedShort(id as real) == Some(id);
    OwnedWriteSucceeds(x.store, id, x.value);
    var written := Write(x.store, id, x.value).state;
    assert VariableId(target, x.store, lib) == Value(id, x.store);
    assert WriteVariable(target, x.value, x.store, lib) == Value(true, written);
    ReadAfterWrite(x.store, id, x.value);
    assert VariableId(target, written, lib) == Value(id, written);
    assert ReadVariable(target, written, lib) == Value(x.value, written);
  }

  /** Writing #0 through an assignment raises the read-only error. */
  lemma AssignmentToNullVariableFails(src: AssignmentSource, s: Store, lib: MathLibrary)
    requires Valid(s) && SourceTargetsAreVariables(src)
    requires EvaluateSource(src, s, lib).Value?
    ensures EvaluateArithmetic(Assignment(VariableAt(Constant(0.0)), src), s, lib) == Failure(ReadOnlyVariable)
  {
    assert ToUnsignedShort(0.0) == Some(0);
  }

  // ---------------------------------------------------------------------
  // Behaviour on a freshly built interface, block by block.

  /** "#<id>": a variable node whose ID is a constant. */
  function Var(id: real): (r: Arithmetic)
    ensures TargetsAreVariables(r) && ReadsOnly(r)
  {
    VariableAt(Constant(id))
  }

  /** "-#1" is the negated sentinel and "#33" the sentinel itself. */
  lemma UnsetVariablesReadNull(system: SystemVariable, lib: MathLibrary)
    ensures var s := InitialStore(system);
            EvaluateArithmetic(Minus(Var(1.0)), s, lib) == Value(-NullValue, s)
            && EvaluateArithmetic(Var(33.0), s, lib) == Value(NullValue, s)
            && EvaluateArithmetic(Var(0.0), s, lib) == Value(NullValue, s)
  {
    var s := InitialStore(system);
    assert ToUnsignedShort(1.0) == Some(1);
    assert ToUnsignedShort(33.0) == Some(33);
    assert ToUnsignedShort(0.0) == Some(0);
  }

  /** "#1=5.0" yields 5.0 and leaves #1 holding it. */
  lemma AssignmentBlock(system: SystemVariable, lib: MathLibrary)
    ensures var r := EvaluateArithmetic(Assignment(Var(1.0), FromArithmetic(Constant(5.0))), InitialStore(system), lib);
            r.Value? && r.value == 5.0 && Read(r.store, 1) == Some(5.0)
  {
    AssignmentStoresItsValue(1, FromArithmetic(Constant(5.0)), InitialStore(system), lib);
  }

  /** Two unset variables are equal, and an unset variable is above 0. */
  lemma UnsetVariablesCompare(system: SystemVariable, lib: MathLibrary)
    ensures var s := InitialStore(system);
            EvaluateRelational(Relational(Equal, Var(1.0), Var(2.0)), s, lib) == Value(true, s)
            && EvaluateRelational(Relational(NotEqual, Var(1.0), Constant(0.0)), s, lib) == Value(true, s)
            && EvaluateRelational(Relational(Greater, Var(1.0), Constant(0.0)), s, lib) == Value(true, s)
            && EvaluateRelational(Relational(GreaterEqual, Var(1.0), Var(2.0)), s, lib) == Value(true, s)
            && EvaluateRelational(Relational(LessEqual, Var(1.0), Var(2.0)), s, lib) == Value(true, s)
            && EvaluateRelational(Relational(Less, Var(1.0), Var(2.0)), s, lib) == Value(false, s)
  {
    var s := InitialStore(system);
    assert ToUnsignedShort(1.0) == Some(1);
    assert ToUnsignedShort(2.0) == Some(2);
    assert EvaluateArithmetic(Var(1.0), s, lib) == Value(NullValue, s);
    assert EvaluateArithmetic(Var(2.0), s, lib) == Value(NullValue, s);
  }

  /** A variable node with a constant ID reads the store; an ID that no
      namespace owns raises out_of_range. */
  lemma ConstantIdReads(id: ushort, s: Store, lib: MathLibrary)
    requires Valid(s)
    ensures Read(s, id).Some? ==> EvaluateArithmetic(Var(id as real), s, lib) == Value(Read(s, id).value, s)
    ensures Read(s, id).None? ==> EvaluateArithmetic(Var(id as real), s, lib) == Failure(VariableNotFound)
  {
    assert ToUnsignedShort(id as real) == Some(id);
    assert VariableId(Constant(id as real), s, lib) == Value(id, s);
  }

  /** Writing through a variable node with a constant ID reports the
      store's flag; only #0 raises the read-only error. */
  lemma ConstantIdWrites(id: ushort, x: real, s: Store, lib: MathLibrary)
    requires Valid(s)
    ensures var w := WriteVariable(Constant(id as real), x, s, lib);
            StoreFlag(Write(s, id, x), w)
            && (w == Failure(ReadOnlyVariable) <==> id == 0)
  {
    assert ToUnsignedShort(id as real) == Some(id);
    assert VariableId(Constant(id as real), s, lib) == Value(id, s);
  }

  /** An assignment without a right side raises invalid_argument before
      anything is evaluated or written. */
  lemma MissingSourceFails(t: Arithmetic, s: Store, lib: MathLibrary)
    requires Valid(s) && TargetsAreVariables(Assignment(t, NoSource))
    ensures EvaluateArithmetic(Assignment(t, NoSource), s, lib) == Failure(MissingOperand)
  {
  }

  /** A logical node over two arithmetic operands casts each value to
      `unsigned`, left first, and combines the two; a value outside the
      `unsigned` range is CastOutOfRange. */
  lemma {:induction false} ArithmeticOperandsCombine(k: LogicalKind, a: Arithmetic, b: Arithmetic, s: Store, lib: MathLibrary)
    requires Valid(s) && TargetsAreVariables(a) && TargetsAreVariables(b)
    // the same fact about the node, spelled out for its evaluation below
    requires LogicalTargetsAreVariables(Logical(k, ArithmeticOperand(a), ArithmeticOperand(b)))
    ensures var l := EvaluateLogical(Logical(k, ArithmeticOperand(a), ArithmeticOperand(b)), s, lib);
            var x := EvaluateArithmetic(a, s, lib);
            (x.Failure? ==> l == Failure(x.fault))
            && (x.Value? && !(-1.0 < x.value < 4294967296.0) ==> l == Failure(CastOutOfRange))
            && (x.Value? && -1.0 < x.value < 4294967296.0 ==>
                  var y := EvaluateArithmetic(b, x.store, lib);
                  (y.Failure? ==> l == Failure(y.fault))
                  && (y.Value? && !(-1.0 < y.value < 4294967296.0) ==> l == Failure(CastOutOfRange))
                  && (y.Value? && -1.0 < y.value < 4294967296.0 ==>
                        l == Value(Combine(k, Truncate(x.value), Truncate(y.value)), y.store)))
  {
    var x := EvaluateArithmetic(a, s, lib);
    assert RightIsRead(Logical(k, ArithmeticOperand(a), ArithmeticOperand(b)));
    assert EvaluateOperand(ArithmeticOperand(a), s, lib) == UnsignedOf(a, s, lib);
    if x.Value? && -1.0 < x.value < 4294967296.0 {
      assert EvaluateOperand(ArithmeticOperand(b), x.store, lib) == UnsignedOf(b, x.store, lib);
    }
  }

  /** After "#i=ci" and "#j=cj" on two distinct owned variables, a
      comparison [#i op #j] compares ci with cj. */
  lemma CompareAfterAssignments(op: RelationalKind, i: ushort, j: ushort, ci: real, cj: real, s: Store, lib: MathLibrary)
    requires Valid(s) && i != j
    requires 0 < i <= ScopeEnd || 100 <= i <= 199 || 500 <= i <= 999
    requires 0 < j <= ScopeEnd || 100 <= j <= 199 || 500 <= j <= 999
    ensures var a := EvaluateArithmetic(Assignment(Var(i as real), FromArithmetic(Constant(ci))), s, lib);
            a.Value?
            && var b := EvaluateArithmetic(Assignment(Var(j as real), FromArithmetic(Constant(cj))), a.store, lib);
            b.Value? && EvaluateRelational(Relational(op, Var(i as real), Var(j as real)), b.store, lib) == Value(Compare(op, ci, cj), b.store)
  {
    ConstantAssignment(i, ci, s, lib);
    var a := EvaluateArithmetic(Assignment(Var(i as real), FromArithmetic(Constant(ci))), s, lib);
    ConstantAssignment(j, cj, a.store, lib);
    var t := TwoWrites(s, i, j, ci, cj);
    VariablesCompare(op, i, j, t, lib);
  }

  /** Two owned writes to distinct IDs are both read back. */
  lemma TwoWrites(s: Store, i: ushort, j: ushort, ci: real, cj: real) returns (t: Store)
    requires Valid(s) && i != j
    requires 0 < i <= ScopeEnd || 100 <= i <= 199 || 500 <= i <= 999
    requires 0 < j <= ScopeEnd || 100 <= j <= 199 || 500 <= j <= 999
    ensures Write(s, i, ci).Answer? && Write(Write(s, i, ci).state, j, cj).Answer?
    ensures t == Write(Write(s, i, ci).state, j, cj).state
    ensures Valid(t) && Read(t, i) == Some(ci) && Read(t, j) == Some(cj)
  {
    OwnedWriteSucceeds(s, i, ci);
    var a := Write(s, i, ci).state;
    ReadAfterWrite(s, i, ci);
    OwnedWriteSucceeds(a, j, cj);
    t := Write(a, j, cj).state;
    ReadAfterWrite(a, j, cj);
    WriteLeavesOtherIds(a, j, cj, i);
  }

  /** "#<id>=<c>" with a constant stores c in an owned variable. */
  lemma ConstantAssignment(id: ushort, c: real, s: Store, lib: MathLibrary)
    requires Valid(s)
    requires 0 < id <= ScopeEnd || 100 <= id <= 199 || 500 <= id <= 999
    ensures var r := EvaluateArithmetic(Assignment(Var(id as real), FromArithmetic(Constant(c))), s, lib);
            r.Value? && r.value == c && Valid(r.store)
            && Read(r.store, id) == Some(c) && r.store == Write(s, id, c).state
  {
    assert EvaluateSource(FromArithmetic(Constant(c)), s, lib) == Value(c, s);
    AssignmentStoresItsValue(id, FromArithmetic(Constant(c)), s, lib);
  }

  /** A comparison of two variables with constant IDs compares the values
      the store holds for them. */
  lemma VariablesCompare(op: RelationalKind, i: ushort, j: ushort, s: Store, lib: MathLibrary)
    requires Valid(s) && Read(s, i).Some? && Read(s, j).Some?
    ensures EvaluateRelational(Relational(op, Var(i as real), Var(j as real)), s, lib)
         == Value(Compare(op, Read(s, i).value, Read(s, j).value), s)
  {
    ConstantIdReads(i, s, lib);
    ConstantIdReads(j, s, lib);
  }

  /** A relation whose operands only read the store evaluates both on the
      same store, which it leaves as it was: the value is the comparison of
      the operands' values, and an error in either operand is the relation's. */
  lemma {:induction false} ReadOnlyRelation(r: Relational, s: Store, lib: MathLibrary)
    requires Valid(s) && RelationalTargetsAreVariables(r) && RelationalReadsOnly(r)
    ensures var x := EvaluateArithmetic(r.left, s, lib);
            var y := EvaluateArithmetic(r.right, s, lib);
            var res := EvaluateRelational(r, s, lib);
            (x.Failure? ==> res == Failure(x.fault))
            && (x.Value? && y.Failure? ==> res == Failure(y.fault))
            && (x.Value? && y.Value? ==> res == Value(Compare(r.kind, x.value, y.value), s))
  {
    var x := EvaluateArithmetic(r.left, s, lib);
    if x.Value? {
      assert x.store == s;
    }
  }

  /** A logical node over two relations, `[[a op b] AND [c op d]]` and the
      like: the relations are evaluated left then right, and the node
      yields 1 or 0 as the boolean connective of their truth values
      (XOR being inequality); an error in either relation is the node's. */
  lemma {:induction false} RelationsCombine(k: LogicalKind, r1: Relational, r2: Relational, s: Store, lib: MathLibrary)
    requires Valid(s) && RelationalTargetsAreVariables(r1) && RelationalTargetsAreVariables(r2)
    // the same fact about the node, spelled out for its evaluation below
    requires LogicalTargetsAreVariables(Logical(k, RelationalOperand(r1), RelationalOperand(r2)))
    ensures var l := EvaluateLogical(Logical(k, RelationalOperand(r1), RelationalOperand(r2)), s, lib);
            var x := EvaluateRelational(r1, s, lib);
            (x.Failure? ==> l == Failure(x.fault))
            && (x.Value? ==>
                  var y := EvaluateRelational(r2, x.store, lib);
                  (y.Failure? ==> l == Failure(y.fault))
                  && (y.Value? && k == And ==> l == Value(BoolToUnsigned(x.value && y.value), y.store))
                  && (y.Value? && k == Or ==> l == Value(BoolToUnsigned(x.value || y.value), y.store))
                  && (y.Value? && k == Xor ==> l == Value(BoolToUnsigned(x.value != y.value), y.store)))
  {
    var x := EvaluateRelational(r1, s, lib);
    assert RightIsRead(Logical(k, RelationalOperand(r1), RelationalOperand(r2)));
    if x.Value? {
      assert EvaluateOperand(RelationalOperand(r1), s, lib) == Value(BoolToUnsigned(x.value), x.store);
      var y := EvaluateRelational(r2, x.store, lib);
      if y.Value? {
        assert EvaluateOperand(RelationalOperand(r2), x.store, lib) == Value(BoolToUnsigned(y.value), y.store);
        CombineOnBits(x.value, y.value);
      }
    }
  }

  /** [1 AND 1], [1 OR 0] and [1 XOR 0] are all 1. */
  lemma LogicalOnConstants(s: Store, lib: MathLibrary)
    requires Valid(s)
    ensures EvaluateLogical(Logical(And, ArithmeticOperand(Constant(1.0)), ArithmeticOperand(Constant(1.0))), s, lib) == Value(1, s)
    ensures EvaluateLogical(Logical(Or, ArithmeticOperand(Constant(1.0)), ArithmeticOperand(Constant(0.0))), s, lib) == Value(1, s)
    ensures EvaluateLogical(Logical(Xor, ArithmeticOperand(Constant(1.0)), ArithmeticOperand(Constant(0.0))), s, lib) == Value(1, s)
  {
    assert ToUnsigned(1.0) == Some(1);
    assert ToUnsigned(0.0) == Some(0);
    CombineOnBits(true, true);
    CombineOnBits(true, false);
  }

  /** "IF[#1 EQ #2] THEN #1=1": the guard holds on unset variables, the
      assignment runs and its value is then 1. */
  lemma IfThenBlock(system: SystemVariable, lib: MathLibrary)
    ensures var s := InitialStore(system);
            var c := ConditionalArithmetic(
              RelationalCondition(Relational(Equal, Var(1.0), Var(2.0))),
              Some(Assignment(Var(1.0), FromArithmetic(Constant(1.0)))));
            var r := c.Evaluate(s, lib);
            r.Value? && r.value && Read(r.store, 1) == Some(1.0)
            && c.ArithmeticValue(r.store, lib).Value? && c.ArithmeticValue(r.store, lib).value == 1.0
  {
    var s := InitialStore(system);
    UnsetVariablesCompare(system, lib);
    assert EvaluateCondition(RelationalCondition(Relational(Equal, Var(1.0), Var(2.0))), s, lib) == Value(true, s);
    GuardedAssignmentRuns(RelationalCondition(Relational(Equal, Var(1.0), Var(2.0))), 1, 1.0, s, lib);
  }

  /** Once the guard of "IF[guard] THEN #id=v" holds and reads only, the
      assignment runs and leaves `v` in #id. */
  lemma GuardedAssignmentRuns(guard: Condition, id: ushort, v: real, s: Store, lib: MathLibrary)
    requires Valid(s) && !guard.Unconditional? && ConditionTargetsAreVariables(guard)
    requires 0 < id <= ScopeEnd || 100 <= id <= 199 || 500 <= id <= 999
    requires EvaluateCondition(guard, s, lib) == Value(true, s)
    ensures var c := ConditionalArithmetic(guard, Some(Assignment(Var(id as real), FromArithmetic(Constant(v)))));
            var r := c.Evaluate(s, lib);
            r.Value? && r.value && Read(r.store, id) == Some(v)
            && c.ArithmeticValue(r.store, lib).Value? && c.ArithmeticValue(r.store, lib).value == v
  {
    var e := Assignment(Var(id as real), FromArithmetic(Constant(v)));
    var c := ConditionalArithmetic(guard, Some(e));
    ConstantAssignment(id, v, s, lib);
    var r := EvaluateArithmetic(e, s, lib);
    assert c.Evaluate(s, lib) == Value(true, r.store);
    ConstantAssignment(id, v, r.store, lib);
    assert c.ArithmeticValue(r.store, lib) == EvaluateArithmetic(e, r.store, lib);
  }

  /** "IF[#1 EQ #2] GOTO 13", "WHILE[#1 EQ #2] DO 3" and "END 3". */
  lemma JumpNumbers(system: SystemVariable, lib: MathLibrary)
    ensures var s := InitialStore(system);
            var guard := RelationalCondition(Relational(Equal, Var(1.0), Var(2.0)));
            ConditionalBranch(guard, Some(Constant(13.0))).Evaluate(s, lib) == Value(true, s)
            && ConditionalBranch(guard, Some(Constant(13.0))).BranchNumber(s, lib) == Value(13, s)
            && ConditionalLoop(guard, Some(Constant(3.0))).Evaluate(s, lib) == Value(true, s)
            && ConditionalLoop(guard, Some(Constant(3.0))).LoopNumber(s, lib) == Value(3, s)
            && LoopEnd(Some(Constant(3.0))).Evaluate(s, lib) == Value(3, s)
  {
    UnsetVariablesCompare(system, lib);
    assert ToInt(13.0) == Some(13);
    assert Truncate(3.0) == 3;
  }
}
