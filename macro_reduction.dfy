// The reductions of the macro expression generator: each turns the pending
// symbols and operands of one nesting level into operator nodes. They are
// stated here as functions of a context; the generator class runs the same
// loops in place and is proved against them.
module MacroReduction {
  import opened MacroValues
  import opened MacroOperator
  import opened MacroContext
  import opened NumberDefinition

  /** The number format of macro constants: one to fifteen digits, a
      leading zero and calculator-type decimals allowed, magnitudes from
      DBL_MIN to DBL_MAX, increment 0.001. */
  const MacroFloatFormat: FloatFormat := FloatFormat(true, true, 15, 1, DoubleMax, NullValue, 0.001)

  // ---------------------------------------------------------------------
  // Operand sequences

  predicate AllArithmetic(hs: seq<GeneralOperatorHandle>) {
    forall i :: 0 <= i < |hs| ==> hs[i].ArithmeticHandle?
  }

  /** The arithmetic nodes of an all-arithmetic operand sequence. */
  function Arguments(hs: seq<GeneralOperatorHandle>): (r: seq<Arithmetic>)
    requires AllArithmetic(hs)
    ensures |r| == |hs|
  {
    seq(|hs|, i requires 0 <= i < |hs| => hs[i].arithmetic)
  }

  /** A handle as the operand of a logical node. */
  function AsOperand(h: GeneralOperatorHandle): LogicalOperand {
    match h
    case ArithmeticHandle(a) => ArithmeticOperand(a)
    case RelationalHandle(r) => RelationalOperand(r)
    case LogicalHandle(l) => LogicalOperand(l)
  }

  function AsOperands(hs: seq<GeneralOperatorHandle>): (r: seq<LogicalOperand>)
    ensures |r| == |hs|
  {
    if hs == [] then [] else [AsOperand(hs[0])] + AsOperands(hs[1..])
  }

  /** The pairs a logical node has a constructor for: every pair except an
      arithmetic operand beside a relational one. */
  predicate Pairs(l: GeneralOperatorHandle, r: GeneralOperatorHandle) {
    !(l.ArithmeticHandle? && r.RelationalHandle?) && !(l.RelationalHandle? && r.ArithmeticHandle?)
  }

  /** `x` in front of the deque when there is one. */
  function Prepend<T>(x: Option<T>, s: seq<T>): (r: seq<T>)
    ensures x.None? ==> r == s
    ensures x.Some? ==> r == [x.value] + s
  {
    if x.Some? then [x.value] + s else s
  }

  /** The context with the operand deque of its current mode replaced. */
  function WithOperands(c: Context, hs: seq<GeneralOperatorHandle>): (r: Context)
    ensures r.Operands() == hs && r.InPriorityMode() == c.InPriorityMode()
  {
    if c.InPriorityMode() then c.(priorityGeneral := hs) else c.(general := hs)
  }

  // ---------------------------------------------------------------------
  // Left-associative chains: the reference meaning of `a op b op c ...`

  /** `xs[0] ops[0] xs[1] ops[1] ... xs[n]`, grouped from the left. */
  function LeftChain(xs: seq<Arithmetic>, ops: seq<BinaryFunction>): Arithmetic
    requires |xs| == |ops| + 1
    decreases |ops|
  {
    if ops == [] then xs[0]
    else Binary(Top(ops), LeftChain(Pop(xs), Pop(ops)), Top(xs))
  }

  /** Folding the first two operands first leaves the same chain. */
  lemma {:induction false} LeftChainStep(xs: seq<Arithmetic>, ops: seq<BinaryFunction>)
    requires |xs| == |ops| + 1 && |ops| >= 1
    ensures LeftChain([Binary(ops[0], xs[0], xs[1])] + xs[2..], ops[1..]) == LeftChain(xs, ops)
    decreases |ops|
  {
    if |ops| > 1 {
      var n := |ops|;
      var ys := [Binary(ops[0], xs[0], xs[1])] + xs[2..];
      LeftChainStep(Pop(xs), Pop(ops));
      assert Pop(xs)[2..] == xs[2..n] && Pop(ops)[1..] == ops[1..n - 1];
      assert Pop(ys) == [Binary(ops[0], xs[0], xs[1])] + xs[2..n];
      assert Pop(ops[1..]) == ops[1..n - 1];
    }
  }

  /** `xs[0] ks[0] xs[1] ks[1] ... xs[n]`, logical operators grouped from
      the left. */
  function LogicalChain(xs: seq<LogicalOperand>, ks: seq<LogicalKind>): Logical
    requires |xs| == |ks| + 1 && |ks| >= 1
    decreases |ks|
  {
    if |ks| == 1 then Logical(ks[0], xs[0], xs[1])
    else Logical(Top(ks), LogicalOperand(LogicalChain(Pop(xs), Pop(ks))), Top(xs))
  }

  lemma {:induction false} LogicalChainStep(xs: seq<LogicalOperand>, ks: seq<LogicalKind>)
    requires |xs| == |ks| + 1 && |ks| >= 2
    ensures LogicalChain([LogicalOperand(Logical(ks[0], xs[0], xs[1]))] + xs[2..], ks[1..]) == LogicalChain(xs, ks)
    decreases |ks|
  {
    var n := |ks|;
    var ys := [LogicalOperand(Logical(ks[0], xs[0], xs[1]))] + xs[2..];
    if n > 2 {
      LogicalChainStep(Pop(xs), Pop(ks));
      assert Pop(xs)[2..] == xs[2..n] && Pop(ks)[1..] == ks[1..n - 1];
      assert Pop(ys) == [LogicalOperand(Logical(ks[0], xs[0], xs[1]))] + xs[2..n];
      assert Pop(ks[1..]) == ks[1..n - 1];
    } else {
      assert Pop(xs) == xs[..2] && Pop(ks) == [ks[0]];
      assert ys == [LogicalOperand(Logical(ks[0], xs[0], xs[1])), xs[2]];
    }
  }

  // ---------------------------------------------------------------------
  // Literals and unary symbols

  /** CreateDigitString: a pending unary minus is folded into the literal. */
  function CreateDigitString(c: Context, digits: string): (r: Context)
    ensures r.digitString != []
    ensures Pop(r.digitString) == c.digitString
    ensures var negative := c.unaryAddress != [] && Top(c.unaryAddress) == '-';
            Top(r.digitString) == (if negative then "-" else "") + digits
            && r.unaryAddress == (if negative then Pop(c.unaryAddress) else c.unaryAddress)
    ensures r.(digitString := c.digitString, unaryAddress := c.unaryAddress) == c
  {
    if c.unaryAddress != [] && Top(c.unaryAddress) == '-' then
      c.(digitString := c.digitString + ["-" + digits], unaryAddress := Pop(c.unaryAddress))
    else c.(digitString := c.digitString + [digits])
  }

  /** CreateConstantOperator: the top literal becomes a constant operand of
      the current mode; a literal the macro format rejects changes nothing. */
  function CreateConstant(c: Context): (r: Done<Context>)
    requires c.digitString != []
    ensures r.ok <==> ParseFloat(MacroFloatFormat, Top(c.digitString)).Some?
    ensures !r.ok ==> r.state == c
    ensures r.ok ==> r.state == c.PushOperand(ArithmeticHandle(Constant(ParseFloat(MacroFloatFormat, Top(c.digitString)).value))).(digitString := Pop(c.digitString))
  {
    var v := ParseFloat(MacroFloatFormat, Top(c.digitString));
    if v.None? then Done(c, false)
    else Done(c.PushOperand(ArithmeticHandle(Constant(v.value))).(digitString := Pop(c.digitString)), true)
  }

  /** The node a unary symbol puts around its operand. */
  function ApplyUnary(symbol: char, a: Arithmetic): Arithmetic {
    if symbol == '#' then VariableAt(a) else Minus(a)
  }

  /** The reference meaning of unary symbols written in front of an operand:
      the leftmost applies last. */
  function Prefixed(symbols: seq<char>, a: Arithmetic): Arithmetic {
    if symbols == [] then a else ApplyUnary(symbols[0], Prefixed(symbols[1..], a))
  }

  lemma {:induction false} PrefixedSnoc(symbols: seq<char>, a: Arithmetic)
    requires symbols != []
    ensures Prefixed(symbols, a) == Prefixed(Pop(symbols), ApplyUnary(Top(symbols), a))
  {
    if |symbols| > 1 {
      PrefixedSnoc(symbols[1..], a);
      assert Pop(symbols[1..]) == Pop(symbols)[1..];
    }
  }

  /** CreateUnaryAddressOperator: pops the symbol stack, wrapping the last
      operand of the current mode each time; `applied` says whether one was
      applied before. */
  function UnaryAddressFold(c: Context, applied: bool): (r: Done<Context>)
    ensures r.state.InPriorityMode() == c.InPriorityMode()
    ensures r.state.(unaryAddress := c.unaryAddress, general := c.general, priorityGeneral := c.priorityGeneral) == c
    decreases |c.unaryAddress|
  {
    if c.unaryAddress == [] then Done(c, applied)
    else
      var operands := c.Operands();
      var symbol := Top(c.unaryAddress);
      if symbol != '#' && symbol != '-' then Done(c, false)
      else if operands == [] || !Top(operands).ArithmeticHandle? then Done(c, false)
      else
        var wrapped := ArithmeticHandle(ApplyUnary(symbol, Top(operands).arithmetic));
        UnaryAddressFold(WithOperands(c.(unaryAddress := Pop(c.unaryAddress)), Pop(operands) + [wrapped]), true)
  }

  /** CreateUnaryAddressOperator: with nothing pending it fails unchanged;
      pending '#' and '-' over a waiting arithmetic operand all apply to it,
      innermost last written, and the symbol stack empties. */
  function CreateUnaryAddress(c: Context): (r: Done<Context>)
    ensures c.unaryAddress == [] ==> r == Done(c, false)
    ensures r.state.InPriorityMode() == c.InPriorityMode()
    ensures r.state.(unaryAddress := c.unaryAddress, general := c.general, priorityGeneral := c.priorityGeneral) == c
    ensures c.unaryAddress != [] && AllUnary(c.unaryAddress) && c.Operands() != [] && Top(c.Operands()).ArithmeticHandle? ==>
              r.ok && r.state.unaryAddress == []
              && r.state.Operands() == Pop(c.Operands()) + [ArithmeticHandle(Prefixed(c.unaryAddress, Top(c.Operands()).arithmetic))]
  {
    if c.unaryAddress != [] && AllUnary(c.unaryAddress) && c.Operands() != [] && Top(c.Operands()).ArithmeticHandle? then
      UnaryAddressWraps(c, false, Top(c.Operands()).arithmetic);
      UnaryAddressFold(c, false)
    else UnaryAddressFold(c, false)
  }

  predicate AllUnary(symbols: seq<char>) {
    forall i :: 0 <= i < |symbols| ==> symbols[i] == '#' || symbols[i] == '-'
  }

  /** With an arithmetic operand waiting, the pending '#' and '-' symbols
      all apply to it as the text reads, innermost last written. */
  lemma {:induction false} UnaryAddressWraps(c: Context, applied: bool, a: Arithmetic)
    requires AllUnary(c.unaryAddress)
    requires c.Operands() != [] && Top(c.Operands()) == ArithmeticHandle(a)
    ensures var r := UnaryAddressFold(c, applied);
            r.ok == (applied || c.unaryAddress != []) && r.state.unaryAddress == []
            && r.state.Operands() == Pop(c.Operands()) + [ArithmeticHandle(Prefixed(c.unaryAddress, a))]
    decreases |c.unaryAddress|
  {
    if c.unaryAddress == [] {
      assert Pop(c.Operands()) + [Top(c.Operands())] == c.Operands();
    } else {
      var symbol := Top(c.unaryAddress);
      var operands := c.Operands();
      var next := WithOperands(c.(unaryAddress := Pop(c.unaryAddress)), Pop(operands) + [ArithmeticHandle(ApplyUnary(symbol, a))]);
      assert AllUnary(next.unaryAddress) by {
        forall i | 0 <= i < |next.unaryAddress| ensures next.unaryAddress[i] == c.unaryAddress[i] { }
      }
      UnaryAddressWraps(next, true, ApplyUnary(symbol, a));
      PrefixedSnoc(c.unaryAddress, a);
      assert Pop(next.Operands()) == Pop(operands);
    }
  }

  // ---------------------------------------------------------------------
  // Function keywords

  /** CreateUnaryFunctionOperator: the top one-operand keyword (ATAN
      standing in for the one-argument arc tangent when no other is
      pending) wraps `operand`; BIN, BCD and ADP fail. */
  function CreateUnaryFunction(c: Context, operand: Arithmetic): (r: Done<Context>)
    ensures !r.ok ==> r.state == c
    ensures r.ok <==> (c.unaryKeyword != [] && UnaryFunctionOf(Top(c.unaryKeyword)).Some?)
                      || (c.unaryKeyword == [] && c.unaryBinaryKeyword != [] && Top(c.unaryBinaryKeyword) == "ATAN")
    ensures r.ok && c.unaryKeyword != [] ==>
              r.state.Operands() == c.Operands() + [ArithmeticHandle(Function(UnaryFunctionOf(Top(c.unaryKeyword)).value, operand))]
              && r.state.unaryKeyword == Pop(c.unaryKeyword) && r.state.unaryBinaryKeyword == c.unaryBinaryKeyword
    ensures r.ok && c.unaryKeyword == [] ==>
              r.state.Operands() == c.Operands() + [ArithmeticHandle(Function(ArcTangent, operand))]
              && r.state.unaryBinaryKeyword == Pop(c.unaryBinaryKeyword)
    ensures r.state.InPriorityMode() == c.InPriorityMode() && r.state.binaryKeyword == c.binaryKeyword
    ensures r.state.unaryAddress == c.unaryAddress
  {
    if c.unaryKeyword != [] then
      var f := UnaryFunctionOf(Top(c.unaryKeyword));
      if f.None? then Done(c, false)
      else Done(c.PushOperand(ArithmeticHandle(Function(f.value, operand))).(unaryKeyword := Pop(c.unaryKeyword)), true)
    else if c.unaryBinaryKeyword != [] && Top(c.unaryBinaryKeyword) == "ATAN" then
      Done(c.PushOperand(ArithmeticHandle(Function(ArcTangent, operand))).(unaryBinaryKeyword := Pop(c.unaryBinaryKeyword)), true)
    else Done(c, false)
  }

  /** CreateBinaryFunctionOperator: POW, or else the two-argument ATAN,
      joins the two arguments in order. */
  function CreateBinaryFunction(c: Context, left: Arithmetic, right: Arithmetic): (r: Done<Context>)
    ensures !r.ok ==> r.state == c
    ensures r.ok <==> (c.binaryKeyword != [] && Top(c.binaryKeyword) == "POW")
                      || (c.binaryKeyword == [] && c.unaryBinaryKeyword != [] && Top(c.unaryBinaryKeyword) == "ATAN")
    ensures r.ok && c.binaryKeyword != [] ==>
              r.state.Operands() == c.Operands() + [ArithmeticHandle(Binary(Power, left, right))]
              && r.state.binaryKeyword == Pop(c.binaryKeyword) && r.state.unaryBinaryKeyword == c.unaryBinaryKeyword
    ensures r.ok && c.binaryKeyword == [] ==>
              r.state.Operands() == c.Operands() + [ArithmeticHandle(Binary(ArcTangent2, left, right))]
              && r.state.unaryBinaryKeyword == Pop(c.unaryBinaryKeyword)
    ensures r.state.InPriorityMode() == c.InPriorityMode() && r.state.unaryKeyword == c.unaryKeyword
  {
    if c.binaryKeyword != [] then
      if Top(c.binaryKeyword) == "POW" then
        Done(c.PushOperand(ArithmeticHandle(Binary(Power, left, right))).(binaryKeyword := Pop(c.binaryKeyword)), true)
      else Done(c, false)
    else if c.unaryBinaryKeyword != [] && Top(c.unaryBinaryKeyword) == "ATAN" then
      Done(c.PushOperand(ArithmeticHandle(Binary(ArcTangent2, left, right))).(unaryBinaryKeyword := Pop(c.unaryBinaryKeyword)), true)
    else Done(c, false)
  }

  // ---------------------------------------------------------------------
  // '+', '-' and '=' (CreateBinaryOperator)

  predicate IsAdditive(ch: char) {
    ch == '+' || ch == '-'
  }

  function AdditiveOp(ch: char): BinaryFunction {
    if ch == '-' then Subtract else Add
  }

  predicate AllAdditive(symbols: seq<char>) {
    forall i :: 0 <= i < |symbols| ==> IsAdditive(symbols[i])
  }

  function AdditiveOps(symbols: seq<char>): (r: seq<BinaryFunction>)
    ensures |r| == |symbols|
  {
    if symbols == [] then [] else [AdditiveOp(symbols[0])] + AdditiveOps(symbols[1..])
  }

  /** The loop variables of CreateBinaryOperator when its loop stops: the
      operand deque, the symbol deque, the node built so far, the held
      assignment target, and whether every symbol was consumed. */
  datatype BinaryFold = BinaryFold(
    operands: seq<GeneralOperatorHandle>, symbols: seq<char>,
    last: Option<Arithmetic>, held: Option<Arithmetic>, ok: bool)

  /** The loop of CreateBinaryOperator. The first symbol joins the two front
      operands; an '=' with more operands behind holds the left one as the
      assignment target; later symbols add the next operand to the node
      built so far. On a failure the operands of the failing step go back. */
  function FoldBinary(operands: seq<GeneralOperatorHandle>, symbols: seq<char>,
                      last: Option<Arithmetic>, held: Option<Arithmetic>): (r: BinaryFold)
    ensures r.ok <==> r.symbols == []
    ensures |r.symbols| <= |symbols|
    decreases |symbols|
  {
    if symbols == [] then BinaryFold(operands, symbols, last, held, true)
    else
      var s := symbols[0];
      var stuck := BinaryFold(operands, symbols, last, held, false);
      if last.None? && |operands| > 1 then
        var l, r := operands[0], operands[1];
        if l.ArithmeticHandle? && r.ArithmeticHandle? then
          if IsAdditive(s) then
            FoldBinary(operands[2..], symbols[1..], Some(Binary(AdditiveOp(s), l.arithmetic, r.arithmetic)), held)
          else if s == '=' then
            if |operands| == 2 then FoldBinary([], symbols[1..], Some(Assignment(l.arithmetic, FromArithmetic(r.arithmetic))), held)
            else FoldBinary(operands[1..], symbols[1..], None, Some(l.arithmetic))
          else stuck
        else if l.ArithmeticHandle? && r.LogicalHandle? && |operands| == 2 && s == '=' then
          FoldBinary([], symbols[1..], Some(Assignment(l.arithmetic, FromLogical(r.logical))), held)
        else stuck
      else if last.Some? && operands != [] then
        if operands[0].ArithmeticHandle? && IsAdditive(s) then
          FoldBinary(operands[1..], symbols[1..], Some(Binary(AdditiveOp(s), last.value, operands[0].arithmetic)), held)
        else stuck
      else stuck
  }

  /** The front operand a two-argument function keeps aside. */
  function FirstArgument(c: Context): Option<GeneralOperatorHandle> {
    if c.twoArguments && c.general != [] && c.general[0].ArithmeticHandle? then Some(c.general[0]) else None
  }

  /** CreateBinaryOperator. On success the general deque holds the one new
      node (after the kept first argument); on failure the held target and
      its '=' go back in front, the kept first argument before them. */
  function CreateBinary(c: Context): (r: Done<Context>)
    ensures r.state.(general := c.general, binaryAddress := c.binaryAddress) == c
    ensures r.ok ==> r.state.binaryAddress == []
  {
    var first := FirstArgument(c);
    var f := FoldBinary(if first.Some? then c.general[1..] else c.general, c.binaryAddress, None, None);
    var done := f.ok && f.operands == [] && f.last.Some?;
    var general :=
      if done then [ArithmeticHandle(if f.held.Some? then Assignment(f.held.value, FromArithmetic(f.last.value)) else f.last.value)]
      else if f.held.Some? then [ArithmeticHandle(f.held.value)] + f.operands
      else f.operands;
    var symbols := if !done && f.held.Some? then ['='] + f.symbols else f.symbols;
    Done(c.(general := Prepend(first, general), binaryAddress := symbols), done)
  }

  /** `operands[0] s[0] operands[1] ... ` is a sum or difference chain. */
  predicate IsSum(operands: seq<GeneralOperatorHandle>, symbols: seq<char>) {
    |symbols| >= 1 && |operands| == |symbols| + 1 && AllArithmetic(operands) && AllAdditive(symbols)
  }

  /** Folding onto a node built so far: the chain with it in front. */
  lemma ChainOnto(acc: Arithmetic, operands: seq<GeneralOperatorHandle>, ops: seq<BinaryFunction>)
    requires AllArithmetic(operands) && |operands| == |ops| >= 1
    ensures LeftChain([Binary(ops[0], acc, operands[0].arithmetic)] + Arguments(operands[1..]), ops[1..])
            == LeftChain([acc] + Arguments(operands), ops)
  {
    var xs := [acc] + Arguments(operands);
    LeftChainStep(xs, ops);
    assert xs[2..] == Arguments(operands[1..]);
  }

  lemma AdditiveTail(symbols: seq<char>)
    requires symbols != [] && AllAdditive(symbols)
    ensures AllAdditive(symbols[1..]) && IsAdditive(symbols[0])
    ensures AdditiveOps(symbols)[0] == AdditiveOp(symbols[0]) && AdditiveOps(symbols)[1..] == AdditiveOps(symbols[1..])
  {
    forall i | 0 <= i < |symbols[1..]| ensures IsAdditive(symbols[1..][i]) {
      assert symbols[1..][i] == symbols[i + 1];
    }
  }

  /** A later '+' or '-' adds the next operand to the node built so far. */
  lemma FoldBinaryAdds(operands: seq<GeneralOperatorHandle>, symbols: seq<char>, acc: Arithmetic, held: Option<Arithmetic>)
    requires operands != [] && symbols != [] && operands[0].ArithmeticHandle? && IsAdditive(symbols[0])
    ensures FoldBinary(operands, symbols, Some(acc), held)
            == FoldBinary(operands[1..], symbols[1..], Some(Binary(AdditiveOp(symbols[0]), acc, operands[0].arithmetic)), held)
  {
  }

  lemma {:induction false} FoldSumFromLast(operands: seq<GeneralOperatorHandle>, symbols: seq<char>,
                                          acc: Arithmetic, held: Option<Arithmetic>)
    requires AllArithmetic(operands) && AllAdditive(symbols) && |operands| == |symbols|
    ensures FoldBinary(operands, symbols, Some(acc), held)
            == BinaryFold([], [], Some(LeftChain([acc] + Arguments(operands), AdditiveOps(symbols))), held, true)
    decreases |symbols|
  {
    if symbols != [] {
      var next := Binary(AdditiveOp(symbols[0]), acc, operands[0].arithmetic);
      AdditiveTail(symbols);
      FoldBinaryAdds(operands, symbols, acc, held);
      FoldSumFromLast(operands[1..], symbols[1..], next, held);
      ChainOnto(acc, operands, AdditiveOps(symbols));
    } else {
      assert operands == [];
    }
  }

  /** The first '+' or '-' joins the two front operands. */
  lemma FoldBinaryStartsSum(operands: seq<GeneralOperatorHandle>, symbols: seq<char>, held: Option<Arithmetic>)
    requires |operands| >= 2 && symbols != [] && operands[0].ArithmeticHandle? && operands[1].ArithmeticHandle?
    requires IsAdditive(symbols[0])
    ensures FoldBinary(operands, symbols, None, held)
            == FoldBinary(operands[2..], symbols[1..], Some(Binary(AdditiveOp(symbols[0]), operands[0].arithmetic, operands[1].arithmetic)), held)
  {
  }

  lemma FoldSum(operands: seq<GeneralOperatorHandle>, symbols: seq<char>, held: Option<Arithmetic>)
    requires IsSum(operands, symbols)
    ensures FoldBinary(operands, symbols, None, held)
            == BinaryFold([], [], Some(LeftChain(Arguments(operands), AdditiveOps(symbols))), held, true)
  {
    var first := Binary(AdditiveOp(symbols[0]), operands[0].arithmetic, operands[1].arithmetic);
    AdditiveTail(symbols);
    FoldBinaryStartsSum(operands, symbols, held);
    FoldSumFromLast(operands[2..], symbols[1..], first, held);
    StartChain(operands, AdditiveOps(symbols));
  }

  /** Joining the first two operands first leaves the same chain. */
  lemma StartChain(operands: seq<GeneralOperatorHandle>, ops: seq<BinaryFunction>)
    requires AllArithmetic(operands) && |operands| == |ops| + 1 && |ops| >= 1
    ensures LeftChain([Binary(ops[0], operands[0].arithmetic, operands[1].arithmetic)] + Arguments(operands[2..]), ops[1..])
            == LeftChain(Arguments(operands), ops)
  {
    var xs := Arguments(operands);
    LeftChainStep(xs, ops);
    ArgumentsDrop(operands, 2);
  }

  lemma ArgumentsDrop(hs: seq<GeneralOperatorHandle>, k: nat)
    requires AllArithmetic(hs) && k <= |hs|
    ensures AllArithmetic(hs[k..]) && Arguments(hs)[k..] == Arguments(hs[k..])
  {
    assert forall i :: 0 <= i < |hs[k..]| ==> hs[k..][i] == hs[k + i];
  }

  /** `a + b - c ...` becomes one left-grouped node. */
  lemma AdditiveChain(c: Context)
    requires !c.twoArguments && IsSum(c.general, c.binaryAddress)
    ensures CreateBinary(c) == Done(c.(general := [ArithmeticHandle(LeftChain(Arguments(c.general), AdditiveOps(c.binaryAddress)))],
                                       binaryAddress := []), true)
  {
    FoldSum(c.general, c.binaryAddress, None);
  }

  /** `t = a + b - c ...` assigns the whole chain to `t`. */
  lemma AssignedChain(c: Context, target: Arithmetic, operands: seq<GeneralOperatorHandle>, symbols: seq<char>)
    requires !c.twoArguments && IsSum(operands, symbols)
    requires c.general == [ArithmeticHandle(target)] + operands && c.binaryAddress == ['='] + symbols
    ensures CreateBinary(c) == Done(c.(general := [ArithmeticHandle(Assignment(target,
              FromArithmetic(LeftChain(Arguments(operands), AdditiveOps(symbols)))))], binaryAddress := []), true)
  {
    assert FirstArgument(c).None?;
    assert c.general[1..] == operands && c.binaryAddress[1..] == symbols;
    FoldBinaryHoldsTarget(c.general, c.binaryAddress);
    FoldSum(operands, symbols, Some(target));
  }

  /** An '=' with more than one operand behind it holds the left operand
      as the assignment target. */
  lemma FoldBinaryHoldsTarget(operands: seq<GeneralOperatorHandle>, symbols: seq<char>)
    requires |operands| > 2 && symbols != [] && symbols[0] == '='
    requires operands[0].ArithmeticHandle? && operands[1].ArithmeticHandle?
    ensures FoldBinary(operands, symbols, None, None)
            == FoldBinary(operands[1..], symbols[1..], None, Some(operands[0].arithmetic))
  {
  }

  /** `t = e` with one operand on the right: an arithmetic or a logical
      assignment; any other right operand fails and changes nothing. */
  lemma SingleAssignment(c: Context, target: Arithmetic, source: GeneralOperatorHandle)
    requires !c.twoArguments
    requires c.general == [ArithmeticHandle(target), source] && c.binaryAddress == ['=']
    ensures source.ArithmeticHandle? ==>
      CreateBinary(c) == Done(c.(general := [ArithmeticHandle(Assignment(target, FromArithmetic(source.arithmetic)))], binaryAddress := []), true)
    ensures source.LogicalHandle? ==>
      CreateBinary(c) == Done(c.(general := [ArithmeticHandle(Assignment(target, FromLogical(source.logical)))], binaryAddress := []), true)
    ensures source.RelationalHandle? ==> CreateBinary(c) == Done(c, false)
  {
    assert FirstArgument(c).None? && c.general[2..] == [] && c.binaryAddress[1..] == [];
    var f := FoldBinary(c.general, c.binaryAddress, None, None);
    if source.ArithmeticHandle? {
      var a := Some(Assignment(target, FromArithmetic(source.arithmetic)));
      assert f == FoldBinary([], [], a, None);
      assert f == BinaryFold([], [], a, None, true);
    } else if source.LogicalHandle? {
      var a := Some(Assignment(target, FromLogical(source.logical)));
      assert f == FoldBinary([], [], a, None);
      assert f == BinaryFold([], [], a, None, true);
    } else {
      assert f == BinaryFold(c.general, c.binaryAddress, None, None, false);
    }
  }

  /** The first argument of a two-argument function stays in front of the
      reduced second argument. */
  lemma SecondArgumentChain(c: Context, first: Arithmetic, operands: seq<GeneralOperatorHandle>)
    requires c.twoArguments && IsSum(operands, c.binaryAddress)
    requires c.general == [ArithmeticHandle(first)] + operands
    ensures CreateBinary(c) == Done(c.(general := [ArithmeticHandle(first),
              ArithmeticHandle(LeftChain(Arguments(operands), AdditiveOps(c.binaryAddress)))], binaryAddress := []), true)
  {
    assert c.general[1..] == operands;
    assert FirstArgument(c) == Some(ArithmeticHandle(first));
    FoldSum(operands, c.binaryAddress, None);
    var result := ArithmeticHandle(LeftChain(Arguments(operands), AdditiveOps(c.binaryAddress)));
    assert CreateBinary(c).state.general == Prepend(Some(ArithmeticHandle(first)), [result]);
    assert CreateBinary(c).ok;
    assert CreateBinary(c).state.binaryAddress == [];
    assert CreateBinary(c).state.general == [ArithmeticHandle(first), result];
  }

  /** A symbol with fewer than two operands to join fails and leaves the
      context as it was. */
  lemma ShortOfOperands(c: Context)
    requires c.binaryAddress != []
    requires |c.general| - (if FirstArgument(c).Some? then 1 else 0) < 2
    ensures CreateBinary(c) == Done(c, false)
  {
    if FirstArgument(c).Some? {
      assert [c.general[0]] + c.general[1..] == c.general;
    }
  }

  // ---------------------------------------------------------------------
  // '*' and '/' (CreatePriorityBinaryOperator)

  predicate IsMultiplicative(ch: char) {
    ch == '*' || ch == '/'
  }

  function MultiplicativeOp(ch: char): BinaryFunction {
    if ch == '/' then Divide else Multiply
  }

  predicate AllMultiplicative(symbols: seq<char>) {
    forall i :: 0 <= i < |symbols| ==> IsMultiplicative(symbols[i])
  }

  function MultiplicativeOps(symbols: seq<char>): (r: seq<BinaryFunction>)
    ensures |r| == |symbols|
  {
    if symbols == [] then [] else [MultiplicativeOp(symbols[0])] + MultiplicativeOps(symbols[1..])
  }

  /** The loop variables of a fold without an assignment target. */
  datatype Fold<S, N> = Fold(operands: seq<GeneralOperatorHandle>, symbols: seq<S>, last: Option<N>, ok: bool)

  /** The loop of CreatePriorityBinaryOperator over the priority deque. */
  function FoldPriority(operands: seq<GeneralOperatorHandle>, symbols: seq<char>, last: Option<Arithmetic>): (r: Fold<char, Arithmetic>)
    ensures r.ok <==> r.symbols == []
    decreases |symbols|
  {
    if symbols == [] then Fold(operands, symbols, last, true)
    else
      var s := symbols[0];
      var stuck := Fold(operands, symbols, last, false);
      if last.None? && |operands| > 1 then
        if operands[0].ArithmeticHandle? && operands[1].ArithmeticHandle? && IsMultiplicative(s) then
          FoldPriority(operands[2..], symbols[1..], Some(Binary(MultiplicativeOp(s), operands[0].arithmetic, operands[1].arithmetic)))
        else stuck
      else if last.Some? && operands != [] then
        if operands[0].ArithmeticHandle? && IsMultiplicative(s) then
          FoldPriority(operands[1..], symbols[1..], Some(Binary(MultiplicativeOp(s), last.value, operands[0].arithmetic)))
        else stuck
      else stuck
  }

  /** CreatePriorityBinaryOperator: the product goes to the general deque. */
  function CreatePriorityBinary(c: Context): (r: Done<Context>)
    ensures r.state.(priorityGeneral := c.priorityGeneral, priorityBinaryAddress := c.priorityBinaryAddress, general := c.general) == c
  {
    var f := FoldPriority(c.priorityGeneral, c.priorityBinaryAddress, None);
    var done := f.ok && f.operands == [] && f.last.Some?;
    Done(c.(priorityGeneral := f.operands, priorityBinaryAddress := f.symbols,
            general := if done then c.general + [ArithmeticHandle(f.last.value)] else c.general), done)
  }

  predicate IsProduct(operands: seq<GeneralOperatorHandle>, symbols: seq<char>) {
    |symbols| >= 1 && |operands| == |symbols| + 1 && AllArithmetic(operands) && AllMultiplicative(symbols)
  }

  lemma MultiplicativeTail(symbols: seq<char>)
    requires symbols != [] && AllMultiplicative(symbols)
    ensures AllMultiplicative(symbols[1..]) && IsMultiplicative(symbols[0])
    ensures MultiplicativeOps(symbols)[0] == MultiplicativeOp(symbols[0])
    ensures MultiplicativeOps(symbols)[1..] == MultiplicativeOps(symbols[1..])
  {
    forall i | 0 <= i < |symbols[1..]| ensures IsMultiplicative(symbols[1..][i]) {
      assert symbols[1..][i] == symbols[i + 1];
    }
  }

  lemma {:induction false} FoldProductFromLast(operands: seq<GeneralOperatorHandle>, symbols: seq<char>, acc: Arithmetic)
    requires AllArithmetic(operands) && AllMultiplicative(symbols) && |operands| == |symbols|
    ensures FoldPriority(operands, symbols, Some(acc))
            == Fold([], [], Some(LeftChain([acc] + Arguments(operands), MultiplicativeOps(symbols))), true)
    decreases |symbols|
  {
    if symbols != [] {
      var next := Binary(MultiplicativeOp(symbols[0]), acc, operands[0].arithmetic);
      MultiplicativeTail(symbols);
      assert FoldPriority(operands, symbols, Some(acc)) == FoldPriority(operands[1..], symbols[1..], Some(next));
      FoldProductFromLast(operands[1..], symbols[1..], next);
      ChainOnto(acc, operands, MultiplicativeOps(symbols));
    } else {
      assert operands == [];
    }
  }

  /** When the fold empties the deque, the operands were all arithmetic,
      the symbols all '*' or '/', one operand more than symbols. */
  lemma {:induction false} FoldPriorityDone(operands: seq<GeneralOperatorHandle>, symbols: seq<char>, last: Option<Arithmetic>)
    requires var f := FoldPriority(operands, symbols, last); f.ok && f.operands == [] && f.last.Some?
    ensures AllArithmetic(operands) && AllMultiplicative(symbols)
    ensures |operands| == |symbols| + (if last.None? then 1 else 0)
    decreases |symbols|
  {
    if symbols != [] {
      var s := symbols[0];
      if last.None? {
        FoldPriorityDone(operands[2..], symbols[1..], Some(Binary(MultiplicativeOp(s), operands[0].arithmetic, operands[1].arithmetic)));
        assert forall i :: 2 <= i < |operands| ==> operands[i] == operands[2..][i - 2];
        assert forall i :: 1 <= i < |symbols| ==> symbols[i] == symbols[1..][i - 1];
      } else {
        FoldPriorityDone(operands[1..], symbols[1..], Some(Binary(MultiplicativeOp(s), last.value, operands[0].arithmetic)));
        assert forall i :: 1 <= i < |operands| ==> operands[i] == operands[1..][i - 1];
        assert forall i :: 1 <= i < |symbols| ==> symbols[i] == symbols[1..][i - 1];
      }
    }
  }

  /** A product chain reduces exactly when it is well formed, and then to
      the left-grouped node appended to the general deque. */
  lemma PriorityProduct(c: Context)
    ensures CreatePriorityBinary(c).ok <==> IsProduct(c.priorityGeneral, c.priorityBinaryAddress)
    ensures CreatePriorityBinary(c).ok ==>
      (CreatePriorityBinary(c).state
       == c.(priorityGeneral := [], priorityBinaryAddress := [],
             general := c.general + [ArithmeticHandle(LeftChain(Arguments(c.priorityGeneral), MultiplicativeOps(c.priorityBinaryAddress)))]))
  {
    var pg, pb := c.priorityGeneral, c.priorityBinaryAddress;
    if CreatePriorityBinary(c).ok {
      FoldPriorityDone(pg, pb, None);
    }
    if IsProduct(pg, pb) {
      var first := Binary(MultiplicativeOp(pb[0]), pg[0].arithmetic, pg[1].arithmetic);
      MultiplicativeTail(pb);
      assert FoldPriority(pg, pb, None) == FoldPriority(pg[2..], pb[1..], Some(first));
      FoldProductFromLast(pg[2..], pb[1..], first);
      StartChain(pg, MultiplicativeOps(pb));
    }
  }

  // ---------------------------------------------------------------------
  // Relational keywords

  /** CreateRelationalOperator: the latest relational keyword joins the two
      general operands, both arithmetic; anything else changes nothing. */
  function CreateRelational(c: Context): (r: Done<Context>)
    ensures r.ok <==> c.relationalKeyword != [] && |c.general| == 2
                      && RelationalKindOf(Top(c.relationalKeyword)).Some?
                      && c.general[0].ArithmeticHandle? && c.general[1].ArithmeticHandle?
    ensures !r.ok ==> r.state == c
    ensures r.ok ==> r.state.relationalKeyword == Pop(c.relationalKeyword)
                     && r.state.general == [RelationalHandle(Relational(RelationalKindOf(Top(c.relationalKeyword)).value,
                                                                          c.general[0].arithmetic, c.general[1].arithmetic))]
                     && r.state.(relationalKeyword := c.relationalKeyword, general := c.general) == c
  {
    if c.relationalKeyword != [] && |c.general| == 2 then
      var kind := RelationalKindOf(Top(c.relationalKeyword));
      if kind.Some? && c.general[0].ArithmeticHandle? && c.general[1].ArithmeticHandle? then
        Done(c.(relationalKeyword := Pop(c.relationalKeyword),
                general := [RelationalHandle(Relational(kind.value, c.general[0].arithmetic, c.general[1].arithmetic))]), true)
      else Done(c, false)
    else Done(c, false)
  }

  // ---------------------------------------------------------------------
  // Logical keywords (CreateLogicalOperator, CreatePriorityLogicalOperator)

  /** The keywords the fold accepts: AND in the priority deque, OR and XOR
      in the other. */
  predicate IsLogicalKeyword(keyword: string, priority: bool) {
    if priority then keyword == "AND" else keyword == "OR" || keyword == "XOR"
  }

  function LogicalKindOf(keyword: string, priority: bool): LogicalKind {
    if priority then And else if keyword == "XOR" then Xor else Or
  }

  predicate AllLogical(keywords: seq<string>, priority: bool) {
    forall i :: 0 <= i < |keywords| ==> IsLogicalKeyword(keywords[i], priority)
  }

  function LogicalKinds(keywords: seq<string>, priority: bool): (r: seq<LogicalKind>)
    ensures |r| == |keywords|
  {
    if keywords == [] then [] else [LogicalKindOf(keywords[0], priority)] + LogicalKinds(keywords[1..], priority)
  }

  /** The loop of both logical reductions. The first pair must be one a
      logical node exists for; after that any operand joins. */
  function FoldLogical(operands: seq<GeneralOperatorHandle>, keywords: seq<string>, last: Option<Logical>, priority: bool)
    : (r: Fold<string, Logical>)
    ensures r.ok <==> r.symbols == []
    decreases |keywords|
  {
    if keywords == [] then Fold(operands, keywords, last, true)
    else
      var k := keywords[0];
      var stuck := Fold(operands, keywords, last, false);
      if last.None? && |operands| > 1 then
        if Pairs(operands[0], operands[1]) && IsLogicalKeyword(k, priority) then
          FoldLogical(operands[2..], keywords[1..],
            Some(Logical(LogicalKindOf(k, priority), AsOperand(operands[0]), AsOperand(operands[1]))), priority)
        else stuck
      else if last.Some? && operands != [] then
        if IsLogicalKeyword(k, priority) then
          FoldLogical(operands[1..], keywords[1..],
            Some(Logical(LogicalKindOf(k, priority), LogicalOperand(last.value), AsOperand(operands[0]))), priority)
        else stuck
      else stuck
  }

  /** Whether CreateLogicalOperator takes a front `t =` as the target of
      a logical assignment. */
  predicate HoldsTarget(c: Context) {
    c.binaryAddress != [] && c.binaryAddress[0] == '=' && c.general != [] && c.general[0].ArithmeticHandle?
  }

  /** CreateLogicalOperator: OR and XOR over the general deque, the result
      assigned to a held target when the block reads `t = ... OR ...`. */
  function CreateLogical(c: Context): (r: Done<Context>)
    ensures r.state.(general := c.general, binaryAddress := c.binaryAddress, logicalKeyword := c.logicalKeyword) == c
    ensures !r.ok ==> r.state.binaryAddress == c.binaryAddress
    ensures r.ok ==> r.state.logicalKeyword == [] && |r.state.general| == 1
  {
    var hold := HoldsTarget(c);
    var f := FoldLogical(if hold then c.general[1..] else c.general, c.logicalKeyword, None, false);
    if f.ok && f.operands == [] && f.last.Some? then
      var result := if hold then ArithmeticHandle(Assignment(c.general[0].arithmetic, FromLogical(f.last.value)))
                    else LogicalHandle(f.last.value);
      Done(c.(general := [result], binaryAddress := if hold then c.binaryAddress[1..] else c.binaryAddress,
              logicalKeyword := []), true)
    else
      Done(c.(general := (if hold then [c.general[0]] else []) + f.operands, logicalKeyword := f.symbols), false)
  }

  /** CreatePriorityLogicalOperator: AND over the priority deque, the result
      appended to the general deque. */
  function CreatePriorityLogical(c: Context): (r: Done<Context>)
    ensures r.state.(general := c.general, priorityGeneral := c.priorityGeneral, priorityLogicalKeyword := c.priorityLogicalKeyword) == c
    ensures r.ok ==> r.state.priorityLogicalKeyword == [] && r.state.priorityGeneral == []
    ensures r.ok ==> |r.state.general| == |c.general| + 1 && Pop(r.state.general) == c.general && Top(r.state.general).LogicalHandle?
    ensures !r.ok ==> r.state.general == c.general
  {
    var f := FoldLogical(c.priorityGeneral, c.priorityLogicalKeyword, None, true);
    var done := f.ok && f.operands == [] && f.last.Some?;
    Done(c.(priorityGeneral := f.operands, priorityLogicalKeyword := f.symbols,
            general := if done then c.general + [LogicalHandle(f.last.value)] else c.general), done)
  }

  /** A well-formed logical chain: one keyword fewer than operands, every
      keyword of the deque's kind, and a first pair with a node. */
  predicate IsLogicalChain(operands: seq<GeneralOperatorHandle>, keywords: seq<string>, priority: bool) {
    |keywords| >= 1 && |operands| == |keywords| + 1 && AllLogical(keywords, priority) && Pairs(operands[0], operands[1])
  }

  lemma {:induction false} FoldLogicalFromLast(operands: seq<GeneralOperatorHandle>, keywords: seq<string>, acc: Logical, priority: bool)
    requires AllLogical(keywords, priority) && |operands| == |keywords|
    ensures FoldLogical(operands, keywords, Some(acc), priority)
            == Fold([], [], Some(if keywords == [] then acc
                                 else LogicalChain([LogicalOperand(acc)] + AsOperands(operands), LogicalKinds(keywords, priority))), true)
    decreases |keywords|
  {
    if keywords != [] {
      var next := Logical(LogicalKindOf(keywords[0], priority), LogicalOperand(acc), AsOperand(operands[0]));
      LogicalTail(keywords, priority);
      FoldLogicalJoins(operands, keywords, acc, priority);
      FoldLogicalFromLast(operands[1..], keywords[1..], next, priority);
      var xs := [LogicalOperand(acc)] + AsOperands(operands);
      OperandsBehind(acc, operands);
      if |keywords| >= 2 {
        LogicalChainStep(xs, LogicalKinds(keywords, priority));
      }
    } else {
      assert operands == [];
    }
  }

  lemma OperandsBehind(acc: Logical, operands: seq<GeneralOperatorHandle>)
    requires operands != []
    ensures var xs := [LogicalOperand(acc)] + AsOperands(operands);
            xs[0] == LogicalOperand(acc) && xs[1] == AsOperand(operands[0]) && xs[2..] == AsOperands(operands[1..])
  {
    assert AsOperands(operands) == [AsOperand(operands[0])] + AsOperands(operands[1..]);
  }

  lemma LogicalTail(keywords: seq<string>, priority: bool)
    requires keywords != [] && AllLogical(keywords, priority)
    ensures AllLogical(keywords[1..], priority) && IsLogicalKeyword(keywords[0], priority)
    ensures LogicalKinds(keywords, priority)[0] == LogicalKindOf(keywords[0], priority)
    ensures LogicalKinds(keywords, priority)[1..] == LogicalKinds(keywords[1..], priority)
  {
    forall i | 0 <= i < |keywords[1..]| ensures IsLogicalKeyword(keywords[1..][i], priority) {
      assert keywords[1..][i] == keywords[i + 1];
    }
  }

  /** A later keyword joins the next operand to the node built so far. */
  lemma FoldLogicalJoins(operands: seq<GeneralOperatorHandle>, keywords: seq<string>, acc: Logical, priority: bool)
    requires operands != [] && keywords != [] && IsLogicalKeyword(keywords[0], priority)
    ensures FoldLogical(operands, keywords, Some(acc), priority)
            == FoldLogical(operands[1..], keywords[1..],
                 Some(Logical(LogicalKindOf(keywords[0], priority), LogicalOperand(acc), AsOperand(operands[0]))), priority)
  {
  }

  lemma {:induction false} FoldLogicalDone(operands: seq<GeneralOperatorHandle>, keywords: seq<string>, last: Option<Logical>, priority: bool)
    requires var f := FoldLogical(operands, keywords, last, priority); f.ok && f.operands == [] && f.last.Some?
    ensures AllLogical(keywords, priority)
    ensures |operands| == |keywords| + (if last.None? then 1 else 0)
    ensures last.None? ==> |operands| >= 2 && Pairs(operands[0], operands[1])
    decreases |keywords|
  {
    if keywords != [] {
      var k := keywords[0];
      if last.None? {
        FoldLogicalDone(operands[2..], keywords[1..],
          Some(Logical(LogicalKindOf(k, priority), AsOperand(operands[0]), AsOperand(operands[1]))), priority);
      } else {
        FoldLogicalDone(operands[1..], keywords[1..],
          Some(Logical(LogicalKindOf(k, priority), LogicalOperand(last.value), AsOperand(operands[0]))), priority);
      }
      assert forall i :: 1 <= i < |keywords| ==> keywords[i] == keywords[1..][i - 1];
    }
  }

  /** A logical fold from the start empties its deques exactly on a
      well-formed chain, and then yields the left-grouped chain. */
  lemma LogicalFold(operands: seq<GeneralOperatorHandle>, keywords: seq<string>, priority: bool)
    ensures var f := FoldLogical(operands, keywords, None, priority);
            (f.ok && f.operands == [] && f.last.Some?) <==> IsLogicalChain(operands, keywords, priority)
    ensures IsLogicalChain(operands, keywords, priority) ==>
            FoldLogical(operands, keywords, None, priority)
            == Fold([], [], Some(LogicalChain(AsOperands(operands), LogicalKinds(keywords, priority))), true)
  {
    var f := FoldLogical(operands, keywords, None, priority);
    if f.ok && f.operands == [] && f.last.Some? {
      FoldLogicalDone(operands, keywords, None, priority);
    }
    if IsLogicalChain(operands, keywords, priority) {
      LogicalChainFolds(operands, keywords, priority);
    }
  }

  lemma LogicalChainFolds(operands: seq<GeneralOperatorHandle>, keywords: seq<string>, priority: bool)
    requires IsLogicalChain(operands, keywords, priority)
    ensures FoldLogical(operands, keywords, None, priority)
            == Fold([], [], Some(LogicalChain(AsOperands(operands), LogicalKinds(keywords, priority))), true)
  {
    var first := Logical(LogicalKindOf(keywords[0], priority), AsOperand(operands[0]), AsOperand(operands[1]));
    LogicalTail(keywords, priority);
    FoldLogicalStarts(operands, keywords, priority);
    FoldLogicalFromLast(operands[2..], keywords[1..], first, priority);
    if |keywords| >= 2 {
      LogicalChainStep(AsOperands(operands), LogicalKinds(keywords, priority));
      AsOperandsFront(operands);
    }
  }

  /** The first keyword joins the first two operands. */
  lemma FoldLogicalStarts(operands: seq<GeneralOperatorHandle>, keywords: seq<string>, priority: bool)
    requires IsLogicalChain(operands, keywords, priority)
    ensures FoldLogical(operands, keywords, None, priority)
            == FoldLogical(operands[2..], keywords[1..],
                 Some(Logical(LogicalKindOf(keywords[0], priority), AsOperand(operands[0]), AsOperand(operands[1]))), priority)
  {
  }

  lemma AsOperandsFront(operands: seq<GeneralOperatorHandle>)
    requires |operands| >= 2
    ensures AsOperands(operands)[0] == AsOperand(operands[0]) && AsOperands(operands)[1] == AsOperand(operands[1])
    ensures AsOperands(operands)[2..] == AsOperands(operands[2..])
  {
    assert AsOperands(operands[1..])[1..] == AsOperands(operands[2..]) by {
      assert operands[1..][1..] == operands[2..];
    }
  }

  /** `a OR b XOR c ...` reduces exactly when it is a well-formed chain, to
      its left-grouped node, assigned to the target of a leading `t =`. */
  lemma OrChain(c: Context)
    ensures var operands := if HoldsTarget(c) then c.general[1..] else c.general;
            CreateLogical(c).ok <==> IsLogicalChain(operands, c.logicalKeyword, false)
    ensures var operands := if HoldsTarget(c) then c.general[1..] else c.general;
            IsLogicalChain(operands, c.logicalKeyword, false) ==>
              var chain := LogicalChain(AsOperands(operands), LogicalKinds(c.logicalKeyword, false));
              CreateLogical(c).state.general
              == [if HoldsTarget(c) then ArithmeticHandle(Assignment(c.general[0].arithmetic, FromLogical(chain)))
                  else LogicalHandle(chain)]
  {
    LogicalFold(if HoldsTarget(c) then c.general[1..] else c.general, c.logicalKeyword, false);
  }

  /** `a AND b AND c ...` in the priority deque reduces exactly when it is a
      well-formed chain, to its left-grouped node. */
  lemma AndChain(c: Context)
    ensures CreatePriorityLogical(c).ok <==> IsLogicalChain(c.priorityGeneral, c.priorityLogicalKeyword, true)
    ensures IsLogicalChain(c.priorityGeneral, c.priorityLogicalKeyword, true) ==>
            CreatePriorityLogical(c).state.general
            == c.general + [LogicalHandle(LogicalChain(AsOperands(c.priorityGeneral), LogicalKinds(c.priorityLogicalKeyword, true)))]
  {
    LogicalFold(c.priorityGeneral, c.priorityLogicalKeyword, true);
  }

  /** An arithmetic operand beside a relational one has no logical node:
      `a OR [b GT c]` fails. */
  lemma NoArithmeticRelationalPair(c: Context, a: Arithmetic, r: Relational)
    requires !HoldsTarget(c) && c.general == [ArithmeticHandle(a), RelationalHandle(r)] && c.logicalKeyword == ["OR"]
    ensures !CreateLogical(c).ok && CreateLogical(c).state == c
  {
    LogicalFold(c.general, c.logicalKeyword, false);
  }
}
