// The macro expression generator as the C++ class keeps it: six parsing
// contexts in a fixed array, the current nesting level and the four
// statement slots, changed in place by its members. Every member is proved
// to leave exactly the state, and return exactly the value, that the
// function of the same routine in MacroContext, MacroReduction or
// MacroProcess gives for the state before the call.
module MacroGeneration {
  import opened MacroValues
  import opened MacroOperator
  import opened MacroContext
  import opened MacroReduction
  import opened MacroProcess
  import NumberDefinition

  class MacroGenerator {
    const contexts: array<Context>
    var level: nat
    var conditionalArithmetic: ConditionalArithmetic
    var conditionalBranch: ConditionalBranch
    var conditionalLoop: ConditionalLoop
    var loopEnd: LoopEnd

    /** The generator as a value. */
    function State(): Generator
      reads this, contexts
    {
      Generator(contexts[..], level, conditionalArithmetic, conditionalBranch, conditionalLoop, loopEnd)
    }

    predicate Valid()
      reads this, contexts
    {
      contexts.Length == PriorityNestingLevelMax + 1 && level <= PriorityNestingLevelMax
    }

    /** A new generator: level 0, every context and statement empty. */
    constructor()
      ensures Valid() && fresh(contexts)
      ensures State() == ClearedGenerator()
    {
      contexts := new Context[PriorityNestingLevelMax + 1](_ => EmptyContext);
      level := 0;
      conditionalArithmetic := ConditionalArithmetic(Unconditional, None);
      conditionalBranch := ConditionalBranch(Unconditional, None);
      conditionalLoop := ConditionalLoop(Unconditional, None);
      loopEnd := LoopEnd(None);
      new;
      assert contexts[..] == ClearedGenerator().contexts;
    }

    /** Clear: the statements reset, level 0, every context cleared. */
    method Clear()
      requires Valid()
      modifies this, contexts
      ensures Valid()
      ensures State() == ClearedGenerator()
    {
      conditionalArithmetic := conditionalArithmetic.Clear();
      conditionalBranch := conditionalBranch.Clear();
      conditionalLoop := conditionalLoop.Clear();
      loopEnd := loopEnd.Clear();
      level := 0;
      for i := 0 to contexts.Length
        invariant forall k :: 0 <= k < i ==> contexts[k] == EmptyContext
        modifies contexts
      {
        contexts[i] := ClearAll(contexts[i]);
      }
      assert contexts[..] == ClearedGenerator().contexts;
    }

    method LevelUp() returns (ok: bool)
      requires Valid()
      modifies this
      ensures Valid()
      ensures State() == MacroContext.LevelUp(old(State())).state
      ensures ok == MacroContext.LevelUp(old(State())).ok
    {
      if level == PriorityNestingLevelMax {
        return false;
      }
      level := level + 1;
      return true;
    }

    method LevelDown() returns (ok: bool)
      requires Valid()
      modifies this
      ensures Valid()
      ensures State() == MacroContext.LevelDown(old(State())).state
      ensures ok == MacroContext.LevelDown(old(State())).ok
    {
      if level == 0 {
        return false;
      }
      level := level - 1;
      return true;
    }

    /** CreateDigitString: the scanned digits become the top literal, with
        a pending unary minus folded in. */
    method CreateDigitString(digits: string)
      requires Valid()
      modifies contexts
      ensures Valid()
      ensures State() == old(State()).WithCurrent(MacroReduction.CreateDigitString(old(State().Current()), digits))
    {
      var c := contexts[level];
      if c.unaryAddress != [] && Top(c.unaryAddress) == '-' {
        c := c.(digitString := c.digitString + ["-" + digits], unaryAddress := Pop(c.unaryAddress));
      } else {
        c := c.(digitString := c.digitString + [digits]);
      }
      contexts[level] := c;
    }

    /** CreateConstantOperator, with the macro float format. The C++ reads
        the top literal unguarded, so one must be there. */
    method CreateConstantOperator() returns (ok: bool)
      requires Valid() && contexts[level].digitString != []
      modifies contexts
      ensures Valid()
      ensures State() == old(State()).WithCurrent(CreateConstant(old(State().Current())).state)
      ensures ok == CreateConstant(old(State().Current())).ok
    {
      var c := contexts[level];
      var value;
      ok, value := NumberDefinition.StringToFloat(MacroFloatFormat, Top(c.digitString), 0.0);
      if ok {
        contexts[level] := c.PushOperand(ArithmeticHandle(Constant(value))).(digitString := Pop(c.digitString));
      }
    }

    /** CreateUnaryAddressOperator: pops '#' and '-' symbols, wrapping the
        last operand of the current mode each time. */
    method CreateUnaryAddressOperator() returns (ok: bool)
      requires Valid()
      modifies contexts
      ensures Valid()
      ensures State() == old(State()).WithCurrent(CreateUnaryAddress(old(State().Current())).state)
      ensures ok == CreateUnaryAddress(old(State().Current())).ok
    {
      var c := contexts[level];
      ok := false;
      while c.unaryAddress != []
        invariant UnaryAddressFold(c, ok) == CreateUnaryAddress(old(State().Current()))
        decreases |c.unaryAddress|
      {
        var symbol := Top(c.unaryAddress);
        var operands := if c.InPriorityMode() then c.priorityGeneral else c.general;
        if (symbol != '#' && symbol != '-') || operands == [] || !Top(operands).ArithmeticHandle? {
          contexts[level] := c;
          return false;
        }
        var wrapped := ArithmeticHandle(ApplyUnary(symbol, Top(operands).arithmetic));
        c := c.(unaryAddress := Pop(c.unaryAddress));
        if c.InPriorityMode() {
          c := c.(priorityGeneral := Pop(operands) + [wrapped]);
        } else {
          c := c.(general := Pop(operands) + [wrapped]);
        }
        ok := true;
      }
      contexts[level] := c;
    }

    /** CreateUnaryFunctionOperator: the pending one-operand keyword wraps
        `operand`. */
    method CreateUnaryFunctionOperator(operand: Arithmetic) returns (ok: bool)
      requires Valid()
      modifies contexts
      ensures Valid()
      ensures State() == old(State()).WithCurrent(CreateUnaryFunction(old(State().Current()), operand).state)
      ensures ok == CreateUnaryFunction(old(State().Current()), operand).ok
    {
      var c := contexts[level];
      if c.unaryKeyword != [] {
        var f := UnaryFunctionOf(Top(c.unaryKeyword));
        if f.None? {
          return false;
        }
        contexts[level] := c.PushOperand(ArithmeticHandle(Function(f.value, operand))).(unaryKeyword := Pop(c.unaryKeyword));
        return true;
      } else if c.unaryBinaryKeyword != [] && Top(c.unaryBinaryKeyword) == "ATAN" {
        contexts[level] := c.PushOperand(ArithmeticHandle(Function(ArcTangent, operand))).(unaryBinaryKeyword := Pop(c.unaryBinaryKeyword));
        return true;
      }
      return false;
    }

    /** CreateBinaryFunctionOperator: POW or the two-argument ATAN joins
        `left` and `right`. */
    method CreateBinaryFunctionOperator(left: Arithmetic, right: Arithmetic) returns (ok: bool)
      requires Valid()
      modifies contexts
      ensures Valid()
      ensures State() == old(State()).WithCurrent(CreateBinaryFunction(old(State().Current()), left, right).state)
      ensures ok == CreateBinaryFunction(old(State().Current()), left, right).ok
    {
      var c := contexts[level];
      if c.binaryKeyword != [] {
        if Top(c.binaryKeyword) != "POW" {
          return false;
        }
        contexts[level] := c.PushOperand(ArithmeticHandle(Binary(Power, left, right))).(binaryKeyword := Pop(c.binaryKeyword));
        return true;
      } else if c.unaryBinaryKeyword != [] && Top(c.unaryBinaryKeyword) == "ATAN" {
        contexts[level] := c.PushOperand(ArithmeticHandle(Binary(ArcTangent2, left, right))).(unaryBinaryKeyword := Pop(c.unaryBinaryKeyword));
        return true;
      }
      return false;
    }

    /** CreateBinaryOperator: folds the general deque with the pending '+',
        '-' and '=' symbols, from the front. */
    method CreateBinaryOperator() returns (ok: bool)
      requires Valid()
      modifies contexts
      ensures Valid()
      ensures State() == old(State()).WithCurrent(CreateBinary(old(State().Current())).state)
      ensures ok == CreateBinary(old(State().Current())).ok
    {
      var c := contexts[level];
      var first := FirstArgument(c);
      var operands := if first.Some? then c.general[1..] else c.general;
      var symbols := c.binaryAddress;
      var last: Option<Arithmetic> := None;
      var held: Option<Arithmetic> := None;
      ghost var fold := FoldBinary(operands, symbols, None, None);
      var stuck := false;
      while symbols != [] && !stuck
        invariant FoldBinary(operands, symbols, last, held) == fold
        invariant stuck ==> fold == BinaryFold(operands, symbols, last, held, false)
        modifies {}
        decreases |symbols|, !stuck
      {
        operands, symbols, last, held, stuck := BinaryStep(operands, symbols, last, held);
      }
      assert fold == BinaryFold(operands, symbols, last, held, !stuck);
      ok := !stuck && operands == [] && last.Some?;
      var general;
      if ok {
        general := [ArithmeticHandle(if held.Some? then Assignment(held.value, FromArithmetic(last.value)) else last.value)];
      } else if held.Some? {
        general := [ArithmeticHandle(held.value)] + operands;
        symbols := ['='] + symbols;
      } else {
        general := operands;
      }
      c := c.(general := Prepend(first, general), binaryAddress := symbols);
      assert c == CreateBinary(old(State().Current())).state;
      contexts[level] := c;
    }

    /** CreatePriorityBinaryOperator: folds the priority deque with the
        pending '*' and '/' symbols and appends the product to the general
        deque. */
    method CreatePriorityBinaryOperator() returns (ok: bool)
      requires Valid()
      modifies contexts
      ensures Valid()
      ensures State() == old(State()).WithCurrent(CreatePriorityBinary(old(State().Current())).state)
      ensures ok == CreatePriorityBinary(old(State().Current())).ok
    {
      var c := contexts[level];
      var operands := c.priorityGeneral;
      var symbols := c.priorityBinaryAddress;
      var last: Option<Arithmetic> := None;
      ghost var fold := FoldPriority(operands, symbols, None);
      var stuck := false;
      while symbols != [] && !stuck
        invariant FoldPriority(operands, symbols, last) == fold
        invariant stuck ==> fold == Fold(operands, symbols, last, false)
        modifies {}
        decreases |symbols|, !stuck
      {
        operands, symbols, last, stuck := PriorityStep(operands, symbols, last);
      }
      assert fold == Fold(operands, symbols, last, !stuck);
      ok := !stuck && operands == [] && last.Some?;
      var general := if ok then c.general + [ArithmeticHandle(last.value)] else c.general;
      contexts[level] := c.(priorityGeneral := operands, priorityBinaryAddress := symbols, general := general);
    }

    /** CreateRelationalOperator: the last relational keyword joins the two
        general operands. */
    method CreateRelationalOperator() returns (ok: bool)
      requires Valid()
      modifies contexts
      ensures Valid()
      ensures State() == old(State()).WithCurrent(CreateRelational(old(State().Current())).state)
      ensures ok == CreateRelational(old(State().Current())).ok
    {
      var c := contexts[level];
      if c.relationalKeyword == [] || |c.general| != 2 {
        return false;
      }
      var kind := RelationalKindOf(Top(c.relationalKeyword));
      if kind.None? || !c.general[0].ArithmeticHandle? || !c.general[1].ArithmeticHandle? {
        return false;
      }
      var relation := Relational(kind.value, c.general[0].arithmetic, c.general[1].arithmetic);
      contexts[level] := c.(relationalKeyword := Pop(c.relationalKeyword), general := [RelationalHandle(relation)]);
      return true;
    }

    /** CreateLogicalOperator: folds the general deque with the pending OR
        and XOR keywords; a front `t =` becomes the assignment target. */
    method CreateLogicalOperator() returns (ok: bool)
      requires Valid()
      modifies contexts
      ensures Valid()
      ensures State() == old(State()).WithCurrent(CreateLogical(old(State().Current())).state)
      ensures ok == CreateLogical(old(State().Current())).ok
    {
      var c := contexts[level];
      var symbols := c.binaryAddress;
      var operands := c.general;
      var held: Option<Arithmetic> := None;
      if HoldsTarget(c) {
        symbols := c.binaryAddress[1..];
        held := Some(c.general[0].arithmetic);
        operands := c.general[1..];
      }
      var keywords := c.logicalKeyword;
      var last: Option<Logical> := None;
      ghost var fold := FoldLogical(if HoldsTarget(c) then c.general[1..] else c.general, c.logicalKeyword, None, false);
      var stuck := false;
      while keywords != [] && !stuck
        invariant FoldLogical(operands, keywords, last, false) == fold
        invariant stuck ==> fold == Fold(operands, keywords, last, false)
        modifies {}
        decreases |keywords|, !stuck
      {
        operands, keywords, last, stuck := LogicalStep(operands, keywords, last, false);
      }
      assert fold == Fold(operands, keywords, last, !stuck);
      ok := !stuck && operands == [] && last.Some?;
      if ok {
        var result := if held.Some? then ArithmeticHandle(Assignment(held.value, FromLogical(last.value))) else LogicalHandle(last.value);
        c := c.(general := [result], binaryAddress := symbols, logicalKeyword := []);
      } else {
        var restored := if held.Some? then [ArithmeticHandle(held.value)] else [];
        c := c.(general := restored + operands, logicalKeyword := keywords);
      }
      assert c == CreateLogical(old(State().Current())).state;
      contexts[level] := c;
    }

    /** CreatePriorityLogicalOperator: folds the priority deque with the
        pending AND keywords and appends the result to the general deque. */
    method CreatePriorityLogicalOperator() returns (ok: bool)
      requires Valid()
      modifies contexts
      ensures Valid()
      ensures State() == old(State()).WithCurrent(CreatePriorityLogical(old(State().Current())).state)
      ensures ok == CreatePriorityLogical(old(State().Current())).ok
    {
      var c := contexts[level];
      var operands := c.priorityGeneral;
      var keywords := c.priorityLogicalKeyword;
      var last: Option<Logical> := None;
      ghost var fold := FoldLogical(operands, keywords, None, true);
      var stuck := false;
      while keywords != [] && !stuck
        invariant FoldLogical(operands, keywords, last, true) == fold
        invariant stuck ==> fold == Fold(operands, keywords, last, false)
        modifies {}
        decreases |keywords|, !stuck
      {
        operands, keywords, last, stuck := LogicalStep(operands, keywords, last, true);
      }
      assert fold == Fold(operands, keywords, last, !stuck);
      ok := !stuck && operands == [] && last.Some?;
      var general := if ok then c.general + [LogicalHandle(last.value)] else c.general;
      contexts[level] := c.(priorityGeneral := operands, priorityLogicalKeyword := keywords, general := general);
    }

    /** CreateConditionalOperator: at level 0, stores the statement the
        conditional keywords and the general deque describe. */
    method CreateConditionalOperator() returns (ok: bool)
      requires Valid()
      modifies this, contexts
      ensures Valid()
      ensures State() == CreateConditional(old(State())).state
      ensures ok == CreateConditional(old(State())).ok
    {
      var c := contexts[level];
      if level != 0 || c.conditionalKeyword == [] || c.general == [] || !Top(c.general).ArithmeticHandle? {
        return false;
      }
      var keyword := Top(c.conditionalKeyword);
      var target := Some(Top(c.general).arithmetic);
      var guard := ConditionOf(c.general[0]);
      var alone := |c.conditionalKeyword| == 1 && |c.general| == 1;
      if keyword == "GOTO" {
        if c.conditionalKeyword[0] == "IF" && |c.general| == 2 {
          if guard.None? {
            return false;
          }
          conditionalBranch := ConditionalBranch(guard.value, target);
        } else if alone {
          conditionalBranch := ConditionalBranch(Unconditional, target);
        } else {
          return false;
        }
      } else if keyword == "THEN" {
        if c.conditionalKeyword[0] != "IF" || |c.general| != 2 || guard.None? {
          return false;
        }
        conditionalArithmetic := ConditionalArithmetic(guard.value, target);
      } else if keyword == "DO" {
        if c.conditionalKeyword[0] == "WHILE" && |c.general| == 2 {
          if guard.None? {
            return false;
          }
          conditionalLoop := ConditionalLoop(guard.value, target);
        } else if alone {
          conditionalLoop := ConditionalLoop(Unconditional, target);
        } else {
          return false;
        }
      } else if keyword == "END" && alone {
        loopEnd := LoopEnd(target);
      } else {
        return false;
      }
      contexts[level] := c.(conditionalKeyword := [], general := []);
      return true;
    }

    /** ProcessOperatorKeyword: files the top upper-case word under its
        kind; OR and XOR first close a pending AND chain, AND first moves
        the operand before it to the priority deque. */
    method ProcessOperatorKeyword() returns (ok: bool)
      requires Valid() && contexts[level].upperString != []
      modifies contexts
      ensures Valid()
      ensures State() == old(State()).WithCurrent(ProcessKeyword(old(State().Current())).state)
      ensures ok == ProcessKeyword(old(State().Current())).ok
    {
      var word := Top(contexts[level].upperString);
      if word !in KeywordList {
        return false;
      }
      ok := FileUpperString(KeywordList[word]);
    }

    /** The switch of ProcessOperatorKeyword over the kind of the top word. */
    method FileUpperString(kind: OperatorType) returns (ok: bool)
      requires Valid() && contexts[level].upperString != []
      modifies contexts
      ensures Valid()
      ensures State() == old(State()).WithCurrent(FileKeyword(old(State().Current()), kind).state)
      ensures ok == FileKeyword(old(State().Current()), kind).ok
    {
      var c := contexts[level];
      var word := Top(c.upperString);
      var popped := c.(upperString := Pop(c.upperString));
      match kind {
      case UnaryFunctionKeyword =>
        contexts[level] := popped.(unaryKeyword := c.unaryKeyword + [word]);
      case UnaryBinaryFunctionKeyword =>
        contexts[level] := popped.(unaryBinaryKeyword := c.unaryBinaryKeyword + [word]);
      case BinaryFunctionKeyword =>
        contexts[level] := popped.(binaryKeyword := c.binaryKeyword + [word]);
      case RelationalKeyword =>
        contexts[level] := popped.(relationalKeyword := c.relationalKeyword + [word]);
      case BinaryLogicalKeyword =>
        ok := FileOrKeyword();
        return ok;
      case PriorityBinaryLogicalKeyword =>
        ok := FileAndKeyword();
        return ok;
      case IfKeyword | WhileKeyword | BranchKeyword | ThenKeyword | LoopKeyword | EndKeyword =>
        contexts[level] := popped.(conditionalKeyword := c.conditionalKeyword + [word]);
      case _ =>
        return false;
      }
      return true;
    }

    /** OR or XOR: a pending AND chain is closed first. */
    method FileOrKeyword() returns (ok: bool)
      requires Valid() && contexts[level].upperString != []
      modifies contexts
      ensures Valid()
      ensures State() == old(State()).WithCurrent(FileKeyword(old(State().Current()), BinaryLogicalKeyword).state)
      ensures ok == FileKeyword(old(State().Current()), BinaryLogicalKeyword).ok
    {
      var c := contexts[level];
      var word := Top(c.upperString);
      if c.priorityLogical {
        ok := CreatePriorityLogicalOperator();
        if !ok {
          return false;
        }
        contexts[level] := contexts[level].(priorityLogical := false);
      }
      var d := contexts[level];
      contexts[level] := d.(logicalKeyword := d.logicalKeyword + [word], upperString := Pop(d.upperString));
      return true;
    }

    /** AND: outside AND mode the operand before it moves to the priority
        deque (the mode is entered even when there is none). */
    method FileAndKeyword() returns (ok: bool)
      requires Valid() && contexts[level].upperString != []
      modifies contexts
      ensures Valid()
      ensures State() == old(State()).WithCurrent(FileKeyword(old(State().Current()), PriorityBinaryLogicalKeyword).state)
      ensures ok == FileKeyword(old(State().Current()), PriorityBinaryLogicalKeyword).ok
    {
      var c := contexts[level];
      var word := Top(c.upperString);
      if !c.priorityLogical {
        c := c.(priorityLogical := true);
        if c.general == [] {
          contexts[level] := c;
          return false;
        }
        c := c.(priorityGeneral := c.priorityGeneral + [Top(c.general)], general := Pop(c.general));
      }
      contexts[level] := c.(priorityLogicalKeyword := c.priorityLogicalKeyword + [word], upperString := Pop(c.upperString));
      return true;
    }

    /** ProcessOperatorAddress: handles one operator symbol of kind `kind`. */
    method ProcessOperatorAddress(kind: OperatorType, ch: char) returns (ok: bool)
      requires Valid()
      modifies contexts
      ensures Valid()
      ensures State() == old(State()).WithCurrent(ProcessAddress(old(State().Current()), level, kind, ch).state)
      ensures ok == ProcessAddress(old(State().Current()), level, kind, ch).ok
    {
      var c := contexts[level];
      if kind == UnaryAddress {
        contexts[level] := c.(unaryAddress := c.unaryAddress + [ch]);
        return true;
      } else if kind == BinaryAddress {
        if c.priority {
          ok := CreatePriorityBinaryOperator();
          if !ok {
            return false;
          }
          contexts[level] := contexts[level].(priority := false);
        }
        var d := contexts[level];
        contexts[level] := d.(binaryAddress := d.binaryAddress + [ch]);
        return true;
      } else if kind == PriorityBinaryAddress {
        var wasPriority := c.priority;
        c := c.(priority := true, priorityBinaryAddress := c.priorityBinaryAddress + [ch]);
        if wasPriority {
          contexts[level] := c;
          return true;
        }
        if c.general == [] {
          contexts[level] := c;
          return false;
        }
        contexts[level] := c.(priorityGeneral := c.priorityGeneral + [Top(c.general)], general := Pop(c.general));
        return true;
      } else if kind == UnaryBinaryAddress {
        ok := ProcessUnaryBinaryAddress(ch);
      } else {
        return false;
      }
    }

    /** ProcessUnaryBinaryAddress: a '-' becomes a sign or a subtraction. */
    method ProcessUnaryBinaryAddress(ch: char) returns (ok: bool)
      requires Valid()
      modifies contexts
      ensures Valid()
      ensures State() == old(State()).WithCurrent(ProcessUnaryBinary(old(State().Current()), level, ch).state)
      ensures ok == ProcessUnaryBinary(old(State().Current()), level, ch).ok
    {
      var c := contexts[level];
      if c.relationalKeyword != [] {
        contexts[level] := c.(unaryAddress := c.unaryAddress + [ch]);
        return true;
      }
      if c.priority {
        if |c.priorityGeneral| == |c.priorityBinaryAddress| {
          contexts[level] := c.(unaryAddress := c.unaryAddress + [ch]);
          return true;
        }
        ok := CreatePriorityBinaryOperator();
        if !ok {
          return false;
        }
        var d := contexts[level];
        contexts[level] := d.(priority := false, binaryAddress := d.binaryAddress + [ch]);
        return true;
      }
      // The C++ count is a size_t: decremented from zero it wraps to a
      // value no deque size reaches, as -1 does here.
      var count: int := |c.general|;
      if c.twoArguments || (level == 0 && c.general != [] && !c.general[0].ArithmeticHandle?) {
        count := count - 1;
      }
      if count == |c.binaryAddress| {
        contexts[level] := c.(unaryAddress := c.unaryAddress + [ch]);
      } else {
        contexts[level] := c.(binaryAddress := c.binaryAddress + [ch]);
      }
      return true;
    }

    /** ProcessToFinalOperator: the end-of-block reductions. The C++ reads
        the front of an empty general deque when a block ends in a binary
        symbol with no operand, so that case is excluded. */
    method ProcessToFinalOperator() returns (ok: bool)
      requires Valid() && ProcessToFinal(State()).Final?
      modifies this, contexts
      ensures Valid()
      ensures State() == ProcessToFinal(old(State())).state
      ensures ok == ProcessToFinal(old(State())).ok
    {
      ghost var g := State();
      var c := contexts[level];
      if c.priorityLogicalKeyword != [] {
        ok := FinalLogicalChains();
        return ok;
      } else if c.logicalKeyword != [] {
        ok := CreateLogicalOperator();
        return ok;
      }
      if c.priorityBinaryAddress != [] {
        ok := CreatePriorityBinaryOperator();
        if !ok {
          return false;
        }
        contexts[level] := contexts[level].(priority := false);
        ghost var c1 := CreatePriorityBinary(c).state.(priority := false);
        assert State() == g.WithCurrent(c1);
        assert ProcessToFinal(g) == FinalSum(g.WithCurrent(c1));
      } else {
        assert g.WithCurrent(c) == g;
        assert ProcessToFinal(g) == FinalSum(g);
      }
      ok := FinalSumOperator();
    }

    /** ProcessToFinalOperator with an AND chain pending: the AND chain,
        then any OR/XOR chain, then any sum. */
    method FinalLogicalChains() returns (ok: bool)
      requires Valid() && contexts[level].priorityLogicalKeyword != []
      modifies contexts
      ensures Valid()
      ensures ProcessToFinal(old(State())).Final?
      ensures State() == ProcessToFinal(old(State())).state
      ensures ok == ProcessToFinal(old(State())).ok
    {
      ghost var g := State();
      var c := contexts[level];
      ok := CreatePriorityLogicalOperator();
      if !ok {
        return false;
      }
      ghost var p := CreatePriorityLogical(c).state;
      if contexts[level].logicalKeyword != [] {
        ok := CreateLogicalOperator();
        if !ok {
          return false;
        }
      }
      ghost var l := if p.logicalKeyword != [] then CreateLogical(p).state else p;
      assert State() == g.WithCurrent(l);
      if contexts[level].binaryAddress != [] {
        ok := CreateBinaryOperator();
        return ok;
      }
      return true;
    }

    /** The tail of ProcessToFinalOperator once the product is closed:
        the sum (with a leading guard set aside), then the statement
        keyword. */
    method FinalSumOperator() returns (ok: bool)
      requires Valid() && FinalSum(State()).Final?
      modifies this, contexts
      ensures Valid()
      ensures State() == FinalSum(old(State())).state
      ensures ok == FinalSum(old(State())).ok
    {
      if contexts[level].binaryAddress == [] {
        if contexts[level].conditionalKeyword != [] {
          ok := CreateConditionalOperator();
          return ok;
        }
        return true;
      }
      if contexts[level].general[0].ArithmeticHandle? {
        ok := CreateBinaryOperator();
        return ok;
      }
      ok := GuardedSum();
    }

    /** The sum behind a leading guard: the guard is set aside while the
        sum is reduced and put back in front, then the statement keyword
        is processed. */
    method GuardedSum() returns (ok: bool)
      requires Valid() && contexts[level].binaryAddress != []
      requires contexts[level].general != [] && !contexts[level].general[0].ArithmeticHandle?
      modifies this, contexts
      ensures Valid()
      ensures State() == FinalSum(old(State())).state
      ensures ok == FinalSum(old(State())).ok
    {
      ghost var g := State();
      var c := contexts[level];
      var front := c.general[0];
      contexts[level] := c.(general := c.general[1..]);
      ok := CreateBinaryOperator();
      contexts[level] := contexts[level].(general := [front] + contexts[level].general);
      ghost var b := CreateBinary(c.(general := c.general[1..]));
      assert State() == g.WithCurrent(b.state.(general := [front] + b.state.general));
      if !ok {
        return false;
      }
      if contexts[level].conditionalKeyword != [] {
        ok := CreateConditionalOperator();
        return ok;
      }
      return true;
    }

    // The block scanner writes through the per-level accessors
    // UpperString(), DigitString(), GeneralOperators() and
    // TwoArgumentsFlag(); each write below reaches the current level only.

    /** UpperString().push(word). */
    method PushUpperString(word: string)
      requires Valid()
      modifies contexts
      ensures Valid()
      ensures State() == old(State()).WithCurrent(old(State().Current()).(upperString := old(State().Current()).upperString + [word]))
    {
      var c := contexts[level];
      contexts[level] := c.(upperString := c.upperString + [word]);
    }

    /** DigitString().pop(): the C++ pops a stack it has just pushed. */
    method PopDigitString()
      requires Valid() && contexts[level].digitString != []
      modifies contexts
      ensures Valid()
      ensures State() == old(State()).WithCurrent(old(State().Current()).(digitString := Pop(old(State().Current()).digitString)))
    {
      var c := contexts[level];
      contexts[level] := c.(digitString := Pop(c.digitString));
    }

    /** GeneralOperators().pop_front(). */
    method PopFrontGeneral()
      requires Valid() && contexts[level].general != []
      modifies contexts
      ensures Valid()
      ensures State() == old(State()).WithCurrent(old(State().Current()).(general := old(State().Current()).general[1..]))
    {
      var c := contexts[level];
      contexts[level] := c.(general := c.general[1..]);
    }

    /** TwoArgumentsFlag() = true. */
    method SetTwoArguments()
      requires Valid()
      modifies contexts
      ensures Valid()
      ensures State() == old(State()).WithCurrent(old(State().Current()).(twoArguments := true))
    {
      var c := contexts[level];
      contexts[level] := c.(twoArguments := true);
    }

    /** The reductions ReturnPriorityOperatorToPreviousLevel applies to the
        level it leaves. */
    method ReduceLevel() returns (ok: bool)
      requires Valid()
      modifies contexts
      ensures Valid()
      ensures State() == old(State()).WithCurrent(ReduceBeforeReturn(old(State().Current())).state)
      ensures ok == ReduceBeforeReturn(old(State().Current())).ok
    {
      var c := contexts[level];
      ok := true;
      if c.priorityBinaryAddress != [] {
        ok := CreatePriorityBinaryOperator();
        if !ok {
          return false;
        }
        contexts[level] := contexts[level].(priority := false);
        var ignored := CreateBinaryOperator();
      } else if c.binaryAddress != [] {
        ok := CreateBinaryOperator();
      } else if c.relationalKeyword != [] {
        ok := CreateRelationalOperator();
      } else if c.priorityLogicalKeyword != [] {
        ok := CreatePriorityLogicalOperator();
        if ok && contexts[level].logicalKeyword != [] {
          ok := CreateLogicalOperator();
        }
      } else if c.logicalKeyword != [] {
        ok := CreateLogicalOperator();
      }
    }

    /** ReturnPriorityOperatorToPreviousLevel: at ']', reduces the current
        level and hands its result one level down. */
    method ReturnPriorityOperatorToPreviousLevel() returns (ok: bool)
      requires Valid()
      modifies this, contexts
      ensures Valid()
      ensures State() == ReturnToPreviousLevel(old(State())).state
      ensures ok == ReturnToPreviousLevel(old(State())).ok
    {
      ok := ReduceLevel();
      if !ok {
        return false;
      }
      ok := HandResultDownOperator();
    }

    /** The tail of ReturnPriorityOperatorToPreviousLevel once the level
        is reduced. */
    method HandResultDownOperator() returns (ok: bool)
      requires Valid()
      modifies this, contexts
      ensures Valid()
      ensures State() == HandResultDown(old(State())).state
      ensures ok == HandResultDown(old(State())).ok
    {
      var c := contexts[level];
      if c.general == [] {
        return false;
      }
      if |c.general| == 1 {
        ok := HandOneDown();
      } else if |c.general| == 2 && c.twoArguments {
        ok := HandTwoDown();
      } else {
        return false;
      }
    }

    /** A single result goes down as an operand, through a one-operand
        function keyword waiting there if any. */
    method HandOneDown() returns (ok: bool)
      requires Valid() && |contexts[level].general| == 1
      modifies this, contexts
      ensures Valid()
      ensures State() == HandResultDown(old(State())).state
      ensures ok == HandResultDown(old(State())).ok
    {
      ghost var g := State();
      var c := contexts[level];
      var final := c.general[0];
      contexts[level] := c.(general := []);
      ghost var g2 := g.WithCurrent(c.(general := []));
      assert State() == g2;
      ok := LevelDown();
      if !ok {
        return false;
      }
      ghost var down := g2.(level := g2.level - 1);
      assert State() == down;
      assert HandResultDown(g) == Done(down.WithCurrent(HandDown(down.Current(), final)), true);
      PushDown(final);
      return true;
    }

    /** The result handed to the level below: through a one-operand
        function keyword waiting there if any, then the pending '#' and
        '-' symbols. */
    method PushDown(final: GeneralOperatorHandle)
      requires Valid()
      modifies contexts
      ensures Valid()
      ensures State() == old(State()).WithCurrent(HandDown(old(State().Current()), final))
    {
      var ok := false;
      if final.ArithmeticHandle? {
        ok := CreateUnaryFunctionOperator(final.arithmetic);
      }
      if !ok {
        contexts[level] := contexts[level].PushOperand(final);
      }
      var ignored := CreateUnaryAddressOperator();
    }

    /** Two arguments go down to the two-argument function waiting there. */
    method HandTwoDown() returns (ok: bool)
      requires Valid() && |contexts[level].general| == 2 && contexts[level].twoArguments
      modifies this, contexts
      ensures Valid()
      ensures State() == HandResultDown(old(State())).state
      ensures ok == HandResultDown(old(State())).ok
    {
      ghost var g := State();
      var c := contexts[level];
      if !c.general[0].ArithmeticHandle? || !c.general[1].ArithmeticHandle? {
        return false;
      }
      var first, second := c.general[0].arithmetic, c.general[1].arithmetic;
      contexts[level] := c.(general := [], twoArguments := false);
      ghost var g2 := g.WithCurrent(c.(general := [], twoArguments := false));
      assert State() == g2;
      ok := LevelDown();
      if !ok {
        return false;
      }
      ghost var down := g2.(level := g2.level - 1);
      assert State() == down;
      ok := CreateBinaryFunctionOperator(first, second);
      if !ok {
        return false;
      }
      assert State() == down.WithCurrent(CreateBinaryFunction(down.Current(), first, second).state);
      var ignored := CreateUnaryAddressOperator();
      return true;
    }

  }

  /** One pass of the loop of CreateBinaryOperator: the operands the symbol
      joins are taken from the front, or put back and the loop stops. */
  method BinaryStep(operands: seq<GeneralOperatorHandle>, symbols: seq<char>, last: Option<Arithmetic>, held: Option<Arithmetic>)
    returns (operands': seq<GeneralOperatorHandle>, symbols': seq<char>, last': Option<Arithmetic>, held': Option<Arithmetic>, stuck: bool)
    requires symbols != []
    ensures FoldBinary(operands', symbols', last', held') == FoldBinary(operands, symbols, last, held)
    ensures !stuck ==> |symbols'| < |symbols|
    ensures stuck ==> (operands', symbols', last', held') == (operands, symbols, last, held)
                      && FoldBinary(operands, symbols, last, held) == BinaryFold(operands, symbols, last, held, false)
  {
    operands', symbols', last', held', stuck := operands, symbols, last, held, true;
    var s := symbols[0];
    if last.None? && |operands| > 1 {
      var l, r := operands[0], operands[1];
      if l.ArithmeticHandle? && r.ArithmeticHandle? {
        if IsAdditive(s) {
          operands', last' := operands[2..], Some(Binary(AdditiveOp(s), l.arithmetic, r.arithmetic));
        } else if s == '=' {
          if |operands| == 2 {
            operands', last' := [], Some(Assignment(l.arithmetic, FromArithmetic(r.arithmetic)));
          } else {
            operands', held' := operands[1..], Some(l.arithmetic);
          }
        } else {
          return;
        }
        symbols', stuck := symbols[1..], false;
      } else if l.ArithmeticHandle? && r.LogicalHandle? && |operands| == 2 && s == '=' {
        operands', symbols', last', stuck := [], symbols[1..], Some(Assignment(l.arithmetic, FromLogical(r.logical))), false;
      }
    } else if last.Some? && operands != [] && operands[0].ArithmeticHandle? && IsAdditive(s) {
      operands', symbols', stuck := operands[1..], symbols[1..], false;
      last' := Some(Binary(AdditiveOp(s), last.value, operands[0].arithmetic));
    }
  }

  /** One pass of the loop of CreatePriorityBinaryOperator. */
  method PriorityStep(operands: seq<GeneralOperatorHandle>, symbols: seq<char>, last: Option<Arithmetic>)
    returns (operands': seq<GeneralOperatorHandle>, symbols': seq<char>, last': Option<Arithmetic>, stuck: bool)
    requires symbols != []
    ensures FoldPriority(operands', symbols', last') == FoldPriority(operands, symbols, last)
    ensures !stuck ==> |symbols'| < |symbols|
    ensures stuck ==> (operands', symbols', last') == (operands, symbols, last)
                      && FoldPriority(operands, symbols, last) == Fold(operands, symbols, last, false)
  {
    operands', symbols', last', stuck := operands, symbols, last, true;
    var s := symbols[0];
    if last.None? && |operands| > 1 {
      if operands[0].ArithmeticHandle? && operands[1].ArithmeticHandle? && IsMultiplicative(s) {
        operands', symbols', stuck := operands[2..], symbols[1..], false;
        last' := Some(Binary(MultiplicativeOp(s), operands[0].arithmetic, operands[1].arithmetic));
      }
    } else if last.Some? && operands != [] && operands[0].ArithmeticHandle? && IsMultiplicative(s) {
      operands', symbols', stuck := operands[1..], symbols[1..], false;
      last' := Some(Binary(MultiplicativeOp(s), last.value, operands[0].arithmetic));
    }
  }

  /** One pass of the loop of CreateLogicalOperator (`priority` false) or
      CreatePriorityLogicalOperator (`priority` true). */
  method LogicalStep(operands: seq<GeneralOperatorHandle>, keywords: seq<string>, last: Option<Logical>, priority: bool)
    returns (operands': seq<GeneralOperatorHandle>, keywords': seq<string>, last': Option<Logical>, stuck: bool)
    requires keywords != []
    ensures FoldLogical(operands', keywords', last', priority) == FoldLogical(operands, keywords, last, priority)
    ensures !stuck ==> |keywords'| < |keywords|
    ensures stuck ==> (operands', keywords', last') == (operands, keywords, last)
                      && FoldLogical(operands, keywords, last, priority) == Fold(operands, keywords, last, false)
  {
    operands', keywords', last', stuck := operands, keywords, last, true;
    var k := keywords[0];
    if !IsLogicalKeyword(k, priority) {
      return;
    }
    if last.None? && |operands| > 1 {
      if Pairs(operands[0], operands[1]) {
        operands', keywords', stuck := operands[2..], keywords[1..], false;
        last' := Some(Logical(LogicalKindOf(k, priority), AsOperand(operands[0]), AsOperand(operands[1])));
      }
    } else if last.Some? && operands != [] {
      operands', keywords', stuck := operands[1..], keywords[1..], false;
      last' := Some(Logical(LogicalKindOf(k, priority), LogicalOperand(last.value), AsOperand(operands[0])));
    }
  }
}
