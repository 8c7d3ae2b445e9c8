// What the generator does with a keyword or a symbol the scanner hands it,
// at the end of a block, and at a closing ']'. Each routine is a function
// of the generator (or of the current context) returning the new state and
// the C++ return value.
module MacroProcess {
  import opened MacroValues
  import opened MacroOperator
  import opened MacroContext
  import opened MacroReduction

  /** The guard a deque front holds: relational or logical, never arithmetic. */
  function ConditionOf(h: GeneralOperatorHandle): (r: Option<Condition>)
    ensures r.None? <==> h.ArithmeticHandle?
  {
    match h
    case ArithmeticHandle(_) => None
    case RelationalHandle(rel) => Some(RelationalCondition(rel))
    case LogicalHandle(l) => Some(LogicalCondition(l))
  }

  /** CreateConditionalOperator, at level 0 only: GOTO, THEN, DO and END with
      the expression after them (the last general operand) and, for an IF or
      WHILE form, the guard in front of it. A statement is stored and both
      deques are emptied, or nothing changes. */
  function CreateConditional(g: Generator): (r: Done<Generator>)
    requires g.Valid()
    ensures r.state.Valid() && r.state.level == g.level
    ensures !r.ok ==> r.state == g
    ensures r.ok ==> g.level == 0 && r.state.HasStatement()
    ensures r.ok ==> r.state.Current() == g.Current().(conditionalKeyword := [], general := [])
    ensures forall k :: 0 <= k < |g.contexts| && k != g.level ==> r.state.contexts[k] == g.contexts[k]
  {
    var c := g.Current();
    if g.level == 0 && c.conditionalKeyword != [] && c.general != [] && Top(c.general).ArithmeticHandle? then
      var keyword := Top(c.conditionalKeyword);
      var target := Some(Top(c.general).arithmetic);
      var cleared := g.WithCurrent(c.(conditionalKeyword := [], general := []));
      var guard := ConditionOf(c.general[0]);
      var alone := |c.conditionalKeyword| == 1 && |c.general| == 1;
      if keyword == "GOTO" then
        if c.conditionalKeyword[0] == "IF" && |c.general| == 2 then
          if guard.None? then Done(g, false)
          else Done(cleared.(conditionalBranch := ConditionalBranch(guard.value, target)), true)
        else if alone then Done(cleared.(conditionalBranch := ConditionalBranch(Unconditional, target)), true)
        else Done(g, false)
      else if keyword == "THEN" then
        if c.conditionalKeyword[0] == "IF" && |c.general| == 2 && guard.Some? then
          Done(cleared.(conditionalArithmetic := ConditionalArithmetic(guard.value, target)), true)
        else Done(g, false)
      else if keyword == "DO" then
        if c.conditionalKeyword[0] == "WHILE" && |c.general| == 2 then
          if guard.None? then Done(g, false)
          else Done(cleared.(conditionalLoop := ConditionalLoop(guard.value, target)), true)
        else if alone then Done(cleared.(conditionalLoop := ConditionalLoop(Unconditional, target)), true)
        else Done(g, false)
      else if keyword == "END" then
        if alone then Done(cleared.(loopEnd := LoopEnd(target)), true) else Done(g, false)
      else Done(g, false)
    else Done(g, false)
  }

  /** `IF [guard] GOTO n` stores a guarded branch to `n`. */
  lemma IfGoto(g: Generator, guard: Relational, n: Arithmetic)
    requires g.Valid() && g.level == 0
    requires g.Current().conditionalKeyword == ["IF", "GOTO"]
    requires g.Current().general == [RelationalHandle(guard), ArithmeticHandle(n)]
    ensures CreateConditional(g).ok
    ensures CreateConditional(g).state.conditionalBranch == ConditionalBranch(RelationalCondition(guard), Some(n))
    ensures CreateConditional(g).state.conditionalArithmetic == g.conditionalArithmetic
  {
  }

  /** `IF [guard] THEN t = e`: the statement after THEN runs under the guard;
      with an arithmetic value in place of the guard nothing is stored. */
  lemma IfThen(g: Generator, guard: GeneralOperatorHandle, statement: Arithmetic)
    requires g.Valid() && g.level == 0
    requires g.Current().conditionalKeyword == ["IF", "THEN"]
    requires g.Current().general == [guard, ArithmeticHandle(statement)]
    ensures CreateConditional(g).ok <==> !guard.ArithmeticHandle?
    ensures CreateConditional(g).ok ==>
      CreateConditional(g).state.conditionalArithmetic == ConditionalArithmetic(ConditionOf(guard).value, Some(statement))
  {
  }

  /** A lone `GOTO n`, `DO n` or `END n` stores an unguarded statement. */
  lemma LoneKeyword(g: Generator, keyword: string, n: Arithmetic)
    requires g.Valid() && g.level == 0
    requires keyword in {"GOTO", "DO", "END"}
    requires g.Current().conditionalKeyword == [keyword] && g.Current().general == [ArithmeticHandle(n)]
    ensures CreateConditional(g).ok
    ensures keyword == "GOTO" ==> CreateConditional(g).state.conditionalBranch == ConditionalBranch(Unconditional, Some(n))
    ensures keyword == "DO" ==> CreateConditional(g).state.conditionalLoop == ConditionalLoop(Unconditional, Some(n))
    ensures keyword == "END" ==> CreateConditional(g).state.loopEnd == LoopEnd(Some(n))
  {
  }

  /** ProcessOperatorKeyword: the top upper-case word is looked up and
      moved to the stack or deque of its kind. OR and XOR first close a
      pending AND chain; AND enters AND mode by moving the last general
      operand to the priority deque (the flag is set even when none is
      there to move). */
  function ProcessKeyword(c: Context): (r: Done<Context>)
    requires c.upperString != []
    ensures Top(c.upperString) !in KeywordList ==> r == Done(c, false)
    ensures r.ok ==> Top(c.upperString) in KeywordList && r.state.upperString == Pop(c.upperString)
  {
    var word := Top(c.upperString);
    if word !in KeywordList then Done(c, false) else FileKeyword(c, KeywordList[word])
  }

  /** What ProcessOperatorKeyword does with the top word once its kind is
      looked up. */
  function FileKeyword(c: Context, kind: OperatorType): (r: Done<Context>)
    requires c.upperString != []
    ensures r.ok ==> r.state.upperString == Pop(c.upperString)
  {
    var word := Top(c.upperString);
    var popped := c.(upperString := Pop(c.upperString));
    match kind
      case UnaryFunctionKeyword => Done(popped.(unaryKeyword := c.unaryKeyword + [word]), true)
      case UnaryBinaryFunctionKeyword => Done(popped.(unaryBinaryKeyword := c.unaryBinaryKeyword + [word]), true)
      case BinaryFunctionKeyword => Done(popped.(binaryKeyword := c.binaryKeyword + [word]), true)
      case RelationalKeyword => Done(popped.(relationalKeyword := c.relationalKeyword + [word]), true)
      case BinaryLogicalKeyword =>
        if c.priorityLogical then
          var p := CreatePriorityLogical(c);
          if !p.ok then Done(p.state, false)
          else Done(p.state.(priorityLogical := false, logicalKeyword := c.logicalKeyword + [word],
                             upperString := Pop(c.upperString)), true)
        else Done(popped.(logicalKeyword := c.logicalKeyword + [word]), true)
      case PriorityBinaryLogicalKeyword =>
        if !c.priorityLogical then
          if c.general == [] then Done(c.(priorityLogical := true), false)
          else Done(popped.(priorityLogical := true, priorityGeneral := c.priorityGeneral + [Top(c.general)],
                            general := Pop(c.general), priorityLogicalKeyword := c.priorityLogicalKeyword + [word]), true)
        else Done(popped.(priorityLogicalKeyword := c.priorityLogicalKeyword + [word]), true)
      case IfKeyword => Done(popped.(conditionalKeyword := c.conditionalKeyword + [word]), true)
      case WhileKeyword => Done(popped.(conditionalKeyword := c.conditionalKeyword + [word]), true)
      case BranchKeyword => Done(popped.(conditionalKeyword := c.conditionalKeyword + [word]), true)
      case ThenKeyword => Done(popped.(conditionalKeyword := c.conditionalKeyword + [word]), true)
      case LoopKeyword => Done(popped.(conditionalKeyword := c.conditionalKeyword + [word]), true)
      case EndKeyword => Done(popped.(conditionalKeyword := c.conditionalKeyword + [word]), true)
      case _ => Done(c, false)
  }

  /** Every keyword of the table is accepted, except that OR and XOR fail
      while an AND chain cannot be closed and AND fails with no operand
      before it. */
  lemma KeywordAccepted(c: Context)
    requires c.upperString != [] && Top(c.upperString) in KeywordList
    ensures var kind := KeywordList[Top(c.upperString)];
            ProcessKeyword(c).ok <==>
              if kind == BinaryLogicalKeyword then !c.priorityLogical || CreatePriorityLogical(c).ok
              else if kind == PriorityBinaryLogicalKeyword then c.priorityLogical || c.general != []
              else true
  {
  }

  /** AND outside AND mode takes the operand just before it along, so
      `a OR b AND c` groups as `a OR (b AND c)`. */
  lemma AndTakesPreviousOperand(c: Context)
    requires c.upperString != [] && Top(c.upperString) == "AND"
    requires !c.priorityLogical && c.general != []
    ensures var r := ProcessKeyword(c);
            r.ok && r.state.priorityLogical
            && r.state.priorityGeneral == c.priorityGeneral + [Top(c.general)]
            && r.state.general == Pop(c.general)
            && r.state.priorityLogicalKeyword == c.priorityLogicalKeyword + ["AND"]
  {
  }

  /** ProcessUnaryBinaryAddress: whether a '-' is a sign or a subtraction.
      It is a sign right after a relational keyword, in '*'/'/' mode when
      every priority operand already has its symbol, and otherwise when the
      general operands (minus a kept first argument, or a leading guard at
      level 0) number no more than the pending binary symbols. A '-' after
      a complete product closes the product first. */
  function ProcessUnaryBinary(c: Context, level: nat, ch: char): (r: Done<Context>)
    ensures r.ok ==> (r.state.unaryAddress == c.unaryAddress + [ch] && r.state.binaryAddress == c.binaryAddress)
                     || (r.state.unaryAddress == c.unaryAddress && r.state.binaryAddress == c.binaryAddress + [ch] && !r.state.priority)
    ensures c.relationalKeyword != [] ==> r.ok && r.state.unaryAddress == c.unaryAddress + [ch]
    ensures !r.ok ==> c.relationalKeyword == [] && c.priority && r == CreatePriorityBinary(c)
  {
    if c.relationalKeyword != [] then Done(c.(unaryAddress := c.unaryAddress + [ch]), true)
    else if c.priority then
      if |c.priorityGeneral| == |c.priorityBinaryAddress| then Done(c.(unaryAddress := c.unaryAddress + [ch]), true)
      else
        var p := CreatePriorityBinary(c);
        if !p.ok then Done(p.state, false)
        else Done(p.state.(priority := false, binaryAddress := p.state.binaryAddress + [ch]), true)
    else
      // size_t arithmetic: one less than zero never equals a deque size
      var count := |c.general| - (if c.twoArguments || (level == 0 && c.general != [] && !c.general[0].ArithmeticHandle?) then 1 else 0);
      if count == |c.binaryAddress| then Done(c.(unaryAddress := c.unaryAddress + [ch]), true)
      else Done(c.(binaryAddress := c.binaryAddress + [ch]), true)
  }

  /** In general mode, outside a relation and a function's arguments, a
      '-' is a sign exactly when every operand already has its symbol. */
  lemma MinusIsSignWhenOperandMissing(c: Context, level: nat)
    requires c.relationalKeyword == [] && !c.priority && !c.twoArguments
    requires level > 0 || c.general == [] || c.general[0].ArithmeticHandle?
    ensures ProcessUnaryBinary(c, level, '-').ok
    ensures ProcessUnaryBinary(c, level, '-').state.unaryAddress == c.unaryAddress + ['-']
            <==> |c.general| == |c.binaryAddress|
    ensures |c.general| != |c.binaryAddress| ==>
            ProcessUnaryBinary(c, level, '-').state.binaryAddress == c.binaryAddress + ['-']
  {
  }

  /** ProcessOperatorAddress: '#' is pushed as a unary symbol; '+' and '='
      close a pending product and queue as binary symbols; '*' and '/'
      enter '*'/'/' mode by moving the last general operand to the priority
      deque (the flag and the symbol are set even when none is there to
      move); '-' is decided by ProcessUnaryBinary. */
  function ProcessAddress(c: Context, level: nat, kind: OperatorType, ch: char): (r: Done<Context>)
    ensures kind == UnaryAddress ==> r == Done(c.(unaryAddress := c.unaryAddress + [ch]), true)
    ensures kind == BinaryAddress && !c.priority ==> r == Done(c.(binaryAddress := c.binaryAddress + [ch]), true)
    ensures kind == BinaryAddress && c.priority ==>
              r.ok == CreatePriorityBinary(c).ok && (r.ok ==> !r.state.priority && r.state.binaryAddress == c.binaryAddress + [ch])
    ensures kind == PriorityBinaryAddress ==> r.state.priority && r.state.priorityBinaryAddress == c.priorityBinaryAddress + [ch]
    ensures kind == PriorityBinaryAddress ==> (r.ok <==> c.priority || c.general != [])
    ensures kind == NotAnOperator ==> r == Done(c, false)
  {
    match kind
    case UnaryAddress => Done(c.(unaryAddress := c.unaryAddress + [ch]), true)
    case BinaryAddress =>
      if c.priority then
        var p := CreatePriorityBinary(c);
        if !p.ok then Done(p.state, false)
        else Done(p.state.(priority := false, binaryAddress := p.state.binaryAddress + [ch]), true)
      else Done(c.(binaryAddress := c.binaryAddress + [ch]), true)
    case PriorityBinaryAddress =>
      var queued := c.(priority := true, priorityBinaryAddress := c.priorityBinaryAddress + [ch]);
      if c.priority then Done(queued, true)
      else if c.general == [] then Done(queued, false)
      else Done(queued.(priorityGeneral := c.priorityGeneral + [Top(c.general)], general := Pop(c.general)), true)
    case UnaryBinaryAddress => ProcessUnaryBinary(c, level, ch)
    case _ => Done(c, false)
  }

  /** `a * b + c`: the '+' closes the product, which is appended to the
      general deque ahead of `c`. */
  lemma PlusClosesProduct(c: Context, level: nat)
    requires c.priority && IsProduct(c.priorityGeneral, c.priorityBinaryAddress)
    ensures var r := ProcessAddress(c, level, BinaryAddress, '+');
            r.ok && !r.state.priority && r.state.priorityGeneral == [] && r.state.binaryAddress == c.binaryAddress + ['+']
            && r.state.general == c.general + [ArithmeticHandle(LeftChain(Arguments(c.priorityGeneral), MultiplicativeOps(c.priorityBinaryAddress)))]
  {
    PriorityProduct(c);
  }

  /** What ProcessToFinalOperator leaves: a new state and return value, or
      undefined behaviour (front() of an empty deque). */
  datatype Final = Final(state: Generator, ok: bool) | Undefined

  function FinalConditional(g: Generator): (r: Final)
    requires g.Valid()
    ensures r.Final? && r.state.Valid() && r.state.level == g.level
  {
    if g.Current().conditionalKeyword != [] then
      var d := CreateConditional(g); Final(d.state, d.ok)
    else Final(g, true)
  }

  /** ProcessToFinalOperator: at the end of a block, closes the pending AND,
      OR/XOR, product and sum chains of the current level, in that order, and
      then the statement keyword. A leading guard is set aside while the sum
      behind it is reduced. */
  function ProcessToFinal(g: Generator): (r: Final)
    requires g.Valid()
    ensures r.Final? ==> r.state.Valid() && r.state.level == g.level
    ensures r.Final? ==> forall k :: 0 <= k < |g.contexts| && k != g.level ==> r.state.contexts[k] == g.contexts[k]
    ensures r.Final? ==> r.state.Current().relationalKeyword == g.Current().relationalKeyword
    ensures r.Undefined? <==> var c := g.Current();
              c.priorityLogicalKeyword == [] && c.logicalKeyword == [] && c.priorityBinaryAddress == []
              && c.binaryAddress != [] && c.general == []
  {
    var c := g.Current();
    if c.priorityLogicalKeyword != [] then
      var p := CreatePriorityLogical(c);
      if !p.ok then Final(g.WithCurrent(p.state), false)
      else
        var l := if p.state.logicalKeyword != [] then CreateLogical(p.state) else Done(p.state, true);
        if !l.ok then Final(g.WithCurrent(l.state), false)
        else
          var b := if l.state.binaryAddress != [] then CreateBinary(l.state) else Done(l.state, true);
          Final(g.WithCurrent(b.state), b.ok)
    else if c.logicalKeyword != [] then
      var l := CreateLogical(c);
      Final(g.WithCurrent(l.state), l.ok)
    else
      var p := if c.priorityBinaryAddress != [] then CreatePriorityBinary(c) else Done(c, true);
      if !p.ok then Final(g.WithCurrent(p.state), false)
      else
        var c1 := if c.priorityBinaryAddress != [] then p.state.(priority := false) else p.state;
        FinalSum(g.WithCurrent(c1))
  }

  /** The rest of ProcessToFinalOperator once no logical keyword is pending
      and the product is closed: the sum, with a leading guard set aside,
      then the statement keyword. */
  function FinalSum(g: Generator): (r: Final)
    requires g.Valid()
    ensures r.Final? ==> r.state.Valid() && r.state.level == g.level
    ensures r.Final? ==> forall k :: 0 <= k < |g.contexts| && k != g.level ==> r.state.contexts[k] == g.contexts[k]
    ensures r.Final? ==> r.state.Current().relationalKeyword == g.Current().relationalKeyword
    ensures r.Undefined? <==> g.Current().binaryAddress != [] && g.Current().general == []
  {
    var c1 := g.Current();
    if c1.binaryAddress == [] then FinalConditional(g)
    else if c1.general == [] then Undefined
    else if !c1.general[0].ArithmeticHandle? then
      var guard := c1.general[0];
      var b := CreateBinary(c1.(general := c1.general[1..]));
      var c2 := b.state.(general := [guard] + b.state.general);
      if !b.ok then Final(g.WithCurrent(c2), false)
      else FinalConditional(g.WithCurrent(c2))
    else
      var b := CreateBinary(c1);
      Final(g.WithCurrent(b.state), b.ok)
  }

  /** A block that ends in `t = e` reduces the sum to an assignment; no
      statement keyword is involved. */
  lemma FinalAssignment(g: Generator, target: Arithmetic, operands: seq<GeneralOperatorHandle>, symbols: seq<char>)
    requires g.Valid()
    requires var c := g.Current();
             c.priorityLogicalKeyword == [] && c.logicalKeyword == [] && c.priorityBinaryAddress == [] && !c.twoArguments
             && c.general == [ArithmeticHandle(target)] + operands && c.binaryAddress == ['='] + symbols
             && IsSum(operands, symbols)
    ensures ProcessToFinal(g) == Final(g.WithCurrent(g.Current().(general :=
              [ArithmeticHandle(Assignment(target, FromArithmetic(LeftChain(Arguments(operands), AdditiveOps(symbols)))))],
              binaryAddress := [])), true)
  {
    AssignedChain(g.Current(), target, operands, symbols);
  }

  /** The context one level down after a ']' handed it `h`: a one-operand
      function keyword waiting there wraps an arithmetic `h`; otherwise `h`
      is added as it is. Pending '#' and '-' symbols then apply. */
  function HandDown(lower: Context, h: GeneralOperatorHandle): (r: Context)
    ensures r.InPriorityMode() == lower.InPriorityMode() && r.binaryKeyword == lower.binaryKeyword
    ensures lower.unaryAddress == [] && !(h.ArithmeticHandle? && CreateUnaryFunction(lower, h.arithmetic).ok) ==>
              r == lower.PushOperand(h)
    ensures lower.unaryAddress == [] && h.ArithmeticHandle? && lower.unaryKeyword != []
            && UnaryFunctionOf(Top(lower.unaryKeyword)).Some? ==>
              r.Operands() == lower.Operands() + [ArithmeticHandle(Function(UnaryFunctionOf(Top(lower.unaryKeyword)).value, h.arithmetic))]
              && r.unaryKeyword == Pop(lower.unaryKeyword)
  {
    var pushed :=
      if h.ArithmeticHandle? && CreateUnaryFunction(lower, h.arithmetic).ok then CreateUnaryFunction(lower, h.arithmetic).state
      else lower.PushOperand(h);
    CreateUnaryAddress(pushed).state
  }

  /** The reduction ReturnPriorityOperatorToPreviousLevel applies first: a
      product (then the sum it belongs to, whose result is not checked), a
      sum, a relation, an AND chain (then OR/XOR), or an OR/XOR chain. */
  function ReduceBeforeReturn(c: Context): (r: Done<Context>)
    ensures r.state.unaryKeyword == c.unaryKeyword && r.state.unaryBinaryKeyword == c.unaryBinaryKeyword
            && r.state.binaryKeyword == c.binaryKeyword && r.state.unaryAddress == c.unaryAddress
            && r.state.conditionalKeyword == c.conditionalKeyword && r.state.twoArguments == c.twoArguments
    ensures (c.priorityBinaryAddress == [] && c.binaryAddress == [] && c.relationalKeyword == []
             && c.priorityLogicalKeyword == [] && c.logicalKeyword == []) ==> r == Done(c, true)
    ensures c.priorityBinaryAddress == [] && c.binaryAddress != [] && r.ok ==> r.state.binaryAddress == []
  {
    if c.priorityBinaryAddress != [] then
      var p := CreatePriorityBinary(c);
      if !p.ok then p
      else Done(CreateBinary(p.state.(priority := false)).state, true)
    else if c.binaryAddress != [] then CreateBinary(c)
    else if c.relationalKeyword != [] then CreateRelational(c)
    else if c.priorityLogicalKeyword != [] then
      var p := CreatePriorityLogical(c);
      if !p.ok then p
      else if p.state.logicalKeyword != [] then CreateLogical(p.state)
      else p
    else if c.logicalKeyword != [] then CreateLogical(c)
    else Done(c, true)
  }

  /** ReturnPriorityOperatorToPreviousLevel: at ']', reduces the current
      level and hands its single result down one level (a `[a, b]` pair
      becomes the arguments of POW or ATAN there). */
  function ReturnToPreviousLevel(g: Generator): (r: Done<Generator>)
    requires g.Valid()
    ensures r.state.Valid()
    ensures r.ok ==> g.level > 0 && r.state.level == g.level - 1
    ensures r.ok ==> forall k :: 0 <= k < |g.contexts| && k != g.level && k != g.level - 1 ==> r.state.contexts[k] == g.contexts[k]
    ensures r.state.Statements() == g.Statements()
  {
    var reduced := ReduceBeforeReturn(g.Current());
    var g1 := g.WithCurrent(reduced.state);
    if !reduced.ok then Done(g1, false) else HandResultDown(g1)
  }

  /** The rest of ReturnPriorityOperatorToPreviousLevel once the level it
      leaves is reduced: its single result, or its two arguments, go one
      level down. */
  function HandResultDown(g: Generator): (r: Done<Generator>)
    requires g.Valid()
    ensures r.state.Valid()
    ensures r.ok ==> g.level > 0 && r.state.level == g.level - 1
    ensures r.ok ==> forall k :: 0 <= k < |g.contexts| && k != g.level && k != g.level - 1 ==> r.state.contexts[k] == g.contexts[k]
    ensures r.state.Statements() == g.Statements()
  {
    var c := g.Current();
    if c.general == [] then Done(g, false)
    else if |c.general| == 1 then
      var g2 := g.WithCurrent(c.(general := []));
      if g2.level == 0 then Done(g2, false)
      else
        var down := g2.(level := g2.level - 1);
        Done(down.WithCurrent(HandDown(down.Current(), c.general[0])), true)
    else if |c.general| == 2 && c.twoArguments then
      if !c.general[0].ArithmeticHandle? || !c.general[1].ArithmeticHandle? then Done(g, false)
      else
        var g2 := g.WithCurrent(c.(general := [], twoArguments := false));
        if g2.level == 0 then Done(g2, false)
        else
          var down := g2.(level := g2.level - 1);
          var f := CreateBinaryFunction(down.Current(), c.general[0].arithmetic, c.general[1].arithmetic);
          if !f.ok then Done(down.WithCurrent(f.state), false)
          else Done(down.WithCurrent(CreateUnaryAddress(f.state).state), true)
    else Done(g, false)
  }

  /** BIN, BCD and ADP build no node. */
  lemma NoNodeFor(c: Context, e: Arithmetic)
    requires c.unaryKeyword != [] && Top(c.unaryKeyword) in {"BIN", "BCD", "ADP"}
    ensures CreateUnaryFunction(c, e) == Done(c, false)
  {
    assert UnaryFunctionOf(Top(c.unaryKeyword)).None?;
  }

  /** `BIN[e]`, `BCD[e]` and `ADP[e]`: no node exists for these keywords, so
      the bracketed value is handed down unchanged and the keyword stays. */
  lemma UnsupportedFunctionPassesThrough(g: Generator, e: Arithmetic)
    requires g.Valid() && g.level > 0
    requires var c := g.Current();
             c.priorityBinaryAddress == [] && c.binaryAddress == [] && c.relationalKeyword == []
             && c.priorityLogicalKeyword == [] && c.logicalKeyword == [] && c.general == [ArithmeticHandle(e)]
    requires var lower := g.contexts[g.level - 1];
             lower.unaryKeyword != [] && Top(lower.unaryKeyword) in {"BIN", "BCD", "ADP"}
             && lower.unaryAddress == [] && !lower.InPriorityMode()
    ensures var r := ReturnToPreviousLevel(g);
            r.ok && r.state.Current() == g.contexts[g.level - 1].(general := g.contexts[g.level - 1].general + [ArithmeticHandle(e)])
  {
    var lower := g.contexts[g.level - 1];
    assert ReduceBeforeReturn(g.Current()) == Done(g.Current(), true);
    NoNodeFor(lower, e);
    assert HandDown(lower, ArithmeticHandle(e)) == lower.(general := lower.general + [ArithmeticHandle(e)]);
  }

  /** `SIN[e]` and the other one-operand keywords wrap the bracketed value
      and consume the keyword. */
  lemma FunctionWrapsBracket(g: Generator, e: Arithmetic)
    requires g.Valid() && g.level > 0
    requires var c := g.Current();
             c.priorityBinaryAddress == [] && c.binaryAddress == [] && c.relationalKeyword == []
             && c.priorityLogicalKeyword == [] && c.logicalKeyword == [] && c.general == [ArithmeticHandle(e)]
    requires var lower := g.contexts[g.level - 1];
             lower.unaryKeyword != [] && UnaryFunctionOf(Top(lower.unaryKeyword)).Some?
             && lower.unaryAddress == [] && !lower.InPriorityMode()
    ensures var lower := g.contexts[g.level - 1];
            var r := ReturnToPreviousLevel(g);
            r.ok && r.state.Current() == lower.(general := lower.general + [ArithmeticHandle(Function(UnaryFunctionOf(Top(lower.unaryKeyword)).value, e))],
                                                unaryKeyword := Pop(lower.unaryKeyword))
  {
    assert ReduceBeforeReturn(g.Current()) == Done(g.Current(), true);
  }

  /** `[a GT b]` is reduced to its relation when the bracket closes, and the
      relation is handed down as it is. */
  lemma BracketedRelation(g: Generator, kw: string, a: Arithmetic, b: Arithmetic)
    requires g.Valid() && g.level > 0
    requires RelationalKindOf(kw).Some?
    requires var c := g.Current();
             c.priorityBinaryAddress == [] && c.binaryAddress == [] && c.relationalKeyword == [kw]
             && c.general == [ArithmeticHandle(a), ArithmeticHandle(b)]
    requires var lower := g.contexts[g.level - 1]; lower.unaryAddress == [] && !lower.InPriorityMode()
    ensures var lower := g.contexts[g.level - 1];
            var r := ReturnToPreviousLevel(g);
            r.ok && r.state.Current() == lower.(general := lower.general + [RelationalHandle(Relational(RelationalKindOf(kw).value, a, b))])
  {
  }
}
