// The state of the macro expression generator: the keyword table, the
// per-nesting-level parsing contexts and the generator record that holds
// six of them, the current level and the four statement slots.
module MacroContext {
  import opened MacroValues
  import opened MacroOperator

  /** The deepest `[` nesting; the generator holds one more context. */
  const PriorityNestingLevelMax: nat := 5

  /** What a character or keyword stands for in an expression. */
  datatype OperatorType =
    | NotAnOperator
    | UnaryAddress | UnaryBinaryAddress | BinaryAddress | PriorityBinaryAddress
    | UnaryFunctionKeyword | UnaryBinaryFunctionKeyword | BinaryFunctionKeyword
    | RelationalKeyword
    | UnaryLogicalKeyword | BinaryLogicalKeyword | PriorityBinaryLogicalKeyword
    | IfKeyword | WhileKeyword | BranchKeyword | ThenKeyword | LoopKeyword | EndKeyword

  /** The keyword table: every upper-case word the generator knows. ATAN
      takes one or two arguments; BIN, BCD and ADP are registered but no
      node exists for them. */
  const KeywordList: map<string, OperatorType> := map[
    "SIN" := UnaryFunctionKeyword, "COS" := UnaryFunctionKeyword,
    "TAN" := UnaryFunctionKeyword, "ASIN" := UnaryFunctionKeyword,
    "ACOS" := UnaryFunctionKeyword, "ATAN" := UnaryBinaryFunctionKeyword,
    "SQRT" := UnaryFunctionKeyword, "ABS" := UnaryFunctionKeyword,
    "BIN" := UnaryFunctionKeyword, "BCD" := UnaryFunctionKeyword,
    "ROUND" := UnaryFunctionKeyword, "FIX" := UnaryFunctionKeyword,
    "FUP" := UnaryFunctionKeyword, "LN" := UnaryFunctionKeyword,
    "EXP" := UnaryFunctionKeyword, "POW" := BinaryFunctionKeyword,
    "ADP" := UnaryFunctionKeyword,
    "EQ" := RelationalKeyword, "NE" := RelationalKeyword,
    "GT" := RelationalKeyword, "GE" := RelationalKeyword,
    "LT" := RelationalKeyword, "LE" := RelationalKeyword,
    "AND" := PriorityBinaryLogicalKeyword,
    "OR" := BinaryLogicalKeyword, "XOR" := BinaryLogicalKeyword,
    "IF" := IfKeyword, "WHILE" := WhileKeyword, "GOTO" := BranchKeyword,
    "THEN" := ThenKeyword, "DO" := LoopKeyword, "END" := EndKeyword]

  /** The one-operand function a keyword builds; BIN, BCD, ADP and ATAN
      (which is kept apart for its two-argument form) build none here. */
  function UnaryFunctionOf(keyword: string): Option<UnaryFunction> {
    if keyword == "SIN" then Some(Sine)
    else if keyword == "COS" then Some(Cosine)
    else if keyword == "TAN" then Some(Tangent)
    else if keyword == "ASIN" then Some(ArcSine)
    else if keyword == "ACOS" then Some(ArcCosine)
    else if keyword == "SQRT" then Some(SquareRoot)
    else if keyword == "ABS" then Some(AbsoluteValue)
    else if keyword == "ROUND" then Some(RoundOff)
    else if keyword == "FIX" then Some(RoundDown)
    else if keyword == "FUP" then Some(RoundUp)
    else if keyword == "LN" then Some(NaturalLog)
    else if keyword == "EXP" then Some(Exponent)
    else None
  }

  /** Every keyword that builds a one-operand function is registered as
      one in the keyword table. */
  lemma UnaryFunctionsAreKeywords(keyword: string)
    requires UnaryFunctionOf(keyword).Some?
    ensures keyword in KeywordList && KeywordList[keyword] == UnaryFunctionKeyword
  {
    if keyword in ["SIN", "COS", "TAN", "ASIN", "ACOS", "SQRT"] {
      TrigonometricKeywords(keyword);
    } else {
      RoundingKeywords(keyword);
    }
  }

  lemma TrigonometricKeywords(keyword: string)
    requires keyword in ["SIN", "COS", "TAN", "ASIN", "ACOS", "SQRT"]
    ensures keyword in KeywordList && KeywordList[keyword] == UnaryFunctionKeyword
  {
  }

  lemma RoundingKeywords(keyword: string)
    requires keyword in ["ABS", "ROUND", "FIX", "FUP", "LN", "EXP"]
    ensures keyword in KeywordList && KeywordList[keyword] == UnaryFunctionKeyword
  {
  }

  /** Every one-operand keyword of the table but BIN, BCD and ADP builds a
      function. */
  lemma UnaryKeywordsBuildFunctions(keyword: string)
    requires keyword in KeywordList && KeywordList[keyword] == UnaryFunctionKeyword
    requires keyword != "BIN" && keyword != "BCD" && keyword != "ADP"
    ensures UnaryFunctionOf(keyword).Some?
  {
  }

  /** The comparison a relational keyword names. */
  function RelationalKindOf(keyword: string): (r: Option<RelationalKind>)
    ensures r.Some? <==> keyword in KeywordList && KeywordList[keyword] == RelationalKeyword
  {
    if keyword == "EQ" then Some(Equal)
    else if keyword == "NE" then Some(NotEqual)
    else if keyword == "GT" then Some(Greater)
    else if keyword == "GE" then Some(GreaterEqual)
    else if keyword == "LT" then Some(Less)
    else if keyword == "LE" then Some(LessEqual)
    else None
  }

  /** The top of a stack kept with its top at the end. */
  function Top<T>(s: seq<T>): T
    requires s != []
  {
    s[|s| - 1]
  }

  /** The stack without its top. */
  function Pop<T>(s: seq<T>): (r: seq<T>)
    requires s != []
    ensures |r| == |s| - 1 && r + [Top(s)] == s
  {
    s[..|s| - 1]
  }

  /** The characters an expression scanner reads as part of a number. */
  predicate IsDigitOrDot(ch: char)
    ensures IsDigitOrDot(ch) <==> ch in "0123456789."
  {
    '0' <= ch <= '9' || ch == '.'
  }

  /** The upper-case ASCII letters (`isupper` in the "C" locale). */
  predicate IsUpper(ch: char) {
    'A' <= ch <= 'Z'
  }

  /** One nesting level of pending work. Stacks have their top at the end,
      the queue and the deques their front at index 0. */
  datatype Context = Context(
    priority: bool,
    priorityLogical: bool,
    twoArguments: bool,
    unaryAddress: seq<char>,              // stack of pending '#' and unary '-'
    binaryAddress: seq<char>,             // deque of pending '+', '-', '='
    priorityBinaryAddress: seq<char>,     // queue of pending '*', '/'
    unaryKeyword: seq<string>,            // stack
    unaryBinaryKeyword: seq<string>,      // stack
    binaryKeyword: seq<string>,           // stack
    relationalKeyword: seq<string>,       // deque
    logicalKeyword: seq<string>,          // deque
    priorityLogicalKeyword: seq<string>,  // deque
    conditionalKeyword: seq<string>,      // deque
    digitString: seq<string>,             // stack
    upperString: seq<string>,             // stack
    general: seq<GeneralOperatorHandle>,
    priorityGeneral: seq<GeneralOperatorHandle>)
  {
    /** In `*`/`/` or AND mode operands go to the priority deque. */
    predicate InPriorityMode() {
      priority || priorityLogical
    }

    /** Appends `h` to the operand deque the current mode writes to. */
    function PushOperand(h: GeneralOperatorHandle): (r: Context)
      ensures InPriorityMode() ==> r == this.(priorityGeneral := priorityGeneral + [h])
      ensures !InPriorityMode() ==> r == this.(general := general + [h])
    {
      if InPriorityMode() then this.(priorityGeneral := priorityGeneral + [h])
      else this.(general := general + [h])
    }

    /** The operand deque the current mode writes to. */
    function Operands(): seq<GeneralOperatorHandle> {
      if InPriorityMode() then priorityGeneral else general
    }

    /** Every container emptied; the three flags are kept. */
    function ClearedContainers(): (r: Context)
      ensures r.priority == priority && r.priorityLogical == priorityLogical
      ensures r.twoArguments == twoArguments
      ensures r.Containers() == EmptyContext.Containers()
    {
      EmptyContext.(priority := priority, priorityLogical := priorityLogical,
        twoArguments := twoArguments)
    }

    /** The fifteen containers, flags aside. */
    function Containers(): Context {
      this.(priority := false, priorityLogical := false, twoArguments := false)
    }
  }

  /** A fresh context: no flags, every container empty. */
  const EmptyContext: Context := Context(false, false, false, [], [], [], [], [], [], [], [], [], [], [], [], [], [])

  /** ClearAll: flags down, containers empty. */
  function ClearAll(c: Context): (r: Context)
    ensures r == EmptyContext
  {
    c.ClearedContainers().(priority := false, priorityLogical := false, twoArguments := false)
  }

  /** The generator's state: six contexts, the current nesting level and
      the four statements a block can produce. */
  datatype Generator = Generator(
    contexts: seq<Context>,
    level: nat,
    conditionalArithmetic: ConditionalArithmetic,
    conditionalBranch: ConditionalBranch,
    conditionalLoop: ConditionalLoop,
    loopEnd: LoopEnd)
  {
    predicate Valid() {
      |contexts| == PriorityNestingLevelMax + 1 && level <= PriorityNestingLevelMax
    }

    /** The context every per-level accessor reaches. */
    function Current(): Context
      requires Valid()
    {
      contexts[level]
    }

    /** The current context replaced; every other level is untouched. */
    function WithCurrent(c: Context): (r: Generator)
      requires Valid()
      ensures r.Valid() && r.level == level && r.Current() == c
      ensures forall k :: 0 <= k < |contexts| && k != level ==> r.contexts[k] == contexts[k]
      ensures r.Statements() == Statements()
    {
      this.(contexts := contexts[level := c])
    }

    /** The four statement slots, as one value. */
    function Statements(): (ConditionalArithmetic, ConditionalBranch, ConditionalLoop, LoopEnd) {
      (conditionalArithmetic, conditionalBranch, conditionalLoop, loopEnd)
    }

    /** A block produced a statement. */
    predicate HasStatement() {
      !conditionalArithmetic.Empty() || !conditionalBranch.Empty()
      || !conditionalLoop.Empty() || !loopEnd.Empty()
    }
  }

  /** What a C++ member returning bool leaves behind: the new state and its
      return value. */
  datatype Done<S> = Done(state: S, ok: bool)

  /** The generator right after Clear. */
  function ClearedGenerator(): (r: Generator)
    ensures r.Valid() && r.level == 0 && !r.HasStatement()
    ensures forall k :: 0 <= k < |r.contexts| ==> r.contexts[k] == EmptyContext
  {
    Generator(seq(PriorityNestingLevelMax + 1, _ => EmptyContext), 0,
      ConditionalArithmetic(Unconditional, None), ConditionalBranch(Unconditional, None),
      ConditionalLoop(Unconditional, None), LoopEnd(None))
  }

  /** LevelUp: one level deeper while below the maximum. */
  function LevelUp(g: Generator): (r: Done<Generator>)
    requires g.Valid()
    ensures r.state.Valid()
    ensures r.ok <==> g.level < PriorityNestingLevelMax
    ensures r.ok ==> r.state == g.(level := g.level + 1)
    ensures !r.ok ==> r.state == g
  {
    if g.level == PriorityNestingLevelMax then Done(g, false)
    else Done(g.(level := g.level + 1), true)
  }

  /** LevelDown: one level up unless already at the top. */
  function LevelDown(g: Generator): (r: Done<Generator>)
    requires g.Valid()
    ensures r.state.Valid()
    ensures r.ok <==> g.level > 0
    ensures r.ok ==> r.state == g.(level := g.level - 1)
    ensures !r.ok ==> r.state == g
  {
    if g.level == 0 then Done(g, false)
    else Done(g.(level := g.level - 1), true)
  }

  /** Replacing the current context twice keeps only the second. */
  lemma ReplaceCurrentTwice(g: Generator, a: Context)
    requires g.Valid()
    ensures forall b :: g.WithCurrent(a).WithCurrent(b) == g.WithCurrent(b)
  {
  }

  /** Going down undoes going up, and the other way round. */
  lemma LevelUpDownInverse(g: Generator)
    requires g.Valid()
    ensures LevelUp(g).ok ==> LevelDown(LevelUp(g).state) == Done(g, true)
    ensures LevelDown(g).ok ==> LevelUp(LevelDown(g).state) == Done(g, true)
  {
  }

  /** IsMacroMode: the block is an expression once a level is open, or the
      outer context holds a pending '#', a binary symbol or a statement
      keyword. A lone unary minus does not count: "X-1." is an NC word. */
  function IsMacroMode(g: Generator): (r: bool)
    requires g.Valid()
    ensures g.level != 0 ==> r
    ensures g.level == 0 && g.contexts[0].binaryAddress == [] && g.contexts[0].conditionalKeyword == []
      && (g.contexts[0].unaryAddress == [] || g.contexts[0].unaryAddress[|g.contexts[0].unaryAddress| - 1] == '-')
      ==> !r
  {
    var c := g.contexts[0];
    g.level != 0
    || (c.unaryAddress != [] && Top(c.unaryAddress) != '-')
    || c.binaryAddress != []
    || c.conditionalKeyword != []
  }

  /** CheckOperatorType: '/' is a division only when an operand is already
      waiting, in the priority deque in `*`/`/` mode and in the general
      deque otherwise (AND mode alone does not switch deques here). */
  function CheckOperatorType(c: Context, ch: char): (r: OperatorType)
    ensures ch == '/' ==> (r == PriorityBinaryAddress <==> (if c.priority then c.priorityGeneral else c.general) != [])
    ensures ch == '/' && r != PriorityBinaryAddress ==> r == NotAnOperator
    ensures ch == '-' ==> r == UnaryBinaryAddress
    ensures ch == '#' ==> r == UnaryAddress
    ensures ch == '*' ==> r == PriorityBinaryAddress
    ensures ch == '+' || ch == '=' ==> r == BinaryAddress
    ensures ch !in "#=+*/-" ==> r == NotAnOperator
  {
    if ch == '#' then UnaryAddress
    else if ch == '=' || ch == '+' then BinaryAddress
    else if ch == '*' then PriorityBinaryAddress
    else if ch == '/' then
      if c.priority then (if c.priorityGeneral != [] then PriorityBinaryAddress else NotAnOperator)
      else (if c.general != [] then PriorityBinaryAddress else NotAnOperator)
    else if ch == '-' then UnaryBinaryAddress
    else NotAnOperator
  }
}
