// The block scanner: one left-to-right pass over an NC block that splits it
// into digit runs, upper-case runs and symbols, feeds them to the macro
// expression generator, and finally classifies the block. The pass is
// first written as a function over the scanner's flags and the generator
// value (Run), and the class below is proved to follow it.
module FanucMacroParsing {
  import opened MacroValues
  import opened MacroOperator
  import opened MacroContext
  import opened MacroReduction
  import opened MacroProcess
  import opened MacroGeneration

  const CommentBegin: char := '('
  const CommentEnd: char := ')'
  const PriorityRangeBegin: char := '['
  const PriorityRangeEnd: char := ']'
  const ArgumentSeparator: char := ','

  /** What a block is. The scanner itself only ever answers the first or
      the last. */
  datatype CommandType = InvalidCommand | UnknownCommand | NcCommand | MacroCommand

  /** The scanner's own state. The iterators into the block become indices;
      the NC address character, 0 when absent in the C++, is an Option. */
  datatype Argument = Argument(
    controlOut: bool,      // inside a comment
    digit: bool,           // inside a run of digits and dots
    upper: bool,           // inside a run of upper-case letters
    ncAddress: Option<char>,
    digitBegin: nat,
    upperBegin: nat)

  const InitialArgument: Argument := Argument(false, false, false, None, 0, 0)

  /** The scanner's flags together with the generator they drive. */
  datatype Scan = Scan(args: Argument, g: Generator)

  /** The end of ParseBlock: its answer and the generator it leaves, or
      undefined behaviour (front() of an empty deque). */
  datatype Outcome = Parsed(command: CommandType, state: Generator) | UndefinedBehaviour

  /** One character consumed: scanning goes on, or the block is decided. */
  datatype Progress = Next(scan: Scan) | Stop(outcome: Outcome)

  /** What the scan keeps true before position `i`: run starts lie behind. */
  predicate Wf(s: Scan, i: nat) {
    s.g.Valid() && s.args.digitBegin <= i && s.args.upperBegin <= i
  }

  /** An early INVALID answer. */
  function Invalid(g: Generator): Outcome {
    Parsed(InvalidCommand, g)
  }

  /** CreateAddressOrKeyword: the upper-case run ending before `i` is an NC
      address when it is one letter and a keyword otherwise. */
  function AddressOrKeyword(block: string, i: nat, s: Scan): (r: Done<Scan>)
    requires Wf(s, i) && i <= |block|
    ensures r.state.g.Valid() && r.state.g == s.g.WithCurrent(r.state.g.Current())
    ensures r.state.args.digitBegin == s.args.digitBegin && r.state.args.upperBegin <= s.args.upperBegin
    ensures r.ok ==> !r.state.args.upper
    ensures i == s.args.upperBegin + 1 ==>
              r.ok && r.state.g == s.g && r.state.args.ncAddress == Some(block[s.args.upperBegin])
    ensures i != s.args.upperBegin + 1 && block[s.args.upperBegin..i] !in KeywordList ==> !r.ok
  {
    var a := s.args;
    if i - a.upperBegin == 1 then
      Done(Scan(a.(ncAddress := Some(block[a.upperBegin]), upper := false, upperBegin := 0), s.g), true)
    else
      var c := s.g.Current();
      var k := ProcessKeyword(c.(upperString := c.upperString + [block[a.upperBegin..i]]));
      var g := s.g.WithCurrent(k.state);
      if !k.ok then Done(Scan(a, g), false)
      else Done(Scan(a.(upper := false, upperBegin := 0), g), true)
  }

  /** CreateUnaryOrConstantOperator: the digit run ending before `i` becomes
      a literal. In an expression it is a constant operand and the pending
      '#' and '-' apply to it; after an NC address it is that word's value
      and is dropped; otherwise it is a constant operand. */
  function UnaryOrConstant(block: string, i: nat, s: Scan): (r: Done<Scan>)
    requires Wf(s, i) && i <= |block|
    ensures r.state.g.Valid() && r.state.g == s.g.WithCurrent(r.state.g.Current())
    ensures r.state.args.upperBegin == s.args.upperBegin && r.state.args.digitBegin <= s.args.digitBegin
    ensures r.ok ==> !r.state.args.digit && r.state.args.upper == s.args.upper
    ensures var d := WithoutSign(s.g);
            !IsMacroMode(d) && s.args.ncAddress.Some? ==>
              r.ok && r.state.args.ncAddress.None? && r.state.g == d
  {
    var a := s.args;
    var g := s.g.WithCurrent(CreateDigitString(s.g.Current(), block[a.digitBegin..i]));
    var cleared := a.(digit := false, digitBegin := 0);
    SignedDigits(s.g, block[a.digitBegin..i]);
    // Replacing the current context of `g` is replacing that of `s.g`.
    if IsMacroMode(g) || a.ncAddress.None? then
      var k := CreateConstant(g.Current());
      if !k.ok then Done(Scan(a, s.g.WithCurrent(k.state)), false)
      else Done(Scan(cleared, s.g.WithCurrent(if IsMacroMode(g) then CreateUnaryAddress(k.state).state else k.state)), true)
    else
      var c := g.Current();
      Done(Scan(cleared.(ncAddress := None), s.g.WithCurrent(c.(digitString := Pop(c.digitString)))), true)
  }

  /** The generator once a literal has taken the pending unary minus, if
      any, as its sign. */
  function WithoutSign(g: Generator): (r: Generator)
    requires g.Valid()
    ensures r.Valid()
  {
    var c := g.Current();
    g.WithCurrent(c.(unaryAddress := if c.unaryAddress != [] && Top(c.unaryAddress) == '-' then Pop(c.unaryAddress) else c.unaryAddress))
  }

  /** A pushed literal differs from WithoutSign only in the literal stack,
      which macro mode does not look at. */
  lemma SignedDigits(g: Generator, digits: string)
    requires g.Valid()
    ensures var p := g.WithCurrent(CreateDigitString(g.Current(), digits));
            p == WithoutSign(g).WithCurrent(WithoutSign(g).Current().(digitString := p.Current().digitString))
            && IsMacroMode(p) == IsMacroMode(WithoutSign(g))
            && Pop(p.Current().digitString) == g.Current().digitString
  {
    var p := g.WithCurrent(CreateDigitString(g.Current(), digits));
    var w := WithoutSign(g);
    assert p.contexts == w.contexts[g.level := w.Current().(digitString := p.Current().digitString)];
    if g.level == 0 {
      assert p.contexts[0].unaryAddress == w.contexts[0].unaryAddress;
    }
  }

  /** An upper-case letter: it opens a run unless one is open. A letter
      that follows an NC address outside an expression closes that NC word:
      the arithmetic operand it built (`X#1` before `Y`) is dropped. */
  function UpperLetter(i: nat, s: Scan): (r: Progress)
    requires Wf(s, i)
    ensures r.Next? ==> Wf(r.scan, i + 1) && r.scan.args.upper && !r.scan.args.controlOut == !s.args.controlOut
    ensures r.Stop? ==> r.outcome == Invalid(s.g)
  {
    if s.args.upper then Next(s)
    else
      var a := s.args.(upper := true, upperBegin := i);
      if a.ncAddress.None? then Next(s.(args := a))
      else if !IsUpper(a.ncAddress.value) then Stop(Invalid(s.g))
      else
        var c := s.g.Current();
        if !IsMacroMode(s.g) && c.general != [] && c.general[0].ArithmeticHandle? then
          Next(Scan(a.(ncAddress := None), s.g.WithCurrent(c.(general := c.general[1..]))))
        else Next(s.(args := a))
  }

  /** Any other character, once the runs before it are closed: an operator
      symbol, '[' and ']', the argument separator, a comment start, or
      something the scanner skips. */
  function Symbol(ch: char, i: nat, s: Scan): (r: Progress)
    requires Wf(s, i)
    ensures r.Next? ==> Wf(r.scan, i + 1) && r.scan.args.digit == s.args.digit && r.scan.args.upper == s.args.upper
    ensures r.Stop? ==> r.outcome.Parsed? && r.outcome.command == InvalidCommand && r.outcome.state.Valid()
  {
    var c := s.g.Current();
    var kind := CheckOperatorType(c, ch);
    if kind != NotAnOperator then
      var p := ProcessAddress(c, s.g.level, kind, ch);
      var g := s.g.WithCurrent(p.state);
      if p.ok then Next(s.(g := g)) else Stop(Invalid(g))
    else if ch == PriorityRangeBegin then
      var l := MacroContext.LevelUp(s.g);
      if l.ok then Next(s.(g := l.state)) else Stop(Invalid(l.state))
    else if ch == PriorityRangeEnd then
      var l := ReturnToPreviousLevel(s.g);
      if l.ok then Next(s.(g := l.state)) else Stop(Invalid(l.state))
    else if ch == ArgumentSeparator then
      if c.twoArguments then Stop(Invalid(s.g))
      else Next(s.(g := s.g.WithCurrent(c.(twoArguments := true))))
    else if ch == CommentBegin then Next(s.(args := s.args.(controlOut := true)))
    else Next(s)
  }

  /** One pass of the character loop of ParseBlock at position `i`. */
  function Step(block: string, i: nat, s: Scan): (r: Progress)
    requires Wf(s, i) && i < |block|
    ensures r.Next? ==> Wf(r.scan, i + 1)
    ensures r.Stop? ==> r.outcome.Parsed? && r.outcome.command == InvalidCommand && r.outcome.state.Valid()
  {
    var ch := block[i];
    if s.args.controlOut then Next(s.(args := s.args.(controlOut := ch != CommentEnd)))
    else if IsDigitOrDot(ch) then DigitCharacter(block, i, s)
    else OtherCharacter(block, i, s)
  }

  /** A digit or '.': it opens a digit run unless one is open, and closes
      an upper-case run. */
  function DigitCharacter(block: string, i: nat, s: Scan): (r: Progress)
    requires Wf(s, i) && i < |block|
    ensures r.Next? ==> Wf(r.scan, i + 1)
    ensures r.Stop? ==> r.outcome.Parsed? && r.outcome.command == InvalidCommand && r.outcome.state.Valid()
  {
    var a := if s.args.digit then s.args else s.args.(digit := true, digitBegin := i);
    if !a.upper then Next(s.(args := a))
    else
      var k := AddressOrKeyword(block, i, s.(args := a));
      if !k.ok then Stop(Invalid(k.state.g)) else Next(k.state)
  }

  /** Any character but a digit or '.': it closes a digit run, then is an
      upper-case letter, or closes an upper-case run and is a symbol. */
  function OtherCharacter(block: string, i: nat, s: Scan): (r: Progress)
    requires Wf(s, i) && i < |block|
    ensures r.Next? ==> Wf(r.scan, i + 1)
    ensures r.Stop? ==> r.outcome.Parsed? && r.outcome.command == InvalidCommand && r.outcome.state.Valid()
  {
    var ch := block[i];
    var d := if s.args.digit then UnaryOrConstant(block, i, s) else Done(s, true);
    if !d.ok then Stop(Invalid(d.state.g))
    else if IsUpper(ch) then UpperLetter(i, d.state)
    else
      var u := if d.state.args.upper then AddressOrKeyword(block, i, d.state) else Done(d.state, true);
      if !u.ok then Stop(Invalid(u.state.g))
      else Symbol(ch, i, u.state)
  }

  /** What ParseBlock may answer: INVALID, or MACRO for a block that ends
      at level 0 with an operand or a statement; never UNKNOWN or NC. */
  predicate Answered(r: Outcome) {
    r.Parsed? ==>
      r.state.Valid()
      && (r.command == InvalidCommand
          || (r.command == MacroCommand && r.state.level == 0
              && (r.state.Current().general != [] || r.state.HasStatement())))
  }

  /** The answer for a block whose expression is complete: MACRO exactly
      when it ends at level 0 with an operand or a statement. */
  function Classify(g: Generator): (r: Outcome)
    requires g.Valid()
    ensures r.Parsed? && r.state == g
    ensures r.command == MacroCommand <==> g.level == 0 && (g.Current().general != [] || g.HasStatement())
    ensures r.command != MacroCommand ==> r.command == InvalidCommand
  {
    if g.level != 0 then Invalid(g)
    else if g.Current().general != [] then Parsed(MacroCommand, g)
    else if !g.conditionalArithmetic.Empty() then Parsed(MacroCommand, g)
    else if !g.conditionalBranch.Empty() then Parsed(MacroCommand, g)
    else if !g.conditionalLoop.Empty() then Parsed(MacroCommand, g)
    else if !g.loopEnd.Empty() then Parsed(MacroCommand, g)
    else Invalid(g)
  }

  /** After the last character: a trailing digit run is closed, the
      expression is reduced to its root, an NC word's operand is dropped,
      and the block is classified. A trailing upper-case run is never
      closed. */
  function Finish(block: string, s: Scan): (r: Outcome)
    requires Wf(s, |block|)
    ensures Answered(r)
  {
    var d := if s.args.digit then UnaryOrConstant(block, |block|, s) else Done(s, true);
    if !d.ok then Invalid(d.state.g)
    else
      var f := ProcessToFinal(d.state.g);
      if f.Undefined? then UndefinedBehaviour
      else if !f.ok then Invalid(f.state)
      else if d.state.args.ncAddress.None? then Classify(f.state)
      else
        var c := f.state.Current();
        if c.general == [] then UndefinedBehaviour
        else if c.general[0].ArithmeticHandle? then Classify(f.state.WithCurrent(c.(general := c.general[1..])))
        else Classify(f.state)
  }

  /** The character loop from position `i` on, then the end of the block.
      From any well-formed scan state the answer is INVALID or a MACRO that
      ends at level 0 with an operand or a statement, never UNKNOWN or NC. */
  function Run(block: string, i: nat, s: Scan): (r: Outcome)
    requires Wf(s, i) && i <= |block|
    ensures Answered(r)
    decreases |block| - i
  {
    if i == |block| then Finish(block, s)
    else
      match Step(block, i, s)
      case Stop(o) => o
      case Next(t) => Run(block, i + 1, t)
  }

  /** ParseBlock: the generator is cleared first, so the outcome depends on
      the block alone, and it is one ParseBlock may give. */
  function ParseOutcome(block: string): (r: Outcome)
    ensures Answered(r)
  {
    Run(block, 0, Scan(InitialArgument, ClearedGenerator()))
  }

  /** Closing a run leaves the ',' flag of the level alone. */
  lemma KeywordKeepsSeparator(c: Context)
    requires c.upperString != []
    ensures ProcessKeyword(c).ok ==> ProcessKeyword(c).state.twoArguments == c.twoArguments
  {
    if Top(c.upperString) in KeywordList && KeywordList[Top(c.upperString)] == BinaryLogicalKeyword && c.priorityLogical {
      assert CreatePriorityLogical(c).state.twoArguments == c.twoArguments;
    }
  }

  lemma DigitsKeepSeparator(block: string, i: nat, s: Scan)
    requires Wf(s, i) && i <= |block|
    ensures UnaryOrConstant(block, i, s).state.g.Current().twoArguments == s.g.Current().twoArguments
  {
    var c := CreateDigitString(s.g.Current(), block[s.args.digitBegin..i]);
    assert c.twoArguments == s.g.Current().twoArguments;
    var k := CreateConstant(c);
    assert k.state.twoArguments == c.twoArguments;
    assert CreateUnaryAddress(k.state).state.twoArguments == c.twoArguments;
  }

  /** A second ',' in the same level ends the block as INVALID, whatever
      run it closes first. */
  lemma SecondSeparatorInvalid(block: string, i: nat, s: Scan)
    requires Wf(s, i) && i < |block| && block[i] == ArgumentSeparator
    requires !s.args.controlOut && s.g.Current().twoArguments
    ensures Step(block, i, s).Stop?
    ensures Step(block, i, s).outcome.command == InvalidCommand
  {
    if s.args.digit {
      DigitsKeepSeparator(block, i, s);
    }
    var d := if s.args.digit then UnaryOrConstant(block, i, s) else Done(s, true);
    if d.ok && d.state.args.upper && i != d.state.args.upperBegin + 1 {
      var c := d.state.g.Current();
      KeywordKeepsSeparator(c.(upperString := c.upperString + [block[d.state.args.upperBegin..i]]));
    }
  }

  /** The first ',' of a level, with no run open, only raises that level's
      flag. */
  lemma FirstSeparatorRaisesFlag(block: string, i: nat, s: Scan)
    requires Wf(s, i) && i < |block| && block[i] == ArgumentSeparator
    requires !s.args.controlOut && !s.args.digit && !s.args.upper && !s.g.Current().twoArguments
    ensures Step(block, i, s) == Next(s.(g := s.g.WithCurrent(s.g.Current().(twoArguments := true))))
  {
  }

  /** Inside a comment nothing but its end matters, and the generator is
      left alone. */
  lemma CommentSkipped(block: string, i: nat, s: Scan)
    requires Wf(s, i) && i < |block| && s.args.controlOut
    ensures Step(block, i, s) == Next(s.(args := s.args.(controlOut := block[i] != CommentEnd)))
  {
  }

  /** A character that is no digit, letter, operator, bracket, separator
      or comment start is skipped when no run is open. */
  lemma OtherCharacterSkipped(block: string, i: nat, s: Scan)
    requires Wf(s, i) && i < |block| && !s.args.controlOut && !s.args.digit && !s.args.upper
    requires !IsDigitOrDot(block[i]) && !IsUpper(block[i]) && block[i] !in "#=+*/-[],("
    ensures Step(block, i, s) == Next(s)
  {
  }

  /** The scanner of Fanuc Macro-B blocks, owning its generator. */
  class FanucMacroParser {
    const generator: MacroGenerator

    constructor()
      ensures fresh(generator) && fresh(generator.contexts) && generator.Valid()
    {
      generator := new MacroGenerator();
    }

    /** ParseBlock: for every block whose run has no undefined behaviour,
        the answer and the generator left behind are those of ParseOutcome,
        whatever an earlier block left. */
    method ParseBlock(block: string) returns (command: CommandType)
      requires generator.Valid()
      requires ParseOutcome(block).Parsed?
      modifies generator, generator.contexts
      ensures generator.Valid()
      ensures command == ParseOutcome(block).command
      ensures generator.State() == ParseOutcome(block).state
    {
      var args := InitialArgument;
      generator.Clear();
      var i := 0;
      while i < |block|
        invariant i <= |block| && generator.Valid()
        invariant Wf(Scan(args, generator.State()), i)
        invariant Run(block, i, Scan(args, generator.State())) == ParseOutcome(block)
        decreases |block| - i
      {
        var stop;
        args, stop := ScanCharacter(block, i, args);
        if stop {
          return InvalidCommand;
        }
        i := i + 1;
      }
      command := FinishBlock(block, args);
    }

    /** One pass of the character loop. */
    method ScanCharacter(block: string, i: nat, args: Argument) returns (args': Argument, stop: bool)
      requires generator.Valid() && i < |block| && Wf(Scan(args, generator.State()), i)
      modifies generator, generator.contexts
      ensures generator.Valid()
      ensures var r := Step(block, i, Scan(args, old(generator.State())));
              (stop <==> r.Stop?)
              && (r.Stop? ==> r.outcome == Invalid(generator.State()))
              && (r.Next? ==> r.scan == Scan(args', generator.State()))
    {
      var ch := block[i];
      if args.controlOut {
        return args.(controlOut := ch != CommentEnd), false;
      }
      if IsDigitOrDot(ch) {
        args' := if args.digit then args else args.(digit := true, digitBegin := i);
        if args'.upper {
          var ok;
          ok, args' := CreateAddressOrKeyword(block, i, args');
          return args', !ok;
        }
        return args', false;
      }
      var ok := true;
      args' := args;
      if args.digit {
        ok, args' := CreateUnaryOrConstantOperator(block, i, args);
        if !ok {
          return args', true;
        }
      }
      if IsUpper(ch) {
        args', stop := OpenUpperRun(i, args');
        return;
      }
      if args'.upper {
        ok, args' := CreateAddressOrKeyword(block, i, args');
        if !ok {
          return args', true;
        }
      }
      args', stop := ScanSymbol(ch, i, args');
    }

    /** CreateAddressOrKeyword. */
    method CreateAddressOrKeyword(block: string, i: nat, args: Argument) returns (ok: bool, args': Argument)
      requires generator.Valid() && i <= |block| && Wf(Scan(args, generator.State()), i)
      modifies generator.contexts
      ensures generator.Valid()
      ensures Done(Scan(args', generator.State()), ok) == AddressOrKeyword(block, i, Scan(args, old(generator.State())))
    {
      if i - args.upperBegin == 1 {
        return true, args.(ncAddress := Some(block[args.upperBegin]), upper := false, upperBegin := 0);
      }
      ghost var g := generator.State();
      var word := block[args.upperBegin..i];
      generator.PushUpperString(word);
      ghost var pushed := g.Current().(upperString := g.Current().upperString + [word]);
      assert generator.State() == g.WithCurrent(pushed);
      ok := generator.ProcessOperatorKeyword();
      assert generator.State() == g.WithCurrent(ProcessKeyword(pushed).state);
      if !ok {
        return false, args;
      }
      args' := args.(upper := false, upperBegin := 0);
    }

    /** CreateUnaryOrConstantOperator. */
    method CreateUnaryOrConstantOperator(block: string, i: nat, args: Argument) returns (ok: bool, args': Argument)
      requires generator.Valid() && i <= |block| && Wf(Scan(args, generator.State()), i)
      modifies generator.contexts
      ensures generator.Valid()
      ensures Done(Scan(args', generator.State()), ok) == UnaryOrConstant(block, i, Scan(args, old(generator.State())))
    {
      ghost var g := generator.State();
      var digits := block[args.digitBegin..i];
      generator.CreateDigitString(digits);
      ghost var p := generator.State();
      assert p == g.WithCurrent(CreateDigitString(g.Current(), digits));
      ReplaceCurrentTwice(g, CreateDigitString(g.Current(), digits));
      var cleared := args.(digit := false, digitBegin := 0);
      if IsMacroMode(generator.State()) {
        ok := generator.CreateConstantOperator();
        if !ok {
          return false, args;
        }
        ghost var k := CreateConstant(p.Current()).state;
        assert generator.State() == p.WithCurrent(k);
        var ignored := generator.CreateUnaryAddressOperator();
        assert generator.State() == p.WithCurrent(CreateUnaryAddress(k).state);
      } else if args.ncAddress.None? {
        ok := generator.CreateConstantOperator();
        if !ok {
          return false, args;
        }
      } else {
        generator.PopDigitString();
        cleared := cleared.(ncAddress := None);
      }
      return true, cleared;
    }

    /** An upper-case letter in the character loop. */
    method OpenUpperRun(i: nat, args: Argument) returns (args': Argument, stop: bool)
      requires generator.Valid() && Wf(Scan(args, generator.State()), i)
      modifies generator.contexts
      ensures generator.Valid()
      ensures var r := UpperLetter(i, Scan(args, old(generator.State())));
              (stop <==> r.Stop?)
              && (r.Stop? ==> r.outcome == Invalid(generator.State()))
              && (r.Next? ==> r.scan == Scan(args', generator.State()))
    {
      if args.upper {
        return args, false;
      }
      args' := args.(upper := true, upperBegin := i);
      if args'.ncAddress.None? {
        return args', false;
      }
      if !IsUpper(args'.ncAddress.value) {
        return args', true;
      }
      var c := generator.contexts[generator.level];
      if !IsMacroMode(generator.State()) && c.general != [] && c.general[0].ArithmeticHandle? {
        args' := args'.(ncAddress := None);
        generator.PopFrontGeneral();
      }
      return args', false;
    }

    /** Any other character in the character loop. */
    method ScanSymbol(ch: char, i: nat, args: Argument) returns (args': Argument, stop: bool)
      requires generator.Valid() && Wf(Scan(args, generator.State()), i)
      modifies generator, generator.contexts
      ensures generator.Valid()
      ensures var r := Symbol(ch, i, Scan(args, old(generator.State())));
              (stop <==> r.Stop?)
              && (r.Stop? ==> r.outcome == Invalid(generator.State()))
              && (r.Next? ==> r.scan == Scan(args', generator.State()))
    {
      args' := args;
      var kind := CheckOperatorType(generator.contexts[generator.level], ch);
      var ok := true;
      if kind != NotAnOperator {
        ok := generator.ProcessOperatorAddress(kind, ch);
      } else if ch == PriorityRangeBegin {
        ok := generator.LevelUp();
      } else if ch == PriorityRangeEnd {
        ok := generator.ReturnPriorityOperatorToPreviousLevel();
      } else if ch == ArgumentSeparator {
        if generator.contexts[generator.level].twoArguments {
          ok := false;
        } else {
          generator.SetTwoArguments();
        }
      } else if ch == CommentBegin {
        args' := args.(controlOut := true);
      }
      stop := !ok;
    }

    /** The end of ParseBlock once every character is scanned. */
    method FinishBlock(block: string, args: Argument) returns (command: CommandType)
      requires generator.Valid() && Wf(Scan(args, generator.State()), |block|)
      requires Finish(block, Scan(args, generator.State())).Parsed?
      modifies generator, generator.contexts
      ensures generator.Valid()
      ensures Finish(block, Scan(args, old(generator.State()))) == Parsed(command, generator.State())
    {
      var args' := args;
      if args.digit {
        var ok;
        ok, args' := CreateUnaryOrConstantOperator(block, |block|, args);
        if !ok {
          return InvalidCommand;
        }
      }
      var ok := generator.ProcessToFinalOperator();
      if !ok {
        return InvalidCommand;
      }
      if args'.ncAddress.Some? && generator.contexts[generator.level].general[0].ArithmeticHandle? {
        generator.PopFrontGeneral();
      }
      command := ClassifyLevel();
    }

    /** The classification of ParseBlock's last lines. */
    method ClassifyLevel() returns (command: CommandType)
      requires generator.Valid()
      ensures Classify(generator.State()) == Parsed(command, generator.State())
    {
      if generator.level != 0 {
        return InvalidCommand;
      } else if generator.contexts[0].general != [] {
        return MacroCommand;
      } else if !generator.conditionalArithmetic.Empty() {
        return MacroCommand;
      } else if !generator.conditionalBranch.Empty() {
        return MacroCommand;
      } else if !generator.conditionalLoop.Empty() {
        return MacroCommand;
      } else if !generator.loopEnd.Empty() {
        return MacroCommand;
      }
      return InvalidCommand;
    }
  }
}
