# Fanuc Macro-B block interpreter — a Dafny model

This project models the core of a Fanuc Macro-B interpreter for a CNC
controller, and proves what each part promises. The model has five parts.

- **Macro variable store.** Files `macro_variable.dfy` and `macro_variable_interface.dfy`.
  - Local variables #0–#33 live in a stack of scopes. The base scope is never popped. The current scope may be an alias of a modal (G66) table.
  - Modal levels keep their own "next" and "previous" lists.
  - Common variables are #100–#199 and #500–#999.
  - The system namespace is an abstract partial map.
  - `MacroVariableInterface` resolves an ID in the order local, then common, then system. One depth bound is shared by local and modal levels.
  - The store is a class whose fields are the C++ members; pointers become indices. Its methods are proved against pure functions over a `Store` value.
- **Operator trees.** File `macro_operator.dfy`.
  - Arithmetic, relational and logical nodes form closed datatypes.
  - Evaluation is recursive over the tree and threads the store. Only variable and assignment nodes read or write the store.
  - The four statement records are the conditional assignment, IF…GOTO, WHILE…DO and END.
- **Expression generator.** Files `macro_context.dfy`, `macro_reduction.dfy`, `macro_process.dfy` and `macro_generator.dfy`.
  - Six nesting contexts hold pending symbols, keywords and operand deques. A current level runs from 0 to 5.
  - Shift/reduce routines fold queued operands into nodes left to right. On failure they put back the operand in hand, a held '=' target and a first argument. Operands already folded into a node are dropped, as in the source.
  - Each routine is a method of `MacroGenerator`, proved against a function that states its effect on the current context alone.
- **Block scanner.** File `fanuc_macro_parser.dfy`.
  - One left-to-right character loop with digit-run and upper-case-run flags and comment skipping.
  - It classifies the block as MACRO or INVALID.
- **Number formats and controller helpers.** Files `number_definition.dfy` and `coordinate_system.dfy`.
  - The integer and decimal string validators, and integer rendering.
  - Coordinate axes written through to a machine position.
  - The six working coordinate systems and their shifts.
  - The address/value register table.

Numbers are `real`. The unset sentinel is DBL_MIN (`MacroValues.NullValue`), a positive value.

C++ integer casts are written out explicitly:
- truncation toward zero;
- `unsigned short` wrap-around;
- 32-bit `unsigned`.

Exceptions become explicit `Fault` outcomes. Undefined-behaviour paths are preconditions or an explicit `Undefined` outcome.

## Model

| member | source | states |
|---|---|---|
| MacroValues.NullValueIsPositive | macro_expression/header/MacroVariable.h:12 | the unset sentinel DBL_MIN is strictly between 0 and 1, so an unset variable compares greater than 0 |
| MacroValues.Truncate | macro_expression/source/MacroOperator.cpp:168 | a floating-to-integer cast truncates toward zero: the result is the integer within one of `x` on the side of zero |
| MacroValues.ToUnsignedShort | macro_expression/source/MacroOperator.cpp:168 | the cast to unsigned short is defined exactly for -1 < x < 65536, and then yields the truncated value |
| MacroValues.ToUnsigned | macro_expression/source/MacroOperator.cpp:106-126 | the cast to 32-bit unsigned is defined exactly for -1 < x < 2^32, and then yields the truncated value |
| MacroValues.ToInt | macro_expression/source/MacroOperator.cpp:625 | the cast to 32-bit int is defined exactly for -2^31-1 < x < 2^31, and then yields the truncated value, which lies in the int range |
| MacroValues.AsSigned | macro_expression/source/MacroVariable.cpp:292 | an unsigned 32-bit value stored into an int keeps its residue modulo 2^32 and lands in the int range |
| MacroValues.BoolToUnsigned | macro_expression/source/MacroOperator.cpp:115 | a comparison result widened to unsigned is 1 exactly when true and 0 exactly when false |
| MacroVariable.Variable.Read | macro_expression/source/MacroVariable.cpp:21-37 | a table answers a read exactly for IDs in [begin, end] |
| MacroVariable.Variable.Write | macro_expression/source/MacroVariable.cpp:39-50 | writing #0 throws whatever the range; otherwise the write succeeds exactly in range, is read back, and leaves every other ID and the range unchanged |
| MacroVariable.Variable.Inquiry | macro_expression/source/MacroVariable.cpp:21-27 | an ID is in range exactly when the table has a slot for it |
| MacroVariable.NewVariable | macro_expression/source/MacroVariable.cpp:6-19 | construction fails exactly when end < begin; otherwise the table has end-begin+1 slots, all holding the unset value |
| MacroVariable.NextCounter | macro_expression/source/MacroVariable.cpp:16 | `++iter` on an unsigned short adds one below 65535 and wraps 65535 to 0 |
| MacroVariable.ConstructorLoopNeverExitsAtTopId | macro_expression/source/MacroVariable.cpp:16-17 | with end ID 65535 the constructor loop as written never reaches its exit, for any number of steps |
| MacroVariable.ConstructorLoopBelowTopId | macro_expression/source/MacroVariable.cpp:16-17 | with end ID below 65535 the loop exits after pushing exactly end-begin+1 slots |
| MacroVariable.Seeded | macro_expression/source/MacroVariable.cpp:160-169 | a call's argument map seeds a #0..#33 table; a key #0 throws; every other key in range holds its argument and every unset slot the unset value |
| MacroVariable.SeedTable | macro_expression/source/MacroVariable.cpp:163-169 | the argument loop writes the map in key order and yields exactly the seeded table (or the #0 exception) |
| MacroVariable.ModalVariableLevel.Create | macro_expression/source/MacroVariable.cpp:52-68 | a new modal table is pushed and a pointer to it is pushed onto "next"; "previous" is unchanged |
| MacroVariable.ModalVariableLevel.Delete | macro_expression/source/MacroVariable.cpp:70-83 | refused exactly when there is no modal table; otherwise the newest table and the top of "next" are popped |
| MacroVariable.ModalVariableLevel.Enter | macro_expression/source/MacroVariable.cpp:85-98 | refused exactly when "next" is empty; otherwise its top moves onto "previous" and the tables are untouched |
| MacroVariable.ModalVariableLevel.Exit | macro_expression/source/MacroVariable.cpp:100-113 | refused exactly when "previous" is empty; otherwise its top moves back onto "next" |
| MacroVariable.ModalVariableLevel.NextModalCall | macro_expression/header/MacroVariable.h:49-50 | a modal call is pending exactly when Enter can take the top of "next" |
| MacroVariable.ModalEnterThenExit | macro_expression/source/MacroVariable.cpp:85-113 | entering then leaving a modal level restores both pointer stacks |
| MacroVariable.ModalExitThenEnter | macro_expression/source/MacroVariable.cpp:85-113 | leaving then entering a modal level restores both pointer stacks |
| MacroVariable.CommonVariable.Read | macro_expression/source/MacroVariable.cpp:194-202 | a common read succeeds exactly when one of the two ranges holds the ID, the lower range answering first |
| MacroVariable.CommonVariable.Write | macro_expression/source/MacroVariable.cpp:204-215 | an ID outside both ranges is refused with no change; a successful write is read back and no other ID changes; only #0 throws |
| MacroVariable.CommonOwnsExactly | macro_expression/source/MacroVariable.cpp:303-308 | the interface's common store holds exactly #100..#199 and #500..#999 |
| MacroVariable.SystemVariable.Read | macro_expression/source/MacroVariable.cpp:267-283 | a system read succeeds exactly when a table holds the ID, with the unsigned-short table first, then the int table, then the double table |
| MacroVariable.SystemVariable.Write | macro_expression/source/MacroVariable.cpp:285-301 | a system write converts to the field's type (an out-of-range cast is an error), succeeds exactly when a table holds the ID, and leaves other IDs alone |
| MacroVariable.InquiryAsWrittenMissesDoubles | macro_expression/source/MacroVariable.cpp:257-265 | an ID held only in the double table is readable, yet the inquiry as written denies it |
| MacroVariable.InquiryMatchesRead | macro_expression/source/MacroVariable.cpp:257-283 | the corrected inquiry holds exactly when a read succeeds |
| MacroVariable.SystemVariable.InquiryAsWritten | macro_expression/source/MacroVariable.cpp:257-265 | an ID held only in the double table is denied |
| MacroVariable.SystemVariable.Inquiry | macro_expression/source/MacroVariable.cpp:257-265 | the corrected inquiry is the as-written one plus the double table |
| MacroVariable.InitialStore | macro_expression/source/MacroVariable.cpp:303-308 | the constructed store is well formed, at level 1 with one local and no modal table, and every local and common ID reads the unset value |
| MacroVariable.TotalLevelMax | macro_expression/header/MacroVariable.h:95-96 | the shared level bound is variable_level_max + 1 = 6 |
| MacroVariable.LocalTotalLevel | macro_expression/header/MacroVariable.h:92-93 | a well-formed store owns between 1 and 6 local tables |
| MacroVariable.ModalTotalLevel | macro_expression/header/MacroVariable.h:52-53 | local and modal tables together never exceed the shared bound |
| MacroVariable.CurrentLevel | macro_expression/header/MacroVariable.h:98-100 | the pointer list counts at least the base scope, every owned table and every entered modal level |
| MacroVariable.Read | macro_expression/source/MacroVariable.cpp:310-320 | #0..#33 are answered by the current scope; above that the common store answers when it holds the ID, else the system store |
| MacroVariable.Write | macro_expression/source/MacroVariable.cpp:322-332 | writing #0 and only #0 throws; a write keeps the store well formed and its level; a refused write changes nothing |
| MacroVariable.ReadAfterWrite | macro_expression/source/MacroVariable.cpp:322-332 | a successful local, common or double-field write is read back unchanged; an unsigned-short field reads back the truncated value |
| MacroVariable.WriteLeavesOtherIds | macro_expression/source/MacroVariable.cpp:322-332 | a write changes what no other ID reads |
| MacroVariable.ResolutionOrder | macro_expression/source/MacroVariable.cpp:310-320 | local IDs always resolve in the current scope, common IDs in the common store, the rest in the system store |
| MacroVariable.OwnedWriteSucceeds | macro_expression/source/MacroVariable.cpp:322-332 | a write to a local or common ID other than #0 always succeeds |
| MacroVariable.EnterLevel | macro_expression/source/MacroVariable.cpp:334-341 | refused at the shared level bound; otherwise a seeded table becomes the current scope (a #0 argument throws) and the levels grow by one |
| MacroVariable.ExitLevel | macro_expression/source/MacroVariable.cpp:124-137 | the base scope is never popped; otherwise one owned table and the top pointer are popped |
| MacroVariable.EnterLevelThenExit | macro_expression/source/MacroVariable.cpp:124-176 | entering a level and leaving it again gives back exactly the old store |
| MacroVariable.CreateModalLevel | macro_expression/source/MacroVariable.cpp:343-351 | refused at the shared level bound; otherwise a seeded modal table is created and becomes the next modal call (a #0 argument throws) |
| MacroVariable.DeleteModalLevel | macro_expression/source/MacroVariable.cpp:70-83 | refused exactly when no modal table exists; otherwise the newest one is removed and the local store is untouched |
| MacroVariable.CreateThenDeleteModalLevel | macro_expression/source/MacroVariable.cpp:343-351 | creating a modal level and deleting it again gives back exactly the old store |
| MacroVariable.EnterModalLevel | macro_expression/source/MacroVariable.cpp:353-362 | the next modal table becomes the current scope, one level deeper, without copying any table |
| MacroVariable.ExitModalLevel | macro_expression/source/MacroVariable.cpp:364-373 | refused with no change exactly when no modal level was entered; otherwise the level drops by one |
| MacroVariable.EnterModalThenExit | macro_expression/source/MacroVariable.cpp:353-373 | entering the next modal level and leaving it gives back exactly the old store |
| MacroVariable.ModalWriteIsShared | macro_expression/source/MacroVariable.cpp:139-145 | a local write inside an entered modal level lands in the shared modal table and is seen after leaving it |
| MacroVariable.CurrentLevelCoversLocalLevels | macro_expression/source/MacroVariable.cpp:337 | the pointer list is never shorter than the owned tables, and owned local plus modal tables stay within variable_level_max + 1 |
| VariableInterface.MacroVariableInterface.constructor | macro_expression/source/MacroVariable.cpp:303-308 | the fields make up the initial store |
| VariableInterface.MacroVariableInterface.CurrentLevel | macro_expression/header/MacroVariable.h:187-188 | the current level counts at least every owned local table, and at least one |
| VariableInterface.MacroVariableInterface.ReadVariable | macro_expression/source/MacroVariable.cpp:310-320 | found exactly when the store reads the ID, returning that value; otherwise the caller's value is untouched |
| VariableInterface.MacroVariableInterface.WriteVariable | macro_expression/source/MacroVariable.cpp:322-332 | the fields become the store after the write, or stay when it is refused; a #0 write reports the exception |
| VariableInterface.MacroVariableInterface.EnterLevel | macro_expression/source/MacroVariable.cpp:334-341 | the fields become the store EnterLevel yields |
| VariableInterface.MacroVariableInterface.ExitLevel | macro_expression/header/MacroVariable.h:174-175 | the fields become the store ExitLevel yields |
| VariableInterface.MacroVariableInterface.CreateModalLevel | macro_expression/source/MacroVariable.cpp:343-351 | the fields become the store CreateModalLevel yields |
| VariableInterface.MacroVariableInterface.DeleteModalLevel | macro_expression/header/MacroVariable.h:179-181 | the fields become the store DeleteModalLevel yields |
| VariableInterface.MacroVariableInterface.EnterModalLevel | macro_expression/source/MacroVariable.cpp:353-362 | the fields become the store EnterModalLevel yields |
| VariableInterface.MacroVariableInterface.ExitModalLevel | macro_expression/source/MacroVariable.cpp:364-373 | the fields become the store ExitModalLevel yields |
| CoordinateSystem.WithComponent | macro_expression/header/CoordinateSystem.h:8-16 | setting one axis of a coordinate leaves the other three axes unchanged |
| CoordinateSystem.CoordinateAxis.constructor | macro_expression/source/CoordinateSystem.cpp:14-19 | the axis starts at `value`, bound to one machine axis, with delta = machine position - value |
| CoordinateSystem.CoordinateAxis.SetPosition | macro_expression/header/CoordinateSystem.h:26-27 | overwrites the position alone; delta and the machine axis keep their values |
| CoordinateSystem.CoordinateAxis.SetDelta | macro_expression/header/CoordinateSystem.h:29-30 | overwrites the delta alone |
| CoordinateSystem.CoordinateAxis.MovePosition | macro_expression/source/CoordinateSystem.cpp:21-28 | the axis reaches the target, the bound machine axis moves to target + delta and no other machine axis changes, so machine - program stays delta |
| CoordinateSystem.InitialOrigins | macro_expression/source/CoordinateSystem.cpp:30-38 | six power-up origins: G55 at -500 on X, Y and Z, the others at -700, B at 0 |
| CoordinateSystem.Shifted | macro_expression/source/CoordinateSystem.cpp:80-132 | every origin moves by the offset along the one axis and no other axis moves |
| CoordinateSystem.ShiftKeepsGaps | macro_expression/source/CoordinateSystem.cpp:80-132 | a shift keeps the distance between any two origins along every axis |
| CoordinateSystem.WorkingCoordinateSystem.constructor | macro_expression/source/CoordinateSystem.cpp:30-41 | power-up origins with G54 selected |
| CoordinateSystem.WorkingCoordinateSystem.SystemPosition | macro_expression/header/CoordinateSystem.h:49-59 | the selected origin's coordinate along the axis |
| CoordinateSystem.WorkingCoordinateSystem.Select | macro_expression/source/CoordinateSystem.cpp:43-78 | accepted exactly for 54..59, which selects G<id>; a refused ID keeps the selection; the origins never change |
| CoordinateSystem.WorkingCoordinateSystem.ShiftByProgramAxis | macro_expression/source/CoordinateSystem.cpp:80-132 | all six origins are shifted by machine - program - selected origin, so the selected origin then places the program position at the machine position |
| CoordinateSystem.ProgramCoordinateSystem.constructor | macro_expression/source/CoordinateSystem.cpp:134-140 | each program axis starts at machine - selected origin along its axis, with that origin as its delta, bound to its own machine axis |
| CoordinateSystem.Inserted | macro_expression/header/CoordinateSystem.h:108-113 | `map::insert`: an address already present keeps its old value, a new one maps to the value, no other key changes |
| CoordinateSystem.Taken | macro_expression/source/CoordinateSystem.cpp:142-152 | find-then-erase: the value is found exactly when the address is present, and only that key is removed |
| CoordinateSystem.TakeUndoesInsert | macro_expression/source/CoordinateSystem.cpp:142-152 | taking back a freshly inserted address returns its value and the map before the insert |
| CoordinateSystem.AddressValueTable.constructor | macro_expression/header/CoordinateSystem.h:104 | the three registers start empty |
| CoordinateSystem.AddressValueTable.Empty | macro_expression/header/CoordinateSystem.h:106-107 | empty exactly when no address holds a register of any type |
| CoordinateSystem.AddressValueTable.InputInteger | macro_expression/header/CoordinateSystem.h:108-109 | the integer register gets the insert; the other two registers are unchanged |
| CoordinateSystem.AddressValueTable.InputFloat | macro_expression/header/CoordinateSystem.h:110-111 | the float register gets the insert; the other two registers are unchanged |
| CoordinateSystem.AddressValueTable.InputString | macro_expression/header/CoordinateSystem.h:112-113 | the string register gets the insert; the other two registers are unchanged |
| CoordinateSystem.AddressValueTable.OutputInteger | macro_expression/source/CoordinateSystem.cpp:142-152 | found exactly when the address holds an integer, which is handed out and erased; otherwise the caller's value is kept |
| CoordinateSystem.AddressValueTable.OutputFloat | macro_expression/source/CoordinateSystem.cpp:154-164 | found exactly when the address holds a float, which is handed out and erased; otherwise the caller's value is kept |
| CoordinateSystem.AddressValueTable.OutputString | macro_expression/source/CoordinateSystem.cpp:166-176 | found exactly when the address holds a string, which is handed out and erased; otherwise the caller's value is kept |
| CoordinateSystem.MachineCoordinate.constructor | macro_expression/header/CoordinateSystem.h:38 | the machine position the program axes write through starts at the given coordinate |
| CoordinateSystem.CoordinateAxis.GetPosition | macro_expression/header/CoordinateSystem.h:23-24 | reads back the axis's program position |
| NumberDefinition.DigitChar | macro_expression/source/StringConverter.cpp:11 | a digit value 0..9 is spelled by a digit character with that value |
| NumberDefinition.NaturalString | macro_expression/source/StringConverter.cpp:11 | the shortest decimal spelling of n: a non-empty digit string whose value is n, with a leading '0' only for 0 |
| NumberDefinition.ZerosAddNothing | macro_expression/source/StringConverter.cpp:19 | leading zeros do not change the value `atoi` reads |
| NumberDefinition.ZerosAreZero | macro_expression/source/StringConverter.cpp:19 | a run of zeros reads as 0 |
| NumberDefinition.IntegerText | macro_expression/source/StringConverter.cpp:6-14 | `_itoa_s` writes at least one character |
| NumberDefinition.SignedShape | macro_expression/source/NC_NumberDefinition.cpp:69-77 | a word of digits and signs whose only sign is in front is a sign followed by digits, or digits alone |
| NumberDefinition.SignsInside | macro_expression/source/NC_NumberDefinition.cpp:69-77 | a sign anywhere is counted, and a sign behind a leading sign makes two |
| NumberDefinition.StringToInteger | macro_expression/source/NC_NumberDefinition.cpp:19-96 | succeeds exactly when the word parses (empty word with digit_min 0 gives value_min; only digits and one leading sign; digit count within bounds; value in range), returning that value; otherwise the caller's value is kept |
| NumberDefinition.IntegerFormat.ValueCheck | macro_expression/source/NC_NumberDefinition.cpp:123-130 | both bounds are inclusive, and an inverted range admits nothing |
| NumberDefinition.IntegerToStringAsWritten | macro_expression/source/NC_NumberDefinition.cpp:98-121 | the as-written rendering passes only range-checked values whose rendered length, sign included, is within the digit bounds |
| NumberDefinition.DigitLength | macro_expression/source/NC_NumberDefinition.cpp:105 | the digit count of a rendered value is the number of digits in its text, sign excluded |
| NumberDefinition.DigitsOfDigits | macro_expression/source/NC_NumberDefinition.cpp:44-67 | a string of digits consists only of digits |
| NumberDefinition.DigitsAfterSign | macro_expression/source/NC_NumberDefinition.cpp:44-67 | a leading '-' adds no digit |
| NumberDefinition.DigitsSplit | macro_expression/source/NC_NumberDefinition.cpp:44-67 | the digits of a concatenation are the digits of each part, in order |
| NumberDefinition.IntegerToString | macro_expression/source/NC_NumberDefinition.cpp:98-121 | renders exactly the in-range values whose digit count is within the bounds; the rendering parses back to the value; a padded non-negative value is exactly digit_max long |
| NumberDefinition.TextReadsBack | macro_expression/source/NC_NumberDefinition.cpp:98-121 | the plain rendering of an in-range value parses back to it |
| NumberDefinition.PaddedReadsBack | macro_expression/source/NC_NumberDefinition.cpp:110-115 | the zero-padded rendering of a non-negative value parses back to it |
| NumberDefinition.SignsOfDigits | macro_expression/source/NC_NumberDefinition.cpp:69-77 | a digit string has no sign |
| NumberDefinition.NegativeRenderingDoesNotReadBack | macro_expression/source/NC_NumberDefinition.cpp:105-108 | with digit bounds [2, 5], the as-written rendering accepts -5 as "-5", which StringToInteger then refuses for having one digit |
| NumberDefinition.IncrementDigits | macro_expression/source/NC_NumberDefinition.cpp:286-316 | the increments 0.001, 0.0001 and 0.01 admit 3, 4 and 2 fractional digits; every other increment is refused |
| NumberDefinition.Power10Add | macro_expression/source/NC_NumberDefinition.cpp:286-316 | 10^(a+b) = 10^a * 10^b |
| NumberDefinition.DotIndex | macro_expression/source/NC_NumberDefinition.cpp:254-260 | the index of the first decimal point, or the length when there is none |
| NumberDefinition.ZeroPrefix | macro_expression/source/NC_NumberDefinition.cpp:239-245 | the count of leading zeros is at most the length |
| NumberDefinition.ZeroSuffix | macro_expression/source/NC_NumberDefinition.cpp:246-249 | the count of trailing zeros is at most the length |
| NumberDefinition.AppendCharacter | macro_expression/source/NC_NumberDefinition.cpp:225-269 | one more character after the point is a fraction digit; the first point closes the integer digits; any other character before the point is an integer digit |
| NumberDefinition.NoDotDigits | macro_expression/source/NC_NumberDefinition.cpp:282-297 | no point exactly when the point index is past the end; then all digits are integer digits; digits split into integer and fraction digits |
| NumberDefinition.ScanNonZero | macro_expression/source/NC_NumberDefinition.cpp:229-237 | a digit 1..9 ends a run of trailing zeros and counts as a nonzero digit |
| NumberDefinition.ScanZero | macro_expression/source/NC_NumberDefinition.cpp:239-252 | a zero is a leading zero while no other digit came before the point, and a trailing zero after it |
| NumberDefinition.ScanDot | macro_expression/source/NC_NumberDefinition.cpp:254-260 | the first point records the significant digits before it |
| NumberDefinition.ScanSecondDot | macro_expression/source/NC_NumberDefinition.cpp:256-257 | a second point means the string holds more than one point |
| NumberDefinition.ScanSign | macro_expression/source/NC_NumberDefinition.cpp:262-265 | a sign in front changes no counter |
| NumberDefinition.ScanCharacter | macro_expression/source/NC_NumberDefinition.cpp:227-268 | one character either moves every counter on to the prefix ending with it, or refuses the string because it is not a digit, a point or a leading sign, or is a second point |
| NumberDefinition.ScanCharacters | macro_expression/source/NC_NumberDefinition.cpp:225-269 | the character pass succeeds exactly when the string has only digits, points and a leading sign, with at most one point; its counters are then the point count, the digit count, the leading and trailing zeros and the significant digits before the point |
| NumberDefinition.VerifyString | macro_expression/source/NC_NumberDefinition.cpp:211-328 | accepts exactly the strings VerifiedDecimals accepts (character set, one point, some digit, leading-zero rule, fraction digits within the increment, total significant digits within bounds unless zero), returning the point count |
| NumberDefinition.DigitsAreDigits | macro_expression/source/NC_NumberDefinition.cpp:225-269 | the digits extracted from any string are all digits |
| NumberDefinition.ConvertFloat | macro_expression/source/StringConverter.cpp:32-46 | the converted value is finite: the converter fails instead of returning an overflowed value |
| NumberDefinition.StringToFloat | macro_expression/source/NC_NumberDefinition.cpp:144-170 | succeeds exactly when the string verifies, converts, and its scaled value passes the range check, returning that value; otherwise the caller's value is kept |
| NumberDefinition.FloatFormat.ValueCheck | macro_expression/source/NC_NumberDefinition.cpp:195-209 | with a non-negative minimum admits 0 and the two intervals [valueMin, valueMax] and [-valueMax, -valueMin]; with a negative minimum, 0 and all of [-valueMax, valueMax] |
| NumberDefinition.TrailingZerosScale | macro_expression/source/NC_NumberDefinition.cpp:276-277 | appending t zeros multiplies a digit string's value by 10^t |
| NumberDefinition.ZeroSuffixSplit | macro_expression/source/NC_NumberDefinition.cpp:276-277 | a digit string is its significant part followed by its trailing zeros |
| NumberDefinition.IncrementIsPowerOfTen | macro_expression/source/NC_NumberDefinition.cpp:288-293 | each admitted increment is exactly 10^-k for its k places |
| NumberDefinition.AcceptedShape | macro_expression/source/NC_NumberDefinition.cpp:144-170 | an accepted string yields its exact decimal value, scaled when it has no point, and its significant fraction digits fit the increment |
| NumberDefinition.AcceptedValuesOnIncrementGrid | macro_expression/source/NC_NumberDefinition.cpp:144-170 | every value StringToFloat accepts under an admitted increment 10^-k is a whole number of increments |
| NumberDefinition.DecimalOnGrid | macro_expression/source/NC_NumberDefinition.cpp:158-160 | the scaled decimal value of a string whose significant fraction fits k places, times 10^k, is a whole number |
| MacroOperator.Fix | macro_expression/source/MacroOperator.cpp:239-250 | FIX gives an integer no larger in magnitude than its operand and less than one away from it, keeping the operand's sign (truncation toward zero) |
| MacroOperator.Fup | macro_expression/source/MacroOperator.cpp:257-268 | FUP gives an integer at least as large in magnitude as its operand and less than one away from it, keeping its sign (rounding away from zero) |
| MacroOperator.Round | macro_expression/header/MacroOperator.h:331-332 | ROUND gives an integer within one half of its operand |
| MacroOperator.FixFupAreOdd | macro_expression/source/MacroOperator.cpp:239-268 | FIX and FUP commute with negation, which floor and ceil do not |
| MacroOperator.FixFupOnNegativeHalf | macro_expression/source/MacroOperator.cpp:239-268 | on -1.5 FIX gives -1 where floor gives -2, and FUP gives -2 where ceil gives -1 |
| MacroOperator.RoundHalvesAwayFromZero | macro_expression/header/MacroOperator.h:331-332 | ROUND of n + 0.5 is n + 1 and of -n - 0.5 is -n - 1: halves go away from zero on both sides |
| MacroOperator.ApplyFunction | macro_expression/header/MacroOperator.h:227-408 | ABS is non-negative with the operand's magnitude; ROUND is an integer within one half; FIX and FUP are integers no farther from, and no nearer to, zero than the operand, by less than one |
| MacroOperator.ApplyBinary | macro_expression/header/MacroOperator.h:394-460 | a two-operand node fails exactly on a division by zero; addition, subtraction and multiplication give the exact result, and a quotient times the divisor gives back the dividend |
| MacroOperator.CompareDuals | macro_expression/source/MacroOperator.cpp:352-407 | NE is the negation of EQ, GE of LT, LE of GT, and GT is LT with the operands swapped |
| MacroOperator.Compare | macro_expression/source/MacroOperator.cpp:352-411 | by the order of the two values: below holds for NE, LT, LE; equal for EQ, GE, LE; above for NE, GT, GE |
| MacroOperator.CombineOnBits | macro_expression/source/MacroOperator.cpp:448-532 | on 0/1 operands AND, OR and XOR agree with boolean conjunction, disjunction and inequality |
| MacroOperator.CombineIsBitwise | macro_expression/source/MacroOperator.cpp:448-532 | AND, OR and XOR act bit by bit on unsigned values (2 AND 1 is 0, 2 OR 1 is 3, 3 XOR 1 is 2), not as boolean connectives |
| MacroOperator.Combine | macro_expression/source/MacroOperator.cpp:448-534 | on 0/1 operands the result is again 0/1: 1 exactly for both (AND), either (OR), or exactly one (XOR) |
| MacroOperator.EvaluateArithmetic | macro_expression/source/MacroOperator.cpp:165-187 | evaluating an arithmetic tree keeps the store's level structure; a tree with no assignment leaves the store unchanged |
| MacroOperator.VariableId | macro_expression/source/MacroOperator.cpp:165-170 | the ID is the child's value truncated to an unsigned short, CastOutOfRange when the value is outside (-1, 65536), and the child's error when it fails; the store keeps its level structure |
| MacroOperator.ReadVariable | macro_expression/source/MacroOperator.cpp:165-176 | a variable read keeps the store's level structure and, when its ID reads only, leaves the store unchanged; its outcome is stated by ReadVariableOutcome |
| MacroOperator.WriteVariable | macro_expression/source/MacroOperator.cpp:178-187 | a variable write keeps the store's level structure (same levels, same modal pointers); its outcome is stated by WriteVariableFlag |
| MacroOperator.EvaluateSource | macro_expression/source/MacroOperator.cpp:324-345 | a missing right side is MissingOperand; an arithmetic right side is that expression's evaluation; the store keeps its level structure |
| MacroOperator.EvaluateRelational | macro_expression/source/MacroOperator.cpp:36-45 | a comparison keeps the store's level structure and leaves it unchanged when both sides read only |
| MacroOperator.UnsignedOf | macro_expression/source/MacroOperator.cpp:103-130 | the operand's value truncated to 32-bit unsigned, CastOutOfRange when the value is outside (-1, 2^32), and the operand's error when it fails; the store keeps its level structure |
| MacroOperator.EvaluateOperand | macro_expression/source/MacroOperator.cpp:103-130 | a logical operand of any of the three kinds keeps the store's level structure and leaves it unchanged when it reads only |
| MacroOperator.EvaluateLogical | macro_expression/source/MacroOperator.cpp:103-130 | a logical node keeps the store's level structure and leaves it unchanged when its operands read only |
| MacroOperator.EvaluateCondition | macro_expression/source/MacroOperator.cpp:555-581 | a guard keeps the store's level structure, changes nothing when it reads only, and a missing guard holds without touching the store |
| MacroOperator.ConditionalArithmetic.Clear | macro_expression/source/MacroOperator.cpp:548-553 | a cleared IF-THEN statement is empty, with no guard and no statement |
| MacroOperator.ConditionalArithmetic.Evaluate | macro_expression/source/MacroOperator.cpp:555-581 | an empty statement gives false; otherwise a failing guard fails, a false guard gives false without running the statement, and a true guard runs the statement on the guard's store and gives true unless the statement fails |
| MacroOperator.ConditionalArithmetic.ArithmeticValue | macro_expression/header/MacroOperator.h:628-629 | evaluating the statement once more keeps the store's level structure |
| MacroOperator.ConditionalBranch.Clear | macro_expression/source/MacroOperator.cpp:600-605 | a cleared IF-GOTO statement is empty and has no guard |
| MacroOperator.ConditionalBranch.Evaluate | macro_expression/source/MacroOperator.cpp:607-618 | an empty branch gives false; otherwise it is the guard's truth, and true with no guard (an unconditional GOTO) |
| MacroOperator.ConditionalBranch.BranchNumber | macro_expression/source/MacroOperator.cpp:620-626 | the target sequence number is the target expression truncated to a 32-bit int, an error when it does not fit, and 0 for an empty branch |
| MacroOperator.ConditionalLoop.Clear | macro_expression/source/MacroOperator.cpp:645-650 | a cleared WHILE-DO statement is empty and has no guard |
| MacroOperator.ConditionalLoop.Evaluate | macro_expression/source/MacroOperator.cpp:652-663 | an empty loop gives false; otherwise it is the guard's truth |
| MacroOperator.ConditionalLoop.LoopNumber | macro_expression/source/MacroOperator.cpp:665-671 | the loop identifier is the DO expression truncated to an unsigned short, an error when it does not fit, and 0 for an empty loop |
| MacroOperator.LoopEnd.Clear | macro_expression/header/MacroOperator.h:683-684 | a cleared END statement is empty |
| MacroOperator.LoopEnd.Evaluate | macro_expression/source/MacroOperator.cpp:678-684 | END's identifier is its expression truncated to an unsigned short, an error when it does not fit, and 0 when empty |
| MacroOperator.AssignmentStoresItsValue | macro_expression/source/MacroOperator.cpp:324-345 | an assignment to an owned local or common variable with a constant ID yields the right side's value, which the variable then holds, and the store is exactly the right side's store with that one write |
| MacroOperator.AssignmentToNullVariableFails | macro_expression/source/MacroOperator.cpp:178-187 | assigning to #0 raises the read-only error |
| MacroOperator.Var | macro_expression/source/MacroOperator.cpp:158-176 | a variable node with a constant ID reads only and has a variable target |
| MacroOperator.UnsetVariablesReadNull | UnitTest/UnitTest.cpp:653-673 | on a fresh interface -#1 is the negated null sentinel, and #33 and #0 are the sentinel itself, with the store untouched |
| MacroOperator.AssignmentBlock | UnitTest/UnitTest.cpp:895-905 | "#1=5.0" on a fresh interface yields 5.0 and leaves #1 holding 5.0 |
| MacroOperator.UnsetVariablesCompare | UnitTest/UnitTest.cpp:908-963 | on a fresh interface two unset variables are EQ, GE and LE but not LT, and an unset variable is NE and GT 0 |
| MacroOperator.ConstantIdReads | macro_expression/source/MacroOperator.cpp:165-176 | a variable node with a constant ID yields the value the store holds for that ID and leaves the store unchanged; an ID no namespace owns is VariableNotFound |
| MacroOperator.ReadVariableOutcome | macro_expression/source/MacroOperator.cpp:165-176 | a variable read fails with its ID's error, is VariableNotFound for an ID no namespace owns, and otherwise yields the store's value for the ID |
| MacroOperator.WriteVariableFlag | macro_expression/source/MacroOperator.cpp:178-187 | a variable write fails with its ID's error, or reports the store's exception or the store's success flag and new store |
| MacroOperator.ConstantIdWrites | macro_expression/source/MacroOperator.cpp:178-187 | a write through a constant-ID node reports the store's flag, and raises the read-only error exactly for #0 |
| MacroOperator.MissingSourceFails | macro_expression/source/MacroOperator.cpp:324-345 | an assignment without a right side is invalid_argument (MissingOperand) |
| MacroOperator.ArithmeticOperandsCombine | macro_expression/source/MacroOperator.cpp:103-130 | AND, OR and XOR over two arithmetic operands cast each value to unsigned, left first, and combine the truncated values; a value outside the unsigned range is CastOutOfRange, and an operand's error is the node's |
| MacroOperator.CompareAfterAssignments | UnitTest/UnitTest.cpp:944-954 | after "#i=ci" and "#j=cj" on two distinct owned variables, [#i op #j] compares ci with cj |
| MacroOperator.TwoWrites | macro_expression/source/MacroVariable.cpp:310-332 | two writes to distinct owned IDs both succeed and both values read back |
| MacroOperator.ConstantAssignment | macro_expression/source/MacroOperator.cpp:324-345 | "#id=c" on an owned variable yields c, leaves c in #id and changes the store by that one write |
| MacroOperator.VariablesCompare | macro_expression/source/MacroOperator.cpp:36-45 | [#i op #j] compares the values the store holds for i and j and leaves the store unchanged |
| MacroOperator.ReadOnlyRelation | macro_expression/source/MacroOperator.cpp:36-45 | a relation over read-only operands compares the operands' values on the unchanged store; an operand's error is the relation's |
| MacroOperator.RelationsCombine | macro_expression/source/MacroOperator.cpp:103-130 | a logical node over two relations yields 1/0 as AND, OR or XOR of their truth values, evaluated left then right; a relation's error is the node's |
| MacroOperator.LogicalOnConstants | UnitTest/UnitTest.cpp:970-1000 | [1 AND 1], [1 OR 0] and [1 XOR 0] are all 1 |
| MacroOperator.IfThenBlock | UnitTest/UnitTest.cpp:1004-1019 | "IF[#1 EQ #2] THEN #1=1" on a fresh interface runs its assignment, leaves 1 in #1 and its value is 1 |
| MacroOperator.GuardedAssignmentRuns | macro_expression/source/MacroOperator.cpp:555-581 | when the guard holds and reads only, "IF[guard] THEN #id=v" gives true, leaves v in #id, and its value is then v |
| MacroOperator.JumpNumbers | UnitTest/UnitTest.cpp:1021-1069 | "IF[#1 EQ #2] GOTO 13" holds with target 13, "WHILE[#1 EQ #2] DO 3" holds with identifier 3, and "END 3" yields 3 |
| MacroContext.UnaryFunctionsAreKeywords | macro_expression/source/MacroParser.cpp:2100-2118 | every keyword that builds a one-operand function node is registered in the keyword table as a one-operand function keyword |
| MacroContext.UnaryKeywordsBuildFunctions | macro_expression/source/MacroParser.cpp:2100-2118 | conversely, every one-operand keyword of the table other than BIN, BCD and ADP builds a function node |
| MacroContext.RelationalKindOf | macro_expression/source/MacroParser.cpp:2120-2125 | a keyword names a comparison exactly when the keyword table registers it as relational |
| MacroContext.Context.PushOperand | macro_expression/source/MacroParser.cpp:153-158 | a finished operand goes to the priority deque in `*`/`/` or AND mode and to the general deque otherwise, and nothing else in the context changes |
| MacroContext.Context.ClearedContainers | macro_expression/source/MacroParser.cpp:13-29 | ClearContainers empties all fifteen containers and keeps the three flags |
| MacroContext.ClearAll | macro_expression/source/MacroParser.cpp:31-37 | ClearAll leaves the context exactly as freshly built |
| MacroContext.Generator.WithCurrent | macro_expression/header/FanucMacroParser.h:208-221 | the containers reached through the current nesting level belong to that level alone: replacing it changes no other level and no statement |
| MacroContext.ClearedGenerator | macro_expression/source/MacroParser.cpp:48-58 | after Clear the level is 0, no statement is pending and every context is fresh |
| MacroContext.LevelUp | macro_expression/source/MacroParser.cpp:60-68 | opening a level succeeds exactly below the nesting limit 5, raises the level by one, and otherwise changes nothing |
| MacroContext.LevelDown | macro_expression/source/MacroParser.cpp:70-77 | closing a level succeeds exactly above level 0, lowers it by one, and otherwise changes nothing |
| MacroContext.LevelUpDownInverse | macro_expression/source/MacroParser.cpp:60-77 | a successful LevelUp is undone by LevelDown and a successful LevelDown by LevelUp |
| MacroContext.IsMacroMode | macro_expression/source/MacroParser.cpp:79-91 | a block is a macro expression at any level above 0, and at level 0 is not one when no binary symbol, no statement keyword and no pending '#' other than a lone minus is held |
| MacroContext.CheckOperatorType | macro_expression/source/MacroParser.cpp:93-126 | '#' is unary, '=' and '+' binary, '*' a priority binary, '-' unary-or-binary, '/' a division only when an operand is waiting in the deque the mode selects, and every other character no operator |
| MacroContext.IsDigitOrDot | macro_expression/header/FanucMacroParser.h:360-361 | holds exactly for the characters 0-9 and '.' |
| MacroReduction.LeftChainStep | macro_expression/source/MacroParser.cpp:599-807 | joining the first two operands of a chain first, then folding the rest, gives the same left-grouped node as the whole chain |
| MacroReduction.LogicalChainStep | macro_expression/source/MacroParser.cpp:1018-1370 | the same holds for chains of logical keywords |
| MacroReduction.CreateDigitString | macro_expression/source/MacroParser.cpp:131-143 | a new literal is pushed on the digit stack, carrying a '-' exactly when a unary minus was pending, which is then consumed; nothing else changes |
| MacroReduction.CreateConstant | macro_expression/source/MacroParser.cpp:145-163 | the top literal becomes a constant operand exactly when the macro number format accepts it; the constant has the literal's value and goes to the deque of the current mode, and a rejected literal changes nothing |
| MacroReduction.PrefixedSnoc | macro_expression/source/MacroParser.cpp:165-240 | peeling the innermost (last written) unary symbol off a prefix gives the same node |
| MacroReduction.UnaryAddressFold | macro_expression/source/MacroParser.cpp:165-240 | applying pending unary symbols changes only the unary symbol stack and the operand deques, and keeps the mode |
| MacroReduction.UnaryAddressWraps | macro_expression/source/MacroParser.cpp:165-240 | with an arithmetic operand waiting, all pending '#' and '-' symbols apply to it as the text reads (the leftmost outermost), the symbol stack ends empty, and the reduction reports success exactly when some symbol applied |
| MacroReduction.CreateUnaryAddress | macro_expression/source/MacroParser.cpp:165-240 | with nothing pending it fails unchanged; pending '#'/'-' over a waiting arithmetic operand all apply to it and the symbol stack empties; the mode is kept, and only the symbol stack and the operand stacks change |
| MacroReduction.CreateUnaryFunction | macro_expression/source/MacroParser.cpp:242-541 | succeeds exactly for a node-building keyword on top, or a pending ATAN; appends Function(keyword's function, operand), or ArcTangent, and pops exactly that keyword; a failure changes nothing |
| MacroReduction.CreateBinaryFunction | macro_expression/source/MacroParser.cpp:543-597 | succeeds exactly for POW on top, or failing that a pending ATAN; appends Power(left, right) or ArcTangent2(left, right) and pops exactly that keyword; a failure changes nothing |
| MacroReduction.FoldBinary | macro_expression/source/MacroParser.cpp:599-807 | the reduction loop succeeds exactly when it consumes every symbol and never gains symbols |
| MacroReduction.CreateBinary | macro_expression/source/MacroParser.cpp:599-807 | CreateBinaryOperator touches only the general deque and the binary symbol list, and empties the symbols when it succeeds |
| MacroReduction.FoldSumFromLast | macro_expression/source/MacroParser.cpp:599-807 | once a node is built, the remaining '+'/'-' symbols and operands extend it into the left-grouped chain and the loop succeeds |
| MacroReduction.FoldSum | macro_expression/source/MacroParser.cpp:599-807 | on a well-formed sum the loop consumes every symbol and operand and yields the left-grouped chain |
| MacroReduction.AdditiveChain | macro_expression/source/MacroParser.cpp:599-807 | "a + b - c ..." reduces to its single left-grouped node and empties the symbols |
| MacroReduction.AssignedChain | macro_expression/source/MacroParser.cpp:599-807 | "t = a + b - c ..." reduces to an assignment of the whole left-grouped chain to t |
| MacroReduction.FoldBinaryHoldsTarget | macro_expression/source/MacroParser.cpp:599-807 | an '=' with more than one operand behind it holds the left operand aside as the assignment target |
| MacroReduction.SingleAssignment | macro_expression/source/MacroParser.cpp:599-807 | "t = e" with one right operand is an arithmetic or logical assignment, and a relational right operand fails and changes nothing |
| MacroReduction.SecondArgumentChain | macro_expression/source/MacroParser.cpp:599-807 | while a two-argument function is pending its first argument stays in front of the reduced second argument |
| MacroReduction.ShortOfOperands | macro_expression/source/MacroParser.cpp:599-807 | a pending symbol with fewer than two operands to join fails and leaves the context unchanged |
| MacroReduction.FoldPriority | macro_expression/source/MacroParser.cpp:809-900 | the priority loop succeeds exactly when it consumes every symbol |
| MacroReduction.CreatePriorityBinary | macro_expression/source/MacroParser.cpp:809-900 | CreatePriorityBinaryOperator touches only the priority deque, its symbols and the general deque |
| MacroReduction.FoldProductFromLast | macro_expression/source/MacroParser.cpp:809-900 | once a node is built, the remaining '*'/'/' symbols extend it into the left-grouped product |
| MacroReduction.FoldPriorityDone | macro_expression/source/MacroParser.cpp:809-900 | a loop that empties the priority deque had only arithmetic operands and '*'/'/' symbols, one operand more than symbols |
| MacroReduction.PriorityProduct | macro_expression/source/MacroParser.cpp:809-900 | a product reduces exactly when it is well formed, and then its left-grouped node is appended to the general deque with the priority deque and symbols emptied |
| MacroReduction.CreateRelational | macro_expression/source/MacroParser.cpp:902-1016 | a comparison node is built exactly when a relational keyword is pending and the general deque holds two arithmetic operands; it replaces them, the keyword is consumed, and a failure changes nothing |
| MacroReduction.FoldLogical | macro_expression/source/MacroParser.cpp:1018-1370 | the logical loop succeeds exactly when it consumes every keyword |
| MacroReduction.CreateLogical | macro_expression/source/MacroParser.cpp:1018-1370 | CreateLogicalOperator touches only the general deque, the binary symbols and the logical keywords; on success the keywords are consumed and one node is left |
| MacroReduction.CreatePriorityLogical | macro_expression/source/MacroParser.cpp:1372-1599 | CreatePriorityLogicalOperator empties the priority deque and its AND keywords on success and appends one logical node to the general deque; on failure the general deque is unchanged |
| MacroReduction.FoldLogicalFromLast | macro_expression/source/MacroParser.cpp:1018-1599 | once a logical node is built, each remaining keyword joins it with the next operand into the left-grouped chain |
| MacroReduction.FoldLogicalDone | macro_expression/source/MacroParser.cpp:1018-1599 | a logical loop that empties its deque had keywords of the deque's kind only, one fewer than operands, and a first pair a node exists for |
| MacroReduction.LogicalFold | macro_expression/source/MacroParser.cpp:1018-1599 | a logical fold empties its deque exactly on a well-formed chain, and then yields the left-grouped chain |
| MacroReduction.OrChain | macro_expression/source/MacroParser.cpp:1018-1370 | "a OR b XOR c ..." reduces exactly when it is a well-formed chain, to its left-grouped node, assigned to t when the block reads "t = ..." |
| MacroReduction.AndChain | macro_expression/source/MacroParser.cpp:1372-1599 | "a AND b AND c ..." in the priority deque reduces exactly when well formed, appending its left-grouped node to the general deque |
| MacroReduction.NoArithmeticRelationalPair | macro_expression/source/MacroOperator.cpp:47-101 | an arithmetic operand beside a relational one has no logical node, so "a OR [b GT c]" fails and changes nothing |
| MacroProcess.ConditionOf | macro_expression/source/MacroParser.cpp:1601-1724 | a deque front can serve as a guard exactly when it is relational or logical, never arithmetic |
| MacroProcess.CreateConditional | macro_expression/source/MacroParser.cpp:1601-1724 | a statement is stored only at level 0; then the statement keywords and the general deque of the outer context are emptied and no other level changes, and otherwise nothing changes |
| MacroProcess.IfGoto | macro_expression/source/MacroParser.cpp:1601-1724 | "IF [guard] GOTO n" stores a branch to n guarded by the relation and leaves the IF-THEN statement alone |
| MacroProcess.IfThen | macro_expression/source/MacroParser.cpp:1601-1724 | "IF [guard] THEN s" stores s guarded by the front operand exactly when that operand is relational or logical |
| MacroProcess.LoneKeyword | macro_expression/source/MacroParser.cpp:1601-1724 | a lone "GOTO n", "DO n" or "END n" stores an unguarded branch, loop or loop end for n |
| MacroProcess.ProcessKeyword | macro_expression/source/MacroParser.cpp:1726-1821 | a word missing from the keyword table fails and changes nothing; an accepted word is popped from the upper-case word stack |
| MacroProcess.FileKeyword | macro_expression/source/MacroParser.cpp:1731-1818 | when filing a looked-up keyword succeeds, the word has been popped from the upper-case word stack |
| MacroProcess.KeywordAccepted | macro_expression/source/MacroParser.cpp:1726-1821 | every keyword of the table is accepted, except OR and XOR while a pending AND chain cannot be closed, and AND when no operand comes before it |
| MacroProcess.AndTakesPreviousOperand | macro_expression/source/MacroParser.cpp:1726-1821 | AND outside AND mode moves the operand just before it to the priority deque, so "a OR b AND c" groups as "a OR (b AND c)" |
| MacroProcess.MinusIsSignWhenOperandMissing | macro_expression/source/MacroParser.cpp:1877-1930 | in general mode, outside a relation and a function's arguments, a '-' is a sign exactly when every operand already has its symbol, and otherwise a subtraction |
| MacroProcess.ProcessUnaryBinary | macro_expression/source/MacroParser.cpp:1877-1930 | a '-' is filed exactly once, as a sign or as a subtraction (which leaves '*'/'/' mode); after a relational keyword it is a sign; it fails only when a pending product cannot close |
| MacroProcess.ProcessAddress | macro_expression/source/MacroParser.cpp:1823-1875 | '#' is queued as a unary symbol; '+' and '=' queue as binary symbols after closing a pending product (failing with it); '*' and '/' enter product mode and fail only when no operand comes before them outside it; a non-operator fails and changes nothing |
| MacroProcess.PlusClosesProduct | macro_expression/source/MacroParser.cpp:1823-1875 | in "a * b + c" the '+' closes the product, whose node joins the general deque before the '+' is queued |
| MacroProcess.FinalConditional | macro_expression/source/MacroParser.cpp:1988-1993 | closing the statement keyword at the end of a block is always defined and keeps the level |
| MacroProcess.ProcessToFinal | macro_expression/source/MacroParser.cpp:1932-1994 | at the end of a block only the current level changes, its relational keywords stay, and the behaviour is undefined exactly when binary symbols are pending with no operand and no logical or product chain before them |
| MacroProcess.FinalSum | macro_expression/source/MacroParser.cpp:1965-1993 | reducing the final sum changes only the current level and is undefined exactly when symbols are pending with no operand |
| MacroProcess.FinalAssignment | macro_expression/source/MacroParser.cpp:1932-1994 | a block ending in "t = a + b ..." reduces to the assignment of the left-grouped sum to t and succeeds |
| MacroProcess.ReturnToPreviousLevel | macro_expression/source/MacroParser.cpp:1996-2098 | a closing ']' that succeeds lowers the level by one, touches only the two levels involved and never the statements |
| MacroProcess.HandResultDown | macro_expression/source/MacroParser.cpp:2034-2097 | handing a reduced result down succeeds only above level 0, lowers the level by one, touches only the two levels involved and never the statements |
| MacroProcess.ReduceBeforeReturn | macro_expression/source/MacroParser.cpp:1999-2032 | the reduction consumes no function keyword, sign, statement keyword or argument flag; with nothing pending it succeeds unchanged; a successful plain sum consumes all its symbols |
| MacroProcess.HandDown | macro_expression/source/MacroParser.cpp:2044-2070 | with no pending sign a result is pushed unchanged unless a function keyword below takes it, in which case it is wrapped in that function and the keyword popped |
| MacroProcess.NoNodeFor | macro_expression/source/MacroParser.cpp:242-541 | BIN, BCD and ADP build no function node and change nothing |
| MacroProcess.UnsupportedFunctionPassesThrough | macro_expression/source/MacroParser.cpp:1996-2098 | "BIN[e]", "BCD[e]" and "ADP[e]" hand e down unchanged and leave the keyword pending |
| MacroProcess.FunctionWrapsBracket | macro_expression/source/MacroParser.cpp:1996-2098 | "SIN[e]" and the other one-operand keywords wrap the bracketed value in their function node and consume the keyword |
| MacroProcess.BracketedRelation | macro_expression/source/MacroParser.cpp:1996-2098 | "[a GT b]" is reduced to its relation when the bracket closes and handed down as it is |
| MacroGeneration.MacroGenerator.constructor | macro_expression/source/MacroParser.cpp:38-45 | a new generator holds six fresh contexts at level 0 and no statement |
| MacroGeneration.MacroGenerator.Clear | macro_expression/source/MacroParser.cpp:48-58 | Clear resets the statements, the level and, in a loop over the context array, every context, to the cleared generator |
| MacroGeneration.MacroGenerator.LevelUp | macro_expression/source/MacroParser.cpp:60-68 | the level field and the result are those of MacroContext.LevelUp on the state before the call |
| MacroGeneration.MacroGenerator.LevelDown | macro_expression/source/MacroParser.cpp:70-77 | the level field and the result are those of MacroContext.LevelDown on the state before the call |
| MacroGeneration.MacroGenerator.CreateDigitString | macro_expression/source/MacroParser.cpp:131-143 | only the current context changes, as MacroReduction.CreateDigitString says |
| MacroGeneration.MacroGenerator.CreateConstantOperator | macro_expression/source/MacroParser.cpp:145-163 | the current context and the result are those of MacroReduction.CreateConstant: the literal is converted in place by the macro number format |
| MacroGeneration.MacroGenerator.CreateUnaryAddressOperator | macro_expression/source/MacroParser.cpp:165-240 | the loop over the unary symbol stack leaves the context and result of MacroReduction.CreateUnaryAddress |
| MacroGeneration.MacroGenerator.CreateUnaryFunctionOperator | macro_expression/source/MacroParser.cpp:242-541 | the current context and result are those of MacroReduction.CreateUnaryFunction |
| MacroGeneration.MacroGenerator.CreateBinaryFunctionOperator | macro_expression/source/MacroParser.cpp:543-597 | the current context and result are those of MacroReduction.CreateBinaryFunction |
| MacroGeneration.MacroGenerator.CreateBinaryOperator | macro_expression/source/MacroParser.cpp:599-807 | the loop over the binary symbols leaves the context and result of MacroReduction.CreateBinary, and so reduces sums and assignments as the lemmas about it state |
| MacroGeneration.MacroGenerator.CreatePriorityBinaryOperator | macro_expression/source/MacroParser.cpp:809-900 | the loop over the '*'/'/' symbols leaves the context and result of MacroReduction.CreatePriorityBinary |
| MacroGeneration.MacroGenerator.CreateRelationalOperator | macro_expression/source/MacroParser.cpp:902-1016 | the current context and result are those of MacroReduction.CreateRelational |
| MacroGeneration.MacroGenerator.CreateLogicalOperator | macro_expression/source/MacroParser.cpp:1018-1370 | the loop over OR/XOR keywords leaves the context and result of MacroReduction.CreateLogical |
| MacroGeneration.MacroGenerator.CreatePriorityLogicalOperator | macro_expression/source/MacroParser.cpp:1372-1599 | the loop over AND keywords leaves the context and result of MacroReduction.CreatePriorityLogical |
| MacroGeneration.MacroGenerator.CreateConditionalOperator | macro_expression/source/MacroParser.cpp:1601-1724 | the statements, contexts and result are those of MacroProcess.CreateConditional |
| MacroGeneration.MacroGenerator.ProcessOperatorKeyword | macro_expression/source/MacroParser.cpp:1726-1821 | the current context and result are those of MacroProcess.ProcessKeyword |
| MacroGeneration.MacroGenerator.FileUpperString | macro_expression/source/MacroParser.cpp:1731-1818 | filing a looked-up word leaves the context and result of MacroProcess.FileKeyword |
| MacroGeneration.MacroGenerator.FileOrKeyword | macro_expression/source/MacroParser.cpp:1765-1777 | OR/XOR first closes a pending AND chain, as MacroProcess.FileKeyword says |
| MacroGeneration.MacroGenerator.FileAndKeyword | macro_expression/source/MacroParser.cpp:1780-1797 | AND enters AND mode taking the previous operand along, as MacroProcess.FileKeyword says |
| MacroGeneration.MacroGenerator.ProcessOperatorAddress | macro_expression/source/MacroParser.cpp:1823-1875 | the current context and result are those of MacroProcess.ProcessAddress |
| MacroGeneration.MacroGenerator.ProcessUnaryBinaryAddress | macro_expression/source/MacroParser.cpp:1877-1930 | the current context and result are those of MacroProcess.ProcessUnaryBinary, including the unsigned count of operands |
| MacroGeneration.MacroGenerator.ProcessToFinalOperator | macro_expression/source/MacroParser.cpp:1932-1994 | on every input where the source's behaviour is defined, the state and result are those of MacroProcess.ProcessToFinal |
| MacroGeneration.MacroGenerator.FinalLogicalChains | macro_expression/source/MacroParser.cpp:1935-1949 | with an AND chain pending, the AND, OR/XOR and sum reductions in turn leave the state of MacroProcess.ProcessToFinal |
| MacroGeneration.MacroGenerator.FinalSumOperator | macro_expression/source/MacroParser.cpp:1965-1993 | the state and result are those of MacroProcess.FinalSum |
| MacroGeneration.MacroGenerator.GuardedSum | macro_expression/source/MacroParser.cpp:1967-1981 | a leading guard is taken off, the sum behind it reduced and the guard put back in front, as MacroProcess.FinalSum says |
| MacroGeneration.MacroGenerator.PushUpperString | macro_expression/header/FanucMacroParser.h:216-218 | pushing a word reaches the current level's word stack only |
| MacroGeneration.MacroGenerator.PopDigitString | macro_expression/source/MacroParser.cpp:160 | popping a literal reaches the current level's digit stack only |
| MacroGeneration.MacroGenerator.PopFrontGeneral | macro_expression/source/MacroParser.cpp:1967-1971 | dropping the front operand reaches the current level's general deque only |
| MacroGeneration.MacroGenerator.SetTwoArguments | macro_expression/header/FanucMacroParser.h:171-173 | setting the two-argument flag reaches the current level only |
| MacroGeneration.MacroGenerator.ReduceLevel | macro_expression/source/MacroParser.cpp:1999-2032 | the reductions applied at ']' leave the context and result of MacroProcess.ReduceBeforeReturn |
| MacroGeneration.MacroGenerator.ReturnPriorityOperatorToPreviousLevel | macro_expression/source/MacroParser.cpp:1996-2098 | the state and result are those of MacroProcess.ReturnToPreviousLevel |
| MacroGeneration.MacroGenerator.HandResultDownOperator | macro_expression/source/MacroParser.cpp:2034-2097 | the state and result are those of MacroProcess.HandResultDown |
| MacroGeneration.MacroGenerator.HandOneDown | macro_expression/source/MacroParser.cpp:2036-2071 | a single result goes one level down as MacroProcess.HandResultDown says |
| MacroGeneration.MacroGenerator.PushDown | macro_expression/source/MacroParser.cpp:2044-2070 | the lower level receives the result as MacroProcess.HandDown says |
| MacroGeneration.MacroGenerator.HandTwoDown | macro_expression/source/MacroParser.cpp:2072-2094 | a two-argument pair becomes the arguments of the pending POW or ATAN one level down, as MacroProcess.HandResultDown says |
| MacroGeneration.BinaryStep | macro_expression/source/MacroParser.cpp:619-769 | one pass of the binary loop keeps the fold's outcome, consumes a symbol unless it stops, and stops exactly where the fold fails, with nothing taken |
| MacroGeneration.PriorityStep | macro_expression/source/MacroParser.cpp:817-888 | one pass of the '*'/'/' loop keeps the fold's outcome, consumes a symbol unless it stops, and stops exactly where the fold fails |
| MacroGeneration.LogicalStep | macro_expression/source/MacroParser.cpp:1041-1341 | one pass of either logical loop keeps the fold's outcome, consumes a keyword unless it stops, and stops exactly where the fold fails |
| FanucMacroParsing.AddressOrKeyword | macro_expression/source/MacroParser.cpp:2328-2349 | a one-letter run becomes the pending NC address and leaves the generator alone; a longer run absent from the keyword table fails; in every case only the current level changes |
| FanucMacroParsing.UnaryOrConstant | macro_expression/source/MacroParser.cpp:2351-2384 | a digit run after an NC address outside an expression is that word's value: it is dropped, only the pending minus it took as sign is consumed, and the address is cleared; only the current level changes |
| FanucMacroParsing.WithoutSign | macro_expression/source/MacroParser.cpp:131-143 | consuming the pending unary minus keeps the generator well formed |
| FanucMacroParsing.SignedDigits | macro_expression/source/MacroParser.cpp:2354-2356 | pushing a literal differs from consuming its sign only in the literal stack, so it does not change whether the block is in macro mode |
| FanucMacroParsing.UpperLetter | macro_expression/source/MacroParser.cpp:2211-2235 | an upper-case letter leaves an upper-case run open in a well-formed state, and when it stops the block the answer is INVALID with the generator untouched |
| FanucMacroParsing.Symbol | macro_expression/source/MacroParser.cpp:2246-2274 | a symbol never opens or closes a run, and a symbol the generator refuses stops the block as INVALID |
| FanucMacroParsing.Step | macro_expression/source/MacroParser.cpp:2172-2275 | one pass of the character loop either continues in a well-formed scan state or stops the block as INVALID |
| FanucMacroParsing.DigitCharacter | macro_expression/source/MacroParser.cpp:2187-2203 | a digit or '.' continues in a well-formed state or, when it closes a run that is no keyword, stops as INVALID |
| FanucMacroParsing.OtherCharacter | macro_expression/source/MacroParser.cpp:2205-2275 | any other character continues in a well-formed state or stops as INVALID |
| FanucMacroParsing.Classify | macro_expression/source/MacroParser.cpp:2298-2325 | a block is MACRO exactly when it ends at level 0 with an operand or a statement, and INVALID otherwise; the generator is left as it is |
| FanucMacroParsing.Finish | macro_expression/source/MacroParser.cpp:2278-2325 | the end of a block, where defined, answers INVALID, or MACRO at level 0 with an operand or a statement |
| FanucMacroParsing.Run | macro_expression/source/MacroParser.cpp:2164-2326 | from any well-formed scan state the rest of the block answers INVALID or a well-founded MACRO, never UNKNOWN or NC |
| FanucMacroParsing.ParseOutcome | macro_expression/source/MacroParser.cpp:2164-2326 | ParseBlock answers INVALID, or MACRO for a block that ends at level 0 with an operand or a statement |
| FanucMacroParsing.KeywordKeepsSeparator | macro_expression/source/MacroParser.cpp:1726-1821 | filing a keyword leaves the level's ',' flag alone |
| FanucMacroParsing.DigitsKeepSeparator | macro_expression/source/MacroParser.cpp:2351-2384 | closing a digit run leaves the level's ',' flag alone |
| FanucMacroParsing.SecondSeparatorInvalid | macro_expression/source/MacroParser.cpp:2260-2265 | a second ',' in the same level ends the block as INVALID, whatever run it closes first |
| FanucMacroParsing.FirstSeparatorRaisesFlag | macro_expression/source/MacroParser.cpp:2260-2265 | the first ',' of a level with no run open only raises that level's flag |
| FanucMacroParsing.CommentSkipped | macro_expression/source/MacroParser.cpp:2176-2185 | inside a comment only ')' matters, and the generator is left alone |
| FanucMacroParsing.OtherCharacterSkipped | macro_expression/source/MacroParser.cpp:2272-2274 | a character that is no digit, letter, operator, bracket, separator or comment start is skipped when no run is open |
| FanucMacroParsing.FanucMacroParser.constructor | macro_expression/header/FanucMacroParser.h:349-352 | a new parser owns a fresh, well-formed generator |
| FanucMacroParsing.FanucMacroParser.ParseBlock | macro_expression/source/MacroParser.cpp:2164-2326 | the character loop leaves exactly the answer and generator of ParseOutcome, whatever an earlier block left, on every block whose run is defined |
| FanucMacroParsing.FanucMacroParser.ScanCharacter | macro_expression/source/MacroParser.cpp:2172-2275 | one pass of the loop leaves the scan state or the stop that Step gives |
| FanucMacroParsing.FanucMacroParser.CreateAddressOrKeyword | macro_expression/source/MacroParser.cpp:2328-2349 | the state and result are those of AddressOrKeyword |
| FanucMacroParsing.FanucMacroParser.CreateUnaryOrConstantOperator | macro_expression/source/MacroParser.cpp:2351-2384 | the state and result are those of UnaryOrConstant |
| FanucMacroParsing.FanucMacroParser.OpenUpperRun | macro_expression/source/MacroParser.cpp:2211-2235 | the state and stop are those of UpperLetter |
| FanucMacroParsing.FanucMacroParser.ScanSymbol | macro_expression/source/MacroParser.cpp:2246-2274 | the state and stop are those of Symbol |
| FanucMacroParsing.FanucMacroParser.FinishBlock | macro_expression/source/MacroParser.cpp:2278-2325 | the answer and generator are those of Finish |
| FanucMacroParsing.FanucMacroParser.ClassifyLevel | macro_expression/source/MacroParser.cpp:2298-2325 | the answer is that of Classify |

## Left out

- Math library functions (SIN, COS, TAN, ASIN, ACOS, ATAN, ATAN2, SQRT, LN, EXP, POW, degree/radian conversion): a `MathLibrary` parameter of uninterpreted real functions, because they are floating-point library calls.
- IEEE-754 behaviour: reals have no NaN, no infinity and no rounding.
  - Division by zero is a `DivisionByZero` fault, where C++ yields infinity or NaN.
  - A double→unsigned, double→unsigned short or double→int cast outside the target range is a `CastOutOfRange` fault, where C++ is undefined. This includes the `static_cast<int>` of a branch number (macro_expression/source/MacroOperator.cpp:625).
- MacroOperator.EvaluateArithmetic: the two operands of +, -, *, /, POW and ATAN2 are evaluated left then right. C++ leaves that order unspecified (macro_expression/header/MacroOperator.h:395-460), and the result depends on it when an operand holds an assignment, as in `#1+[#1=5]`. Only the relational node sequences its operands explicitly (macro_expression/source/MacroOperator.cpp:36-45).
- NumberDefinition.IntegerToString: when the digit bounds refuse the rendering, C++ has already overwritten the caller's `output_string` (macro_expression/source/NC_NumberDefinition.cpp:102-107) before returning false. The model returns None and does not model that effect on the caller's string.
- NumberDefinition.ConvertFloat: strtod's overflow to HUGE_VAL is modelled as a value beyond ±DBL_MAX. Decimal strings are converted exactly, with no rounding to the nearest double.
- FloatToString (`_gcvt_s`), a foreign formatting call.
- NumberDefinition.StringToInteger: atoi overflow and the `number == 0 && non_zero_count` consistency check are not modelled. Strings are read as exact integers.
- NumberDefinition.FloatFormat: a negative `digit_max` is not modelled. In C++ it is an `int`; a negative value converts to a huge `size_t` in the total-digit check (macro_expression/source/NC_NumberDefinition.cpp:322) and so lifts the upper bound. The model types digitMax as a `nat`.
- The SystemVariable constructor's table of pointers into controller parameters: it is external controller state, so the system namespace is three abstract maps.
- ControllerParameter, MacroParserFactory and the unit-test program (UnitTest/UnitTest.cpp): these are passive data, factory plumbing and test code. The unit tests are used only as evidence for some lemmas.
- `InitialDenyAddress`: dead code that is never called.
- C++ mechanics: shared_ptr ownership, `clone()`, virtual dispatch and exceptions. They become datatypes, indices and `Fault` outcomes.
- Pointers and iterators into tables and strings are indices. The generator's contexts are values held in a sequence field rather than references.
- Undefined-behaviour paths are preconditions, or the `Undefined`/`UndefinedBehaviour` outcome:
  - `top()` on an empty next-modal stack;
  - `DeleteModalLevel` after an Enter;
  - ExitLevel while an older scope pointer still designates the popped table;
  - the unchecked cast of an assignment target to a variable node;
  - `front()` on an empty operand deque at the end of a block (MacroGeneration.MacroGenerator.ProcessToFinalOperator, FanucMacroParsing.FanucMacroParser.ParseBlock);
  - `top()` on an empty literal stack in `CreateConstantOperator`.
- In `ProcessUnaryBinaryAddress` the operand count is a `size_t`, and decrementing it from zero wraps. The model uses −1 instead; like the wrapped value, it never equals a deque size.
- Inside a comment the scanner may record the comment position in `upper_begin` (macro_expression/source/MacroParser.cpp:2183). That position is always overwritten (2215) before it is read (2331-2338), so it is not modelled.
- `isupper` is taken in the "C" locale: only 'A'–'Z' count as upper case.
- MacroVariable.ReadAfterWrite: states no read-back for a system variable backed by an `int` field. The write's `static_cast<unsigned int>`, stored back into an `int`, is modelled, but neither the lemma nor SystemVariable.Write states what such a slot reads back.
- CoordinateSystem: the X, Y, Z and B getters, setters and shifts are one member each, taking the axis as a parameter, instead of four copies.
- FanucMacroParsing.FanucMacroParser.ParseBlock: an upper-case run still open at the end of the block is never closed. This is the behaviour of the code as written, and the model keeps it.

## Findings

| source | as written | input that shows it | evidently intended | confidence | as-written member | corrected member |
|---|---|---|---|---|---|---|
| macro_expression/source/MacroVariable.cpp:16-17 | the constructor's slot-filling loop counts an `unsigned short` from begin to end inclusive | end = 65535: the counter wraps to 0 and stays ≤ end forever | fill exactly end − begin + 1 slots and stop | not executed | MacroVariable.ConstructorLoopNeverExitsAtTopId | MacroVariable.ConstructorLoopBelowTopId, MacroVariable.NewVariable |
| macro_expression/source/MacroVariable.cpp:257-265 | SystemVariable's ID inquiry looks only in the unsigned-short and int tables | an ID present only in the double table: the inquiry answers false although Read finds it | the inquiry holds exactly for the IDs Read and Write serve | not executed | MacroVariable.InquiryAsWrittenMissesDoubles | MacroVariable.InquiryMatchesRead |
| macro_expression/source/NC_NumberDefinition.cpp:105-108 | IntegerToString counts the '-' sign as a digit when checking the digit bounds | digit bounds [2, 5], value −5: renders "-5", which StringToInteger refuses (one digit) | count digits only, so every rendered string reads back | not executed | NumberDefinition.IntegerToStringAsWritten, NumberDefinition.NegativeRenderingDoesNotReadBack | NumberDefinition.IntegerToString, NumberDefinition.TextReadsBack |
