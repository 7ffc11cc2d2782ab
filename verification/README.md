# RollDice expression engine in Dafny

A model of the expression engine of RollDice, a dice-notation calculator.
An expression such as `2d6x1r0+1d6` goes through three stages:

1. It is split into tokens by `TokenParser`.
2. The tokens are converted to postfix by the shunting-yard loop `GetRPN`.
3. The postfix sequence is run by the stack machine `GetResults`, which
   rolls dice through `SimpleRoll`.

Every stage is modelled.

- **Grammar table** (`Grammar`): the thirteen symbols the `DiceParser`
  constructor registers, and the lookups the converter and evaluator make.
- **Tokenizer** (`Lexer`): both modes of `TokenParser`.
  - Split mode applies when the trimmed input contains a space: the input
    is cut at white space.
  - Character mode applies otherwise: the input is scanned by character
    class. This includes the operand loop's quirk of skipping
    unclassified characters without advancing the position, and the
    `z…(` function names.
- **Converter** (`Postfix`, `PostfixFacts`, `Engine`): `GetRPN`, which
  shunts each token as soon as the tokenizer returns it (`Shunt`,
  `Engine.ConvertFrom`) and drains the operator stack at the end marker.
- **Evaluator** (`Evaluator`): `GetResults` as a machine that holds:
  - the remaining instructions;
  - the value stack (top first);
  - the pending drop count (`x`) and per-die bonus (`p`);
  - the unused random draws.

  `r` rewrites the instructions ahead of it. It is the one place where the
  program modifies its own remaining input.
- **Dice primitive** (`Dice`, `Sorting`): `SimpleRoll`. It covers parameter
  validation, the exploding modes `e`, `f` and `g`, drop-lowest after an
  ascending sort, and the per-die bonus.
- **Repeated rolls** (`Reroll`, `Findings`, `Inputs`): what `r` does.
  The original layout of the repetitions is given its meaning for every
  input: the first roll uses the modifiers pending at `r`, and every later
  roll, and whatever roll follows the expansion, uses the positive ones
  among them. Two concrete inputs show that this departs from "roll this
  group n + 1 times and add". A corrected layout is proved to mean exactly
  that.
- **Pipeline** (`Engine`): text to trace and grand total. The layout of
  `r` is a parameter: `AsWritten` is the original program, `Intended` the
  corrected one.

Randomness is an explicit sequence of natural numbers, called draws. A
draw `d` shows face `1 + d % faces`. Running out of draws is the fault
`DrawsExhausted`. The stack machine takes its dice primitive as a
parameter of type `Roller`, and the pipeline plugs in `SimpleRoll`. Every
failure the original signals by throwing is a distinct `Fault`.

### Behaviour worth noting

- **Unknown tokens.** A token that is neither a number, a grammar symbol
  nor `(`, `)` or `,` is not an error: `GetRPN` has no branch for it
  (DiceParser.cs:533-595) and drops it silently. `Shunt` does the same.
- **Layout of a repeated group.** Each repetition is the dice count, then
  the faces, then the roll operator (DiceParser.cs:486-488), the order in
  which the roll operator takes its operands.
- **Conversion is interleaved with tokenizing.** `GetRPN` shunts each
  token as it is read (DiceParser.cs:529), so a grouping error stops the
  conversion before a later token can fail to scan: `)z` fails at `)`,
  not at the `z` without a `(` (`Engine.CloseBeforeName`).
- **Closing without an opening.** `)` or `,` with no `(` on the operator
  stack reaches `Peek` on an empty stack, which throws before the loop's
  own `FormatException`. The model reports both as `UnbalancedGrouping`.
- **Where the modifiers go.** The code re-sets the modifiers after each
  repeated roll, and only when they are positive. See "Findings".
- **Missing operands of `r`.** When `r` lacks its operands or the
  instruction after it, the code throws from `Pop` or `First`. The model
  reports this as `NothingToRepeat`.

## Model

| member | source | states |
|---|---|---|
| Grammar.LookupIsFirst | RollDice/DiceParser.cs:227-250 | Looking a token up by its text gives the first table entry with that text, or nothing when no entry has it. |
| Grammar.FindFirst | RollDice/DiceParser.cs:227-235 | Nothing is found exactly when no entry has the text. What is found is an entry of the list with that text. |
| Grammar.TextsDistinct | RollDice/DiceParser.cs:106-225 | No two registered symbols share a text, so "the first entry" is the only entry. |
| Grammar.ArithmeticSymbols | RollDice/DiceParser.cs:108-152 | `^ + - * /` are binary. `^` is the only right-associative one. Precedence is 4 for `^`, 3 for `*` and `/`, and 2 for `+` and `-`. |
| Grammar.RollSymbols | RollDice/DiceParser.cs:153-188 | `d e f g` are binary, left-associative, precedence 5. |
| Grammar.ModifierSymbols | RollDice/DiceParser.cs:189-215 | `x` and `p` are unary at precedence 7. `r` is unary at precedence 6. All three are left-associative. |
| Grammar.FunctionSymbols | RollDice/DiceParser.cs:242-245 | A token is a function exactly when it is `zCeiling`, which is unary with no associativity. |
| Grammar.KnownSymbols | RollDice/DiceParser.cs:237-240 | A token is a grammar symbol exactly when it is one of the thirteen registered texts. |
| Lexer.Trim | RollDice/TokenParser.cs:24 | The trimmed text is a slice of the input with only white space cut on both sides, and it neither starts nor ends with white space. |
| Lexer.Split | RollDice/TokenParser.cs:38 | There is one more piece than there are white-space characters, empty pieces included, and no piece contains white space. |
| Lexer.SplitJoin | RollDice/TokenParser.cs:38 | Joining the pieces with the separators that were removed gives back the input. |
| Lexer.SplitModeTokens | RollDice/TokenParser.cs:34-50 | When the trimmed input contains a space, the tokens are exactly the whitespace-split pieces of the trimmed input. |
| Lexer.NextChar | RollDice/TokenParser.cs:52-96 | One call in character mode. It returns the end marker at the end of input or at an unclassified character, and leaves the state unchanged. An operator other than `z` is a one-character token. A `z` name runs up to the next `(` and fails when there is none. Every returned token is non-empty and advances the position. |
| Lexer.ScanOperandRun | RollDice/TokenParser.cs:63-74 | When every character up to the next operator is classified, the operand loop reads exactly that run of characters and ends its position at the operator. |
| Lexer.OperandToken | RollDice/TokenParser.cs:56-75 | An operand token is the first operand character plus every character up to the next operator character. |
| Lexer.NextPiece | RollDice/TokenParser.cs:34-50 | In split mode a call returns the next whitespace-split piece of the trimmed input and moves past it, or the end marker without moving once every piece is returned. |
| Lexer.NextToken | RollDice/TokenParser.cs:22-32 | A call keeps the input. It returns the end marker without moving, or a token with less input left to return. It fails only on an unterminated function name, and only in character mode. |
| Lexer.TokensFrom | RollDice/TokenParser.cs:22-96 | Tokenizing fails only on an unterminated function name, and only in character mode. |
| Lexer.CharStep | RollDice/TokenParser.cs:52-96 | In character mode on classified input, each successful call returns the next slice of the input and resumes right after it. |
| Lexer.CharModeCovers | RollDice/TokenParser.cs:52-96 | In character mode on classified input, the tokens glued together give back the input. |
| Lexer.CharModeSingles | RollDice/TokenParser.cs:52-96 | In character mode, when no two operand characters are adjacent and no `z` occurs, each character is a token of its own. |
| Numbers.NonNumericText | RollDice/DiceParser.cs:535 | A lone non-digit, or a text starting with a character that is not a digit, sign or point, does not parse as a number. |
| Numbers.IntTextRoundTrip | RollDice/DiceParser.cs:479 | The decimal text of an integer, as `r` writes it back into the program, parses back to that integer. |
| Numbers.Ceil | RollDice/DiceParser.cs:449-450 | The result is the least integer not below the value. |
| Numbers.Power | RollDice/DiceParser.cs:430-431 | `a ^ b` succeeds exactly for an integral `b` whose base is non-zero when `b` is negative. It equals `a` multiplied `b` times, or the inverse of that for negative `b`. |
| Postfix.PopWhile | RollDice/DiceParser.cs:556-566 | The popped operators plus the rest make up the old stack. Every popped operator is one the token pops, and the new top is not. |
| Postfix.PopToOpen | RollDice/DiceParser.cs:576-583 | Popping to `(` succeeds exactly when a `(` is on the stack. The popped part holds no `(`, and the rest starts with the nearest `(`. Otherwise the result is unbalanced grouping. |
| Postfix.Shunt | RollDice/DiceParser.cs:531-594 | One token fails only when it is `,` or `)` with no `(` on the operator stack, and then with unbalanced grouping. |
| Postfix.ShuntCases | RollDice/DiceParser.cs:533-583 | A number goes to the output. An operator moves what it pops to the output and is then pushed. `,` or `)` with no `(` on the stack is unbalanced grouping. |
| Postfix.Drain | RollDice/DiceParser.cs:597-607 | At the end the stack is emitted top first. This fails exactly when a `(` is left on it. |
| Postfix.ShuntAll | RollDice/DiceParser.cs:529-595 | Shunting a sequence of tokens fails only with unbalanced grouping. |
| Postfix.ToPostfix | RollDice/DiceParser.cs:523-610 | Converting a token sequence fails only with unbalanced grouping. |
| PostfixFacts.OperatorStep | RollDice/DiceParser.cs:554-569 | An operator token pops, in stack order, exactly the operators it out-ranks by associativity and precedence, and is then pushed. |
| PostfixFacts.CommaStep | RollDice/DiceParser.cs:543-553 | `,` pops into the output down to the nearest `(` and keeps that `(`. |
| PostfixFacts.CloseParen | RollDice/DiceParser.cs:574-594 | `)` pops into the output down to the nearest `(` and discards it. It then emits a function name if one is on top. |
| PostfixFacts.ShuntDepth | RollDice/DiceParser.cs:529-595 | One token fails exactly when it is `)` or `,` with no `(` on the stack. The number of `(` on the stack tracks the nesting depth. |
| PostfixFacts.ShuntAccounts | RollDice/DiceParser.cs:529-595 | One token adds itself to the numbers emitted when it is a number. It adds itself to the output plus stacked symbols when it is a number or grammar symbol, and changes nothing else in either. |
| PostfixFacts.ConvertsIffNested | RollDice/DiceParser.cs:523-610 | Conversion succeeds exactly on token sequences with balanced grouping. Every failure is unbalanced grouping. |
| PostfixFacts.NumeralsInOrder | RollDice/DiceParser.cs:523-610 | The numbers in the postfix output are the input's numbers in input order. |
| PostfixFacts.OutputPermutesSymbols | RollDice/DiceParser.cs:523-610 | The postfix output is a rearrangement of the input's numbers and grammar symbols, each appearing exactly once. `(`, `)`, `,` and unknown tokens vanish. |
| Sorting.SortFacts | RollDice/DiceParser.cs:664 | The sort returns an ascending permutation of the dice. |
| Dice.RollDie | RollDice/DiceParser.cs:634-659 | Rolling one die, explosions included, fails only by running out of draws. |
| Dice.RollDice | RollDice/DiceParser.cs:632-660 | Rolling `n` dice fails only by running out of draws. |
| Dice.RollDieFacts | RollDice/DiceParser.cs:634-659 | A die fails to settle exactly when every remaining draw explodes. Otherwise it uses a prefix of the draws, one die per draw: every die but the last exploded and the last did not. |
| Dice.RollDiceFacts | RollDice/DiceParser.cs:632-660 | `n` dice use a prefix of the draws, one die per draw. Every die beyond the first `n` is an explosion. |
| Dice.SimpleRoll | RollDice/DiceParser.cs:628-683 | The roll fails with bad parameters exactly when the dice count is outside 1..1000, there are fewer than 2 faces, or the drop exceeds the dice count. It fails with an unsupported mode exactly when the parameters are valid and the mode is not `d e f g`. The only other failure is running out of draws. |
| Dice.DropLowestFacts | RollDice/DiceParser.cs:662-669 | Dropping loses no die. A positive drop removes exactly that many dice, none above any kept die, and leaves the dice ascending. Otherwise all dice are kept in the order rolled. |
| Dice.TotalIsSumPlusBonus | RollDice/DiceParser.cs:671-674 | The total is the sum of the kept dice plus the bonus once per kept die. |
| Dice.FinishFacts | RollDice/DiceParser.cs:614-676 | Rolled dice that use a prefix of the draws become a roll that satisfies `RollHolds`. |
| Dice.SimpleRollFacts | RollDice/DiceParser.cs:612-684 | Every successful roll satisfies `RollHolds`: it uses a prefix of the draws, one die per draw. It holds the requested dice plus one per explosion, `d` never explodes, and kept plus dropped dice are exactly the dice shown. The total is the kept sum plus the bonus per kept die. The label carries the count, mode, faces and drop. Without a drop the dice keep their rolled order; with one the dropped dice are the lowest. |
| Evaluator.Decode | RollDice/DiceParser.cs:398-428 | A postfix token becomes a number exactly when it parses as one. |
| Evaluator.DecodeAll | RollDice/DiceParser.cs:391-400 | The program has one instruction per postfix token, each the decoding of that token, in order. |
| Evaluator.DecodeMatchesTable | RollDice/DiceParser.cs:400-428 | A non-numeric token decodes to a symbol exactly when the grammar table lists it. The symbol then has the token's text and the table's arity. |
| Evaluator.DecodeSymText | RollDice/DiceParser.cs:428-497 | Every symbol's text decodes back to that symbol. |
| Evaluator.OperandsOnTop | RollDice/DiceParser.cs:414-426 | A trace line lists the symbol's operands as the top values of the stack, top first. |
| Evaluator.StepFacts | RollDice/DiceParser.cs:391-505 | A number is pushed. An unknown word fails. A symbol with fewer values than its arity fails. A symbol that succeeds is traced with its operands and the stack it leaves. Every instruction other than `r` consumes only itself. |
| Evaluator.ArithmeticFacts | RollDice/DiceParser.cs:430-444 | `+ - * ^` compute `a op b`, where `b` is the top value. Division fails exactly on a zero divisor and otherwise undoes multiplication. |
| Evaluator.ArithmeticStep | RollDice/DiceParser.cs:430-444 | An arithmetic symbol replaces the top two values with its result, or fails as the operation does. |
| Evaluator.RollStep | RollDice/DiceParser.cs:445-455 | A roll rounds the dice count and faces up and rolls with the pending drop and bonus. It pushes the total, clears both modifiers, and records the roll in the trace. When the dice fail, the step fails the same way. |
| Evaluator.DropStep | RollDice/DiceParser.cs:456-458 | `x` pops a value and makes its ceiling the pending drop. |
| Evaluator.BonusStep | RollDice/DiceParser.cs:491-493 | `p` pops a value and makes its ceiling the pending bonus. |
| Evaluator.RepeatStep | RollDice/DiceParser.cs:459-490 | `r` succeeds exactly when three values and a next instruction are there. It replaces them with the expansion and leaves the pending modifiers as they were. |
| Evaluator.CeilingStep | RollDice/DiceParser.cs:494-496 | `zCeiling` rounds the top value up. |
| Evaluator.Run | RollDice/DiceParser.cs:509-519 | At the end of the program the run succeeds exactly when one value is left, and that value is the grand total. Otherwise the final stack size is wrong. |
| Evaluator.RunTrace | RollDice/DiceParser.cs:391-519 | A finished run's trace has one line per applied symbol, in order, followed by the grand total. |
| Evaluator.RunAfterExec | RollDice/DiceParser.cs:391-507 | Running some steps first and then the rest reaches the verdict of running the whole program. |
| Evaluator.ExecErrRun | RollDice/DiceParser.cs:391-507 | A failure within the first steps is the failure of the whole run. |
| Evaluator.FuelMonotone | RollDice/DiceParser.cs:391-507 | Extra step budget does not change a run that finished. |
| Reroll.RepeatNegative | RollDice/DiceParser.cs:469-489 | A negative count repeats nothing: `r` consumes its operands and the roll instruction, and the program goes on. |
| Reroll.GroupIntended | RollDice/DiceParser.cs:474-489 | One corrected repetition sets the drop and bonus, then rolls with them. It pushes the total or fails as the dice fail. |
| Reroll.GroupsThenAdds | RollDice/DiceParser.cs:469-489 | `n + 1` corrected repetitions and `n` additions leave the sum of the reference `RepeatRolls` totals, or fail as it fails. |
| Reroll.RepeatIntended | RollDice/DiceParser.cs:459-490 | With the corrected layout, `n r` before a roll is the reference meaning: `n + 1` rolls with the modifiers pending at `r`, summed. No modifier remains pending afterwards. |
| Reroll.RepeatIntendedErr | RollDice/DiceParser.cs:459-490 | With the corrected layout, when the reference rolls fail, the expansion fails the same way. |
| Reroll.RunRepeatIntended | RollDice/DiceParser.cs:459-490 | A whole run through a corrected `r` reaches the verdict of the same program with the expansion replaced by the sum of its rolls. |
| Reroll.RunRepeatIntendedErr | RollDice/DiceParser.cs:459-490 | A whole run through a corrected `r` whose rolls fail fails for that reason. |
| Reroll.WrittenGroup | RollDice/DiceParser.cs:474-489 | One original repetition rolls with whatever drop and bonus are pending, pushes the total, and then leaves pending the positive ones among its own modifiers. It fails as the dice fail. |
| Reroll.WrittenGroupsPush | RollDice/DiceParser.cs:474-489 | Original repetitions entered with the positive modifiers pending push the totals of that many rolls with those modifiers, the latest on top, and leave them pending. |
| Reroll.RepeatWritten | RollDice/DiceParser.cs:459-490 | In the original layout, `n r` with `n >= 0` before a roll is the reference `WrittenRolls`: one roll with the drop and bonus pending at `r`, then `n` rolls with the positive ones among them, summed. Those positive modifiers are left pending for the next roll. |
| Reroll.RepeatWrittenErr | RollDice/DiceParser.cs:459-490 | In the original layout, when the reference rolls fail, the expansion fails the same way. |
| Reroll.RunRepeatWritten | RollDice/DiceParser.cs:459-490 | A whole run through an original `r` reaches the verdict of the same program with the expansion replaced by the sum of its rolls and the positive modifiers left pending. |
| Reroll.RunRepeatWrittenErr | RollDice/DiceParser.cs:459-490 | A whole run through an original `r` whose rolls fail fails for that reason. |
| Reroll.WrittenRollsAgree | RollDice/DiceParser.cs:474-489 | With no negative modifier pending at `r`, the original rolls are the reference `n + 1` rolls with those modifiers. |
| Reroll.LayoutsAgree | RollDice/DiceParser.cs:459-490 | With no modifier pending at `r`, the original and the corrected expansion reach the same machine, or fail the same way. |
| Findings.LeakAsWritten | RollDice/DiceParser.cs:474-489 | As written, `2 6 1 x 0 r d 1 6 d +` on draws 0, 0, 3 still has the drop pending after the expansion. The last die is dropped and the grand total is 1. |
| Findings.LeakIntended | RollDice/DiceParser.cs:474-489 | In the corrected layout the same program and draws total 1 + 4 = 5. |
| Findings.BonusAsWritten | RollDice/DiceParser.cs:474-489 | As written, `1 6 0 1 - p 1 r d` on draws 0, 0 gives the bonus -1 to the first die only. The grand total is 0 + 1 = 1. |
| Findings.BonusIntended | RollDice/DiceParser.cs:474-489 | In the corrected layout both dice get the bonus and the grand total is 0. |
| Inputs.LeakFromText | RollDice/DiceParser.cs:370-521 | The text `2d6x1r0+1d6` converts to the leak program. On draws 0, 0, 3 the original evaluates it to 1; the corrected layout gives 5. |
| Inputs.BonusFromText | RollDice/DiceParser.cs:370-521 | The text `1d6p(0-1)r1` converts to the bonus program. On draws 0, 0 the original evaluates it to 1; the corrected layout gives 0. |
| Engine.ConvertFrom | RollDice/DiceParser.cs:523-610 | Converting text token by token, as the tokenizer returns them, fails only on an unterminated function name or unbalanced grouping. |
| Engine.ConvertAgrees | RollDice/DiceParser.cs:525-610 | Shunting each token as it is read gives the same result as tokenizing everything first and then converting, whenever the rest of the input tokenizes. When it does not, the conversion fails too. |
| Engine.PostfixOfTokens | RollDice/DiceParser.cs:523-610 | The postfix form of a text that tokenizes is the conversion of its tokens. A text that does not tokenize does not convert. |
| Engine.CloseBeforeName | RollDice/DiceParser.cs:529-583 | `)z` fails to convert at `)` with unbalanced grouping, although tokenizing the whole text would fail at `z`. |
| Engine.Evaluate | RollDice/DiceParser.cs:370-389 | A successful evaluation's first trace line is the converted program. |
| Engine.EvaluateTrace | RollDice/DiceParser.cs:370-521 | A finished evaluation's trace is the program, then one line per applied symbol, then the grand total, which is the value of the evaluation. |
| Engine.EvaluateVerdict | RollDice/DiceParser.cs:370-512 | An evaluation fails exactly when conversion fails or the run of the converted program fails, and for the same reason. |
| Engine.SimpleResult | RollDice/DiceParser.cs:252-265 | The single-number result exists exactly when the evaluation succeeds, and it is the grand total. |

## Left out

- Console, user interface and `RollStats`: the statistics over 1000 runs (DiceParser.cs:27-89) need a live random source and are not part of this model.
- `GetTrace` and `GetDetailedResults` (DiceParser.cs:267-368) only format the trace as text. The trace is kept as data: `Applied` holds the operands, symbol, stack and roll, and `GrandTotal` holds the total. The first line holds the decoded program instead of the postfix text.
- `System.Random` is replaced by the explicit draws. `r.Next(1, faces + 1)` is modelled as `1 + d % faces`; nothing is claimed about the distribution.
- Stack values are exact reals. The original keeps them as text and re-parses them as IEEE doubles, so rounding, infinities and NaN are not modelled.
- Numbers.Power: `Math.Pow` with a non-integral exponent, or zero to a negative power, is the fault `UnsupportedPower` instead of an IEEE result.
- Evaluator.Arithmetic: division by zero is the fault `DivisionByZero` instead of an IEEE infinity or NaN.
- Numbers.IsNumeric: recognises an optional sign, then digits with at most one point. `double.TryParse` follows the current culture's decimal and thousands separators; the model always uses `.` as the decimal point and accepts no thousands separator. Other forms `double.TryParse` accepts, such as exponents, surrounding white space, `Infinity` and `NaN`, are not numbers here. In character mode such tokens cannot arise; in split mode they can.
- Lexer.IsWhiteSpace: only the ASCII white-space characters count. `Trim` and `Split` in .NET also treat other Unicode white space as separators.
- 32-bit integers: the `(int)` casts of `Math.Ceiling`, and the sums in `SimpleRoll`, are unbounded integers here. Overflow is not modelled.
- Evaluator.Run: takes a step budget, `fuel`, and reports `OutOfFuel` when it runs out. The original has no bound. Because `r` can grow the program, a budget is needed to define the run as a function. `FuelMonotone` shows that extra budget does not change a finished run.
- Evaluator.Config: the stack machine is stated for any dice primitive, and every pipeline member uses `SimpleRoll`.
- Reroll.WrittenRollsAgree: stated for modifiers that are not negative. With a negative drop or bonus pending at `r` the original's first roll gets that value and the later ones get 0, which a general dice primitive need not treat alike; `Findings.BonusAsWritten` shows the difference for `SimpleRoll`.
- Grammar.Lookup: carries no contract of its own; `Grammar.LookupIsFirst` states that it is the first-match search `FindFirst` over the table.
- Evaluator.Step, Evaluator.Apply, Evaluator.Expand, Evaluator.Group and Dice.DropLowest: carry no contract of their own; `Evaluator.StepFacts`, the per-symbol `…Step` lemmas, `Reroll.RepeatWritten`, `Reroll.WrittenGroup`, `Reroll.GroupIntended` and `Dice.DropLowestFacts` state what they do.
- `GetSimpleResult` scanning the trace for the first roll line carrying a grand total is modelled directly as the grand total (`Engine.SimpleResult`). Only the final line carries one.
- An exploding die that only ever shows a triggering face never settles in the original. In the model it fails with `DrawsExhausted` when the draws run out (`Dice.RollDieFacts` states exactly when).

## Findings

| source | as written | input that shows it | evidently intended | confidence | as-written member | corrected member |
|---|---|---|---|---|---|---|
| RollDice/DiceParser.cs:474-489 | Each repetition rolls first and then re-sets the pending drop `x` after itself, so the last re-set leaks into the next roll after the expansion. A positive bonus `p` leaks the same way. | `2d6x1r0+1d6` with draws 0, 0, 3 gives 1: `2d6` keeps a 1 after dropping a 1, and `1d6` then drops its only die (a 4). | The drop applies to every repetition and to nothing after it, so the result is 1 + 4 = 5. | not executed | Findings.LeakAsWritten | Findings.LeakIntended |
| RollDice/DiceParser.cs:474-489 | Modifiers are written into each repetition only when positive, so a negative or zero per-die bonus reaches the first repetition only. | `1d6p(0-1)r1` with draws 0, 0 gives 1: the first die shows 1 - 1 = 0 and the second shows 1 without the bonus. | Every repetition gets the bonus pending at `r`, so the result is 0 + 0 = 0. | not executed | Findings.BonusAsWritten | Findings.BonusIntended |

The model carries both layouts of `r` (`Evaluator.Layout`). `AsWritten`
is the original layout. `Intended` is the fixed one, in which the drop and
bonus are set before each repeated roll. For every input,
`Reroll.RepeatWritten` states what the original layout does (one roll with
the modifiers pending at `r`, then `n` with the positive ones, which stay
pending), and `Reroll.RepeatIntended` and `Reroll.RunRepeatIntended` state
that the fixed layout means `n + 1` rolls with the modifiers pending at
`r`, summed. `Reroll.LayoutsAgree` shows the two coincide when no
modifier is pending. `Engine` evaluates either layout.
`Inputs.LeakFromText` and `Inputs.BonusFromText` connect each finding to
its expression text through the tokenizer and the converter.
