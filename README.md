# Calculator core in Dafny

This project models the core of a console scientific calculator (C#, namespaces
`Calculator.Lex`, `Calculator.Parse`, `Calculator.Eval`, `Calculator.Operations`,
`Calculator.IO`). An expression typed over one or more lines and ended by `=`
goes through four stages:

1. The input buffer collects it (`InputIO`).
2. The tokenizer splits it into tokens (`Tokenization`).
3. The shunting-yard converter turns the tokens into reverse Polish notation (`Parsing`).
4. The evaluator runs the RPN against a registry of operations (`Evaluation`, `Operations`).

`Pipeline` chains the stages and proves facts that span them.

Every C# loop is a Dafny `method` with a loop (`while` or `for`). Each one is proved equal to a
recursive specification function:

| method | specification function |
|---|---|
| `Tokenize` | `Lex` |
| `ToRpn` | `Parse`/`Shunt` |
| `EvaluateRpn` | `Evaluate`/`Run` |
| the `Apply` loops of Add, Sub, Mul, Div and Factorial | `Sum`, `Product`, `Factorial` |

The properties the calculator promises are proved as lemmas about those functions:

- lexing fails exactly on the first unrecognised character;
- parsing succeeds exactly on known operators and balanced parentheses;
- the RPN keeps the numbers in order and the operators as a multiset;
- every push leaves the operators below it, up to the nearest `(`, binding less tightly than it;
- evaluating the postfix form of an expression tree gives the tree's value.

The operation registry (`OpRegistry`) and the input buffer (`InputBuffer`) update their state in
place, so they are classes.

Exceptions become `Err` values of one `Error` datatype (`Results`). Numbers are `real`. The
library functions behind `^`, `sqrt`, `sin`, `cos`, `tan`, `ln`, `log` and `exp`, and the
constant π, are the fields of a `MathLib` value that the caller passes in.

Where the code and its written description differ, the model follows the code:

- The parser rewrites a unary `-` to `neg`, but no `neg` operation is registered. So every
  expression with a unary minus parses and then fails to evaluate with `UnknownOp("neg")`. A
  description that expects `-2 ^ 2 =` to give `-4` does not hold for the code.
- `abs` is registered but is not in the parser's operator table. So `abs(...)` is rejected by the
  parser with `UnknownOperator("abs")`.
- The postfix flag of `!` is stored but never consulted. `!` is handled as an ordinary
  left-associative operator of precedence 6.
- An `=` token is skipped by the parser but still becomes the "previous token" for the
  unary-minus rule.
- A function name has precedence 4, below the 5 of `^`. So `2 ^ sqrt(4)` converts to
  `2 ^ 4 sqrt`, and evaluation fails because `^` has only one operand.

## Model

| member | source | states |
|---|---|---|
| Tokenization.Tokenize | Tokenization.cs:11-60 | the character loop returns exactly `Lex(input, 0)`: the token list, or the error for the first unexpected character |
| Tokenization.ScanNumberRun | Tokenization.cs:21-30 | the inner number loop stops where `ScanNumber` says: after the longest run of digits containing at most one dot |
| Tokenization.ScanLetterRun | Tokenization.cs:36-38 | the inner letter loop stops at the first non-letter after the start |
| Tokenization.ScanNumber | Tokenization.cs:19-31 | a number token is a non-empty run of digits and dots with at most one dot, and the character after it is neither a digit nor a second dot |
| Tokenization.LexFailsOnFirstUnrecognised | Tokenization.cs:15-58 | lexing succeeds iff every character is whitespace, a digit, a dot, a letter, an operator character, a parenthesis or `=`; on failure it names the first other character and its position |
| Tokenization.LexTokensWellFormed | Tokenization.cs:31-54 | every token is well formed: numbers are digit/dot runs, words are lower-case letter runs, operators are one operator character, parentheses and `=` carry their own text |
| Tokenization.LexCoversInput | Tokenization.cs:15-58 | the token texts concatenated are the input with whitespace removed and letters lowered: nothing is lost or reordered |
| Parsing.ToRpn | Parsing.cs:45-124 | the conversion loop returns `Parse(input)`; it succeeds iff every resolved operator is in the table and the parentheses balance; a mismatch error means unbalanced input; any other error is an unknown operator found in the input; on success the output holds only numbers and operators, keeps the numbers in input order, and holds exactly the resolved operators as a multiset |
| Parsing.PopBinding | Parsing.cs:69-81 | pops exactly the maximal prefix of operators that bind at least as tightly as the incoming one (higher precedence, or equal and left-associative), in stack order, onto the output; when the stack was ordered, no operator left above the nearest `(` binds before the incoming one |
| Parsing.PopSegment | Parsing.cs:94-95 | moves every token above the nearest `(` to the output, in stack order |
| Parsing.CloseStack | Parsing.cs:92-104 | the code at a closing parenthesis computes `Close`: a mismatch error when no `(` is open; otherwise the operators above the nearest `(` go to the output, the `(` is dropped, and a function name just below it goes to the output too |
| Parsing.FlushStack | Parsing.cs:116-121 | the final flush returns `Flush`: all stacked operators appended in pop order, or a mismatch error if a `(` is left |
| Parsing.KeptOperatorsDoNotBind | Parsing.cs:69-82 | on an ordered stack, every operator left between a pushed operator and the nearest `(` binds less tightly than it: lower precedence, or equal precedence with the pushed operator right-associative |
| Parsing.StepOrdered | Parsing.cs:51-114 | every step of the conversion keeps the stack ordered (of two adjacent operators, the lower one would not have been popped by pushing the upper one) |
| Parsing.ParseOrdered | Parsing.cs:45-124 | every stack reached during a conversion is ordered |
| Parsing.PopCount | Parsing.cs:69-81 | the number of popped tokens is maximal: all before it bind, the next one does not |
| Parsing.SegmentEnd | Parsing.cs:94-97 | the segment ends at the first `(` or at the bottom of the stack |
| Parsing.ParseProperties | Parsing.cs:45-124 | the success iff, the error classification, the token kinds, the number order and the operator multiset of the converted output |
| Parsing.SegmentOpens | Parsing.cs:94-98 | the pop at `)` finds a `(` iff one is open, and consumes exactly one |
| Parsing.PrecedenceExample | Parsing.cs:69-82 | `2 + 3 * 4` becomes `2 3 4 * +` |
| Parsing.LeftAssociativityExample | Parsing.cs:74-78 | `10 - 4 - 1` becomes `10 4 - 1 -` |
| Parsing.RightAssociativityExample | Parsing.cs:18 | `2 ^ 3 ^ 2` becomes `2 3 2 ^ ^` |
| Parsing.UnaryMinusExample | Parsing.cs:34-43 | a leading `-` is rewritten to `neg` and emitted after its operand |
| Parsing.PrefixFunctionExample | Parsing.cs:99-104 | `sqrt ( 16 )` emits `sqrt` when its `)` closes |
| Parsing.PrefixAfterPowerExample | Parsing.cs:69-82 | `2 ^ sqrt ( 4 )` becomes `2 ^ 4 sqrt`: pushing `sqrt` (precedence 4) pops the `^` (precedence 5) before its right operand |
| Parsing.ErrorExamples | Parsing.cs:67-68 | `abs ( 2 )` fails as an unknown operator; an unclosed `(` fails as mismatched parentheses |
| Evaluation.EvaluateRpn | Evaluation.cs:8-50 | the evaluation loop returns exactly `Evaluate(rpn, registry.ops, m)` |
| Evaluation.ParseNumber | Evaluation.cs:16-17 | a number token parses iff it has a digit somewhere, and then to a non-negative value |
| Evaluation.ParseDecimalText | Evaluation.cs:16 | the decimal text of a natural number parses back to that number |
| Evaluation.NumeralExamples | Evaluation.cs:16-17 | `.` is not a number; `2.5`, `.5` and `5.` parse to 2.5, 0.5 and 5 |
| Evaluation.RunConcat | Evaluation.cs:12-46 | running two token lists in sequence is running their concatenation, and an error stops the run |
| Evaluation.RunHeight | Evaluation.cs:14-41 | every number pushes one value and every binary operator takes away one, so a successful run leaves the start height plus numbers minus binary operators |
| Evaluation.RunTokens | Evaluation.cs:12-45 | a successful run met only parsable numbers and registered operators |
| Evaluation.EvaluateShape | Evaluation.cs:12-49 | a successful evaluation read one more number than binary operators, and every operator in it is registered |
| Evaluation.RunPostfix | Evaluation.cs:27-41 | running the postfix form of an expression tree pushes its value, with the second-popped value as the left operand, or stops with its first error |
| Evaluation.EvaluatePostfix | Evaluation.cs:8-50 | evaluating the postfix form of an expression tree is the tree's value |
| Operations.RequireExact | Operations.cs:17-22 | no error iff the argument count equals the expected count; otherwise the count error with both counts |
| Operations.RequireAtLeast | Operations.cs:24-29 | no error iff there are at least the minimum number of arguments; otherwise the count error with both counts |
| Operations.Rem | Operations.cs:104 | the remainder has the sign of the dividend, is smaller in magnitude than the divisor, and `a = trunc(a/b)·b + r` |
| Operations.AddApply | Operations.cs:44-50 | fewer than two arguments is a count error; otherwise the sum of all arguments |
| Operations.SubApply | Operations.cs:57-63 | fewer than two arguments is a count error; otherwise the first argument minus the sum of the rest |
| Operations.MulApply | Operations.cs:70-76 | fewer than two arguments is a count error; otherwise the product of all arguments |
| Operations.DivApply | Operations.cs:83-93 | fewer than two arguments is a count error; a zero divisor is division by zero; otherwise the first argument divided by the product of the rest |
| Operations.FactApply | Operations.cs:146-158 | wrong count is a count error; otherwise `Fact`: non-integers and negatives are domain errors, above 170 overflow, else n! |
| Operations.ApplyOp | Operations.cs:40-225 | dispatching to an operation's loop or formula agrees with `Apply` for every operation |
| Operations.ArgumentCountChecked | Operations.cs:17-29 | a count error is raised exactly when the count is wrong for the operation (at least two for the four variadic ones, exactly the arity for the others) |
| Operations.ApplySucceedsIff | Operations.cs:40-225 | with the right count, an operation succeeds iff its argument is in the domain (no zero divisor, sqrt of a non-negative, ln/log of a positive, factorial of an integer in 0..170) |
| Operations.FactSucceedsIff | Operations.cs:149-153 | the factorial succeeds iff its argument is an integer between 0 and 170 |
| Operations.BinaryForms | Operations.cs:44-93 | on two arguments Add, Sub, Mul and Div are the ordinary `+`, `-`, `*`, `/`, and a zero divisor fails |
| Operations.VariadicFolds | Operations.cs:44-93 | on any number (at least two) of arguments, Add, Sub, Mul and Div are the left folds of their loops: `0 + a0 + a1 + …`, `a0 - a1 - …`, `1 * a0 * a1 * …`, and `a0 / a1 / …` when no divisor is zero; each fold is proved equal to the closed form `Apply` uses |
| Operations.SampleResults | test.cs:5-13 | `2+3=5`, `10-4-1=5`, `6*7=42`, `20/5/2=2`, `10%3=1`, `abs(-12.5)=12.5`, `5!=120` |
| Operations.FactorialLimits | Operations.cs:150-153 | 170! succeeds; 171 overflows; -1 and 2.5 are domain errors; modulo by zero and sqrt of a negative fail |
| Operations.DefaultOpsComplete | Operations.cs:240-255 | the default registry maps each operation's symbol to that operation, for all fifteen operations, and has no `neg` |
| Operations.OpRegistry.constructor | Operations.cs:229-230 | a new registry is empty |
| Operations.OpRegistry.Register | Operations.cs:232-237 | registering stores the operation under its symbol, replacing any earlier one, and returns the same registry |
| Operations.OpRegistry.TryGet | Operations.cs:239 | a lookup finds an operation iff its symbol is a key, and returns the stored one, whose symbol is the key |
| Operations.OpRegistry.CreateDefault | Operations.cs:240-255 | the default registry is the fifteen operations keyed by symbol |
| InputIO.LastIndexOf | IO.cs:15 | the last index of the character, or -1 exactly when it does not occur |
| InputIO.InputBuffer.constructor | IO.cs:7 | a new buffer is empty |
| InputIO.InputBuffer.Accept | IO.cs:9-23 | a missing line changes nothing; otherwise the line is appended, and the result is ready iff the buffered text has an `=`; then the expression is the text before the last `=` and the buffer is emptied; else the buffer keeps the text |
| InputIO.InputBuffer.Clear | IO.cs:25 | the buffer is emptied |
| InputIO.ThreeLines | IO.cs:9-23 | `1+`, `2*` and `3=4` accepted in turn yield `1+2*3` |
| Pipeline.Calculate | Program.cs:24-26 | tokenize, convert and evaluate against the default registry compute `Calculation` |
| Pipeline.TablesDisagree | Parsing.cs:15-32 | the parser's table and the default registry differ in exactly `neg` (parser only) and `abs` (registry only) |
| Pipeline.UnaryMinusNeverEvaluates | Parsing.cs:65-66 | an expression with a unary minus that parses never evaluates against the default registry |
| Pipeline.AbsNeverParses | Parsing.cs:67-68 | an expression containing `abs` never parses |
| Pipeline.LexedNumbersParse | Tokenization.cs:19-31 | a lexed number token is accepted by the evaluator's number parser iff it is not a lone `.` |
| Pipeline.DotOnly | Tokenization.cs:19-31 | among digit/dot runs with at most one dot, exactly `.` has no digit |
| Pipeline.PrecedenceEvaluates | Evaluation.cs:8-50 | `2 3 4 * +` evaluates to 14 with the default registry |
| Pipeline.UnaryMinusExampleFails | Evaluation.cs:24-25 | `3 neg` fails as an unknown operation |
| Pipeline.PrefixAfterPowerFails | Evaluation.cs:36 | `2 ^ 4 sqrt` fails with `^` missing an operand |
| Pipeline.LoneDotExample | Evaluation.cs:16-17 | the expression `.` fails as an invalid number |
| Pipeline.LeadingMinusExample | Parsing.cs:65-66 | the expression `-3` fails with unknown operation `neg` |
| Pipeline.AbsExample | Parsing.cs:67-68 | the expression `abs(2)` fails with unknown operator `abs` |

## Left out

- Floating point: numbers are exact reals. Rounding, infinities and NaN are not modelled, and neither is the 1e-9 tolerance of `IsInteger` (Operations.cs:31-32). An argument counts as an integer only when it is one exactly.
- Operations.FactApply: the `(int)Math.Round(x)` cast (Operations.cs:151) is taken as exact, so inputs outside the 32-bit range are not modelled. Every integer above 170 overflows.
- Evaluation.ParseNumber: it accepts only the digit-and-dot texts that the tokenizer can produce. Signs, exponents and surrounding whitespace, which `double.TryParse` also accepts, are not modelled, because such texts never reach it.
- Character classes are ASCII: `char.IsWhiteSpace`, `char.IsDigit`, `char.IsLetter` and `ToLowerInvariant` are modelled only for ASCII.
- Exception messages are not modelled. Each exception is an `Error` constructor that carries the offending symbol, character, position or counts.
- Null arguments (`args is null`, `op is null`) cannot occur in the model and are left out.
- The library functions (`Math.Pow`, `Math.Sqrt`, the trigonometric and logarithmic functions, `Math.Exp`) and the value of π are parameters, so nothing is proved about the numbers they compute.
- The console loop, the `exit` command and `Display` (Program.cs, IO.cs:28-35) are console I/O. Only the chain they call is modelled, as `Pipeline.Calculate`.
- The smoke-test program test.cs prints to the console. Its expected values are stated as `Operations.SampleResults`, except those of the library functions.
