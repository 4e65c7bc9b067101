# golisp core in Dafny

A model of the core of golisp, a small Lisp written in Go. The model covers four parts:

- **reader** (`reader.go`): turns text read rune by rune from a `bufio.Reader` into Lisp forms. Forms are integers, floats, strings, characters, `nil`, booleans, symbols, keywords, lists `( … )`, vectors `[ … ]` and maps `{ … }`. The reader dispatches on "macro characters" such as `"`, `;`, `\` and the brackets.
- **comparer** (`comparer.go`): equality of values: structural on the named `List`, `Vector` and `Map` types of `main.go:15-17`, Go's `==` on everything else.
- **environment** (`env.go`): chained scopes of mutable symbol tables.
- **interpreter** (`interpreter.go`): evaluates a form. Lists and vectors are function calls; the builtins `+`, `-`, `*` and `/` fold over their arguments.

## Layout

| file | module | what it holds |
|---|---|---|
| `values.dfy` | `Values` | the `Value` datatype for Lisp forms, Go's 64-bit `int` wrap-around (`Wrap64`) and truncating division (`TruncDiv`) |
| `strconv.dfy` | `Strconv` | the parts of Go's `strconv.Atoi` and `strconv.Itoa` that the core relies on, and the decimal float syntax accepted |
| `reader_spec.dfy` | `ReaderSpec` | the reader as pure functions over the input text and a position: `Read`, `ReadFormAt`, `ReadDelimited`, the macro readers and the map accumulator |
| `reader.dfy` | `Reader` | the reader as the source writes it: a `RuneReader` class (the `bufio.Reader`, with `ReadRune`/`UnreadRune`) and one imperative method per Go function, each proved equal to its `ReaderSpec` function |
| `reader_props.dfy` | `ReaderProperties` | round trips (rendered forms, integers and strings read back), the error cases, whitespace and comment handling, map building |
| `reader_tests.dfy` | `ReaderTests` | cases of `reader_test.go` proved about the model |
| `comparer.dfy` | `Comparer` | `Equals` as a function, `sliceEquals`/`mapEquals` as loops, and the algebra of `Equals` |
| `env.dfy` | `Environment` | `SymbolTable` and `Env` classes, and lemmas on shadowing and on tables shared between scopes |
| `interpreter.dfy` | `Interpreter` | the evaluator (`Evaluate`, `Dispatch`, `Fold`) as functions, and `Eval`, `evalFunc`, `add` and `agg` as methods with their loops |
| `interpreter_props.dfy` | `InterpreterProperties` | what a call computes: sums, differences and products with wrap-around, truncating division, string concatenation in `+`, which operands are rejected, and left-to-right evaluation order with the first error winning |
| `interpreter_tests.dfy` | `InterpreterTests` | cases of `interpreter_test.go`, from reading the text through to evaluating it |

## Behaviour of the code that the model keeps

- The comment reader (`reader.go:193-199`) loops while `err != nil`.
  - After `;` it therefore discards exactly one character, and reading goes on from there. `;abc` reads as the symbol `bc`.
  - At the end of the input `ReadRune` keeps failing, so the loop never ends. The model returns the error `Hang` there.
  - The tests in `reader_test.go:141-154` place the comment after the form, so they cannot tell.
- `mapReader` (`reader.go:250-265`) uses `nil` as its "no key pending" marker.
  - A `nil` read in key position is dropped: `{nil 1 2}` is `{1 2}`.
- Go map keys must be hashable.
  - A vector or a map in key position makes `m[key] = item` panic. The model returns `UnhashableKey`.
  - A list is a `*list.List` pointer, so a list key never equals any other key.
- Integer division by zero panics in Go. The model returns `DivideByZeroPanic`. It is not a precondition, because a caller of `Eval` cannot know the divisors in advance.
- `Eval` (`interpreter.go:23-62`) treats a non-empty vector as a call, just like a list. `[1 2 (+ 1 2)]` therefore fails with "Function call is not a symbol", whereas `interpreter_test.go:29` expects the vector `[1 2 3]`. The model follows the code.
- `Eval` returns a map unchanged through its default case (`interpreter.go:59-60`): the values in it are not evaluated. `interpreter_test.go:30-31` expects `{"a" (+ 7 8)}` to give `{"a" 15}`. The model follows the code: `InterpreterProperties.SelfEvaluation` states that a map evaluates to itself, and `InterpreterTests.MapValuesStayUnevaluated` is these two tests.
- `interpreter_test.go` calls `Eval(rval, env)` with an environment. The `Eval` of `interpreter.go` takes one argument and looks functions up in the global `defaultEnv`. The model follows the code: the global table is a `SymbolTable` passed explicitly.
- `+` on a float and a string formats the float with `fmt.Sprintf("%v", …)`. The model stops with `FloatFormatting` there.

## Model

| member | source | states |
|---|---|---|
| Values.Wrap64 | interpreter.go:99-100 | Go `int` addition wraps to 64 bits: the result is in range, equals the exact value when that is in range, and is congruent to it modulo 2^64 |
| Values.TruncDiv | interpreter.go:175-177 | Go's `/` truncates toward zero: the remainder is smaller than the divisor in magnitude and is zero or has the dividend's sign |
| Values.WrapAdd | interpreter.go:99-100 | wrapping after every addition gives the same result as wrapping once at the end |
| Values.WrapMul | interpreter.go:165-167 | wrapping after every multiplication gives the same result as wrapping once at the end |
| Strconv.Itoa | interpreter.go:104 | `strconv.Itoa` produces integer syntax whose value is the number and which has no `+` sign |
| Strconv.Digits | interpreter.go:104 | the decimal digits of a number have no leading zero and denote the number |
| Strconv.AtoiAccepts | reader.go:138-141 | `strconv.Atoi` accepts exactly an optional sign, at least one digit and a value in 64-bit range; everything it accepts is also float syntax, so matchNumber's order makes such a number an integer |
| Strconv.IntValueSign | reader.go:138-140 | a numeral is negative only after a minus sign |
| Strconv.FloatSyntax | reader.go:142-145 | the float syntax accepted has a digit right after the optional sign |
| Comparer.Equals | comparer.go:3-23 | equal forms have the same kind: a list never equals a vector, a symbol never equals a keyword or a string |
| Comparer.SliceEquals | comparer.go:25-35 | the loop over two slices decides `Equals` on the lists, and on the vectors, that hold them |
| Comparer.MapEquals | comparer.go:37-51 | the loop over the first map's entries decides `Equals` on the two maps |
| Comparer.EqualsReflexive | comparer.go:3-23 | every form equals itself |
| Comparer.EqualsTransitive | comparer.go:3-51 | equality carries over through a middle form, maps included |
| Comparer.EqualsIsIdentityWithoutMaps | comparer.go:3-35 | on forms containing no map, `Equals` holds exactly when the forms are identical |
| Comparer.MapEqualsIsOneDirectional | comparer.go:37-51 | `mapEquals` checks only the first map's entries: the empty map equals every map, a non-empty map does not equal the empty one |
| Comparer.EqualTestCases | comparer_test.go:5-14 | the pairs the test expects to be equal are equal |
| Comparer.NotEqualTestCases | comparer_test.go:16-25 | every pair the test expects to differ differs, the floats 2.5 and 3.6 included |
| Comparer.TypeMismatchTestCases | comparer_test.go:27-32 | forms of different kinds are never equal |
| Environment.SymbolTable.constructor | env.go:15 | a new table holds exactly the bindings it is given |
| Environment.Env.Root | env.go:10-12 | a root scope shares the global table rather than copying it, and resolves exactly the global bindings |
| Environment.Env.Child | env.go:14-16 | a child scope has a fresh empty table and resolves every symbol as its parent does |
| Environment.Env.Define | env.go:18-20 | defining updates this scope's own table only: the symbol then resolves to the new binding, every other symbol resolves as before, and every lookup through the enclosing scope is unchanged |
| Environment.Env.Find | env.go:22-31 | lookup returns the binding of the nearest scope that has the symbol, or the "unable to resolve" error naming it |
| Environment.NearestBindingWins | env.go:23-26 | a binding in a scope's own table hides every outer binding |
| Environment.UnresolvedIffAbsentEverywhere | env.go:22-31 | lookup fails if and only if no scope in the chain has the symbol |
| Environment.ResolvedFromChain | env.go:22-31 | a successful lookup returns a binding stored in some scope of the chain |
| Environment.RootsShareBindings | env.go:10-12 | two root scopes over the same table resolve every symbol alike |
| Environment.DefineThroughRoot | env.go:10-20 | a definition made through one root scope is seen through every other root scope, and no other symbol changes |
| Environment.DefineInChild | env.go:14-20 | a definition in a child shadows the parent's for that symbol, leaves the child's other lookups equal to the parent's, and changes none of the parent's lookups |
| Interpreter.DefaultEnv | interpreter.go:14-21 | the global table binds exactly `+`, `-`, `*` and `/` to the four builtins |
| Interpreter.Evaluate | interpreter.go:23-62 | only a non-empty list or vector, which is a call, can fail or panic; every other value evaluates without error |
| Interpreter.Dispatch | interpreter.go:64-81 | an "Invalid operand" error comes only from a head that names a bound symbol and a call with at least two arguments |
| Interpreter.Invoke | interpreter.go:83-89 | a builtin called with fewer than two arguments never fails; with two or more, a result is a number, or a string for `+` |
| Interpreter.Fold | interpreter.go:83-151 | after at least one step of the accumulator loop the result is an integer or a float, or a string for `+` |
| Interpreter.AddStep | interpreter.go:91-119 | one step of `add` never panics; its result is an integer, a float or a string, a string whenever either side is one; the model stops exactly where Go formats a float next to a string |
| Interpreter.AggStep | interpreter.go:132-148 | one step of `agg` gives an integer or a float, an integer only from two integers, and panics exactly on integer division by an integer zero |
| Interpreter.IntOp | interpreter.go:155-177 | an integer step either yields an integer in 64-bit range or panics, and it panics exactly on a division by zero |
| Interpreter.EvaluateAll | interpreter.go:30-39 | evaluating the elements gives one value per element, or else the first failure |
| Interpreter.AllEvaluated | interpreter.go:30-39 | when every element evaluates, the evaluated elements are collected in order |
| Interpreter.FirstFailureAt | interpreter.go:33-36 | evaluation stops at the first element that fails, whatever the later elements do |
| Interpreter.Eval | interpreter.go:23-62 | the recursive method computes `Evaluate` |
| Interpreter.EvalElements | interpreter.go:30-39 | the loop fills the array with the elements' values in order, or returns the first failure |
| Interpreter.EvalFunc | interpreter.go:64-81 | the method computes `Dispatch`: head symbol, lookup, function check, then the call on the remaining arguments |
| Interpreter.Add | interpreter.go:83-122 | the loop computes the left fold of `+` over the arguments |
| Interpreter.Agg | interpreter.go:124-151 | the loop computes the left fold of the numeric operation over the arguments |
| Interpreter.Sub | interpreter.go:153-161 | `sub` is the left fold of subtraction |
| Interpreter.Mul | interpreter.go:163-171 | `mul` is the left fold of multiplication |
| Interpreter.Div | interpreter.go:173-181 | `div` is the left fold of truncating division |
| InterpreterProperties.SelfEvaluation | interpreter.go:59-60 | atoms, maps and empty lists and vectors evaluate to themselves |
| InterpreterProperties.CallOfEvaluated | interpreter.go:30-41 | a non-empty list or vector whose elements all evaluate is dispatched on the evaluated elements |
| InterpreterProperties.CallOfAtoms | interpreter.go:30-41 | a call whose elements are all atoms is dispatched on those atoms unchanged |
| InterpreterProperties.CallFailsAt | interpreter.go:33-36 | a call fails with the error of its first failing element |
| InterpreterProperties.FoldErrorsAreOperands | interpreter.go:117-119 | the only error a builtin reports is "Invalid operand" |
| InterpreterProperties.DispatchCases | interpreter.go:64-81 | each of the three errors occurs exactly when its condition holds: a head that is not a symbol, a symbol with no binding, a binding that is not a function; otherwise the builtin is applied to the rest |
| InterpreterProperties.ShortCalls | interpreter.go:84-89 | a builtin called with no arguments gives `nil`, and with one argument returns it unchecked |
| InterpreterProperties.TwoArguments | interpreter.go:85-121 | a call with two arguments is a single step of the fold |
| InterpreterProperties.FoldAppend | interpreter.go:85-120 | folding over a concatenation is folding over the second part from the first part's result, unless the first part already failed |
| InterpreterProperties.FoldSum | interpreter.go:99-100 | adding integers to an integer gives their sum wrapped to 64 bits |
| InterpreterProperties.FoldDifference | interpreter.go:138-139 | subtracting integers from an integer gives the difference from their sum, wrapped |
| InterpreterProperties.FoldProduct | interpreter.go:138-139 | multiplying integers gives their product, wrapped |
| InterpreterProperties.AddIsSum | interpreter.go:83-122 | `(+ a b …)` on integers is their sum modulo 2^64, in signed range |
| InterpreterProperties.SubIsLeftFold | interpreter.go:153-161 | `(- a b …)` is `a` minus the sum of the rest, wrapped |
| InterpreterProperties.MulIsProduct | interpreter.go:163-171 | `(* a b …)` is the product, wrapped |
| InterpreterProperties.QuotientMagnitude | interpreter.go:175-177 | a quotient is never larger in magnitude than the dividend, and at most half of it when the divisor's magnitude exceeds one |
| InterpreterProperties.DivTruncates | interpreter.go:173-181 | `(/ a b)` panics when `b` is zero, wraps `MinInt64 / -1` to `MinInt64`, and otherwise truncates toward zero |
| InterpreterProperties.FoldPanicsOnZero | interpreter.go:175-177 | the fold of `/` panics at the first zero divisor |
| InterpreterProperties.DivByZeroPanics | interpreter.go:173-181 | `(/ a …)` panics when any divisor is zero, wherever it stands among non-zero divisors |
| InterpreterProperties.FoldConcatenates | interpreter.go:111-116 | after a string, `+` appends the text of every further string or integer |
| InterpreterProperties.AddConcatenates | interpreter.go:83-122 | `(+ "s" …)` is the concatenation of `s` and the texts of the rest |
| InterpreterProperties.AddSumsThenConcatenates | interpreter.go:99-116 | integers before the first string are summed, and the sum is formatted in front of the concatenated strings |
| InterpreterProperties.SumsFirst | interpreter.go:99-100 | a run of leading integers is folded to their wrapped sum before the rest is looked at |
| InterpreterProperties.StringAfterInt | interpreter.go:103-104 | an integer followed by a string is formatted with `strconv.Itoa` and the string appended |
| InterpreterProperties.AddStepFails | interpreter.go:91-119 | a step of `+` fails exactly when an operand is neither an integer, a float nor a string, and the error names the argument |
| InterpreterProperties.AggStepFails | interpreter.go:132-148 | a step of `-`, `*` or `/` fails exactly when an operand is not a number, and the error names the argument |
| InterpreterProperties.AggRejectsStrings | interpreter.go:146-148 | `-`, `*` and `/` reject the first string argument after a successful prefix |
| InterpreterProperties.AggRejectsLeadingString | interpreter.go:126-148 | a leading string is taken unchecked, and the next argument is then the one reported |
| InterpreterTests.BinaryCall | interpreter.go:64-81 | a call of a builtin on two evaluated arguments is one step of its fold |
| InterpreterTests.Bound | interpreter.go:15-20 | the four builtin symbols are bound in the global table |
| InterpreterTests.ReadAndAddCase | interpreter_test.go:13 | `(+ 1 2)` reads as a list and evaluates to 3 |
| InterpreterTests.NestedArithmeticCases | interpreter_test.go:14-16 | nested calls give 11, 8 and 2 |
| InterpreterTests.LoweredValue | interpreter_test.go:17-19 | the shape shared by the two larger arithmetic tests evaluates to its closed form |
| InterpreterTests.QuotientOfLowered | interpreter_test.go:17-19 | dividing that shape is one `/` step on its closed form |
| InterpreterTests.LargerArithmeticCase | interpreter_test.go:17 | gives 1010 |
| InterpreterTests.NegativeProductCase | interpreter_test.go:18 | `(* -3 6)` gives -18 |
| InterpreterTests.NegativeQuotientCase | interpreter_test.go:19 | division truncates toward zero: the result is -994 |
| InterpreterTests.EmptyCases | interpreter_test.go:22-26 | the empty list, vector and map evaluate to themselves |
| InterpreterTests.MapValuesStayUnevaluated | interpreter_test.go:30-31 | against the tests' expectation, a map whose value is a call comes back unevaluated |
| InterpreterTests.VectorIsACall | interpreter_test.go:29 | against the test's expectation, a vector whose head is not a symbol fails as a call |
| InterpreterTests.DivideByZeroCase | interpreter.go:175-177 | `(/ 1 0)` panics |
| InterpreterTests.UnknownFunctionCase | interpreter.go:70-73 | `(list 1)` fails with "Function does not exist", since `list` is not bound |
| ReaderSpec.CharacterClasses | reader.go:13-35 | `isMacro` holds exactly on the nine characters of the `macros` table; a comma, space, newline, tab and carriage return are whitespace (`isWhitespace`); whitespace, digits and the non-constituent characters `@`, `` ` `` and `~` (`nonConstituent`) are disjoint from the macro characters and from each other |
| ReaderSpec.IsTerminatingMacro | reader.go:154-156 | since `#` and `'` are not macro characters, every macro character terminates a token |
| ReaderSpec.SkipWhitespace | reader.go:39-43 | skipping stops at the first character that is not whitespace or a comma, or at the end |
| ReaderSpec.SkipWhitespaceSkips | reader.go:41-43 | every character skipped is whitespace or a comma |
| ReaderSpec.TokenStop | reader.go:88-101 | a token ends at whitespace, a terminating macro character, a non-constituent character, or the end |
| ReaderSpec.TokenStopSkips | reader.go:88-101 | every character taken into the token is a constituent |
| ReaderSpec.NumberEnd | reader.go:108-115 | a number ends at whitespace, a macro character, or the end |
| ReaderSpec.NumberEndSkips | reader.go:108-115 | every character taken into the number is neither whitespace nor a macro character |
| ReaderSpec.ReadToken | reader.go:84-102 | reading a token never moves outside the input |
| ReaderSpec.ReadNumber | reader.go:104-118 | a number always gives a value or an error, never a no-op |
| ReaderSpec.MatchNumberCases | reader.go:137-147 | `matchNumber` gives an `int` when Atoi accepts the token, a float with the token as its text only when Atoi rejects it and ParseFloat accepts it, and fails with "Invalid number" naming the token exactly when both reject it |
| ReaderSpec.InterpretToken | reader.go:120-135 | a token is read as `nil`, a boolean, a keyword or a symbol, and the token's text can be recovered from that value |
| ReaderSpec.StringBody | reader.go:158-191 | a string body always gives a string or an error |
| ReaderSpec.Unescape | reader.go:170-182 | an escape letter stands for a control character, except `\` and `"`, which are the only letters that stand for themselves |
| ReaderSpec.Comment | reader.go:193-199 | the comment reader never moves outside the input |
| ReaderSpec.Utf8Length | reader.go:212 | `len` of a Go string counts bytes, at least one per rune |
| ReaderSpec.CharacterNameCases | reader.go:212-231 | a character token stands for a character exactly when it is one byte long or one of the six names; every other token fails with "Unsupported character" naming it |
| ReaderSpec.Put | reader.go:257 | after `m[key] = item` the key maps to the item, unless the key is a list pointer that no later lookup can match; no other key changes |
| ReaderSpec.AddItem | reader.go:236-258 | adding an item keeps a list a list, a vector a vector and a map a map |
| ReaderSpec.FinishSequence | reader.go:234-248 | `listReader` and `vectorReader` give a list or a vector of exactly the items read when the closing delimiter was reached, and otherwise the error of `readDelimitedList`, with the cursor where that stopped |
| ReaderSpec.FinishMap | reader.go:250-265 | `mapReader` gives the map of the entries read exactly when the closing brace was reached with no key pending; a pending key gives "even number of forms" unless the list ended in a panic |
| ReaderSpec.Read | reader.go:37-82 | each call consumes at least the first non-blank character and yields a form or an error |
| ReaderSpec.ReadFormAt | reader.go:49-80 | the only step that yields nothing is a comment |
| ReaderSpec.MacroStep | reader.go:53-60 | only the comment macro yields nothing |
| ReaderSpec.ReadDelimited | reader.go:271-309 | reading the items of a group keeps the kind of the accumulator |
| ReaderSpec.ItemAt | reader.go:287-305 | reading an item always consumes its first character |
| Reader.RuneReader.constructor | reader_test.go:179 | a new reader starts at the beginning of its text, with nothing to unread |
| Reader.RuneReader.ReadRune | reader.go:39 | `ReadRune` returns the next rune and advances, or fails at the end without moving |
| Reader.RuneReader.UnreadRune | reader.go:92 | `UnreadRune` steps back only right after a successful `ReadRune`, and otherwise changes nothing |
| Reader.ReadPastWhitespace | reader.go:39-47 | the loop stops after the first non-blank rune, or at the end of the input |
| Reader.Read | reader.go:37-82 | the imperative reader computes `ReaderSpec.Read` and leaves the reader where it says |
| Reader.ReadOnce | reader.go:39-81 | one loop iteration either finishes `Read` or skips a comment without changing what `Read` yields |
| Reader.ReadFormAfter | reader.go:49-80 | dispatch on a non-blank rune computes `ReadFormAt` |
| Reader.ReadToken | reader.go:84-102 | the token loop computes `ReaderSpec.ReadToken` |
| Reader.ReadNumber | reader.go:104-118 | the number loop computes `ReaderSpec.ReadNumber` |
| Reader.CallMacro | reader.go:53-60 | calling a macro reader computes `MacroStep` |
| Reader.StringReader | reader.go:158-191 | the string loop computes `StringBody` |
| Reader.CommentReader | reader.go:193-199 | the comment loop computes `Comment` |
| Reader.CharacterReader | reader.go:201-232 | the character reader computes `Character` |
| Reader.ListReader | reader.go:234-240 | the list reader computes `MacroStep` for `(` |
| Reader.VectorReader | reader.go:242-248 | the vector reader computes `MacroStep` for `[` |
| Reader.MapReader | reader.go:250-265 | the map reader computes `MacroStep` for `{` |
| Reader.UnmatchedDelimiterReader | reader.go:267-269 | a stray closer computes `MacroStep` for the unmatched-delimiter reader |
| Reader.ReadDelimitedList | reader.go:271-309 | the item loop computes `ReadDelimited` |
| Reader.ReadItemAfter | reader.go:287-305 | one item step computes `ItemAt` |
| ReaderProperties.SkipWhitespaceAt | reader.go:39-43 | a blank run followed by a non-blank character is skipped exactly |
| ReaderProperties.ReadAfterWhitespace | reader.go:39-50 | leading whitespace does not change what is read |
| ReaderProperties.CommentSkipsOneCharacter | reader.go:193-199 | a comment consumes `;` and exactly one further character |
| ReaderProperties.ReadPastComment | reader.go:53-59 | reading resumes two characters after the `;` |
| ReaderProperties.CommentAtEndHangs | reader.go:195-197 | a `;` at the very end of the input never returns |
| ReaderProperties.ReadsNumber | reader.go:104-118 | a number-shaped run of characters is read through `matchNumber` and consumed exactly |
| ReaderProperties.MatchNumberItoa | reader.go:137-141 | `strconv.Atoi` reads back what `strconv.Itoa` writes |
| ReaderProperties.ReadsIntegerAt | reader.go:49-50 | the text of an integer in a larger input reads as that integer |
| ReaderProperties.ReadsFloatAt | reader.go:137-145 | a number that Atoi rejects and ParseFloat accepts reads as a float with that text, the cursor just past it |
| ReaderProperties.RejectsInvalidNumber | reader.go:137-147 | a number that neither Atoi nor ParseFloat accepts stops the read with "Invalid number" naming the whole run up to the next whitespace or macro character |
| ReaderProperties.ReadIntegerRoundTrip | reader.go:37-82 | reading the decimal text of any 64-bit integer gives that integer back |
| ReaderProperties.ReadsTokenAt | reader.go:75-80 | a constituent word reads as its interpretation and is consumed exactly |
| ReaderProperties.InterpretTokenCases | reader.go:120-135 | `nil`, `true`/`false`, `:`-prefixed words and everything else map to nil, booleans, keywords without the colon and symbols, each if and only if |
| ReaderProperties.RejectsLeadingNonConstituent | reader.go:71-73 | a form cannot start with `@`, `` ` `` or `~` |
| ReaderProperties.RejectsNonConstituentInToken | reader.go:96-98 | a token containing `@`, `` ` `` or `~` is an error at that character |
| ReaderProperties.EscapeAllAppend | reader.go:158-191 | escaping distributes over concatenation |
| ReaderProperties.EscapePlain | reader.go:158-191 | text without quotes or backslashes needs no escaping |
| ReaderProperties.StringBodyDecodes | reader.go:158-191 | the string reader undoes escaping up to the closing quote |
| ReaderProperties.ReadStringRoundTrip | reader.go:158-191 | every string, quoted and escaped, reads back as itself |
| ReaderProperties.StringBodyUnterminated | reader.go:161-164 | a string body without a closing quote is unterminated |
| ReaderProperties.RejectsUnterminatedString | reader.go:162-164 | an opening quote with no closing quote is an error |
| ReaderProperties.StringBodyBadEscape | reader.go:183-184 | a backslash before an unsupported letter is an error naming it |
| ReaderProperties.RejectsUnknownEscape | reader.go:183-184 | an unsupported escape is rejected whatever follows |
| ReaderProperties.BackslashAtEnd | reader.go:165-169 | a backslash at the end of the input reports the end of the input |
| ReaderProperties.StringBodyEndsInEscape | reader.go:165-169 | the same, for a string body |
| ReaderProperties.EscapeLetters | reader.go:170-180 | `\t`, `\r`, `\n`, `\b` and `\f` decode to their control characters |
| ReaderProperties.ReadsCharacterAt | reader.go:201-211 | a character literal is a backslash followed by one token |
| ReaderProperties.RejectsUnknownCharacterName | reader.go:201-231 | a character token of more than one byte that is not one of the six names stops the read with "Unsupported character" just past the token |
| ReaderProperties.SingleCharacterName | reader.go:212-213 | a one-byte token is that character; a single non-ASCII rune is more than one byte and is unsupported |
| ReaderProperties.CharacterNames | reader.go:216-228 | the six character names map to their characters |
| ReaderProperties.RenderStart | reader.go:49-80 | a rendered form starts with a character that begins a form |
| ReaderProperties.ItemAtForm | reader.go:296-305 | an item that is not a macro is read by `Read` |
| ReaderProperties.FeedSequence | reader.go:234-248 | a list or vector collects its items in order |
| ReaderProperties.FeedMap | reader.go:250-260 | a map is built from consecutive key-value pairs, with an odd one left pending |
| ReaderProperties.FeedPair | reader.go:254-258 | two items with a good key add one entry |
| ReaderProperties.OpenerDispatch | reader.go:234-265 | an opening bracket reads the items up to its own closer |
| ReaderProperties.ReadsRenderedAt | reader.go:37-309 | any well-formed rendered form, embedded in an input, reads as the form it denotes |
| ReaderProperties.ReadsGroupAt | reader.go:234-265 | the same for a bracketed group |
| ReaderProperties.ReadsItems | reader.go:271-309 | a sequence of rendered items is read item by item into the accumulator |
| ReaderProperties.ReadRenderRoundTrip | reader.go:37-309 | reading the text of any well-formed form gives back its value and consumes exactly that text |
| ReaderProperties.RejectsUnclosedGroup | reader.go:279-281 | a group of well-formed printed items without its closer reports the end of the input |
| ReaderProperties.ItemErrorAborts | reader.go:287-303 | an item that fails, macro or form, stops the list at once with that item's error and position, keeping what was collected |
| ReaderProperties.RejectsWrongCloser | reader.go:267-269 | a group closed by the wrong bracket is an unmatched delimiter |
| ReaderProperties.RejectsOddMap | reader.go:261-263 | a map with an odd number of forms is an error |
| ReaderProperties.RejectsStrayCloser | reader.go:267-269 | a closing bracket without an opener is an error |
| ReaderProperties.BlankInput | reader.go:45-47 | blank input reports the end of the input |
| ReaderProperties.WhitespaceIsIgnored | reader.go:39-47 | skipping whitespace first changes neither `Read` nor the reading of items |
| ReaderProperties.PairsAppend | reader.go:254-258 | a further key-value pair is one more map assignment |
| ReaderProperties.LastAssignmentWins | reader.go:257 | a repeated key keeps its last value |
| ReaderProperties.NilKeyIsDropped | reader.go:254-255 | a `nil` in key position leaves the map as if it were absent |
| ReaderProperties.VectorKeyPanics | reader.go:257 | a vector key panics |
| ReaderTests.NumberCases | reader_test.go:10-15 | `1`, `7` and `-123` read as integers |
| ReaderTests.InvalidNumberCase | reader.go:137-147 | `1x` is an invalid number |
| ReaderTests.UnknownCharacterNameCase | reader.go:229-230 | `\xyz` is an unsupported character |
| ReaderTests.SpacedNumberCase | reader_test.go:13 | surrounding whitespace is ignored |
| ReaderTests.ReadsWordAlone | reader_test.go:17-29 | a word on its own reads as its interpretation |
| ReaderTests.SymbolCase | reader_test.go:22 | `abc-def` is one symbol |
| ReaderTests.DashCase | reader_test.go:28 | `->>` is a symbol |
| ReaderTests.LoneDashCase | reader_test.go:26 | `-` is a symbol |
| ReaderTests.NilCase | reader_test.go:50 | `nil` reads as nil |
| ReaderTests.KeywordCase | reader_test.go:115 | `:kw` is the keyword `kw` |
| ReaderTests.SimpleListCase | reader_test.go:32 | `(+ 1 2)` is a three-element list |
| ReaderTests.NestedListCase | reader_test.go:37 | lists nest |
| ReaderTests.NestedVectorCase | reader_test.go:124 | vectors nest |
| ReaderTests.EmptyListsCase | reader_test.go:42 | `(()())` is a list of two empty lists |
| ReaderTests.NestedMapCase | reader_test.go:133 | maps nest |
| ReaderTests.EscapedQuoteCase | reader_test.go:59 | an escaped quote stays in the string |
| ReaderTests.LetterCase | reader_test.go:98 | `\a` is the character `a` |
| ReaderTests.NamedCharacterCase | reader_test.go:100 | `\newline` is the newline character |
| ReaderTests.UnclosedVectorCase | reader_test.go:106 | `[1 2` is an error |
| ReaderTests.UnterminatedStringCases | reader_test.go:107-109 | the three unterminated strings are errors |
| ReaderTests.UnterminatedStringInListCase | reader_test.go:110 | `(1 "abc` reports the unterminated string, not the end of input |
| ReaderTests.UnclosedListCase | reader_test.go:111 | `(1 "abc"` is an error |
| ReaderTests.CommentCases | reader_test.go:141-154 | a comment after a form does not change the form, whatever it holds |
| ReaderTests.CommentBeforeFormCase | reader.go:193-199 | `;abc` reads as the symbol `bc`, because the comment reader discards only one character |
| ReaderTests.NilKeyCase | reader.go:254-255 | `{nil 1 2}` reads as `{1 2}` |

## Left out

- main.go: the read-eval-print loop, signal handling and terminal I/O. Inputs are given as strings instead.
- printer.go: printing of values is not part of this model.
- Comparer.Equals: models Go's `Equals` on the named types `List`, `Vector` and `Map` of `main.go:15-17`. The reader builds a `*list.List`, a `[]interface{}` and a `map[interface{}]interface{}` instead (`reader.go:235,243,251`). Those fail the type assertions of `comparer.go:4-18`, so Go falls back to `==`: two lists read separately are unequal pointers, and comparing two vectors or maps the reader built panics. The model has one `Value` datatype for both kinds, so it compares reader output structurally. `ReaderSpec.SameKey`, for map keys, keeps the pointer view of a reader-built list.
- Comparer.Equals: floats compare as `FloatTerm` terms, not as float64 values. `1.0` and `1.00`, and `0.0` and `-0.0`, are unequal in the model and equal in Go. A term Go evaluates to NaN, such as the result of `(/ 0.0 0.0)`, equals itself in the model, where Go's `==` is false.
- Comparer.EqualsReflexive: holds for every value, including float terms that Go evaluates to NaN, for which Go's `Equals` is false.
- Comparer.EqualsIsIdentityWithoutMaps: identity of float terms is not Go's float `==`, for the reasons above.
- ReaderSpec.Put: a float key is matched by its term, not its float64 value. `1.00` does not replace an entry keyed `1.0`, as Go's `m[key] = item` does, so `{1.0 1 1.00 2}` has one entry in Go and two in the model.
- Float arithmetic: floats stay symbolic (`FloatTerm`), recording the literal text or the operation that produced them. No IEEE rounding is modelled.
- `strconv.ParseFloat` is modelled as decimal syntax only: no hexadecimal floats, underscores, `inf`/`nan` or range errors.
- `fmt.Sprintf("%v", f)` for floats in `+` is not modelled: the result is `FloatFormatting`.
- `unicode.IsDigit` is modelled for ASCII digits only. Other Unicode decimal digits would be read by Go as the start of a number.
- Invalid UTF-8 input is not modelled: the input is a sequence of runes.
- On an error, `listReader`, `vectorReader` and `mapReader` also return their partial collection. The model keeps only the error, which is all that `Read`'s callers use.
- The two closures that `sub`, `mul` and `div` pass to `agg` are modelled as one `Primitive` parameter naming the operation.
- `Eval` has one loop for `*list.List` and one for slices (`interpreter.go:30-39`, `48-55`). They do the same work, so one method models both.
- The functions called through reflection in `interpreter_test.go:124-150,205-247`, and the special forms `def`, `fn`, `defn`, `if`, `do`, `quote`, `=`, `<`, `>=` and `list` tested in `interpreter_test.go:32-122,152-162`, are not implemented by the `interpreter.go` modelled here. Only `list` is stated, as an unknown function.
- `TestCommas` (`reader_test.go:45-47`) has no lemma of its own. Commas count as whitespace in `IsWhitespace`, which is what that test exercises.
