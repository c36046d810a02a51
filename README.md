# Shimmer language pipeline, modelled in Dafny

Shimmer is a small Lox-style language written in C#. The model covers its
whole pipeline:

- **Scanner.** It turns source text into tokens and tracks line and column.
  The parts are the scanner, the token factory that stamps each token with its
  position, and the keyword table.
- **Parser.** It is recursive descent, with a fixed precedence ladder and
  defaults for omitted clauses. After a syntax error it recovers by
  synchronising to the next statement.
- **AST printers.** These are the `ToString` methods of the syntax-tree nodes.
- **Resolver.** It computes, for every local variable use, how many scopes
  away its declaration is. It also reports scope misuse: redeclaration,
  self-reference in an initializer, and `return`, `break` or `continue` out
  of place.
- **Environment.** A chain of name-to-value scopes.
- **Tree-walking interpreter and user-defined function call.**

The model has the shape of the C# code:

- Code that mutates objects is a Dafny `class` with the same fields:
  - the scanner, token factory, parser and resolver;
  - the environment, as a linked chain of `Environment` objects;
  - the interpreter, with its current environment and two writers.

  Its methods carry the same loops. Each method is proved to compute a
  specification function of the same name, on an immutable picture of the
  state.
- The printers, keyword table and operator semantics are functions.
- Exceptions used for control flow become results:
  - `ParseException` becomes a `Fail` step, or `None` from a parser method.
  - `BreakException` and `ContinueException` become signals.
  - A `RuntimeError` also becomes a signal, and so does any other .NET
    exception that escapes `Interpret`.
  - In the parser, an exception other than `ParseException` (the
    FormatException of `double.Parse`, or slicing the quotes off a string
    shorter than two characters) is caught by nothing. The parser state
    records it in `escaped`; every rule passes it up unchanged, and Parse
    stops there with it, standing for Parse throwing.
- Both text writers become sequences of lines.

Files:

- `tokens.dfy`, `ast.dfy` and `wrappers.dfy`: tokens, syntax trees, values, and `Option` and `Result`.
- `text.dfy`: decimal text of integers, for line numbers and limits in messages.
- `keywords.dfy`, `token_factory.dfy` and `scanner.dfy`: scanning.
- `parser_rules.dfy`: the parser state and the expression rules.
- `parser_statements.dfy`: the statement rules and `Parse`.
- `parser.dfy`: the `Parser` class.
- `parser_properties.dfy`: properties of the parser rules.
- `printer.dfy`: the printers and their balance proofs.
- `resolver.dfy`: the resolver functions and the `Resolver` class.
- `resolver_properties.dfy`: properties of the resolver.
- `environment.dfy`: scope-chain functions and the `Environment` class.
- `interpreter.dfy`: the evaluation and execution functions and the `TreeWalkInterpreter` class.
- `interpreter_properties.dfy`: properties of the interpreter.
- `functions.dfy`: user-defined function calls.

At this revision some files lag behind the code that uses them.
In those cases the model follows the code that uses them, and says so below.

- **Token kinds.** `TokenType.cs` lacks kinds that the parser, the keyword table
  and the scanner use. `Tokens.TokenKind` covers every kind that any of them
  references.
- **While increment.** The interpreter reads an increment on `WhileStmt` that
  `WhileStmt.cs` does not declare. The model gives `WhileStmt` an optional
  increment, and the parser leaves it absent.
- **Values.** `ShimmerValue.cs` at this revision holds only numbers. Nil, booleans,
  strings and functions follow the language's documented value rules:
  - values of different types are never equal;
  - numbers are equal within 1e-9;
  - a string prints in double quotes;
  - a function prints as `<fn NAME>`.
- **Calls into the interpreter.** `UserDefinedFunction.Call` calls
  `interpreter.ExecuteBlock` and `interpreter.Globals`, which this revision's
  `TreeWalkInterpreter` does not define. The model adds an `ExecuteBlock`
  method that runs a list of statements in a given environment and restores
  the current one afterwards. The globals are passed in.

## Model

| member | source | states |
|---|---|---|
| Keywords.GetTokenType | Shimmer.Lang/Scanning/Keywords.cs:7-28 | a word has a kind exactly when it is one of the 15 table entries; a keyword never has kind Identifier, Error or Eof |
| Keywords.KeywordRoundTrip | Shimmer.Lang/Scanning/Keywords.cs:7-25 | every table word maps to a kind whose keyword text is that word |
| Keywords.KeywordTextRoundTrip | Shimmer.Lang/Scanning/Keywords.cs:7-25 | every keyword kind maps back to itself through its word |
| Keywords.KeywordKindsDistinct | Shimmer.Lang/Scanning/Keywords.cs:7-25 | distinct table words have distinct kinds |
| Keywords.FunctionAndReturnAreNotKeywords | Shimmer.Lang/Scanning/Keywords.cs:7-28 | "function" and "return" are not in the table, so they have no keyword kind |
| Keywords.IsStatementStarter | Shimmer.Lang/Parsing/Parser.cs:482 | the test on a kind holds exactly when the kind is in StatementStarters, as `Contains` does |
| Keywords.StatementStartersExactly | Shimmer.Lang/Scanning/Keywords.cs:30-33 | the statement starters are exactly the reserved words other than break, case, continue, default, else, false, nil and true |
| TokenFactories.TokenFactory.constructor | Shimmer.Lang/Scanning/TokenFactory.cs:3-6 | the factory starts with the given stamp, line 1 and column 1 by default |
| TokenFactories.TokenFactory.SetColumn | Shimmer.Lang/Scanning/TokenFactory.cs:8-11 | sets the column stamp and leaves the line alone |
| TokenFactories.TokenFactory.SetLine | Shimmer.Lang/Scanning/TokenFactory.cs:13-16 | sets the line stamp and leaves the column alone |
| TokenFactories.TokenFactory.CreateFromLexeme | Shimmer.Lang/Scanning/TokenFactory.cs:18-43 | succeeds exactly for the 21 listed operator and `nil` lexemes, keeping the lexeme, giving the kind that LexemeKind pairs with it, and stamping the current position; any other lexeme fails with "Unknown lexeme to create token from: '…'" |
| TokenFactories.CreateStamps | Shimmer.Lang/Scanning/TokenFactory.cs:45-46 | Create(lexeme, kind) keeps lexeme and kind unchanged and stamps the factory's line and column |
| TokenFactories.CreateFromLexemeRoundTrip | Shimmer.Lang/Scanning/TokenFactory.cs:18-71 | every accepted lexeme gives a token with that same lexeme, of an operator or `nil` kind |
| TokenFactories.ErrorAndEofLexemes | Shimmer.Lang/Scanning/TokenFactory.cs:72-73 | Error(message) has kind Error and the message as lexeme; Eof() has kind Eof and an empty lexeme |
| TokenFactories.ArithmeticConstructorsAgree | Shimmer.Lang/Scanning/TokenFactory.cs:48-52 | Plus, Minus, Star, Slash and Remainder each make a token whose lexeme maps back to its kind, at the factory's line and column |
| TokenFactories.ComparisonConstructorsAgree | Shimmer.Lang/Scanning/TokenFactory.cs:53-60 | the same for Equal, Bang, Less, LessEqual, Greater, GreaterEqual, EqualEqual and BangEqual |
| TokenFactories.PunctuationConstructorsAgree | Shimmer.Lang/Scanning/TokenFactory.cs:61-71 | the same for LeftParen, RightParen, And, Or, Comma, Colon, Question and Nil |
| TokenFactories.TextConstructorsKeepText | Shimmer.Lang/Scanning/TokenFactory.cs:68-70 | Number, Identifier and String keep the text they are given as the lexeme, at the factory's line and column |
| TokenFactories.StampsFollowSetters | Shimmer.Lang/Scanning/TokenFactory.cs:3-46 | a default factory stamps (1, 1); after SetLine(4) and SetColumn(7) the next token is stamped (4, 7) |
| Scanning.RunEnd | Shimmer.Lang/Scanning/Scanner.cs:55-79 | the end of the longest run of characters with a property: every character before it has the property and the one at it does not |
| Scanning.ScanStep | Shimmer.Lang/Scanning/Scanner.cs:12-44 | one NextToken call skips only whitespace; it gives Eof with an empty lexeme exactly at the end of input, and otherwise consumes at least one character; the token carries the line of its first character |
| Scanning.TokenAt | Shimmer.Lang/Scanning/Scanner.cs:20-79 | the token at a non-blank character has that character's line and column. A digit starts a maximal run of digits that is the lexeme. A letter or `_` starts a maximal identifier run whose kind is its keyword kind, else Identifier. Any other character spans two characters exactly when it and the next form a two-character operator, which then gives that operator's kind; otherwise it spans one and gives its one-character kind, or an Error token when it has none. Every token but an Error token has the scanned text as lexeme; an Error token's lexeme is the not-supported message for a lone `\|` or `&` and "Unexpected character 'c'." for any other character |
| Scanning.OperatorKindsAgree | Shimmer.Lang/Scanning/Scanner.cs:28-43 | the kinds the scanner gives one- and two-character operators are those the token factory pairs with the same lexemes |
| Scanning.TokensEndAtEof | Shimmer.Lang/Scanning/Scanner.cs:12-109 | repeated NextToken calls reach Eof after at most one token per character; only the last token is Eof, and its lexeme is empty |
| Scanning.Scanner.constructor | Shimmer.Lang/Scanning/Scanner.cs:3-10 | a scanner starts at offset 0 with a fresh factory at column 1 |
| Scanning.Scanner.NextToken | Shimmer.Lang/Scanning/Scanner.cs:12-44 | returns the token, its span and the factory's column exactly as ScanStep gives them |
| Scanning.Scanner.Operator | Shimmer.Lang/Scanning/Scanner.cs:28-43 | the operator switch yields TokenAt's token and span |
| Scanning.Scanner.Check | Shimmer.Lang/Scanning/Scanner.cs:46-53 | consumes the next character and returns `with` exactly when that character is c; otherwise it returns `without` and consumes nothing |
| Scanning.Scanner.Number | Shimmer.Lang/Scanning/Scanner.cs:55-64 | its loop consumes the maximal digit run and yields TokenAt's token |
| Scanning.Scanner.IdentifierOrKeyword | Shimmer.Lang/Scanning/Scanner.cs:66-79 | its loop consumes the maximal identifier run and yields TokenAt's token, with its keyword kind or Identifier |
| Scanning.Scanner.Advance | Shimmer.Lang/Scanning/Scanner.cs:81-85 | returns the current character and moves offset and column on by one |
| Scanning.Scanner.SkipWhitespace | Shimmer.Lang/Scanning/Scanner.cs:87-105 | skips exactly the maximal run of blanks; a newline moves the line on and resets the column to 1 |
| Scanning.Scanner.Peek | Shimmer.Lang/Scanning/Scanner.cs:107 | the character at the cursor while one is left; past the end a character that is neither white space nor alphanumeric, so every scanning loop stops there |
| Scanning.Scanner.AtEnd | Shimmer.Lang/Scanning/Scanner.cs:109 | true exactly when the cursor is at or past the end of the source |
| Scanning.Scanner.GetLexeme | Shimmer.Lang/Scanning/Scanner.cs:115 | the text from the token's start up to the cursor, character by character |
| ScanningExamples.ScanAll | Shimmer.Lang/Scanning/Scanner.cs:12-44 | calling NextToken until Eof collects exactly TokenStream |
| ScanningExamples.EofIsSticky | Shimmer.Lang/Scanning/Scanner.cs:14-18 | once at the end, NextToken keeps returning the same Eof token |
| ScanningExamples.ColumnsOfOnePlusTwo | Shimmer.UnitTests/Scanning/ScannerTests.cs:71-94 | "1 + 2" scans to Number at column 1, Plus at 3, Number at 5, then Eof |
| ScanningExamples.OneAtStart | Shimmer.UnitTests/Scanning/ScannerTests.cs:71-94 | the first token of "1 + 2" is `1` at (1, 1) |
| ScanningExamples.PlusAfterBlank | Shimmer.UnitTests/Scanning/ScannerTests.cs:71-94 | the second token of "1 + 2" is `+` at (1, 3) |
| ScanningExamples.NumberAfterBlank | Shimmer.UnitTests/Scanning/ScannerTests.cs:71-94 | the third token of "1 + 2" is `2` at (1, 5) |
| ScanningExamples.EofAfterTwo | Shimmer.UnitTests/Scanning/ScannerTests.cs:71-94 | after "1 + 2" comes Eof |
| ScanningExamples.NumberAfterNewline | Shimmer.UnitTests/Scanning/ScannerTests.cs:96-111 | "\n 123" gives Number "123" at line 2, column 2 |
| ScanningExamples.LessEqualIsOneToken | Shimmer.Lang/Scanning/Scanner.cs:36-53 | "<=" is one LessEqual token (maximal munch) |
| ScanningExamples.LessBlankEqualIsTwoTokens | Shimmer.Lang/Scanning/Scanner.cs:36-53 | "< =" starts with a lone Less token |
| ScanningExamples.LonePipeIsError | Shimmer.UnitTests/Scanning/ScannerTests.cs:177-191 | a lone `\|` gives the Error token "'\|' not supported. Did you mean '\|\|'?" |
| ScanningExamples.UnknownCharacterIsError | Shimmer.UnitTests/Scanning/ScannerTests.cs:149-161 | an unknown character gives "Unexpected character 'c'." |
| ScanningExamples.WhileIsKeyword | Shimmer.UnitTests/Scanning/ScannerTests.cs:46-58 | "while" scans to the While keyword token |
| ScanningExamples.WhileTokenAt | Shimmer.Lang/Scanning/Scanner.cs:66-79 | the identifier run "while" spans five characters and has kind While |
| ScanningExamples.FunctionIsIdentifier | Shimmer.Lang/Scanning/Scanner.cs:66-79 | "function" scans to an Identifier, because it is not in the keyword table |
| Ast.NewVarStmt | Shimmer.Lang/Parsing/Statements/VarStmt.cs:6-11 | a var statement keeps its name; an omitted initializer becomes the nil literal and a given one is kept |
| Ast.NewWhileStmt | Shimmer.Lang/Parsing/Parser.cs:209-217 | the parser's while node keeps condition and body and has no increment |
| Values.EqualityNeedsSameType | Shimmer.Lang/Interpreter/TreeWalkInterpreter.cs:267-274 | equal values have the same type name |
| Values.EqualityIsSymmetric | Shimmer.Lang/Interpreter/TreeWalkInterpreter.cs:267-274 | `==` does not depend on operand order |
| Values.EqualityIsReflexive | Shimmer.Lang/Interpreter/TreeWalkInterpreter.cs:137-154 | every value equals itself, so a case with the subject's own value matches |
| Values.ValuesEqual | Shimmer.Lang/Interpreter/TreeWalkInterpreter.cs:267-274 | equal values have the same type; numbers are equal when they differ by less than the tolerance; every other kind is equal exactly when the values are identical |
| Values.ValueText | Shimmer.Lang/Interpreter/TreeWalkInterpreter.cs:135 | numbers print through the number format, booleans as "true" or "false", nil as "nil", a string as its text in double quotes, a function as "<fn NAME>" |
| Environments.FindDepth | Shimmer.Lang/Interpreter/Environment.cs:50-63 | the walk up the chain stops at the first scope that binds the name; None means no scope binds it |
| Environments.FindDepthIsFirst | Shimmer.Lang/Interpreter/Environment.cs:50-63 | the first scope binding the name is the depth the walk finds |
| Environments.DefineIn | Shimmer.Lang/Interpreter/Environment.cs:37-41 | fails with "Variable 'x' already defined in this scope." exactly when this scope binds the name; otherwise it binds it in this scope and leaves every enclosing scope untouched |
| Environments.CheckDistance | Shimmer.Lang/Interpreter/Environment.cs:128-141 | a distance is accepted exactly when it is between 0 and the chain length |
| Environments.Lookup | Shimmer.Lang/Interpreter/Environment.cs:50-63 | the value in the innermost scope that binds the name; Undefined when no scope binds it |
| Environments.LookupAt | Shimmer.Lang/Interpreter/Environment.cs:75-80 | succeeds exactly when the scope at that distance exists and binds the name, with its value there; a negative distance is out of range; a missing name is Undefined |
| Environments.AssignIn | Shimmer.Lang/Interpreter/Environment.cs:89-105 | writes the value into the innermost scope that binds the name and leaves every other scope as it was; Undefined when no scope binds it; no scope gains or loses a name |
| Environments.AssignInAt | Shimmer.Lang/Interpreter/Environment.cs:118-126 | succeeds exactly when the scope at that distance binds the name, writes only there, and leaves the other scopes unchanged; a negative distance is out of range; a missing name is Undefined |
| Environments.GetAfterDefine | Shimmer.Lang/Interpreter/Environment.cs:37-57 | after defining a fresh name, Get returns the defined value |
| Environments.GetIsGetAtFirstDepth | Shimmer.Lang/Interpreter/Environment.cs:50-80 | Get(n) equals GetAt(n, d) where d is the hop count to the first scope binding n |
| Environments.GetFailsOnlyWhenUnbound | Shimmer.Lang/Interpreter/Environment.cs:50-63 | Get fails exactly when no scope binds the name, and then with "Undefined variable 'x'." |
| Environments.AssignThenGet | Shimmer.Lang/Interpreter/Environment.cs:89-105 | after Assign, Get of that name returns the new value, every other name reads as before, and the chain keeps its length |
| Environments.AssignAtThenGetAt | Shimmer.Lang/Interpreter/Environment.cs:118-126 | after AssignAt(n, v, d), GetAt(n, d) returns v |
| Environments.Environment.constructor | Shimmer.Lang/Interpreter/Environment.cs:16-24 | a new environment has an empty scope in front of its enclosing chain |
| Environments.Environment.Define | Shimmer.Lang/Interpreter/Environment.cs:37-41 | the chain after Define is DefineIn's result; on failure the old value is kept |
| Environments.Environment.FindBinding | Shimmer.Lang/Interpreter/Environment.cs:50-63 | the loop over the enclosing links returns the environment of the first scope binding the name, or null when there is none |
| Environments.Environment.Get | Shimmer.Lang/Interpreter/Environment.cs:50-63 | returns the nearest binding, or the undefined-variable failure |
| Environments.Environment.GetAncestor | Shimmer.Lang/Interpreter/Environment.cs:128-141 | a negative distance fails as out of range, a distance past the chain fails as an argument error, and any other distance gives the environment that many hops up |
| Environments.Environment.GetAt | Shimmer.Lang/Interpreter/Environment.cs:75-80 | looks only in the scope exactly `distance` hops up |
| Environments.Environment.Assign | Shimmer.Lang/Interpreter/Environment.cs:89-105 | overwrites only the nearest binding; an unbound name fails and changes nothing |
| Environments.Environment.WriteAt | Shimmer.Lang/Interpreter/Environment.cs:118-126 | a write into the environment i hops up changes that one scope and no other |
| Environments.Environment.AssignAt | Shimmer.Lang/Interpreter/Environment.cs:118-126 | writes only the scope exactly `distance` hops up, failing as undefined when it lacks the name |
| Calls.BindAll | Shimmer.Lang/Representation/Functions/UserDefinedFunction.cs:29-40 | on success, parameter i is bound to argument i, and the scope binds exactly the parameter names |
| Calls.BindAllSucceedsIffDistinct | Shimmer.Lang/Representation/Functions/UserDefinedFunction.cs:29-40 | binding succeeds exactly when the parameter names are distinct |
| Calls.BindAllFailsOnRepeat | Shimmer.Lang/Representation/Functions/UserDefinedFunction.cs:34-39 | a failed binding reports "already defined" for a parameter that repeats an earlier one |
| Calls.BindAllFailsOnPrefix | Shimmer.Lang/Representation/Functions/UserDefinedFunction.cs:36-37 | once a prefix of the parameters fails to bind, the whole binding fails with the same error |
| Calls.Call | Shimmer.Lang/Representation/Functions/UserDefinedFunction.cs:12-26 | the body runs in a new scope over the globals; afterwards the globals bind the same names as before, output is only appended to, and no error line is written |
| Calls.ArityMismatchRunsNothing | Shimmer.Lang/Representation/Functions/UserDefinedFunction.cs:29-32 | a wrong argument count fails with "Expected N arguments, got M" before any statement runs, and changes nothing |
| Calls.RepeatedParameterRunsNothing | Shimmer.Lang/Representation/Functions/UserDefinedFunction.cs:29-40 | repeated parameter names fail at binding with "already defined" for one of them, and change nothing |
| Calls.CallOfPrintingFunction | Shimmer.Lang/Representation/Functions/UserDefinedFunction.cs:12-26 | calling `fun f(p) { print p; }` with v prints v, and falling off the end returns nil |
| UserFunctions.UserDefinedFunction.constructor | Shimmer.Lang/Representation/Functions/UserDefinedFunction.cs:7-10 | the function keeps its declaration |
| UserFunctions.UserDefinedFunction.ToString | Shimmer.Lang/Representation/Functions/UserDefinedFunction.cs:42 | the text is the one a function value prints as, `<fn NAME>` |
| UserFunctions.UserDefinedFunction.BindParameters | Shimmer.Lang/Representation/Functions/UserDefinedFunction.cs:29-40 | fails exactly as BindAll fails. On success it is a fresh environment whose parent is the globals and whose own scope is the bound parameters |
| UserFunctions.UserDefinedFunction.Call | Shimmer.Lang/Representation/Functions/UserDefinedFunction.cs:12-26 | the result, output and globals are exactly Calls.Call's, and the interpreter's current environment is restored |
| Interpreting.Truncate | Shimmer.Lang/Interpreter/TreeWalkInterpreter.cs:252-256 | truncation of a quotient toward zero, as the double remainder uses it |
| Interpreting.Remainder | Shimmer.Lang/Interpreter/TreeWalkInterpreter.cs:252-256 | the remainder of the division truncated toward zero: x equals the truncated quotient times y plus the result |
| Interpreting.IsFalsy | Shimmer.Lang/Interpreter/TreeWalkInterpreter.cs:322 | nil and false are falsy and nothing else is: true, numbers, strings and functions never are |
| Interpreting.IsTruthy | Shimmer.Lang/Interpreter/TreeWalkInterpreter.cs:323 | nil is not truthy, a boolean is its truth value, and every number, string and function (zero and the empty string too) is truthy |
| Interpreting.BinaryValue | Shimmer.Lang/Interpreter/TreeWalkInterpreter.cs:222-297 | arithmetic and comparison succeed exactly when both operands are numbers (`+` also on two strings, `/` and `%` only with a nonzero right operand) and fail with the operand types otherwise; `==` and `!=` never fail and give ValuesEqual and its negation; `,` gives the right operand; any other operator is invalid |
| Interpreting.UnaryValue | Shimmer.Lang/Interpreter/TreeWalkInterpreter.cs:303-318 | `-` succeeds exactly on a number and gives its negation, otherwise fails with the operand type; `!` gives true exactly on a falsy operand; any other operator is invalid |
| Interpreting.AssignKeepsNames | Shimmer.Lang/Interpreter/TreeWalkInterpreter.cs:194-199 | an assignment changes a value but binds no new name |
| Interpreting.Eval | Shimmer.Lang/Interpreter/TreeWalkInterpreter.cs:182-192 | evaluating an expression never adds or removes a binding anywhere in the chain |
| Interpreting.Exec | Shimmer.Lang/Interpreter/TreeWalkInterpreter.cs:44-79 | a statement keeps the chain's depth and the names of every enclosing scope; only the innermost scope may gain names. Output only grows, and the error writer is untouched |
| Interpreting.ExecBlock | Shimmer.Lang/Interpreter/TreeWalkInterpreter.cs:81-97 | the same for a statement list run up to the first abnormal signal |
| Interpreting.ExecCases | Shimmer.Lang/Interpreter/TreeWalkInterpreter.cs:137-154 | the same for the case scan of a switch |
| Interpreting.ExecWhile | Shimmer.Lang/Interpreter/TreeWalkInterpreter.cs:158-180 | the same for a while loop |
| Interpreting.AfterWhileBody | Shimmer.Lang/Interpreter/TreeWalkInterpreter.cs:158-180 | the same for the rest of a while iteration |
| Interpreting.ExecDoWhile | Shimmer.Lang/Interpreter/TreeWalkInterpreter.cs:99-119 | the same for a do-while loop |
| Interpreting.AfterDoWhileBody | Shimmer.Lang/Interpreter/TreeWalkInterpreter.cs:99-119 | the same for the rest of a do-while iteration |
| Interpreting.Interpret | Shimmer.Lang/Interpreter/TreeWalkInterpreter.cs:31-42 | output already written is kept. An error line is written only when the run ends normally, after a runtime error |
| InterpreterProperties.BangNegatesTruthiness | Shimmer.Lang/Interpreter/TreeWalkInterpreter.cs:303-323 | `!` never fails and returns the negated truthiness; 0 and "" are truthy and nil is falsy |
| InterpreterProperties.MinusNeedsANumber | Shimmer.Lang/Interpreter/TreeWalkInterpreter.cs:303-326 | unary `-` succeeds exactly on a number, negating it; otherwise it fails with "Bad operand type for unary '-': 'T'." |
| InterpreterProperties.PlusAddsOrJoins | Shimmer.Lang/Interpreter/TreeWalkInterpreter.cs:225-231 | `+` succeeds exactly on two numbers or two strings, and joins two strings. Any other pair fails with "Unsupported operand type(s) for '+': 'T1' and 'T2'." |
| InterpreterProperties.NumericOperatorsNeedNumbers | Shimmer.Lang/Interpreter/TreeWalkInterpreter.cs:233-283 | `- * / % < <= > >=` fail with the operand-type error unless both operands are numbers. On numbers they succeed except `/` or `%` by zero, and `/` by zero fails with "Division by 0." |
| InterpreterProperties.EqualityNeverFails | Shimmer.Lang/Interpreter/TreeWalkInterpreter.cs:267-274 | `==` and `!=` succeed on any values and give value equality and its negation |
| InterpreterProperties.RemainderBounds | Shimmer.Lang/Interpreter/TreeWalkInterpreter.cs:252-256 | the remainder has the dividend's sign and is smaller in magnitude than the divisor |
| InterpreterProperties.RemainderExample | Shimmer.UnitTests/Interpreter/TreeWalkInterpreterTests.cs:18 | 13 % 5 is 3, and -13 % 5 is -3 |
| InterpreterProperties.EvalWithoutAssignmentKeepsScopes | Shimmer.Lang/Interpreter/TreeWalkInterpreter.cs:182-192 | an expression without assignment leaves every scope unchanged |
| InterpreterProperties.ShortCircuit | Shimmer.Lang/Interpreter/TreeWalkInterpreter.cs:209-218 | a falsy left operand of `&&` or a truthy one of `\|\|` is the result, and the right operand is not evaluated. Otherwise the result is the right operand's |
| InterpreterProperties.BlockKeepsNames | Shimmer.Lang/Interpreter/TreeWalkInterpreter.cs:81-97 | after a block, however it ended, the chain has the same scopes binding the same names: the previous environment is back |
| InterpreterProperties.BlockDeclarationsDoNotEscape | Shimmer.Lang/Interpreter/TreeWalkInterpreter.cs:81-97 | a name unbound before a block is still unbound after it |
| InterpreterProperties.ExecKeepsNames | Shimmer.Lang/Interpreter/TreeWalkInterpreter.cs:44-79 | only a declaration adds a name: a statement that reaches no `var` outside a block of its own leaves every scope binding exactly the names it bound |
| InterpreterProperties.CasesKeepNames | Shimmer.Lang/Interpreter/TreeWalkInterpreter.cs:137-154 | the same for the case scan of a switch none of whose bodies or default declares |
| InterpreterProperties.WhileKeepsNames | Shimmer.Lang/Interpreter/TreeWalkInterpreter.cs:158-180 | the same for a while loop whose body and increment declare nothing |
| InterpreterProperties.AfterWhileBodyKeepsNames | Shimmer.Lang/Interpreter/TreeWalkInterpreter.cs:158-180 | the same for the rest of an iteration of such a loop |
| InterpreterProperties.DoWhileKeepsNames | Shimmer.Lang/Interpreter/TreeWalkInterpreter.cs:99-119 | the same for a do-while loop whose body declares nothing |
| InterpreterProperties.AfterDoWhileBodyKeepsNames | Shimmer.Lang/Interpreter/TreeWalkInterpreter.cs:99-119 | the same for the rest of an iteration of such a loop |
| InterpreterProperties.IfBranchDeclares | Shimmer.Lang/Interpreter/TreeWalkInterpreter.cs:121-133 | a branch runs in the environment around the `if`: `if (true) var x = nil;` defines x in the current innermost scope |
| InterpreterProperties.WhileAbsorbsBreak | Shimmer.Lang/Interpreter/TreeWalkInterpreter.cs:158-180 | no break signal leaves a while loop |
| InterpreterProperties.AfterBodyAbsorbsBreak | Shimmer.Lang/Interpreter/TreeWalkInterpreter.cs:158-180 | no break signal leaves the rest of a while iteration |
| InterpreterProperties.DoWhileAbsorbsBreak | Shimmer.Lang/Interpreter/TreeWalkInterpreter.cs:99-119 | no break signal leaves a do-while loop |
| InterpreterProperties.DoWhileRunsBodyFirst | Shimmer.Lang/Interpreter/TreeWalkInterpreter.cs:99-119 | `do S while (false);` runs S exactly once |
| InterpreterProperties.ContinueRunsIncrement | Shimmer.Lang/Interpreter/TreeWalkInterpreter.cs:158-180 | after a body ends with continue, the increment runs before the next test. A break in the increment leaves the loop, and any other abnormal signal from it is the loop's |
| InterpreterProperties.CasesRunFirstMatch | Shimmer.Lang/Interpreter/TreeWalkInterpreter.cs:137-154 | when the case conditions have no assignment and evaluate without error, the case scan runs exactly the body of the first case whose value equals the subject |
| InterpreterProperties.SwitchRunsFirstMatch | Shimmer.Lang/Interpreter/TreeWalkInterpreter.cs:137-154 | a switch evaluates its subject once and, when the case conditions have no assignment and evaluate without error, runs only the body of the first case whose value equals it |
| InterpreterProperties.CasesFallToDefault | Shimmer.Lang/Interpreter/TreeWalkInterpreter.cs:137-154 | when the remaining case conditions have no assignment, evaluate without error and none equals the subject, the default runs when present, otherwise nothing |
| InterpreterProperties.InterpretCatchesRuntimeErrors | Shimmer.Lang/Interpreter/TreeWalkInterpreter.cs:31-42 | Interpret runs the statements until the first abnormal signal. A runtime error is written to the error writer and ends the run normally, keeping the output. Any other signal escapes |
| InterpreterProperties.ExecMoreFuel | Shimmer.Lang/Interpreter/TreeWalkInterpreter.cs:44-79 | a statement run that finished within some fuel gives the same result with any more fuel |
| InterpreterProperties.ExecBlockMoreFuel | Shimmer.Lang/Interpreter/TreeWalkInterpreter.cs:81-97 | the same for a statement list |
| InterpreterProperties.ExecCasesMoreFuel | Shimmer.Lang/Interpreter/TreeWalkInterpreter.cs:137-154 | the same for a switch's case scan |
| InterpreterProperties.ExecWhileMoreFuel | Shimmer.Lang/Interpreter/TreeWalkInterpreter.cs:158-180 | the same for a while loop |
| InterpreterProperties.AfterWhileBodyMoreFuel | Shimmer.Lang/Interpreter/TreeWalkInterpreter.cs:158-180 | the same for the rest of a while iteration |
| InterpreterProperties.ExecDoWhileMoreFuel | Shimmer.Lang/Interpreter/TreeWalkInterpreter.cs:99-119 | the same for a do-while loop |
| InterpreterProperties.AfterDoWhileBodyMoreFuel | Shimmer.Lang/Interpreter/TreeWalkInterpreter.cs:99-119 | the same for the rest of a do-while iteration |
| InterpreterProperties.InterpretMoreFuel | Shimmer.Lang/Interpreter/TreeWalkInterpreter.cs:31-42 | the same for a whole run |
| TreeWalk.TreeWalkInterpreter.constructor | Shimmer.Lang/Interpreter/TreeWalkInterpreter.cs:25-29 | a new interpreter has one empty global scope and empty writers |
| TreeWalk.TreeWalkInterpreter.Interpret | Shimmer.Lang/Interpreter/TreeWalkInterpreter.cs:31-42 | its loop and catch compute exactly Interpreting.Interpret |
| TreeWalk.TreeWalkInterpreter.Execute | Shimmer.Lang/Interpreter/TreeWalkInterpreter.cs:44-79 | the dispatch computes exactly Interpreting.Exec and keeps the current environment |
| TreeWalk.TreeWalkInterpreter.ExecuteBlockStmt | Shimmer.Lang/Interpreter/TreeWalkInterpreter.cs:81-97 | runs the block in a new child environment and restores the previous one on every exit path |
| TreeWalk.TreeWalkInterpreter.ExecuteBlock | Shimmer.Lang/Interpreter/TreeWalkInterpreter.cs:81-97 | runs a statement list in a given environment and restores the current one afterwards |
| TreeWalk.TreeWalkInterpreter.ExecuteStatements | Shimmer.Lang/Interpreter/TreeWalkInterpreter.cs:89-91 | the statement loop computes exactly ExecBlock |
| TreeWalk.TreeWalkInterpreter.ExecutePrint | Shimmer.Lang/Interpreter/TreeWalkInterpreter.cs:135 | appends the value's text to the output, as Exec says |
| TreeWalk.TreeWalkInterpreter.ExecuteVar | Shimmer.Lang/Interpreter/TreeWalkInterpreter.cs:156 | defines the initializer's value in the current environment, as Exec says |
| TreeWalk.TreeWalkInterpreter.ExecuteIf | Shimmer.Lang/Interpreter/TreeWalkInterpreter.cs:121-133 | runs the branch that truthiness selects; a missing else does nothing |
| TreeWalk.TreeWalkInterpreter.ExecuteSwitch | Shimmer.Lang/Interpreter/TreeWalkInterpreter.cs:137-154 | its loop over the cases computes exactly Exec of the switch |
| TreeWalk.TreeWalkInterpreter.ExecuteWhile | Shimmer.Lang/Interpreter/TreeWalkInterpreter.cs:158-180 | its loop computes exactly Exec of the while loop |
| TreeWalk.TreeWalkInterpreter.WhilePass | Shimmer.Lang/Interpreter/TreeWalkInterpreter.cs:162-177 | one test-and-body pass: either the loop continues from the new state with one unit less fuel, or it has ended with the returned signal |
| TreeWalk.TreeWalkInterpreter.WhileBodyPass | Shimmer.Lang/Interpreter/TreeWalkInterpreter.cs:164-179 | the body of one iteration: break ends the loop normally, continue runs the increment first, any other escaping signal ends the loop with that signal, and otherwise the loop goes on from the state ExecWhile gives |
| TreeWalk.TreeWalkInterpreter.ExecuteDoWhile | Shimmer.Lang/Interpreter/TreeWalkInterpreter.cs:99-119 | its loop computes exactly Exec of the do-while loop |
| TreeWalk.TreeWalkInterpreter.DoWhilePass | Shimmer.Lang/Interpreter/TreeWalkInterpreter.cs:103-113 | one body-and-test pass, as for WhilePass |
| TreeWalk.TreeWalkInterpreter.Eval | Shimmer.Lang/Interpreter/TreeWalkInterpreter.cs:182-192 | computes exactly Interpreting.Eval on the environment chain |
| TreeWalk.TreeWalkInterpreter.EvalAssign | Shimmer.Lang/Interpreter/TreeWalkInterpreter.cs:194-199 | assigns the value to the nearest binding and returns it |
| TreeWalk.TreeWalkInterpreter.EvalBinary | Shimmer.Lang/Interpreter/TreeWalkInterpreter.cs:201-298 | short-circuits `&&` and `\|\|`; otherwise evaluates both operands left to right and applies the operator |
| TreeWalk.TreeWalkInterpreter.EvalConditional | Shimmer.Lang/Interpreter/TreeWalkInterpreter.cs:300-301 | evaluates only the branch that the condition's truthiness selects |
| TreeWalk.TreeWalkInterpreter.EvalUnary | Shimmer.Lang/Interpreter/TreeWalkInterpreter.cs:303-318 | applies `-` or `!` to the evaluated operand |
| Resolving.Declare | Shimmer.Lang/Resolving/Resolver.cs:56-65 | keeps the scope depth, loop depth and function type |
| Resolving.Define | Shimmer.Lang/Resolving/Resolver.cs:67-72 | keeps the scope depth, loop depth and function type |
| Resolving.Initialize | Shimmer.Lang/Resolving/Resolver.cs:74-78 | keeps the scope depth, loop depth and function type |
| Resolving.BeginScope | Shimmer.Lang/Resolving/Resolver.cs:46-49 | pushes one empty scope on top of the others; EndScope undoes it |
| Resolving.EndScope | Shimmer.Lang/Resolving/Resolver.cs:51-54 | pops the innermost scope and changes nothing else |
| Resolving.ResolveLocal | Shimmer.Lang/Resolving/Resolver.cs:319-333 | records the depth of the innermost scope that declares the name; records nothing when no scope does; changes nothing but the recorded depths |
| Resolving.CheckLoopDepth | Shimmer.Lang/Resolving/Resolver.cs:335-339 | outside every loop it reports one error line; inside a loop it changes nothing |
| Resolving.InitializeAll | Shimmer.Lang/Resolving/Resolver.cs:183-187 | declaring and defining the parameters keeps the scope depth, loop depth and function type |
| Resolving.ResolveExpr | Shimmer.Lang/Resolving/Resolver.cs:248-278 | resolving an expression only records distances and reports errors; the scopes, loop depth and function type are unchanged |
| Resolving.ResolveExprs | Shimmer.Lang/Resolving/Resolver.cs:292-296 | the same for a call's argument list |
| Resolving.ResolveStmt | Shimmer.Lang/Resolving/Resolver.cs:80-126 | every statement leaves the scope stack at the depth it found, and the loop depth and function type as they were |
| Resolving.ResolveFor | Shimmer.Lang/Resolving/Resolver.cs:153-173 | the same for a for-loop, whose clauses share one scope |
| Resolving.ResolveForClauses | Shimmer.Lang/Resolving/Resolver.cs:162-164 | the same for the initializer, condition and increment inside that scope |
| Resolving.ResolveFunction | Shimmer.Lang/Resolving/Resolver.cs:175-194 | the same for a function; the function type is restored afterwards |
| Resolving.ResolveCases | Shimmer.Lang/Resolving/Resolver.cs:211-222 | the same for the cases of a switch |
| Resolving.ResolveStmts | Shimmer.Lang/Resolving/Resolver.cs:38-44 | the same for a statement list |
| ScopeResolver.Resolver.constructor | Shimmer.Lang/Resolving/Resolver.cs:13-36 | a new resolver has no scopes, loop depth 0, no function, no distances and no errors |
| ScopeResolver.Resolver.Resolve | Shimmer.Lang/Resolving/Resolver.cs:38-44 | its loop computes exactly ResolveStmts and returns the distance map |
| ScopeResolver.Resolver.BeginScope | Shimmer.Lang/Resolving/Resolver.cs:46-49 | pushes an empty scope |
| ScopeResolver.Resolver.EndScope | Shimmer.Lang/Resolving/Resolver.cs:51-54 | pops the innermost scope |
| ScopeResolver.Resolver.Declare | Shimmer.Lang/Resolving/Resolver.cs:56-65 | declares the name innermost, not yet initialized, reporting a redeclaration; does nothing at top level |
| ScopeResolver.Resolver.Define | Shimmer.Lang/Resolving/Resolver.cs:67-72 | marks the name innermost as initialized; does nothing at top level |
| ScopeResolver.Resolver.Initialize | Shimmer.Lang/Resolving/Resolver.cs:74-78 | declares and defines the name |
| ScopeResolver.Resolver.ResolveStmt | Shimmer.Lang/Resolving/Resolver.cs:80-126 | computes exactly Resolving.ResolveStmt |
| ScopeResolver.Resolver.ResolveBlock | Shimmer.Lang/Resolving/Resolver.cs:128-136 | resolves the statements in a new scope and pops it |
| ScopeResolver.Resolver.ResolveDoWhileStmt | Shimmer.Lang/Resolving/Resolver.cs:138-151 | resolves the body one loop deeper and restores the loop depth |
| ScopeResolver.Resolver.ResolveForStmt | Shimmer.Lang/Resolving/Resolver.cs:153-173 | opens one scope for the clauses, one loop deeper, and restores both |
| ScopeResolver.Resolver.ResolveForClauses | Shimmer.Lang/Resolving/Resolver.cs:162-164 | resolves the initializer, condition and increment in order; ResolveForStmt resolves the body after them |
| ScopeResolver.Resolver.ResolveFunctionStmt | Shimmer.Lang/Resolving/Resolver.cs:175-194 | binds the name in the enclosing scope first, then resolves parameters and body in a new scope with the function type set, and restores it |
| ScopeResolver.Resolver.ResolveIfStmt | Shimmer.Lang/Resolving/Resolver.cs:196-201 | resolves condition, then branch, then the else branch if present |
| ScopeResolver.Resolver.ResolveReturnStmt | Shimmer.Lang/Resolving/Resolver.cs:203-209 | reports a return outside a function and resolves the value |
| ScopeResolver.Resolver.ResolveSwitchStmt | Shimmer.Lang/Resolving/Resolver.cs:211-222 | resolves the subject, each case condition and body, then the default |
| ScopeResolver.Resolver.ResolveVarStmt | Shimmer.Lang/Resolving/Resolver.cs:224-231 | declares, resolves the initializer, then defines |
| ScopeResolver.Resolver.ResolveWhileStmt | Shimmer.Lang/Resolving/Resolver.cs:233-246 | resolves the condition and then the body one loop deeper, and restores the loop depth |
| ScopeResolver.Resolver.ResolveExpr | Shimmer.Lang/Resolving/Resolver.cs:248-278 | computes exactly Resolving.ResolveExpr |
| ScopeResolver.Resolver.ResolveAssignExpr | Shimmer.Lang/Resolving/Resolver.cs:280-284 | resolves the value, then records the target's distance |
| ScopeResolver.Resolver.ResolveCallExpr | Shimmer.Lang/Resolving/Resolver.cs:292-296 | resolves the callee, then each argument in order |
| ScopeResolver.Resolver.ResolveVarExpr | Shimmer.Lang/Resolving/Resolver.cs:305-317 | reports a read of a declared but uninitialized innermost name, then records its distance |
| ScopeResolver.Resolver.ResolveLocal | Shimmer.Lang/Resolving/Resolver.cs:319-333 | its loop over the scopes records the hop count to the first scope holding the name |
| ScopeResolver.Resolver.CheckLoopDepth | Shimmer.Lang/Resolving/Resolver.cs:335-339 | reports the message exactly at loop depth 0 |
| ScopeResolver.Resolver.Error | Shimmer.Lang/Resolving/Resolver.cs:341-345 | writes "[Line L] Error: msg" and sets the error flag |
| ResolverProperties.GlobalsAreNotRecorded | Shimmer.Lang/Resolving/Resolver.cs:319-333 | with no local scope open, resolving an expression writes no distance |
| ResolverProperties.GlobalArgumentsAreNotRecorded | Shimmer.Lang/Resolving/Resolver.cs:292-296 | the same for a list of arguments |
| ResolverProperties.ReadRecordsNearestScope | Shimmer.Lang/Resolving/Resolver.cs:319-333 | a read records the hop count to the first scope holding the name, and records nothing if none holds it |
| ResolverProperties.RedeclarationReported | Shimmer.Lang/Resolving/Resolver.cs:56-65 | redeclaring an innermost name reports "Variable 'x' already defined in this scope." and still leaves the name declared and defined |
| ResolverProperties.OwnInitializerReported | Shimmer.Lang/Resolving/Resolver.cs:305-317 | `var a = a;` in a local scope reports "Can't read local variable 'a' in its own initializer." and records distance 0 |
| ResolverProperties.TopLevelSelfReferenceAccepted | Shimmer.Lang/Resolving/Resolver.cs:56-72 | at top level the same statement changes nothing |
| ResolverProperties.ReturnReportedOnlyAtTopLevel | Shimmer.Lang/Resolving/Resolver.cs:203-209 | `return;` reports "Can't return from top-level code." exactly outside a function |
| ResolverProperties.JumpsReportedOnlyOutsideLoops | Shimmer.Lang/Resolving/Resolver.cs:335-339 | `break` and `continue` report their messages exactly at loop depth 0 |
| ResolverProperties.WhileBodyMayBreak | Shimmer.Lang/Resolving/Resolver.cs:233-246 | `while (true) break;` resolves without error from any state |
| ResolverProperties.DoWhileBodyMayContinue | Shimmer.Lang/Resolving/Resolver.cs:138-151 | `do continue; while (true);` resolves without error from any state |
| ResolverProperties.ForBodyMayBreak | Shimmer.Lang/Resolving/Resolver.cs:153-173 | `for (;;) break;` resolves without error from any state |
| ResolverProperties.ReturnInsideFunctionAccepted | Shimmer.Lang/Resolving/Resolver.cs:175-209 | a return inside a function body is accepted, and the function type is restored afterwards |
| ResolverProperties.ParameterResolvesToFunctionScope | Shimmer.Lang/Resolving/Resolver.cs:175-194 | a parameter read in the body is at distance 0 |
| ResolverProperties.CountingLoopClauses | Shimmer.Lang/Resolving/Resolver.cs:158-170 | in `for (var i = 0; i < 5; i = i + 1)` every clause reads `i` at distance 0 |
| ResolverProperties.CountingLoopUnbracedBody | Shimmer.UnitTests/Resolving/ResolverTests.cs:68-95 | with an unbraced body `i` also resolves at distance 0 |
| ResolverProperties.CountingLoopBracedBody | Shimmer.UnitTests/Resolving/ResolverTests.cs:97-125 | with a braced body `i` resolves at distance 1 |
| ResolverProperties.BlockReadsOneScopeOut | Shimmer.Lang/Resolving/Resolver.cs:128-136 | a block reading a name of the enclosing scope records distance 1 |
| ParseRules.Location | Shimmer.Lang/Parsing/Parser.cs:457-462 | an error is located "" at an Error token, " at end" at Eof, and " at 'LEXEME'" otherwise |
| ParseRules.ErrorLine | Shimmer.Lang/Parsing/Parser.cs:451-470 | the line opens with "[Line " and ends with "] Error", the location and ": " followed by the message |
| ParseRules.Report | Shimmer.Lang/Parsing/Parser.cs:451-470 | appends exactly that error line and changes nothing else in the parser's state |
| ParseRules.CheckLimit | Shimmer.Lang/Parsing/Parser.cs:359-360 | at 255 arguments or parameters already parsed, exactly one error line for the current token and the given message is added, without moving the parser or stopping the rule; under the limit the state is unchanged |
| ParserProperties.LimitMessages | Shimmer.Lang/Parsing/Parser.cs:101-102 | the two limit messages read "Exceeded maximum of 255 arguments." and "Exceeded maximum of 255 parameters." |
| ParseRules.NextPos | Shimmer.Lang/Parsing/Parser.cs:417-427 | reading the next token moves one position, except at Eof, which repeats |
| ParseRules.Synchronize | Shimmer.Lang/Parsing/Parser.cs:473-488 | stops at a boundary: previous token `;` or `}`, a statement starter, or Eof. It only moves forward and adds no error |
| ParseRules.SynchronizeKeepsEscaped | Shimmer.Lang/Parsing/Parser.cs:473-488 | Synchronize leaves an exception on its way out as it is |
| ParseRules.FirstBoundary | Shimmer.Lang/Parsing/Parser.cs:475-487 | the first position from a given one where the loop's tests stop it; no position before it passes them |
| ParseRules.SynchronizeStopsFirst | Shimmer.Lang/Parsing/Parser.cs:473-488 | at a boundary Synchronize stays put; otherwise it stops exactly at the first later boundary, with the token before it as the previous token |
| ParseRules.Advance | Shimmer.Lang/Parsing/Parser.cs:417-427 | moves forward past the current token unless it is Eof, and leaves a previous token |
| ParseRules.Start | Shimmer.Lang/Parsing/Parser.cs:24-30 | the constructor's state is valid over the same stream |
| ParseRules.Consume | Shimmer.Lang/Parsing/Parser.cs:440-449 | succeeds exactly when the current token has the expected kind, returning it and advancing; otherwise the ParseException leaves position and previous token as they were and adds exactly the error line for the current token and message |
| ParseRules.Operators | Shimmer.Lang/Parsing/Parser.cs:322-333 | no level's operators include Eof |
| ParseRules.Expression | Shimmer.Lang/Parsing/Parser.cs:285-287 | a successful expression has consumed a token; no rule goes back |
| ParseRules.Binary | Shimmer.Lang/Parsing/Parser.cs:403-415 | the same for each binary level |
| ParseRules.BinaryTail | Shimmer.Lang/Parsing/Parser.cs:403-415 | the operator loop never goes back |
| ParseRules.Operand | Shimmer.Lang/Parsing/Parser.cs:322-335 | the same for the operand of each level |
| ParseRules.Assignment | Shimmer.Lang/Parsing/Parser.cs:289-306 | the same for assignment |
| ParseRules.Conditional | Shimmer.Lang/Parsing/Parser.cs:308-320 | the same for the conditional |
| ParseRules.Unary | Shimmer.Lang/Parsing/Parser.cs:335 | the same for unary |
| ParseRules.Call | Shimmer.Lang/Parsing/Parser.cs:337-347 | the same for call |
| ParseRules.CallTail | Shimmer.Lang/Parsing/Parser.cs:337-347 | the call loop never goes back |
| ParseRules.FinishCall | Shimmer.Lang/Parsing/Parser.cs:349-368 | a call node keeps its callee |
| ParseRules.Arguments | Shimmer.Lang/Parsing/Parser.cs:349-368 | the argument loop yields a call node with the given callee |
| ParseRules.LiteralValue | Shimmer.Lang/Parsing/Parser.cs:370-394 | a number literal has its digits' value, a string literal its text without the quotes, and true, false and nil their literals |
| ParseRules.ParseNumber | Shimmer.Lang/Parsing/Parser.cs:373 | `double.Parse` succeeds exactly on a digit run, with its value, and otherwise throws a FormatException carrying the text |
| ParseRules.LiteralFrom | Shimmer.Lang/Parsing/Parser.cs:372-376 | the value read from the previous token: for a number, its parse, failing exactly when the text is not a digit run; for a string, the text without its first and last characters, failing exactly when it has fewer than two; the constants otherwise. On the literal token itself it is that token's literal value |
| ParseRules.Literal | Shimmer.Lang/Parsing/Parser.cs:372-382 | a literal primary advances, then reads its value from the previous token: it succeeds exactly when that read does, in the state Advance left, and otherwise fails in that state with the exception on its way out |
| ParseRules.Primary | Shimmer.Lang/Parsing/Parser.cs:370-394 | a primary consumes its token; no rule goes back |
| ParseRules.Grouping | Shimmer.Lang/Parsing/Parser.cs:396-401 | a parenthesised expression gives a group node |
| ParseStatements.Declaration | Shimmer.Lang/Parsing/Parser.cs:59-68 | a declaration consumes a token on success and never goes back |
| ParseStatements.VarDeclaration | Shimmer.Lang/Parsing/Parser.cs:70-76 | gives a var statement |
| ParseStatements.VarInitializer | Shimmer.Lang/Parsing/Parser.cs:73 | no `=` means no initializer and nothing consumed |
| ParseStatements.FunctionDeclaration | Shimmer.Lang/Parsing/Parser.cs:78-90 | gives a function statement |
| ParseStatements.FunctionBody | Shimmer.Lang/Parsing/Parser.cs:86-89 | keeps the parsed name and parameters |
| ParseStatements.FunctionParameters | Shimmer.Lang/Parsing/Parser.cs:92-109 | an empty list consumes nothing; a non-empty one consumes |
| ParseStatements.Parameters | Shimmer.Lang/Parsing/Parser.cs:99-106 | the parameter loop makes progress |
| ParseStatements.Statement | Shimmer.Lang/Parsing/Parser.cs:111-144 | a statement consumes a token on success and never goes back |
| ParseStatements.StatementFromFor | Shimmer.Lang/Parsing/Parser.cs:128-143 | the same for the second half of the keyword choice |
| ParseStatements.PrintStatement | Shimmer.Lang/Parsing/Parser.cs:146-151 | gives a print statement |
| ParseStatements.Block | Shimmer.Lang/Parsing/Parser.cs:153-162 | the block loop makes progress |
| ParseStatements.BlockFrom | Shimmer.Lang/Parsing/Parser.cs:153-162 | the same from a partial list |
| ParseStatements.IfStatement | Shimmer.Lang/Parsing/Parser.cs:164-174 | gives an if statement |
| ParseStatements.OptionalClause | Shimmer.Lang/Parsing/Parser.cs:164-207 | without `else` or `default` the clause is absent and nothing is consumed |
| ParseStatements.SwitchStatement | Shimmer.Lang/Parsing/Parser.cs:176-193 | gives a switch statement |
| ParseStatements.SwitchBody | Shimmer.Lang/Parsing/Parser.cs:176-193 | keeps the parsed subject |
| ParseStatements.SwitchCase | Shimmer.Lang/Parsing/Parser.cs:195-201 | a case clause makes progress |
| ParseStatements.DefaultCase | Shimmer.Lang/Parsing/Parser.cs:203-207 | a default clause makes progress |
| ParseStatements.WhileStatement | Shimmer.Lang/Parsing/Parser.cs:209-217 | gives a while statement with no increment |
| ParseStatements.ForStatement | Shimmer.Lang/Parsing/Parser.cs:219-241 | gives a for statement |
| ParseStatements.ForInitializer | Shimmer.Lang/Parsing/Parser.cs:223-229 | the initializer choice makes progress |
| ParseStatements.ForCondition | Shimmer.Lang/Parsing/Parser.cs:231-233 | an omitted condition is the true literal |
| ParseStatements.ForTail | Shimmer.Lang/Parsing/Parser.cs:235-240 | keeps the parsed initializer and condition |
| ParseStatements.ForIncrement | Shimmer.Lang/Parsing/Parser.cs:235-236 | before `)` the increment is absent and nothing is consumed |
| ParseStatements.DoWhileStatement | Shimmer.Lang/Parsing/Parser.cs:243-254 | gives a do-while statement |
| ParseStatements.DoWhileCondition | Shimmer.Lang/Parsing/Parser.cs:247-253 | gives a do-while statement that keeps the parsed body |
| ParseStatements.DoWhileTail | Shimmer.Lang/Parsing/Parser.cs:245-253 | keeps the parsed body and condition |
| ParseStatements.Jump | Shimmer.Lang/Parsing/Parser.cs:256-268 | gives a break or continue statement holding its keyword |
| ParseStatements.ReturnStatement | Shimmer.Lang/Parsing/Parser.cs:270-276 | gives a return statement holding its keyword; an omitted value is the nil literal |
| ParseStatements.ReturnValue | Shimmer.Lang/Parsing/Parser.cs:273 | before `;` the value is the nil literal and nothing is consumed |
| ParseStatements.ExpressionStatement | Shimmer.Lang/Parsing/Parser.cs:278-283 | gives an expression statement |
| ParseStatements.ParseAsWritten | Shimmer.Lang/Parsing/Parser.cs:40-57 | the loop of Parse as written: when it ends without an escaping exception, it is at Eof; it keeps every declaration parsed so far |
| ParseStatements.AfterCatch | Shimmer.Lang/Parsing/Parser.cs:50-53 | the catch clause synchronizes after a ParseException, to a boundary, and adds no error; any other exception passes through it untouched |
| ParseStatements.AsWrittenEscapes | Shimmer.Lang/Parsing/Parser.cs:50 | an exception other than a ParseException ends the loop as written where it was thrown, with the statements parsed before it |
| ParseStatements.Recover | Shimmer.Lang/Parsing/Parser.cs:50-53 | recovery synchronizes as the source does and keeps that result whenever it lies past where the failed pass began; only when it does not is the token skipped and the parser synchronized again, so recovery always moves unless at Eof |
| ParseStatements.ParseFrom | Shimmer.Lang/Parsing/Parser.cs:40-57 | Parse with that recovery always ends, at Eof unless an exception other than a ParseException escapes, keeping every declaration parsed |
| ParseStatements.Parse | Shimmer.Lang/Parsing/Parser.cs:24-57 | a fresh parser's Parse ends on the same stream, at its Eof unless an exception other than a ParseException escapes |
| ParseStatements.Pass | Shimmer.Lang/Parsing/Parser.cs:46-53 | one pass of the loop moves forward over the same stream and adds at most one statement, keeping the ones before |
| ParseStatements.AsWrittenAtEof | Shimmer.Lang/Parsing/Parser.cs:44 | at Eof the loop as written ends with the statements it has, past the Eof |
| ParseStatements.AsWrittenOutOfPasses | Shimmer.Lang/Parsing/Parser.cs:44-54 | before Eof with no passes left the bounded loop gives None |
| ParseStatements.AsWrittenPass | Shimmer.Lang/Parsing/Parser.cs:46-53 | a pass appends a parsed declaration, or synchronizes after a ParseException, and the loop goes on from there |
| ParseStatements.AsWrittenDeclared | Shimmer.Lang/Parsing/Parser.cs:46-49 | the same for a pass whose declaration parses |
| ParseStatements.AsWrittenFailed | Shimmer.Lang/Parsing/Parser.cs:50-53 | the same for a pass that ends in a ParseException |
| Parsing.Parser.constructor | Shimmer.Lang/Parsing/Parser.cs:24-30 | reads the first token, reporting it if it is an Error token |
| Parsing.Parser.Parse | Shimmer.Lang/Parsing/Parser.cs:40-57 | its loop, as written, computes ParseStatements.ParseAsWritten: given a bound on its passes it returns the program and final state of the loop exactly when the loop ends within that bound, and None exactly when it does not. When an exception other than a ParseException escapes, it returns the statements parsed before it with `escaped` set |
| Parsing.Parser.LoopPass | Shimmer.Lang/Parsing/Parser.cs:44-54 | one pass of that loop leaves the rest of the loop with the same outcome |
| Parsing.Parser.DeclarationPass | Shimmer.Lang/Parsing/Parser.cs:46-53 | the try/catch body computes exactly ParseStatements.Pass |
| Parsing.Parser.Declaration | Shimmer.Lang/Parsing/Parser.cs:59-68 | computes exactly the Declaration rule |
| Parsing.Parser.VarDecl | Shimmer.Lang/Parsing/Parser.cs:70-76 | computes exactly the VarDeclaration rule |
| Parsing.Parser.FunctionDecl | Shimmer.Lang/Parsing/Parser.cs:78-90 | computes exactly the FunctionDeclaration rule |
| Parsing.Parser.FunctionParameters | Shimmer.Lang/Parsing/Parser.cs:92-109 | its do-while loop computes exactly the FunctionParameters rule |
| Parsing.Parser.Statement | Shimmer.Lang/Parsing/Parser.cs:111-144 | computes exactly the Statement rule |
| Parsing.Parser.StatementFromFor | Shimmer.Lang/Parsing/Parser.cs:128-143 | computes exactly the StatementFromFor rule |
| Parsing.Parser.PrintStmt | Shimmer.Lang/Parsing/Parser.cs:146-151 | computes exactly the PrintStatement rule |
| Parsing.Parser.Block | Shimmer.Lang/Parsing/Parser.cs:153-162 | its loop computes exactly the Block rule |
| Parsing.Parser.IfStmt | Shimmer.Lang/Parsing/Parser.cs:164-174 | computes exactly the IfStatement rule |
| Parsing.Parser.SwitchStmt | Shimmer.Lang/Parsing/Parser.cs:176-193 | computes exactly the SwitchStatement rule |
| Parsing.Parser.SwitchBody | Shimmer.Lang/Parsing/Parser.cs:180-192 | its loop over the cases computes exactly the SwitchBody rule |
| Parsing.Parser.CaseClause | Shimmer.Lang/Parsing/Parser.cs:195-201 | computes exactly the SwitchCase rule |
| Parsing.Parser.DefaultCase | Shimmer.Lang/Parsing/Parser.cs:203-207 | computes exactly the DefaultCase rule |
| Parsing.Parser.WhileStmt | Shimmer.Lang/Parsing/Parser.cs:209-217 | computes exactly the WhileStatement rule |
| Parsing.Parser.ForStmt | Shimmer.Lang/Parsing/Parser.cs:219-241 | computes exactly the ForStatement rule |
| Parsing.Parser.ForInitializer | Shimmer.Lang/Parsing/Parser.cs:223-229 | computes exactly the ForInitializer rule |
| Parsing.Parser.ForCondition | Shimmer.Lang/Parsing/Parser.cs:231-233 | computes exactly the ForCondition rule |
| Parsing.Parser.ForIncrement | Shimmer.Lang/Parsing/Parser.cs:235-236 | computes exactly the ForIncrement rule |
| Parsing.Parser.DoWhileStmt | Shimmer.Lang/Parsing/Parser.cs:243-254 | computes exactly the DoWhileStatement rule |
| Parsing.Parser.BreakStmt | Shimmer.Lang/Parsing/Parser.cs:256-261 | computes exactly the Jump rule for break |
| Parsing.Parser.ContinueStmt | Shimmer.Lang/Parsing/Parser.cs:263-268 | computes exactly the Jump rule for continue |
| Parsing.Parser.ReturnStmt | Shimmer.Lang/Parsing/Parser.cs:270-276 | computes exactly the ReturnStatement rule |
| Parsing.Parser.ExprStmt | Shimmer.Lang/Parsing/Parser.cs:278-283 | computes exactly the ExpressionStatement rule |
| Parsing.Parser.Expression | Shimmer.Lang/Parsing/Parser.cs:285-287 | computes exactly the Expression rule |
| Parsing.Parser.Operand | Shimmer.Lang/Parsing/Parser.cs:322-335 | computes exactly the operand rule of each level |
| Parsing.Parser.LeftAssociativeBinaryOperator | Shimmer.Lang/Parsing/Parser.cs:403-415 | its loop computes exactly the Binary rule |
| Parsing.Parser.Assignment | Shimmer.Lang/Parsing/Parser.cs:289-306 | computes exactly the Assignment rule |
| Parsing.Parser.Conditional | Shimmer.Lang/Parsing/Parser.cs:308-320 | computes exactly the Conditional rule |
| Parsing.Parser.Unary | Shimmer.Lang/Parsing/Parser.cs:335 | computes exactly the Unary rule |
| Parsing.Parser.Call | Shimmer.Lang/Parsing/Parser.cs:337-347 | its loop computes exactly the Call rule |
| Parsing.Parser.FinishCall | Shimmer.Lang/Parsing/Parser.cs:349-368 | its loop computes exactly the FinishCall rule |
| Parsing.Parser.Primary | Shimmer.Lang/Parsing/Parser.cs:370-394 | computes exactly the Primary rule, reading a literal's value from the previous token after Advance and recording the escaping exception when that read throws |
| Parsing.Parser.Grouping | Shimmer.Lang/Parsing/Parser.cs:396-401 | computes exactly the Grouping rule |
| Parsing.Parser.Consume | Shimmer.Lang/Parsing/Parser.cs:440-449 | computes exactly the Consume rule |
| Parsing.Parser.Advance | Shimmer.Lang/Parsing/Parser.cs:417-427 | computes exactly the Advance rule |
| Parsing.Parser.Error | Shimmer.Lang/Parsing/Parser.cs:451-471 | writes the formatted error line and sets the error flag |
| Parsing.Parser.Synchronize | Shimmer.Lang/Parsing/Parser.cs:473-488 | its loop computes exactly the Synchronize rule |
| Parsing.Parser.NextToken | Shimmer.Lang/Parsing/Parser.cs:420 | reads the next token of the stream, and Eof again at the end |
| ParserProperties.OperandRejects | Shimmer.Lang/Parsing/Parser.cs:322-394 | a token that cannot start an expression makes every level fail with "Expected expression." at that token |
| ParserProperties.FactorRejects | Shimmer.Lang/Parsing/Parser.cs:335-394 | the same for the tightest binary level |
| ParserProperties.AssignmentRejects | Shimmer.Lang/Parsing/Parser.cs:289-320 | the same for the conditional and assignment levels |
| ParserProperties.ExpressionRejects | Shimmer.Lang/Parsing/Parser.cs:285-394 | an expression fails at its first token exactly when that token cannot start an expression |
| ParserProperties.ExpressionConsumesStart | Shimmer.Lang/Parsing/Parser.cs:285-394 | an expression that starts properly always moves past its first token, even when it later fails |
| ParserProperties.OperandConsumesStart | Shimmer.Lang/Parsing/Parser.cs:322-415 | the same for every binary level and its operand |
| ParserProperties.AssignmentConsumesStart | Shimmer.Lang/Parsing/Parser.cs:289-306 | the same for assignment |
| ParserProperties.AssignmentKeepsMove | Shimmer.Lang/Parsing/Parser.cs:289-306 | assignment ends no earlier than the conditional it starts with |
| ParserProperties.ConditionalKeepsMove | Shimmer.Lang/Parsing/Parser.cs:308-320 | the conditional ends no earlier than the `\|\|` level it starts with |
| ParserProperties.UnaryConsumesStart | Shimmer.Lang/Parsing/Parser.cs:335-347 | the same for unary |
| ParserProperties.ExpressionDeclaration | Shimmer.Lang/Parsing/Parser.cs:59-144 | a declaration that starts with no keyword is an expression statement |
| ParserProperties.DeclarationRejects | Shimmer.Lang/Parsing/Parser.cs:59-144 | a declaration starting with a token that starts neither a statement nor an expression fails at it |
| ParserProperties.ContinuesExactly | Shimmer.Lang/Parsing/Parser.cs:322-347 | the tokens that continue an operand are exactly `(` and the binary operators of some level |
| ParserProperties.AtomFactor | Shimmer.Lang/Parsing/Parser.cs:322-394 | a literal or name followed by something that is not a call or factor operator is a whole factor |
| ParserProperties.BinaryLifts | Shimmer.Lang/Parsing/Parser.cs:322-335 | a tighter level's result is the result of every looser level whose operators do not follow it. This is the precedence ladder |
| ParserProperties.BinaryLiftStep | Shimmer.Lang/Parsing/Parser.cs:403-415 | one rung of that ladder |
| ParserProperties.ExpressionOfOr | Shimmer.Lang/Parsing/Parser.cs:285-320 | an `\|\|`-level expression not followed by `?`, `=` or `,` is the whole expression |
| ParserProperties.ExpressionOfConditional | Shimmer.Lang/Parsing/Parser.cs:285-306 | a conditional not followed by `=` or `,` is the whole expression |
| ParserProperties.AtomOr | Shimmer.Lang/Parsing/Parser.cs:322-394 | a lone literal or name is a whole `\|\|`-level operand |
| ParserProperties.AtomExpression | Shimmer.Lang/Parsing/Parser.cs:285-394 | a lone literal or name is a whole expression |
| ParserProperties.TermFirstOperand | Shimmer.Lang/Parsing/Parser.cs:403-415 | a term starting with a literal and an operator continues the loop with that literal as left operand |
| ParserProperties.TermTailStep | Shimmer.Lang/Parsing/Parser.cs:403-415 | each pass of the operator loop wraps the tree built so far as the left operand, so `1 + 2 - 3` nests to the left |
| ParserProperties.TailEnds | Shimmer.Lang/Parsing/Parser.cs:403-415 | the loop ends at a token that is not one of the level's operators |
| ParserProperties.TailKeepsLeft | Shimmer.Lang/Parsing/Parser.cs:403-415 | whatever the operator loop builds, the expression it started with stays at the bottom of the left operands, and one operator makes a binary node |
| ParserProperties.LeftNested | Shimmer.Lang/Parsing/Parser.cs:403-415 | left associativity for operands of any length: the first two operands are joined first and the rest of the chain is built on top of them |
| ParserProperties.ConditionalNestsRight | Shimmer.Lang/Parsing/Parser.cs:308-320 | `a ? b : REST` takes the whole conditional REST as its else part, so conditionals nest to the right |
| ParserProperties.ConditionPart | Shimmer.Lang/Parsing/Parser.cs:308-320 | the condition of `a ? …` is the literal a |
| ParserProperties.ThenPart | Shimmer.Lang/Parsing/Parser.cs:308-320 | the then part of `… ? b : …` is b, and the colon is consumed |
| ParserProperties.AtomOrMoves | Shimmer.Lang/Parsing/Parser.cs:322-394 | a lone literal or name consumes exactly one token |
| ParserProperties.AtomExpressionMoves | Shimmer.Lang/Parsing/Parser.cs:285-394 | the same at expression level |
| ParserProperties.AtomConditional | Shimmer.Lang/Parsing/Parser.cs:308-320 | the same at conditional level |
| ParserProperties.AtomAssignment | Shimmer.Lang/Parsing/Parser.cs:289-306 | the same at assignment level |
| ParserProperties.AssignmentParts | Shimmer.Lang/Parsing/Parser.cs:289-306 | in `x = v` the target, the `=` and the value are parsed in turn |
| ParserProperties.AssignsVariable | Shimmer.Lang/Parsing/Parser.cs:289-306 | `x = v` with a name on the left is an assignment node to that name |
| ParserProperties.RejectsLiteralTarget | Shimmer.Lang/Parsing/Parser.cs:289-306 | `1 = v` reports "Invalid assignment target." at the literal and fails |
| ParserProperties.AtomStatement | Shimmer.Lang/Parsing/Parser.cs:59-144 | `a;` is one expression statement consuming two tokens |
| ParserProperties.AtomExpressionStatement | Shimmer.Lang/Parsing/Parser.cs:278-283 | the same for the expression-statement rule |
| ParserProperties.StuckTokensWellFormed | Shimmer.Lang/Parsing/Parser.cs:40-57 | the tokens of `1; )` form a well-formed stream, as any `IScanner` may yield; `Scanner.cs` at this revision has no `;` case, while ScannerTests.cs expects one |
| ParserProperties.StuckFirstDeclaration | Shimmer.Lang/Parsing/Parser.cs:40-57 | the first declaration of `1; )` is `1;` |
| ParserProperties.StuckStep | Shimmer.Lang/Parsing/Parser.cs:473-488 | at `)` after `;`, the declaration fails without moving and Synchronize stays put |
| ParserProperties.StuckPass | Shimmer.Lang/Parsing/Parser.cs:40-57 | one pass of the loop as written from that state returns to the same kind of state |
| ParserProperties.StuckOutOfFuel | Shimmer.Lang/Parsing/Parser.cs:40-57 | with no passes left it has not ended |
| ParserProperties.StuckForever | Shimmer.Lang/Parsing/Parser.cs:40-57 | from that state the loop as written never ends, however many passes it is given |
| ParserProperties.StuckMore | Shimmer.Lang/Parsing/Parser.cs:40-57 | the same, for at least one pass |
| ParserProperties.DeclaredPass | Shimmer.Lang/Parsing/Parser.cs:44-49 | a pass that parses a declaration appends it and continues |
| ParserProperties.StuckAtStray | Shimmer.Lang/Parsing/Parser.cs:473-488 | after `1;` the parser is in the stuck state |
| ParserProperties.ParseAsWrittenNeverEnds | Shimmer.Lang/Parsing/Parser.cs:40-57 | Parse as written does not end on `1; )` |
| ParserProperties.StrayErrorLine | Shimmer.Lang/Parsing/Parser.cs:451-471 | the error at the `)` of `1; )` is "[Line 1, Col 4] Error at ')': Expected expression." |
| ParserProperties.StrayErrorPieces | Shimmer.Lang/Parsing/Parser.cs:455-464 | the pieces of that line join to it |
| ParserProperties.ParsedPass | Shimmer.Lang/Parsing/Parser.cs:44-49 | with recovery, a pass that parses a declaration appends it and continues |
| ParserProperties.RecoveredPass | Shimmer.Lang/Parsing/Parser.cs:50-53 | with recovery, a failed pass recovers and continues with the same program |
| ParserProperties.ParsedAtEnd | Shimmer.Lang/Parsing/Parser.cs:44 | at Eof the program is complete and no error is added |
| ParserProperties.StrayRejected | Shimmer.Lang/Parsing/Parser.cs:370-394 | the `)` is rejected with that error line |
| ParserProperties.RecoverFromStray | Shimmer.Lang/Parsing/Parser.cs:473-488 | recovery moves past the `)` to Eof |
| ParserProperties.ParseRecovers | Shimmer.Lang/Parsing/Parser.cs:40-57 | with the corrected recovery, `1; )` parses to `[1;]` with exactly that one error line |
| ParserProperties.MovingRunsAgree | Shimmer.Lang/Parsing/Parser.cs:40-57 | on every run in which each failed pass is synchronized past the token the pass began at, the loop as written and the corrected loop end with the same statements, errors and state |
| ParserProperties.AgreeingPass | Shimmer.Lang/Parsing/Parser.cs:44-54 | one pass of such a run takes both loops to the same statements and state |
| ParserProperties.MissingSemicolon | Shimmer.Lang/Parsing/Parser.cs:146-151 | in `print 1 print 2;` the first print fails at the second `print` with "Expect ';' after print expression." and does not skip it |
| ParserProperties.SecondPrintParses | Shimmer.Lang/Parsing/Parser.cs:146-151 | from the second `print` the declaration is `print 2;` and stops at Eof |
| ParserProperties.PrintsAgree | Shimmer.Lang/Parsing/Parser.cs:40-57 | on `print 1 print 2;` the loop as written ends in two passes with what the corrected loop yields: `print 2;` and the one error at the second `print` |
| ParserProperties.OperandFailsWithUnary | Shimmer.Lang/Parsing/Parser.cs:285-333 | a unary that fails makes every binary level, down to the comma level, fail with the same state |
| ParserProperties.AssignmentFailsWithUnary | Shimmer.Lang/Parsing/Parser.cs:289-311 | a unary that fails makes the conditional and the assignment fail with the same state |
| ParserProperties.UnaryFailsWithPrimary | Shimmer.Lang/Parsing/Parser.cs:335-347 | a primary that fails, at a token other than `-` or `!`, makes the call and the unary fail with the same state |
| ParserProperties.DeclarationFailsWithPrimary | Shimmer.Lang/Parsing/Parser.cs:59-144 | the same for a declaration that starts with no keyword |
| ParserProperties.FailedExpressionDeclaration | Shimmer.Lang/Parsing/Parser.cs:278-283 | such a declaration fails as its expression does |
| ParserProperties.EscapingPass | Shimmer.Lang/Parsing/Parser.cs:44-54 | a declaration that fails with an exception other than a ParseException ends both the loop as written and the corrected loop, with the statements before it and the state it left |
| ParserProperties.HashAdvance | Shimmer.Lang/Parsing/Parser.cs:417-427 | on `1 #`, Advance past the 1 reports the Error token and synchronizes past it, so the Error token becomes the previous token |
| ParserProperties.HashPrimary | Shimmer.Lang/Parsing/Parser.cs:372-373 | on `1 #`, Primary parses the Error token's text "Unexpected character '#'." as the number, and fails with that FormatException on its way out |
| ParserProperties.NumberBeforeErrorEscapes | Shimmer.Lang/Parsing/Parser.cs:40-57 | on `1 #`, Parse and the loop as written both end with no statement, the one error line of the Error token, and the FormatException escaping |
| ParserProperties.HashTwoSynchronize | Shimmer.Lang/Parsing/Parser.cs:473-488 | on `1 # 2`, Synchronize after the Error token moves past it and past the 2, onto Eof |
| ParserProperties.LiteralReadAfterError | Shimmer.Lang/Parsing/Parser.cs:372-373 | on `1 # 2`, the literal Primary builds for the 1 has the value 2, read from the token Synchronize left as previous |
| ParserProperties.ConsumeExpected | Shimmer.Lang/Parsing/Parser.cs:440-449 | Consume of the current kind returns that token and moves exactly one position |
| ParserProperties.AdvancePlain | Shimmer.Lang/Parsing/Parser.cs:417-427 | Advance before an ordinary token moves exactly one position and reports nothing |
| AstPrinter.ExprText | Shimmer.Lang/Parsing/Expressions/BinaryExpr.cs:7 | a literal prints as its value, a name as its lexeme, and every operator node as one parenthesised form |
| AstPrinter.StmtText | Shimmer.Lang/Parsing/Statements/IfStmt.cs:8-20 | every statement other than an expression, a block, break and continue prints as one parenthesised form |
| AstPrinter.BlockToString | Shimmer.Lang/Parsing/Statements/BlockStmt.cs:7-16 | the StringBuilder loop gives "{ " + each statement followed by one space + "}" |
| AstPrinter.CallToString | Shimmer.Lang/Parsing/Expressions/CallExpr.cs:8-20 | the loop gives "(call CALLEE)" with no arguments, else "(call CALLEE ARG… )" |
| AstPrinter.FunctionToString | Shimmer.Lang/Parsing/Statements/FunctionStmt.cs:8-19 | the loop gives "(fn NAME(" + parameters joined by ", " + ") BODY )" |
| AstPrinter.ArgsTextAppend | Shimmer.Lang/Parsing/Expressions/CallExpr.cs:13-19 | one " ARG" segment per argument, in order |
| AstPrinter.BlockItemsAppend | Shimmer.Lang/Parsing/Statements/BlockStmt.cs:9-15 | one "STMT " segment per statement, in order |
| AstPrinter.CasesTextAppend | Shimmer.Lang/Parsing/Statements/SwitchStmt.cs:18-19 | one " (case C : S)" segment per case, in order |
| AstPrinter.ParamsTextAppend | Shimmer.Lang/Parsing/Statements/FunctionStmt.cs:12-16 | joining two non-empty parameter lists puts exactly one ", " between them |
| AstPrinter.ParamsTextEnds | Shimmer.Lang/Parsing/Statements/FunctionStmt.cs:12-16 | the parameter text starts with the first name and ends with the last: no leading or trailing separator |
| AstPrinter.DefaultSegment | Shimmer.Lang/Parsing/Statements/SwitchStmt.cs:14-26 | a switch without default ends in " )"; adding a default inserts exactly " (default : D)" before it |
| AstPrinter.ElseSegment | Shimmer.Lang/Parsing/Statements/IfStmt.cs:8-20 | an if without else ends in " )"; adding an else inserts exactly " (else E)" before it |
| AstPrinter.DepthAppend | Shimmer.Lang/Parsing/Expressions/BinaryExpr.cs:7 | the parenthesis depth of a concatenation is the sum of the parts' depths |
| AstPrinter.ParenFreeDepth | Shimmer.Lang/Parsing/Expressions/BinaryExpr.cs:7 | text without parentheses has depth 0 |
| AstPrinter.ParenFreeBalanced | Shimmer.Lang/Parsing/Expressions/BinaryExpr.cs:7 | text without parentheses is balanced |
| AstPrinter.ParenFreeAppend | Shimmer.Lang/Parsing/Expressions/BinaryExpr.cs:7 | joining parenthesis-free texts stays parenthesis-free |
| AstPrinter.BalancedAppend | Shimmer.Lang/Parsing/Expressions/BinaryExpr.cs:7 | joining balanced texts stays balanced |
| AstPrinter.Wrap | Shimmer.Lang/Parsing/Expressions/BinaryExpr.cs:7 | one pair of parentheses around balanced text is balanced and encloses it all |
| AstPrinter.BalancedAppend3 | Shimmer.Lang/Parsing/Expressions/BinaryExpr.cs:7 | the same for three parts |
| AstPrinter.PrefixedBalanced | Shimmer.Lang/Parsing/Expressions/AssignExpr.cs:7 | a node printed as `(`, a parenthesis-free head, a space, a balanced rest and `)` (an assignment, with `= ` and the value as the rest, or a unary) is one enclosing balanced pair |
| AstPrinter.BinaryBalanced | Shimmer.Lang/Parsing/Expressions/BinaryExpr.cs:7 | a binary node adds exactly one balanced pair around its children |
| AstPrinter.ConditionalBalanced | Shimmer.Lang/Parsing/Expressions/ConditionalExpr.cs:5 | a conditional's text is one enclosing balanced pair |
| AstPrinter.CallBalanced | Shimmer.Lang/Parsing/Expressions/CallExpr.cs:8-20 | a call's text is one enclosing balanced pair, with or without arguments |
| AstPrinter.ExprTextBalanced | Shimmer.Lang/Parsing/Expressions/BinaryExpr.cs:7 | every printable expression prints balanced, and every node other than a literal or name is one enclosing pair |
| AstPrinter.ArgsTextBalanced | Shimmer.Lang/Parsing/Expressions/CallExpr.cs:13-19 | the argument segments of printable arguments are balanced |
| AstPrinter.LeftNestedText | Shimmer.UnitTests/Parsing/ParserTests.cs:26-38 | the left-nested tree of `1 + 2 - 3` prints "((1 + 2) - 3)" |
| AstPrinter.BareForText | Shimmer.Lang/Parsing/Statements/ForStmt.cs:8-19 | `for (; true; ) { }` prints "(for () true () { })": missing parts print as "()" |

## Left out

- Console I/O and the driver (`Program.cs`, `ShimmerDriver.cs`, `ConsoleErrorReporter.cs`) are not modelled. The output and error writers are sequences of lines.
- Native functions (`clock`, `typeof`) read the wall clock or use .NET reflection, so they are not modelled.
- Numbers are exact reals, not IEEE doubles. A number's printed text is a parameter (`numberText` in the interpreter, `Format.number` in the printer), and so is a grouping node's printed text. `GroupExpr.cs` is not part of this model.
- Interpreting.ExecBlock: states the frame only (the chain's depth, the names of the enclosing scopes, output that only grows, an untouched error writer); what it computes is its definition, which TreeWalk.TreeWalkInterpreter.ExecuteStatements is proved to compute. It does not state which statements add a name to the innermost scope. A declaration does, and so does an `if` or loop whose body is a bare declaration, since that body runs in the same environment.
- Interpreting.ExecCases: states the frame only; the first-match behaviour is InterpreterProperties.CasesRunFirstMatch, under the restriction below.
- Interpreting.ExecWhile: states the frame only; the behaviour of one iteration is TreeWalk.TreeWalkInterpreter.WhilePass and WhileBodyPass.
- Interpreting.AfterWhileBody: states the frame only, as for ExecWhile.
- Interpreting.ExecDoWhile: states the frame only; the behaviour of one iteration is TreeWalk.TreeWalkInterpreter.DoWhilePass.
- Interpreting.AfterDoWhileBody: states the frame only, as for ExecDoWhile.
- InterpreterProperties.CasesRunFirstMatch: covers case conditions that assign nothing and evaluate without error. A condition that assigns or throws is left to `Interpreting.ExecCases` itself, which the lemma does not restate.
- InterpreterProperties.SwitchRunsFirstMatch: the same restriction on the case conditions, for a whole switch statement.
- InterpreterProperties.CasesFallToDefault: the same restriction on the case conditions, for the fall-through to the default clause.
- Interpreting.BinaryValue: `%` by zero gives NaN in .NET, which the model cannot represent. It yields a distinct failure instead of a value.
- Number equality uses the 1e-9 tolerance on exact reals. It does not model the rounding that double arithmetic would add.
- ParseRules.ParseNumber: `double.Parse` also accepts signs, decimal points, exponents, group separators, surrounding blanks, "NaN" and "Infinity" under the current culture. The model accepts only digit runs, with their value, and treats any other text as a FormatException. Number tokens are digit runs, so this differs only when Primary reads another token's text, as on `1 # Infinity`, where .NET yields infinity and the model throws.
- ParseRules.LiteralValue: a number's value is that of its digit run, standing in for `double.Parse`. `Scanner.cs` at this revision only makes digit runs.
- The scanner is fed a whole string, and the parser a precomputed token stream: any well-formed stream an `IScanner` may yield, with exactly one Eof, at the end, and number lexemes that are digit runs. `Parsing.Parser.NextToken` stands for the scanner call.
- `Scanner.cs` at this revision does not make `; { } % ? : ,`, strings or comments, although its tests expect them. The model scans only what `Scanner.cs` does, so the test cases for those tokens are not modelled.
- The parser test with "1 + -" expects an error at column 5 on '-'. That comes from a revision whose Primary reports at the previous token. This revision's `Primary` reports at the current token, which the model follows.
- The parse-time break and continue errors that ControlFlowTests expect are not produced by `Parser.cs`. In the model, as in the source, only the resolver reports them.
- The interpreter as written has no case for `ForStmt`, `FunctionStmt`, `ReturnStmt` or `CallExpr`. The model, like the source, fails those with the "Cannot execute statement type" and "Cannot evaluate expression type" errors. A `Returned` signal exists for a function call's `ReturnValue`, but no modelled statement produces it.
- The resolver's distance map is computed but not consumed: this revision's interpreter reads variables with `Get` and `Assign`, not `GetAt` and `AssignAt`.
- Interpreting.Exec, Interpreting.ExecWhile and Interpreting.ExecDoWhile: each loop iteration spends one unit of fuel. A run that would loop forever ends with `OutOfFuel` instead. The *MoreFuel lemmas show that fuel never changes a run that finished.
- TreeWalk.TreeWalkInterpreter.Execute: the method takes the same fuel as Interpreting.Exec, so the two agree on non-terminating loops.
- ParseStatements.ParseAsWritten: Parse's loop as written need not end (see Findings), so this model of it takes a pass count and gives None when the count runs out.
- ParserProperties.MovingRunsAgree: the loop as written and the corrected loop are proved to agree only on runs where every failed pass is synchronized past where it began. Agreement on every ending run would need each rule's result to be independent of the error lines already written, which is not proved.
- The parser's `Match` and `Check` are inlined as tests on the current token kind.
- `HadError` of the parser and resolver is kept equal to "some error line was written", as a class invariant.
- TreeWalk.TreeWalkInterpreter.WhilePass, TreeWalk.TreeWalkInterpreter.WhileBodyPass, TreeWalk.TreeWalkInterpreter.DoWhilePass and Environments.Environment.WriteAt are one loop pass, part of one, or one write, split out of the method that contains it. They are not separate members in the source.
- UserFunctions.UserDefinedFunction.Call: the interpreter's globals are passed in, since this revision's interpreter does not define them.
- UserFunctions.UserDefinedFunction.Arity and UserFunctions.UserDefinedFunction.Name are defined directly as the parameter count and the name lexeme, with no separate contract.
- The `ToString` templates of the other nodes are the cases of `AstPrinter.StmtText` and `AstPrinter.ExprText`: `VarStmt`, `PrintStmt`, `WhileStmt`, `DoWhileStmt`, `ReturnStmt`, `BreakStmt` and `ContinueStmt`. They have no branching, so they have no lemmas of their own.
- Values.TypeName: the `ShimmerType` enum is not part of this model, and this revision's `ShimmerValue` (Shimmer.Lang/Representation/ShimmerValue.cs) only makes numbers. The names "Bool", "String", "Nil" and "Function" are taken from the factory members the interpreter calls (`ShimmerValue.Bool`, `ShimmerValue.String`, `ShimmerValue.Nil`, `ShimmerValue.Function`), not from the enum's own text, which may differ.
- Line and column counts are taken over Dafny `char`s. C# counts UTF-16 code units, so a character outside the Basic Multilingual Plane counts as two columns in the source and as whatever the input sequence holds here; surrogate pairs are not distinguished.
- Node accessors are the datatype's fields. `BlockStmt`'s defensive copy of its list is implicit, because sequences are values.

## Findings

| source | as written | input that shows it | evidently intended | confidence | as-written member | corrected member |
|---|---|---|---|---|---|---|
| Shimmer.Lang/Parsing/Parser.cs:40-57 | After a ParseException, Parse calls Synchronize (lines 473-488), which returns at once when the previous token is `;` or `}`. The next Declaration then fails again on the same token, and the loop never ends. | `1; )`, from an `IScanner` that makes `;` as ScannerTests.cs expects (`Scanner.cs` at this revision has no `;` case): after `1;` the `)` is rejected, the previous token is still `;`, and the parser stays at `)` forever | Recovery synchronizes as written, and only when that leaves the parser where the failed pass began does it skip the offending token and synchronize again, so Parse ends and yields `[1;]` with one error "[Line 1, Col 4] Error at ')': Expected expression." | not executed | ParserProperties.ParseAsWrittenNeverEnds | ParserProperties.ParseRecovers |
