# Monkey interpreter front end, early snapshot, in Dafny

This project models the Kotlin sources of an early snapshot of a Monkey-style interpreter. The pipeline has six parts:

- the token table and keyword lookup (`Token.kt`);
- a one-character lexer (`Lexer.kt`);
- a two-token-window parser that only recognises `let NAME = ... ;` (`Parser.kt`);
- the syntax tree with its canonical text, `toString`, and `tokenLiteral` (`Ast.kt`);
- the runtime objects (`Object.kt`);
- an evaluator that gives values to integer and boolean literals only (`Evaluator.kt`).

Files and modules:

| file | module | source |
|---|---|---|
| `wrappers.dfy` | `Wrappers` | `Option`, for Kotlin's nullable results and for calls that throw |
| `ints.dfy` | `Ints` | Kotlin `Int` as `int32`, and `Int.toString()` with its inverse `ParseInt` |
| `tokens.dfy` | `Tokens` | `Token.kt` |
| `lexer.dfy` | `Lexing` | `Lexer.kt`: class `Lexer` |
| `ast.dfy` | `Ast` | `Ast.kt`: datatypes and the `Render*` / `TokenLiteral` functions |
| `parser.dfy` | `Parsing` | `Parser.kt`: class `Parser` and its specification `ParseFrom` |
| `objects.dfy` | `Objects` | `Object.kt` |
| `evaluator.dfy` | `Evaluation` | `Evaluator.kt` |

The lexer and the parser change their fields step by step, so each is a class. Its methods say exactly what the new state is:

- The lexer's cursor invariant is `readPosition == position + 1 && ch == CharAt(source, position)`.
- The parser's window invariant is `curToken == TokenAt(tokens, pulled - 2) && peekToken == TokenAt(tokens, pulled - 1)`.
- `ParseProgram`, `ParseStatement` and `ParseLetStatement` are each proved equal to a pure function of the token sequence: `ParseFrom`, `ParseStatementAt` and `ParseLetAt`.

The lemmas about those functions state what the parser produces. The evaluator's `eval` and `evalStatements` are methods, a recursive dispatch and a loop. They are proved equal to `Evaluate`, a separate definition, stated node by node, of what evaluation yields.

Modelling choices:

- The parser takes its tokens from a `seq<Token>` instead of from a `Lexer`. The token source is assumed to return EOF on every call once it is used up. The parser relies on this: its lookahead always reads one token past the EOF where it stops. The lexer of this snapshot never returns EOF, and it throws on letters, digits and whitespace. So a parser over the real lexer cannot parse any program, and the parser is modelled over an abstract token source.
- Kotlin's `first` throwing (lexer) and `!!` on a null expression (evaluator) are modelled as `None` results.
- The skip loop in `parseLetStatement` has no EOF guard. So `ParseFrom` is `None` exactly when the parse reaches a `let NAME =` with no `;` after it (`StatementDivergence` states this for one statement; a let head after an earlier EOF is never reached), and `ParseProgram` requires `ParseFrom(...).Some?`. `LetHeadsTerminatedParses` gives a simple condition under which that holds.
- `Object.kt` gives `IntegerObj` and `BooleanObj` no constructor taking a value, but `Evaluator.kt` builds them from one. The objects here carry their value, as the evaluator expects.
- `Evaluator` has no fields, so `eval` depends only on its argument. That holds here because `Evaluate` is a function of the node.
- Absent (`null`) children of AST nodes are `None`, and they render as `"null"`, as Kotlin string templates print them. `IfExpression.toString` uses `.let` rather than `?.let`. So it always prints `" else "`, even without an alternative. This is modelled as written.

## Model

| member | source | states |
|---|---|---|
| `Tokens.Literal` | src/main/kotlin/org/lexparse/Token.kt:7-41 | the literal each token type is declared with (FUNCTION's is "FUNCTION", LET's is "let") |
| `Tokens.LookupTypeFromLiteral` | src/main/kotlin/org/lexparse/Token.kt:43-50 | "fn" gives FUNCTION, "let" gives LET, and every other string gives IDENT (each as an if-and-only-if) |
| `Tokens.IllegalTokenShape` | src/main/kotlin/org/lexparse/Token.kt:5 | `illegalToken` has type ILLEGAL and literal "ILLEGAL" |
| `Tokens.TokenEquality` | src/main/kotlin/org/lexparse/Token.kt:3 | tokens are equal exactly when their types and literals are equal |
| `Tokens.AllTypesComplete` | src/main/kotlin/org/lexparse/Token.kt:7-41 | `values()` lists every token type |
| `Tokens.LiteralInjective` | src/main/kotlin/org/lexparse/Token.kt:7-41 | no two token types share a literal |
| `Tokens.LiteralLength` | src/main/kotlin/org/lexparse/Token.kt:8-40 | a literal has one character exactly for the 14 operator/punctuation types; the others have at least two |
| `Tokens.LookupOfLiteral` | src/main/kotlin/org/lexparse/Token.kt:33-50 | looking up a type's own literal gives LET for LET and IDENT for every other type, including FUNCTION (literal "FUNCTION", not "fn") |
| `Tokens.FirstWithLiteral` | src/main/kotlin/org/lexparse/Lexer.kt:27 | `first { it.literal == s }`: None exactly when no listed type has literal s; otherwise the earliest listed type with literal s |
| `Lexing.Classify` | src/main/kotlin/org/lexparse/Lexer.kt:27 | the type whose literal is the one-character string of c, found by the `first` search over all types; None where `first` throws |
| `Tokens.FirstWithLiteralOfType` | src/main/kotlin/org/lexparse/Lexer.kt:27 | searching all types for the literal of t finds t |
| `Tokens.FirstWithLiteralFinds` | src/main/kotlin/org/lexparse/Lexer.kt:27 | searching all types for s finds t exactly when t's literal is s |
| `Lexing.Lexer.constructor` | src/main/kotlin/org/lexparse/Lexer.kt:8-10 | after `init`, position is 0 and readPosition is 1; ch is the first character, or NUL for an empty source |
| `Lexing.Lexer.ReadChar` | src/main/kotlin/org/lexparse/Lexer.kt:16-24 | position takes the old readPosition, and readPosition grows by one (so both grow by one once the invariant holds); ch is the source character there, or NUL past the end |
| `Lexing.Lexer.GetNextToken` | src/main/kotlin/org/lexparse/Lexer.kt:26-30 | for one of the 14 operator characters: the token (T, [ch]) of a one-character type, and the cursor moves one step. For any other character, including whitespace and the NUL sentinel: the throw (None), and the cursor does not move |
| `Lexing.Lexer.Tokenize` | src/main/kotlin/org/lexparse/Lexer.kt:12-14 | always returns the empty list |
| `Lexing.ClassifyMatchesLiteral` | src/main/kotlin/org/lexparse/Lexer.kt:27 | a character classifies as t exactly when t's literal is that one character |
| `Lexing.ClassifyDomain` | src/main/kotlin/org/lexparse/Lexer.kt:27 | a character classifies exactly when it is one of `=+-*,;(){}/!<>`, and then only to a one-character type. It never gives EOF, ILLEGAL, IDENT, INT, EQ, NOT_EQ or a keyword |
| `Lexing.SingleCharLiteral` | src/main/kotlin/org/lexparse/Token.kt:12-26 | every one-character literal is one of the operator characters |
| `Lexing.OperatorType` | src/main/kotlin/org/lexparse/Token.kt:12-26 | every operator character is the literal of some token type |
| `Lexing.LexBasicSpecialCharacters` | src/test/kotlin/org/lexparse/LexerTest.kt:11-25 | lexing "=+,;" gives ASSIGN "=", PLUS "+", COMMA ",", SEMICOLON ";" in order |
| `Ints.NatToString` | src/main/kotlin/org/lexparse/Object.kt:23-25 | the decimal rendering is a non-empty string of digits with no leading zero |
| `Ints.IntToString` | src/main/kotlin/org/lexparse/Object.kt:23-25 | Kotlin `Int.toString()`: a '-' for negatives, then the decimal digits of the magnitude |
| `Ints.IntToStringRoundTrip` | src/main/kotlin/org/lexparse/Object.kt:23-25 | reading back `toString()` of any integer gives the integer |
| `Ints.IntToStringInjective` | src/main/kotlin/org/lexparse/Ast.kt:76-78 | distinct integers render differently |
| `Ints.IntToStringAlphabet` | src/main/kotlin/org/lexparse/Object.kt:23-25 | the rendering starts with '-' exactly for negatives and is otherwise all digits |
| `Ast.RenderExpression` | src/main/kotlin/org/lexparse/Ast.kt:61-159 | every expression `toString`: an identifier's name, an integer's decimal text, "true"/"false", "(op right)", "(left op right)", "if c cons  else alt" and "fn (params) body"; an absent child prints "null" |
| `Ast.JoinIdentifiers` | src/main/kotlin/org/lexparse/Ast.kt:157 | the parameter names joined by ", " |
| `Ast.RenderStatement` | src/main/kotlin/org/lexparse/Ast.kt:46-48 | every statement `toString`: "let NAME = VALUE;", "return VALUE;" (Ast.kt:195-197), an expression statement's expression text (Ast.kt:211-213), a block's statements; absent parts print "null" |
| `Ast.RenderStatements` | src/main/kotlin/org/lexparse/Ast.kt:29-31 | the left fold over a Program's or Block's statements (Ast.kt:174-176) concatenating their texts with no separator |
| `Ast.RenderStatementsAppend` | src/main/kotlin/org/lexparse/Ast.kt:29-31 | the fold with no separator renders a concatenation of statement lists as the concatenation of their renderings |
| `Ast.RenderStatementsCons` | src/main/kotlin/org/lexparse/Ast.kt:174-176 | a Program or Block renders as its first statement followed by the rest |
| `Ast.RenderParenthesised` | src/main/kotlin/org/lexparse/Ast.kt:107-126 | in the rendering of an operator expression, every prefix or infix node contributes exactly one "(" and one ")", and nothing else does |
| `Ast.LiteralRenderingRoundTrip` | src/main/kotlin/org/lexparse/Ast.kt:66-94 | an integer literal's text reads back as its value; a boolean literal renders "true" or "false" according to its value |
| `Ast.IfRendersElseWithoutAlternative` | src/main/kotlin/org/lexparse/Ast.kt:138-141 | an if with no alternative still ends in " else null" |
| `Ast.RenderInfixExample` | src/main/kotlin/org/lexparse/Ast.kt:124-126 | `2 + 3 * 4` renders as "(2 + (3 * 4))" |
| `Ast.RenderPrefixExample` | src/main/kotlin/org/lexparse/Ast.kt:107-109 | `-(5 + 5)` renders as "(-(5 + 5))", and `!(true == true)` as "(!(true == true))" |
| `Ast.RenderStatementExamples` | src/main/kotlin/org/lexparse/Ast.kt:46-48 | "let x = y;", "let x = null;" and "return null;" render as shown, and a program of two statements renders as "let x = y;return y;" |
| `Ast.RenderFunctionExample` | src/main/kotlin/org/lexparse/Ast.kt:156-159 | `fn(x, y) { x + y; }` renders as "fn (x, y) (x + y)": the literal, the parameters joined by ", ", then the body's text |
| `Ast.JoinIdentifiersSnoc` | src/main/kotlin/org/lexparse/Ast.kt:157 | `joinToString(", ")` of a non-empty list with one more parameter is the old text, then ", " and the new name |
| `Parsing.ParseFrom` | src/main/kotlin/org/lexparse/Parser.kt:17-29 | `parseProgram` from a cursor position: Some([]) at EOF, otherwise one statement parse followed by the rest, keeping the non-null statements in order; None when some statement parse does not terminate |
| `Parsing.NextSemicolon` | src/main/kotlin/org/lexparse/Parser.kt:52-54 | where the skip loop stops: the first SEMICOLON at or after i, or None when there is none |
| `Parsing.ParseLetAt` | src/main/kotlin/org/lexparse/Parser.kt:40-57 | a let statement never moves the cursor backwards |
| `Parsing.ParseStatementAt` | src/main/kotlin/org/lexparse/Parser.kt:31-38 | a statement never moves the cursor backwards |
| `Parsing.Parser.constructor` | src/main/kotlin/org/lexparse/Parser.kt:7-10 | after `init`, curToken and peekToken are the first and second tokens of the source |
| `Parsing.Parser.GetNextToken` | src/main/kotlin/org/lexparse/Parser.kt:12-15 | the new curToken is the old peekToken, and the new peekToken is the next token of the source |
| `Parsing.Parser.ExpectPeek` | src/main/kotlin/org/lexparse/Parser.kt:59-66 | returns true exactly when the lookahead has the expected type, and then advances once; otherwise nothing changes |
| `Parsing.Parser.ParseLetStatement` | src/main/kotlin/org/lexparse/Parser.kt:40-57 | null when the token after `let` is not IDENT (cursor unmoved) or the next is not ASSIGN (cursor on the name). Otherwise a Let with that name and no value, with the cursor on the next SEMICOLON |
| `Parsing.Parser.ParseStatement` | src/main/kotlin/org/lexparse/Parser.kt:31-38 | a LET start goes to parseLetStatement; any other start gives null and leaves the cursor where it is |
| `Parsing.Parser.ParseProgram` | src/main/kotlin/org/lexparse/Parser.kt:17-29 | returns with curToken on EOF, holding the non-null statements in source order |
| `Parsing.ParseSource` | src/test/kotlin/org/lexparse/ParserTest.kt:264-272 | a new parser over the tokens parses the whole program |
| `Parsing.ParsedStatementsAreLets` | src/main/kotlin/org/lexparse/Parser.kt:31-57 | every parsed statement is a Let on a LET token, named by an Identifier with the IDENT token's literal, with its value left null |
| `Parsing.ParsedRendering` | src/main/kotlin/org/lexparse/Ast.kt:46-48 | every parsed statement renders as "<let literal> NAME = null;" |
| `Parsing.ParsedProgramTokenLiteral` | src/main/kotlin/org/lexparse/Ast.kt:21-27 | a parsed program's tokenLiteral is the literal of its first statement's LET token, or "Empty Statement" when nothing was parsed |
| `Parsing.StatementDivergence` | src/main/kotlin/org/lexparse/Parser.kt:52-54 | a statement parse fails to terminate exactly at `LET IDENT ASSIGN` with no SEMICOLON after it |
| `Parsing.LetHeadsTerminatedParses` | src/main/kotlin/org/lexparse/Parser.kt:17-57 | parseProgram terminates from any position when every `LET IDENT ASSIGN` is followed somewhere later by a SEMICOLON |
| `Parsing.MissingSemicolonDiverges` | src/main/kotlin/org/lexparse/Parser.kt:52-54 | `let x = 5` with no `;` does not terminate |
| `Parsing.ParseFromShift` | src/main/kotlin/org/lexparse/Parser.kt:17-29 | parsing only looks forward: the tokens after a prefix parse the same with or without the prefix |
| `Parsing.ParseEmittedLets` | src/main/kotlin/org/lexparse/Parser.kt:17-57 | the tokens of any list of `let NAME = <tokens without ;>;` bindings parse to one Let per binding, in order, each with its name |
| `Parsing.ParseLetExample` | src/test/kotlin/org/lexparse/ParserTest.kt:14-35 | for `let x = 5;` the window starts on LET and IDENT, and parsing gives one let statement named x |
| `Objects.TypeName` | src/main/kotlin/org/lexparse/Object.kt:10-14 | the names "INTEGER", "BOOLEAN" and "NULL" of the three object types |
| `Objects.Type` | src/main/kotlin/org/lexparse/Object.kt:19-43 | `type()`: INTEGER_OBJ, BOOLEAN_OBJ or NULL_OBJ by the object's kind |
| `Objects.Inspect` | src/main/kotlin/org/lexparse/Object.kt:23-47 | `inspect()`: an integer's decimal text, "true"/"false", or "null" |
| `Objects.TypeIsKind` | src/main/kotlin/org/lexparse/Object.kt:10-43 | `type()` is INTEGER_OBJ, BOOLEAN_OBJ or NULL_OBJ exactly for integer, boolean and null objects, and its name is "INTEGER", "BOOLEAN" or "NULL" |
| `Objects.TypeNameInjective` | src/main/kotlin/org/lexparse/Object.kt:10-14 | the three object type names are distinct |
| `Objects.DefaultsInspect` | src/main/kotlin/org/lexparse/Object.kt:16-38 | the field defaults 0 and false inspect as "0" and "false" |
| `Objects.InspectReadsBack` | src/main/kotlin/org/lexparse/Object.kt:23-47 | an integer's inspect reads back as its value; a boolean's is "true" exactly when it is true; "null" is the text of Null and of nothing else |
| `Objects.InspectInjective` | src/main/kotlin/org/lexparse/Object.kt:23-47 | different objects never inspect alike |
| `Evaluation.Evaluate` | src/main/kotlin/org/lexparse/Evaluator.kt:5-23 | the value of a node: literals carry their value; an expression statement takes its expression's value, None when it has none; a program is None if any statement is, Null when empty, otherwise its last statement's value; everything else is Null |
| `Evaluation.Eval` | src/main/kotlin/org/lexparse/Evaluator.kt:5-13 | the recursive dispatch yields `Evaluate(node)` |
| `Evaluation.EvalStatements` | src/main/kotlin/org/lexparse/Evaluator.kt:15-23 | the loop over all statements yields `Evaluate` of the program: the last statement's value, Null when there are none, and None when any statement throws |
| `Evaluation.LiteralsEvaluate` | src/main/kotlin/org/lexparse/Evaluator.kt:7-8 | integer and boolean literals evaluate to objects carrying their value; every other expression evaluates to Null |
| `Evaluation.StatementsEvaluate` | src/main/kotlin/org/lexparse/Evaluator.kt:10-12 | an expression statement has its expression's value; Let, Return and Block statements give Null |
| `Evaluation.ProgramEvaluatesToLast` | src/main/kotlin/org/lexparse/Evaluator.kt:9 | a program with no throwing statement has its last statement's value, or Null when empty |
| `Evaluation.ThrowingStatementPoisons` | src/main/kotlin/org/lexparse/Evaluator.kt:18-20 | every statement is evaluated, so an ExpressionStatement with no expression anywhere makes the whole program throw |
| `Evaluation.ProgramValueSource` | src/main/kotlin/org/lexparse/Evaluator.kt:5-23 | a program evaluates to something other than Null only when its last statement is an expression statement holding that literal |
| `Evaluation.EvaluateIntegerExamples` | src/test/kotlin/org/lexparse/EvaluatorTest.kt:11-21 | hand-built syntax trees of the programs `5` and `99` evaluate to the integers 5 and 99 (the test's own route through `Lexer("5")` throws on the digit in this snapshot) |
| `Evaluation.ParsedProgramsEvaluateToNull` | src/main/kotlin/org/lexparse/Evaluator.kt:9 | a program produced by this parser holds only let statements and so evaluates to Null |

## Left out

- `Repl.kt`: console I/O. It also calls an `eval(program, Env())` that does not exist in `Evaluator.kt`.
- `ReplResourceTest.kt`: an HTTP endpoint test. Its resource is not part of this model.
- The marker methods `statementNode` and `expressionNode`. They carry no behaviour, and three of them are `TODO()` stubs that throw.
- The parser over a real `Lexer`. The parser is modelled over a token sequence (see above). The modelling assumption is that reads past the end return EOF.
- `Lexing.Lexer.GetNextToken`: it does not model the `NoSuchElementException` as an exception. It returns None instead, which leaves the lexer unchanged, as the throw does.
- `Evaluation.Eval`: it does not model the `NullPointerException` of `!!` as an exception. It returns None instead.
- `Parsing.Parser.ParseProgram`: it does not model the non-terminating runs. Its precondition excludes them, and `StatementDivergence` characterises them.
- `Ints.int32`: Kotlin `Int` is 32 bits. No arithmetic happens in this snapshot, so no overflow is modelled. The lexer and parser positions are unbounded naturals.
- `CurTokenIs` and `PeekTokenIs`: these are one-line predicates on the window. They are used by the methods above and need no row of their own.
- `TokenLiteral` for nodes other than a Program: this returns the node's own token's literal. It is a plain accessor with no separate contract.
- The tests for whitespace skipping, `==`/`!=`, keywords, integers, expression parsing, parse errors and call expressions. They exercise code that this snapshot does not contain.
