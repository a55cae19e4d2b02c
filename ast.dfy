/** Ast.kt: the syntax tree and its canonical text (`toString`) and
    `tokenLiteral`. The Kotlin nodes have nullable `var` children that only
    the parser fills in; here an absent child is None. */
module Ast {
  import opened Wrappers
  import opened Tokens
  import opened Ints

  datatype Identifier = Identifier(token: Token, value: string)

  datatype Expression =
    | Ident(identifier: Identifier)
    | IntegerLiteral(token: Token, intValue: int32)
    | BooleanLiteral(token: Token, boolValue: bool)
    | Prefix(token: Token, operator: string, right: Option<Expression>)
    | Infix(token: Token, operator: string, left: Option<Expression>, right: Option<Expression>)
    | If(token: Token, condition: Option<Expression>, consequence: Option<Block>, alternative: Option<Block>)
    | FunctionLiteral(token: Token, parameters: seq<Identifier>, body: Option<Block>)

  datatype Statement =
    | Let(token: Token, name: Option<Identifier>, value: Option<Expression>)
    | Return(token: Token, returnValue: Option<Expression>)
    | ExpressionStatement(token: Token, expression: Option<Expression>)
    | BlockStatement(block: Block)

  datatype Block = Block(token: Token, statements: seq<Statement>)

  datatype Program = Program(statements: seq<Statement>)

  /** Kotlin's `Node` interface: anything the evaluator may be handed. */
  datatype Node =
    | ProgramNode(program: Program)
    | StatementNode(statement: Statement)
    | ExpressionNode(expression: Expression)

  // ---------------------------------------------------------------------
  // toString

  /** Expression `toString`s. An absent child prints as "null", as Kotlin's
      `toString()` and `?.toString()` do inside a string template. */
  function RenderExpression(e: Expression): string {
    match e
    case Ident(id) => id.value
    case IntegerLiteral(_, v) => IntToString(v as int)
    case BooleanLiteral(_, b) => if b then "true" else "false"
    case Prefix(_, op, right) => "(" + op + RenderOptExpression(right) + ")"
    case Infix(_, op, left, right) =>
      "(" + RenderOptExpression(left) + " " + op + " " + RenderOptExpression(right) + ")"
    case If(_, condition, consequence, alternative) =>
      // `alternative.let { ... }` runs on null too, so " else " is always there
      var elseText := " else " + RenderOptBlock(alternative);
      "if " + RenderOptExpression(condition) + " " + RenderOptBlock(consequence) + " " + elseText
    case FunctionLiteral(token, parameters, body) =>
      token.literal + " (" + JoinIdentifiers(parameters) + ") " + RenderOptBlock(body)
  }

  function RenderOptExpression(e: Option<Expression>): string {
    match e
    case None => "null"
    case Some(x) => RenderExpression(x)
  }

  /** `parameters.joinToString(", ")`. */
  function JoinIdentifiers(ids: seq<Identifier>): string {
    if ids == [] then ""
    else if |ids| == 1 then ids[0].value
    else ids[0].value + ", " + JoinIdentifiers(ids[1..])
  }

  function RenderOptIdentifier(id: Option<Identifier>): string {
    match id
    case None => "null"
    case Some(x) => x.value
  }

  function RenderStatement(s: Statement): string {
    match s
    case Let(token, name, value) =>
      token.literal + " " + RenderOptIdentifier(name) + " = " + RenderOptExpression(value) + ";"
    case Return(token, returnValue) => token.literal + " " + RenderOptExpression(returnValue) + ";"
    case ExpressionStatement(_, expression) => RenderOptExpression(expression)
    case BlockStatement(block) => RenderBlock(block)
  }

  function RenderBlock(b: Block): string {
    RenderStatements(b.statements)
  }

  function RenderOptBlock(b: Option<Block>): string {
    match b
    case None => "null"
    case Some(x) => RenderBlock(x)
  }

  /** `statements.fold("") { strs, statement -> strs.plus(statement.toString()) }`:
      a left fold with no separator. */
  function RenderStatements(ss: seq<Statement>): string {
    if ss == [] then "" else RenderStatements(ss[..|ss| - 1]) + RenderStatement(ss[|ss| - 1])
  }

  function RenderProgram(p: Program): string {
    RenderStatements(p.statements)
  }

  function Render(node: Node): string {
    match node
    case ProgramNode(p) => RenderProgram(p)
    case StatementNode(s) => RenderStatement(s)
    case ExpressionNode(e) => RenderExpression(e)
  }

  // ---------------------------------------------------------------------
  // tokenLiteral

  function ExpressionToken(e: Expression): Token {
    match e
    case Ident(id) => id.token
    case IntegerLiteral(token, _) => token
    case BooleanLiteral(token, _) => token
    case Prefix(token, _, _) => token
    case Infix(token, _, _, _) => token
    case If(token, _, _, _) => token
    case FunctionLiteral(token, _, _) => token
  }

  function StatementToken(s: Statement): Token {
    match s
    case Let(token, _, _) => token
    case Return(token, _) => token
    case ExpressionStatement(token, _) => token
    case BlockStatement(block) => block.token
  }

  /** `tokenLiteral()`: the literal of the node's own token; for a Program
      that of its first statement, or "Empty Statement" when it has none. */
  function TokenLiteral(node: Node): string
  {
    match node
    case ProgramNode(p) =>
      if |p.statements| > 0 then StatementToken(p.statements[0]).literal else "Empty Statement"
    case StatementNode(s) => StatementToken(s).literal
    case ExpressionNode(e) => ExpressionToken(e).literal
  }

  // ---------------------------------------------------------------------
  // Properties of the rendering

  /** Rendering a statement list distributes over concatenation: the fold
      inserts no separator and loses nothing. */
  lemma {:induction false} RenderStatementsAppend(a: seq<Statement>, b: seq<Statement>)
    ensures RenderStatements(a + b) == RenderStatements(a) + RenderStatements(b)
    decreases |b|
  {
    if b == [] {
      assert a + b == a;
    } else {
      var b', last := b[..|b| - 1], b[|b| - 1];
      assert (a + b)[..|a + b| - 1] == a + b';
      assert (a + b)[|a + b| - 1] == last;
      calc {
        RenderStatements(a + b);
        RenderStatements(a + b') + RenderStatement(last);
        { RenderStatementsAppend(a, b'); }
        RenderStatements(a) + RenderStatements(b') + RenderStatement(last);
        RenderStatements(a) + RenderStatements(b);
      }
    }
  }

  /** A Program or Block renders as its first statement followed by the rest. */
  lemma RenderStatementsCons(s: Statement, ss: seq<Statement>)
    ensures RenderStatements([s] + ss) == RenderStatement(s) + RenderStatements(ss)
  {
    RenderStatementsAppend([s], ss);
    assert [s][..0] == [];
  }

  /** Number of occurrences of c in s. */
  function Occurrences(c: char, s: string): nat {
    if s == [] then 0 else (if s[0] == c then 1 else 0) + Occurrences(c, s[1..])
  }

  lemma {:induction false} OccurrencesAppend(c: char, a: string, b: string)
    ensures Occurrences(c, a + b) == Occurrences(c, a) + Occurrences(c, b)
  {
    if a != [] {
      assert a + b != [] && (a + b)[0] == a[0];
      assert (a + b)[1..] == a[1..] + b;
      OccurrencesAppend(c, a[1..], b);
    } else {
      assert a + b == b;
    }
  }

  lemma {:induction false} OccurrencesAbsent(c: char, s: string)
    requires forall i :: 0 <= i < |s| ==> s[i] != c
    ensures Occurrences(c, s) == 0
  {
    if s != [] {
      OccurrencesAbsent(c, s[1..]);
    }
  }

  predicate ParenFree(s: string) {
    forall i :: 0 <= i < |s| ==> s[i] != '(' && s[i] != ')'
  }

  /** An operator expression: identifiers, literals and prefix/infix nodes,
      whose operators and names hold no parentheses. A child may be absent
      (it then prints as "null"). */
  predicate OperatorTree(e: Expression) {
    match e
    case Ident(id) => ParenFree(id.value)
    case IntegerLiteral(_, _) => true
    case BooleanLiteral(_, _) => true
    case Prefix(_, op, right) => ParenFree(op) && (right.Some? ==> OperatorTree(right.value))
    case Infix(_, op, left, right) =>
      ParenFree(op) && (left.Some? ==> OperatorTree(left.value)) && (right.Some? ==> OperatorTree(right.value))
    case _ => false
  }

  /** Number of prefix and infix nodes in an expression. */
  function Operators(e: Expression): nat {
    match e
    case Prefix(_, _, right) => 1 + (if right.Some? then Operators(right.value) else 0)
    case Infix(_, _, left, right) =>
      1 + (if left.Some? then Operators(left.value) else 0) + (if right.Some? then Operators(right.value) else 0)
    case _ => 0
  }

  lemma ParenFreeCounts(s: string)
    requires ParenFree(s)
    ensures Occurrences('(', s) == 0 && Occurrences(')', s) == 0
  {
    OccurrencesAbsent('(', s);
    OccurrencesAbsent(')', s);
  }

  lemma ParenFreeLiteral(e: Expression)
    requires e.IntegerLiteral? || e.BooleanLiteral?
    ensures ParenFree(RenderExpression(e))
  {
    if e.IntegerLiteral? {
      IntToStringAlphabet(e.intValue as int);
    }
  }

  /** The rendering is fully parenthesised: every prefix and infix node
      contributes exactly one "(" and one ")", and nothing else does. */
  lemma {:induction false} RenderParenthesised(e: Expression)
    requires OperatorTree(e)
    decreases e, 1
    ensures Occurrences('(', RenderExpression(e)) == Operators(e)
    ensures Occurrences(')', RenderExpression(e)) == Operators(e)
  {
    match e
    case Ident(id) =>
      ParenFreeCounts(id.value);
    case IntegerLiteral(_, _) =>
      ParenFreeLiteral(e);
      ParenFreeCounts(RenderExpression(e));
    case BooleanLiteral(_, _) =>
      ParenFreeLiteral(e);
      ParenFreeCounts(RenderExpression(e));
    case Prefix(_, op, right) =>
      var r := RenderOptExpression(right);
      RenderOptParenthesised(right);
      ParenFreeCounts(op);
      forall c | c == '(' || c == ')'
        ensures Occurrences(c, RenderExpression(e)) == Occurrences(c, "(") + Occurrences(c, op) + Occurrences(c, r) + Occurrences(c, ")")
      {
        OccurrencesAppend(c, "(" + op + r, ")");
        OccurrencesAppend(c, "(" + op, r);
        OccurrencesAppend(c, "(", op);
      }
    case Infix(_, op, left, right) =>
      var l := RenderOptExpression(left);
      var r := RenderOptExpression(right);
      RenderOptParenthesised(left);
      RenderOptParenthesised(right);
      ParenFreeCounts(op);
      forall c | c == '(' || c == ')'
        ensures Occurrences(c, RenderExpression(e)) ==
                Occurrences(c, "(") + Occurrences(c, l) + Occurrences(c, " ") + Occurrences(c, op) +
                Occurrences(c, " ") + Occurrences(c, r) + Occurrences(c, ")")
      {
        OccurrencesAppend(c, "(" + l + " " + op + " " + r, ")");
        OccurrencesAppend(c, "(" + l + " " + op + " ", r);
        OccurrencesAppend(c, "(" + l + " " + op, " ");
        OccurrencesAppend(c, "(" + l + " ", op);
        OccurrencesAppend(c, "(" + l, " ");
        OccurrencesAppend(c, "(", l);
      }
  }

  /** An absent child prints "null", which holds no parentheses. */
  lemma {:induction false} RenderOptParenthesised(e: Option<Expression>)
    requires e.Some? ==> OperatorTree(e.value)
    ensures Occurrences('(', RenderOptExpression(e)) == (if e.Some? then Operators(e.value) else 0)
    ensures Occurrences(')', RenderOptExpression(e)) == (if e.Some? then Operators(e.value) else 0)
    decreases e, 0
  {
    if e.Some? {
      RenderParenthesised(e.value);
    } else {
      ParenFreeCounts("null");
    }
  }

  /** An integer literal's text reads back as its value; a boolean literal's
      text is "true" exactly when its value is true. */
  lemma LiteralRenderingRoundTrip(token: Token, v: int32, b: bool)
    ensures ParseInt(RenderExpression(IntegerLiteral(token, v))) == Some(v as int)
    ensures RenderExpression(BooleanLiteral(token, b)) == "true" <==> b
    ensures RenderExpression(BooleanLiteral(token, b)) == "false" <==> !b
  {
    IntToStringRoundTrip(v as int);
  }

  /** The `.let` in IfExpression.toString runs on a null alternative too, so
      an if without else still ends in " else null". */
  lemma IfRendersElseWithoutAlternative(token: Token, condition: Option<Expression>, consequence: Option<Block>)
    ensures var text := RenderExpression(If(token, condition, consequence, None));
            |text| >= 10 && text[|text| - 10..] == " else null"
  {
    var text := RenderExpression(If(token, condition, consequence, None));
    var front := "if " + RenderOptExpression(condition) + " " + RenderOptBlock(consequence) + " ";
    assert text == front + " else null";
  }

  /** `2 + 3 * 4`, parsed with `*` binding tighter, renders as "(2 + (3 * 4))". */
  lemma RenderInfixExample(plus: Token, times: Token, num: Token)
    ensures RenderExpression(Infix(plus, "+", Some(IntegerLiteral(num, 2)),
              Some(Infix(times, "*", Some(IntegerLiteral(num, 3)), Some(IntegerLiteral(num, 4))))))
            == "(2 + (3 * 4))"
  {
    var product := Infix(times, "*", Some(IntegerLiteral(num, 3)), Some(IntegerLiteral(num, 4)));
    assert RenderOptExpression(Some(IntegerLiteral(num, 2))) == "2";
    assert RenderOptExpression(Some(IntegerLiteral(num, 3))) == "3";
    assert RenderOptExpression(Some(IntegerLiteral(num, 4))) == "4";
    assert RenderOptExpression(Some(product)) == "(3 * 4)";
  }

  /** `-(5 + 5)` renders as "(-(5 + 5))" and `!(true == true)` as "(!(true == true))". */
  lemma RenderPrefixExample(minus: Token, bang: Token, plus: Token, eq: Token, num: Token, t: Token)
    ensures RenderExpression(Prefix(minus, "-",
              Some(Infix(plus, "+", Some(IntegerLiteral(num, 5)), Some(IntegerLiteral(num, 5))))))
            == "(-(5 + 5))"
    ensures RenderExpression(Prefix(bang, "!",
              Some(Infix(eq, "==", Some(BooleanLiteral(t, true)), Some(BooleanLiteral(t, true))))))
            == "(!(true == true))"
  {
    var sum := Infix(plus, "+", Some(IntegerLiteral(num, 5)), Some(IntegerLiteral(num, 5)));
    assert RenderOptExpression(Some(IntegerLiteral(num, 5))) == "5";
    assert RenderOptExpression(Some(sum)) == "(5 + 5)";
    var equal := Infix(eq, "==", Some(BooleanLiteral(t, true)), Some(BooleanLiteral(t, true)));
    assert RenderOptExpression(Some(BooleanLiteral(t, true))) == "true";
    assert RenderOptExpression(Some(equal)) == "(true == true)";
  }

  /** Statements: `let x = y;` renders back as written; an absent value and an
      absent return value print "null"; statements concatenate with no separator. */
  lemma RenderStatementExamples(let: Token, ret: Token, x: Token, y: Token)
    requires let.literal == "let" && ret.literal == "return"
    ensures RenderStatement(Let(let, Some(Identifier(x, "x")), Some(Ident(Identifier(y, "y"))))) == "let x = y;"
    ensures RenderStatement(Let(let, Some(Identifier(x, "x")), None)) == "let x = null;"
    ensures RenderStatement(Return(ret, None)) == "return null;"
    ensures RenderProgram(Program([Let(let, Some(Identifier(x, "x")), Some(Ident(Identifier(y, "y")))),
                                   Return(ret, Some(Ident(Identifier(y, "y"))))]))
            == "let x = y;return y;"
  {
    var s1 := Let(let, Some(Identifier(x, "x")), Some(Ident(Identifier(y, "y"))));
    var s2 := Return(ret, Some(Ident(Identifier(y, "y"))));
    assert RenderOptExpression(Some(Ident(Identifier(y, "y")))) == "y";
    assert RenderOptIdentifier(Some(Identifier(x, "x"))) == "x";
    RenderStatementsCons(s1, [s2]);
    RenderStatementsCons(s2, []);
    assert [s1, s2] == [s1] + [s2];
  }

  /** `joinToString(", ")` puts one ", " between neighbours and none at the
      ends: adding a parameter appends ", " and its name. */
  lemma {:induction false} JoinIdentifiersSnoc(ids: seq<Identifier>, x: Identifier)
    requires ids != []
    ensures JoinIdentifiers(ids + [x]) == JoinIdentifiers(ids) + ", " + x.value
    decreases |ids|
  {
    assert (ids + [x])[0] == ids[0];
    assert (ids + [x])[1..] == ids[1..] + [x];
    if |ids| > 1 {
      JoinIdentifiersSnoc(ids[1..], x);
    }
  }

  /** `fn(x, y) { x + y; }` renders as "fn (x, y) (x + y)": the literal, the
      parameters joined by ", ", then the body's statements. */
  lemma RenderFunctionExample(fn: Token, x: Token, y: Token, brace: Token, plus: Token)
    requires fn.literal == "fn"
    ensures RenderExpression(FunctionLiteral(fn, [Identifier(x, "x"), Identifier(y, "y")],
              Some(Block(brace, [ExpressionStatement(plus,
                Some(Infix(plus, "+", Some(Ident(Identifier(x, "x"))), Some(Ident(Identifier(y, "y"))))))]))))
            == "fn (x, y) (x + y)"
  {
    var sum := Infix(plus, "+", Some(Ident(Identifier(x, "x"))), Some(Ident(Identifier(y, "y"))));
    var body := [ExpressionStatement(plus, Some(sum))];
    assert JoinIdentifiers([Identifier(y, "y")]) == "y";
    assert JoinIdentifiers([Identifier(x, "x"), Identifier(y, "y")]) == "x, y";
    assert RenderOptExpression(Some(Ident(Identifier(x, "x")))) == "x";
    assert RenderOptExpression(Some(Ident(Identifier(y, "y")))) == "y";
    assert RenderOptExpression(Some(sum)) == "(x + y)";
    RenderStatementsCons(body[0], []);
    assert body == [body[0]] + [];
    assert RenderBlock(Block(brace, body)) == "(x + y)";
    assert RenderOptBlock(Some(Block(brace, body))) == "(x + y)";
  }
}
