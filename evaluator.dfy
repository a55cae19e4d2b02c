/** Evaluator.kt: a dispatch on the node's kind. Only integer and boolean
    literals produce a value, a Program takes the value of its last
    statement, and an ExpressionStatement that of its expression; every
    other node gives Null. An ExpressionStatement without an expression
    makes `!!` throw; that outcome is None here. */
module Evaluation {
  import opened Wrappers
  import opened Tokens
  import opened Ast
  import opened Parsing
  import opened Objects

  // ---------------------------------------------------------------------
  // What evaluation yields, stated per node without following the code

  /** The value of an expression: its own value for a literal, else Null. */
  function LiteralValue(e: Expression): Object {
    match e
    case IntegerLiteral(_, v) => IntegerObj(v)
    case BooleanLiteral(_, b) => BooleanObj(b)
    case _ => NullObj
  }

  /** A statement whose evaluation hits `!!` on a missing expression. */
  predicate Throws(s: Statement) {
    s.ExpressionStatement? && s.expression.None?
  }

  /** The value of a statement that does not throw. */
  function StatementValue(s: Statement): Object
    requires !Throws(s)
  {
    if s.ExpressionStatement? then LiteralValue(s.expression.value) else NullObj
  }

  /** What `eval` returns for a node: a Program throws if any of its
      statements does (all are evaluated), else has its last statement's
      value, or Null when it has none. */
  function Evaluate(node: Node): Option<Object> {
    match node
    case ExpressionNode(e) => Some(LiteralValue(e))
    case StatementNode(s) => if Throws(s) then None else Some(StatementValue(s))
    case ProgramNode(p) =>
      if exists i :: 0 <= i < |p.statements| && Throws(p.statements[i]) then None
      else if p.statements == [] then Some(NullObj)
      else Some(StatementValue(p.statements[|p.statements| - 1]))
  }

  // ---------------------------------------------------------------------
  // The evaluator

  /** How far a node is from the expressions: eval only goes Program to
      Statement to Expression. */
  function Level(node: Node): nat {
    match node
    case ProgramNode(_) => 2
    case StatementNode(_) => 1
    case ExpressionNode(_) => 0
  }

  /** `eval`. */
  method Eval(node: Node) returns (r: Option<Object>)
    ensures r == Evaluate(node)
    decreases Level(node), 0
  {
    match node
    case ExpressionNode(IntegerLiteral(_, v)) =>
      r := Some(IntegerObj(v));
    case ExpressionNode(BooleanLiteral(_, b)) =>
      r := Some(BooleanObj(b));
    case ProgramNode(p) =>
      r := EvalStatements(p.statements);
    case StatementNode(ExpressionStatement(_, e)) =>
      if e.None? {
        r := None;
      } else {
        r := Eval(ExpressionNode(e.value));
      }
    case _ =>
      r := Some(NullObj);
  }

  /** `evalStatements`: evaluate every statement in order, keeping the last
      result; Null for an empty list. */
  method EvalStatements(statements: seq<Statement>) returns (result: Option<Object>)
    ensures result == Evaluate(ProgramNode(Program(statements)))
    decreases 1, 1
  {
    result := Some(NullObj);
    for i := 0 to |statements|
      invariant result.Some?
      invariant forall k :: 0 <= k < i ==> !Throws(statements[k])
      invariant i == 0 ==> result == Some(NullObj)
      invariant i > 0 ==> result == Some(StatementValue(statements[i - 1]))
    {
      var r := Eval(StatementNode(statements[i]));
      if r.None? {
        return None;
      }
      result := r;
    }
  }

  // ---------------------------------------------------------------------
  // Properties

  /** Literals evaluate to objects carrying their value. */
  lemma LiteralsEvaluate(e: Expression)
    ensures e.IntegerLiteral? ==> Evaluate(ExpressionNode(e)) == Some(IntegerObj(e.intValue))
    ensures e.BooleanLiteral? ==> Evaluate(ExpressionNode(e)) == Some(BooleanObj(e.boolValue))
    ensures !e.IntegerLiteral? && !e.BooleanLiteral? ==> Evaluate(ExpressionNode(e)) == Some(NullObj)
  {
  }

  /** An expression statement has its expression's value; every other
      statement (Let, Return, Block) evaluates to Null. */
  lemma StatementsEvaluate(s: Statement)
    ensures s.ExpressionStatement? && s.expression.Some? ==>
              Evaluate(StatementNode(s)) == Evaluate(ExpressionNode(s.expression.value))
    ensures !s.ExpressionStatement? ==> Evaluate(StatementNode(s)) == Some(NullObj)
  {
  }

  /** A program has the value of its last statement, or Null when empty,
      provided no statement throws. */
  lemma ProgramEvaluatesToLast(ss: seq<Statement>)
    requires forall i :: 0 <= i < |ss| ==> !Throws(ss[i])
    ensures ss == [] ==> Evaluate(ProgramNode(Program(ss))) == Some(NullObj)
    ensures ss != [] ==> Evaluate(ProgramNode(Program(ss))) == Evaluate(StatementNode(ss[|ss| - 1]))
  {
  }

  /** There is no short cut past earlier statements: one that throws makes
      the whole program throw, whatever comes after it. */
  lemma ThrowingStatementPoisons(ss: seq<Statement>, i: nat)
    requires i < |ss| && Throws(ss[i])
    ensures Evaluate(ProgramNode(Program(ss))) == None
  {
  }

  /** Evaluating a Program never gives an integer or a boolean unless its
      last statement is an expression statement holding that literal. */
  lemma ProgramValueSource(ss: seq<Statement>)
    requires Evaluate(ProgramNode(Program(ss))).Some?
    requires Evaluate(ProgramNode(Program(ss))).value != NullObj
    ensures ss != []
    ensures var last := ss[|ss| - 1];
            last.ExpressionStatement? && last.expression.Some? &&
            Evaluate(ProgramNode(Program(ss))) == Some(LiteralValue(last.expression.value))
  {
  }

  /** The evaluator test's programs `5` and `99`, given as hand-built syntax
      trees of one expression statement each: this snapshot's lexer throws
      on digits, so the test's own lexer-and-parser route yields no tree. */
  method EvaluateIntegerExamples(t: Token) returns (five: Option<Object>, ninetyNine: Option<Object>)
    ensures five == Some(IntegerObj(5)) && ninetyNine == Some(IntegerObj(99))
  {
    five := Eval(ProgramNode(Program([ExpressionStatement(t, Some(IntegerLiteral(t, 5)))])));
    ninetyNine := Eval(ProgramNode(Program([ExpressionStatement(t, Some(IntegerLiteral(t, 99)))])));
  }

  /** Put together with the parser: a parsed program holds only let
      statements, so in this snapshot it always evaluates to Null. A source
      such as `5` therefore cannot evaluate to 5 end to end. */
  lemma ParsedProgramsEvaluateToNull(tokens: seq<Token>)
    requires ParseFrom(tokens, 0).Some?
    ensures Evaluate(ProgramNode(Program(ParseFrom(tokens, 0).value))) == Some(NullObj)
  {
    var ss := ParseFrom(tokens, 0).value;
    ParsedStatementsAreLets(tokens, 0);
    assert forall i :: 0 <= i < |ss| ==> ss[i] in ss;
  }
}
