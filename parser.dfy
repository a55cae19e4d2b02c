/** Parser.kt: a two-token window (curToken, peekToken) over a token source.
    This snapshot recognises only `let NAME =` and skips the rest of the
    statement up to the next `;`.

    The token source is a sequence of tokens handed out one at a time. Once
    it is exhausted it hands out EOF for ever. This is an assumed contract of
    the token source (the lexer of this snapshot produces no EOF at all); the
    parser needs it, because its window always reads one token beyond the
    EOF it stops at. */
module Parsing {
  import opened Wrappers
  import opened Tokens
  import opened Ast

  const EofToken: Token := Token(EOF, Literal(EOF))

  /** The i-th token the source hands out. */
  function TokenAt(tokens: seq<Token>, i: nat): Token {
    if i < |tokens| then tokens[i] else EofToken
  }

  /** The first SEMICOLON at index i or later, if any. */
  function NextSemicolon(tokens: seq<Token>, i: nat): (r: Option<nat>)
    ensures r.Some? ==> i <= r.value < |tokens| && tokens[r.value].tokenType == SEMICOLON &&
                        forall k :: i <= k < r.value ==> tokens[k].tokenType != SEMICOLON
    ensures r.None? ==> forall k :: i <= k < |tokens| ==> tokens[k].tokenType != SEMICOLON
    decreases |tokens| - i
  {
    if i >= |tokens| then None
    else if tokens[i].tokenType == SEMICOLON then Some(i)
    else NextSemicolon(tokens, i + 1)
  }

  // ---------------------------------------------------------------------
  // The parse as a function of the token sequence

  /** What one statement parse returns, and the index of curToken afterwards. */
  datatype Step = Step(statement: Option<Statement>, last: nat)

  /** `parseLetStatement` with curToken at index p. None: the skip loop,
      which has no EOF guard, runs for ever because no SEMICOLON follows. */
  function ParseLetAt(tokens: seq<Token>, p: nat): (r: Option<Step>)
    ensures r.Some? ==> r.value.last >= p
  {
    var name := TokenAt(tokens, p + 1);
    if name.tokenType != IDENT then Some(Step(None, p))
    else if TokenAt(tokens, p + 2).tokenType != ASSIGN then Some(Step(None, p + 1))
    else
      match NextSemicolon(tokens, p + 2)
      case None => None
      case Some(s) =>
        Some(Step(Some(Let(TokenAt(tokens, p), Some(Identifier(name, name.literal)), None)), s))
  }

  /** `parseStatement`: only LET starts a statement; anything else gives null. */
  function ParseStatementAt(tokens: seq<Token>, p: nat): (r: Option<Step>)
    ensures r.Some? ==> r.value.last >= p
  {
    if TokenAt(tokens, p).tokenType == LET then ParseLetAt(tokens, p) else Some(Step(None, p))
  }

  /** `parseProgram` with curToken at index p: the statements it collects,
      or None when it does not terminate. */
  function ParseFrom(tokens: seq<Token>, p: nat): Option<seq<Statement>>
    decreases |tokens| - p
  {
    if TokenAt(tokens, p).tokenType == EOF then Some([])
    else
      match ParseStatementAt(tokens, p)
      case None => None
      case Some(step) =>
        match ParseFrom(tokens, step.last + 1)
        case None => None
        case Some(rest) => Some(if step.statement.Some? then [step.statement.value] + rest else rest)
  }

  // ---------------------------------------------------------------------
  // The parser object

  class Parser {
    const tokens: seq<Token>
    /** How many tokens have been taken from the source. */
    var pulled: nat
    var curToken: Token
    var peekToken: Token

    /** The window holds the last two tokens taken from the source. */
    ghost predicate Valid()
      reads this
    {
      pulled >= 2 && curToken == TokenAt(tokens, pulled - 2) && peekToken == TokenAt(tokens, pulled - 1)
    }

    /** Index of curToken in the source. */
    ghost function Cursor(): nat
      reads this
      requires Valid()
    {
      pulled - 2
    }

    /** `init`: the window starts as two ILLEGAL tokens and is primed by two
        advances, so it holds the first two tokens of the source. */
    constructor (tokens: seq<Token>)
      ensures this.tokens == tokens && Valid() && Cursor() == 0
      ensures curToken == TokenAt(tokens, 0) && peekToken == TokenAt(tokens, 1)
    {
      this.tokens := tokens;
      pulled := 0;
      curToken := IllegalToken;
      peekToken := IllegalToken;
      new;
      GetNextToken();
      GetNextToken();
    }

    /** `getNextToken`: shift the window by one token. */
    method GetNextToken()
      modifies this`pulled, this`curToken, this`peekToken
      ensures curToken == old(peekToken) && peekToken == TokenAt(tokens, old(pulled))
      ensures pulled == old(pulled) + 1
      ensures old(Valid()) ==> Valid() && Cursor() == old(Cursor()) + 1
    {
      curToken := peekToken;
      peekToken := TokenAt(tokens, pulled);
      pulled := pulled + 1;
    }

    predicate CurTokenIs(expected: TokenType)
      reads this
    {
      curToken.tokenType == expected
    }

    predicate PeekTokenIs(expected: TokenType)
      reads this
    {
      peekToken.tokenType == expected
    }

    /** `expectPeek`: advance exactly when the lookahead has the expected
        type; otherwise leave the window as it is. */
    method ExpectPeek(expected: TokenType) returns (ok: bool)
      requires Valid()
      modifies this`pulled, this`curToken, this`peekToken
      ensures Valid()
      ensures ok == (old(peekToken).tokenType == expected)
      ensures ok ==> Cursor() == old(Cursor()) + 1 && curToken == old(peekToken)
      ensures !ok ==> pulled == old(pulled) && curToken == old(curToken) && peekToken == old(peekToken)
    {
      if PeekTokenIs(expected) {
        GetNextToken();
        return true;
      } else {
        return false;
      }
    }

    /** `parseLetStatement`: `let`, an IDENT, `=`, then skip to the next `;`. */
    method ParseLetStatement() returns (statement: Option<Statement>)
      requires Valid() && ParseLetAt(tokens, Cursor()).Some?
      modifies this`pulled, this`curToken, this`peekToken
      ensures Valid()
      ensures ParseLetAt(tokens, old(Cursor())) == Some(Step(statement, Cursor()))
    {
      var token := curToken;
      var ok := ExpectPeek(IDENT);
      if !ok {
        return None;
      }
      var name := Identifier(curToken, curToken.literal);
      ok := ExpectPeek(ASSIGN);
      if !ok {
        return None;
      }
      ghost var stop := NextSemicolon(tokens, Cursor()).value;
      while !CurTokenIs(SEMICOLON)
        invariant Valid()
        invariant Cursor() <= stop && NextSemicolon(tokens, Cursor()) == Some(stop)
        decreases stop - Cursor()
      {
        GetNextToken();
      }
      statement := Some(Let(token, Some(name), None));
    }

    /** `parseStatement`. */
    method ParseStatement() returns (statement: Option<Statement>)
      requires Valid() && ParseStatementAt(tokens, Cursor()).Some?
      modifies this`pulled, this`curToken, this`peekToken
      ensures Valid()
      ensures ParseStatementAt(tokens, old(Cursor())) == Some(Step(statement, Cursor()))
    {
      if curToken.tokenType == LET {
        statement := ParseLetStatement();
      } else {
        statement := None;
      }
    }

    /** `parseProgram`: parse statements until curToken is EOF, keeping the
        non-null ones in order. It terminates exactly when ParseFrom is
        defined, which LetHeadsTerminated below guarantees. */
    method ParseProgram() returns (program: Program)
      requires Valid() && ParseFrom(tokens, Cursor()).Some?
      modifies this`pulled, this`curToken, this`peekToken
      ensures Valid() && curToken.tokenType == EOF
      ensures ParseFrom(tokens, old(Cursor())) == Some(program.statements)
    {
      var statements: seq<Statement> := [];
      ghost var all := ParseFrom(tokens, Cursor()).value;
      assert all == statements + all;
      while curToken.tokenType != EOF
        invariant Valid() && ParseFrom(tokens, Cursor()).Some?
        invariant all == statements + ParseFrom(tokens, Cursor()).value
        decreases |tokens| - Cursor()
      {
        ghost var before := ParseFrom(tokens, Cursor()).value;
        var statement := ParseStatement();
        ghost var rest := ParseFrom(tokens, Cursor() + 1).value;
        ghost var found := if statement.Some? then [statement.value] else [];
        assert before == found + rest;
        if statement.Some? {
          statements := statements + [statement.value];
        }
        assert all == statements + rest;
        GetNextToken();
      }
      assert ParseFrom(tokens, Cursor()) == Some([]);
      assert statements + [] == statements;
      program := Program(statements);
    }
  }

  /** Lexing and parsing a source, as the tests' `parseSource` does, with the
      token sequence in place of the lexer. */
  method ParseSource(tokens: seq<Token>) returns (program: Program)
    requires ParseFrom(tokens, 0).Some?
    ensures ParseFrom(tokens, 0) == Some(program.statements)
  {
    var parser := new Parser(tokens);
    program := parser.ParseProgram();
  }

  // ---------------------------------------------------------------------
  // Properties of the parse

  /** The shape of every statement this parser can produce: a Let whose token
      has type LET, whose name is an Identifier built from an IDENT token and
      its literal, and whose value is left null. */
  predicate ParsedLet(s: Statement) {
    s.Let? && s.token.tokenType == LET && s.value.None? && s.name.Some? &&
    s.name.value.token.tokenType == IDENT && s.name.value.value == s.name.value.token.literal
  }

  /** Only `let` statements come out of the parser, each of ParsedLet's shape. */
  lemma {:induction false} ParsedStatementsAreLets(tokens: seq<Token>, p: nat)
    requires ParseFrom(tokens, p).Some?
    ensures forall s :: s in ParseFrom(tokens, p).value ==> ParsedLet(s)
    decreases |tokens| - p
  {
    if TokenAt(tokens, p).tokenType != EOF {
      var step := ParseStatementAt(tokens, p).value;
      ParsedStatementsAreLets(tokens, step.last + 1);
    }
  }

  /** Every parsed statement renders as `let NAME = null;` (with its token's
      literal in place of `let`), since the value is never filled in. */
  lemma ParsedRendering(tokens: seq<Token>, p: nat)
    requires ParseFrom(tokens, p).Some?
    ensures forall s :: s in ParseFrom(tokens, p).value ==>
              ParsedLet(s) && RenderStatement(s) == s.token.literal + " " + s.name.value.value + " = null;"
  {
    ParsedStatementsAreLets(tokens, p);
  }

  /** `Program.tokenLiteral` of a parsed program: the literal of the LET
      token of its first statement, or "Empty Statement" when nothing parsed. */
  lemma ParsedProgramTokenLiteral(tokens: seq<Token>)
    requires ParseFrom(tokens, 0).Some?
    ensures var ss := ParseFrom(tokens, 0).value;
            (ss == [] ==> TokenLiteral(ProgramNode(Program(ss))) == "Empty Statement") &&
            (ss != [] ==> ss[0].Let? && ss[0].token.tokenType == LET &&
                          TokenLiteral(ProgramNode(Program(ss))) == ss[0].token.literal)
  {
    ParsedStatementsAreLets(tokens, 0);
    var ss := ParseFrom(tokens, 0).value;
    if ss != [] {
      assert ss[0] in ss;
    }
  }

  /** A LET followed by IDENT and ASSIGN: the start of a let statement that
      reaches the skip loop. */
  predicate IsLetHead(tokens: seq<Token>, q: nat) {
    q + 2 < |tokens| && tokens[q].tokenType == LET && tokens[q + 1].tokenType == IDENT &&
    tokens[q + 2].tokenType == ASSIGN
  }

  /** Every let head is followed, somewhere later, by a SEMICOLON. */
  predicate LetHeadsTerminated(tokens: seq<Token>) {
    forall q: nat :: q < |tokens| && IsLetHead(tokens, q) ==> NextSemicolon(tokens, q + 2).Some?
  }

  /** A statement parse fails to terminate exactly at a let head with no
      SEMICOLON after it. */
  lemma StatementDivergence(tokens: seq<Token>, p: nat)
    ensures ParseStatementAt(tokens, p).None? <==> IsLetHead(tokens, p) && NextSemicolon(tokens, p + 2).None?
  {
    if ParseStatementAt(tokens, p).None? {
      assert TokenAt(tokens, p + 2).tokenType == ASSIGN;
    }
  }

  /** If every let head has a later SEMICOLON, parseProgram terminates from
      any position. */
  lemma {:induction false} LetHeadsTerminatedParses(tokens: seq<Token>, p: nat)
    requires LetHeadsTerminated(tokens)
    ensures ParseFrom(tokens, p).Some?
    decreases |tokens| - p
  {
    if TokenAt(tokens, p).tokenType != EOF {
      StatementDivergence(tokens, p);
      var step := ParseStatementAt(tokens, p).value;
      LetHeadsTerminatedParses(tokens, step.last + 1);
    }
  }

  /** NextSemicolon finds j when j holds the first SEMICOLON from i on. */
  lemma NextSemicolonIs(tokens: seq<Token>, i: nat, j: nat)
    requires i <= j < |tokens| && tokens[j].tokenType == SEMICOLON
    requires forall k :: i <= k < j ==> tokens[k].tokenType != SEMICOLON
    ensures NextSemicolon(tokens, i) == Some(j)
  {
  }

  lemma NextSemicolonShift(pre: seq<Token>, rest: seq<Token>, q: nat)
    ensures NextSemicolon(pre + rest, |pre| + q) ==
            match NextSemicolon(rest, q)
            case None => None
            case Some(j) => Some(|pre| + j)
  {
    var all := pre + rest;
    match NextSemicolon(rest, q)
    case None =>
      assert forall k :: |pre| + q <= k < |all| ==> all[k] == rest[k - |pre|];
    case Some(j) =>
      assert forall k :: |pre| + q <= k < |all| ==> all[k] == rest[k - |pre|];
      NextSemicolonIs(all, |pre| + q, |pre| + j);
  }

  lemma TokenAtShift(pre: seq<Token>, rest: seq<Token>, k: nat)
    ensures TokenAt(pre + rest, |pre| + k) == TokenAt(rest, k)
  {
  }

  /** One statement parses the same after a prefix, its end index moved by
      the prefix's length. */
  lemma StatementShift(pre: seq<Token>, rest: seq<Token>, q: nat)
    ensures var here := ParseStatementAt(rest, q);
            ParseStatementAt(pre + rest, |pre| + q) ==
              if here.None? then None else Some(Step(here.value.statement, |pre| + here.value.last))
  {
    TokenAtShift(pre, rest, q);
    TokenAtShift(pre, rest, q + 1);
    TokenAtShift(pre, rest, q + 2);
    NextSemicolonShift(pre, rest, q + 2);
  }

  /** What follows a prefix parses the same whether or not the prefix is
      there: parsing only ever looks forward. */
  lemma {:induction false} ParseFromShift(pre: seq<Token>, rest: seq<Token>, q: nat)
    ensures ParseFrom(pre + rest, |pre| + q) == ParseFrom(rest, q)
    decreases |rest| - q
  {
    TokenAtShift(pre, rest, q);
    StatementShift(pre, rest, q);
    var here := ParseStatementAt(rest, q);
    if TokenAt(rest, q).tokenType != EOF && here.Some? {
      ParseFromShift(pre, rest, here.value.last + 1);
      assert |pre| + here.value.last + 1 == |pre| + (here.value.last + 1);
    }
  }

  /** A binding `let NAME = <value tokens>;`, as a token sequence. */
  datatype Binding = Binding(name: string, value: seq<Token>)

  predicate NoSemicolon(ts: seq<Token>) {
    forall k :: 0 <= k < |ts| ==> ts[k].tokenType != SEMICOLON
  }

  function LetTokens(b: Binding): seq<Token> {
    [Token(LET, "let"), Token(IDENT, b.name), Token(ASSIGN, "=")] + b.value + [Token(SEMICOLON, ";")]
  }

  function EmitLets(bs: seq<Binding>): seq<Token> {
    if bs == [] then [] else LetTokens(bs[0]) + EmitLets(bs[1..])
  }

  function LetStatementOf(b: Binding): Statement {
    Let(Token(LET, "let"), Some(Identifier(Token(IDENT, b.name), b.name)), None)
  }

  function LetStatementsOf(bs: seq<Binding>): seq<Statement> {
    if bs == [] then [] else [LetStatementOf(bs[0])] + LetStatementsOf(bs[1..])
  }

  /** Parsing the tokens of a sequence of let bindings gives back one Let per
      binding, in source order, each carrying its name; the value tokens
      are skipped whatever they are, as long as they hold no SEMICOLON. */
  lemma {:induction false} ParseEmittedLets(bs: seq<Binding>)
    requires forall i :: 0 <= i < |bs| ==> NoSemicolon(bs[i].value)
    ensures ParseFrom(EmitLets(bs), 0) == Some(LetStatementsOf(bs))
  {
    if bs != [] {
      var b := bs[0];
      var pre := LetTokens(b);
      var rest := EmitLets(bs[1..]);
      var all := pre + rest;
      assert all == EmitLets(bs);
      assert all[0] == Token(LET, "let") && all[1] == Token(IDENT, b.name) && all[2] == Token(ASSIGN, "=");
      assert forall k :: 3 <= k < 3 + |b.value| ==> all[k] == b.value[k - 3];
      assert all[3 + |b.value|] == Token(SEMICOLON, ";");
      NextSemicolonIs(all, 2, 3 + |b.value|);
      assert ParseStatementAt(all, 0) == Some(Step(Some(LetStatementOf(b)), |pre| - 1));
      ParseEmittedLets(bs[1..]);
      ParseFromShift(pre, rest, 0);
    }
  }

  /** The parser test: `let x = 5;` primes the window with LET and IDENT
      and parses to a single let statement named x. */
  method ParseLetExample() returns (curType: TokenType, peekType: TokenType, program: Program)
    ensures curType == LET && peekType == IDENT
    ensures |program.statements| == 1
    ensures program.statements[0].Let? && program.statements[0].token.tokenType == LET
    ensures program.statements[0].name == Some(Identifier(Token(IDENT, "x"), "x"))
  {
    var binding := Binding("x", [Token(INT, "5")]);
    var tokens := [Token(LET, "let"), Token(IDENT, "x"), Token(ASSIGN, "="), Token(INT, "5"), Token(SEMICOLON, ";")];
    assert EmitLets([binding]) == tokens by {
      assert EmitLets([binding][1..]) == [];
    }
    ParseEmittedLets([binding]);
    assert LetStatementsOf([binding]) == [LetStatementOf(binding)] by {
      assert LetStatementsOf([binding][1..]) == [];
    }
    var parser := new Parser(tokens);
    curType, peekType := parser.curToken.tokenType, parser.peekToken.tokenType;
    program := parser.ParseProgram();
  }

  /** Without the closing `;` the skip loop never ends: `let x = 5` does not parse. */
  lemma MissingSemicolonDiverges()
    ensures ParseFrom([Token(LET, "let"), Token(IDENT, "x"), Token(ASSIGN, "="), Token(INT, "5")], 0) == None
  {
    var tokens := [Token(LET, "let"), Token(IDENT, "x"), Token(ASSIGN, "="), Token(INT, "5")];
    assert NextSemicolon(tokens, 2) == None;
  }
}
