/** Token.kt: the token vocabulary, each type carrying its literal text, the
    token record, and the keyword lookup. */
module Tokens {
  import opened Wrappers

  /** `enum class TokenType`, constructors in declaration order. */
  datatype TokenType =
    | ILLEGAL | EOF
    | ASSIGN | PLUS | MINUS | ASTERISK
    | COMMA | SEMICOLON | LPAREN | RPAREN | LBRACE | RBRACE
    | SLASH | BANG | LT | GT
    | EQ | NOT_EQ
    | FUNCTION | LET
    | IDENT
    | INT

  /** The `literal` each token type is declared with. */
  function Literal(t: TokenType): string {
    match t
    case ILLEGAL => "ILLEGAL"
    case EOF => "EOF"
    case ASSIGN => "="
    case PLUS => "+"
    case MINUS => "-"
    case ASTERISK => "*"
    case COMMA => ","
    case SEMICOLON => ";"
    case LPAREN => "("
    case RPAREN => ")"
    case LBRACE => "{"
    case RBRACE => "}"
    case SLASH => "/"
    case BANG => "!"
    case LT => "<"
    case GT => ">"
    case EQ => "=="
    case NOT_EQ => "!="
    case FUNCTION => "FUNCTION"
    case LET => "let"
    case IDENT => "IDENT"
    case INT => "INT"
  }

  /** `TokenType.values()`: every type once, in declaration order. */
  const AllTypes: seq<TokenType> :=
    [ILLEGAL, EOF, ASSIGN, PLUS, MINUS, ASTERISK, COMMA, SEMICOLON, LPAREN, RPAREN,
     LBRACE, RBRACE, SLASH, BANG, LT, GT, EQ, NOT_EQ, FUNCTION, LET, IDENT, INT]

  /** The fourteen types whose literal is a single character. */
  const SingleCharTypes: set<TokenType> :=
    {ASSIGN, PLUS, MINUS, ASTERISK, COMMA, SEMICOLON, LPAREN, RPAREN, LBRACE, RBRACE,
     SLASH, BANG, LT, GT}

  /** `data class Token`: equality is structural, as for any Dafny datatype. */
  datatype Token = Token(tokenType: TokenType, literal: string)

  /** `illegalToken`, the placeholder the parser's window starts with. */
  const IllegalToken: Token := Token(ILLEGAL, Literal(ILLEGAL))

  /** `keywords`. */
  const Keywords: map<string, TokenType> := map["fn" := FUNCTION, "let" := LET]

  /** `lookupTypeFromLiteral`: a keyword's type, IDENT for any other word. */
  function LookupTypeFromLiteral(literal: string): (r: TokenType)
    ensures r == FUNCTION <==> literal == "fn"
    ensures r == LET <==> literal == "let"
    ensures r == IDENT <==> literal != "fn" && literal != "let"
  {
    if literal in Keywords then Keywords[literal] else IDENT
  }

  /** Kotlin's `first { it.literal == literal }` over a list of types, with the
      throwing case as None. */
  function FirstWithLiteral(types: seq<TokenType>, literal: string): (r: Option<TokenType>)
    ensures r.None? <==> forall t :: t in types ==> Literal(t) != literal
    ensures r.Some? ==> exists i :: 0 <= i < |types| && types[i] == r.value &&
                          Literal(r.value) == literal &&
                          forall j :: 0 <= j < i ==> Literal(types[j]) != literal
  {
    if types == [] then None
    else if Literal(types[0]) == literal then Some(types[0])
    else
      var r := FirstWithLiteral(types[1..], literal);
      assert forall t :: t in types ==> t == types[0] || t in types[1..];
      if r.Some? then
        var i :| 0 <= i < |types[1..]| && types[1..][i] == r.value &&
                 Literal(r.value) == literal &&
                 forall j :: 0 <= j < i ==> Literal(types[1..][j]) != literal;
        assert types[i + 1] == r.value;
        r
      else r
  }

  /** `illegalToken` has type ILLEGAL and literal "ILLEGAL". */
  lemma IllegalTokenShape()
    ensures IllegalToken.tokenType == ILLEGAL && IllegalToken.literal == "ILLEGAL"
  {
  }

  /** Two tokens are equal exactly when type and literal both are. */
  lemma TokenEquality(a: Token, b: Token)
    ensures a == b <==> a.tokenType == b.tokenType && a.literal == b.literal
  {
  }

  /** `values()` lists every type. */
  lemma AllTypesComplete(t: TokenType)
    ensures t in AllTypes
  {
  }

  /** No two token types share a literal, so a literal names at most one type. */
  lemma LiteralInjective(a: TokenType, b: TokenType)
    requires Literal(a) == Literal(b)
    ensures a == b
  {
  }

  /** The literal is one character long exactly for the fourteen operator and
      punctuation types; every other type's literal has at least two. */
  lemma LiteralLength(t: TokenType)
    ensures |Literal(t)| == 1 <==> t in SingleCharTypes
    ensures t !in SingleCharTypes ==> |Literal(t)| >= 2
  {
  }

  /** The keyword table is not the inverse of the literal table: only LET's
      literal looks up as itself, FUNCTION's literal "FUNCTION" is an
      identifier, and "fn" is the word that gives FUNCTION. */
  lemma LookupOfLiteral(t: TokenType)
    ensures LookupTypeFromLiteral(Literal(t)) == if t == LET then LET else IDENT
  {
  }

  /** Searching all types for a literal finds the one type declared with it. */
  lemma {:induction false} FirstWithLiteralOfType(t: TokenType)
    ensures FirstWithLiteral(AllTypes, Literal(t)) == Some(t)
  {
    AllTypesComplete(t);
    var r := FirstWithLiteral(AllTypes, Literal(t));
    LiteralInjective(r.value, t);
  }

  /** The search succeeds exactly on the literals of the table. */
  lemma {:induction false} FirstWithLiteralFinds(literal: string, t: TokenType)
    ensures FirstWithLiteral(AllTypes, literal) == Some(t) <==> Literal(t) == literal
  {
    if Literal(t) == literal {
      FirstWithLiteralOfType(t);
    }
  }
}
