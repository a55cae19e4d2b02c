/** Lexer.kt: a cursor over the source text that classifies one character per
    call. This snapshot only knows the single-character tokens. */
module Lexing {
  import opened Wrappers
  import opened Tokens

  /** The character `readChar` loads for index i: the source character, or
      the NUL sentinel once the index is past the end. */
  function CharAt(source: string, i: nat): char {
    if |source| <= i then '\0' else source[i]
  }

  /** The type whose literal is the one-character string `[c]`, as
      `TokenType.values().first { it.literal == ch.toString() }` finds it;
      None where `first` throws. */
  function Classify(c: char): Option<TokenType> {
    FirstWithLiteral(AllTypes, [c])
  }

  /** The characters that do classify: exactly the fourteen one-character literals. */
  const OperatorChars: string := "=+-*,;(){}/!<>"

  class Lexer {
    const source: string
    var position: nat
    var readPosition: nat
    var ch: char

    /** The cursor invariant established by `init` and kept by `readChar`. */
    ghost predicate Valid()
      reads this
    {
      readPosition == position + 1 && ch == CharAt(source, position)
    }

    /** `init { readChar() }`: the cursor starts on the first character. */
    constructor (source: string)
      ensures this.source == source
      ensures Valid() && position == 0 && readPosition == 1
      ensures ch == if source == [] then '\0' else source[0]
    {
      this.source := source;
      position := 0;
      readPosition := 0;
      ch := '\0';
      new;
      ReadChar();
    }

    /** `readChar`: load the character at readPosition and step past it. */
    method ReadChar()
      modifies this`position, this`readPosition, this`ch
      ensures position == old(readPosition) && readPosition == old(readPosition) + 1
      ensures Valid()
      ensures old(Valid()) ==> position == old(position) + 1
      ensures position < |source| ==> ch == source[position]
      ensures position >= |source| ==> ch == '\0'
    {
      if |source| <= readPosition {
        ch := '\0';
      } else {
        ch := source[readPosition];
      }
      position := readPosition;
      readPosition := readPosition + 1;
    }

    /** `getNextToken`: the token of the current character, then one step on.
        Only the fourteen operator characters have a type; for any other
        character (whitespace, letters, digits, the NUL sentinel) the `first`
        call throws, modelled as None, before the cursor moves. */
    method GetNextToken() returns (token: Option<Token>)
      requires Valid()
      modifies this`position, this`readPosition, this`ch
      ensures Valid()
      ensures old(ch) in OperatorChars ==>
                var t := OperatorType(old(ch));
                token == Some(Token(t, [old(ch)])) && t in SingleCharTypes &&
                position == old(position) + 1
      ensures old(ch) !in OperatorChars ==>
                token == None && position == old(position) && ch == old(ch)
    {
      var tokenType := Classify(ch);
      ClassifyDomain(ch);
      if tokenType.None? {
        return None;
      }
      var t := tokenType.value;
      ClassifyMatchesLiteral(ch, t);
      ClassifyMatchesLiteral(ch, OperatorType(ch));
      ReadChar();
      token := Some(Token(t, Literal(t)));
    }

    /** `tokenize`: a stub that returns no tokens whatever the source. */
    method Tokenize() returns (tokens: seq<Token>)
      ensures tokens == []
    {
      tokens := [];
    }
  }

  /** A character classifies as t exactly when t's literal is that character. */
  lemma {:induction false} ClassifyMatchesLiteral(c: char, t: TokenType)
    ensures Classify(c) == Some(t) <==> Literal(t) == [c]
  {
    FirstWithLiteralFinds([c], t);
  }

  /** A one-character literal is one of the operator characters. */
  lemma SingleCharLiteral(t: TokenType)
    requires |Literal(t)| == 1
    ensures Literal(t)[0] in OperatorChars
  {
  }

  /** The type an operator character is the literal of. */
  function OperatorType(c: char): (t: TokenType)
    requires c in OperatorChars
    ensures Literal(t) == [c]
  {
    if c == '=' then ASSIGN else if c == '+' then PLUS else if c == '-' then MINUS
    else if c == '*' then ASTERISK else if c == ',' then COMMA else if c == ';' then SEMICOLON
    else if c == '(' then LPAREN else if c == ')' then RPAREN else if c == '{' then LBRACE
    else if c == '}' then RBRACE else if c == '/' then SLASH else if c == '!' then BANG
    else if c == '<' then LT else GT
  }

  /** Only the fourteen operator characters classify, and only to the
      one-character types: never EOF, ILLEGAL, IDENT, INT, EQ, NOT_EQ or a
      keyword. Whitespace, letters, digits and the NUL sentinel all throw. */
  lemma {:induction false} ClassifyDomain(c: char)
    ensures Classify(c).Some? <==> c in OperatorChars
    ensures Classify(c).Some? ==> Classify(c).value in SingleCharTypes
  {
    var r := Classify(c);
    if r.Some? {
      ClassifyMatchesLiteral(c, r.value);
      LiteralLength(r.value);
      SingleCharLiteral(r.value);
    } else if c in OperatorChars {
      ClassifyMatchesLiteral(c, OperatorType(c));
    }
  }

  /** The lexer test on "=+,;": four calls give ASSIGN, PLUS, COMMA and SEMICOLON. */
  method LexBasicSpecialCharacters() returns (tokens: seq<Option<Token>>)
    ensures tokens == [Some(Token(ASSIGN, "=")), Some(Token(PLUS, "+")),
                       Some(Token(COMMA, ",")), Some(Token(SEMICOLON, ";"))]
  {
    var source := "=+,;";
    assert source[0] == '=' && source[1] == '+' && source[2] == ',' && source[3] == ';';
    SampleOperators();
    var lexer := new Lexer(source);
    var a := lexer.GetNextToken();
    assert a == Some(Token(ASSIGN, "="));
    var b := lexer.GetNextToken();
    assert b == Some(Token(PLUS, "+"));
    var c := lexer.GetNextToken();
    assert c == Some(Token(COMMA, ","));
    var d := lexer.GetNextToken();
    tokens := [a, b, c, d];
  }

  /** The four operator characters of the lexer test and their types. */
  lemma SampleOperators()
    ensures '=' in OperatorChars && OperatorType('=') == ASSIGN
    ensures '+' in OperatorChars && OperatorType('+') == PLUS
    ensures ',' in OperatorChars && OperatorType(',') == COMMA
    ensures ';' in OperatorChars && OperatorType(';') == SEMICOLON
  {
    assert OperatorChars[0] == '=' && OperatorChars[1] == '+';
    assert OperatorChars[4] == ',' && OperatorChars[5] == ';';
  }
}
