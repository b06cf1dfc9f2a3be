/**
  * Scanner helpers: the token model, and `LookaheadChars`, a character
  * iterator with one character of lookahead beyond its current `peek`.
  */
module Tokens {
  import opened Wrappers

  datatype TokenType =
    // single characters
    | TokenLeftParen | TokenRightParen | TokenLeftBrace | TokenRightBrace
    | TokenComma | TokenDot | TokenMinus | TokenPlus | TokenSemiColon
    | TokenSlash | TokenStar
    // keywords
    | TokenPrint | TokenReturn | TokenIf | TokenElse | TokenTrue | TokenFalse
    | TokenAnd | TokenOr | TokenPipe | TokenFunc | TokenLet
    // literals
    | TokenInteger | TokenFloat | TokenString | TokenIdent
    // comparisons
    | TokenEqual | TokenEqEq | TokenNotEq | TokenNot
    | TokenLess | TokenLessEq | TokenGt | TokenGtEq
    // miscellaneous
    | TokenComment | TokenError | TokenLambda | TokenInfix

  datatype Token = Token(tokenType: TokenType, content: string, line: nat)

  /** `Token::err`: the error token for source line `line`, with no content. */
  function ErrorToken(line: nat): (t: Token)
    ensures t.tokenType == TokenError && t.content == "" && t.line == line
    ensures IsErr(t)
  {
    Token(TokenError, "", line)
  }

  /** `Token::is_err`: whether the token is an error token. */
  function IsErr(t: Token): (b: bool)
    ensures b <==> t.tokenType == TokenError
  {
    match t.tokenType
    case TokenError => true
    case _ => false
  }

  /** The character at `i`, if there is one. */
  function At(s: string, i: nat): Option<char>
  {
    if i < |s| then Some(s[i]) else None
  }

  class LookaheadChars {
    const source: string
    /** How far the inner character iterator has got: `source[chars..]` is still to come from it. */
    var chars: nat
    /** The current character; the inner iterator is always one step ahead of it. */
    var peek: Option<char>

    ghost predicate Valid()
      reads this
    {
      && chars <= |source|
      && (peek.Some? ==> 0 < chars && peek.value == source[chars - 1])
      && (peek.None? ==> chars == |source|)
    }

    /** The index in `source` of the current character; |source| once the input is used up. */
    ghost function Position(): nat
      reads this
      requires Valid()
    {
      if peek.Some? then chars - 1 else |source|
    }

    /** `LookaheadChars::new`: `peek` is the first character, if any. */
    constructor (source: string)
      ensures Valid() && this.source == source
      ensures Position() == 0
      ensures peek == At(source, 0)
    {
      this.source := source;
      if |source| > 0 {
        peek := Some(source[0]);
        chars := 1;
      } else {
        peek := None;
        chars := 0;
      }
    }

    /** `peek`: the current character, without consuming it. */
    function Peek(): (c: Option<char>)
      reads this
      requires Valid()
      ensures c == At(source, Position())
    {
      peek
    }

    /** `peek_next`: the character after the current one, without consuming anything. */
    function PeekNext(): (c: Option<char>)
      reads this
      requires Valid()
      ensures c == At(source, Position() + 1)
    {
      if chars < |source| then Some(source[chars]) else None
    }

    /** `next`: returns the current character and moves on to the following one; None forever once used up. */
    method Next() returns (c: Option<char>)
      requires Valid()
      modifies this
      ensures Valid()
      ensures c == At(source, old(Position()))
      ensures Position() == if old(Position()) < |source| then old(Position()) + 1 else |source|
    {
      var nxt := peek;
      if chars < |source| {
        peek := Some(source[chars]);
        chars := chars + 1;
      } else {
        peek := None;
      }
      return nxt;
    }
  }

  /**
    * Drains an iterator over `source`: `next` yields every character in order,
    * and a call after the end still yields None.
    */
  method CollectChars(source: string) returns (out: string, after: Option<char>)
    ensures out == source
    ensures after == None
  {
    var it := new LookaheadChars(source);
    out := [];
    var c := it.Next();
    while c.Some?
      invariant it.Valid() && it.source == source
      invariant |out| <= |source| && c == At(source, |out|)
      invariant it.Position() == if |out| < |source| then |out| + 1 else |source|
      invariant out == source[..|out|]
      decreases |source| - |out|
    {
      out := out + [c.value];
      c := it.Next();
    }
    after := it.Next();
  }

  /** The in-file test on "23": (peek, peek_next) at the start, after one, two and four calls to `next`. */
  method LookaheadExample() returns (observed: seq<(Option<char>, Option<char>)>)
    ensures observed == [(Some('2'), Some('3')), (Some('3'), None), (None, None), (None, None)]
  {
    var s := new LookaheadChars("23");
    observed := [(s.Peek(), s.PeekNext())];
    var _ := s.Next();
    observed := observed + [(s.Peek(), s.PeekNext())];
    var _ := s.Next();
    observed := observed + [(s.Peek(), s.PeekNext())];
    var _ := s.Next();
    var _ := s.Next();
    observed := observed + [(s.Peek(), s.PeekNext())];
  }
}
