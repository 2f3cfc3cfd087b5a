/**
  The token vocabulary shared by the lexer and the parser, and the keyword
  table that turns the spelling of a scanned identifier into a keyword token.
 */
module Tokens {

  /** A signed 64-bit integer, the payload of an integer literal. */
  type I64 = x: int | -0x8000_0000_0000_0000 <= x < 0x8000_0000_0000_0000

  const I64Max: int := 0x7FFF_FFFF_FFFF_FFFF

  /**
    One token. Integer literals carry their value; floating-point literals
    carry their literal text (the numeric value is not modelled).
   */
  datatype Token =
    | LeftParen | RightParen | LeftBrace | RightBrace | Comma | Const | Dot
    | Minus | Plus | Semicolon | Slash | Star
    | Bang | BangEqual | Equal | EqualEqual | Greater | GreaterEqual | Less | LessEqual
    | Identifier(name: string)
    | String(text: string)
    | Int(value: I64)
    | Float(literal: string)
    | And | Else | False | For | If | Null | Or | Proc | Return | Struct | True | Var | While
    | EOF

  /** The fourteen spellings that the keyword table recognises. */
  const KeywordSpellings: set<string> :=
    {"and", "const", "else", "false", "for", "if", "null", "or", "proc",
     "return", "struct", "true", "var", "while"}

  /** The tokens produced by the keyword table. */
  predicate IsKeyword(t: Token) {
    t.And? || t.Const? || t.Else? || t.False? || t.For? || t.If? || t.Null? ||
    t.Or? || t.Proc? || t.Return? || t.Struct? || t.True? || t.Var? || t.While?
  }

  /**
    The keyword table: an identifier whose text is one of the fourteen
    spellings becomes that keyword; any other identifier is rebuilt with the
    same text; every other token is left alone.
   */
  function TryConvertToKeyword(t: Token): (r: Token)
    ensures !t.Identifier? ==> r == t
    ensures t.Identifier? ==> (r.Identifier? <==> t.name !in KeywordSpellings)
    ensures t.Identifier? && r.Identifier? ==> r == t
    ensures t.Identifier? && !r.Identifier? ==> IsKeyword(r)
  {
    match t
    case Identifier(literal) =>
      (match literal
      case "and"    => And
      case "const"  => Const
      case "else"   => Else
      case "false"  => False
      case "for"    => For
      case "if"     => If
      case "null"   => Null
      case "or"     => Or
      case "proc"   => Proc
      case "return" => Return
      case "struct" => Struct
      case "true"   => True
      case "var"    => Var
      case "while"  => While
      case _        => Identifier(literal))
    case _ => t
  }

  /** The spelling of a keyword token: the partner of the keyword table. */
  function KeywordSpelling(t: Token): (s: string)
    requires IsKeyword(t)
    ensures s in KeywordSpellings
  {
    match t
    case And => "and"
    case Const => "const"
    case Else => "else"
    case False => "false"
    case For => "for"
    case If => "if"
    case Null => "null"
    case Or => "or"
    case Proc => "proc"
    case Return => "return"
    case Struct => "struct"
    case True => "true"
    case Var => "var"
    case While => "while"
  }

  /** Spelling a keyword and converting the spelling gives the keyword back. */
  lemma KeywordRoundTrip(t: Token)
    requires IsKeyword(t)
    ensures TryConvertToKeyword(Identifier(KeywordSpelling(t))) == t
  {
  }

  /** A spelling that converts to a keyword is exactly that keyword's spelling. */
  lemma SpellingRoundTrip(s: string)
    requires s in KeywordSpellings
    ensures IsKeyword(TryConvertToKeyword(Identifier(s)))
    ensures KeywordSpelling(TryConvertToKeyword(Identifier(s))) == s
  {
  }

  /** Converting twice is the same as converting once. */
  lemma ConvertIdempotent(t: Token)
    ensures TryConvertToKeyword(TryConvertToKeyword(t)) == TryConvertToKeyword(t)
  {
  }

  /** Matching is exact and case-sensitive. */
  lemma ConvertCaseSensitive()
    ensures TryConvertToKeyword(Identifier("Var")) == Identifier("Var")
    ensures TryConvertToKeyword(Identifier("var")) == Var
    ensures TryConvertToKeyword(Identifier("variable")) == Identifier("variable")
  {
  }
}
