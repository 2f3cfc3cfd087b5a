/**
  The lexer's partner: printing a token list with a space after each token
  and scanning the text gives the same token list back. The space matters:
  after `!`, `=`, `>`, `<` and `/` the scanner always moves two bytes, so a
  byte glued to one of them is lost (`x=1` scans to `x =`; see
  `GluedOperandDropped`).
 */
module LexerRoundTrip {
  import opened Wrappers
  import opened Tokens
  import opened Lexer

  // ---------------------------------------------------------------------
  // Text
  // ---------------------------------------------------------------------

  /** Every character fits in one byte. */
  predicate IsByteText(s: string) {
    forall k :: 0 <= k < |s| ==> s[k] as int < 256
  }

  /** The bytes of a one-byte-per-character text. */
  function Bytes(s: string): (bs: seq<byte>)
    requires IsByteText(s)
    ensures |bs| == |s|
    ensures forall k :: 0 <= k < |s| ==> bs[k] as char == s[k]
  {
    seq(|s|, k requires 0 <= k < |s| => s[k] as int)
  }

  /** The text `w` occurs in the source starting at index `i`. */
  predicate Occurs(src: seq<byte>, i: nat, w: string) {
    i + |w| <= |src| && forall k :: 0 <= k < |w| ==> src[i + k] as char == w[k]
  }

  lemma OccursSplit(src: seq<byte>, i: nat, u: string, v: string)
    requires Occurs(src, i, u + v)
    ensures Occurs(src, i, u) && Occurs(src, i + |u|, v)
  {
    forall k | 0 <= k < |u| ensures src[i + k] as char == u[k] {
      assert (u + v)[k] == u[k];
    }
    forall k | 0 <= k < |v| ensures src[i + |u| + k] as char == v[k] {
      assert (u + v)[|u| + k] == v[k];
    }
  }

  lemma OccursIndex(src: seq<byte>, i: nat, w: string, k: nat)
    requires Occurs(src, i, w) && k < |w|
    ensures src[i + k] as char == w[k]
  {
  }

  /** A text followed by a space: the byte after the text is that space. */
  lemma SpaceAfter(src: seq<byte>, i: nat, w: string)
    requires Occurs(src, i, w + " ")
    ensures Occurs(src, i, w) && i + |w| < |src| && src[i + |w|] as char == ' '
  {
    OccursSplit(src, i, w, " ");
    OccursIndex(src, i + |w|, " ", 0);
  }

  lemma OccursChars(src: seq<byte>, i: nat, w: string)
    requires Occurs(src, i, w)
    ensures Chars(src[i..i + |w|]) == w
  {
    var cs := Chars(src[i..i + |w|]);
    forall k | 0 <= k < |w| ensures cs[k] == w[k] {
      assert src[i..i + |w|][k] == src[i + k];
    }
  }

  function DigitChar(d: nat): (c: char)
    requires d < 10
    ensures IsNumeric(c) && DigitValue(c) == d
  {
    ('0' as int + d) as char
  }

  /** The decimal text of a natural number: the partner of `DecimalValue`. */
  function DecimalText(v: nat): (s: string)
    ensures |s| > 0 && IsDigitText(s)
    ensures DecimalValue(s) == v
  {
    if v < 10 then
      var s := [DigitChar(v)];
      assert s[..0] == [];
      s
    else
      var prefix := DecimalText(v / 10);
      var s := prefix + [DigitChar(v % 10)];
      assert s[..|s| - 1] == prefix;
      s
  }

  /** A float literal as the scanner produces it: digits, a dot, digits. */
  predicate IsFloatLiteral(lit: string) {
    exists d :: 0 < d < |lit| && lit[d] == '.' && IsDigitText(lit[..d]) && IsDigitText(lit[d + 1..])
  }

  /** The text of an identifier: a letter or `_`, then letters, digits and `_`. */
  predicate IsIdentifierText(n: string) {
    |n| > 0 && IsAlpha(n[0]) && forall k :: 0 <= k < |n| ==> IsAlphaNumeric(n[k])
  }

  /** The operators after which the scanner always moves two bytes. */
  predicate IsLookaheadSingle(t: Token) {
    t.Bang? || t.Equal? || t.Greater? || t.Less? || t.Slash?
  }

  // ---------------------------------------------------------------------
  // Printing
  // ---------------------------------------------------------------------

  /** Tokens that have a spelling the scanner reads back as the same token. */
  predicate Printable(t: Token) {
    t != EOF &&
    (t.Identifier? ==> IsIdentifierText(t.name) && t.name !in KeywordSpellings) &&
    (t.String? ==> forall k :: 0 <= k < |t.text| ==> t.text[k] != '"' && t.text[k] as int < 256) &&
    (t.Int? ==> t.value >= 0) &&
    (t.Float? ==> IsFloatLiteral(t.literal))
  }

  /** Punctuation and two-character operators: tokens spelled without letters or digits. */
  predicate IsSymbol(t: Token) {
    t.LeftParen? || t.RightParen? || t.LeftBrace? || t.RightBrace? || t.Comma? || t.Dot? ||
    t.Minus? || t.Plus? || t.Semicolon? || t.Star? ||
    t.BangEqual? || t.EqualEqual? || t.GreaterEqual? || t.LessEqual?
  }

  /** A float literal is spelled with digits and a dot only. */
  lemma FloatLiteralBytes(lit: string)
    requires IsFloatLiteral(lit)
    ensures |lit| > 0 && IsByteText(lit)
  {
    var d :| 0 < d < |lit| && lit[d] == '.' && IsDigitText(lit[..d]) && IsDigitText(lit[d + 1..]);
    forall k | 0 <= k < |lit| ensures lit[k] as int < 256 {
      if k < d {
        assert lit[..d][k] == lit[k];
      } else if k > d {
        assert lit[d + 1..][k - d - 1] == lit[k];
      }
    }
  }

  /** The text the printer writes for a token. */
  function Spelling(t: Token): (s: string)
    requires Printable(t)
    ensures |s| > 0 && IsByteText(s)
  {
    match t
    case LeftParen => "("
    case RightParen => ")"
    case LeftBrace => "{"
    case RightBrace => "}"
    case Comma => ","
    case Dot => "."
    case Minus => "-"
    case Plus => "+"
    case Semicolon => ";"
    case Slash => "/"
    case Star => "*"
    case Bang => "!"
    case BangEqual => "!="
    case Equal => "="
    case EqualEqual => "=="
    case Greater => ">"
    case GreaterEqual => ">="
    case Less => "<"
    case LessEqual => "<="
    case Identifier(n) => n
    case String(s) => "\"" + s + "\""
    case Int(v) => DecimalText(v)
    case Float(lit) => FloatLiteralBytes(lit); lit
    case And | Const | Else | False | For | If | Null | Or | Proc | Return | Struct | True | Var | While =>
      KeywordSpelling(t)
    case EOF => assert false; ""
  }

  predicate AllPrintable(ts: seq<Token>)
    decreases |ts|
  {
    ts == [] || (Printable(ts[0]) && AllPrintable(ts[1..]))
  }

  /** Each token's spelling followed by one space. */
  function Print(ts: seq<Token>): (s: string)
    requires AllPrintable(ts)
    ensures IsByteText(s)
  {
    if ts == [] then "" else Spelling(ts[0]) + " " + Print(ts[1..])
  }

  // ---------------------------------------------------------------------
  // Scanning one printed token
  // ---------------------------------------------------------------------

  lemma SpaceStep(src: seq<byte>, j: nat, line: nat, acc: seq<Token>)
    requires j < |src| && src[j] as char == ' '
    ensures Tokenize(src, j, line, acc) == Tokenize(src, j + 1, line, acc)
  {
    assert ScanToken(src, j, line) == Ok(Scan([], j + 1, line));
    assert acc + [] == acc;
  }

  lemma TokenStep(src: seq<byte>, i: nat, line: nat, acc: seq<Token>, t: Token, j: nat)
    requires i < |src| && j <= |src| + 1
    requires ScanToken(src, i, line) == Ok(Scan([t], j, line))
    ensures Tokenize(src, i, line, acc) == Tokenize(src, j, line, acc + [t])
  {
  }

  /** A run that ends right before a byte outside it. */
  lemma RunOfText(src: seq<byte>, i: nat, w: string, inRun: char -> bool, stop: char)
    requires Occurs(src, i, w + [stop])
    requires forall k :: 0 <= k < |w| ==> inRun(w[k])
    requires !inRun(stop)
    ensures Occurs(src, i, w) && src[i + |w|] as char == stop
    ensures RunEnd(src, i, inRun) == i + |w|
  {
    OccursSplit(src, i, w, [stop]);
    OccursIndex(src, i + |w|, [stop], 0);
    forall k | i <= k < i + |w| ensures inRun(src[k] as char) {
      OccursIndex(src, i, w, k - i);
    }
    RunEndUnique(src, i, inRun, i + |w|);
  }

  /** An identifier or keyword spelling followed by a space. */
  lemma ScanWord(src: seq<byte>, i: nat, line: nat, n: string)
    requires IsIdentifierText(n) && Occurs(src, i, n + " ")
    ensures ScanToken(src, i, line) == Ok(Scan([TryConvertToKeyword(Identifier(n))], i + |n|, line))
  {
    RunOfText(src, i, n, IsAlphaNumeric, ' ');
    OccursChars(src, i, n);
    OccursIndex(src, i, n, 0);
    ScanTokenWord(src, i, line);
  }

  /** A decimal text followed by a space is a digit run that ends at the space. */
  lemma DecimalRun(src: seq<byte>, i: nat, ds: string)
    requires IsDigitText(ds) && |ds| > 0 && Occurs(src, i, ds + " ")
    ensures i + |ds| < |src| && IsNumeric(PeekAt(src, i))
    ensures RunEnd(src, i, IsNumeric) == i + |ds| && PeekAt(src, i + |ds|) == ' '
    ensures Chars(src[i..i + |ds|]) == ds
  {
    RunOfText(src, i, ds, IsNumeric, ' ');
    OccursChars(src, i, ds);
    OccursIndex(src, i, ds, 0);
  }

  /** The number scanner reads a decimal text followed by a space as its value. */
  lemma NumberOfDecimal(src: seq<byte>, i: nat, v: I64)
    requires v >= 0 && Occurs(src, i, DecimalText(v) + " ")
    ensures IsNumeric(PeekAt(src, i))
    ensures ScanNumber(src, i) == Ok(Lexeme(Int(v), i + |DecimalText(v)|))
  {
    var ds := DecimalText(v);
    DecimalRun(src, i, ds);
    assert ParseI64(ds) == Some(v);
    ScanNumberInt(src, i, i + |ds|);
  }

  /** A decimal number followed by a space. */
  lemma ScanInt(src: seq<byte>, i: nat, line: nat, v: I64)
    requires v >= 0 && Occurs(src, i, DecimalText(v) + " ")
    ensures ScanToken(src, i, line) == Ok(Scan([Int(v)], i + |DecimalText(v)|, line))
  {
    NumberOfDecimal(src, i, v);
    ScanTokenNumber(src, i, line);
  }

  /** The number scanner reads a float literal followed by a space as that literal. */
  lemma NumberOfFloat(src: seq<byte>, i: nat, lit: string)
    requires IsFloatLiteral(lit) && Occurs(src, i, lit + " ")
    ensures IsNumeric(PeekAt(src, i))
    ensures ScanNumber(src, i) == Ok(Lexeme(Float(lit), i + |lit|))
  {
    var d :| 0 < d < |lit| && lit[d] == '.' && IsDigitText(lit[..d]) && IsDigitText(lit[d + 1..]);
    NumberOfDotAt(src, i, lit, d);
  }

  /** The same, for the literal whose dot is at `d`. */
  lemma NumberOfDotAt(src: seq<byte>, i: nat, lit: string, d: nat)
    requires 0 < d < |lit| && lit[d] == '.' && IsDigitText(lit[..d]) && IsDigitText(lit[d + 1..])
    requires Occurs(src, i, lit + " ")
    ensures IsNumeric(PeekAt(src, i))
    ensures ScanNumber(src, i) == Ok(Lexeme(Float(lit), i + |lit|))
  {
    var a, b := lit[..d], lit[d + 1..];
    assert lit == a + ['.'] + b;
    SpaceAfter(src, i, lit);
    OccursChars(src, i, lit);
    DigitsDotDigitsRuns(src, i, a, b);
    ScanNumberFloat(src, i, i + |a|, i + |lit|);
  }

  /** Where the two digit runs of a printed float literal end. */
  lemma DigitsDotDigitsRuns(src: seq<byte>, i: nat, a: string, b: string)
    requires |a| > 0 && IsDigitText(a) && IsDigitText(b)
    requires Occurs(src, i, a + ['.'] + b + " ")
    ensures IsNumeric(PeekAt(src, i))
    ensures i + |a| <= |src| && RunEnd(src, i, IsNumeric) == i + |a| && PeekAt(src, i + |a|) == '.'
    ensures RunEnd(src, i + |a| + 1, IsNumeric) == i + |a| + 1 + |b|
  {
    assert a + ['.'] + b + " " == (a + ['.']) + (b + " ");
    OccursSplit(src, i, a + ['.'], b + " ");
    DigitRun(src, i, a, '.');
    OccursIndex(src, i, a, 0);
    DigitRun(src, i + |a| + 1, b, ' ');
  }

  lemma DigitRun(src: seq<byte>, i: nat, w: string, stop: char)
    requires IsDigitText(w) && !IsNumeric(stop) && Occurs(src, i, w + [stop])
    ensures Occurs(src, i, w) && src[i + |w|] as char == stop
    ensures RunEnd(src, i, IsNumeric) == i + |w|
  {
    RunOfText(src, i, w, IsNumeric, stop);
  }

  /** A float literal followed by a space. */
  lemma ScanFloat(src: seq<byte>, i: nat, line: nat, lit: string)
    requires IsFloatLiteral(lit) && Occurs(src, i, lit + " ")
    ensures ScanToken(src, i, line) == Ok(Scan([Float(lit)], i + |lit|, line))
  {
    NumberOfFloat(src, i, lit);
    ScanTokenNumber(src, i, line);
  }

  /** The string scanner reads the bytes up to the closing quote. */
  lemma StringOfText(src: seq<byte>, i: nat, s: string)
    requires forall k :: 0 <= k < |s| ==> s[k] != '"'
    requires Occurs(src, i, s + "\"")
    ensures ScanString(src, i) == Ok(Lexeme(String(s), i + |s| + 1))
  {
    RunOfText(src, i, s, NotQuote, '"');
    OccursChars(src, i, s);
  }

  /** A quoted string followed by a space. */
  lemma ScanQuoted(src: seq<byte>, i: nat, line: nat, s: string)
    requires forall k :: 0 <= k < |s| ==> s[k] != '"'
    requires Occurs(src, i, "\"" + s + "\"" + " ")
    ensures ScanToken(src, i, line) == Ok(Scan([String(s)], i + |s| + 2, line))
  {
    QuotedText(src, i, s);
    StringOfText(src, i + 1, s);
    ScanTokenQuote(src, i, line);
  }

  /** A quoted text opens with a quote and holds the string and its closing quote. */
  lemma QuotedText(src: seq<byte>, i: nat, s: string)
    requires Occurs(src, i, "\"" + s + "\"" + " ")
    ensures PeekAt(src, i) == '"' && Occurs(src, i + 1, s + "\"")
  {
    assert "\"" + s + "\"" + " " == "\"" + (s + "\"") + " ";
    OccursSplit(src, i, "\"" + (s + "\""), " ");
    OccursSplit(src, i, "\"", s + "\"");
    OccursIndex(src, i, "\"", 0);
  }

  /**
    Which token each operator gives: the one spelled by the operator and a
    `=` when `=` follows (not for `/`), and by the operator alone otherwise.
   */
  lemma LookaheadSpelling(c: char, after: char)
    requires c in "!=></"
    ensures Printable(LookaheadToken(c, after))
    ensures Spelling(LookaheadToken(c, after)) == [c] + (if c != '/' && after == '=' then "=" else "")
  {
  }

  /** A one-character operator followed by a space: the scanner steps over both. */
  lemma ScanLookaheadSingle(src: seq<byte>, i: nat, line: nat, t: Token)
    requires IsLookaheadSingle(t) && Occurs(src, i, Spelling(t) + " ")
    ensures ScanToken(src, i, line) == Ok(Scan([t], i + 2, line))
  {
    OccursIndex(src, i, Spelling(t) + " ", 0);
    OccursIndex(src, i, Spelling(t) + " ", 1);
  }

  lemma ScanSymbol(src: seq<byte>, i: nat, line: nat, t: Token)
    requires IsSymbol(t) && Occurs(src, i, Spelling(t))
    ensures ScanToken(src, i, line) == Ok(Scan([t], i + |Spelling(t)|, line))
  {
    OccursIndex(src, i, Spelling(t), 0);
    if |Spelling(t)| == 2 {
      OccursIndex(src, i, Spelling(t), 1);
    }
  }

  /** The scan of a printed token that is not a one-character operator. */
  lemma ScanPrintedWord(src: seq<byte>, i: nat, line: nat, t: Token)
    requires t.Identifier? && Printable(t) && Occurs(src, i, Spelling(t) + " ")
    ensures ScanToken(src, i, line) == Ok(Scan([t], i + |Spelling(t)|, line))
  {
    ScanWord(src, i, line, t.name);
  }

  lemma ScanPrintedInt(src: seq<byte>, i: nat, line: nat, t: Token)
    requires t.Int? && Printable(t) && Occurs(src, i, Spelling(t) + " ")
    ensures ScanToken(src, i, line) == Ok(Scan([t], i + |Spelling(t)|, line))
  {
    ScanInt(src, i, line, t.value);
  }

  lemma ScanPrintedFloat(src: seq<byte>, i: nat, line: nat, t: Token)
    requires t.Float? && Printable(t) && Occurs(src, i, Spelling(t) + " ")
    ensures ScanToken(src, i, line) == Ok(Scan([t], i + |Spelling(t)|, line))
  {
    ScanFloat(src, i, line, t.literal);
  }

  lemma ScanPrintedString(src: seq<byte>, i: nat, line: nat, t: Token)
    requires t.String? && Printable(t) && Occurs(src, i, Spelling(t) + " ")
    ensures ScanToken(src, i, line) == Ok(Scan([t], i + |Spelling(t)|, line))
  {
    ScanQuoted(src, i, line, t.text);
  }

  lemma ScanPrintedKeyword(src: seq<byte>, i: nat, line: nat, t: Token)
    requires IsKeyword(t) && Printable(t) && Occurs(src, i, Spelling(t) + " ")
    ensures ScanToken(src, i, line) == Ok(Scan([t], i + |Spelling(t)|, line))
  {
    SpellingOfKeyword(t);
    ScanKeyword(src, i, line, t);
  }

  lemma SpellingOfKeyword(t: Token)
    requires IsKeyword(t) && Printable(t)
    ensures Spelling(t) == KeywordSpelling(t)
  {
  }

  lemma ScanKeyword(src: seq<byte>, i: nat, line: nat, t: Token)
    requires IsKeyword(t) && Occurs(src, i, KeywordSpelling(t) + " ")
    ensures ScanToken(src, i, line) == Ok(Scan([t], i + |KeywordSpelling(t)|, line))
  {
    KeywordIsWord(t);
    ScanWord(src, i, line, KeywordSpelling(t));
    KeywordRoundTrip(t);
  }

  lemma ScanPrintedSymbol(src: seq<byte>, i: nat, line: nat, t: Token)
    requires IsSymbol(t) && Occurs(src, i, Spelling(t) + " ")
    ensures ScanToken(src, i, line) == Ok(Scan([t], i + |Spelling(t)|, line))
  {
    OccursSplit(src, i, Spelling(t), " ");
    ScanSymbol(src, i, line, t);
  }

  /** The scan of a printed token that is not a one-character operator. */
  lemma ScanPrinted(src: seq<byte>, i: nat, line: nat, t: Token)
    requires Printable(t) && !IsLookaheadSingle(t) && Occurs(src, i, Spelling(t) + " ")
    ensures ScanToken(src, i, line) == Ok(Scan([t], i + |Spelling(t)|, line))
  {
    if t.Identifier? {
      ScanPrintedWord(src, i, line, t);
    } else if t.Int? {
      ScanPrintedInt(src, i, line, t);
    } else if t.Float? {
      ScanPrintedFloat(src, i, line, t);
    } else if t.String? {
      ScanPrintedString(src, i, line, t);
    } else if IsKeyword(t) {
      ScanPrintedKeyword(src, i, line, t);
    } else {
      ScanPrintedSymbol(src, i, line, t);
    }
  }

  /** A printed one-character operator: the scanner moves over it and the space after it. */
  lemma ScanPrintedLookahead(src: seq<byte>, i: nat, line: nat, t: Token)
    requires Printable(t) && IsLookaheadSingle(t) && Occurs(src, i, Spelling(t) + " ")
    ensures i + 2 <= |src| && i + 2 == i + |Spelling(t)| + 1
    ensures ScanToken(src, i, line) == Ok(Scan([t], i + 2, line))
  {
    SpellingOfLookahead(t);
    ScanLookaheadSingle(src, i, line, t);
  }

  lemma SpellingOfLookahead(t: Token)
    requires IsLookaheadSingle(t) && Printable(t)
    ensures |Spelling(t)| == 1
  {
  }

  /** Any other printed token: the scanner stops at the space after it. */
  lemma ScanPrintedSpaced(src: seq<byte>, i: nat, line: nat, t: Token)
    requires Printable(t) && !IsLookaheadSingle(t) && Occurs(src, i, Spelling(t) + " ")
    ensures i + |Spelling(t)| < |src| && src[i + |Spelling(t)|] as char == ' '
    ensures ScanToken(src, i, line) == Ok(Scan([t], i + |Spelling(t)|, line))
  {
    ScanPrinted(src, i, line, t);
    SpaceAfter(src, i, Spelling(t));
  }

  /** One token, then a space: the whole scan moves past both with the token appended. */
  lemma TokenSpaceStep(src: seq<byte>, i: nat, j: nat, line: nat, acc: seq<Token>, t: Token)
    requires i < |src| && j < |src| && src[j] as char == ' '
    requires ScanToken(src, i, line) == Ok(Scan([t], j, line))
    ensures Tokenize(src, i, line, acc) == Tokenize(src, j + 1, line, acc + [t])
  {
    TokenStep(src, i, line, acc, t, j);
    SpaceStep(src, j, line, acc + [t]);
  }

  lemma KeywordIsWord(t: Token)
    requires IsKeyword(t)
    ensures IsIdentifierText(KeywordSpelling(t))
  {
  }

  // ---------------------------------------------------------------------
  // The round trip
  // ---------------------------------------------------------------------

  /** Each token of `ts` is printed at its place from `i` on, and the text ends with the last one. */
  predicate PrintedAt(src: seq<byte>, i: nat, ts: seq<Token>)
    decreases |ts|
  {
    i <= |src| &&
    if ts == [] then i == |src|
    else Printable(ts[0]) && Occurs(src, i, Spelling(ts[0]) + " ") &&
         PrintedAt(src, i + |Spelling(ts[0])| + 1, ts[1..])
  }

  lemma {:induction false} TokenizePrinted(src: seq<byte>, i: nat, line: nat, acc: seq<Token>, ts: seq<Token>)
    requires PrintedAt(src, i, ts)
    ensures Tokenize(src, i, line, acc) == Ok(Lexed(acc + ts, line))
    decreases |ts|, 1
  {
    if ts == [] {
      assert acc + ts == acc;
    } else {
      TokenizePrintedCons(src, i, line, acc, ts);
    }
  }

  lemma {:induction false} TokenizePrintedCons(src: seq<byte>, i: nat, line: nat, acc: seq<Token>, ts: seq<Token>)
    requires ts != [] && PrintedAt(src, i, ts)
    ensures Tokenize(src, i, line, acc) == Ok(Lexed(acc + ts, line))
    decreases |ts|, 0
  {
    var j, e := PrintedFirstScan(src, i, line, ts);
    TokenizePrinted(src, e, line, acc + [ts[0]], ts[1..]);
    AppendFirst(acc, ts);
    if j == e {
      ChainToken(src, i, e, line, acc, ts[0], acc + ts);
    } else {
      ChainTokenSpace(src, i, j, line, acc, ts[0], acc + ts);
    }
  }

  lemma ChainToken(src: seq<byte>, i: nat, e: nat, line: nat, acc: seq<Token>, t: Token, out: seq<Token>)
    requires i < |src| && e <= |src|
    requires ScanToken(src, i, line) == Ok(Scan([t], e, line))
    requires Tokenize(src, e, line, acc + [t]) == Ok(Lexed(out, line))
    ensures Tokenize(src, i, line, acc) == Ok(Lexed(out, line))
  {
    TokenStep(src, i, line, acc, t, e);
  }

  lemma ChainTokenSpace(src: seq<byte>, i: nat, j: nat, line: nat, acc: seq<Token>, t: Token, out: seq<Token>)
    requires i < |src| && j < |src| && src[j] as char == ' '
    requires ScanToken(src, i, line) == Ok(Scan([t], j, line))
    requires Tokenize(src, j + 1, line, acc + [t]) == Ok(Lexed(out, line))
    ensures Tokenize(src, i, line, acc) == Ok(Lexed(out, line))
  {
    TokenSpaceStep(src, i, j, line, acc, t);
  }

  /**
    The scan of the first printed token ends just past its spelling, or, after
    a one-character operator, just past the space that follows it.
   */
  lemma PrintedFirstScan(src: seq<byte>, i: nat, line: nat, ts: seq<Token>) returns (j: nat, e: nat)
    requires ts != [] && PrintedAt(src, i, ts)
    ensures i < |src| && e <= |src| && PrintedAt(src, e, ts[1..])
    ensures ScanToken(src, i, line) == Ok(Scan([ts[0]], j, line))
    ensures j == e || (j < |src| && src[j] as char == ' ' && e == j + 1)
  {
    var t := ts[0];
    e := i + |Spelling(t)| + 1;
    if IsLookaheadSingle(t) {
      ScanPrintedLookahead(src, i, line, t);
      j := e;
    } else {
      ScanPrintedSpaced(src, i, line, t);
      j := e - 1;
    }
  }

  /** The printed text of a list places each of its tokens. */
  lemma {:induction false} PrintPlacesTokens(src: seq<byte>, i: nat, ts: seq<Token>)
    requires AllPrintable(ts)
    requires Occurs(src, i, Print(ts)) && i + |Print(ts)| == |src|
    ensures PrintedAt(src, i, ts)
    decreases |ts|
  {
    if ts != [] {
      var n := PrintedHead(src, i, ts);
      PrintPlacesTokens(src, i + n, ts[1..]);
      PrintedAtCons(src, i, ts);
    }
  }

  lemma PrintedAtCons(src: seq<byte>, i: nat, ts: seq<Token>)
    requires ts != [] && i <= |src| && Printable(ts[0])
    requires Occurs(src, i, Spelling(ts[0]) + " ")
    requires PrintedAt(src, i + |Spelling(ts[0])| + 1, ts[1..])
    ensures PrintedAt(src, i, ts)
  {
  }

  /** The printed form of a non-empty list: the first token, a space, then the rest. */
  lemma PrintedHead(src: seq<byte>, i: nat, ts: seq<Token>) returns (n: nat)
    requires ts != [] && AllPrintable(ts)
    requires Occurs(src, i, Print(ts)) && i + |Print(ts)| == |src|
    ensures Printable(ts[0]) && AllPrintable(ts[1..])
    ensures n == |Spelling(ts[0])| + 1
    ensures Occurs(src, i, Spelling(ts[0]) + " ")
    ensures Occurs(src, i + n, Print(ts[1..])) && i + n + |Print(ts[1..])| == |src|
  {
    var w := Spelling(ts[0]) + " ";
    assert Print(ts) == w + Print(ts[1..]);
    OccursSplit(src, i, w, Print(ts[1..]));
    n := |w|;
  }

  lemma AppendFirst(acc: seq<Token>, ts: seq<Token>)
    requires ts != []
    ensures acc + [ts[0]] + ts[1..] == acc + ts
  {
  }

  /**
    Scanning the printed form of printable tokens gives the same tokens back,
    and the line counter stays at zero.
   */
  lemma LexPrinted(ts: seq<Token>)
    requires AllPrintable(ts)
    ensures Tokenize(Bytes(Print(ts)), 0, 0, []) == Ok(Lexed(ts, 0))
  {
    var src := Bytes(Print(ts));
    assert Occurs(src, 0, Print(ts));
    PrintPlacesTokens(src, 0, ts);
    TokenizePrinted(src, 0, 0, [], ts);
    assert [] + ts == ts;
  }

  /**
    `x=1` scans to `x =`: after `=` the scanner moves two bytes whether or
    not `==` was formed, so the `1` is never scanned.
   */
  lemma GluedOperandDropped()
    ensures Tokenize([120, 61, 49], 0, 0, []) == Ok(Lexed([Identifier("x"), Equal], 0))
  {
    var src: seq<byte> := [120, 61, 49];
    assert Chars(src[0..1]) == "x";
    RunEndUnique(src, 0, IsAlphaNumeric, 1);
    assert ScanToken(src, 0, 0) == Ok(Scan([Identifier("x")], 1, 0));
    assert ScanToken(src, 1, 0) == Ok(Scan([Equal], 3, 0));
    assert Tokenize(src, 3, 0, [Identifier("x"), Equal]) == Ok(Lexed([Identifier("x"), Equal], 0));
    assert [] + [Identifier("x")] == [Identifier("x")];
    assert [Identifier("x")] + [Equal] == [Identifier("x"), Equal];
  }
}
