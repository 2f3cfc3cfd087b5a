/**
  The lexer: one forward scan over the source bytes with a cursor and a line
  counter, appending tokens to a vector.

  The first half of the module is a reference definition of the scan as pure
  functions (`ScanToken` for one call of the scanner, `Tokenize` for the whole
  loop) together with the properties the scanner promises. The second half is
  the class `Lexer`, whose methods update the cursor, the line counter and the
  token vector in place and are proved to compute what the functions say.
 */
module Lexer {
  import opened Wrappers
  import opened Tokens

  /** One byte of the source text. */
  type byte = x: int | 0 <= x < 256

  /** The source bytes cast one by one to characters, as the scanner does. */
  function Chars(bs: seq<byte>): (s: string)
    ensures |s| == |bs|
    ensures forall k :: 0 <= k < |bs| ==> s[k] == bs[k] as char
  {
    seq(|bs|, k requires 0 <= k < |bs| => bs[k] as char)
  }

  lemma CharsAppend(x: seq<byte>, y: seq<byte>)
    ensures Chars(x + y) == Chars(x) + Chars(y)
  {
    assert forall k :: 0 <= k < |x + y| ==> Chars(x + y)[k] == (Chars(x) + Chars(y))[k];
  }

  /** Decoding a slice split around the byte at `b`. */
  lemma CharsAround(src: seq<byte>, a: nat, b: nat, c: nat)
    requires a <= b < c <= |src|
    ensures Chars(src[a..c]) == Chars(src[a..b]) + [src[b] as char] + Chars(src[b + 1..c])
  {
    assert src[a..c] == src[a..b] + [src[b]] + src[b + 1..c];
    CharsAppend(src[a..b] + [src[b]], src[b + 1..c]);
    CharsAppend(src[a..b], [src[b]]);
  }

  // ---------------------------------------------------------------------
  // Character classes
  // ---------------------------------------------------------------------

  predicate IsAlpha(c: char) {
    ('a' <= c <= 'z') || ('A' <= c <= 'Z') || c == '_'
  }

  predicate IsNumeric(c: char) {
    '0' <= c <= '9'
  }

  predicate IsAlphaNumeric(c: char) {
    IsAlpha(c) || IsNumeric(c)
  }

  /**
    The digits are exactly the ten decimal digits; no character is both a
    letter and a digit; and no character the scanner dispatches on by itself
    (punctuation, operators, the quote, the dot and white space) is in either
    class, so the order of the dispatch arms does not matter.
   */
  lemma CharacterClasses(c: char)
    ensures IsNumeric(c) <==> c in "0123456789"
    ensures !(IsAlpha(c) && IsNumeric(c))
    ensures c in "!\"()*+,-./;<=>{} \t\r\n" ==> !IsAlphaNumeric(c)
  {
  }

  predicate NotNewline(c: char) { c != '\n' }

  predicate NotQuote(c: char) { c != '"' }

  // ---------------------------------------------------------------------
  // Reference definition of the scanner
  // ---------------------------------------------------------------------

  /** The character under the cursor, or NUL once the cursor is past the end. */
  function PeekAt(src: seq<byte>, i: nat): char {
    if i >= |src| then '\0' else src[i] as char
  }

  /** Past the end the lookahead is NUL; before it, the byte there. */
  lemma PeekAtShape(src: seq<byte>, i: nat)
    ensures i >= |src| ==> PeekAt(src, i) == '\0'
    ensures i < |src| ==> PeekAt(src, i) == src[i] as char
  {
  }

  /**
    The end of the longest run of bytes satisfying `inRun` that starts at `i`:
    every byte before the result is in the run, and the byte at the result
    (if there is one) is not.
   */
  function RunEnd(src: seq<byte>, i: nat, inRun: char -> bool): (j: nat)
    requires i <= |src|
    decreases |src| - i
    ensures i <= j <= |src|
    ensures forall k :: i <= k < j ==> inRun(src[k] as char)
    ensures j == |src| || !inRun(src[j] as char)
  {
    if i < |src| && inRun(src[i] as char) then RunEnd(src, i + 1, inRun) else i
  }

  /** The end of a run is the only position with the two properties above. */
  lemma RunEndUnique(src: seq<byte>, i: nat, inRun: char -> bool, j: nat)
    requires i <= j <= |src|
    requires forall k :: i <= k < j ==> inRun(src[k] as char)
    requires j == |src| || !inRun(src[j] as char)
    ensures RunEnd(src, i, inRun) == j
  {
  }

  datatype Fault = UnterminatedString | NumberOutOfRange

  datatype LexResult<T> = Ok(value: T) | Fatal(fault: Fault)

  /** A scanned token and the cursor position just after it. */
  datatype Lexeme = Lexeme(token: Token, end: nat)

  /** What one call of the scanner does: tokens emitted, new cursor, new line count. */
  datatype Scan = Scan(emitted: seq<Token>, next: nat, line: nat)

  predicate IsDigitText(ds: string) {
    forall k :: 0 <= k < |ds| ==> IsNumeric(ds[k])
  }

  function DigitValue(c: char): nat
    requires IsNumeric(c)
  {
    c as int - '0' as int
  }

  /** The value of a string of decimal digits. */
  function DecimalValue(ds: string): nat
    requires IsDigitText(ds)
  {
    if ds == [] then 0 else DecimalValue(ds[..|ds| - 1]) * 10 + DigitValue(ds[|ds| - 1])
  }

  /** Reading a digit string as a signed 64-bit integer fails exactly on overflow. */
  function ParseI64(ds: string): (r: Option<I64>)
    requires IsDigitText(ds)
    ensures r.Some? <==> DecimalValue(ds) <= I64Max
    ensures r.Some? ==> r.value == DecimalValue(ds)
  {
    var v := DecimalValue(ds);
    if v <= I64Max then Some(v) else None
  }

  /** A string literal whose opening quote is just before `i`. */
  function ScanString(src: seq<byte>, i: nat): (r: LexResult<Lexeme>)
    requires i <= |src|
    ensures r.Fatal? <==> forall k :: i <= k < |src| ==> src[k] as char != '"'
    ensures r.Fatal? ==> r.fault == UnterminatedString
    ensures r.Ok? ==> i < r.value.end <= |src| && src[r.value.end - 1] as char == '"'
    ensures r.Ok? ==> r.value.token == String(Chars(src[i..r.value.end - 1]))
    ensures r.Ok? ==> forall k :: i <= k < r.value.end - 1 ==> src[k] as char != '"'
  {
    var j := RunEnd(src, i, NotQuote);
    if j == |src| then Fatal(UnterminatedString)
    else Ok(Lexeme(String(Chars(src[i..j])), j + 1))
  }

  /** An identifier starting at `i`, before the keyword table is applied. */
  function ScanIdentifier(src: seq<byte>, i: nat): (r: Lexeme)
    requires i <= |src|
    ensures i <= r.end <= |src|
    ensures r.token == Identifier(Chars(src[i..r.end]))
    ensures forall k :: i <= k < r.end ==> IsAlphaNumeric(src[k] as char)
    ensures r.end == |src| || !IsAlphaNumeric(src[r.end] as char)
  {
    var j := RunEnd(src, i, IsAlphaNumeric);
    Lexeme(Identifier(Chars(src[i..j])), j)
  }

  /**
    A number starting at `i`: the longest digit run, and if a `.` follows it,
    the dot and the longest digit run after it, which makes it a float.
   */
  function ScanNumber(src: seq<byte>, i: nat): (r: LexResult<Lexeme>)
    requires i <= |src|
    ensures r.Ok? ==> i <= r.value.end <= |src| && (r.value.token.Int? || r.value.token.Float?)
    ensures r.Ok? ==> r.value.end == |src| || !IsNumeric(src[r.value.end] as char)
    ensures r.Ok? ==> (r.value.token.Float? <==> PeekAt(src, RunEnd(src, i, IsNumeric)) == '.')
    ensures r.Ok? && r.value.token.Float? ==> r.value.token.literal == Chars(src[i..r.value.end])
    ensures r.Ok? && r.value.token.Int? ==> r.value.end == RunEnd(src, i, IsNumeric)
    ensures r.Fatal? ==> r.fault == NumberOutOfRange
  {
    var j := RunEnd(src, i, IsNumeric);
    if PeekAt(src, j) == '.' then
      var k := RunEnd(src, j + 1, IsNumeric);
      Ok(Lexeme(Float(Chars(src[i..k])), k))
    else
      match ParseI64(Chars(src[i..j]))
      case Some(v) => Ok(Lexeme(Int(v), j))
      case None => Fatal(NumberOutOfRange)
  }

  /** A number with a fraction: its text runs from `i` to the end of the second digit run. */
  lemma ScanNumberFloat(src: seq<byte>, i: nat, dot: nat, end: nat)
    requires i <= |src| && dot == RunEnd(src, i, IsNumeric) && PeekAt(src, dot) == '.'
    requires end == RunEnd(src, dot + 1, IsNumeric)
    ensures ScanNumber(src, i) == Ok(Lexeme(Float(Chars(src[i..end])), end))
  {
  }

  /** A number without a fraction: the value of its digits, if it fits. */
  lemma ScanNumberInt(src: seq<byte>, i: nat, dot: nat)
    requires i <= |src| && dot == RunEnd(src, i, IsNumeric) && PeekAt(src, dot) != '.'
    ensures IsDigitText(Chars(src[i..dot]))
    ensures ScanNumber(src, i) == match ParseI64(Chars(src[i..dot]))
                                  case Some(v) => Ok(Lexeme(Int(v), dot))
                                  case None => Fatal(NumberOutOfRange)
  {
  }

  /** One call of the scanner at cursor `i` with line count `line`. */
  function ScanToken(src: seq<byte>, i: nat, line: nat): (r: LexResult<Scan>)
    ensures r.Ok? ==> i < r.value.next
    ensures r.Ok? && i < |src| ==> r.value.next <= |src| + 1
    ensures r.Ok? ==> |r.value.emitted| <= 1
    ensures r.Ok? ==> r.value.line == if PeekAt(src, i) == '\n' then line + 1 else line
    ensures r.Fatal? ==> PeekAt(src, i) == '"' || IsNumeric(PeekAt(src, i))
  {
    var c := PeekAt(src, i);
    match c
    case ' ' | '\r' | '\t' => Ok(Scan([], i + 1, line))
    case '\n' => Ok(Scan([], i + 1, line + 1))
    case '(' => Ok(Scan([LeftParen], i + 1, line))
    case ')' => Ok(Scan([RightParen], i + 1, line))
    case '{' => Ok(Scan([LeftBrace], i + 1, line))
    case '}' => Ok(Scan([RightBrace], i + 1, line))
    case ',' => Ok(Scan([Comma], i + 1, line))
    case '.' => Ok(Scan([Dot], i + 1, line))
    case '-' => Ok(Scan([Minus], i + 1, line))
    case '+' => Ok(Scan([Plus], i + 1, line))
    case '*' => Ok(Scan([Star], i + 1, line))
    case ';' => Ok(Scan([Semicolon], i + 1, line))
    case '/' =>
      if PeekAt(src, i + 1) == '/' then
        Ok(Scan([], RunEnd(src, i + 2, NotNewline) + 1, line))
      else
        Ok(Scan([Slash], i + 2, line))
    case '"' =>
      (match ScanString(src, i + 1)
       case Ok(lx) => Ok(Scan([lx.token], lx.end, line))
       case Fatal(f) => Fatal(f))
    case '!' => Ok(Scan([if PeekAt(src, i + 1) == '=' then BangEqual else Bang], i + 2, line))
    case '=' => Ok(Scan([if PeekAt(src, i + 1) == '=' then EqualEqual else Equal], i + 2, line))
    case '>' => Ok(Scan([if PeekAt(src, i + 1) == '=' then GreaterEqual else Greater], i + 2, line))
    case '<' => Ok(Scan([if PeekAt(src, i + 1) == '=' then LessEqual else Less], i + 2, line))
    case _ =>
      if IsAlpha(c) then
        var lx := ScanIdentifier(src, i);
        Ok(Scan([TryConvertToKeyword(lx.token)], lx.end, line))
      else if IsNumeric(c) then
        (match ScanNumber(src, i)
         case Ok(lx) => Ok(Scan([lx.token], lx.end, line))
         case Fatal(f) => Fatal(f))
      else
        Ok(Scan([], i + 1, line))
  }

  /** At a digit the scanner emits the number that starts there. */
  lemma ScanTokenNumber(src: seq<byte>, i: nat, line: nat)
    requires IsNumeric(PeekAt(src, i))
    ensures i < |src|
    ensures ScanToken(src, i, line) == match ScanNumber(src, i)
                                       case Ok(lx) => Ok(Scan([lx.token], lx.end, line))
                                       case Fatal(f) => Fatal(f)
  {
  }

  /** At a quote the scanner emits the string literal that follows it. */
  lemma ScanTokenQuote(src: seq<byte>, i: nat, line: nat)
    requires PeekAt(src, i) == '"'
    ensures i < |src|
    ensures ScanToken(src, i, line) == match ScanString(src, i + 1)
                                       case Ok(lx) => Ok(Scan([lx.token], lx.end, line))
                                       case Fatal(f) => Fatal(f)
  {
  }

  /** At a letter or `_` the scanner emits the identifier or keyword that starts there. */
  lemma ScanTokenWord(src: seq<byte>, i: nat, line: nat)
    requires IsAlpha(PeekAt(src, i))
    ensures i < |src|
    ensures ScanToken(src, i, line) ==
              Ok(Scan([TryConvertToKeyword(ScanIdentifier(src, i).token)], ScanIdentifier(src, i).end, line))
  {
  }

  /** The tokens produced so far and the final line count. */
  datatype Lexed = Lexed(tokens: seq<Token>, line: nat)

  /**
    The whole scan: call the scanner until the cursor is at or past the end,
    appending what each call emits to `acc`. The first fault ends the scan.
   */
  function Tokenize(src: seq<byte>, i: nat, line: nat, acc: seq<Token>): (r: LexResult<Lexed>)
    requires i <= |src| + 1
    decreases |src| + 1 - i
    ensures r.Ok? ==> acc <= r.value.tokens
  {
    if i >= |src| then Ok(Lexed(acc, line))
    else
      match ScanToken(src, i, line)
      case Fatal(f) => Fatal(f)
      case Ok(s) => Tokenize(src, s.next, s.line, acc + s.emitted)
  }

  // ---------------------------------------------------------------------
  // Properties of the scanner
  // ---------------------------------------------------------------------

  /** Bytes the scanner steps over without a token (besides comments). */
  predicate IsSkipped(c: char) {
    c == ' ' || c == '\r' || c == '\t' || c == '\n' ||
    (c !in "(){},.-+*;/\"!=><" && !IsAlpha(c) && !IsNumeric(c))
  }

  /**
    Whitespace and unrecognised bytes emit nothing and move the cursor by one;
    only a newline increments the line counter.
   */
  lemma ScanSkipped(src: seq<byte>, i: nat, line: nat)
    requires IsSkipped(PeekAt(src, i))
    ensures ScanToken(src, i, line) == Ok(Scan([], i + 1, if PeekAt(src, i) == '\n' then line + 1 else line))
  {
  }

  /** A call of the scanner emits nothing exactly for skipped bytes and comments. */
  lemma ScanSilentExactly(src: seq<byte>, i: nat, line: nat)
    requires ScanToken(src, i, line).Ok?
    ensures ScanToken(src, i, line).value.emitted == [] <==>
            IsSkipped(PeekAt(src, i)) || (PeekAt(src, i) == '/' && PeekAt(src, i + 1) == '/')
  {
  }

  /**
    `//` discards everything up to the next newline; the cursor ends one past
    that newline (or one past the end), and the line counter is not touched.
   */
  lemma ScanComment(src: seq<byte>, i: nat, line: nat)
    requires PeekAt(src, i) == '/' && PeekAt(src, i + 1) == '/'
    ensures i + 2 <= |src|
    ensures ScanToken(src, i, line).Ok?
    ensures var s := ScanToken(src, i, line).value;
      s.emitted == [] && s.line == line && i + 2 < s.next &&
      (forall k :: i + 2 <= k < s.next - 1 ==> src[k] as char != '\n') &&
      (s.next - 1 == |src| || src[s.next - 1] as char == '\n')
  {
  }

  /**
    After `!`, `=`, `>`, `<` or `/` (not starting a comment) the cursor moves
    by two bytes, whether or not a two-character token is formed: the byte
    after a one-character operator is skipped.
   */
  lemma ScanLookahead(src: seq<byte>, i: nat, line: nat)
    requires PeekAt(src, i) in "!=></"
    requires !(PeekAt(src, i) == '/' && PeekAt(src, i + 1) == '/')
    ensures ScanToken(src, i, line).Ok?
    ensures ScanToken(src, i, line).value.next == i + 2
    ensures ScanToken(src, i, line).value.emitted == [LookaheadToken(PeekAt(src, i), PeekAt(src, i + 1))]
  {
  }

  /** The token for an operator character given the byte after it. */
  function LookaheadToken(c: char, after: char): (t: Token)
    requires c in "!=></"
    ensures c != '/' ==> (after == '=' <==> t in {BangEqual, EqualEqual, GreaterEqual, LessEqual})
  {
    match c
    case '!' => if after == '=' then BangEqual else Bang
    case '=' => if after == '=' then EqualEqual else Equal
    case '>' => if after == '=' then GreaterEqual else Greater
    case '<' => if after == '=' then LessEqual else Less
    case '/' => Slash
  }

  /**
    An identifier is the longest run of letters, digits and `_` starting at a
    letter or `_`, passed through the keyword table.
   */
  lemma ScanIdentifierLongest(src: seq<byte>, i: nat, line: nat)
    requires IsAlpha(PeekAt(src, i))
    ensures ScanToken(src, i, line).Ok?
    ensures var s := ScanToken(src, i, line).value;
      i < s.next <= |src| &&
      s.emitted == [TryConvertToKeyword(Identifier(Chars(src[i..s.next])))] &&
      (forall k :: i <= k < s.next ==> IsAlphaNumeric(src[k] as char)) &&
      (s.next == |src| || !IsAlphaNumeric(src[s.next] as char))
  {
  }

  /**
    A number is the longest digit run; a following `.` and the digits after it
    make it a float carrying its text; otherwise it is an integer carrying its
    value, and a value beyond the signed 64-bit range is fatal.
   */
  lemma ScanNumberShape(src: seq<byte>, i: nat, line: nat)
    requires IsNumeric(PeekAt(src, i))
    ensures var j := RunEnd(src, i, IsNumeric);
      var r := ScanToken(src, i, line);
      if PeekAt(src, j) == '.' then
        var k := RunEnd(src, j + 1, IsNumeric);
        r == Ok(Scan([Float(Chars(src[i..k]))], k, line))
      else if DecimalValue(Chars(src[i..j])) <= I64Max then
        r == Ok(Scan([Int(DecimalValue(Chars(src[i..j])))], j, line))
      else
        r == Fatal(NumberOutOfRange)
  {
  }

  /**
    A string token holds exactly the bytes between the quotes; the cursor ends
    just past the closing quote; reaching the end first is fatal. A newline
    inside the literal does not stop it.
   */
  lemma ScanStringExact(src: seq<byte>, i: nat, line: nat)
    requires PeekAt(src, i) == '"'
    ensures var r := ScanToken(src, i, line);
      (r.Fatal? <==> forall k :: i + 1 <= k < |src| ==> src[k] as char != '"') &&
      (r.Fatal? ==> r.fault == UnterminatedString) &&
      (r.Ok? ==> i + 1 < r.value.next <= |src| && src[r.value.next - 1] as char == '"' &&
                 r.value.emitted == [String(Chars(src[i + 1..r.value.next - 1]))] &&
                 r.value.line == line &&
                 forall k :: i + 1 <= k < r.value.next - 1 ==> src[k] as char != '"')
  {
  }

  /** The tokens the lexer can emit: never EOF, never a keyword spelled as an identifier. */
  predicate Emittable(t: Token) {
    t != EOF && (t.Identifier? ==> t.name !in KeywordSpellings) && (t.Int? ==> t.value >= 0)
  }

  lemma ScanEmittable(src: seq<byte>, i: nat, line: nat)
    requires ScanToken(src, i, line).Ok?
    ensures forall t :: t in ScanToken(src, i, line).value.emitted ==> Emittable(t)
  {
    var c := PeekAt(src, i);
    if IsAlpha(c) {
      var t := TryConvertToKeyword(ScanIdentifier(src, i).token);
      assert t.Identifier? ==> t.name !in KeywordSpellings;
    }
  }

  /** Everything a whole scan emits is emittable. */
  lemma {:induction false} TokenizeEmittable(src: seq<byte>, i: nat, line: nat, acc: seq<Token>)
    requires i <= |src| + 1
    requires forall t :: t in acc ==> Emittable(t)
    requires Tokenize(src, i, line, acc).Ok?
    ensures forall t :: t in Tokenize(src, i, line, acc).value.tokens ==> Emittable(t)
    decreases |src| + 1 - i
  {
    if i < |src| {
      var s := ScanToken(src, i, line).value;
      ScanEmittable(src, i, line);
      TokenizeEmittable(src, s.next, s.line, acc + s.emitted);
    }
  }

  /** A whole scan counts at most one line per newline byte it passes. */
  lemma {:induction false} TokenizeLineBound(src: seq<byte>, i: nat, line: nat, acc: seq<Token>)
    requires i <= |src| + 1
    requires Tokenize(src, i, line, acc).Ok?
    ensures line <= Tokenize(src, i, line, acc).value.line <= line + NewlinesFrom(src, i)
    decreases |src| + 1 - i
  {
    if i < |src| {
      var s := ScanToken(src, i, line).value;
      NewlinesMonotone(src, i + 1, s.next);
      TokenizeLineBound(src, s.next, s.line, acc + s.emitted);
    }
  }

  /** The number of newline bytes at or after `i`. */
  function NewlinesFrom(src: seq<byte>, i: nat): nat
    decreases |src| - i
  {
    if i >= |src| then 0 else (if src[i] as char == '\n' then 1 else 0) + NewlinesFrom(src, i + 1)
  }

  lemma {:induction false} NewlinesMonotone(src: seq<byte>, i: nat, j: nat)
    requires i <= j
    ensures NewlinesFrom(src, j) <= NewlinesFrom(src, i)
    decreases j - i
  {
    if i < j {
      NewlinesMonotone(src, i + 1, j);
    }
  }

  // ---------------------------------------------------------------------
  // The lexer object
  // ---------------------------------------------------------------------

  datatype Outcome = Pass | Fail(fault: Fault)

  class Lexer {
    const source: seq<byte>
    var tokens: seq<Token>
    var currentIdx: nat
    var currentLine: nat

    /** The cursor never runs more than one byte past the end. */
    ghost predicate Valid()
      reads this
    {
      currentIdx <= |source| + 1
    }

    constructor (source: seq<byte>)
      ensures Valid()
      ensures this.source == source && tokens == [] && currentIdx == 0 && currentLine == 0
    {
      this.source := source;
      tokens := [];
      currentIdx := 0;
      currentLine := 0;
    }

    /** The end is reached once the cursor reaches the length of the source, past the last byte. */
    predicate IsAtEnd()
      reads this
      ensures IsAtEnd() <==> currentIdx >= |source|
    {
      currentIdx >= |source|
    }

    /** The byte under the cursor as a character, or NUL past the end. */
    function Peek(): (c: char)
      reads this
      ensures c == PeekAt(source, currentIdx)
    {
      PeekAt(source, currentIdx)
    }

    /** Scans a whole source: the state after the loop is what `Tokenize` describes. */
    method Lex() returns (outcome: Outcome)
      requires Valid()
      modifies this
      ensures match Tokenize(source, old(currentIdx), old(currentLine), old(tokens))
        case Ok(lexed) => outcome == Pass && tokens == lexed.tokens &&
                          currentLine == lexed.line && |source| <= currentIdx <= |source| + 1
        case Fatal(f) => outcome == Fail(f)
    {
      while !IsAtEnd()
        invariant Valid()
        invariant Tokenize(source, old(currentIdx), old(currentLine), old(tokens)) ==
                  Tokenize(source, currentIdx, currentLine, tokens)
        decreases |source| + 1 - currentIdx
      {
        var step := LexToken();
        if step.Fail? {
          return step;
        }
      }
      return Pass;
    }

    /** One call of the scanner: exactly what `ScanToken` describes. */
    method LexToken() returns (outcome: Outcome)
      modifies this
      ensures match ScanToken(source, old(currentIdx), old(currentLine))
        case Ok(s) => outcome == Pass && tokens == old(tokens) + s.emitted &&
                      currentIdx == s.next && currentLine == s.line
        case Fatal(f) => outcome == Fail(f)
    {
      var c := Peek();
      match c {
        case ' ' | '\r' | '\t' =>
        case '\n' => currentLine := currentLine + 1;
        case '(' => tokens := tokens + [LeftParen];
        case ')' => tokens := tokens + [RightParen];
        case '{' => tokens := tokens + [LeftBrace];
        case '}' => tokens := tokens + [RightBrace];
        case ',' => tokens := tokens + [Comma];
        case '.' => tokens := tokens + [Dot];
        case '-' => tokens := tokens + [Minus];
        case '+' => tokens := tokens + [Plus];
        case '*' => tokens := tokens + [Star];
        case ';' => tokens := tokens + [Semicolon];
        case '/' =>
          currentIdx := currentIdx + 1;
          if Peek() == '/' {
            currentIdx := currentIdx + 1;
            SkipComment();
          } else {
            tokens := tokens + [Slash];
          }
        case '"' =>
          currentIdx := currentIdx + 1;
          var token := LexString();
          if token.Fatal? {
            return Fail(token.fault);
          }
          tokens := tokens + [token.value];
          return Pass;
        case '!' =>
          currentIdx := currentIdx + 1;
          if Peek() == '=' { tokens := tokens + [BangEqual]; } else { tokens := tokens + [Bang]; }
        case '=' =>
          currentIdx := currentIdx + 1;
          if Peek() == '=' { tokens := tokens + [EqualEqual]; } else { tokens := tokens + [Equal]; }
        case '>' =>
          currentIdx := currentIdx + 1;
          if Peek() == '=' { tokens := tokens + [GreaterEqual]; } else { tokens := tokens + [Greater]; }
        case '<' =>
          currentIdx := currentIdx + 1;
          if Peek() == '=' { tokens := tokens + [LessEqual]; } else { tokens := tokens + [Less]; }
        case _ =>
          if IsAlpha(c) {
            var token := LexIdentifier();
            token := TryConvertToKeyword(token);
            tokens := tokens + [token];
            return Pass;
          } else if IsNumeric(c) {
            var token := LexNumber();
            if token.Fatal? {
              return Fail(token.fault);
            }
            tokens := tokens + [token.value];
            return Pass;
          }
      }
      currentIdx := currentIdx + 1;
      return Pass;
    }

    /** The comment loop: stops at the next newline or at the end. */
    method SkipComment()
      requires currentIdx <= |source|
      modifies this`currentIdx
      ensures currentIdx == RunEnd(source, old(currentIdx), NotNewline)
    {
      ghost var start := currentIdx;
      while Peek() != '\n' && !IsAtEnd()
        invariant start <= currentIdx <= |source|
        invariant forall k :: start <= k < currentIdx ==> NotNewline(source[k] as char)
        decreases |source| - currentIdx
      {
        currentIdx := currentIdx + 1;
      }
      RunEndUnique(source, start, NotNewline, currentIdx);
    }

    /** The body of a string literal, the cursor just past the opening quote. */
    method LexString() returns (r: LexResult<Token>)
      requires currentIdx <= |source|
      modifies this`currentIdx
      ensures match ScanString(source, old(currentIdx))
        case Ok(lx) => r == Ok(lx.token) && currentIdx == lx.end
        case Fatal(f) => r == Fatal(f)
    {
      ghost var start := currentIdx;
      var literal: string := [];
      while Peek() != '"'
        invariant start <= currentIdx <= |source|
        invariant literal == Chars(source[start..currentIdx])
        invariant forall k :: start <= k < currentIdx ==> NotQuote(source[k] as char)
        decreases |source| - currentIdx
      {
        if IsAtEnd() {
          RunEndUnique(source, start, NotQuote, currentIdx);
          return Fatal(UnterminatedString);
        }
        // A newline inside the literal is only reported, never fatal.
        CharsAppend(source[start..currentIdx], [source[currentIdx]]);
        assert source[start..currentIdx + 1] == source[start..currentIdx] + [source[currentIdx]];
        literal := literal + [Peek()];
        currentIdx := currentIdx + 1;
      }
      RunEndUnique(source, start, NotQuote, currentIdx);
      currentIdx := currentIdx + 1;
      return Ok(String(literal));
    }

    /** The longest run of identifier characters under the cursor. */
    method LexIdentifier() returns (t: Token)
      requires currentIdx <= |source|
      modifies this`currentIdx
      ensures ScanIdentifier(source, old(currentIdx)) == Lexeme(t, currentIdx)
    {
      var literal := PushWhile(IsAlphaNumeric, []);
      return Identifier(literal);
    }

    /**
      The loop shared by identifiers and numbers: while the byte under the
      cursor is in the run, append it to `literal` and advance.
     */
    method PushWhile(inRun: char -> bool, literal: string) returns (extended: string)
      requires currentIdx <= |source|
      requires !inRun('\0')
      modifies this`currentIdx
      ensures currentIdx == RunEnd(source, old(currentIdx), inRun)
      ensures extended == literal + Chars(source[old(currentIdx)..currentIdx])
    {
      ghost var start := currentIdx;
      extended := literal;
      while inRun(Peek())
        invariant start <= currentIdx <= |source|
        invariant forall k :: start <= k < currentIdx ==> inRun(source[k] as char)
        invariant extended == literal + Chars(source[start..currentIdx])
        decreases |source| - currentIdx
      {
        CharsAppend(source[start..currentIdx], [source[currentIdx]]);
        assert source[start..currentIdx + 1] == source[start..currentIdx] + [source[currentIdx]];
        extended := extended + [Peek()];
        currentIdx := currentIdx + 1;
      }
      RunEndUnique(source, start, inRun, currentIdx);
    }

    /** A number under the cursor: its digits, and a `.` and digits if present. */
    method LexNumber() returns (r: LexResult<Token>)
      requires currentIdx <= |source|
      modifies this`currentIdx
      ensures match ScanNumber(source, old(currentIdx))
        case Ok(lx) => r == Ok(lx.token) && currentIdx == lx.end
        case Fatal(f) => r == Fatal(f)
    {
      ghost var start := currentIdx;
      var literal := PushWhile(IsNumeric, []);
      ghost var dot := currentIdx;
      assert literal == Chars(source[start..dot]);
      if Peek() == '.' {
        literal := literal + [Peek()];
        currentIdx := currentIdx + 1;
        literal := PushWhile(IsNumeric, literal);
        CharsAround(source, start, dot, currentIdx);
        ScanNumberFloat(source, start, dot, currentIdx);
        return Ok(Float(literal));
      }
      ScanNumberInt(source, start, dot);
      var value := ParseI64(literal);
      if value.None? {
        return Fatal(NumberOutOfRange);
      }
      return Ok(Int(value.value));
    }
  }
}
