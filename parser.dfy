/**
  The parser: recursive descent over a token vector, with a cursor that
  `Advance` and `Retreat` move by one.

  The functions `ProgramAt`, `ItemAt`, ..., `PrimaryAt` are the reference
  definition: each takes the tokens and a cursor position and gives the tree
  and the position after it, or `Fatal` where the source panics. The class
  `Parser` keeps the cursor in a field; each of its methods is proved to
  produce exactly what the matching function describes.

  Termination: every production either moves the cursor past a real token
  before recursing or calls a production of lower rank at the same
  position, so the pair (tokens remaining, rank) decreases. The one-token
  retreat before a binary expression is covered because the left operand
  has consumed at least one token.
 */
module Parser {
  import opened Wrappers
  import opened Tokens
  import opened Ast

  /** A parse result: the tree and the cursor after it, or a fatal error. */
  datatype Parsed<T> = Ok(value: T, pos: nat) | Fatal

  /** The token at index `i`, or `EOF` at or past the end. */
  function TokenAt(toks: seq<Token>, i: nat): Token {
    if i >= |toks| then EOF else toks[i]
  }

  /** Tokens left at or after position `p`. */
  function Rem(toks: seq<Token>, p: nat): nat {
    if p <= |toks| then |toks| - p else 0
  }

  predicate IsBinaryOperator(t: Token) {
    t.Plus? || t.Minus? || t.Star? || t.Slash?
  }

  function OperatorOf(t: Token): BinaryOperator
    requires IsBinaryOperator(t)
  {
    if t.Plus? then BinaryOperator.Plus
    else if t.Minus? then BinaryOperator.Minus
    else if t.Star? then Multiply
    else Divide
  }

  /** A literal or identifier token: a primary expression on its own. */
  predicate IsAtom(t: Token) {
    t.True? || t.False? || t.Null? || t.Int? || t.Float? || t.String? || t.Identifier?
  }

  /** The primary a literal or identifier token stands for. */
  function Atom(t: Token): Primary
    requires IsAtom(t)
  {
    if t.True? then Primary.True
    else if t.False? then Primary.False
    else if t.Null? then Primary.Null
    else if t.Int? then Primary.Int(t.value)
    else if t.Float? then Primary.Float(t.literal)
    else if t.String? then Primary.String(t.text)
    else Primary.Identifier(t.name)
  }

  /** The tokens with which the call rule hands over to the primary rule. */
  predicate StartsPrimary(t: Token) {
    (IsAtom(t) && !t.Identifier?) || t.Return? || t == LeftParen
  }

  // ---------------------------------------------------------------------
  // Reference definition of the grammar
  // ---------------------------------------------------------------------

  /** A whole program: items until the cursor reaches the end. */
  function ProgramAt(toks: seq<Token>, p: nat): (r: Parsed<Program>)
    ensures r.Ok? ==> p <= r.pos && |toks| <= r.pos
  {
    match ItemsFrom(toks, p, false, [])
    case Ok(items, q) => Ok(Program(items), q)
    case Fatal => Fatal
  }

  /**
    The item loop of a program (`inBlock` false) or of a block (`inBlock`
    true, which also stops in front of `}`), appending to `acc`.
   */
  function ItemsFrom(toks: seq<Token>, p: nat, inBlock: bool, acc: seq<Item>): (r: Parsed<seq<Item>>)
    decreases Rem(toks, p), 9
    ensures r.Ok? ==> p <= r.pos && acc <= r.value
    ensures r.Ok? ==> |toks| <= r.pos || (inBlock && TokenAt(toks, r.pos) == RightBrace)
  {
    if p >= |toks| then Ok(acc, p)
    else if inBlock && TokenAt(toks, p) == RightBrace then Ok(acc, p)
    else
      match ItemAt(toks, p)
      case Fatal => Fatal
      case Ok(item, q) => ItemsFrom(toks, q, inBlock, acc + [item])
  }

  /**
    An item, told apart by its first token: a declaration keyword, or an
    identifier or `return` followed by `=` (an assignment) or not (an
    expression). Any other first token is fatal.
   */
  function ItemAt(toks: seq<Token>, p: nat): (r: Parsed<Item>)
    decreases Rem(toks, p), 8
    ensures r.Ok? ==> p < r.pos
  {
    var t := TokenAt(toks, p);
    if t.Var? || t.Const? || t.Proc? then
      match DeclarationAt(toks, p)
      case Ok(d, q) => Ok(Item.Declaration(d), q)
      case Fatal => Fatal
    else if t.Return? || t.Identifier? then
      if TokenAt(toks, p + 1) == Equal then
        match AssignmentAt(toks, p)
        case Ok(a, q) => Ok(Item.Assignment(a), q)
        case Fatal => Fatal
      else
        match ExpressionAt(toks, p)
        case Ok(e, q) => Ok(Item.Expression(e), q)
        case Fatal => Fatal
    else Fatal
  }

  function DeclarationAt(toks: seq<Token>, p: nat): (r: Parsed<Declaration>)
    decreases Rem(toks, p), 7
    ensures r.Ok? ==> p < r.pos
  {
    var t := TokenAt(toks, p);
    if t.Var? then
      match VarAt(toks, p)
      case Ok(v, q) => Ok(Declaration.Var(v), q)
      case Fatal => Fatal
    else if t.Const? then
      match ConstAt(toks, p)
      case Ok(c, q) => Ok(Declaration.Const(c), q)
      case Fatal => Fatal
    else if t.Proc? then
      match ProcAt(toks, p)
      case Ok(pr, q) => Ok(Declaration.Proc(pr), q)
      case Fatal => Fatal
    else Fatal
  }

  /**
    `keyword identifier = expression`, shared by `var` and `const`: a wrong
    keyword, a missing identifier or a missing `=` is fatal.
   */
  function DefinitionAt(toks: seq<Token>, p: nat, keyword: Token): (r: Parsed<(Identifier, Expression)>)
    decreases Rem(toks, p), 6
    ensures r.Ok? ==> p + 3 < r.pos <= |toks|
  {
    if TokenAt(toks, p) != keyword || !TokenAt(toks, p + 1).Identifier? then Fatal
    else if TokenAt(toks, p + 2) != Equal then Fatal
    else
      match ExpressionAt(toks, p + 3)
      case Ok(e, q) => Ok((TokenAt(toks, p + 1).name, e), q)
      case Fatal => Fatal
  }

  function VarAt(toks: seq<Token>, p: nat): (r: Parsed<Var>)
    decreases Rem(toks, p), 7
    ensures r.Ok? ==> p < r.pos
  {
    match DefinitionAt(toks, p, Token.Var)
    case Ok(d, q) => Ok(Var.Var(d.0, d.1), q)
    case Fatal => Fatal
  }

  function ConstAt(toks: seq<Token>, p: nat): (r: Parsed<Const>)
    decreases Rem(toks, p), 7
    ensures r.Ok? ==> p < r.pos
  {
    match DefinitionAt(toks, p, Token.Const)
    case Ok(d, q) => Ok(Const.Const(d.0, d.1), q)
    case Fatal => Fatal
  }

  /** `proc name (parameters) { items }`. */
  function ProcAt(toks: seq<Token>, p: nat): (r: Parsed<Proc>)
    decreases Rem(toks, p), 6
    ensures r.Ok? ==> p < r.pos
  {
    if TokenAt(toks, p) != Token.Proc || !TokenAt(toks, p + 1).Identifier? then Fatal
    else
      match ProcArgsAt(toks, p + 2)
      case Fatal => Fatal
      case Ok(args, q) =>
        match BlockAt(toks, q)
        case Fatal => Fatal
        case Ok(block, s) => Ok(Proc.Proc(TokenAt(toks, p + 1).name, args, block), s)
  }

  /** `(` then the parameter loop. */
  function ProcArgsAt(toks: seq<Token>, p: nat): (r: Parsed<seq<Identifier>>)
    ensures r.Ok? ==> p + 1 < r.pos <= |toks|
  {
    if TokenAt(toks, p) != LeftParen then Fatal else ProcArgsLoop(toks, p + 1, [])
  }

  /**
    The parameter loop: an identifier then `,` or `)`, or a `)` at once
    (empty list or trailing comma); anything else is fatal.
   */
  function ProcArgsLoop(toks: seq<Token>, q: nat, acc: seq<Identifier>): (r: Parsed<seq<Identifier>>)
    decreases Rem(toks, q)
    ensures r.Ok? ==> q < r.pos <= |toks| && acc <= r.value
    ensures r.Ok? ==> TokenAt(toks, r.pos - 1) == RightParen
  {
    var t := TokenAt(toks, q);
    if t.Identifier? then
      match TokenAt(toks, q + 1)
      case Comma => ProcArgsLoop(toks, q + 2, acc + [t.name])
      case RightParen => Ok(acc + [t.name], q + 2)
      case _ => Fatal
    else if t == RightParen then Ok(acc, q + 1)
    else Fatal
  }

  /** An assignment: identifier, `=`, expression. */
  function AssignmentAt(toks: seq<Token>, p: nat): (r: Parsed<Assignment>)
    decreases Rem(toks, p), 6
    ensures r.Ok? ==> p + 2 < r.pos <= |toks|
  {
    if !TokenAt(toks, p).Identifier? || TokenAt(toks, p + 1) != Equal then Fatal
    else
      match ExpressionAt(toks, p + 2)
      case Ok(e, q) => Ok(Assignment.Assignment(TokenAt(toks, p).name, e), q)
      case Fatal => Fatal
  }

  /**
    A block: `{`, items until `}` or the end, then one more token is
    consumed whether or not it is the `}`.
   */
  function BlockAt(toks: seq<Token>, p: nat): (r: Parsed<Program>)
    decreases Rem(toks, p), 6
    ensures r.Ok? ==> p < r.pos
  {
    if TokenAt(toks, p) != LeftBrace then Fatal
    else
      match ItemsFrom(toks, p + 1, true, [])
      case Ok(items, q) => Ok(Program(items), q + 1)
      case Fatal => Fatal
  }

  /**
    An expression: a unary, and if an operator follows it, the cursor backs
    up one token and a binary expression is parsed from there. The result
    never stops in front of an operator.
   */
  function ExpressionAt(toks: seq<Token>, p: nat): (r: Parsed<Expression>)
    decreases Rem(toks, p), 4
    ensures r.Ok? ==> p < r.pos <= |toks| && !IsBinaryOperator(TokenAt(toks, r.pos))
  {
    match UnaryAt(toks, p)
    case Fatal => Fatal
    case Ok(left, q) =>
      if !IsBinaryOperator(TokenAt(toks, q)) then Ok(Expression.Unary(left), q)
      else
        match BinaryAt(toks, q - 1)
        case Ok(b, s) => Ok(Expression.Binary(b), s)
        case Fatal => Fatal
  }

  /** A binary expression: its own left unary, then the operator loop. */
  function BinaryAt(toks: seq<Token>, p: nat): (r: Parsed<Binary>)
    decreases Rem(toks, p), 3
    ensures r.Ok? ==> p < r.pos <= |toks| && !IsBinaryOperator(TokenAt(toks, r.pos))
  {
    match UnaryAt(toks, p)
    case Fatal => Fatal
    case Ok(left, q) => BinaryLoop(toks, left, None, q)
  }

  /**
    The operator loop. The first operator takes a whole expression as its
    right operand; an operator met after that is consumed and dropped (the
    branch the source leaves unfinished). Stopping with no operator seen is
    fatal.
   */
  function BinaryLoop(toks: seq<Token>, left: Unary, acc: Option<Binary>, q: nat): (r: Parsed<Binary>)
    requires q <= |toks|
    decreases Rem(toks, q), 3
    ensures r.Ok? ==> q <= r.pos <= |toks| && !IsBinaryOperator(TokenAt(toks, r.pos))
    ensures r.Ok? && acc.None? ==> q < r.pos
  {
    var t := TokenAt(toks, q);
    if !IsBinaryOperator(t) then
      if acc.None? then Fatal else Ok(acc.value, q)
    else if acc.Some? then
      BinaryLoop(toks, left, acc, q + 1)
    else
      match ExpressionAt(toks, q + 1)
      case Fatal => Fatal
      case Ok(right, s) => BinaryLoop(toks, left, Some(Binary.Binary(left, OperatorOf(t), right)), s)
  }

  /** `!` followed by a unary, or a call. */
  function UnaryAt(toks: seq<Token>, p: nat): (r: Parsed<Unary>)
    decreases Rem(toks, p), 2
    ensures r.Ok? ==> p < r.pos <= |toks|
  {
    if TokenAt(toks, p) == Bang then
      match UnaryAt(toks, p + 1)
      case Ok(u, q) => Ok(UnaryOperation(Negate, u), q)
      case Fatal => Fatal
    else
      match CallAt(toks, p)
      case Ok(c, q) => Ok(Unary.Call(c), q)
      case Fatal => Fatal
  }

  /**
    A literal, `return` or `(` starts a primary; an identifier followed by
    `(` is a call with arguments, otherwise a primary identifier.
   */
  function CallAt(toks: seq<Token>, p: nat): (r: Parsed<Call>)
    decreases Rem(toks, p), 1
    ensures r.Ok? ==> p < r.pos <= |toks|
  {
    var t := TokenAt(toks, p);
    if StartsPrimary(t) then
      match PrimaryAt(toks, p)
      case Ok(pr, q) => Ok(Call.Primary(pr), q)
      case Fatal => Fatal
    else if t.Identifier? then
      if TokenAt(toks, p + 1) == LeftParen then
        match CallArgsAt(toks, p + 1)
        case Ok(args, q) => Ok(CallLiteral(t.name, args), q)
        case Fatal => Fatal
      else
        Ok(Call.Primary(Primary.Identifier(t.name)), p + 1)
    else Fatal
  }

  /** Literals, `return expression`, and `( expression )`. */
  function PrimaryAt(toks: seq<Token>, p: nat): (r: Parsed<Primary>)
    decreases Rem(toks, p), 0
    ensures r.Ok? ==> p < r.pos <= |toks|
  {
    var t := TokenAt(toks, p);
    if IsAtom(t) then Ok(Atom(t), p + 1)
    else if t.Return? then
      match ExpressionAt(toks, p + 1)
      case Ok(e, q) => Ok(Primary.Return(e), q)
      case Fatal => Fatal
    else if t == LeftParen then
      match ExpressionAt(toks, p + 1)
      case Ok(e, q) => if TokenAt(toks, q) == RightParen then Ok(Grouping(e), q + 1) else Fatal
      case Fatal => Fatal
    else Fatal
  }

  /** `(` then the argument loop. */
  function CallArgsAt(toks: seq<Token>, p: nat): (r: Parsed<seq<Expression>>)
    decreases Rem(toks, p), 5
    ensures r.Ok? ==> p + 1 < r.pos <= |toks|
  {
    if TokenAt(toks, p) != LeftParen then Fatal else CallArgsLoop(toks, p + 1, [])
  }

  /**
    The argument loop: `)` ends it at once (empty list or trailing comma);
    otherwise an expression followed by `,` or `)`; anything else is fatal.
   */
  function CallArgsLoop(toks: seq<Token>, q: nat, acc: seq<Expression>): (r: Parsed<seq<Expression>>)
    decreases Rem(toks, q), 5
    ensures r.Ok? ==> q < r.pos <= |toks| && acc <= r.value
    ensures r.Ok? ==> TokenAt(toks, r.pos - 1) == RightParen
  {
    if TokenAt(toks, q) == RightParen then Ok(acc, q + 1)
    else
      match ExpressionAt(toks, q)
      case Fatal => Fatal
      case Ok(e, s) =>
        match TokenAt(toks, s)
        case Comma => CallArgsLoop(toks, s + 1, acc + [e])
        case RightParen => Ok(acc + [e], s + 1)
        case _ => Fatal
  }

  // ---------------------------------------------------------------------
  // The parser object
  // ---------------------------------------------------------------------

  class Parser {
    const tokens: seq<Token>
    var currentIdx: nat
    var root: Program

    constructor (tokens: seq<Token>)
      ensures this.tokens == tokens && currentIdx == 0 && root == Program([])
    {
      this.tokens := tokens;
      currentIdx := 0;
      root := Program([]);
    }

    method Advance()
      modifies this`currentIdx
      ensures currentIdx == old(currentIdx) + 1
    {
      currentIdx := currentIdx + 1;
    }

    method Retreat()
      requires currentIdx > 0
      modifies this`currentIdx
      ensures currentIdx == old(currentIdx) - 1
    {
      currentIdx := currentIdx - 1;
    }

    /** Lookahead by `n`: `EOF` at or past the end, so it never reads out of bounds. */
    function PeekN(n: nat): (t: Token)
      reads this
      ensures currentIdx + n >= |tokens| ==> t == EOF
      ensures currentIdx + n < |tokens| ==> t == tokens[currentIdx + n]
    {
      TokenAt(tokens, currentIdx + n)
    }

    /** The current token, or `EOF` once the vector is exhausted. */
    function Peek(): (t: Token)
      reads this
      ensures currentIdx >= |tokens| ==> t == EOF
      ensures currentIdx < |tokens| ==> t == tokens[currentIdx]
    {
      PeekN(0)
    }

    method NextToken() returns (t: Token)
      modifies this`currentIdx
      ensures t == TokenAt(tokens, old(currentIdx)) && currentIdx == old(currentIdx) + 1
    {
      t := Peek();
      Advance();
    }

    /** Parses the whole token vector into `root`; false where the source panics. */
    method Parse() returns (ok: bool)
      modifies this
      ensures ok == ProgramAt(tokens, old(currentIdx)).Ok?
      ensures ok ==> root == ProgramAt(tokens, old(currentIdx)).value &&
                     currentIdx == ProgramAt(tokens, old(currentIdx)).pos
    {
      var r := ParseProgram();
      if r.Fatal? {
        return false;
      }
      root := r.value;
      return true;
    }

    method ParseProgram() returns (r: Parsed<Program>)
      modifies this`currentIdx
      ensures r == ProgramAt(tokens, old(currentIdx))
      ensures r.Ok? ==> currentIdx == r.pos
    {
      var items: seq<Item> := [];
      while currentIdx < |tokens|
        invariant ItemsFrom(tokens, old(currentIdx), false, []) == ItemsFrom(tokens, currentIdx, false, items)
        decreases Rem(tokens, currentIdx)
      {
        var item := ParseItem();
        if item.Fatal? {
          return Fatal;
        }
        items := items + [item.value];
      }
      return Ok(Program(items), currentIdx);
    }

    method ParseItem() returns (r: Parsed<Item>)
      modifies this`currentIdx
      decreases Rem(tokens, currentIdx), 8
      ensures r == ItemAt(tokens, old(currentIdx))
      ensures r.Ok? ==> currentIdx == r.pos
    {
      var token := Peek();
      if token.Var? || token.Const? || token.Proc? {
        var d := ParseDeclaration();
        if d.Fatal? { return Fatal; }
        return Ok(Item.Declaration(d.value), d.pos);
      } else if token.Return? || token.Identifier? {
        var next := PeekN(1);
        if next == Equal {
          var a := ParseAssignment();
          if a.Fatal? { return Fatal; }
          return Ok(Item.Assignment(a.value), a.pos);
        }
        var e := ParseExpression();
        if e.Fatal? { return Fatal; }
        return Ok(Item.Expression(e.value), e.pos);
      }
      return Fatal;
    }

    method ParseDeclaration() returns (r: Parsed<Declaration>)
      modifies this`currentIdx
      decreases Rem(tokens, currentIdx), 7
      ensures r == DeclarationAt(tokens, old(currentIdx))
      ensures r.Ok? ==> currentIdx == r.pos
    {
      var token := Peek();
      if token.Var? {
        var v := ParseVar();
        if v.Fatal? { return Fatal; }
        return Ok(Declaration.Var(v.value), v.pos);
      } else if token.Const? {
        var c := ParseConst();
        if c.Fatal? { return Fatal; }
        return Ok(Declaration.Const(c.value), c.pos);
      } else if token.Proc? {
        var pr := ParseProc();
        if pr.Fatal? { return Fatal; }
        return Ok(Declaration.Proc(pr.value), pr.pos);
      }
      return Fatal;
    }

    method ParseDefinition(keyword: Token) returns (r: Parsed<(Identifier, Expression)>)
      modifies this`currentIdx
      decreases Rem(tokens, currentIdx), 6
      ensures r == DefinitionAt(tokens, old(currentIdx), keyword)
      ensures r.Ok? ==> currentIdx == r.pos
    {
      var kw := NextToken();
      if kw != keyword {
        return Fatal;
      }
      var identToken := NextToken();
      if !identToken.Identifier? {
        return Fatal;
      }
      var equal := NextToken();
      if equal != Equal {
        return Fatal;
      }
      var e := ParseExpression();
      if e.Fatal? {
        return Fatal;
      }
      return Ok((identToken.name, e.value), e.pos);
    }

    method ParseVar() returns (r: Parsed<Var>)
      modifies this`currentIdx
      decreases Rem(tokens, currentIdx), 7
      ensures r == VarAt(tokens, old(currentIdx))
      ensures r.Ok? ==> currentIdx == r.pos
    {
      var d := ParseDefinition(Token.Var);
      if d.Fatal? {
        return Fatal;
      }
      return Ok(Var.Var(d.value.0, d.value.1), d.pos);
    }

    method ParseConst() returns (r: Parsed<Const>)
      modifies this`currentIdx
      decreases Rem(tokens, currentIdx), 7
      ensures r == ConstAt(tokens, old(currentIdx))
      ensures r.Ok? ==> currentIdx == r.pos
    {
      var d := ParseDefinition(Token.Const);
      if d.Fatal? {
        return Fatal;
      }
      return Ok(Const.Const(d.value.0, d.value.1), d.pos);
    }

    method ParseProc() returns (r: Parsed<Proc>)
      modifies this`currentIdx
      decreases Rem(tokens, currentIdx), 6
      ensures r == ProcAt(tokens, old(currentIdx))
      ensures r.Ok? ==> currentIdx == r.pos
    {
      var procToken := NextToken();
      if procToken != Token.Proc {
        return Fatal;
      }
      var identToken := NextToken();
      if !identToken.Identifier? {
        return Fatal;
      }
      var args := ParseProcArgs();
      if args.Fatal? {
        return Fatal;
      }
      var block := ParseBlock();
      if block.Fatal? {
        return Fatal;
      }
      return Ok(Proc.Proc(identToken.name, args.value, block.value), block.pos);
    }

    method ParseProcArgs() returns (r: Parsed<seq<Identifier>>)
      modifies this`currentIdx
      ensures r == ProcArgsAt(tokens, old(currentIdx))
      ensures r.Ok? ==> currentIdx == r.pos
    {
      var leftParen := NextToken();
      if leftParen != LeftParen {
        return Fatal;
      }
      var args: seq<Identifier> := [];
      while true
        invariant ProcArgsAt(tokens, old(currentIdx)) == ProcArgsLoop(tokens, currentIdx, args)
        decreases Rem(tokens, currentIdx)
      {
        var token := NextToken();
        if token.Identifier? {
          args := args + [token.name];
        } else if token == RightParen {
          break;
        } else {
          return Fatal;
        }
        var next := NextToken();
        if next == RightParen {
          break;
        } else if next != Comma {
          return Fatal;
        }
      }
      return Ok(args, currentIdx);
    }

    method ParseAssignment() returns (r: Parsed<Assignment>)
      modifies this`currentIdx
      decreases Rem(tokens, currentIdx), 6
      ensures r == AssignmentAt(tokens, old(currentIdx))
      ensures r.Ok? ==> currentIdx == r.pos
    {
      var identToken := NextToken();
      if !identToken.Identifier? {
        return Fatal;
      }
      var equal := NextToken();
      if equal != Equal {
        return Fatal;
      }
      var e := ParseExpression();
      if e.Fatal? {
        return Fatal;
      }
      return Ok(Assignment.Assignment(identToken.name, e.value), e.pos);
    }

    method ParseBlock() returns (r: Parsed<Program>)
      modifies this`currentIdx
      decreases Rem(tokens, currentIdx), 6
      ensures r == BlockAt(tokens, old(currentIdx))
      ensures r.Ok? ==> currentIdx == r.pos
    {
      var leftBrace := NextToken();
      if leftBrace != LeftBrace {
        return Fatal;
      }
      var items: seq<Item> := [];
      while currentIdx < |tokens|
        invariant old(currentIdx) < currentIdx
        invariant ItemsFrom(tokens, old(currentIdx) + 1, true, []) == ItemsFrom(tokens, currentIdx, true, items)
        decreases Rem(tokens, currentIdx)
      {
        var token := Peek();
        if token == RightBrace {
          break;
        }
        var item := ParseItem();
        if item.Fatal? {
          return Fatal;
        }
        items := items + [item.value];
      }
      // The token after the items is consumed, whatever it is.
      Advance();
      return Ok(Program(items), currentIdx);
    }

    method ParseExpression() returns (r: Parsed<Expression>)
      modifies this`currentIdx
      decreases Rem(tokens, currentIdx), 4
      ensures r == ExpressionAt(tokens, old(currentIdx))
      ensures r.Ok? ==> currentIdx == r.pos
    {
      var left := ParseUnary();
      if left.Fatal? {
        return Fatal;
      }
      var token := Peek();
      if !IsBinaryOperator(token) {
        return Ok(Expression.Unary(left.value), left.pos);
      }
      Retreat();
      var b := ParseBinary();
      if b.Fatal? {
        return Fatal;
      }
      return Ok(Expression.Binary(b.value), b.pos);
    }

    method ParseBinary() returns (r: Parsed<Binary>)
      modifies this`currentIdx
      decreases Rem(tokens, currentIdx), 3
      ensures r == BinaryAt(tokens, old(currentIdx))
      ensures r.Ok? ==> currentIdx == r.pos
    {
      var left := ParseUnary();
      if left.Fatal? {
        return Fatal;
      }
      var binary: Option<Binary> := None;
      while true
        invariant old(currentIdx) < currentIdx <= |tokens|
        invariant BinaryAt(tokens, old(currentIdx)) == BinaryLoop(tokens, left.value, binary, currentIdx)
        decreases Rem(tokens, currentIdx)
      {
        var token := NextToken();
        if !IsBinaryOperator(token) {
          Retreat();
          break;
        }
        var operator := OperatorOf(token);
        match binary {
          case Some(_) =>
          case None =>
            var right := ParseExpression();
            if right.Fatal? {
              return Fatal;
            }
            binary := Some(Binary.Binary(left.value, operator, right.value));
        }
      }
      if binary.None? {
        return Fatal;
      }
      return Ok(binary.value, currentIdx);
    }

    method ParseUnary() returns (r: Parsed<Unary>)
      modifies this`currentIdx
      decreases Rem(tokens, currentIdx), 2
      ensures r == UnaryAt(tokens, old(currentIdx))
      ensures r.Ok? ==> currentIdx == r.pos
    {
      var token := NextToken();
      if token == Bang {
        var inner := ParseUnary();
        if inner.Fatal? {
          return Fatal;
        }
        return Ok(UnaryOperation(Negate, inner.value), inner.pos);
      }
      Retreat();
      var c := ParseCall();
      if c.Fatal? {
        return Fatal;
      }
      return Ok(Unary.Call(c.value), c.pos);
    }

    method ParseCall() returns (r: Parsed<Call>)
      modifies this`currentIdx
      decreases Rem(tokens, currentIdx), 1
      ensures r == CallAt(tokens, old(currentIdx))
      ensures r.Ok? ==> currentIdx == r.pos
    {
      var token := NextToken();
      if StartsPrimary(token) {
        Retreat();
        var pr := ParsePrimary();
        if pr.Fatal? { return Fatal; }
        return Ok(Call.Primary(pr.value), pr.pos);
      } else if token.Identifier? {
        var next := Peek();
        if next == LeftParen {
          var args := ParseCallArgs();
          if args.Fatal? { return Fatal; }
          return Ok(CallLiteral(token.name, args.value), args.pos);
        }
        return Ok(Call.Primary(Primary.Identifier(token.name)), currentIdx);
      }
      return Fatal;
    }

    method ParsePrimary() returns (r: Parsed<Primary>)
      modifies this`currentIdx
      decreases Rem(tokens, currentIdx), 0
      ensures r == PrimaryAt(tokens, old(currentIdx))
      ensures r.Ok? ==> currentIdx == r.pos
    {
      var value := NextToken();
      if IsAtom(value) {
        return Ok(Atom(value), currentIdx);
      } else if value.Return? {
        var e := ParseExpression();
        if e.Fatal? { return Fatal; }
        return Ok(Primary.Return(e.value), e.pos);
      } else if value == LeftParen {
        var e := ParseExpression();
        if e.Fatal? { return Fatal; }
        var rightParen := NextToken();
        if rightParen != RightParen { return Fatal; }
        return Ok(Grouping(e.value), currentIdx);
      }
      return Fatal;
    }

    method ParseCallArgs() returns (r: Parsed<seq<Expression>>)
      modifies this`currentIdx
      decreases Rem(tokens, currentIdx), 5
      ensures r == CallArgsAt(tokens, old(currentIdx))
      ensures r.Ok? ==> currentIdx == r.pos
    {
      var leftParen := NextToken();
      if leftParen != LeftParen {
        return Fatal;
      }
      var args: seq<Expression> := [];
      while true
        invariant old(currentIdx) < currentIdx
        invariant CallArgsAt(tokens, old(currentIdx)) == CallArgsLoop(tokens, currentIdx, args)
        decreases Rem(tokens, currentIdx)
      {
        var token := Peek();
        if token == RightParen {
          Advance();
          break;
        }
        var e := ParseExpression();
        if e.Fatal? {
          return Fatal;
        }
        args := args + [e.value];
        var next := NextToken();
        if next == RightParen {
          break;
        } else if next != Comma {
          return Fatal;
        }
      }
      return Ok(args, currentIdx);
    }
  }
}
