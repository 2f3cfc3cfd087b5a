/**
  Properties of the parser's reference definition: how an item is chosen,
  what a `var`/`const` definition requires, the shape every binary
  expression takes, the comma-separated lists of parameters and arguments,
  and a few whole parses written out.
 */
module ParserProperties {
  import opened Wrappers
  import opened Tokens
  import opened Ast
  import opened Parser

  // ---------------------------------------------------------------------
  // Items
  // ---------------------------------------------------------------------

  /** The kind of a parsed item is fixed by its first one or two tokens. */
  lemma ItemDispatch(toks: seq<Token>, p: nat)
    ensures var r := ItemAt(toks, p); var t := TokenAt(toks, p);
      (r.Ok? && r.value.Declaration? ==> t.Var? || t.Const? || t.Proc?) &&
      (r.Ok? && r.value.Assignment? ==> t.Identifier? && TokenAt(toks, p + 1) == Equal) &&
      (r.Ok? && r.value.Expression? ==> (t.Identifier? || t.Return?) && TokenAt(toks, p + 1) != Equal) &&
      (!(t.Var? || t.Const? || t.Proc? || t.Identifier? || t.Return?) ==> r.Fatal?)
  {
  }

  /** Each kind of item is parsed by its own rule from the same position. */
  lemma ItemDelegates(toks: seq<Token>, p: nat)
    ensures var t := TokenAt(toks, p);
      (t.Var? || t.Const? || t.Proc? ==>
         (ItemAt(toks, p).Ok? <==> DeclarationAt(toks, p).Ok?)) &&
      ((t.Identifier? || t.Return?) && TokenAt(toks, p + 1) == Equal ==>
         (ItemAt(toks, p).Ok? <==> AssignmentAt(toks, p).Ok?)) &&
      ((t.Identifier? || t.Return?) && TokenAt(toks, p + 1) != Equal ==>
         (ItemAt(toks, p).Ok? <==> ExpressionAt(toks, p).Ok?))
  {
  }

  /** `return = ...` is sent to the assignment rule, which rejects it. */
  lemma ReturnAssignmentFatal(toks: seq<Token>, p: nat)
    requires TokenAt(toks, p) == Token.Return && TokenAt(toks, p + 1) == Equal
    ensures ItemAt(toks, p).Fatal?
  {
  }

  /**
    `keyword identifier = expression`: it succeeds exactly when the three
    tokens are there and an expression follows, and then it holds that
    identifier and that expression.
   */
  lemma DefinitionShape(toks: seq<Token>, p: nat, keyword: Token)
    ensures DefinitionAt(toks, p, keyword).Ok? <==>
      TokenAt(toks, p) == keyword && TokenAt(toks, p + 1).Identifier? &&
      TokenAt(toks, p + 2) == Equal && ExpressionAt(toks, p + 3).Ok?
    ensures DefinitionAt(toks, p, keyword).Ok? ==>
      DefinitionAt(toks, p, keyword).value == (TokenAt(toks, p + 1).name, ExpressionAt(toks, p + 3).value) &&
      DefinitionAt(toks, p, keyword).pos == ExpressionAt(toks, p + 3).pos
  {
  }

  /**
    `identifier = expression`: it succeeds exactly when the two tokens are
    there and an expression follows, and then it holds that identifier and
    that expression and ends where the expression ends.
   */
  lemma AssignmentShape(toks: seq<Token>, p: nat)
    ensures AssignmentAt(toks, p).Ok? <==>
      TokenAt(toks, p).Identifier? && TokenAt(toks, p + 1) == Equal && ExpressionAt(toks, p + 2).Ok?
    ensures AssignmentAt(toks, p).Ok? ==>
      AssignmentAt(toks, p) == Ok(Assignment.Assignment(TokenAt(toks, p).name, ExpressionAt(toks, p + 2).value),
                                  ExpressionAt(toks, p + 2).pos)
  {
  }

  /**
    `{ items }`: it succeeds exactly when a `{` opens it and the items after
    it parse in block mode; it holds those items and ends one token past the
    place where they stopped, which is a `}` or the end of the input (the
    closing brace is not checked).
   */
  lemma BlockShape(toks: seq<Token>, p: nat)
    ensures BlockAt(toks, p).Ok? <==> TokenAt(toks, p) == LeftBrace && ItemsFrom(toks, p + 1, true, []).Ok?
    ensures BlockAt(toks, p).Ok? ==>
      BlockAt(toks, p) == Ok(Program(ItemsFrom(toks, p + 1, true, []).value), ItemsFrom(toks, p + 1, true, []).pos + 1)
    ensures BlockAt(toks, p).Ok? ==>
      TokenAt(toks, BlockAt(toks, p).pos - 1) == RightBrace || BlockAt(toks, p).pos > |toks|
  {
  }

  /**
    `proc name (parameters) { items }`: it succeeds exactly when the keyword
    and a name are there, a parameter list follows and a block follows that;
    it holds the three and ends where the block ends.
   */
  lemma ProcShape(toks: seq<Token>, p: nat)
    ensures ProcAt(toks, p).Ok? <==>
      TokenAt(toks, p) == Token.Proc && TokenAt(toks, p + 1).Identifier? && ProcArgsAt(toks, p + 2).Ok? &&
      BlockAt(toks, ProcArgsAt(toks, p + 2).pos).Ok?
    ensures ProcAt(toks, p).Ok? ==>
      var args := ProcArgsAt(toks, p + 2);
      var block := BlockAt(toks, args.pos);
      ProcAt(toks, p) == Ok(Proc.Proc(TokenAt(toks, p + 1).name, args.value, block.value), block.pos)
  {
  }

  /** A whole program ends at or past the last token. */
  lemma ProgramConsumesAll(toks: seq<Token>)
    ensures ProgramAt(toks, 0).Ok? ==> ProgramAt(toks, 0).pos >= |toks|
  {
  }

  // ---------------------------------------------------------------------
  // Expressions
  // ---------------------------------------------------------------------

  /** `!` wraps the unary after it; anything else is a call. */
  lemma UnaryShape(toks: seq<Token>, p: nat)
    ensures TokenAt(toks, p) == Bang ==>
      (UnaryAt(toks, p).Ok? <==> UnaryAt(toks, p + 1).Ok?) &&
      (UnaryAt(toks, p).Ok? ==> UnaryAt(toks, p).value == UnaryOperation(Negate, UnaryAt(toks, p + 1).value))
    ensures TokenAt(toks, p) != Bang ==>
      (UnaryAt(toks, p).Ok? <==> CallAt(toks, p).Ok?) &&
      (UnaryAt(toks, p).Ok? ==> UnaryAt(toks, p).value == Unary.Call(CallAt(toks, p).value))
  {
  }

  /**
    A call: a literal, `return` or `(` starts a primary; an identifier is a
    call when `(` follows it and a bare identifier otherwise; any other token
    is fatal.
   */
  lemma CallShape(toks: seq<Token>, p: nat)
    ensures StartsPrimary(TokenAt(toks, p)) ==>
      (CallAt(toks, p).Ok? <==> PrimaryAt(toks, p).Ok?) &&
      (CallAt(toks, p).Ok? ==> CallAt(toks, p) == Ok(Call.Primary(PrimaryAt(toks, p).value), PrimaryAt(toks, p).pos))
    ensures TokenAt(toks, p).Identifier? && TokenAt(toks, p + 1) == LeftParen ==>
      (CallAt(toks, p).Ok? <==> CallArgsAt(toks, p + 1).Ok?) &&
      (CallAt(toks, p).Ok? ==>
        CallAt(toks, p) == Ok(CallLiteral(TokenAt(toks, p).name, CallArgsAt(toks, p + 1).value), CallArgsAt(toks, p + 1).pos))
    ensures TokenAt(toks, p).Identifier? && TokenAt(toks, p + 1) != LeftParen ==>
      CallAt(toks, p) == Ok(Call.Primary(Primary.Identifier(TokenAt(toks, p).name)), p + 1)
    ensures !StartsPrimary(TokenAt(toks, p)) && !TokenAt(toks, p).Identifier? ==> CallAt(toks, p).Fatal?
  {
  }

  /**
    A primary: a literal stands for itself; `return` takes the expression
    after it; `(` takes an expression that must be followed by `)`, and is
    fatal otherwise; any other token is fatal.
   */
  lemma PrimaryShape(toks: seq<Token>, p: nat)
    ensures IsAtom(TokenAt(toks, p)) ==> PrimaryAt(toks, p) == Ok(Atom(TokenAt(toks, p)), p + 1)
    ensures TokenAt(toks, p).Return? ==>
      (PrimaryAt(toks, p).Ok? <==> ExpressionAt(toks, p + 1).Ok?) &&
      (PrimaryAt(toks, p).Ok? ==>
        PrimaryAt(toks, p) == Ok(Primary.Return(ExpressionAt(toks, p + 1).value), ExpressionAt(toks, p + 1).pos))
    ensures TokenAt(toks, p) == LeftParen ==>
      (PrimaryAt(toks, p).Ok? <==>
        ExpressionAt(toks, p + 1).Ok? && TokenAt(toks, ExpressionAt(toks, p + 1).pos) == RightParen) &&
      (PrimaryAt(toks, p).Ok? ==>
        PrimaryAt(toks, p) == Ok(Grouping(ExpressionAt(toks, p + 1).value), ExpressionAt(toks, p + 1).pos + 1))
    ensures !IsAtom(TokenAt(toks, p)) && !TokenAt(toks, p).Return? && TokenAt(toks, p) != LeftParen ==>
      PrimaryAt(toks, p).Fatal?
  {
  }

  /** No expression starts with `)`, so the argument loop's first test never hides one. */
  lemma ExpressionNotAtClose(toks: seq<Token>, q: nat)
    requires TokenAt(toks, q) == RightParen
    ensures ExpressionAt(toks, q).Fatal?
  {
    assert CallAt(toks, q).Fatal?;
    assert UnaryAt(toks, q).Fatal?;
  }

  /**
    Every binary expression is one left unary, one operator and one whole
    expression on the right: the right operand never stops in front of an
    operator, so the loop's "operator after a finished binary" branch is
    never taken.
   */
  lemma BinaryShape(toks: seq<Token>, p: nat)
    requires BinaryAt(toks, p).Ok?
    ensures UnaryAt(toks, p).Ok?
    ensures var q := UnaryAt(toks, p).pos;
      IsBinaryOperator(TokenAt(toks, q)) && ExpressionAt(toks, q + 1).Ok? &&
      BinaryAt(toks, p) == Ok(Binary.Binary(UnaryAt(toks, p).value, OperatorOf(TokenAt(toks, q)),
                                            ExpressionAt(toks, q + 1).value),
                              ExpressionAt(toks, q + 1).pos)
  {
    var left := UnaryAt(toks, p).value;
    var q := UnaryAt(toks, p).pos;
    assert BinaryAt(toks, p) == BinaryLoop(toks, left, None, q);
    var right := ExpressionAt(toks, q + 1);
    var b := Binary.Binary(left, OperatorOf(TokenAt(toks, q)), right.value);
    assert BinaryLoop(toks, left, Some(b), right.pos) == Ok(b, right.pos);
  }

  /**
    An expression followed by an operator is re-parsed as a binary from the
    token just before the operator, which is the last token of the left
    operand and not necessarily its first.
   */
  lemma ExpressionShape(toks: seq<Token>, p: nat)
    requires ExpressionAt(toks, p).Ok?
    ensures UnaryAt(toks, p).Ok?
    ensures var q := UnaryAt(toks, p).pos;
      if IsBinaryOperator(TokenAt(toks, q)) then
        BinaryAt(toks, q - 1).Ok? && ExpressionAt(toks, p).value == Expression.Binary(BinaryAt(toks, q - 1).value)
      else
        ExpressionAt(toks, p) == Ok(Expression.Unary(UnaryAt(toks, p).value), q)
  {
  }

  // ---------------------------------------------------------------------
  // Comma-separated lists
  // ---------------------------------------------------------------------

  /**
    The tokens of a list: the elements separated by commas, an optional
    comma after the last one, then `)`.
   */
  function ListTokens(elements: seq<Token>, trailingComma: bool): (ts: seq<Token>)
    ensures |ts| == (if |elements| == 0 then 1 else 2 * |elements| + (if trailingComma then 1 else 0))
    ensures ts[|ts| - 1] == RightParen
  {
    if |elements| == 0 then [RightParen]
    else if |elements| == 1 then [elements[0]] + (if trailingComma then [Comma, RightParen] else [RightParen])
    else [elements[0], Comma] + ListTokens(elements[1..], trailingComma)
  }

  function IdentifierTokens(names: seq<Identifier>): (ts: seq<Token>)
    ensures |ts| == |names|
    ensures forall i :: 0 <= i < |names| ==> ts[i] == Token.Identifier(names[i])
  {
    if |names| == 0 then [] else [Token.Identifier(names[0])] + IdentifierTokens(names[1..])
  }

  /** `ts` occurs in `toks` starting at index `q`. */
  predicate OccursAt(toks: seq<Token>, q: nat, ts: seq<Token>) {
    q + |ts| <= |toks| && forall i :: 0 <= i < |ts| ==> toks[q + i] == ts[i]
  }

  /** A list of two or more elements opens with its first element and a comma. */
  lemma ListTokensCons(elements: seq<Token>, trailingComma: bool)
    requires |elements| >= 2
    ensures ListTokens(elements, trailingComma) == [elements[0], Comma] + ListTokens(elements[1..], trailingComma)
  {
  }

  /** The part of a list after its first element and comma. */
  lemma OccursAfterPair(toks: seq<Token>, q: nat, x: Token, rest: seq<Token>)
    requires OccursAt(toks, q, [x, Comma] + rest)
    ensures toks[q] == x && toks[q + 1] == Comma && OccursAt(toks, q + 2, rest)
  {
    var ts := [x, Comma] + rest;
    assert ts[0] == x && ts[1] == Comma;
    forall i | 0 <= i < |rest| ensures toks[q + 2 + i] == rest[i] {
      assert ts[2 + i] == rest[i];
    }
  }

  /** The last parameter: `name )` or `name , )`. */
  lemma ProcArgsLoopLast(toks: seq<Token>, q: nat, acc: seq<Identifier>, name: Identifier, trailingComma: bool)
    requires OccursAt(toks, q, ListTokens([Token.Identifier(name)], trailingComma))
    ensures ProcArgsLoop(toks, q, acc) ==
            Ok(acc + [name], q + |ListTokens([Token.Identifier(name)], trailingComma)|)
  {
    var ts := ListTokens([Token.Identifier(name)], trailingComma);
    assert ts[0] == Token.Identifier(name) && toks[q] == ts[0];
    if trailingComma {
      assert ts[1] == Comma && ts[2] == RightParen;
      assert toks[q + 1] == Comma && toks[q + 2] == RightParen;
      assert ProcArgsLoop(toks, q + 2, acc + [name]) == Ok(acc + [name], q + 3);
    } else {
      assert ts[1] == RightParen && toks[q + 1] == RightParen;
    }
  }

  /** One `name ,` step of the parameter loop. */
  lemma ProcArgsLoopStep(toks: seq<Token>, q: nat, acc: seq<Identifier>, name: Identifier)
    requires q + 1 < |toks| && toks[q] == Token.Identifier(name) && toks[q + 1] == Comma
    ensures ProcArgsLoop(toks, q, acc) == ProcArgsLoop(toks, q + 2, acc + [name])
  {
  }

  /** The parameter loop reads a list of identifiers, trailing comma or not. */
  lemma {:induction false} ProcArgsLoopReadsList(toks: seq<Token>, q: nat, acc: seq<Identifier>,
                                                 elements: seq<Token>, names: seq<Identifier>,
                                                 trailingComma: bool)
    requires |elements| == |names|
    requires forall i :: 0 <= i < |names| ==> elements[i] == Token.Identifier(names[i])
    requires OccursAt(toks, q, ListTokens(elements, trailingComma))
    ensures ProcArgsLoop(toks, q, acc) == Ok(acc + names, q + |ListTokens(elements, trailingComma)|)
    decreases |names|, 1
  {
    if |names| == 0 {
      assert toks[q] == ListTokens(elements, trailingComma)[0];
      assert acc + names == acc;
    } else if |names| == 1 {
      assert elements == [Token.Identifier(names[0])];
      ProcArgsLoopLast(toks, q, acc, names[0], trailingComma);
      assert acc + [names[0]] == acc + names;
    } else {
      ProcArgsLoopReadsMany(toks, q, acc, elements, names, trailingComma);
    }
  }

  /** The same, for two or more names: one `name ,` step, then the rest of the list. */
  lemma {:induction false} ProcArgsLoopReadsMany(toks: seq<Token>, q: nat, acc: seq<Identifier>,
                                                 elements: seq<Token>, names: seq<Identifier>,
                                                 trailingComma: bool)
    requires |elements| == |names| >= 2
    requires forall i :: 0 <= i < |names| ==> elements[i] == Token.Identifier(names[i])
    requires OccursAt(toks, q, ListTokens(elements, trailingComma))
    ensures ProcArgsLoop(toks, q, acc) == Ok(acc + names, q + |ListTokens(elements, trailingComma)|)
    decreases |names|, 0
  {
    var rest := ListTokens(elements[1..], trailingComma);
    ListTokensCons(elements, trailingComma);
    OccursAfterPair(toks, q, elements[0], rest);
    ProcArgsLoopStep(toks, q, acc, names[0]);
    var acc', names' := acc + [names[0]], names[1..];
    ProcArgsLoopReadsList(toks, q + 2, acc', elements[1..], names', trailingComma);
    assert acc' + names' == acc + names;
  }

  /** An occurrence right after a one-token prefix. */
  lemma OccursAfterOne(x: Token, ts: seq<Token>, rest: seq<Token>)
    ensures OccursAt([x] + ts + rest, 1, ts)
  {
    var toks := [x] + ts + rest;
    forall i | 0 <= i < |ts| ensures toks[1 + i] == ts[i] {
    }
  }

  /** `( a, b, ..., )`: the parameter list, with or without a trailing comma. */
  lemma ProcArgsAccepted(names: seq<Identifier>, trailingComma: bool, rest: seq<Token>)
    ensures var ts := [LeftParen] + ListTokens(IdentifierTokens(names), trailingComma);
      ProcArgsAt(ts + rest, 0) == Ok(names, |ts|)
  {
    var list := ListTokens(IdentifierTokens(names), trailingComma);
    OccursAfterOne(LeftParen, list, rest);
    var toks := [LeftParen] + list + rest;
    ProcArgsLoopReadsList(toks, 1, [], IdentifierTokens(names), names, trailingComma);
    assert [] + names == names;
    assert TokenAt(toks, 0) == LeftParen;
  }

  /** A comma with no name before it is rejected. */
  lemma ProcArgsLeadingCommaFatal(rest: seq<Token>)
    ensures ProcArgsAt([LeftParen, Comma] + rest, 0).Fatal?
  {
  }

  /** Two names with no comma between them, as in `proc f(a b) {}`, are rejected. */
  lemma ProcArgsMissingCommaFatal(a: Identifier, b: Identifier, rest: seq<Token>)
    ensures ProcArgsAt([LeftParen, Token.Identifier(a), Token.Identifier(b)] + rest, 0).Fatal?
  {
  }

  /** The expression a literal or identifier argument stands for. */
  function AtomArgument(t: Token): Expression
    requires IsAtom(t)
  {
    Expression.Unary(Unary.Call(Call.Primary(Atom(t))))
  }

  /** A literal or identifier followed by `,` or `)` is a complete expression. */
  lemma AtomParses(toks: seq<Token>, q: nat)
    requires q + 1 < |toks| && IsAtom(toks[q]) && (toks[q + 1] == Comma || toks[q + 1] == RightParen)
    ensures ExpressionAt(toks, q) == Ok(AtomArgument(toks[q]), q + 1)
  {
    assert CallAt(toks, q) == Ok(Call.Primary(Atom(toks[q])), q + 1);
  }

  /** The last argument: `x )` or `x , )`. */
  lemma CallArgsLoopLast(toks: seq<Token>, q: nat, acc: seq<Expression>, atom: Token, trailingComma: bool)
    requires IsAtom(atom)
    requires OccursAt(toks, q, ListTokens([atom], trailingComma))
    ensures CallArgsLoop(toks, q, acc) ==
            Ok(acc + [AtomArgument(atom)], q + |ListTokens([atom], trailingComma)|)
  {
    var ts := ListTokens([atom], trailingComma);
    assert ts[0] == atom && toks[q] == atom;
    if trailingComma {
      assert ts[1] == Comma && ts[2] == RightParen;
      assert toks[q + 1] == Comma && toks[q + 2] == RightParen;
      AtomParses(toks, q);
      assert CallArgsLoop(toks, q + 2, acc + [AtomArgument(atom)]) == Ok(acc + [AtomArgument(atom)], q + 3);
    } else {
      assert ts[1] == RightParen && toks[q + 1] == RightParen;
      AtomParses(toks, q);
    }
  }

  /** One `x ,` step of the argument loop. */
  lemma CallArgsLoopStep(toks: seq<Token>, q: nat, acc: seq<Expression>)
    requires q + 1 < |toks| && IsAtom(toks[q]) && toks[q + 1] == Comma
    ensures CallArgsLoop(toks, q, acc) == CallArgsLoop(toks, q + 2, acc + [AtomArgument(toks[q])])
  {
    AtomParses(toks, q);
  }

  /** The argument loop reads a list of literal or identifier arguments. */
  lemma {:induction false} CallArgsLoopReadsList(toks: seq<Token>, q: nat, acc: seq<Expression>,
                                                 atoms: seq<Token>, args: seq<Expression>,
                                                 trailingComma: bool)
    requires |atoms| == |args|
    requires forall i :: 0 <= i < |atoms| ==> IsAtom(atoms[i]) && args[i] == AtomArgument(atoms[i])
    requires OccursAt(toks, q, ListTokens(atoms, trailingComma))
    ensures CallArgsLoop(toks, q, acc) == Ok(acc + args, q + |ListTokens(atoms, trailingComma)|)
    decreases |atoms|, 1
  {
    if |atoms| == 0 {
      assert toks[q] == ListTokens(atoms, trailingComma)[0];
      assert acc + args == acc;
    } else if |atoms| == 1 {
      assert atoms == [atoms[0]] && args == [AtomArgument(atoms[0])];
      CallArgsLoopLast(toks, q, acc, atoms[0], trailingComma);
    } else {
      CallArgsLoopReadsMany(toks, q, acc, atoms, args, trailingComma);
    }
  }

  /** The same, for two or more arguments: one `x ,` step, then the rest of the list. */
  lemma {:induction false} CallArgsLoopReadsMany(toks: seq<Token>, q: nat, acc: seq<Expression>,
                                                 atoms: seq<Token>, args: seq<Expression>,
                                                 trailingComma: bool)
    requires |atoms| == |args| >= 2
    requires forall i :: 0 <= i < |atoms| ==> IsAtom(atoms[i]) && args[i] == AtomArgument(atoms[i])
    requires OccursAt(toks, q, ListTokens(atoms, trailingComma))
    ensures CallArgsLoop(toks, q, acc) == Ok(acc + args, q + |ListTokens(atoms, trailingComma)|)
    decreases |atoms|, 0
  {
    var rest := ListTokens(atoms[1..], trailingComma);
    ListTokensCons(atoms, trailingComma);
    OccursAfterPair(toks, q, atoms[0], rest);
    CallArgsLoopStep(toks, q, acc);
    var acc', args' := acc + [args[0]], args[1..];
    CallArgsLoopReadsList(toks, q + 2, acc', atoms[1..], args', trailingComma);
    assert acc' + args' == acc + args;
  }

  /** `( x, 1, "s", )`: the argument list, with or without a trailing comma. */
  lemma CallArgsAccepted(atoms: seq<Token>, trailingComma: bool, rest: seq<Token>)
    requires forall i :: 0 <= i < |atoms| ==> IsAtom(atoms[i])
    ensures var ts := [LeftParen] + ListTokens(atoms, trailingComma);
      var r := CallArgsAt(ts + rest, 0);
      r.Ok? && r.pos == |ts| && |r.value| == |atoms| &&
      forall i :: 0 <= i < |atoms| ==> r.value[i] == AtomArgument(atoms[i])
  {
    var list := ListTokens(atoms, trailingComma);
    OccursAfterOne(LeftParen, list, rest);
    var toks := [LeftParen] + list + rest;
    var args := seq(|atoms|, i requires 0 <= i < |atoms| => AtomArgument(atoms[i]));
    CallArgsLoopReadsList(toks, 1, [], atoms, args, trailingComma);
    assert [] + args == args;
    assert TokenAt(toks, 0) == LeftParen;
  }

  // ---------------------------------------------------------------------
  // Argument lists of any expressions
  // ---------------------------------------------------------------------

  /**
    The grammar of what follows the `(` of a call: the expressions `args`,
    each followed by a comma except possibly the last, then `)`; `end` is the
    position just past the `)`.
   */
  predicate ArgumentsAt(toks: seq<Token>, q: nat, args: seq<Expression>, end: nat)
    decreases |args|
  {
    if args == [] then TokenAt(toks, q) == RightParen && end == q + 1
    else
      ExpressionAt(toks, q).Ok? && ExpressionAt(toks, q).value == args[0] &&
      var s := ExpressionAt(toks, q).pos;
      if |args| == 1 then
        (TokenAt(toks, s) == RightParen && end == s + 1) ||
        (TokenAt(toks, s) == Comma && TokenAt(toks, s + 1) == RightParen && end == s + 2)
      else
        TokenAt(toks, s) == Comma && ArgumentsAt(toks, s + 1, args[1..], end)
  }

  /** One `e ,` step of the argument loop, for any expression `e`. */
  lemma CallArgsLoopStepAny(toks: seq<Token>, q: nat, acc: seq<Expression>)
    requires ExpressionAt(toks, q).Ok? && TokenAt(toks, ExpressionAt(toks, q).pos) == Comma
    ensures CallArgsLoop(toks, q, acc) ==
            CallArgsLoop(toks, ExpressionAt(toks, q).pos + 1, acc + [ExpressionAt(toks, q).value])
  {
    if TokenAt(toks, q) == RightParen {
      ExpressionNotAtClose(toks, q);
    }
  }

  /** The last argument of a list the grammar describes: `e )` or `e , )`. */
  lemma CallArgsLoopReadsLast(toks: seq<Token>, q: nat, acc: seq<Expression>, args: seq<Expression>, end: nat)
    requires |args| == 1 && ArgumentsAt(toks, q, args, end)
    ensures CallArgsLoop(toks, q, acc) == Ok(acc + args, end)
  {
    if TokenAt(toks, q) == RightParen {
      ExpressionNotAtClose(toks, q);
    }
    var s := ExpressionAt(toks, q).pos;
    assert args == [args[0]];
    if TokenAt(toks, s) == Comma {
      assert CallArgsLoop(toks, s + 1, acc + args) == Ok(acc + args, s + 2);
    }
  }

  /** The argument loop reads every list the grammar describes. */
  lemma {:induction false} CallArgsLoopReadsArguments(toks: seq<Token>, q: nat, acc: seq<Expression>,
                                                      args: seq<Expression>, end: nat)
    requires ArgumentsAt(toks, q, args, end)
    ensures CallArgsLoop(toks, q, acc) == Ok(acc + args, end)
    decreases |args|, 1
  {
    if args == [] {
      assert acc + args == acc;
    } else if |args| == 1 {
      CallArgsLoopReadsLast(toks, q, acc, args, end);
    } else {
      assert args == [args[0]] + args[1..];
      CallArgsLoopReadsMore(toks, q, acc, args[0], ExpressionAt(toks, q).pos, args[1..], end);
      assert acc + [args[0]] + args[1..] == acc + args;
    }
  }

  /**
    The same, for two or more arguments: the first, `e`, ends at `s` before a
    comma, and the rest of the list follows.
   */
  lemma {:induction false} CallArgsLoopReadsMore(toks: seq<Token>, q: nat, acc: seq<Expression>,
                                                 e: Expression, s: nat, rest: seq<Expression>, end: nat)
    requires ExpressionAt(toks, q) == Ok(e, s) && TokenAt(toks, s) == Comma
    requires rest != [] && ArgumentsAt(toks, s + 1, rest, end)
    ensures CallArgsLoop(toks, q, acc) == Ok(acc + [e] + rest, end)
    decreases |rest| + 1, 0
  {
    CallArgsLoopStepAny(toks, q, acc);
    CallArgsLoopReadsArguments(toks, s + 1, acc + [e], rest, end);
  }

  /** Every list the argument loop accepts is one the grammar describes. */
  lemma {:induction false} CallArgsLoopFollowsGrammar(toks: seq<Token>, q: nat, acc: seq<Expression>)
    requires CallArgsLoop(toks, q, acc).Ok?
    ensures ArgumentsAt(toks, q, CallArgsLoop(toks, q, acc).value[|acc|..], CallArgsLoop(toks, q, acc).pos)
    decreases Rem(toks, q)
  {
    var r := CallArgsLoop(toks, q, acc);
    if TokenAt(toks, q) == RightParen {
      assert r.value[|acc|..] == [];
    } else {
      var e, s := ExpressionAt(toks, q).value, ExpressionAt(toks, q).pos;
      if TokenAt(toks, s) == Comma {
        CallArgsLoopFollowsGrammar(toks, s + 1, acc + [e]);
        var rest := r.value[|acc| + 1..];
        assert r.value[|acc|..] == [e] + rest;
        if rest != [] {
          assert ([e] + rest)[1..] == rest;
        }
      } else {
        assert r.value[|acc|..] == [e];
      }
    }
  }

  /**
    A call's argument list parses to `args` ending at `end` exactly when a
    `(` opens it and the grammar above describes the rest.
   */
  lemma CallArgsExactly(toks: seq<Token>, p: nat, args: seq<Expression>, end: nat)
    ensures CallArgsAt(toks, p) == Ok(args, end) <==>
      TokenAt(toks, p) == LeftParen && ArgumentsAt(toks, p + 1, args, end)
  {
    if TokenAt(toks, p) == LeftParen {
      if ArgumentsAt(toks, p + 1, args, end) {
        CallArgsLoopReadsArguments(toks, p + 1, [], args, end);
        assert [] + args == args;
      }
      if CallArgsAt(toks, p) == Ok(args, end) {
        CallArgsLoopFollowsGrammar(toks, p + 1, []);
        assert args[0..] == args;
      }
    }
  }

  // ---------------------------------------------------------------------
  // Parameter lists, both ways
  // ---------------------------------------------------------------------

  /**
    The grammar of what follows the `(` of a procedure: the identifiers
    `names`, each followed by a comma except possibly the last, then `)`;
    `end` is the position just past the `)`.
   */
  predicate ParametersAt(toks: seq<Token>, q: nat, names: seq<Identifier>, end: nat)
    decreases |names|
  {
    if names == [] then TokenAt(toks, q) == RightParen && end == q + 1
    else
      TokenAt(toks, q) == Token.Identifier(names[0]) &&
      if |names| == 1 then
        (TokenAt(toks, q + 1) == RightParen && end == q + 2) ||
        (TokenAt(toks, q + 1) == Comma && TokenAt(toks, q + 2) == RightParen && end == q + 3)
      else
        TokenAt(toks, q + 1) == Comma && ParametersAt(toks, q + 2, names[1..], end)
  }

  /** The last name of a list the grammar describes: `a )` or `a , )`. */
  lemma ProcArgsLoopReadsLastName(toks: seq<Token>, q: nat, acc: seq<Identifier>, names: seq<Identifier>, end: nat)
    requires |names| == 1 && ParametersAt(toks, q, names, end)
    ensures ProcArgsLoop(toks, q, acc) == Ok(acc + names, end)
  {
    assert names == [names[0]];
    if TokenAt(toks, q + 1) == Comma {
      assert ProcArgsLoop(toks, q + 2, acc + names) == Ok(acc + names, q + 3);
    }
  }

  /** The parameter loop reads every list the grammar describes. */
  lemma {:induction false} ProcArgsLoopReadsParameters(toks: seq<Token>, q: nat, acc: seq<Identifier>,
                                                       names: seq<Identifier>, end: nat)
    requires ParametersAt(toks, q, names, end)
    ensures ProcArgsLoop(toks, q, acc) == Ok(acc + names, end)
    decreases |names|, 1
  {
    if names == [] {
      assert acc + names == acc;
    } else if |names| == 1 {
      ProcArgsLoopReadsLastName(toks, q, acc, names, end);
    } else {
      ProcArgsLoopReadsMoreNames(toks, q, acc, names, end);
    }
  }

  /** The same, for two or more names: one `a ,` step, then the rest of the list. */
  lemma {:induction false} ProcArgsLoopReadsMoreNames(toks: seq<Token>, q: nat, acc: seq<Identifier>,
                                                      names: seq<Identifier>, end: nat)
    requires |names| >= 2 && ParametersAt(toks, q, names, end)
    ensures ProcArgsLoop(toks, q, acc) == Ok(acc + names, end)
    decreases |names|, 0
  {
    assert ParametersAt(toks, q + 2, names[1..], end);
    assert ProcArgsLoop(toks, q, acc) == ProcArgsLoop(toks, q + 2, acc + [names[0]]);
    ProcArgsLoopReadsParameters(toks, q + 2, acc + [names[0]], names[1..], end);
    assert acc + [names[0]] + names[1..] == acc + names;
  }

  /** Every list the parameter loop accepts is one the grammar describes. */
  lemma {:induction false} ProcArgsLoopFollowsGrammar(toks: seq<Token>, q: nat, acc: seq<Identifier>)
    requires ProcArgsLoop(toks, q, acc).Ok?
    ensures ParametersAt(toks, q, ProcArgsLoop(toks, q, acc).value[|acc|..], ProcArgsLoop(toks, q, acc).pos)
    decreases Rem(toks, q)
  {
    var r := ProcArgsLoop(toks, q, acc);
    var t := TokenAt(toks, q);
    if t.Identifier? {
      if TokenAt(toks, q + 1) == Comma {
        ProcArgsLoopFollowsGrammar(toks, q + 2, acc + [t.name]);
        var rest := r.value[|acc| + 1..];
        assert r.value[|acc|..] == [t.name] + rest;
        if rest != [] {
          assert ([t.name] + rest)[1..] == rest;
        }
      } else {
        assert r.value[|acc|..] == [t.name];
      }
    } else {
      assert r.value[|acc|..] == [];
    }
  }

  /**
    A procedure's parameter list parses to `names` ending at `end` exactly
    when a `(` opens it and the grammar above describes the rest; any other
    token sequence, such as `(a b)` or `(, a)`, is fatal.
   */
  lemma ProcArgsExactly(toks: seq<Token>, p: nat, names: seq<Identifier>, end: nat)
    ensures ProcArgsAt(toks, p) == Ok(names, end) <==>
      TokenAt(toks, p) == LeftParen && ParametersAt(toks, p + 1, names, end)
  {
    if TokenAt(toks, p) == LeftParen {
      if ParametersAt(toks, p + 1, names, end) {
        ProcArgsLoopReadsParameters(toks, p + 1, [], names, end);
        assert [] + names == names;
      }
      if ProcArgsAt(toks, p) == Ok(names, end) {
        ProcArgsLoopFollowsGrammar(toks, p + 1, []);
        assert names[0..] == names;
      }
    }
  }
}
