/**
  Whole parses written out: the tree the parser builds for a few short token
  vectors, including the shapes that follow from re-parsing the left operand
  of a binary expression from the token before the operator.
 */
module ParserExamples {
  import opened Wrappers
  import opened Tokens
  import opened Ast
  import opened Parser

  /** A primary on its own, as an expression. */
  function Leaf(p: Primary): Expression {
    Expression.Unary(Unary.Call(Call.Primary(p)))
  }

  /** `var x = 1` */
  lemma VarDeclarationExample()
    ensures ProgramAt([Token.Var, Token.Identifier("x"), Equal, Token.Int(1)], 0) ==
      Ok(Program([Item.Declaration(Declaration.Var(Var.Var("x", Leaf(Primary.Int(1)))))]), 4)
  {
    var toks := [Token.Var, Token.Identifier("x"), Equal, Token.Int(1)];
    assert UnaryAt(toks, 3) == Ok(Unary.Call(Call.Primary(Primary.Int(1))), 4);
    assert ExpressionAt(toks, 3) == Ok(Leaf(Primary.Int(1)), 4);
    var item := Item.Declaration(Declaration.Var(Var.Var("x", Leaf(Primary.Int(1)))));
    assert ItemAt(toks, 0) == Ok(item, 4);
    assert [] + [item] == [item];
    assert ItemsFrom(toks, 4, false, [item]) == Ok([item], 4);
    assert ItemsFrom(toks, 0, false, []) == Ok([item], 4);
  }

  /** `x = y` is an assignment. */
  lemma AssignmentItem()
    ensures ProgramAt([Token.Identifier("x"), Equal, Token.Identifier("y")], 0) ==
      Ok(Program([Item.Assignment(Assignment.Assignment("x", Leaf(Primary.Identifier("y"))))]), 3)
  {
    var toks := [Token.Identifier("x"), Equal, Token.Identifier("y")];
    assert ExpressionAt(toks, 2) == Ok(Leaf(Primary.Identifier("y")), 3);
    var a := Item.Assignment(Assignment.Assignment("x", Leaf(Primary.Identifier("y"))));
    assert ItemAt(toks, 0) == Ok(a, 3);
    assert [] + [a] == [a];
    assert ItemsFrom(toks, 3, false, [a]) == Ok([a], 3);
  }

  /** The tokens of `x y`. */
  const TwoNames: seq<Token> := [Token.Identifier("x"), Token.Identifier("y")]

  /** `x` in `x y` is an expression item on its own. */
  lemma FirstNameItem()
    ensures ItemAt(TwoNames, 0) == Ok(Item.Expression(Leaf(Primary.Identifier("x"))), 1)
  {
    assert ExpressionAt(TwoNames, 0) == Ok(Leaf(Primary.Identifier("x")), 1);
  }

  /** So is `y`. */
  lemma SecondNameItem()
    ensures ItemAt(TwoNames, 1) == Ok(Item.Expression(Leaf(Primary.Identifier("y"))), 2)
  {
    assert ExpressionAt(TwoNames, 1) == Ok(Leaf(Primary.Identifier("y")), 2);
  }

  /** `x y` is two expression items. */
  lemma ExpressionItems()
    ensures ProgramAt(TwoNames, 0) ==
      Ok(Program([Item.Expression(Leaf(Primary.Identifier("x"))), Item.Expression(Leaf(Primary.Identifier("y")))]), 2)
  {
    var toks := TwoNames;
    var x := Item.Expression(Leaf(Primary.Identifier("x")));
    var y := Item.Expression(Leaf(Primary.Identifier("y")));
    FirstNameItem();
    SecondNameItem();
    assert ItemsFrom(toks, 2, false, [x, y]) == Ok([x, y], 2);
    assert [x] + [y] == [x, y];
    assert [] + [x] == [x];
    assert ItemsFrom(toks, 1, false, [x]) == Ok([x, y], 2);
  }

  /** The tokens of `proc f(a, b) { return a }`. */
  const ProcTokens: seq<Token> := [Token.Proc, Token.Identifier("f"), LeftParen, Token.Identifier("a"), Comma,
                                   Token.Identifier("b"), RightParen, LeftBrace, Token.Return,
                                   Token.Identifier("a"), RightBrace]

  /** The body of that procedure: one expression item, `return a`. */
  function ProcBody(): Program {
    Program([Item.Expression(Leaf(Primary.Return(Leaf(Primary.Identifier("a")))))])
  }

  /** Its parameter list `(a, b)`. */
  lemma ProcExampleParameters()
    ensures ProcArgsAt(ProcTokens, 2) == Ok(["a", "b"], 7)
  {
    var toks := ProcTokens;
    assert ["a"] + ["b"] == ["a", "b"];
    assert ProcArgsLoop(toks, 5, ["a"]) == Ok(["a", "b"], 7);
    assert [] + ["a"] == ["a"];
  }

  /** The item `return a` inside it. */
  lemma ProcExampleReturn()
    ensures ItemAt(ProcTokens, 8) == Ok(Item.Expression(Leaf(Primary.Return(Leaf(Primary.Identifier("a"))))), 10)
  {
    var toks := ProcTokens;
    assert ExpressionAt(toks, 9) == Ok(Leaf(Primary.Identifier("a")), 10);
    var ret := Leaf(Primary.Return(Leaf(Primary.Identifier("a"))));
    assert UnaryAt(toks, 8) == Ok(Unary.Call(Call.Primary(Primary.Return(Leaf(Primary.Identifier("a"))))), 10);
    assert ExpressionAt(toks, 8) == Ok(ret, 10);
  }

  /** Its block `{ return a }`. */
  lemma ProcExampleBlock()
    ensures BlockAt(ProcTokens, 7) == Ok(ProcBody(), 11)
  {
    var toks := ProcTokens;
    var ret := Leaf(Primary.Return(Leaf(Primary.Identifier("a"))));
    ProcExampleReturn();
    assert [] + [Item.Expression(ret)] == [Item.Expression(ret)];
    assert ItemsFrom(toks, 10, true, [Item.Expression(ret)]) == Ok([Item.Expression(ret)], 10);
  }

  /** `proc f(a, b) { return a }` */
  lemma ProcExample()
    ensures ProgramAt(ProcTokens, 0) ==
      Ok(Program([Item.Declaration(Declaration.Proc(Proc.Proc("f", ["a", "b"],
           Program([Item.Expression(Leaf(Primary.Return(Leaf(Primary.Identifier("a")))))]))))]), 11)
  {
    var toks := ProcTokens;
    ProcExampleParameters();
    ProcExampleBlock();
    var item := Item.Declaration(Declaration.Proc(Proc.Proc("f", ["a", "b"], ProcBody())));
    assert ItemAt(toks, 0) == Ok(item, 11);
    assert [] + [item] == [item];
    assert ItemsFrom(toks, 11, false, [item]) == Ok([item], 11);
  }

  /** `proc f() {` with no closing brace is still a procedure with an empty body. */
  lemma UnclosedBlockAccepted()
    ensures ProgramAt([Token.Proc, Token.Identifier("f"), LeftParen, RightParen, LeftBrace], 0) ==
      Ok(Program([Item.Declaration(Declaration.Proc(Proc.Proc("f", [], Program([]))))]), 6)
  {
    var toks := [Token.Proc, Token.Identifier("f"), LeftParen, RightParen, LeftBrace];
    assert ProcArgsAt(toks, 2) == Ok([], 4);
    assert BlockAt(toks, 4) == Ok(Program([]), 6);
    var item := Item.Declaration(Declaration.Proc(Proc.Proc("f", [], Program([]))));
    assert ItemAt(toks, 0) == Ok(item, 6);
    assert [] + [item] == [item];
    assert ItemsFrom(toks, 6, false, [item]) == Ok([item], 6);
  }

  /** The tokens of `1 + 2 * 3`. */
  const NestingTokens: seq<Token> := [Token.Int(1), Token.Plus, Token.Int(2), Star, Token.Int(3)]

  /** The inner binary `2 * 3` of that expression. */
  function InnerProduct(): Binary {
    Binary.Binary(Unary.Call(Call.Primary(Primary.Int(2))), Multiply, Leaf(Primary.Int(3)))
  }

  /** `2 * 3`, read from the `2`. */
  lemma NestingInner()
    ensures ExpressionAt(NestingTokens, 2) == Ok(Expression.Binary(InnerProduct()), 5)
  {
    var toks := NestingTokens;
    var two := Unary.Call(Call.Primary(Primary.Int(2)));
    assert ExpressionAt(toks, 4) == Ok(Leaf(Primary.Int(3)), 5);
    assert UnaryAt(toks, 2) == Ok(two, 3);
    assert BinaryLoop(toks, two, Some(InnerProduct()), 5) == Ok(InnerProduct(), 5);
    assert BinaryAt(toks, 2) == Ok(InnerProduct(), 5);
  }

  /** `1 + 2 * 3`: the right operand is the whole rest, so operators nest to the right. */
  lemma RightNestingExample()
    ensures ExpressionAt(NestingTokens, 0) ==
      Ok(Expression.Binary(Binary.Binary(Unary.Call(Call.Primary(Primary.Int(1))), BinaryOperator.Plus,
           Expression.Binary(Binary.Binary(Unary.Call(Call.Primary(Primary.Int(2))), Multiply,
             Leaf(Primary.Int(3)))))), 5)
  {
    var toks := NestingTokens;
    var one := Unary.Call(Call.Primary(Primary.Int(1)));
    NestingInner();
    var outer := Binary.Binary(one, BinaryOperator.Plus, Expression.Binary(InnerProduct()));
    assert UnaryAt(toks, 0) == Ok(one, 1);
    assert BinaryLoop(toks, one, Some(outer), 5) == Ok(outer, 5);
    assert BinaryAt(toks, 0) == Ok(outer, 5);
  }

  /**
    `!a + b`: the binary is re-parsed from `a`, the token before `+`, so the
    negation is lost.
   */
  lemma NegatedLeftOperandDropped()
    ensures ExpressionAt([Bang, Token.Identifier("a"), Token.Plus, Token.Identifier("b")], 0) ==
      Ok(Expression.Binary(Binary.Binary(Unary.Call(Call.Primary(Primary.Identifier("a"))),
           BinaryOperator.Plus, Leaf(Primary.Identifier("b")))), 4)
  {
    var toks := [Bang, Token.Identifier("a"), Token.Plus, Token.Identifier("b")];
    var a := Unary.Call(Call.Primary(Primary.Identifier("a")));
    assert UnaryAt(toks, 1) == Ok(a, 2);
    assert UnaryAt(toks, 0) == Ok(UnaryOperation(Negate, a), 2);
    assert ExpressionAt(toks, 3) == Ok(Leaf(Primary.Identifier("b")), 4);
    var b := Binary.Binary(a, BinaryOperator.Plus, Leaf(Primary.Identifier("b")));
    assert BinaryLoop(toks, a, Some(b), 4) == Ok(b, 4);
    assert BinaryAt(toks, 1) == Ok(b, 4);
  }

  /** `(a)` alone is a grouping. */
  lemma GroupingExample()
    ensures ExpressionAt([LeftParen, Token.Identifier("a"), RightParen], 0) ==
      Ok(Leaf(Grouping(Leaf(Primary.Identifier("a")))), 3)
  {
    var toks := [LeftParen, Token.Identifier("a"), RightParen];
    assert ExpressionAt(toks, 1) == Ok(Leaf(Primary.Identifier("a")), 2);
    assert PrimaryAt(toks, 0) == Ok(Grouping(Leaf(Primary.Identifier("a"))), 3);
    assert UnaryAt(toks, 0) == Ok(Unary.Call(Call.Primary(Grouping(Leaf(Primary.Identifier("a"))))), 3);
  }

  /**
    `(a) + b` is fatal: the binary is re-parsed from `)`, the token before
    `+`, and no expression starts with `)`.
   */
  lemma GroupedLeftOperandFatal()
    ensures ExpressionAt([LeftParen, Token.Identifier("a"), RightParen, Token.Plus, Token.Identifier("b")], 0).Fatal?
  {
    var toks := [LeftParen, Token.Identifier("a"), RightParen, Token.Plus, Token.Identifier("b")];
    assert ExpressionAt(toks, 1) == Ok(Leaf(Primary.Identifier("a")), 2);
    assert UnaryAt(toks, 0) == Ok(Unary.Call(Call.Primary(Grouping(Leaf(Primary.Identifier("a"))))), 3);
    assert UnaryAt(toks, 2).Fatal?;
  }

  /**
    `f(x) + 1` is fatal for the same reason: the binary is re-parsed from the
    call's closing `)`.
   */
  lemma CallLeftOperandFatal()
    ensures ExpressionAt([Token.Identifier("f"), LeftParen, Token.Identifier("x"), RightParen, Token.Plus, Token.Int(1)], 0).Fatal?
  {
    var toks := [Token.Identifier("f"), LeftParen, Token.Identifier("x"), RightParen, Token.Plus, Token.Int(1)];
    var x := Leaf(Primary.Identifier("x"));
    assert ExpressionAt(toks, 2) == Ok(x, 3);
    assert [] + [x] == [x];
    assert CallArgsLoop(toks, 2, []) == Ok([x], 4);
    assert CallArgsAt(toks, 1) == Ok([Leaf(Primary.Identifier("x"))], 4);
    assert UnaryAt(toks, 0) == Ok(Unary.Call(CallLiteral("f", [Leaf(Primary.Identifier("x"))])), 4);
    assert UnaryAt(toks, 3).Fatal?;
  }

  /** The tokens of `f(x, 1)`. */
  const CallTokens: seq<Token> := [Token.Identifier("f"), LeftParen, Token.Identifier("x"), Comma, Token.Int(1), RightParen]

  /** Its argument list `(x, 1)`. */
  lemma CallExampleArguments()
    ensures CallArgsAt(CallTokens, 1) == Ok([Leaf(Primary.Identifier("x")), Leaf(Primary.Int(1))], 6)
  {
    var toks := CallTokens;
    var x, one := Leaf(Primary.Identifier("x")), Leaf(Primary.Int(1));
    assert ExpressionAt(toks, 2) == Ok(x, 3);
    assert ExpressionAt(toks, 4) == Ok(one, 5);
    assert [x] + [one] == [x, one];
    assert [] + [x] == [x];
    assert CallArgsLoop(toks, 4, [x]) == Ok([x, one], 6);
  }

  /** `f(x, 1)` is a call with two arguments. */
  lemma CallExample()
    ensures ExpressionAt(CallTokens, 0) ==
      Ok(Expression.Unary(Unary.Call(CallLiteral("f", [Leaf(Primary.Identifier("x")), Leaf(Primary.Int(1))]))), 6)
  {
    CallExampleArguments();
  }

  /** An item cannot start with a literal, and `var x 1` lacks its `=`. */
  lemma RejectedItems()
    ensures ProgramAt([Token.Int(1)], 0).Fatal?
    ensures ProgramAt([Token.Var, Token.Identifier("x"), Token.Int(1)], 0).Fatal?
  {
    assert ItemAt([Token.Int(1)], 0).Fatal?;
    assert ItemAt([Token.Var, Token.Identifier("x"), Token.Int(1)], 0).Fatal?;
  }
}
