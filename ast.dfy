/**
  The tree the parser builds. A program is a list of items; a binary
  expression has a unary left operand and a whole expression on its right, so
  chains of operators nest to the right.
 */
module Ast {
  import opened Tokens

  type Identifier = string

  /**
    The innermost expressions. `Grouping` is a parenthesised expression; float
    literals keep their text.
   */
  datatype Primary =
    | True
    | False
    | Null
    | Float(literal: string)
    | Int(value: I64)
    | String(text: string)
    | Identifier(name: Identifier)
    | Return(returned: Expression)
    | Grouping(inner: Expression)

  datatype Call =
    | Primary(primary: Primary)
    | CallLiteral(identifier: Identifier, callArgs: seq<Expression>)

  datatype UnaryOperator = Negate

  datatype Unary =
    | Call(call: Call)
    | UnaryOperation(operator: UnaryOperator, unary: Unary)

  datatype BinaryOperator = Plus | Minus | Multiply | Divide

  datatype Binary = Binary(left: Unary, operator: BinaryOperator, right: Expression)

  datatype Expression =
    | Unary(unary: Unary)
    | Binary(binary: Binary)

  datatype Assignment = Assignment(identifier: Identifier, expr: Expression)

  datatype Var = Var(identifier: Identifier, expr: Expression)

  datatype Const = Const(identifier: Identifier, expr: Expression)

  datatype Proc = Proc(identifier: Identifier, procArgs: seq<Identifier>, block: Program)

  datatype Declaration =
    | Var(varDecl: Var)
    | Const(constDecl: Const)
    | Proc(procDecl: Proc)

  datatype Item =
    | Assignment(assignment: Assignment)
    | Declaration(declaration: Declaration)
    | Expression(expression: Expression)

  /** A program, and also the body of a procedure. */
  datatype Program = Program(items: seq<Item>)
}
