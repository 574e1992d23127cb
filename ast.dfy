/** The abstract syntax tree (src/parser/ast.ts). The source declares Program,
    VarDeclaration, VarAssignment, BinaryExpr, Identifier and IntLiteral; the
    node kinds FunDeclaration, PrintStmt, FunCall, ReturnStmt and IfExpr are
    imported from it but not declared there, and are reconstructed here from
    the fields the parser and the interpreter use. NullLiteral is a tag of
    NodeType with no class; it is a field-less node here. */
module Ast {
  import opened Wrappers

  /** Expression nodes. */
  datatype Expr =
    | IntLiteral(value: int)
    | NullLiteral
    | Identifier(symbol: string)
    | BinaryExpr(left: Expr, right: Expr, operator: string)
    | FunCall(identifier: string)                                            // reconstructed
    | IfExpr(condition: Expr, ifBlock: seq<Stmt>, elseBlock: ElseBlock)     // reconstructed

  /** The optional else block of an if expression. */
  datatype ElseBlock = NoElse | Else(stmts: seq<Stmt>)

  /** Statement nodes. An expression stands as a statement through ExprStmt,
      the counterpart of the source's `Expr extends Stmt`. */
  datatype Stmt =
    | Program(body: seq<Stmt>)
    | VarDeclaration(identifier: string, value: Option<Expr>)
    | VarAssignment(identifier: string, assignedValue: Expr)
    | FunDeclaration(identifier: string, body: seq<Stmt>)                   // reconstructed
    | PrintStmt(argument: Expr)                                             // reconstructed
    | ReturnStmt(value: Option<Expr>)                                       // reconstructed
    | ExprStmt(expr: Expr)

  /** The `type` tag a node carries; an expression statement carries its expression's tag. */
  function NodeType(s: Stmt): (t: string)
    ensures t == "ReturnStmt" <==> s.ReturnStmt?
    ensures t in StatementTags <==> !s.ExprStmt?
    ensures s.ExprStmt? ==> t in ExpressionTags
  {
    match s
    case Program(_) => "Program"
    case VarDeclaration(_, _) => "VarDeclaration"
    case VarAssignment(_, _) => "VarAssignment"
    case FunDeclaration(_, _) => "FunDeclaration"
    case PrintStmt(_) => "PrintStmt"
    case ReturnStmt(_) => "ReturnStmt"
    case ExprStmt(e) => ExprType(e)
  }

  function ExprType(e: Expr): (t: string)
    ensures t in ExpressionTags
  {
    match e
    case IntLiteral(_) => "IntLiteral"
    case NullLiteral => "NullLiteral"
    case Identifier(_) => "Identifier"
    case BinaryExpr(_, _, _) => "BinaryExpr"
    case FunCall(_) => "FunCall"
    case IfExpr(_, _, _) => "IfExpr"
  }

  const StatementTags: set<string> :=
    {"Program", "VarDeclaration", "VarAssignment", "FunDeclaration", "PrintStmt", "ReturnStmt"}

  const ExpressionTags: set<string> :=
    {"IntLiteral", "NullLiteral", "Identifier", "BinaryExpr", "FunCall", "IfExpr"}

  /** The tag identifies the kind of node: two nodes with the same tag were
      built by the same constructor. */
  lemma {:induction false} NodeTypeDeterminesKind(a: Stmt, b: Stmt)
    requires NodeType(a) == NodeType(b)
    ensures a.Program? == b.Program? && a.VarDeclaration? == b.VarDeclaration?
    ensures a.VarAssignment? == b.VarAssignment? && a.FunDeclaration? == b.FunDeclaration?
    ensures a.PrintStmt? == b.PrintStmt? && a.ReturnStmt? == b.ReturnStmt? && a.ExprStmt? == b.ExprStmt?
    ensures a.ExprStmt? ==> ExprTypeDeterminesKind(a.expr, b.expr)
  {
    if a.ExprStmt? {
      ExprTypeDeterminesKindHolds(a.expr, b.expr);
    }
  }

  ghost predicate ExprTypeDeterminesKind(a: Expr, b: Expr) {
    a.IntLiteral? == b.IntLiteral? && a.NullLiteral? == b.NullLiteral? && a.Identifier? == b.Identifier?
    && a.BinaryExpr? == b.BinaryExpr? && a.FunCall? == b.FunCall? && a.IfExpr? == b.IfExpr?
  }

  lemma ExprTypeDeterminesKindHolds(a: Expr, b: Expr)
    requires ExprType(a) == ExprType(b)
    ensures ExprTypeDeterminesKind(a, b)
  {
  }
}
