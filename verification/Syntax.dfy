/** The part of the abstract syntax that the compiler model covers. */
module Syntax {

  datatype Option<+T> = None | Some(value: T)

  /** Literals whose constants are interned by value. */
  datatype Literal = NullLit | BoolLit(b: bool) | IntLit(i: int) | StrLit(s: string)

  datatype UnaryOp = Neg | Pos | Not | BitNot | Typeof | Void

  /** Binary operators that evaluate both operands. */
  datatype BinOp =
    | Add | Sub | Mul | Div | Mod | Exp
    | Eq | NotEq | StrictEq | StrictNotEq | Lt | Gt | Le | Ge
    | BitAnd | BitOr | BitXor | Shl | Shr | Ushr
    | In | Instanceof

  datatype LogicalOp = And | Or | NullishCoal

  datatype UpdateOp = Inc | Dec

  datatype AssignOp =
    | Assign
    | Compound(op: BinOp)
    | Logical(logical: LogicalOp)

  datatype Property = Named(name: string) | Computed(key: Expr)

  datatype Target =
    | IdentTarget(name: string)
    | MemberTarget(obj: Expr, prop: Property)

  datatype ExprList = ENil | ECons(head: Expr, tail: ExprList)

  datatype Expr =
    | Lit(literal: Literal)
    | Ident(name: string)
    | Paren(inner: Expr)
    | Unary(unop: UnaryOp, arg: Expr)
    | Binary(binop: BinOp, left: Expr, right: Expr)
    | LogicalExpr(logop: LogicalOp, left: Expr, right: Expr)
    | Conditional(test: Expr, cons: Expr, alt: Expr)
    | Sequence(exprs: ExprList)
    | AssignExpr(asgop: AssignOp, target: Target, right: Expr)
    | Update(updop: UpdateOp, prefix: bool, target: Target)
    | Member(obj: Expr, prop: Property, optional: bool)

  datatype StmtList = SNil | SCons(head: Stmt, tail: StmtList)

  datatype Case = Case(test: Option<Expr>, body: StmtList)

  datatype CaseList = CNil | CCons(head: Case, tail: CaseList)

  datatype Stmt =
    | Empty
    | Block(body: StmtList)
    | ExprStmt(expr: Expr)
    | Return(arg: Option<Expr>)
    | ThrowStmt(expr: Expr)
    | If(test: Expr, cons: Stmt, alt: Option<Stmt>)
    | While(test: Expr, loopBody: Stmt)
    | DoWhile(loopBody: Stmt, test: Expr)
    | For(init: Option<Expr>, cond: Option<Expr>, update: Option<Expr>, loopBody: Stmt)
    | Switch(disc: Expr, cases: CaseList)
    | Break(jumpLabel: Option<string>)
    | Continue(jumpLabel: Option<string>)
    | Labeled(name: string, labeled: Stmt)

  predicate IsIteration(s: Stmt) {
    s.While? || s.DoWhile? || s.For?
  }

  function CaseCount(cases: CaseList): nat {
    match cases
    case CNil => 0
    case CCons(_, tail) => 1 + CaseCount(tail)
  }

  function CaseAt(cases: CaseList, i: nat): Case
    requires i < CaseCount(cases)
  {
    if i == 0 then cases.head else CaseAt(cases.tail, i - 1)
  }

  /** Whether some access on the member spine of `e` is optional. */
  predicate HasOptional(e: Expr) {
    match e
    case Member(obj, _, optional) => optional || HasOptional(obj)
    case _ => false
  }
}
