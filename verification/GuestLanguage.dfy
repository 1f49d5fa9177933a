/**
 * A core of strict-mode JavaScript: what a module body is made of as far as its names go. Lists are datatypes so that
 * every walk over a program is structural.
 */
module GuestLanguage {
  import opened Wrappers

  type Name = string

  datatype Expr =
    | Lit(n: int)
    | Id(name: Name)
    | This
    | Scope                                   // the wrapper's parameter, whose name no body contains
    | Member(obj: Expr, key: Key)
    | Call(callee: Expr, args: Exprs)
    | New(callee: Expr, args: Exprs)
    | Construct(callee: Expr)                 // the wrap a rewritten `new` puts round its callee
    | Assign(target: Pat, value: Expr)
    | Update(place: Expr)
    | Typeof(operand: Expr)
    | Comma(first: Expr, second: Expr)
    | Cond(test: Expr, yes: Expr, no: Expr)
    | ObjectLit(props: Props)
    | Lambda(f: Func)
    | ClassExpr(c: Class)

  datatype Key = Named(name: Name) | Computed(e: Expr)

  datatype Exprs = ENil | ECons(head: Expr, tail: Exprs)

  datatype MaybeExpr = NoExpr | JustExpr(e: Expr)

  /** An object's properties; a shorthand one is written as its key alone. */
  datatype Props = PNil | Prop(key: Key, value: Expr, tail: Props) | Shorthand(name: Name, tail: Props)

  /** A pattern: its leaves are declared names, or the places an assignment writes. */
  datatype Pat =
    | Declared(name: Name)
    | Place(e: Expr)
    | ObjectPat(props: PatProps)
    | ArrayPat(elems: Pats)
    | Default(p: Pat, e: Expr)

  /** `declares`: whether a shorthand leaf is a declared name or an assigned one. */
  datatype PatProps =
    | PPNil
    | PatProp(key: Key, value: Pat, tail: PatProps)
    | ShorthandPat(name: Name, declares: bool, default: MaybeExpr, tail: PatProps)

  datatype Pats = PatNil | PatCons(head: Pat, tail: Pats)

  /** `own`: the name a function expression has inside itself; an arrow takes `this` and `arguments` from outside. */
  datatype Func = Func(arrow: bool, own: Option<Name>, params: Pats, body: Stmts)

  datatype Class = Class(name: Option<Name>, heritage: MaybeExpr, ctor: Func, members: Members)

  datatype Members =
    | MNil
    | Method(key: Key, f: Func, tail: Members)
    | StaticField(name: Name, value: Expr, tail: Members)
    | StaticBlock(body: Stmts, tail: Members)

  datatype Kind = Var | Let

  datatype Stmt =
    | ExprStmt(e: Expr)
    | Declare(kind: Kind, target: Pat, init: MaybeExpr)
    | FunctionDecl(name: Name, f: Func)
    | ClassDecl(name: Name, c: Class)
    | Block(body: Stmts)
    | If(test: Expr, yes: Stmt, no: Stmt)
    | For(first: Stmt, test: Expr, update: Expr, loop: Stmt)
    | ForOf(left: Pat, declares: Option<Kind>, right: Expr, loop: Stmt)
    | Switch(value: Expr, cases: Cases)
    | Try(block: Stmts, param: Pat, handler: Stmts)
    | Return(e: Expr)
    | Throw(e: Expr)

  datatype Stmts = SNil | SCons(head: Stmt, tail: Stmts)

  datatype Cases = CNil | Case(test: Expr, body: Stmts, tail: Cases)

  // ------------------------------------------------------------------ the names a program declares

  function BoundNames(p: Pat): seq<Name> {
    match p
    case Declared(name) => [name]
    case Place(_) => []
    case ObjectPat(props) => PropsBound(props)
    case ArrayPat(elems) => PatsBound(elems)
    case Default(q, _) => BoundNames(q)
  }

  function PropsBound(props: PatProps): seq<Name> {
    match props
    case PPNil => []
    case PatProp(_, value, tail) => BoundNames(value) + PropsBound(tail)
    case ShorthandPat(name, declares, _, tail) => (if declares then [name] else []) + PropsBound(tail)
  }

  function PatsBound(ps: Pats): seq<Name> {
    match ps
    case PatNil => []
    case PatCons(head, tail) => BoundNames(head) + PatsBound(tail)
  }

  /** What a statement list declares in its own block: let, function and class. */
  function LexicalNames(ss: Stmts): seq<Name> {
    match ss
    case SNil => []
    case SCons(head, tail) => LexicalName(head) + LexicalNames(tail)
  }

  function LexicalName(s: Stmt): seq<Name> {
    match s
    case Declare(Let, target, _) => BoundNames(target)
    case FunctionDecl(name, _) => [name]
    case ClassDecl(name, _) => [name]
    case _ => []
  }

  /** What a function's statements declare with `var`, at any depth short of a function or a class. */
  function VarNames(ss: Stmts): seq<Name> {
    match ss
    case SNil => []
    case SCons(head, tail) => VarName(head) + VarNames(tail)
  }

  function VarName(s: Stmt): seq<Name> {
    match s
    case Declare(Var, target, _) => BoundNames(target)
    case Block(body) => VarNames(body)
    case If(_, yes, no) => VarName(yes) + VarName(no)
    case For(init, _, _, body) => VarName(init) + VarName(body)
    case ForOf(left, declares, _, body) => (if declares == Some(Var) then BoundNames(left) else []) + VarName(body)
    case Switch(_, cases) => CaseVars(cases)
    case Try(block, _, handler) => VarNames(block) + VarNames(handler)
    case _ => []
  }

  function CaseVars(cases: Cases): seq<Name> {
    match cases
    case CNil => []
    case Case(_, body, tail) => VarNames(body) + CaseVars(tail)
  }

  function CaseLexicals(cases: Cases): seq<Name> {
    match cases
    case CNil => []
    case Case(_, body, tail) => LexicalNames(body) + CaseLexicals(tail)
  }

  /** What a function's parameters see besides what is around it: its own name, `arguments`, the parameters. */
  function ParameterNames(f: Func): seq<Name> {
    (if f.own.Some? then [f.own.value] else []) + (if f.arrow then [] else ["arguments"]) + PatsBound(f.params)
  }

  function BodyNames(ss: Stmts): seq<Name> {
    VarNames(ss) + LexicalNames(ss)
  }

  function ClassNames(c: Class): seq<Name> {
    if c.name.Some? then [c.name.value] else []
  }

  /** What a `for` head declares for its loop alone. */
  function HeadNames(init: Stmt): seq<Name> {
    match init
    case Declare(Let, target, _) => BoundNames(target)
    case _ => []
  }

  function ForOfNames(left: Pat, declares: Option<Kind>): seq<Name> {
    if declares == Some(Let) then BoundNames(left) else []
  }
}
