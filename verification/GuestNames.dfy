/**
 * The rewriting of a module body's free guest names: the scope walk, giving the body its edits make. `visible` is
 * the guest names no declaration around binds.
 */
module GuestNames {
  import opened Wrappers
  import opened GuestLanguage

  /** The names with those declared taken away. */
  function Shadow(visible: set<Name>, names: seq<Name>): set<Name> {
    visible - set n | n in names
  }

  /** The narrowing as it is done: one name at a time. */
  method Narrow(visible: set<Name>, names: seq<Name>) returns (narrowed: set<Name>)
    ensures narrowed == Shadow(visible, names)
  {
    narrowed := visible;
    for k := 0 to |names|
      invariant narrowed == Shadow(visible, names[..k])
    {
      assert names[..k + 1] == names[..k] + [names[k]];
      if names[k] in narrowed {
        narrowed := narrowed - {names[k]};
      }
    }
    assert names[..|names|] == names;
  }

  /** `<scope>.<name>` */
  function Read(name: Name): Expr {
    Member(Scope, Named(name))
  }

  /** `(0,<scope>["<name>"])`, whose call has no receiver. */
  function Called(name: Name): Expr {
    Comma(Lit(0), Read(name))
  }

  function Visit(e: Expr, visible: set<Name>): Expr
    decreases e, 0
  {
    match e
    case Lit(_) => e
    case This => e
    case Scope => e
    case Id(name) => if name in visible then Read(name) else e
    case Member(obj, key) => Member(Visit(obj, visible), VisitKey(key, visible))
    case Call(callee, args) => Call(VisitCallee(callee, visible), VisitAll(args, visible))
    case New(callee, args) =>
      New(if callee.Id? then Construct(Visit(callee, visible)) else Visit(callee, visible), VisitAll(args, visible))
    case Construct(callee) => Construct(Visit(callee, visible))
    case Assign(target, value) => Assign(VisitPat(target, visible), Visit(value, visible))
    case Update(place) => Update(Visit(place, visible))
    case Typeof(operand) => Typeof(Visit(operand, visible))
    case Comma(first, second) => Comma(Visit(first, visible), Visit(second, visible))
    case Cond(test, yes, no) => Cond(Visit(test, visible), Visit(yes, visible), Visit(no, visible))
    case ObjectLit(props) => ObjectLit(VisitProps(props, visible))
    case Lambda(f) => Lambda(VisitFunc(f, visible))
    case ClassExpr(c) => ClassExpr(VisitClass(c, visible))
  }

  function VisitCallee(callee: Expr, visible: set<Name>): Expr
    decreases callee, 1
  {
    if callee.Id? && callee.name in visible then Called(callee.name) else Visit(callee, visible)
  }

  function VisitKey(key: Key, visible: set<Name>): Key {
    match key
    case Named(_) => key
    case Computed(e) => Computed(Visit(e, visible))
  }

  function VisitAll(es: Exprs, visible: set<Name>): Exprs {
    match es
    case ENil => ENil
    case ECons(head, tail) => ECons(Visit(head, visible), VisitAll(tail, visible))
  }

  function VisitMaybe(e: MaybeExpr, visible: set<Name>): MaybeExpr {
    match e
    case NoExpr => NoExpr
    case JustExpr(x) => JustExpr(Visit(x, visible))
  }

  /** A shorthand guest name keeps its key: `{ name }` becomes `{ name: <scope>['name'] }`. */
  function VisitProps(props: Props, visible: set<Name>): Props {
    match props
    case PNil => PNil
    case Prop(key, value, tail) => Prop(VisitKey(key, visible), Visit(value, visible), VisitProps(tail, visible))
    case Shorthand(name, tail) =>
      if name in visible then Prop(Named(name), Read(name), VisitProps(tail, visible))
      else Shorthand(name, VisitProps(tail, visible))
  }

  /** `target` and `declared`: the places of an assignment are references, the names of a declaration are not. */
  function VisitPat(p: Pat, visible: set<Name>): Pat {
    match p
    case Declared(_) => p
    case Place(e) => Place(Visit(e, visible))
    case ObjectPat(props) => ObjectPat(VisitPatProps(props, visible))
    case ArrayPat(elems) => ArrayPat(VisitPats(elems, visible))
    case Default(q, e) => Default(VisitPat(q, visible), Visit(e, visible))
  }

  function VisitPatProps(props: PatProps, visible: set<Name>): PatProps {
    match props
    case PPNil => PPNil
    case PatProp(key, value, tail) =>
      PatProp(VisitKey(key, visible), VisitPat(value, visible), VisitPatProps(tail, visible))
    case ShorthandPat(name, declares, default, tail) =>
      if !declares && name in visible then
        PatProp(Named(name), Defaulted(Place(Read(name)), VisitMaybe(default, visible)), VisitPatProps(tail, visible))
      else ShorthandPat(name, declares, VisitMaybe(default, visible), VisitPatProps(tail, visible))
  }

  function Defaulted(p: Pat, default: MaybeExpr): Pat {
    match default
    case NoExpr => p
    case JustExpr(e) => Default(p, e)
  }

  function VisitPats(ps: Pats, visible: set<Name>): Pats {
    match ps
    case PatNil => PatNil
    case PatCons(head, tail) => PatCons(VisitPat(head, visible), VisitPats(tail, visible))
  }

  /** A parameter list is a scope of its own: its defaults never see the body's declarations. */
  function VisitFunc(f: Func, visible: set<Name>): Func {
    var parameterScope := Shadow(visible, ParameterNames(f));
    Func(f.arrow, f.own, VisitPats(f.params, parameterScope),
         VisitStmts(f.body, Shadow(parameterScope, BodyNames(f.body))))
  }

  /** The heritage and the members are inside the class's own scope. */
  function VisitClass(c: Class, visible: set<Name>): Class {
    var inner := Shadow(visible, ClassNames(c));
    Class(c.name, VisitMaybe(c.heritage, inner), VisitFunc(c.ctor, inner), VisitMembers(c.members, inner))
  }

  function VisitMembers(ms: Members, visible: set<Name>): Members {
    match ms
    case MNil => MNil
    case Method(key, f, tail) => Method(VisitKey(key, visible), VisitFunc(f, visible), VisitMembers(tail, visible))
    case StaticField(name, value, tail) => StaticField(name, Visit(value, visible), VisitMembers(tail, visible))
    case StaticBlock(body, tail) =>
      StaticBlock(VisitStmts(body, Shadow(visible, BodyNames(body))), VisitMembers(tail, visible))
  }

  function VisitStmt(s: Stmt, visible: set<Name>): Stmt {
    match s
    case ExprStmt(e) => ExprStmt(Visit(e, visible))
    case Declare(kind, target, init) => Declare(kind, VisitPat(target, visible), VisitMaybe(init, visible))
    case FunctionDecl(name, f) => FunctionDecl(name, VisitFunc(f, visible))
    case ClassDecl(name, c) => ClassDecl(name, VisitClass(c, visible))
    case Block(body) => Block(VisitStmts(body, Shadow(visible, LexicalNames(body))))
    case If(test, yes, no) => If(Visit(test, visible), VisitStmt(yes, visible), VisitStmt(no, visible))
    case For(init, test, update, body) =>
      var inner := Shadow(visible, HeadNames(init));
      For(VisitStmt(init, inner), Visit(test, inner), Visit(update, inner), VisitStmt(body, inner))
    case ForOf(left, declares, right, body) =>
      var inner := Shadow(visible, ForOfNames(left, declares));
      ForOf(VisitPat(left, inner), declares, Visit(right, inner), VisitStmt(body, inner))
    case Switch(value, cases) =>
      Switch(Visit(value, visible), VisitCases(cases, Shadow(visible, CaseLexicals(cases))))
    case Try(block, param, handler) =>
      var caught := Shadow(visible, BoundNames(param));
      Try(VisitStmts(block, Shadow(visible, LexicalNames(block))), VisitPat(param, caught),
          VisitStmts(handler, Shadow(caught, LexicalNames(handler))))
    case Return(e) => Return(Visit(e, visible))
    case Throw(e) => Throw(Visit(e, visible))
  }

  function VisitStmts(ss: Stmts, visible: set<Name>): Stmts {
    match ss
    case SNil => SNil
    case SCons(head, tail) => SCons(VisitStmt(head, visible), VisitStmts(tail, visible))
  }

  function VisitCases(cases: Cases, visible: set<Name>): Cases {
    match cases
    case CNil => CNil
    case Case(test, body, tail) => Case(Visit(test, visible), VisitStmts(body, visible), VisitCases(tail, visible))
  }

  /** The body's own top level is a function's: its var, function and lexical names shadow too. */
  function Rewritten(body: Stmts, names: set<Name>): Stmts {
    VisitStmts(body, Shadow(names, BodyNames(body)))
  }
}
