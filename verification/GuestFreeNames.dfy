/**
 * The names a program refers to from outside itself, defined without the rewriter's scope walk, and what rewriting does
 * to them.
 */
module GuestFreeNames {
  import opened Wrappers
  import opened GuestLanguage
  import opened GuestNames
  import opened GuestDeclarations

  function Set(names: seq<Name>): set<Name> {
    set n | n in names
  }

  function Refs(e: Expr): set<Name>
    decreases e
  {
    match e
    case Lit(_) => {}
    case Id(name) => {name}
    case This => {}
    case Scope => {}
    case Member(obj, key) => Refs(obj) + KeyRefs(key)
    case Call(callee, args) => Refs(callee) + AllRefs(args)
    case New(callee, args) => Refs(callee) + AllRefs(args)
    case Construct(callee) => Refs(callee)
    case Assign(target, value) => PatRefs(target) + Refs(value)
    case Update(place) => Refs(place)
    case Typeof(operand) => Refs(operand)
    case Comma(first, second) => Refs(first) + Refs(second)
    case Cond(test, yes, no) => Refs(test) + Refs(yes) + Refs(no)
    case ObjectLit(props) => PropsRefs(props)
    case Lambda(f) => FuncRefs(f)
    case ClassExpr(c) => ClassRefs(c)
  }

  function KeyRefs(key: Key): set<Name> {
    match key
    case Named(_) => {}
    case Computed(e) => Refs(e)
  }

  function AllRefs(es: Exprs): set<Name> {
    match es
    case ENil => {}
    case ECons(head, tail) => Refs(head) + AllRefs(tail)
  }

  function MaybeRefs(e: MaybeExpr): set<Name> {
    match e
    case NoExpr => {}
    case JustExpr(x) => Refs(x)
  }

  function PropsRefs(props: Props): set<Name> {
    match props
    case PNil => {}
    case Prop(key, value, tail) => KeyRefs(key) + Refs(value) + PropsRefs(tail)
    case Shorthand(name, tail) => {name} + PropsRefs(tail)
  }

  function PatRefs(p: Pat): set<Name> {
    match p
    case Declared(_) => {}
    case Place(e) => Refs(e)
    case ObjectPat(props) => PatPropsRefs(props)
    case ArrayPat(elems) => PatsRefs(elems)
    case Default(q, e) => PatRefs(q) + Refs(e)
  }

  function PatPropsRefs(props: PatProps): set<Name> {
    match props
    case PPNil => {}
    case PatProp(key, value, tail) => KeyRefs(key) + PatRefs(value) + PatPropsRefs(tail)
    case ShorthandPat(name, declares, default, tail) =>
      (if declares then {} else {name}) + MaybeRefs(default) + PatPropsRefs(tail)
  }

  function PatsRefs(ps: Pats): set<Name> {
    match ps
    case PatNil => {}
    case PatCons(head, tail) => PatRefs(head) + PatsRefs(tail)
  }

  function FuncRefs(f: Func): set<Name> {
    PatsRefs(f.params) + (StmtsRefs(f.body) - Set(BodyNames(f.body))) - Set(ParameterNames(f))
  }

  function ClassRefs(c: Class): set<Name> {
    MaybeRefs(c.heritage) + FuncRefs(c.ctor) + MembersRefs(c.members) - Set(ClassNames(c))
  }

  function MembersRefs(ms: Members): set<Name> {
    match ms
    case MNil => {}
    case Method(key, f, tail) => KeyRefs(key) + FuncRefs(f) + MembersRefs(tail)
    case StaticField(_, value, tail) => Refs(value) + MembersRefs(tail)
    case StaticBlock(body, tail) => (StmtsRefs(body) - Set(BodyNames(body))) + MembersRefs(tail)
  }

  function StmtRefs(s: Stmt): set<Name> {
    match s
    case ExprStmt(e) => Refs(e)
    case Declare(_, target, init) => PatRefs(target) + MaybeRefs(init)
    case FunctionDecl(_, f) => FuncRefs(f)
    case ClassDecl(_, c) => ClassRefs(c)
    case Block(body) => StmtsRefs(body) - Set(LexicalNames(body))
    case If(test, yes, no) => Refs(test) + StmtRefs(yes) + StmtRefs(no)
    case For(first, test, update, loop) =>
      StmtRefs(first) + Refs(test) + Refs(update) + StmtRefs(loop) - Set(HeadNames(first))
    case ForOf(left, declares, right, loop) =>
      PatRefs(left) + Refs(right) + StmtRefs(loop) - Set(ForOfNames(left, declares))
    case Switch(value, cases) => Refs(value) + (CasesRefs(cases) - Set(CaseLexicals(cases)))
    case Try(block, param, handler) =>
      (StmtsRefs(block) - Set(LexicalNames(block)))
      + (PatRefs(param) + (StmtsRefs(handler) - Set(LexicalNames(handler))) - Set(BoundNames(param)))
    case Return(e) => Refs(e)
    case Throw(e) => Refs(e)
  }

  function StmtsRefs(ss: Stmts): set<Name> {
    match ss
    case SNil => {}
    case SCons(head, tail) => StmtRefs(head) + StmtsRefs(tail)
  }

  function CasesRefs(cases: Cases): set<Name> {
    match cases
    case CNil => {}
    case Case(test, body, tail) => Refs(test) + StmtsRefs(body) + CasesRefs(tail)
  }

  /** What a body refers to outside itself. */
  function BodyRefs(body: Stmts): set<Name> {
    StmtsRefs(body) - Set(BodyNames(body))
  }

  // ------------------------------------------------------------------ what rewriting leaves

  lemma Union(a: set<Name>, b: set<Name>, c: set<Name>, visible: set<Name>)
    ensures (a + b) - visible == (a - visible) + (b - visible)
    ensures (a + b + c) - visible == (a - visible) + (b - visible) + (c - visible)
  {
  }

  /** A scope hides its own names from what is visible, and from what is free: the two agree. */
  lemma Hidden(refs: set<Name>, names: seq<Name>, visible: set<Name>)
    ensures (refs - Shadow(visible, names)) - Set(names) == (refs - Set(names)) - visible
  {
  }

  lemma ReadRefs(name: Name)
    ensures Refs(Read(name)) == {} && Refs(Called(name)) == {}
  {
    assert Refs(Scope) == {} && KeyRefs(Named(name)) == {} && Refs(Lit(0)) == {};
  }

  lemma {:induction false} RefsLeft(e: Expr, visible: set<Name>)
    ensures Refs(Visit(e, visible)) == Refs(e) - visible
    decreases e, 0
  {
    hide KeyRefs, AllRefs, PropsRefs, PatRefs, FuncRefs, ClassRefs;
    hide VisitKey, VisitAll, VisitProps, VisitPat, VisitFunc, VisitClass;
    match e
    case Id(name) => ReadRefs(name);
    case Member(obj, key) =>
      RefsLeft(obj, visible);
      KeyRefsLeft(key, visible);
    case Call(callee, args) =>
      if callee.Id? { ReadRefs(callee.name); }
      RefsLeft(callee, visible);
      AllRefsLeft(args, visible);
    case New(callee, args) =>
      RefsLeft(callee, visible);
      AllRefsLeft(args, visible);
    case Construct(callee) => RefsLeft(callee, visible);
    case Assign(target, value) =>
      PatRefsLeft(target, visible);
      RefsLeft(value, visible);
    case Update(place) => RefsLeft(place, visible);
    case Typeof(operand) => RefsLeft(operand, visible);
    case Comma(first, second) =>
      RefsLeft(first, visible);
      RefsLeft(second, visible);
    case Cond(test, yes, no) =>
      RefsLeft(test, visible);
      RefsLeft(yes, visible);
      RefsLeft(no, visible);
    case ObjectLit(props) => PropsRefsLeft(props, visible);
    case Lambda(f) => FuncRefsLeft(f, visible);
    case ClassExpr(c) => ClassRefsLeft(c, visible);
    case _ =>
  }

  lemma {:induction false} KeyRefsLeft(key: Key, visible: set<Name>)
    ensures KeyRefs(VisitKey(key, visible)) == KeyRefs(key) - visible
  {
    if key.Computed? { RefsLeft(key.e, visible); }
  }

  lemma {:induction false} MaybeRefsLeft(e: MaybeExpr, visible: set<Name>)
    ensures MaybeRefs(VisitMaybe(e, visible)) == MaybeRefs(e) - visible
  {
    if e.JustExpr? { RefsLeft(e.e, visible); }
  }

  lemma {:induction false} AllRefsLeft(es: Exprs, visible: set<Name>)
    ensures AllRefs(VisitAll(es, visible)) == AllRefs(es) - visible
  {
    match es
    case ENil =>
    case ECons(head, tail) =>
      RefsLeft(head, visible);
      AllRefsLeft(tail, visible);
  }

  lemma {:induction false} PropsRefsLeft(props: Props, visible: set<Name>)
    ensures PropsRefs(VisitProps(props, visible)) == PropsRefs(props) - visible
  {
    match props
    case PNil =>
    case Prop(key, value, tail) =>
      KeyRefsLeft(key, visible);
      RefsLeft(value, visible);
      PropsRefsLeft(tail, visible);
    case Shorthand(name, tail) =>
      ReadRefs(name);
      PropsRefsLeft(tail, visible);
  }

  lemma {:induction false} PatRefsLeft(p: Pat, visible: set<Name>)
    ensures PatRefs(VisitPat(p, visible)) == PatRefs(p) - visible
  {
    match p
    case Declared(_) =>
    case Place(e) => RefsLeft(e, visible);
    case ObjectPat(props) => PatPropsRefsLeft(props, visible);
    case ArrayPat(elems) => PatsRefsLeft(elems, visible);
    case Default(q, e) =>
      PatRefsLeft(q, visible);
      RefsLeft(e, visible);
  }

  lemma {:induction false} PatPropsRefsLeft(props: PatProps, visible: set<Name>)
    ensures PatPropsRefs(VisitPatProps(props, visible)) == PatPropsRefs(props) - visible
  {
    match props
    case PPNil =>
    case PatProp(key, value, tail) =>
      KeyRefsLeft(key, visible);
      PatRefsLeft(value, visible);
      PatPropsRefsLeft(tail, visible);
    case ShorthandPat(name, declares, default, tail) =>
      MaybeRefsLeft(default, visible);
      PatPropsRefsLeft(tail, visible);
      DefaultedRefs(name, VisitMaybe(default, visible));
  }

  lemma DefaultedRefs(name: Name, default: MaybeExpr)
    ensures PatRefs(Defaulted(Place(Read(name)), default)) == MaybeRefs(default)
  {
    ReadRefs(name);
  }

  lemma {:induction false} PatsRefsLeft(ps: Pats, visible: set<Name>)
    ensures PatsRefs(VisitPats(ps, visible)) == PatsRefs(ps) - visible
  {
    match ps
    case PatNil =>
    case PatCons(head, tail) =>
      PatRefsLeft(head, visible);
      PatsRefsLeft(tail, visible);
  }

  lemma {:induction false} FuncRefsLeft(f: Func, visible: set<Name>)
    ensures FuncRefs(VisitFunc(f, visible)) == FuncRefs(f) - visible
  {
    var parameterScope := Shadow(visible, ParameterNames(f));
    PatsRefsLeft(f.params, parameterScope);
    SamePatsBound(f.params, parameterScope);
    BodyRefsLeft(f.body, parameterScope);
    var inside := PatsRefs(f.params) + BodyRefs(f.body);
    Union(PatsRefs(f.params), BodyRefs(f.body), {}, parameterScope);
    Hidden(inside, ParameterNames(f), visible);
  }

  /** A rewritten body refers to exactly the names it did that are no guest names. */
  lemma {:induction false} BodyRefsLeft(body: Stmts, names: set<Name>)
    ensures BodyRefs(Rewritten(body, names)) == BodyRefs(body) - names
    decreases body, 1
  {
    var inner := Shadow(names, BodyNames(body));
    StmtsRefsLeft(body, inner);
    SameVars(body, inner);
    SameLexicals(body, inner);
    Hidden(StmtsRefs(body), BodyNames(body), names);
  }

  lemma {:induction false} ClassRefsLeft(c: Class, visible: set<Name>)
    ensures ClassRefs(VisitClass(c, visible)) == ClassRefs(c) - visible
  {
    var inner := Shadow(visible, ClassNames(c));
    MaybeRefsLeft(c.heritage, inner);
    FuncRefsLeft(c.ctor, inner);
    MembersRefsLeft(c.members, inner);
    Union(MaybeRefs(c.heritage), FuncRefs(c.ctor), MembersRefs(c.members), inner);
    Hidden(MaybeRefs(c.heritage) + FuncRefs(c.ctor) + MembersRefs(c.members), ClassNames(c), visible);
  }

  lemma {:induction false} MembersRefsLeft(ms: Members, visible: set<Name>)
    ensures MembersRefs(VisitMembers(ms, visible)) == MembersRefs(ms) - visible
  {
    match ms
    case MNil =>
    case Method(key, f, tail) =>
      KeyRefsLeft(key, visible);
      FuncRefsLeft(f, visible);
      MembersRefsLeft(tail, visible);
    case StaticField(_, value, tail) =>
      RefsLeft(value, visible);
      MembersRefsLeft(tail, visible);
    case StaticBlock(body, tail) =>
      BodyRefsLeft(body, visible);
      MembersRefsLeft(tail, visible);
  }

  lemma {:induction false} BlockRefsLeft(body: Stmts, visible: set<Name>)
    ensures StmtsRefs(VisitStmts(body, Shadow(visible, LexicalNames(body))))
              - Set(LexicalNames(VisitStmts(body, Shadow(visible, LexicalNames(body)))))
         == (StmtsRefs(body) - Set(LexicalNames(body))) - visible
    decreases body, 1
  {
    var inner := Shadow(visible, LexicalNames(body));
    StmtsRefsLeft(body, inner);
    SameLexicals(body, inner);
    Hidden(StmtsRefs(body), LexicalNames(body), visible);
  }

  lemma {:induction false} StmtRefsLeft(s: Stmt, visible: set<Name>)
    ensures StmtRefs(VisitStmt(s, visible)) == StmtRefs(s) - visible
    decreases s, 1
  {
    match s
    case ExprStmt(e) => RefsLeft(e, visible);
    case Declare(_, target, init) =>
      PatRefsLeft(target, visible);
      MaybeRefsLeft(init, visible);
    case FunctionDecl(_, f) => FuncRefsLeft(f, visible);
    case ClassDecl(_, c) => ClassRefsLeft(c, visible);
    case Block(body) => BlockRefsLeft(body, visible);
    case If(test, yes, no) =>
      RefsLeft(test, visible);
      StmtRefsLeft(yes, visible);
      StmtRefsLeft(no, visible);
    case For(_, _, _, _) => ForRefsLeft(s, visible);
    case ForOf(_, _, _, _) => ForOfRefsLeft(s, visible);
    case Switch(value, cases) =>
      RefsLeft(value, visible);
      var inner := Shadow(visible, CaseLexicals(cases));
      CasesRefsLeft(cases, inner);
      SameCaseLexicals(cases, inner);
      Hidden(CasesRefs(cases), CaseLexicals(cases), visible);
    case Try(_, _, _) => TryRefsLeft(s, visible);
    case Return(e) => RefsLeft(e, visible);
    case Throw(e) => RefsLeft(e, visible);
  }

  lemma {:induction false} ForRefsLeft(s: Stmt, visible: set<Name>)
    requires s.For?
    ensures StmtRefs(VisitStmt(s, visible)) == StmtRefs(s) - visible
    decreases s, 0
  {
    var inner := Shadow(visible, HeadNames(s.first));
    StmtRefsLeft(s.first, inner);
    RefsLeft(s.test, inner);
    RefsLeft(s.update, inner);
    StmtRefsLeft(s.loop, inner);
    SameLexical(s.first, inner);
    Hidden(StmtRefs(s.first) + Refs(s.test) + Refs(s.update) + StmtRefs(s.loop), HeadNames(s.first), visible);
  }

  lemma {:induction false} ForOfRefsLeft(s: Stmt, visible: set<Name>)
    requires s.ForOf?
    ensures StmtRefs(VisitStmt(s, visible)) == StmtRefs(s) - visible
    decreases s, 0
  {
    var inner := Shadow(visible, ForOfNames(s.left, s.declares));
    PatRefsLeft(s.left, inner);
    RefsLeft(s.right, inner);
    StmtRefsLeft(s.loop, inner);
    SameBound(s.left, inner);
    Hidden(PatRefs(s.left) + Refs(s.right) + StmtRefs(s.loop), ForOfNames(s.left, s.declares), visible);
  }

  lemma {:induction false} TryRefsLeft(s: Stmt, visible: set<Name>)
    requires s.Try?
    ensures StmtRefs(VisitStmt(s, visible)) == StmtRefs(s) - visible
    decreases s, 0
  {
    var caught := Shadow(visible, BoundNames(s.param));
    BlockRefsLeft(s.block, visible);
    PatRefsLeft(s.param, caught);
    SameBound(s.param, caught);
    BlockRefsLeft(s.handler, caught);
    Hidden(PatRefs(s.param) + (StmtsRefs(s.handler) - Set(LexicalNames(s.handler))), BoundNames(s.param), visible);
  }

  lemma {:induction false} StmtsRefsLeft(ss: Stmts, visible: set<Name>)
    ensures StmtsRefs(VisitStmts(ss, visible)) == StmtsRefs(ss) - visible
    decreases ss, 0
  {
    match ss
    case SNil =>
    case SCons(head, tail) =>
      StmtRefsLeft(head, visible);
      StmtsRefsLeft(tail, visible);
  }

  lemma {:induction false} CasesRefsLeft(cases: Cases, visible: set<Name>)
    ensures CasesRefs(VisitCases(cases, visible)) == CasesRefs(cases) - visible
  {
    match cases
    case CNil =>
    case Case(test, body, tail) =>
      RefsLeft(test, visible);
      StmtsRefsLeft(body, visible);
      CasesRefsLeft(tail, visible);
  }
}
