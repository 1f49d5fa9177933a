/**
 * Every place a program writes a name as a reference, in the order it is written, with whether a declaration around it
 * binds the name there; and what rewriting does to each.
 */
module GuestOccurrences {
  import opened Wrappers
  import opened GuestLanguage
  import opened GuestNames
  import opened GuestDeclarations
  import opened GuestFreeNames

  /** A name as written, or read from the guest's scope. */
  datatype Occurrence = Plain(name: Name, bound: bool) | Scoped(name: Name)

  function Occs(e: Expr, bound: set<Name>): seq<Occurrence>
    decreases e
  {
    match e
    case Lit(_) => []
    case Id(name) => [Plain(name, name in bound)]
    case This => []
    case Scope => []
    case Member(obj, key) => if obj.Scope? && key.Named? then [Scoped(key.name)] else Occs(obj, bound) + KeyOccs(key, bound)
    case Call(callee, args) => Occs(callee, bound) + AllOccs(args, bound)
    case New(callee, args) => Occs(callee, bound) + AllOccs(args, bound)
    case Construct(callee) => Occs(callee, bound)
    case Assign(target, value) => PatOccs(target, bound) + Occs(value, bound)
    case Update(place) => Occs(place, bound)
    case Typeof(operand) => Occs(operand, bound)
    case Comma(first, second) => Occs(first, bound) + Occs(second, bound)
    case Cond(test, yes, no) => Occs(test, bound) + (Occs(yes, bound) + Occs(no, bound))
    case ObjectLit(props) => PropsOccs(props, bound)
    case Lambda(f) => FuncOccs(f, bound)
    case ClassExpr(c) => ClassOccs(c, bound)
  }

  function KeyOccs(key: Key, bound: set<Name>): seq<Occurrence> {
    match key
    case Named(_) => []
    case Computed(e) => Occs(e, bound)
  }

  function AllOccs(es: Exprs, bound: set<Name>): seq<Occurrence> {
    match es
    case ENil => []
    case ECons(head, tail) => Occs(head, bound) + AllOccs(tail, bound)
  }

  function MaybeOccs(e: MaybeExpr, bound: set<Name>): seq<Occurrence> {
    match e
    case NoExpr => []
    case JustExpr(x) => Occs(x, bound)
  }

  function PropsOccs(props: Props, bound: set<Name>): seq<Occurrence> {
    match props
    case PNil => []
    case Prop(key, value, tail) => KeyOccs(key, bound) + (Occs(value, bound) + PropsOccs(tail, bound))
    case Shorthand(name, tail) => [Plain(name, name in bound)] + PropsOccs(tail, bound)
  }

  function PatOccs(p: Pat, bound: set<Name>): seq<Occurrence> {
    match p
    case Declared(_) => []
    case Place(e) => Occs(e, bound)
    case ObjectPat(props) => PatPropsOccs(props, bound)
    case ArrayPat(elems) => PatsOccs(elems, bound)
    case Default(q, e) => PatOccs(q, bound) + Occs(e, bound)
  }

  function PatPropsOccs(props: PatProps, bound: set<Name>): seq<Occurrence> {
    match props
    case PPNil => []
    case PatProp(key, value, tail) => KeyOccs(key, bound) + (PatOccs(value, bound) + PatPropsOccs(tail, bound))
    case ShorthandPat(name, declares, default, tail) =>
      ((if declares then [] else [Plain(name, name in bound)]) + MaybeOccs(default, bound)) + PatPropsOccs(tail, bound)
  }

  function PatsOccs(ps: Pats, bound: set<Name>): seq<Occurrence> {
    match ps
    case PatNil => []
    case PatCons(head, tail) => PatOccs(head, bound) + PatsOccs(tail, bound)
  }

  function FuncOccs(f: Func, bound: set<Name>): seq<Occurrence> {
    var inside := bound + Set(ParameterNames(f));
    PatsOccs(f.params, inside) + StmtsOccs(f.body, inside + Set(BodyNames(f.body)))
  }

  function ClassOccs(c: Class, bound: set<Name>): seq<Occurrence> {
    var inside := bound + Set(ClassNames(c));
    MaybeOccs(c.heritage, inside) + (FuncOccs(c.ctor, inside) + MembersOccs(c.members, inside))
  }

  function MembersOccs(ms: Members, bound: set<Name>): seq<Occurrence> {
    match ms
    case MNil => []
    case Method(key, f, tail) => KeyOccs(key, bound) + (FuncOccs(f, bound) + MembersOccs(tail, bound))
    case StaticField(_, value, tail) => Occs(value, bound) + MembersOccs(tail, bound)
    case StaticBlock(body, tail) => StmtsOccs(body, bound + Set(BodyNames(body))) + MembersOccs(tail, bound)
  }

  function StmtOccs(s: Stmt, bound: set<Name>): seq<Occurrence> {
    match s
    case ExprStmt(e) => Occs(e, bound)
    case Declare(_, target, init) => PatOccs(target, bound) + MaybeOccs(init, bound)
    case FunctionDecl(_, f) => FuncOccs(f, bound)
    case ClassDecl(_, c) => ClassOccs(c, bound)
    case Block(body) => StmtsOccs(body, bound + Set(LexicalNames(body)))
    case If(test, yes, no) => Occs(test, bound) + (StmtOccs(yes, bound) + StmtOccs(no, bound))
    case For(first, test, update, loop) =>
      var inside := bound + Set(HeadNames(first));
      (StmtOccs(first, inside) + Occs(test, inside)) + (Occs(update, inside) + StmtOccs(loop, inside))
    case ForOf(left, declares, right, loop) =>
      var inside := bound + Set(ForOfNames(left, declares));
      PatOccs(left, inside) + (Occs(right, inside) + StmtOccs(loop, inside))
    case Switch(value, cases) => Occs(value, bound) + CasesOccs(cases, bound + Set(CaseLexicals(cases)))
    case Try(block, param, handler) =>
      var caught := bound + Set(BoundNames(param));
      StmtsOccs(block, bound + Set(LexicalNames(block)))
      + (PatOccs(param, caught) + StmtsOccs(handler, caught + Set(LexicalNames(handler))))
    case Return(e) => Occs(e, bound)
    case Throw(e) => Occs(e, bound)
  }

  function StmtsOccs(ss: Stmts, bound: set<Name>): seq<Occurrence> {
    match ss
    case SNil => []
    case SCons(head, tail) => StmtOccs(head, bound) + StmtsOccs(tail, bound)
  }

  function CasesOccs(cases: Cases, bound: set<Name>): seq<Occurrence> {
    match cases
    case CNil => []
    case Case(test, body, tail) => Occs(test, bound) + (StmtsOccs(body, bound) + CasesOccs(tail, bound))
  }

  /** A body's own top level binds its var, function and lexical names. */
  function BodyOccs(body: Stmts): seq<Occurrence> {
    StmtsOccs(body, Set(BodyNames(body)))
  }

  // ------------------------------------------------------------------ the edits

  /** A guest name that nothing around binds is read from the scope; everything else is left as it is. */
  function EditedOne(o: Occurrence, names: set<Name>): Occurrence {
    if o.Plain? && !o.bound && o.name in names then Scoped(o.name) else o
  }

  function Edited(os: seq<Occurrence>, names: set<Name>): seq<Occurrence> {
    seq(|os|, k requires 0 <= k < |os| => EditedOne(os[k], names))
  }

  lemma Join(a: seq<Occurrence>, b: seq<Occurrence>, names: set<Name>)
    ensures Edited(a + b, names) == Edited(a, names) + Edited(b, names)
  {
    hide EditedOne;
  }

  lemma Join3(a: seq<Occurrence>, b: seq<Occurrence>, c: seq<Occurrence>, names: set<Name>)
    ensures Edited(a + (b + c), names) == Edited(a, names) + (Edited(b, names) + Edited(c, names))
  {
    hide Edited;
    Join(b, c, names);
    Join(a, b + c, names);
  }

  /** The walk's narrowing follows the declarations around. */
  lemma Narrows(names: set<Name>, bound: set<Name>, declared: seq<Name>)
    ensures Shadow(names - bound, declared) == names - (bound + Set(declared))
  {
  }

  lemma ReadOccs(name: Name, bound: set<Name>)
    ensures Occs(Read(name), bound) == [Scoped(name)] && Occs(Called(name), bound) == [Scoped(name)]
  {
    assert Occs(Lit(0), bound) == [];
    assert Occs(Called(name), bound) == Occs(Lit(0), bound) + Occs(Read(name), bound);
  }

  lemma PlainEdits(name: Name, names: set<Name>, bound: set<Name>)
    ensures Edited([Plain(name, name in bound)], names)
         == [if name in names - bound then Scoped(name) else Plain(name, name in bound)]
    ensures Edited([], names) == [] && forall n :: Edited([Scoped(n)], names) == [Scoped(n)]
  {
  }

  lemma {:induction false} OccsEdited(e: Expr, names: set<Name>, bound: set<Name>)
    ensures Occs(Visit(e, names - bound), bound) == Edited(Occs(e, bound), names)
    decreases e, 2
  {
    hide KeyOccs, AllOccs, PropsOccs, PatOccs, FuncOccs, ClassOccs, Edited;
    hide VisitKey, VisitAll, VisitProps, VisitPat, VisitFunc, VisitClass;
    PlainEdits("", names, bound);
    match e
    case Id(name) =>
      PlainEdits(name, names, bound);
      ReadOccs(name, bound);
    case Member(obj, key) => MemberEdited(e, names, bound);
    case Call(callee, args) => CallEdited(e, names, bound);
    case New(callee, args) =>
      OccsEdited(callee, names, bound);
      AllEdited(args, names, bound);
      Join(Occs(callee, bound), AllOccs(args, bound), names);
    case Construct(callee) => OccsEdited(callee, names, bound);
    case Assign(target, value) =>
      PatEdited(target, names, bound);
      OccsEdited(value, names, bound);
      Join(PatOccs(target, bound), Occs(value, bound), names);
    case Update(place) => OccsEdited(place, names, bound);
    case Typeof(operand) => OccsEdited(operand, names, bound);
    case Comma(first, second) =>
      OccsEdited(first, names, bound);
      OccsEdited(second, names, bound);
      Join(Occs(first, bound), Occs(second, bound), names);
    case Cond(test, yes, no) =>
      OccsEdited(test, names, bound);
      OccsEdited(yes, names, bound);
      OccsEdited(no, names, bound);
      Join3(Occs(test, bound), Occs(yes, bound), Occs(no, bound), names);
    case ObjectLit(props) => PropsEdited(props, names, bound);
    case Lambda(f) => FuncEdited(f, names, bound);
    case ClassExpr(c) => ClassEdited(c, names, bound);
    case _ =>
  }

  lemma {:induction false} MemberEdited(e: Expr, names: set<Name>, bound: set<Name>)
    requires e.Member?
    ensures Occs(Visit(e, names - bound), bound) == Edited(Occs(e, bound), names)
    decreases e, 0
  {
    hide Edited;
    PlainEdits("", names, bound);
    if e.obj.Scope? && e.key.Named? {
    } else {
      OccsEdited(e.obj, names, bound);
      KeyEdited(e.key, names, bound);
      Join(Occs(e.obj, bound), KeyOccs(e.key, bound), names);
      OnlyScopeIsScope(e.obj, names - bound);
    }
  }

  lemma OnlyScopeIsScope(e: Expr, visible: set<Name>)
    ensures Visit(e, visible).Scope? <==> e.Scope?
  {
  }

  lemma {:induction false} CallEdited(e: Expr, names: set<Name>, bound: set<Name>)
    requires e.Call?
    ensures Occs(Visit(e, names - bound), bound) == Edited(Occs(e, bound), names)
    decreases e, 0
  {
    hide Edited, AllOccs, VisitAll, VisitCallee;
    CalleeEdited(e.callee, names, bound);
    AllEdited(e.args, names, bound);
    Join(Occs(e.callee, bound), AllOccs(e.args, bound), names);
  }

  lemma {:induction false} CalleeEdited(callee: Expr, names: set<Name>, bound: set<Name>)
    ensures Occs(VisitCallee(callee, names - bound), bound) == Edited(Occs(callee, bound), names)
    decreases callee, 3
  {
    hide Edited;
    if callee.Id? && callee.name in names - bound {
      PlainEdits(callee.name, names, bound);
      ReadOccs(callee.name, bound);
    } else {
      OccsEdited(callee, names, bound);
    }
  }

  lemma {:induction false} KeyEdited(key: Key, names: set<Name>, bound: set<Name>)
    ensures KeyOccs(VisitKey(key, names - bound), bound) == Edited(KeyOccs(key, bound), names)
  {
    if key.Computed? { OccsEdited(key.e, names, bound); }
  }

  lemma {:induction false} MaybeEdited(e: MaybeExpr, names: set<Name>, bound: set<Name>)
    ensures MaybeOccs(VisitMaybe(e, names - bound), bound) == Edited(MaybeOccs(e, bound), names)
  {
    if e.JustExpr? { OccsEdited(e.e, names, bound); }
  }

  lemma {:induction false} AllEdited(es: Exprs, names: set<Name>, bound: set<Name>)
    ensures AllOccs(VisitAll(es, names - bound), bound) == Edited(AllOccs(es, bound), names)
  {
    hide Edited, Occs, Visit;
    PlainEdits("", names, bound);
    match es
    case ENil =>
    case ECons(head, tail) =>
      OccsEdited(head, names, bound);
      AllEdited(tail, names, bound);
      Join(Occs(head, bound), AllOccs(tail, bound), names);
  }

  lemma {:induction false} PropsEdited(props: Props, names: set<Name>, bound: set<Name>)
    ensures PropsOccs(VisitProps(props, names - bound), bound) == Edited(PropsOccs(props, bound), names)
  {
    hide Edited, Occs, Visit, VisitKey;
    PlainEdits("", names, bound);
    match props
    case PNil =>
    case Prop(key, value, tail) =>
      KeyEdited(key, names, bound);
      OccsEdited(value, names, bound);
      PropsEdited(tail, names, bound);
      Join3(KeyOccs(key, bound), Occs(value, bound), PropsOccs(tail, bound), names);
    case Shorthand(name, tail) =>
      PlainEdits(name, names, bound);
      ReadOccs(name, bound);
      PropsEdited(tail, names, bound);
      Join([Plain(name, name in bound)], PropsOccs(tail, bound), names);
      assert KeyOccs(Named(name), bound) == [];
  }

  lemma {:induction false} PatEdited(p: Pat, names: set<Name>, bound: set<Name>)
    ensures PatOccs(VisitPat(p, names - bound), bound) == Edited(PatOccs(p, bound), names)
  {
    hide Edited, Occs, Visit, PatPropsOccs, PatsOccs, VisitPats, VisitPatProps;
    PlainEdits("", names, bound);
    match p
    case Declared(_) =>
    case Place(e) => OccsEdited(e, names, bound);
    case ObjectPat(props) => PatPropsEdited(props, names, bound);
    case ArrayPat(elems) => PatsEdited(elems, names, bound);
    case Default(q, e) =>
      PatEdited(q, names, bound);
      OccsEdited(e, names, bound);
      Join(PatOccs(q, bound), Occs(e, bound), names);
  }

  lemma {:induction false} PatPropsEdited(props: PatProps, names: set<Name>, bound: set<Name>)
    ensures PatPropsOccs(VisitPatProps(props, names - bound), bound) == Edited(PatPropsOccs(props, bound), names)
  {
    hide Edited, Occs, Visit, VisitKey, VisitPat, PatOccs, MaybeOccs, VisitMaybe;
    PlainEdits("", names, bound);
    match props
    case PPNil =>
    case PatProp(key, value, tail) =>
      KeyEdited(key, names, bound);
      PatEdited(value, names, bound);
      PatPropsEdited(tail, names, bound);
      Join3(KeyOccs(key, bound), PatOccs(value, bound), PatPropsOccs(tail, bound), names);
    case ShorthandPat(name, declares, default, tail) =>
      var here := if declares then [] else [Plain(name, name in bound)];
      MaybeEdited(default, names, bound);
      PatPropsEdited(tail, names, bound);
      PlainEdits(name, names, bound);
      DefaultedOccs(name, VisitMaybe(default, names - bound), bound);
      Join(here, MaybeOccs(default, bound), names);
      Join(here + MaybeOccs(default, bound), PatPropsOccs(tail, bound), names);
      assert KeyOccs(Named(name), bound) == [];
  }

  lemma DefaultedOccs(name: Name, default: MaybeExpr, bound: set<Name>)
    ensures PatOccs(Defaulted(Place(Read(name)), default), bound) == [Scoped(name)] + MaybeOccs(default, bound)
  {
    ReadOccs(name, bound);
    assert PatOccs(Place(Read(name)), bound) == [Scoped(name)];
  }

  lemma {:induction false} PatsEdited(ps: Pats, names: set<Name>, bound: set<Name>)
    ensures PatsOccs(VisitPats(ps, names - bound), bound) == Edited(PatsOccs(ps, bound), names)
  {
    hide Edited, PatOccs, VisitPat;
    PlainEdits("", names, bound);
    match ps
    case PatNil =>
    case PatCons(head, tail) =>
      PatEdited(head, names, bound);
      PatsEdited(tail, names, bound);
      Join(PatOccs(head, bound), PatsOccs(tail, bound), names);
  }

  lemma {:induction false} FuncEdited(f: Func, names: set<Name>, bound: set<Name>)
    ensures FuncOccs(VisitFunc(f, names - bound), bound) == Edited(FuncOccs(f, bound), names)
  {
    hide Edited, PatsOccs, VisitPats, StmtsOccs, VisitStmts, Shadow, Set;
    var inside := bound + Set(ParameterNames(f));
    Narrows(names, bound, ParameterNames(f));
    PatsEdited(f.params, names, inside);
    SamePatsBound(f.params, names - inside);
    ScopeEdited(f.body, names, inside);
    Join(PatsOccs(f.params, inside), StmtsOccs(f.body, inside + Set(BodyNames(f.body))), names);
  }

  /** A function's body, or a static block: its own names are bound in it. */
  lemma {:induction false} ScopeEdited(body: Stmts, names: set<Name>, bound: set<Name>)
    ensures var after := VisitStmts(body, Shadow(names - bound, BodyNames(body))); BodyNames(after) == BodyNames(body) && StmtsOccs(after, bound + Set(BodyNames(body))) == Edited(StmtsOccs(body, bound + Set(BodyNames(body))), names)
    decreases body, 1
  {
    hide Edited, StmtsOccs, VisitStmts, Shadow, Set;
    var inner := Shadow(names - bound, BodyNames(body));
    Narrows(names, bound, BodyNames(body));
    SameVars(body, inner);
    SameLexicals(body, inner);
    StmtsEdited(body, names, bound + Set(BodyNames(body)));
  }

  lemma {:induction false} BlockEdited(body: Stmts, names: set<Name>, bound: set<Name>)
    ensures var after := VisitStmts(body, Shadow(names - bound, LexicalNames(body))); LexicalNames(after) == LexicalNames(body) && StmtsOccs(after, bound + Set(LexicalNames(body))) == Edited(StmtsOccs(body, bound + Set(LexicalNames(body))), names)
    decreases body, 1
  {
    hide Edited, StmtsOccs, VisitStmts, Shadow, Set;
    var inner := Shadow(names - bound, LexicalNames(body));
    Narrows(names, bound, LexicalNames(body));
    SameLexicals(body, inner);
    StmtsEdited(body, names, bound + Set(LexicalNames(body)));
  }

  lemma {:induction false} ClassEdited(c: Class, names: set<Name>, bound: set<Name>)
    ensures ClassOccs(VisitClass(c, names - bound), bound) == Edited(ClassOccs(c, bound), names)
  {
    hide Edited, MaybeOccs, VisitMaybe, FuncOccs, VisitFunc, MembersOccs, VisitMembers, Shadow, Set;
    var inside := bound + Set(ClassNames(c));
    Narrows(names, bound, ClassNames(c));
    MaybeEdited(c.heritage, names, inside);
    FuncEdited(c.ctor, names, inside);
    MembersEdited(c.members, names, inside);
    Join3(MaybeOccs(c.heritage, inside), FuncOccs(c.ctor, inside), MembersOccs(c.members, inside), names);
  }

  lemma {:induction false} MembersEdited(ms: Members, names: set<Name>, bound: set<Name>)
    ensures MembersOccs(VisitMembers(ms, names - bound), bound) == Edited(MembersOccs(ms, bound), names)
  {
    hide Edited, KeyOccs, VisitKey, FuncOccs, VisitFunc, Occs, Visit, StmtsOccs, VisitStmts, Shadow, Set;
    PlainEdits("", names, bound);
    match ms
    case MNil =>
    case Method(key, f, tail) =>
      KeyEdited(key, names, bound);
      FuncEdited(f, names, bound);
      MembersEdited(tail, names, bound);
      Join3(KeyOccs(key, bound), FuncOccs(f, bound), MembersOccs(tail, bound), names);
    case StaticField(_, value, tail) =>
      OccsEdited(value, names, bound);
      MembersEdited(tail, names, bound);
      Join(Occs(value, bound), MembersOccs(tail, bound), names);
    case StaticBlock(body, tail) =>
      ScopeEdited(body, names, bound);
      MembersEdited(tail, names, bound);
      Join(StmtsOccs(body, bound + Set(BodyNames(body))), MembersOccs(tail, bound), names);
  }

  lemma {:induction false} StmtEdited(s: Stmt, names: set<Name>, bound: set<Name>)
    ensures StmtOccs(VisitStmt(s, names - bound), bound) == Edited(StmtOccs(s, bound), names)
    decreases s, 1
  {
    hide Edited, PatOccs, VisitPat, MaybeOccs, VisitMaybe, FuncOccs, VisitFunc, ClassOccs, VisitClass;
    hide Occs, Visit, StmtsOccs, VisitStmts, CasesOccs, VisitCases, Shadow, Set;
    match s
    case ExprStmt(e) => OccsEdited(e, names, bound);
    case Declare(_, target, init) =>
      PatEdited(target, names, bound);
      MaybeEdited(init, names, bound);
      Join(PatOccs(target, bound), MaybeOccs(init, bound), names);
    case FunctionDecl(_, f) => FuncEdited(f, names, bound);
    case ClassDecl(_, c) => ClassEdited(c, names, bound);
    case Block(body) => BlockEdited(body, names, bound);
    case If(test, yes, no) =>
      OccsEdited(test, names, bound);
      StmtEdited(yes, names, bound);
      StmtEdited(no, names, bound);
      Join3(Occs(test, bound), StmtOccs(yes, bound), StmtOccs(no, bound), names);
    case For(_, _, _, _) => ForEdited(s, names, bound);
    case ForOf(_, _, _, _) => ForOfEdited(s, names, bound);
    case Switch(value, cases) => SwitchEdited(s, names, bound);
    case Try(_, _, _) => TryEdited(s, names, bound);
    case Return(e) => OccsEdited(e, names, bound);
    case Throw(e) => OccsEdited(e, names, bound);
  }

  lemma {:induction false} ForEdited(s: Stmt, names: set<Name>, bound: set<Name>)
    requires s.For?
    ensures StmtOccs(VisitStmt(s, names - bound), bound) == Edited(StmtOccs(s, bound), names)
    decreases s, 0
  {
    hide Edited, Occs, Visit, Shadow, Set;
    var inside := bound + Set(HeadNames(s.first));
    Narrows(names, bound, HeadNames(s.first));
    StmtEdited(s.first, names, inside);
    OccsEdited(s.test, names, inside);
    OccsEdited(s.update, names, inside);
    StmtEdited(s.loop, names, inside);
    SameLexical(s.first, names - inside);
    Join(StmtOccs(s.first, inside), Occs(s.test, inside), names);
    Join(Occs(s.update, inside), StmtOccs(s.loop, inside), names);
    Join(StmtOccs(s.first, inside) + Occs(s.test, inside), Occs(s.update, inside) + StmtOccs(s.loop, inside), names);
  }

  lemma {:induction false} ForOfEdited(s: Stmt, names: set<Name>, bound: set<Name>)
    requires s.ForOf?
    ensures StmtOccs(VisitStmt(s, names - bound), bound) == Edited(StmtOccs(s, bound), names)
    decreases s, 0
  {
    hide Edited, Occs, Visit, PatOccs, VisitPat, Shadow, Set;
    var inside := bound + Set(ForOfNames(s.left, s.declares));
    Narrows(names, bound, ForOfNames(s.left, s.declares));
    PatEdited(s.left, names, inside);
    OccsEdited(s.right, names, inside);
    StmtEdited(s.loop, names, inside);
    SameBound(s.left, names - inside);
    Join3(PatOccs(s.left, inside), Occs(s.right, inside), StmtOccs(s.loop, inside), names);
  }

  lemma {:induction false} SwitchEdited(s: Stmt, names: set<Name>, bound: set<Name>)
    requires s.Switch?
    ensures StmtOccs(VisitStmt(s, names - bound), bound) == Edited(StmtOccs(s, bound), names)
    decreases s, 0
  {
    hide Edited, Occs, Visit, CasesOccs, VisitCases, Shadow, Set;
    var inside := bound + Set(CaseLexicals(s.cases));
    Narrows(names, bound, CaseLexicals(s.cases));
    OccsEdited(s.value, names, bound);
    CasesEdited(s.cases, names, inside);
    SameCaseLexicals(s.cases, names - inside);
    Join(Occs(s.value, bound), CasesOccs(s.cases, inside), names);
  }

  lemma {:induction false} TryEdited(s: Stmt, names: set<Name>, bound: set<Name>)
    requires s.Try?
    ensures StmtOccs(VisitStmt(s, names - bound), bound) == Edited(StmtOccs(s, bound), names)
    decreases s, 0
  {
    hide Edited, PatOccs, VisitPat, StmtsOccs, VisitStmts, Shadow, Set;
    var caught := bound + Set(BoundNames(s.param));
    Narrows(names, bound, BoundNames(s.param));
    BlockEdited(s.block, names, bound);
    PatEdited(s.param, names, caught);
    SameBound(s.param, names - caught);
    BlockEdited(s.handler, names, caught);
    Join3(StmtsOccs(s.block, bound + Set(LexicalNames(s.block))), PatOccs(s.param, caught),
          StmtsOccs(s.handler, caught + Set(LexicalNames(s.handler))), names);
  }

  lemma {:induction false} StmtsEdited(ss: Stmts, names: set<Name>, bound: set<Name>)
    ensures StmtsOccs(VisitStmts(ss, names - bound), bound) == Edited(StmtsOccs(ss, bound), names)
    decreases ss, 0
  {
    hide Edited, StmtOccs, VisitStmt;
    PlainEdits("", names, bound);
    match ss
    case SNil =>
    case SCons(head, tail) =>
      StmtEdited(head, names, bound);
      StmtsEdited(tail, names, bound);
      Join(StmtOccs(head, bound), StmtsOccs(tail, bound), names);
  }

  lemma {:induction false} CasesEdited(cases: Cases, names: set<Name>, bound: set<Name>)
    ensures CasesOccs(VisitCases(cases, names - bound), bound) == Edited(CasesOccs(cases, bound), names)
  {
    hide Edited, Occs, Visit, StmtsOccs, VisitStmts;
    PlainEdits("", names, bound);
    match cases
    case CNil =>
    case Case(test, body, tail) =>
      OccsEdited(test, names, bound);
      StmtsEdited(body, names, bound);
      CasesEdited(tail, names, bound);
      Join3(Occs(test, bound), StmtsOccs(body, bound), CasesOccs(tail, bound), names);
  }

  /**
   * Occurrence by occurrence: the rewritten body has the references of the body, in their order, each as it was but
   * for a guest name that no declaration around it binds, which is read from the scope.
   */
  lemma EditedExactlyWhenFree(body: Stmts, names: set<Name>)
    ensures |BodyOccs(Rewritten(body, names))| == |BodyOccs(body)|
    ensures forall k :: 0 <= k < |BodyOccs(body)| ==>
              BodyOccs(Rewritten(body, names))[k] == EditedOne(BodyOccs(body)[k], names)
  {
    hide StmtsOccs, VisitStmts, Shadow, Set, BodyNames;
    assert names - {} == names && {} + Set(BodyNames(body)) == Set(BodyNames(body));
    ScopeEdited(body, names, {});
  }
}
