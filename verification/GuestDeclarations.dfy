/** Rewriting declares the same names in the same places. */
module GuestDeclarations {
  import opened Wrappers
  import opened GuestLanguage
  import opened GuestNames

  lemma {:induction false} SameBound(p: Pat, visible: set<Name>)
    ensures BoundNames(VisitPat(p, visible)) == BoundNames(p)
  {
    match p
    case ObjectPat(props) => SamePropsBound(props, visible);
    case ArrayPat(elems) => SamePatsBound(elems, visible);
    case Default(q, _) => SameBound(q, visible);
    case _ =>
  }

  lemma {:induction false} SamePropsBound(props: PatProps, visible: set<Name>)
    ensures PropsBound(VisitPatProps(props, visible)) == PropsBound(props)
  {
    match props
    case PPNil =>
    case PatProp(_, value, tail) =>
      SameBound(value, visible);
      SamePropsBound(tail, visible);
    case ShorthandPat(name, declares, default, tail) =>
      SamePropsBound(tail, visible);
      assert BoundNames(Defaulted(Place(Read(name)), VisitMaybe(default, visible))) == [];
  }

  lemma {:induction false} SamePatsBound(ps: Pats, visible: set<Name>)
    ensures PatsBound(VisitPats(ps, visible)) == PatsBound(ps)
  {
    match ps
    case PatNil =>
    case PatCons(head, tail) =>
      SameBound(head, visible);
      SamePatsBound(tail, visible);
  }

  lemma {:induction false} SameLexicals(ss: Stmts, visible: set<Name>)
    ensures LexicalNames(VisitStmts(ss, visible)) == LexicalNames(ss)
  {
    match ss
    case SNil =>
    case SCons(head, tail) =>
      SameLexical(head, visible);
      SameLexicals(tail, visible);
  }

  lemma SameLexical(s: Stmt, visible: set<Name>)
    ensures LexicalName(VisitStmt(s, visible)) == LexicalName(s)
    ensures HeadNames(VisitStmt(s, visible)) == HeadNames(s)
  {
    match s
    case Declare(_, target, _) => SameBound(target, visible);
    case _ =>
  }

  lemma {:induction false} SameCaseLexicals(cases: Cases, visible: set<Name>)
    ensures CaseLexicals(VisitCases(cases, visible)) == CaseLexicals(cases)
  {
    match cases
    case CNil =>
    case Case(_, body, tail) =>
      SameLexicals(body, visible);
      SameCaseLexicals(tail, visible);
  }

  lemma {:induction false} SameVars(ss: Stmts, visible: set<Name>)
    ensures VarNames(VisitStmts(ss, visible)) == VarNames(ss)
    decreases ss
  {
    match ss
    case SNil =>
    case SCons(head, tail) =>
      SameVar(head, visible);
      SameVars(tail, visible);
  }

  lemma {:induction false} SameVar(s: Stmt, visible: set<Name>)
    ensures VarName(VisitStmt(s, visible)) == VarName(s)
    decreases s
  {
    match s
    case Declare(_, target, _) => SameBound(target, visible);
    case Block(body) => SameVars(body, Shadow(visible, LexicalNames(body)));
    case If(_, yes, no) =>
      SameVar(yes, visible);
      SameVar(no, visible);
    case For(first, _, _, loop) =>
      var inner := Shadow(visible, HeadNames(first));
      SameVar(first, inner);
      SameVar(loop, inner);
    case ForOf(left, declares, _, loop) =>
      var inner := Shadow(visible, ForOfNames(left, declares));
      SameBound(left, inner);
      SameVar(loop, inner);
    case Switch(_, cases) => SameCaseVars(cases, Shadow(visible, CaseLexicals(cases)));
    case Try(block, param, handler) =>
      SameVars(block, Shadow(visible, LexicalNames(block)));
      SameVars(handler, Shadow(Shadow(visible, BoundNames(param)), LexicalNames(handler)));
    case _ =>
  }

  lemma {:induction false} SameCaseVars(cases: Cases, visible: set<Name>)
    ensures CaseVars(VisitCases(cases, visible)) == CaseVars(cases)
    decreases cases
  {
    match cases
    case CNil =>
    case Case(_, body, tail) =>
      SameVars(body, visible);
      SameCaseVars(tail, visible);
  }
}
