/**
 * The lists of names the rewriting and the evaluator go by are the names that stand declared, for the parts they are.
 */
module GuestScopeLaws {
  import opened Wrappers
  import opened GuestLanguage
  import opened GuestNames
  import opened GuestFreeNames
  import opened GuestOccurrences
  import opened GuestScopes

  // ------------------------------------------------------------------ patterns

  /** A part of a pattern declares a name, as the lists have it. */
  predicate LeafOf(m: Node, x: Name) {
    m == Leaf(x) || (m.P? && x in BoundNames(m.p))
  }

  lemma {:induction false} PropsStep(props: PatProps, x: Name)
    ensures x in PropsBound(props) <==> exists m :: m in PatPropParts(props) && LeafOf(m, x)
  {
    match props
    case PPNil =>
    case PatProp(key, value, tail) =>
      PropsStep(tail, x);
      assert PatPropParts(props) == KeyParts(key) + ([P(value)] + PatPropParts(tail));
      assert P(value) in PatPropParts(props);
      assert forall m <- PatPropParts(tail) :: m in PatPropParts(props);
    case ShorthandPat(name, declares, default, tail) =>
      PropsStep(tail, x);
      var first := if declares then Leaf(name) else Short(name);
      assert PatPropParts(props) == [first] + (MaybeParts(default) + PatPropParts(tail));
      assert first in PatPropParts(props);
      assert forall m <- PatPropParts(tail) :: m in PatPropParts(props);
  }

  lemma {:induction false} PatsStep(ps: Pats, x: Name)
    ensures x in PatsBound(ps) <==> exists m :: m in PatParts(ps) && LeafOf(m, x)
  {
    match ps
    case PatNil =>
    case PatCons(head, tail) =>
      PatsStep(tail, x);
      assert PatParts(ps) == [P(head)] + PatParts(tail);
      assert P(head) in PatParts(ps);
      assert forall m <- PatParts(tail) :: m in PatParts(ps);
  }

  lemma BoundStep(p: Pat, x: Name)
    ensures x in BoundNames(p) <==> exists m :: m in PatternParts(p) && LeafOf(m, x)
  {
    match p
    case Declared(name) => assert Leaf(name) in PatternParts(p);
    case Place(e) =>
    case ObjectPat(props) => PropsStep(props, x);
    case ArrayPat(elems) => PatsStep(elems, x);
    case Default(q, e) => assert P(q) in PatternParts(p);
  }

  lemma {:induction false} LeavesBound(n: Node, x: Name, depth: nat)
    requires Leaves(n, x, depth)
    ensures LeafOf(n, x)
    decreases depth
  {
    if n != Leaf(x) {
      var m :| m in Parts(n) && Leaves(m, x, depth - 1);
      LeavesBound(m, x, depth - 1);
      BoundStep(n.p, x);
    }
  }

  lemma {:induction false} BoundLeaves(n: Node, x: Name) returns (depth: nat)
    requires LeafOf(n, x)
    ensures Leaves(n, x, depth)
    decreases Size(n)
  {
    depth := 0;
    if n != Leaf(x) {
      BoundStep(n.p, x);
      PartsSmaller(n);
      var m :| m in Parts(n) && LeafOf(m, x);
      var below := BoundLeaves(m, x);
      depth := below + 1;
    }
  }

  /** A pattern's names are those that stand in it as leaves. */
  lemma BoundNamesAre(p: Pat, x: Name)
    ensures x in BoundNames(p) <==> Declares(p, x)
  {
    if x in BoundNames(p) {
      var depth := BoundLeaves(P(p), x);
    } else if Declares(p, x) {
      var depth: nat :| Leaves(P(p), x, depth);
      LeavesBound(P(p), x, depth);
    }
  }

  // ------------------------------------------------------------------ var

  function VarsOf(n: Node): seq<Name> {
    match n
    case S(s) => VarName(s)
    case Body(ss) => VarNames(ss)
    case Blk(ss) => VarNames(ss)
    case Handler(ss) => VarNames(ss)
    case CaseBlock(cs) => CaseVars(cs)
    case _ => []
  }

  lemma {:induction false} ListVarStep(ss: Stmts, x: Name)
    ensures x in VarNames(ss) <==> exists m :: m in ListParts(ss) && x in VarsOf(m)
  {
    match ss
    case SNil =>
    case SCons(head, tail) =>
      ListVarStep(tail, x);
      assert ListParts(ss) == [S(head)] + ListParts(tail);
      assert S(head) in ListParts(ss);
      assert forall m <- ListParts(tail) :: m in ListParts(ss);
  }

  lemma {:induction false} CaseVarStep(cs: Cases, x: Name)
    ensures x in CaseVars(cs) <==> exists m :: m in CaseParts(cs) && x in VarsOf(m)
  {
    match cs
    case CNil =>
    case Case(test, body, tail) =>
      ListVarStep(body, x);
      CaseVarStep(tail, x);
      assert CaseParts(cs) == [X(test)] + (ListParts(body) + CaseParts(tail));
      assert forall m :: m in CaseParts(cs) <==> m == X(test) || m in ListParts(body) || m in CaseParts(tail);
  }

  lemma StmtVarStep(s: Stmt, x: Name)
    ensures x in VarName(s) <==> DeclaresVar(S(s), x) || exists m :: m in StmtParts(s) && x in VarsOf(m)
  {
    if s.Block? || s.Switch? || s.Try? {
      BlocksVarStep(s, x);
    } else if s.If? || s.For? || s.ForOf? {
      LoopsVarStep(s, x);
    } else {
      hide Declares, BoundNames, VarNames, CaseVars;
      if s.Declare? { BoundNamesAre(s.target, x); }
    }
  }

  lemma BlocksVarStep(s: Stmt, x: Name)
    requires s.Block? || s.Switch? || s.Try?
    ensures x in VarName(s) <==> exists m :: m in StmtParts(s) && x in VarsOf(m)
    ensures !DeclaresVar(S(s), x)
  {
    hide Declares, BoundNames, VarNames, CaseVars;
    match s
    case Block(body) => assert Blk(body) in StmtParts(s);
    case Switch(_, cases) => assert CaseBlock(cases) in StmtParts(s);
    case Try(block, param, handler) => assert Blk(block) in StmtParts(s) && Handler(handler) in StmtParts(s);
  }

  lemma LoopsVarStep(s: Stmt, x: Name)
    requires s.If? || s.For? || s.ForOf?
    ensures x in VarName(s) <==> DeclaresVar(S(s), x) || exists m :: m in StmtParts(s) && x in VarsOf(m)
  {
    hide Declares, BoundNames, VarNames, CaseVars;
    match s
    case If(_, yes, no) => assert S(yes) in StmtParts(s) && S(no) in StmtParts(s);
    case For(first, _, _, loop) => assert S(first) in StmtParts(s) && S(loop) in StmtParts(s);
    case ForOf(left, _, _, loop) =>
      BoundNamesAre(left, x);
      assert S(loop) in StmtParts(s);
  }

  /** Nothing but statements stands in statements as their parts: what is in an expression is a function's own. */
  lemma VarStep(n: Node, x: Name)
    ensures x in VarsOf(n) ==> DeclaresVar(n, x) || exists m :: m in Parts(n) && x in VarsOf(m)
    ensures !n.F? && !n.C? && (DeclaresVar(n, x) || exists m :: m in Parts(n) && x in VarsOf(m)) ==> x in VarsOf(n)
  {
    match n
    case S(s) => StmtVarStep(s, x);
    case Body(ss) => ListVarStep(ss, x);
    case Blk(ss) => ListVarStep(ss, x);
    case Handler(ss) => ListVarStep(ss, x);
    case CaseBlock(cs) => CaseVarStep(cs, x);
    case F(_) =>
    case C(_) =>
    case _ => ExprPartsAre(n);
  }

  predicate NoStatement(m: Node) {
    m.X? || m.Short? || m.P? || m.Leaf? || m.F? || m.C?
  }

  lemma ExprPartsAre(n: Node)
    requires n.X? || n.Short? || n.P? || n.Leaf? || n.Params?
    ensures forall m <- Parts(n) :: NoStatement(m)
  {
    if n.X? {
      match n.e
      case Call(_, args) => ArgPartsAre(args);
      case New(_, args) => ArgPartsAre(args);
      case ObjectLit(props) => PropPartsAre(props);
      case _ =>
    } else if n.P? && n.p.ObjectPat? {
      PatPropPartsAre(n.p.props);
    } else if n.P? && n.p.ArrayPat? {
      PatPartsAre(n.p.elems);
    } else if n.Params? {
      PatPartsAre(n.ps);
    }
  }

  lemma {:induction false} ArgPartsAre(es: Exprs)
    ensures forall m <- ArgParts(es) :: NoStatement(m)
  {
    if es.ECons? { ArgPartsAre(es.tail); }
  }

  lemma {:induction false} PropPartsAre(props: Props)
    ensures forall m <- PropParts(props) :: NoStatement(m)
  {
    if props != PNil { PropPartsAre(props.tail); }
  }

  lemma {:induction false} PatPropPartsAre(props: PatProps)
    ensures forall m <- PatPropParts(props) :: NoStatement(m)
  {
    if props != PPNil { PatPropPartsAre(props.tail); }
  }

  lemma {:induction false} PatPartsAre(ps: Pats)
    ensures forall m <- PatParts(ps) :: NoStatement(m)
  {
    if ps.PatCons? { PatPartsAre(ps.tail); }
  }

  lemma {:induction false} HoistsVars(n: Node, x: Name, depth: nat)
    requires Hoists(n, x, depth)
    ensures x in VarsOf(n)
    decreases depth
  {
    hide DeclaresVar, VarsOf, Parts;
    if !DeclaresVar(n, x) {
      var m :| m in Parts(n) && Hoists(m, x, depth - 1);
      HoistsVars(m, x, depth - 1);
    }
    VarStep(n, x);
  }

  lemma {:induction false} VarsHoist(n: Node, x: Name) returns (depth: nat)
    requires x in VarsOf(n)
    ensures Hoists(n, x, depth)
    decreases Size(n)
  {
    hide DeclaresVar, Parts, Size;
    depth := 0;
    VarStep(n, x);
    if !DeclaresVar(n, x) {
      PartsSmaller(n);
      var m :| m in Parts(n) && x in VarsOf(m);
      var below := VarsHoist(m, x);
      depth := below + 1;
    }
  }

  /** A body's var names are those of the `var`s that stand anywhere in it short of a function or a class. */
  lemma VarNamesAre(ss: Stmts, x: Name)
    ensures x in VarNames(ss) <==> HasVar(Body(ss), x)
  {
    hide Hoists;
    if x in VarNames(ss) {
      var depth := VarsHoist(Body(ss), x);
    } else if HasVar(Body(ss), x) {
      var depth: nat :| Hoists(Body(ss), x, depth);
      HoistsVars(Body(ss), x, depth);
    }
  }

  // ------------------------------------------------------------------ let, function and class

  lemma LexicalStep(s: Stmt, x: Name)
    ensures x in LexicalName(s) <==> DeclaresInBlock(S(s), x)
  {
    hide Declares;
    if s.Declare? { BoundNamesAre(s.target, x); }
  }

  lemma {:induction false} ListLexicals(ss: Stmts, x: Name)
    ensures x in LexicalNames(ss) <==> exists m :: m in ListParts(ss) && DeclaresInBlock(m, x)
  {
    hide DeclaresInBlock, LexicalName;
    match ss
    case SNil =>
    case SCons(head, tail) =>
      LexicalStep(head, x);
      ListLexicals(tail, x);
      assert ListParts(ss) == [S(head)] + ListParts(tail);
      assert S(head) in ListParts(ss);
      assert forall m <- ListParts(tail) :: m in ListParts(ss);
  }

  lemma {:induction false} CaseLexicalsStep(cs: Cases, x: Name)
    ensures x in CaseLexicals(cs) <==> exists m :: m in CaseParts(cs) && DeclaresInBlock(m, x)
  {
    match cs
    case CNil =>
    case Case(test, body, tail) =>
      ListLexicals(body, x);
      CaseLexicalsStep(tail, x);
      assert CaseParts(cs) == [X(test)] + (ListParts(body) + CaseParts(tail));
      assert forall m :: m in CaseParts(cs) <==> m == X(test) || m in ListParts(body) || m in CaseParts(tail);
  }

  lemma PartsAre(ss: Stmts, cs: Cases)
    ensures Parts(Blk(ss)) == Parts(Body(ss)) == Parts(Handler(ss)) == ListParts(ss) && Parts(CaseBlock(cs)) == CaseParts(cs)
  {
  }

  /** A block's lexical names are those declared among its own statements; all of a switch's cases are one block. */
  lemma LexicalNamesAre(ss: Stmts, cs: Cases, x: Name)
    ensures x in LexicalNames(ss) <==> Lexical(Blk(ss), x)
    ensures Lexical(Blk(ss), x) == Lexical(Body(ss), x) == Lexical(Handler(ss), x)
    ensures x in CaseLexicals(cs) <==> Lexical(CaseBlock(cs), x)
  {
    PartsAre(ss, cs);
    hide DeclaresInBlock, Parts, ListParts, CaseParts, LexicalNames, CaseLexicals;
    ListLexicals(ss, x);
    CaseLexicalsStep(cs, x);
  }

  // ------------------------------------------------------------------ which names are bound in which part

  /** The names a piece binds in a part, as the lists have them. */
  function NamesFor(n: Node, part: Node): seq<Name> {
    match n
    case F(f) => ParameterNames(f)
    case C(c) => ClassNames(c)
    case Body(ss) => BodyNames(ss)
    case Blk(ss) => LexicalNames(ss)
    case Handler(ss) => LexicalNames(ss)
    case CaseBlock(cs) => CaseLexicals(cs)
    case S(For(first, _, _, _)) => HeadNames(first)
    case S(ForOf(left, declares, _, _)) => ForOfNames(left, declares)
    case S(Try(_, param, _)) => if part.Blk? then [] else BoundNames(param)
    case _ => []
  }

  /** A function's parameter scope: its own name, `arguments` but for an arrow, and what its parameters declare. */
  lemma ParameterNamesAre(f: Func, x: Name)
    ensures x in ParameterNames(f) <==> Binds(F(f), Params(f.params), x)
  {
    hide Declares;
    PatsStep(f.params, x);
    forall m | m in PatParts(f.params) ensures LeafOf(m, x) <==> m.P? && Declares(m.p, x) {
      PatPartsArePatterns(f.params);
      BoundNamesAre(m.p, x);
    }
  }

  lemma {:induction false} PatPartsArePatterns(ps: Pats)
    ensures forall m <- PatParts(ps) :: m.P?
  {
    if ps.PatCons? { PatPartsArePatterns(ps.tail); }
  }

  /** Every list the walk narrows by is exactly the names the piece binds in that part. */
  lemma NamesAreBound(n: Node, part: Node, x: Name)
    ensures x in NamesFor(n, part) <==> Binds(n, part, x)
  {
    hide Declares, HasVar, Lexical;
    match n
    case F(f) => ParameterNamesAre(f, x);
    case Body(ss) =>
      LexicalNamesAre(ss, CNil, x);
      VarNamesAre(ss, x);
      assert NamesFor(n, part) == VarNames(ss) + LexicalNames(ss);
    case Blk(ss) => LexicalNamesAre(ss, CNil, x);
    case Handler(ss) => LexicalNamesAre(ss, CNil, x);
    case CaseBlock(cs) => LexicalNamesAre(SNil, cs, x);
    case S(For(first, _, _, _)) => if first.Declare? { BoundNamesAre(first.target, x); }
    case S(ForOf(left, declares, _, _)) => BoundNamesAre(left, x);
    case S(Try(_, param, _)) => BoundNamesAre(param, x);
    case _ =>
  }
}
