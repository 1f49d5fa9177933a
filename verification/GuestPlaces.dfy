/**
 * The occurrences the rewriting edits, told by places: a name is written as a reference, bound or not, exactly where a
 * reference to it stands that some piece around it binds, or none does.
 */
module GuestPlaces {
  import opened Wrappers
  import opened GuestLanguage
  import opened GuestNames
  import opened GuestFreeNames
  import opened GuestOccurrences
  import opened GuestScopes
  import opened GuestScopeLaws

  /** The occurrences in a piece, the names of its own scope besides those around it. */
  function OccsOf(n: Node, bound: set<Name>): seq<Occurrence> {
    match n
    case X(e) => Occs(e, bound)
    case Short(name) => [Plain(name, name in bound)]
    case P(p) => PatOccs(p, bound)
    case Leaf(_) => []
    case F(f) => FuncOccs(f, bound)
    case Params(ps) => PatsOccs(ps, bound)
    case C(c) => ClassOccs(c, bound)
    case S(s) => StmtOccs(s, bound)
    case Body(ss) => StmtsOccs(ss, bound + Set(BodyNames(ss)))
    case Blk(ss) => StmtsOccs(ss, bound + Set(LexicalNames(ss)))
    case Handler(ss) => StmtsOccs(ss, bound + Set(LexicalNames(ss)))
    case CaseBlock(cs) => CasesOccs(cs, bound + Set(CaseLexicals(cs)))
  }

  /** Some of these pieces has the occurrence, with these names bound around each. */
  predicate Has(parts: seq<Node>, o: Occurrence, bound: set<Name>) {
    exists m :: m in parts && o in OccsOf(m, bound)
  }

  lemma HasJoin(a: seq<Node>, b: seq<Node>, o: Occurrence, bound: set<Name>)
    ensures Has(a + b, o, bound) <==> Has(a, o, bound) || Has(b, o, bound)
  {
    hide OccsOf;
    assert forall m :: m in a + b <==> m in a || m in b;
  }

  lemma HasOne(m: Node, o: Occurrence, bound: set<Name>)
    ensures Has([m], o, bound) <==> o in OccsOf(m, bound)
    ensures !Has([], o, bound)
  {
    hide OccsOf;
    assert m in [m];
  }

  lemma HasTwo(a: Node, b: Node, o: Occurrence, bound: set<Name>)
    ensures Has([a, b], o, bound) <==> o in OccsOf(a, bound) || o in OccsOf(b, bound)
  {
    hide OccsOf;
    assert a in [a, b] && b in [a, b];
  }

  lemma HasThree(a: Node, b: Node, c: Node, o: Occurrence, bound: set<Name>)
    ensures Has([a, b, c], o, bound) <==> o in OccsOf(a, bound) || o in OccsOf(b, bound) || o in OccsOf(c, bound)
  {
    hide OccsOf;
    assert a in [a, b, c] && b in [a, b, c] && c in [a, b, c];
  }

  lemma KeyHas(key: Key, o: Occurrence, bound: set<Name>)
    ensures o in KeyOccs(key, bound) <==> Has(KeyParts(key), o, bound)
  {
    hide Occs;
    if key.Computed? { HasOne(X(key.e), o, bound); }
  }

  lemma MaybeHas(e: MaybeExpr, o: Occurrence, bound: set<Name>)
    ensures o in MaybeOccs(e, bound) <==> Has(MaybeParts(e), o, bound)
  {
    hide Occs;
    if e.JustExpr? { HasOne(X(e.e), o, bound); }
  }

  lemma {:induction false} ArgsHas(es: Exprs, o: Occurrence, bound: set<Name>)
    ensures o in AllOccs(es, bound) <==> Has(ArgParts(es), o, bound)
  {
    hide Occs, Has;
    match es
    case ENil => HasOne(Leaf(""), o, bound);
    case ECons(head, tail) =>
      ArgsHas(tail, o, bound);
      HasOne(X(head), o, bound);
      HasJoin([X(head)], ArgParts(tail), o, bound);
  }

  lemma {:induction false} PropsHas(props: Props, o: Occurrence, bound: set<Name>)
    ensures o in PropsOccs(props, bound) <==> Has(PropParts(props), o, bound)
  {
    hide Occs, Has, KeyOccs, KeyParts;
    match props
    case PNil => HasOne(Leaf(""), o, bound);
    case Prop(key, value, tail) =>
      PropsHas(tail, o, bound);
      KeyHas(key, o, bound);
      HasOne(X(value), o, bound);
      HasJoin([X(value)], PropParts(tail), o, bound);
      HasJoin(KeyParts(key), [X(value)] + PropParts(tail), o, bound);
    case Shorthand(name, tail) =>
      PropsHas(tail, o, bound);
      HasOne(Short(name), o, bound);
      HasJoin([Short(name)], PropParts(tail), o, bound);
  }

  lemma {:induction false} PatPropsHas(props: PatProps, o: Occurrence, bound: set<Name>)
    ensures o in PatPropsOccs(props, bound) <==> Has(PatPropParts(props), o, bound)
  {
    hide Has, KeyOccs, KeyParts, PatOccs, MaybeOccs, MaybeParts;
    match props
    case PPNil => HasOne(Leaf(""), o, bound);
    case PatProp(key, value, tail) =>
      PatPropsHas(tail, o, bound);
      KeyHas(key, o, bound);
      HasOne(P(value), o, bound);
      HasJoin([P(value)], PatPropParts(tail), o, bound);
      HasJoin(KeyParts(key), [P(value)] + PatPropParts(tail), o, bound);
    case ShorthandPat(name, declares, default, tail) =>
      PatPropsHas(tail, o, bound);
      MaybeHas(default, o, bound);
      var first := if declares then Leaf(name) else Short(name);
      HasOne(first, o, bound);
      HasJoin(MaybeParts(default), PatPropParts(tail), o, bound);
      HasJoin([first], MaybeParts(default) + PatPropParts(tail), o, bound);
  }

  lemma {:induction false} PatsHas(ps: Pats, o: Occurrence, bound: set<Name>)
    ensures o in PatsOccs(ps, bound) <==> Has(PatParts(ps), o, bound)
  {
    hide Has, PatOccs;
    match ps
    case PatNil => HasOne(Leaf(""), o, bound);
    case PatCons(head, tail) =>
      PatsHas(tail, o, bound);
      HasOne(P(head), o, bound);
      HasJoin([P(head)], PatParts(tail), o, bound);
  }

  lemma {:induction false} MembersHas(ms: Members, o: Occurrence, bound: set<Name>)
    ensures o in MembersOccs(ms, bound) <==> Has(MemberParts(ms), o, bound)
  {
    hide Has, KeyOccs, KeyParts, FuncOccs, Occs, StmtsOccs, Set;
    match ms
    case MNil => HasOne(Leaf(""), o, bound);
    case Method(key, f, tail) =>
      MembersHas(tail, o, bound);
      KeyHas(key, o, bound);
      HasOne(F(f), o, bound);
      HasJoin([F(f)], MemberParts(tail), o, bound);
      HasJoin(KeyParts(key), [F(f)] + MemberParts(tail), o, bound);
    case StaticField(_, value, tail) =>
      MembersHas(tail, o, bound);
      HasOne(X(value), o, bound);
      HasJoin([X(value)], MemberParts(tail), o, bound);
    case StaticBlock(body, tail) =>
      MembersHas(tail, o, bound);
      HasOne(Body(body), o, bound);
      HasJoin([Body(body)], MemberParts(tail), o, bound);
  }

  lemma {:induction false} ListHas(ss: Stmts, o: Occurrence, bound: set<Name>)
    ensures o in StmtsOccs(ss, bound) <==> Has(ListParts(ss), o, bound)
  {
    hide Has, StmtOccs;
    match ss
    case SNil => HasOne(Leaf(""), o, bound);
    case SCons(head, tail) =>
      ListHas(tail, o, bound);
      HasOne(S(head), o, bound);
      HasJoin([S(head)], ListParts(tail), o, bound);
  }

  lemma {:induction false} CasesHas(cs: Cases, o: Occurrence, bound: set<Name>)
    ensures o in CasesOccs(cs, bound) <==> Has(CaseParts(cs), o, bound)
  {
    hide Has, Occs, StmtsOccs, ListParts;
    match cs
    case CNil => HasOne(Leaf(""), o, bound);
    case Case(test, body, tail) =>
      ListHas(body, o, bound);
      CasesHas(tail, o, bound);
      HasOne(X(test), o, bound);
      HasJoin(ListParts(body), CaseParts(tail), o, bound);
      HasJoin([X(test)], ListParts(body) + CaseParts(tail), o, bound);
  }

  /** An expression but a name itself has the occurrences of its parts. */
  lemma ExprHas(e: Expr, x: Name, b: bool, bound: set<Name>)
    requires e != Id(x)
    ensures Plain(x, b) in Occs(e, bound) <==> Has(ExprParts(e), Plain(x, b), bound)
  {
    hide Has, KeyOccs, KeyParts, AllOccs, ArgParts, PatOccs, PropsOccs, PropParts, FuncOccs, ClassOccs;
    var o := Plain(x, b);
    HasOne(Leaf(""), o, bound);
    match e
    case Member(obj, key) =>
      KeyHas(key, o, bound);
      HasOne(X(obj), o, bound);
      HasJoin([X(obj)], KeyParts(key), o, bound);
      if obj.Scope? && key.Named? { NothingNamed(key.name, o, bound); }
    case Call(callee, args) =>
      ArgsHas(args, o, bound);
      HasOne(X(callee), o, bound);
      HasJoin([X(callee)], ArgParts(args), o, bound);
    case New(callee, args) =>
      ArgsHas(args, o, bound);
      HasOne(X(callee), o, bound);
      HasJoin([X(callee)], ArgParts(args), o, bound);
    case Construct(callee) => HasOne(X(callee), o, bound);
    case Assign(target, value) => HasTwo(P(target), X(value), o, bound);
    case Update(place) => HasOne(X(place), o, bound);
    case Typeof(operand) => HasOne(X(operand), o, bound);
    case Comma(first, second) => HasTwo(X(first), X(second), o, bound);
    case Cond(test, yes, no) => HasThree(X(test), X(yes), X(no), o, bound);
    case ObjectLit(props) => PropsHas(props, o, bound);
    case Lambda(f) => HasOne(F(f), o, bound);
    case ClassExpr(c) => HasOne(C(c), o, bound);
    case _ =>
  }

  lemma NothingNamed(name: Name, o: Occurrence, bound: set<Name>)
    ensures o !in KeyOccs(Named(name), bound) && o !in Occs(Scope, bound)
  {
  }

  lemma PatHas(p: Pat, o: Occurrence, bound: set<Name>)
    ensures o in PatOccs(p, bound) <==> Has(PatternParts(p), o, bound)
  {
    hide Has, Occs, PatPropsOccs, PatPropParts, PatsOccs, PatParts;
    match p
    case Declared(name) => HasOne(Leaf(name), o, bound);
    case Place(e) => HasOne(X(e), o, bound);
    case ObjectPat(props) => PatPropsHas(props, o, bound);
    case ArrayPat(elems) => PatsHas(elems, o, bound);
    case Default(q, e) => HasTwo(P(q), X(e), o, bound);
  }

  /** The names bound in a part: those around the piece and those it binds there. */
  function Inside(n: Node, part: Node, bound: set<Name>): set<Name> {
    bound + Set(NamesFor(n, part))
  }

  ghost predicate HasInside(n: Node, o: Occurrence, bound: set<Name>) {
    exists m :: m in Parts(n) && o in OccsOf(m, Inside(n, m, bound))
  }

  lemma SameInside(n: Node, o: Occurrence, bound: set<Name>, inside: set<Name>)
    requires forall m <- Parts(n) :: Inside(n, m, bound) == inside
    ensures HasInside(n, o, bound) <==> Has(Parts(n), o, inside)
  {
    hide OccsOf, Parts, Inside;
  }

  lemma NoNames(n: Node, bound: set<Name>)
    requires forall m <- Parts(n) :: NamesFor(n, m) == []
    ensures forall m <- Parts(n) :: Inside(n, m, bound) == bound
  {
    hide Parts, NamesFor;
    assert bound + Set([]) == bound;
  }

  lemma FuncHas(f: Func, o: Occurrence, bound: set<Name>)
    ensures o in FuncOccs(f, bound) <==> HasInside(F(f), o, bound)
  {
    hide Has, PatsOccs, StmtsOccs, Set;
    var inside := bound + Set(ParameterNames(f));
    HasTwo(Params(f.params), Body(f.body), o, inside);
    SameInside(F(f), o, bound, inside);
  }

  lemma ClassHas(c: Class, o: Occurrence, bound: set<Name>)
    ensures o in ClassOccs(c, bound) <==> HasInside(C(c), o, bound)
  {
    hide Has, MaybeOccs, MaybeParts, FuncOccs, MembersOccs, MemberParts, Set;
    var inside := bound + Set(ClassNames(c));
    MaybeHas(c.heritage, o, inside);
    HasOne(F(c.ctor), o, inside);
    MembersHas(c.members, o, inside);
    HasJoin([F(c.ctor)], MemberParts(c.members), o, inside);
    HasJoin(MaybeParts(c.heritage), [F(c.ctor)] + MemberParts(c.members), o, inside);
    SameInside(C(c), o, bound, inside);
  }

  /** A statement that binds nothing in its parts. */
  lemma PlainStmtHas(s: Stmt, o: Occurrence, bound: set<Name>)
    requires !s.For? && !s.ForOf? && !s.Try?
    ensures o in StmtOccs(s, bound) <==> HasInside(S(s), o, bound)
  {
    hide Has, Occs, PatOccs, MaybeOccs, MaybeParts, FuncOccs, ClassOccs, StmtsOccs, CasesOccs, Set;
    NoNames(S(s), bound);
    SameInside(S(s), o, bound, bound);
    match s
    case ExprStmt(e) => HasOne(X(e), o, bound);
    case Declare(_, target, init) =>
      MaybeHas(init, o, bound);
      HasOne(P(target), o, bound);
      HasJoin([P(target)], MaybeParts(init), o, bound);
    case FunctionDecl(_, f) => HasOne(F(f), o, bound);
    case ClassDecl(_, c) => HasOne(C(c), o, bound);
    case Block(body) => HasOne(Blk(body), o, bound);
    case If(test, yes, no) => HasThree(X(test), S(yes), S(no), o, bound);
    case Switch(value, cases) => HasTwo(X(value), CaseBlock(cases), o, bound);
    case Return(e) => HasOne(X(e), o, bound);
    case Throw(e) => HasOne(X(e), o, bound);
  }

  lemma ForHas(s: Stmt, o: Occurrence, bound: set<Name>)
    requires s.For? || s.ForOf?
    ensures o in StmtOccs(s, bound) <==> HasInside(S(s), o, bound)
  {
    hide Has, Occs, PatOccs, Set;
    if s.For? {
      var inside := bound + Set(HeadNames(s.first));
      HasTwo(S(s.first), X(s.test), o, inside);
      HasTwo(X(s.update), S(s.loop), o, inside);
      HasJoin([S(s.first), X(s.test)], [X(s.update), S(s.loop)], o, inside);
      assert [S(s.first), X(s.test)] + [X(s.update), S(s.loop)] == Parts(S(s));
      SameInside(S(s), o, bound, inside);
    } else {
      var inside := bound + Set(ForOfNames(s.left, s.declares));
      HasThree(P(s.left), X(s.right), S(s.loop), o, inside);
      SameInside(S(s), o, bound, inside);
    }
  }

  lemma TryHas(s: Stmt, o: Occurrence, bound: set<Name>)
    requires s.Try?
    ensures o in StmtOccs(s, bound) <==> HasInside(S(s), o, bound)
  {
    hide PatOccs, StmtsOccs, Set;
    var n := S(s);
    var caught := bound + Set(BoundNames(s.param));
    assert bound + Set([]) == bound by { EmptySet(); }
    assert Parts(n) == [Blk(s.block), P(s.param), Handler(s.handler)];
    assert Blk(s.block) in Parts(n) && P(s.param) in Parts(n) && Handler(s.handler) in Parts(n);
    assert Inside(n, Blk(s.block), bound) == bound;
    assert Inside(n, P(s.param), bound) == caught == Inside(n, Handler(s.handler), bound);
  }

  lemma EmptySet()
    ensures Set([]) == {}
  {
  }

  /** A piece has the occurrences of its parts, each with what it binds there, and its own where it is a reference. */
  lemma OccsStep(n: Node, x: Name, b: bool, bound: set<Name>)
    ensures Plain(x, b) in OccsOf(n, bound) <==>
              (IsReference(n, x) && b == (x in bound)) || HasInside(n, Plain(x, b), bound)
  {
    hide Has, HasInside, Occs, PatOccs, FuncOccs, ClassOccs, StmtOccs, StmtsOccs, CasesOccs, PatsOccs, Set;
    var o := Plain(x, b);
    match n
    case X(e) =>
      if e == Id(x) {
        IdHas(x, b, bound);
      } else {
        ExprHas(e, x, b, bound);
        NoNames(n, bound);
        SameInside(n, o, bound, bound);
      }
    case Short(_) => NothingInside(n, o, bound);
    case Leaf(_) => NothingInside(n, o, bound);
    case P(p) =>
      PatHas(p, o, bound);
      NoNames(n, bound);
      SameInside(n, o, bound, bound);
    case F(f) => FuncHas(f, o, bound);
    case Params(ps) =>
      PatsHas(ps, o, bound);
      NoNames(n, bound);
      SameInside(n, o, bound, bound);
    case C(c) => ClassHas(c, o, bound);
    case S(s) =>
      if s.For? || s.ForOf? { ForHas(s, o, bound); } else if s.Try? { TryHas(s, o, bound); } else { PlainStmtHas(s, o, bound); }
    case Body(ss) =>
      ListHas(ss, o, bound + Set(BodyNames(ss)));
      SameInside(n, o, bound, bound + Set(BodyNames(ss)));
    case Blk(ss) =>
      ListHas(ss, o, bound + Set(LexicalNames(ss)));
      SameInside(n, o, bound, bound + Set(LexicalNames(ss)));
    case Handler(ss) =>
      ListHas(ss, o, bound + Set(LexicalNames(ss)));
      SameInside(n, o, bound, bound + Set(LexicalNames(ss)));
    case CaseBlock(cs) =>
      CasesHas(cs, o, bound + Set(CaseLexicals(cs)));
      SameInside(n, o, bound, bound + Set(CaseLexicals(cs)));
  }

  lemma IdHas(x: Name, b: bool, bound: set<Name>)
    ensures Plain(x, b) in OccsOf(X(Id(x)), bound) <==> b == (x in bound)
    ensures !HasInside(X(Id(x)), Plain(x, b), bound)
  {
  }

  lemma NothingInside(n: Node, o: Occurrence, bound: set<Name>)
    requires Parts(n) == []
    ensures !HasInside(n, o, bound)
  {
  }

  lemma InsideIs(n: Node, part: Node, x: Name, bound: set<Name>)
    ensures x in Inside(n, part, bound) <==> x in bound || Binds(n, part, x)
  {
    hide Binds, NamesFor;
    NamesAreBound(n, part, x);
  }

  lemma {:induction false} RefersOccurs(n: Node, x: Name, bound: set<Name>, b: bool, depth: nat)
    requires Refers(n, x, x in bound, b, depth)
    ensures Plain(x, b) in OccsOf(n, bound)
    decreases depth
  {
    hide OccsOf, Binds, Inside, Parts;
    OccsStep(n, x, b, bound);
    if !(IsReference(n, x) && b == (x in bound)) {
      var m :| m in Parts(n) && Refers(m, x, x in bound || Binds(n, m, x), b, depth - 1);
      InsideIs(n, m, x, bound);
      RefersOccurs(m, x, Inside(n, m, bound), b, depth - 1);
    }
  }

  lemma {:induction false} OccursRefers(n: Node, x: Name, bound: set<Name>, b: bool) returns (depth: nat)
    requires Plain(x, b) in OccsOf(n, bound)
    ensures Refers(n, x, x in bound, b, depth)
    decreases Size(n)
  {
    hide OccsOf, Binds, Inside, Parts, Size;
    OccsStep(n, x, b, bound);
    depth := 0;
    if !(IsReference(n, x) && b == (x in bound)) {
      PartsSmaller(n);
      var m :| m in Parts(n) && Plain(x, b) in OccsOf(m, Inside(n, m, bound));
      InsideIs(n, m, x, bound);
      var below := OccursRefers(m, x, Inside(n, m, bound), b);
      depth := below + 1;
    }
  }

  /** A reference to the name stands somewhere in a body, and whether some piece of the body around it binds it. */
  ghost predicate Stands(body: Stmts, x: Name, bound: bool) {
    exists depth: nat :: Refers(Body(body), x, false, bound, depth)
  }

  /** The occurrences of a body are its references where they stand: bound exactly where a piece around one binds it. */
  lemma OccurrencesAreReferences(body: Stmts, x: Name, b: bool)
    ensures Plain(x, b) in BodyOccs(body) <==> Stands(body, x, b)
  {
    hide Refers, StmtsOccs, Set;
    assert {} + Set(BodyNames(body)) == Set(BodyNames(body));
    assert OccsOf(Body(body), {}) == BodyOccs(body);
    if Plain(x, b) in BodyOccs(body) {
      var depth := OccursRefers(Body(body), x, {}, b);
      assert Refers(Body(body), x, false, b, depth);
    } else if Stands(body, x, b) {
      var depth: nat :| Refers(Body(body), x, false, b, depth);
      RefersOccurs(Body(body), x, {}, b, depth);
    }
  }

  /**
   * The rewriting against places alone: afterwards no reference to a guest name stands free, every other stands as it
   * did, and the scope is read for the guest names that stood free and no other.
   */
  lemma EditedWhereItStandsFree(body: Stmts, names: set<Name>, x: Name)
    ensures Stands(Rewritten(body, names), x, true) <==> Stands(body, x, true)
    ensures Stands(Rewritten(body, names), x, false) <==> Stands(body, x, false) && x !in names
    ensures Scoped(x) in BodyOccs(Rewritten(body, names)) <==>
              Scoped(x) in BodyOccs(body) || (Stands(body, x, false) && x in names)
  {
    hide Stands, BodyOccs, Rewritten;
    EditedExactlyWhenFree(body, names);
    OccurrencesAreReferences(body, x, true);
    OccurrencesAreReferences(body, x, false);
    OccurrencesAreReferences(Rewritten(body, names), x, true);
    OccurrencesAreReferences(Rewritten(body, names), x, false);
    var was, now := BodyOccs(body), BodyOccs(Rewritten(body, names));
    forall o | o in was ensures EditedOne(o, names) in now {
      var k :| 0 <= k < |was| && was[k] == o;
      assert now[k] == EditedOne(o, names);
    }
    forall o | o in now ensures exists was_ :: was_ in was && o == EditedOne(was_, names) {
      var k :| 0 <= k < |now| && now[k] == o;
      assert was[k] in was;
    }
  }
}
