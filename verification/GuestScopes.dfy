/**
 * Scoping told by places in the tree: which names stand where as declared, and for which parts of a program each is
 * bound, with no list of a program's var or lexical names. The lists the walk narrows by are proved to be these names.
 */
module GuestScopes {
  import opened Wrappers
  import opened GuestLanguage
  import opened GuestFreeNames
  import opened GuestOccurrences

  /** A piece of a program. `Leaf`: a name a pattern declares. `Short`: a shorthand name that is a reference. */
  datatype Node =
    | X(e: Expr) | Short(name: Name)
    | P(p: Pat) | Leaf(name: Name)
    | F(f: Func) | Params(ps: Pats) | C(c: Class)
    | S(s: Stmt)
    | Body(ss: Stmts) | Blk(ss: Stmts) | Handler(ss: Stmts) | CaseBlock(cs: Cases)

  /** The pieces a piece is written with, one level down. */
  function Parts(n: Node): seq<Node> {
    match n
    case X(e) => ExprParts(e)
    case Short(_) => []
    case P(p) => PatternParts(p)
    case Leaf(_) => []
    case F(f) => [Params(f.params), Body(f.body)]
    case Params(ps) => PatParts(ps)
    case C(c) => MaybeParts(c.heritage) + ([F(c.ctor)] + MemberParts(c.members))
    case S(s) => StmtParts(s)
    case Body(ss) => ListParts(ss)
    case Blk(ss) => ListParts(ss)
    case Handler(ss) => ListParts(ss)
    case CaseBlock(cs) => CaseParts(cs)
  }

  function ExprParts(e: Expr): seq<Node> {
    match e
    case Member(obj, key) => [X(obj)] + KeyParts(key)
    case Call(callee, args) => [X(callee)] + ArgParts(args)
    case New(callee, args) => [X(callee)] + ArgParts(args)
    case Construct(callee) => [X(callee)]
    case Assign(target, value) => [P(target), X(value)]
    case Update(place) => [X(place)]
    case Typeof(operand) => [X(operand)]
    case Comma(first, second) => [X(first), X(second)]
    case Cond(test, yes, no) => [X(test), X(yes), X(no)]
    case ObjectLit(props) => PropParts(props)
    case Lambda(f) => [F(f)]
    case ClassExpr(c) => [C(c)]
    case _ => []
  }

  function KeyParts(key: Key): seq<Node> {
    match key
    case Named(_) => []
    case Computed(e) => [X(e)]
  }

  function ArgParts(es: Exprs): seq<Node> {
    match es
    case ENil => []
    case ECons(head, tail) => [X(head)] + ArgParts(tail)
  }

  function MaybeParts(e: MaybeExpr): seq<Node> {
    match e
    case NoExpr => []
    case JustExpr(x) => [X(x)]
  }

  function PropParts(props: Props): seq<Node> {
    match props
    case PNil => []
    case Prop(key, value, tail) => KeyParts(key) + ([X(value)] + PropParts(tail))
    case Shorthand(name, tail) => [Short(name)] + PropParts(tail)
  }

  function PatternParts(p: Pat): seq<Node> {
    match p
    case Declared(name) => [Leaf(name)]
    case Place(e) => [X(e)]
    case ObjectPat(props) => PatPropParts(props)
    case ArrayPat(elems) => PatParts(elems)
    case Default(q, e) => [P(q), X(e)]
  }

  function PatPropParts(props: PatProps): seq<Node> {
    match props
    case PPNil => []
    case PatProp(key, value, tail) => KeyParts(key) + ([P(value)] + PatPropParts(tail))
    case ShorthandPat(name, declares, default, tail) =>
      [if declares then Leaf(name) else Short(name)] + (MaybeParts(default) + PatPropParts(tail))
  }

  function PatParts(ps: Pats): seq<Node> {
    match ps
    case PatNil => []
    case PatCons(head, tail) => [P(head)] + PatParts(tail)
  }

  function MemberParts(ms: Members): seq<Node> {
    match ms
    case MNil => []
    case Method(key, f, tail) => KeyParts(key) + ([F(f)] + MemberParts(tail))
    case StaticField(_, value, tail) => [X(value)] + MemberParts(tail)
    case StaticBlock(body, tail) => [Body(body)] + MemberParts(tail)
  }

  function StmtParts(s: Stmt): seq<Node> {
    match s
    case ExprStmt(e) => [X(e)]
    case Declare(_, target, init) => [P(target)] + MaybeParts(init)
    case FunctionDecl(_, f) => [F(f)]
    case ClassDecl(_, c) => [C(c)]
    case Block(body) => [Blk(body)]
    case If(test, yes, no) => [X(test), S(yes), S(no)]
    case For(first, test, update, loop) => [S(first), X(test), X(update), S(loop)]
    case ForOf(left, _, right, loop) => [P(left), X(right), S(loop)]
    case Switch(value, cases) => [X(value), CaseBlock(cases)]
    case Try(block, param, handler) => [Blk(block), P(param), Handler(handler)]
    case Return(e) => [X(e)]
    case Throw(e) => [X(e)]
  }

  function ListParts(ss: Stmts): seq<Node> {
    match ss
    case SNil => []
    case SCons(head, tail) => [S(head)] + ListParts(tail)
  }

  function CaseParts(cs: Cases): seq<Node> {
    match cs
    case CNil => []
    case Case(test, body, tail) => [X(test)] + (ListParts(body) + CaseParts(tail))
  }

  // ------------------------------------------------------------------ what is declared, and where it is bound

  /** A pattern declares a name: it stands in it as a leaf, at most so many levels down, in no default or key. */
  ghost predicate Leaves(n: Node, x: Name, depth: nat)
    decreases depth
  {
    n == Leaf(x) || (n.P? && depth > 0 && exists m :: m in Parts(n) && Leaves(m, x, depth - 1))
  }

  ghost predicate Declares(p: Pat, x: Name) {
    exists depth: nat :: Leaves(P(p), x, depth)
  }

  ghost predicate DeclaresVar(n: Node, x: Name) {
    && n.S?
    && ((n.s.Declare? && n.s.kind == Var && Declares(n.s.target, x))
        || (n.s.ForOf? && n.s.declares == Some(Var) && Declares(n.s.left, x)))
  }

  /**
   * A `var` of the name stands somewhere in a piece, at most so many levels down, in no function or class of its own.
   */
  ghost predicate Hoists(n: Node, x: Name, depth: nat)
    decreases depth
  {
    !n.F? && !n.C? && (DeclaresVar(n, x) || (depth > 0 && exists m :: m in Parts(n) && Hoists(m, x, depth - 1)))
  }

  ghost predicate HasVar(body: Node, x: Name) {
    exists depth: nat :: Hoists(body, x, depth)
  }

  ghost predicate DeclaresInBlock(n: Node, x: Name) {
    && n.S?
    && ((n.s.Declare? && n.s.kind == Let && Declares(n.s.target, x))
        || (n.s.FunctionDecl? && n.s.name == x) || (n.s.ClassDecl? && n.s.name == x))
  }

  /** A let, function or class of the name stands among a block's own statements. */
  ghost predicate Lexical(block: Node, x: Name) {
    exists m :: m in Parts(block) && DeclaresInBlock(m, x)
  }

  /** A piece binds a name in one of its parts. */
  ghost predicate Binds(n: Node, part: Node, x: Name) {
    match n
    case F(f) =>
      || f.own == Some(x) || (!f.arrow && x == "arguments")
      || exists m :: m in Parts(Params(f.params)) && m.P? && Declares(m.p, x)
    case C(c) => c.name == Some(x)
    case Body(_) => Lexical(n, x) || HasVar(n, x)
    case Blk(_) => Lexical(n, x)
    case Handler(_) => Lexical(n, x)
    case CaseBlock(_) => Lexical(n, x)
    case S(For(first, _, _, _)) => first.Declare? && first.kind == Let && Declares(first.target, x)
    case S(ForOf(left, declares, _, _)) => declares == Some(Let) && Declares(left, x)
    case S(Try(_, param, _)) => !part.Blk? && Declares(param, x)
    case _ => false
  }

  predicate IsReference(n: Node, x: Name) {
    n == X(Id(x)) || n == Short(x)
  }

  /**
   * A reference to the name stands in a piece, at most so many levels down, bound there or not: `outer` is whether what
   * is around the piece binds it.
   */
  ghost predicate Refers(n: Node, x: Name, outer: bool, bound: bool, depth: nat)
    decreases depth
  {
    || (IsReference(n, x) && bound == outer)
    || (depth > 0 && exists m :: m in Parts(n) && Refers(m, x, outer || Binds(n, m, x), bound, depth - 1))
  }

  // ------------------------------------------------------------------ a size for the pieces

  function Size(n: Node): nat {
    match n
    case X(e) => 1 + ESize(e)
    case Short(_) => 0
    case P(p) => 1 + PSize(p)
    case Leaf(_) => 0
    case F(f) => 1 + FSize(f)
    case Params(ps) => 1 + PatsSize(ps)
    case C(c) => 1 + CSize(c)
    case S(s) => 1 + SSize(s)
    case Body(ss) => 1 + SsSize(ss)
    case Blk(ss) => 1 + SsSize(ss)
    case Handler(ss) => 1 + SsSize(ss)
    case CaseBlock(cs) => 1 + CasesSize(cs)
  }

  function ESize(e: Expr): nat
    decreases e
  {
    match e
    case Member(obj, key) => 2 + ESize(obj) + KSize(key)
    case Call(callee, args) => 2 + ESize(callee) + EsSize(args)
    case New(callee, args) => 2 + ESize(callee) + EsSize(args)
    case Construct(callee) => 2 + ESize(callee)
    case Assign(target, value) => 3 + PSize(target) + ESize(value)
    case Update(place) => 2 + ESize(place)
    case Typeof(operand) => 2 + ESize(operand)
    case Comma(first, second) => 2 + ESize(first) + ESize(second)
    case Cond(test, yes, no) => 2 + ESize(test) + ESize(yes) + ESize(no)
    case ObjectLit(props) => 2 + PropsSize(props)
    case Lambda(f) => 2 + FSize(f)
    case ClassExpr(c) => 2 + CSize(c)
    case _ => 0
  }

  function KSize(key: Key): nat {
    match key
    case Named(_) => 0
    case Computed(e) => 1 + ESize(e)
  }

  function EsSize(es: Exprs): nat {
    match es
    case ENil => 0
    case ECons(head, tail) => 1 + ESize(head) + EsSize(tail)
  }

  function MSize(e: MaybeExpr): nat {
    match e
    case NoExpr => 0
    case JustExpr(x) => 1 + ESize(x)
  }

  function PropsSize(props: Props): nat {
    match props
    case PNil => 0
    case Prop(key, value, tail) => 2 + KSize(key) + ESize(value) + PropsSize(tail)
    case Shorthand(_, tail) => 1 + PropsSize(tail)
  }

  function PSize(p: Pat): nat {
    match p
    case Declared(_) => 1
    case Place(e) => 2 + ESize(e)
    case ObjectPat(props) => 2 + PatPropsSize(props)
    case ArrayPat(elems) => 2 + PatsSize(elems)
    case Default(q, e) => 2 + PSize(q) + ESize(e)
  }

  function PatPropsSize(props: PatProps): nat {
    match props
    case PPNil => 0
    case PatProp(key, value, tail) => 2 + KSize(key) + PSize(value) + PatPropsSize(tail)
    case ShorthandPat(_, _, default, tail) => 1 + MSize(default) + PatPropsSize(tail)
  }

  function PatsSize(ps: Pats): nat {
    match ps
    case PatNil => 0
    case PatCons(head, tail) => 1 + PSize(head) + PatsSize(tail)
  }

  function FSize(f: Func): nat {
    3 + PatsSize(f.params) + SsSize(f.body)
  }

  function CSize(c: Class): nat {
    3 + MSize(c.heritage) + FSize(c.ctor) + MembersSize(c.members)
  }

  function MembersSize(ms: Members): nat {
    match ms
    case MNil => 0
    case Method(key, f, tail) => 2 + KSize(key) + FSize(f) + MembersSize(tail)
    case StaticField(_, value, tail) => 2 + ESize(value) + MembersSize(tail)
    case StaticBlock(body, tail) => 2 + SsSize(body) + MembersSize(tail)
  }

  function SSize(s: Stmt): nat {
    match s
    case ExprStmt(e) => 2 + ESize(e)
    case Declare(_, target, init) => 3 + PSize(target) + MSize(init)
    case FunctionDecl(_, f) => 2 + FSize(f)
    case ClassDecl(_, c) => 2 + CSize(c)
    case Block(body) => 2 + SsSize(body)
    case If(test, yes, no) => 2 + ESize(test) + SSize(yes) + SSize(no)
    case For(first, test, update, loop) => 2 + SSize(first) + ESize(test) + ESize(update) + SSize(loop)
    case ForOf(left, _, right, loop) => 2 + PSize(left) + ESize(right) + SSize(loop)
    case Switch(value, cases) => 2 + ESize(value) + CasesSize(cases)
    case Try(block, param, handler) => 2 + SsSize(block) + PSize(param) + SsSize(handler)
    case Return(e) => 2 + ESize(e)
    case Throw(e) => 2 + ESize(e)
  }

  function SsSize(ss: Stmts): nat {
    match ss
    case SNil => 0
    case SCons(head, tail) => 2 + SSize(head) + SsSize(tail)
  }

  function CasesSize(cs: Cases): nat {
    match cs
    case CNil => 0
    case Case(test, body, tail) => 2 + ESize(test) + SsSize(body) + CasesSize(tail)
  }

  lemma {:induction false} ArgPartsSmaller(es: Exprs)
    ensures forall m <- ArgParts(es) :: Size(m) <= EsSize(es)
  {
    if es.ECons? { ArgPartsSmaller(es.tail); }
  }

  lemma {:induction false} PropPartsSmaller(props: Props)
    ensures forall m <- PropParts(props) :: Size(m) <= PropsSize(props)
  {
    if props != PNil { PropPartsSmaller(props.tail); }
  }

  lemma {:induction false} PatPropPartsSmaller(props: PatProps)
    ensures forall m <- PatPropParts(props) :: Size(m) <= PatPropsSize(props)
  {
    if props != PPNil { PatPropPartsSmaller(props.tail); }
  }

  lemma {:induction false} PatPartsSmaller(ps: Pats)
    ensures forall m <- PatParts(ps) :: Size(m) <= PatsSize(ps)
  {
    if ps.PatCons? { PatPartsSmaller(ps.tail); }
  }

  lemma {:induction false} MemberPartsSmaller(ms: Members)
    ensures forall m <- MemberParts(ms) :: Size(m) <= MembersSize(ms)
  {
    if ms != MNil { MemberPartsSmaller(ms.tail); }
  }

  lemma {:induction false} ListPartsSmaller(ss: Stmts)
    ensures forall m <- ListParts(ss) :: Size(m) <= SsSize(ss)
  {
    if ss.SCons? { ListPartsSmaller(ss.tail); }
  }

  lemma {:induction false} CasePartsSmaller(cs: Cases)
    ensures forall m <- CaseParts(cs) :: Size(m) <= CasesSize(cs)
  {
    if cs.Case? {
      ListPartsSmaller(cs.body);
      CasePartsSmaller(cs.tail);
    }
  }

  lemma MaybePartsSmaller(e: MaybeExpr)
    ensures forall m <- MaybeParts(e) :: Size(m) <= MSize(e)
  {
    if e.JustExpr? { assert MaybeParts(e) == [X(e.e)]; }
  }

  lemma ClassPartsSmaller(c: Class)
    ensures forall m <- Parts(C(c)) :: Size(m) < Size(C(c))
  {
    hide FSize, MSize, MembersSize;
    MemberPartsSmaller(c.members);
    MaybePartsSmaller(c.heritage);
    assert Parts(C(c)) == MaybeParts(c.heritage) + ([F(c.ctor)] + MemberParts(c.members));
    forall m <- Parts(C(c)) ensures Size(m) < Size(C(c)) {
      assert m in MaybeParts(c.heritage) || m == F(c.ctor) || m in MemberParts(c.members);
    }
  }

  lemma ExprPartsSmaller(e: Expr)
    ensures forall m <- ExprParts(e) :: Size(m) <= ESize(e)
  {
    match e
    case Member(obj, key) =>
      if key.Computed? { assert KeyParts(key) == [X(key.e)]; }
    case Call(_, args) => ArgPartsSmaller(args);
    case New(_, args) => ArgPartsSmaller(args);
    case ObjectLit(props) => PropPartsSmaller(props);
    case _ =>
  }

  lemma PartsSmaller(n: Node)
    ensures forall m <- Parts(n) :: Size(m) < Size(n)
  {
    match n
    case X(e) => ExprPartsSmaller(e);
    case P(p) =>
      if p.ObjectPat? { PatPropPartsSmaller(p.props); }
      if p.ArrayPat? { PatPartsSmaller(p.elems); }
    case Params(ps) => PatPartsSmaller(ps);
    case C(c) => ClassPartsSmaller(c);
    case S(s) => if s.Declare? { MaybePartsSmaller(s.init); }
    case Body(ss) => ListPartsSmaller(ss);
    case Blk(ss) => ListPartsSmaller(ss);
    case Handler(ss) => ListPartsSmaller(ss);
    case CaseBlock(cs) => CasePartsSmaller(cs);
    case _ =>
  }
}
