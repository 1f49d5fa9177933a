/**
 * The rewriting keeps meaning: a rewritten body, whose free names are all the realm's, does step for step what the
 * body does whose guest names are the guest's. The two runs' memories are equal; their functions are each other's
 * rewriting in the scope they were made in.
 */
module GuestSimulation {
  import opened Wrappers
  import opened GuestLanguage
  import opened GuestNames
  import opened GuestDeclarations
  import opened GuestEvaluator

  /** The guest names free in code that runs in an environment. */
  function Free(names: set<Name>, env: Env): set<Name> {
    names - env.Keys
  }

  function TClosure(names: set<Name>, c: Closure): Closure {
    Closure(VisitFunc(c.f, Free(names, c.env)), c.env, c.receiver)
  }

  function TCode(names: set<Name>, code: seq<Closure>): seq<Closure> {
    seq(|code|, i requires 0 <= i < |code| => TClosure(names, code[i]))
  }

  /** The state of the rewritten run. */
  function T(names: set<Name>, st: State): State {
    State(st.m, TCode(names, st.code))
  }

  function TOut(names: set<Name>, o: Out): Out {
    Out(o.end, T(names, o.st))
  }

  function TScoped(names: set<Name>, s: Scoped): Scoped {
    Scoped(s.env, T(names, s.st))
  }

  // ------------------------------------------------------------------ the memory does not see code

  lemma {:induction false} EnterT(names: set<Name>, ns: seq<Name>, env: Env, st: State)
    ensures Enter(ns, env, T(names, st)) == TScoped(names, Enter(ns, env, st))
    decreases |ns|
  {
    hide TCode;
    if ns != [] {
      var one := EnterOne(ns[0], Empty, env, st);
      assert EnterOne(ns[0], Empty, env, T(names, st)) == TScoped(names, one);
      EnterT(names, ns[1..], one.env, one.st);
    }
  }

  lemma {:induction false} EnterVarsT(names: set<Name>, ns: seq<Name>, outer: Env, env: Env, st: State)
    ensures EnterVars(ns, outer, env, T(names, st)) == TScoped(names, EnterVars(ns, outer, env, st))
    decreases |ns|
  {
    hide TCode;
    if ns != [] {
      var held := if ns[0] in outer && outer[ns[0]] < |st.m.cells| then st.m.cells[outer[ns[0]]] else Has(Undef);
      var cell := if held.Has? then held else Has(Undef);
      var one := EnterOne(ns[0], cell, env, st);
      assert EnterOne(ns[0], cell, env, T(names, st)) == TScoped(names, one);
      EnterVarsT(names, ns[1..], outer, one.env, one.st);
    }
  }

  lemma {:induction false} CopyCellsT(names: set<Name>, ns: seq<Name>, env: Env, st: State)
    ensures CopyCells(ns, env, T(names, st)) == TScoped(names, CopyCells(ns, env, st))
    decreases |ns|
  {
    hide TCode;
    if ns != [] {
      var cell := if ns[0] in env && env[ns[0]] < |st.m.cells| then st.m.cells[env[ns[0]]] else Empty;
      var one := EnterOne(ns[0], cell, env, st);
      assert EnterOne(ns[0], cell, env, T(names, st)) == TScoped(names, one);
      CopyCellsT(names, ns[1..], one.env, one.st);
    }
  }

  lemma MakeFunctionT(names: set<Name>, f: Func, env: Env, receiver: Val, st: State)
    ensures MakeFunction(VisitFunc(f, Free(names, env)), env, receiver, T(names, st))
         == TOut(names, MakeFunction(f, env, receiver, st))
  {
    hide VisitFunc;
    var c := Closure(f, env, receiver);
    assert TCode(names, st.code + [c]) == TCode(names, st.code) + [TClosure(names, c)];
  }

  lemma PutPropT(names: set<Name>, st: State, o: Val, key: string, v: Val)
    ensures PutProp(T(names, st), o, key, v) == TOut(names, PutProp(st, o, key, v))
  {
    hide TCode;
  }

  lemma InitializeT(names: set<Name>, env: Env, st: State, x: Name, v: Val)
    ensures Initialize(env, T(names, st), x, v) == TOut(names, Initialize(env, st, x, v))
  {
    hide TCode;
  }

  lemma AllocateT(names: set<Name>, st: State, o: Obj)
    ensures Allocate(T(names, st), o) == TOut(names, Allocate(st, o))
  {
    hide TCode;
  }

  lemma StoreT(names: set<Name>, env: Env, st: State, x: Name, v: Val)
    requires x !in Free(names, env)
    ensures Store({}, env, T(names, st), x, v) == TOut(names, Store(names, env, st, x, v))
  {
    hide TCode;
  }

  lemma ShadowIs(names: set<Name>, env: Env, inner: Env, ns: seq<Name>)
    requires inner.Keys == env.Keys + set n | n in ns
    ensures Shadow(Free(names, env), ns) == Free(names, inner)
  {
  }

  lemma ShadowTwice(visible: set<Name>, a: seq<Name>, b: seq<Name>)
    ensures Shadow(visible, a + b) == Shadow(Shadow(visible, a), b)
  {
  }

  /** A rewritten read gives the guest's property and changes nothing. */
  lemma ReadIs(fuel: nat, x: Name, env: Env, this_: Val, st: State)
    ensures EvalPlace({}, fuel, Scope, Named(x), env, this_, st) == Out(At(GuestGlobal, x), st)
    ensures Eval({}, fuel, Read(x), env, this_, st) == Out(Norm(Get(st.m.guest, x, Undef)), st)
    ensures Eval({}, fuel, Called(x), env, this_, st) == Out(Norm(Get(st.m.guest, x, Undef)), st)
  {
    assert Eval({}, fuel, Scope, env, this_, st) == Out(Norm(GuestGlobal), st);
    assert Eval({}, fuel, Lit(0), env, this_, st) == Out(Norm(Num(0)), st);
  }

  // ------------------------------------------------------------------ expressions

  lemma {:induction false} EvalT(names: set<Name>, fuel: nat, e: Expr, env: Env, this_: Val, st: State)
    ensures Eval({}, fuel, Visit(e, Free(names, env)), env, this_, T(names, st))
         == TOut(names, Eval(names, fuel, e, env, this_, st))
    decreases fuel, e
  {
    hide TCode, EvalCall, EvalNew, EvalAssign, EvalUpdate, EvalClass, EvalProps, EvalPlace, VisitFunc, VisitClass;
    hide VisitCallee, VisitAll, VisitPat, VisitProps, VisitKey;
    match e
    case Lit(_) =>
    case This =>
    case Scope =>
    case Id(x) => if x in Free(names, env) { ReadIs(fuel, x, env, this_, T(names, st)); }
    case Member(obj, key) => EvalPlaceT(names, fuel, obj, key, env, this_, st);
    case Call(callee, args) => CallT(names, fuel, callee, args, env, this_, st);
    case New(callee, args) => NewT(names, fuel, callee, args, env, this_, st);
    case Construct(callee) => EvalT(names, fuel, callee, env, this_, st);
    case Assign(target, value) => AssignT(names, fuel, target, value, env, this_, st);
    case Update(place) => UpdateT(names, fuel, place, env, this_, st);
    case Typeof(operand) => TypeofT(names, fuel, operand, env, this_, st);
    case Comma(first, second) =>
      EvalT(names, fuel, first, env, this_, st);
      EvalT(names, fuel, second, env, this_, Eval(names, fuel, first, env, this_, st).st);
    case Cond(test, yes, no) =>
      EvalT(names, fuel, test, env, this_, st);
      EvalT(names, fuel, yes, env, this_, Eval(names, fuel, test, env, this_, st).st);
      EvalT(names, fuel, no, env, this_, Eval(names, fuel, test, env, this_, st).st);
    case ObjectLit(props) =>
      var o := Allocate(st, Obj(map[], [], None));
      EvalPropsT(names, fuel, props, o.end.v, env, this_, o.st);
    case Lambda(f) => MakeFunctionT(names, f, env, this_, st);
    case ClassExpr(c) => EvalClassT(names, fuel, c, env, this_, st);
  }

  lemma {:induction false} TypeofT(names: set<Name>, fuel: nat, operand: Expr, env: Env, this_: Val, st: State)
    ensures Eval({}, fuel, Typeof(Visit(operand, Free(names, env))), env, this_, T(names, st))
         == TOut(names, Eval(names, fuel, Typeof(operand), env, this_, st))
    decreases fuel, Typeof(operand), 0
  {
    hide TCode, EvalCall, EvalNew, EvalAssign, EvalUpdate, EvalClass, EvalProps, EvalPlace, Visit;
    EvalT(names, fuel, operand, env, this_, st);
    assert Unresolvable({}, Visit(operand, Free(names, env)), env, st.m) == Unresolvable(names, operand, env, st.m) by {
      VisitIs(operand, Free(names, env));
    }
  }

  /** What rewriting makes of the outside of an expression. */
  lemma VisitIs(e: Expr, visible: set<Name>)
    ensures Visit(e, visible).Id? <==> e.Id? && e.name !in visible
    ensures e.Id? ==> Visit(e, visible) == if e.name in visible then Read(e.name) else e
    ensures Visit(e, visible).Member? <==> e.Member? || (e.Id? && e.name in visible)
    ensures e.Member? ==> Visit(e, visible) == Member(Visit(e.obj, visible), VisitKey(e.key, visible))
  {
  }

  lemma {:induction false} EvalKeyT(names: set<Name>, fuel: nat, key: Key, env: Env, this_: Val, st: State)
    ensures EvalKey({}, fuel, VisitKey(key, Free(names, env)), env, this_, T(names, st))
         == TOut(names, EvalKey(names, fuel, key, env, this_, st))
    decreases fuel, key
  {
    hide TCode, Eval, Visit;
    match key
    case Named(_) =>
    case Computed(e) => EvalT(names, fuel, e, env, this_, st);
  }

  lemma {:induction false} EvalPlaceT(names: set<Name>, fuel: nat, obj: Expr, key: Key, env: Env, this_: Val, st: State)
    ensures EvalPlace({}, fuel, Visit(obj, Free(names, env)), VisitKey(key, Free(names, env)), env, this_, T(names, st))
         == TOut(names, EvalPlace(names, fuel, obj, key, env, this_, st))
    decreases fuel, Member(obj, key), 0
  {
    hide TCode, Eval, EvalKey, Visit, VisitKey;
    EvalT(names, fuel, obj, env, this_, st);
    EvalKeyT(names, fuel, key, env, this_, Eval(names, fuel, obj, env, this_, st).st);
  }

  lemma {:induction false} EvalAllT(names: set<Name>, fuel: nat, es: Exprs, env: Env, this_: Val, st: State)
    ensures EvalAll({}, fuel, VisitAll(es, Free(names, env)), env, this_, T(names, st))
         == TOut(names, EvalAll(names, fuel, es, env, this_, st))
    decreases fuel, es, 0
  {
    hide TCode, Eval, Visit;
    match es
    case ENil =>
    case ECons(head, tail) =>
      EvalT(names, fuel, head, env, this_, st);
      EvalAllT(names, fuel, tail, env, this_, Eval(names, fuel, head, env, this_, st).st);
  }

  lemma {:induction false} EvalMaybeT(names: set<Name>, fuel: nat, e: MaybeExpr, env: Env, this_: Val, st: State)
    ensures EvalMaybe({}, fuel, VisitMaybe(e, Free(names, env)), env, this_, T(names, st))
         == TOut(names, EvalMaybe(names, fuel, e, env, this_, st))
    decreases fuel, e
  {
    hide TCode, Eval, Visit;
    match e
    case NoExpr =>
    case JustExpr(x) => EvalT(names, fuel, x, env, this_, st);
  }

  lemma {:induction false} CallT(names: set<Name>, fuel: nat, callee: Expr, args: Exprs, env: Env, this_: Val, st: State)
    ensures EvalCall({}, fuel, VisitCallee(callee, Free(names, env)), VisitAll(args, Free(names, env)), env, this_, T(names, st))
         == TOut(names, EvalCall(names, fuel, callee, args, env, this_, st))
    decreases fuel, Call(callee, args), 0
  {
    hide TCode, CallWith, EvalPlace, Eval, Visit, VisitAll, VisitKey;
    VisitIs(callee, Free(names, env));
    if callee.Member? {
      EvalPlaceT(names, fuel, callee.obj, callee.key, env, this_, st);
      var p := EvalPlace(names, fuel, callee.obj, callee.key, env, this_, st);
      if p.end.At? {
        CallWithT(names, fuel, Out(GetProp(p.st.m, p.end.obj, p.end.key), p.st), p.end.obj, args, env, this_);
      }
    } else {
      var f := Eval(names, fuel, callee, env, this_, st);
      if callee.Id? && callee.name in Free(names, env) {
        ReadIs(fuel, callee.name, env, this_, T(names, st));
        FreeIs(names, fuel, callee.name, env, this_, st);
      } else {
        EvalT(names, fuel, callee, env, this_, st);
      }
      CallWithT(names, fuel, f, Undef, args, env, this_);
    }
  }

  /** What a free guest name evaluates to in the body as written. */
  lemma FreeIs(names: set<Name>, fuel: nat, x: Name, env: Env, this_: Val, st: State)
    requires x in Free(names, env)
    ensures Eval(names, fuel, Id(x), env, this_, st) == Out(Norm(Get(st.m.guest, x, Undef)), st)
  {
  }

  lemma {:induction false} CallWithT(names: set<Name>, fuel: nat, f: Out, receiver: Val, args: Exprs, env: Env, this_: Val)
    ensures CallWith({}, fuel, TOut(names, f), receiver, VisitAll(args, Free(names, env)), env, this_)
         == TOut(names, CallWith(names, fuel, f, receiver, args, env, this_))
    decreases fuel, args, 1
  {
    hide EvalAll, VisitAll, CallValue, TCode;
    if f.end.Norm? {
      EvalAllT(names, fuel, args, env, this_, f.st);
      var vs := EvalAll(names, fuel, args, env, this_, f.st);
      if vs.end.Many? && fuel > 0 {
        CallValueT(names, fuel - 1, f.end.v, receiver, vs.end.vs, vs.st);
      }
    }
  }

  lemma {:induction false} CallValueT(names: set<Name>, fuel: nat, f: Val, receiver: Val, args: seq<Val>, st: State)
    ensures CallValue({}, fuel, f, receiver, args, T(names, st)) == TOut(names, CallValue(names, fuel, f, receiver, args, st))
    decreases fuel
  {
    hide Run, TClosure, TCode, CodeOf, Allocate;
    CodeOfT(names, st, f);
    AllocateT(names, st, Obj(map[], args, None));
    if CodeOf(st, f).Some? {
      CodeIs(st, f);
      RunT(names, fuel, st.code[CodeOf(st, f).value], f, receiver, args, st);
    }
  }

  lemma CodeIs(st: State, f: Val)
    requires CodeOf(st, f).Some?
    ensures f.Ref? && f.a < |st.m.heap| && CodeOf(st, f).value < |st.code|
    ensures forall o :: Allocate(st, o).st.code == st.code
  {
  }

  lemma CodeOfT(names: set<Name>, st: State, f: Val)
    ensures CodeOf(T(names, st), f) == CodeOf(st, f)
    ensures CodeOf(st, f).Some? ==>
              T(names, st).code[CodeOf(st, f).value] == TClosure(names, st.code[CodeOf(st, f).value])
  {
    hide TClosure;
  }

  lemma {:induction false} NewT(names: set<Name>, fuel: nat, callee: Expr, args: Exprs, env: Env, this_: Val, st: State)
    ensures Eval({}, fuel, Visit(New(callee, args), Free(names, env)), env, this_, T(names, st))
         == TOut(names, EvalNew(names, fuel, callee, args, env, this_, st))
    decreases fuel, New(callee, args), 0
  {
    var visited, all := Visit(callee, Free(names, env)), VisitAll(args, Free(names, env));
    var wrapped := if callee.Id? then Construct(visited) else visited;
    assert Visit(New(callee, args), Free(names, env)) == New(wrapped, all);
    hide NewWith, Visit, VisitAll, TCode;
    hide EvalCall, EvalAssign, EvalUpdate, EvalClass, EvalProps, EvalPlace;
    EvalT(names, fuel, callee, env, this_, st);
    NewWithT(names, fuel, Eval(names, fuel, callee, env, this_, st), args, env, this_);
    assert Eval({}, fuel, Construct(visited), env, this_, T(names, st)) == Eval({}, fuel, visited, env, this_, T(names, st));
  }

  lemma {:induction false} NewWithT(names: set<Name>, fuel: nat, f: Out, args: Exprs, env: Env, this_: Val)
    ensures NewWith({}, fuel, TOut(names, f), VisitAll(args, Free(names, env)), env, this_)
         == TOut(names, NewWith(names, fuel, f, args, env, this_))
    decreases fuel, args, 1
  {
    hide EvalAll, VisitAll, NewValue, TCode;
    if f.end.Norm? {
      EvalAllT(names, fuel, args, env, this_, f.st);
      var vs := EvalAll(names, fuel, args, env, this_, f.st);
      if vs.end.Many? && fuel > 0 {
        NewValueT(names, fuel - 1, f.end.v, vs.end.vs, vs.st);
      }
    }
  }

  lemma {:induction false} NewValueT(names: set<Name>, fuel: nat, f: Val, args: seq<Val>, st: State)
    ensures NewValue({}, fuel, f, args, T(names, st)) == TOut(names, NewValue(names, fuel, f, args, st))
    decreases fuel
  {
    hide Run, TClosure, TCode, CodeOf, Allocate;
    CodeOfT(names, st, f);
    AllocateT(names, st, Obj(map[], args, None));
    if CodeOf(st, f).Some? {
      CodeIs(st, f);
      var o := Allocate(st, Obj(st.m.heap[f.a].props, [], None));
      AllocateT(names, st, Obj(st.m.heap[f.a].props, [], None));
      RunT(names, fuel, o.st.code[CodeOf(st, f).value], f, o.end.v, args, o.st);
    }
  }

  lemma {:induction false} AssignT(names: set<Name>, fuel: nat, target: Pat, value: Expr, env: Env, this_: Val, st: State)
    ensures EvalAssign({}, fuel, VisitPat(target, Free(names, env)), Visit(value, Free(names, env)), env, this_, T(names, st))
         == TOut(names, EvalAssign(names, fuel, target, value, env, this_, st))
    decreases fuel, Assign(target, value), 0
  {
    hide TCode, EvalPlace, Eval, Visit, VisitKey, Bind;
    EvalT(names, fuel, value, env, this_, st);
    var v := Eval(names, fuel, value, env, this_, st);
    if target.Place? && target.e.Member? {
      VisitIs(target.e, Free(names, env));
      EvalPlaceT(names, fuel, target.e.obj, target.e.key, env, this_, st);
      var p := EvalPlace(names, fuel, target.e.obj, target.e.key, env, this_, st);
      EvalT(names, fuel, value, env, this_, p.st);
    } else if target.Place? && target.e.Id? && target.e.name in Free(names, env) {
      VisitIs(target.e, Free(names, env));
      ReadIs(fuel, target.e.name, env, this_, T(names, st));
      if v.end.Norm? {
        BindFree(names, fuel, target.e.name, v.end.v, env, this_, v.st);
      }
    } else {
      if target.Place? { VisitIs(target.e, Free(names, env)); }
      if v.end.Norm? {
        BindT(names, fuel, target, v.end.v, env, this_, v.st);
      }
    }
  }

  /** What writing a free guest name does in the body as written. */
  lemma BindFree(names: set<Name>, fuel: nat, x: Name, v: Val, env: Env, this_: Val, st: State)
    requires x in Free(names, env)
    ensures Bind(names, fuel, Place(Id(x)), v, env, this_, st) == PutProp(st, GuestGlobal, x, v)
  {
    hide EvalPlace;
  }

  lemma {:induction false} UpdateT(names: set<Name>, fuel: nat, place: Expr, env: Env, this_: Val, st: State)
    ensures EvalUpdate({}, fuel, Visit(place, Free(names, env)), env, this_, T(names, st))
         == TOut(names, EvalUpdate(names, fuel, place, env, this_, st))
    decreases fuel, Update(place), 0
  {
    hide TCode, EvalPlace, Visit, VisitKey, GetProp, PutProp, Lookup, Store, Free;
    VisitIs(place, Free(names, env));
    if place.Member? {
      EvalPlaceT(names, fuel, place.obj, place.key, env, this_, st);
      var p := EvalPlace(names, fuel, place.obj, place.key, env, this_, st);
      if p.end.At? {
        var v := GetProp(p.st.m, p.end.obj, p.end.key);
        if v.Norm? && v.v.Num? {
          PutPropT(names, p.st, p.end.obj, p.end.key, Num(v.v.n + 1));
        }
      }
    } else if place.Id? {
      UpdateNameT(names, fuel, place.name, env, this_, st);
    }
  }

  lemma UpdateNameT(names: set<Name>, fuel: nat, x: Name, env: Env, this_: Val, st: State)
    ensures EvalUpdate({}, fuel, if x in Free(names, env) then Read(x) else Id(x), env, this_, T(names, st))
         == TOut(names, EvalUpdate(names, fuel, Id(x), env, this_, st))
  {
    hide TCode, EvalPlace, PutProp, Lookup, Store, Free;
    LookupIs(names, env, st.m, x);
    if x in Free(names, env) {
      ReadIs(fuel, x, env, this_, T(names, st));
    }
    var v := Lookup(names, env, st.m, x);
    if v.Norm? && v.v.Num? {
      if x in Free(names, env) {
        StoreFree(names, env, st, x, Num(v.v.n + 1));
      } else {
        StoreT(names, env, st, x, Num(v.v.n + 1));
      }
    }
  }

  lemma {:induction false} EvalPropsT(names: set<Name>, fuel: nat, props: Props, o: Val, env: Env, this_: Val, st: State)
    ensures EvalProps({}, fuel, VisitProps(props, Free(names, env)), o, env, this_, T(names, st))
         == TOut(names, EvalProps(names, fuel, props, o, env, this_, st))
    decreases fuel, props, 1
  {
    hide TCode, EvalFirst, Visit, VisitKey;
    if props != PNil {
      EvalFirstT(names, fuel, props, o, env, this_, st);
      EvalPropsT(names, fuel, props.tail, o, env, this_, EvalFirst(names, fuel, props, o, env, this_, st).st);
    }
  }

  lemma {:induction false} EvalFirstT(names: set<Name>, fuel: nat, props: Props, o: Val, env: Env, this_: Val, st: State)
    requires props != PNil
    ensures EvalFirst({}, fuel, VisitProps(props, Free(names, env)), o, env, this_, T(names, st))
         == TOut(names, EvalFirst(names, fuel, props, o, env, this_, st))
    decreases fuel, props, 0
  {
    hide TCode, Eval, Visit, EvalKey, VisitKey, PutProp, Lookup, Free;
    match props
    case Prop(key, value, _) =>
      EvalKeyT(names, fuel, key, env, this_, st);
      var p := EvalKey(names, fuel, key, env, this_, st);
      EvalT(names, fuel, value, env, this_, p.st);
      var v := Eval(names, fuel, value, env, this_, p.st);
      if p.end.Norm? && v.end.Norm? {
        PutPropT(names, v.st, o, p.end.v.s, v.end.v);
      }
    case Shorthand(name, tail) => EvalShorthandT(names, fuel, name, tail, o, env, this_, st);
  }

  lemma EvalShorthandT(names: set<Name>, fuel: nat, name: Name, tail: Props, o: Val, env: Env, this_: Val, st: State)
    ensures EvalFirst({}, fuel, VisitProps(Shorthand(name, tail), Free(names, env)), o, env, this_, T(names, st))
         == TOut(names, EvalFirst(names, fuel, Shorthand(name, tail), o, env, this_, st))
  {
    hide TCode, Eval, Visit, EvalKey, VisitKey, PutProp, Lookup, Free;
    LookupIs(names, env, st.m, name);
    if name in Free(names, env) {
      ReadIs(fuel, name, env, this_, T(names, st));
      NamedKey({}, fuel, name, env, this_, T(names, st));
    }
    var v := Lookup(names, env, st.m, name);
    if v.Norm? {
      PutPropT(names, st, o, name, v.v);
    }
  }

  /** A name that is not a free guest name is looked up alike; one that is has the guest's value. */
  lemma LookupIs(names: set<Name>, env: Env, m: Memory, x: Name)
    ensures x !in Free(names, env) ==> Lookup({}, env, m, x) == Lookup(names, env, m, x)
    ensures x in Free(names, env) ==> Lookup(names, env, m, x) == Norm(Get(m.guest, x, Undef))
  {
  }

  lemma NamedKey(guest: set<Name>, fuel: nat, name: Name, env: Env, this_: Val, st: State)
    ensures EvalKey(guest, fuel, Named(name), env, this_, st) == Out(Norm(Str(name)), st)
  {
  }

  // ------------------------------------------------------------------ calls

  lemma EnterCallT(names: set<Name>, f: Func, visible: set<Name>, closure: Env, self: Val, args: seq<Val>, st: State)
    ensures EnterCall(VisitFunc(f, visible), closure, self, args, T(names, st))
         == TScoped(names, EnterCall(f, closure, self, args, st))
  {
    hide TCode, Enter;
    var g := VisitFunc(f, visible);
    SamePatsBound(f.params, Shadow(visible, ParameterNames(f)));
    var s0 := if f.own.Some? then EnterOne(f.own.value, Has(self), closure, st) else Scoped(closure, st);
    var o := Allocate(s0.st, Obj(map[], args, None));
    var s1 := if f.arrow then s0 else EnterOne("arguments", Has(o.end.v), s0.env, o.st);
    EnterT(names, PatsBound(f.params), s1.env, s1.st);
  }

  lemma VisitFuncIs(f: Func, visible: set<Name>)
    ensures VisitFunc(f, visible).arrow == f.arrow
    ensures VisitFunc(f, visible).params == VisitPats(f.params, Shadow(visible, ParameterNames(f)))
    ensures VisitFunc(f, visible).body
         == VisitStmts(f.body, Shadow(Shadow(visible, ParameterNames(f)), BodyNames(f.body)))
  {
    hide VisitPats, VisitStmts, Shadow, ParameterNames, BodyNames;
  }

  lemma {:induction false} RunT(names: set<Name>, fuel: nat, c: Closure, self: Val, receiver: Val, args: seq<Val>, st: State)
    ensures Run({}, fuel, TClosure(names, c), self, receiver, args, T(names, st))
         == TOut(names, Run(names, fuel, c, self, receiver, args, st))
    decreases fuel, c.f
  {
    hide TCode, EnterCall, BindAll, ExecBody, VisitPats, VisitStmts, BodyNames, ParameterNames, Shadow, VisitFunc, Free;
    var f, visible := c.f, Free(names, c.env);
    VisitFuncIs(f, visible);
    var this_ := if f.arrow then c.receiver else receiver;
    var s := EnterCall(f, c.env, self, args, st);
    EnterCallT(names, f, visible, c.env, self, args, st);
    ShadowIs(names, c.env, s.env, ParameterNames(f));
    BindAllT(names, fuel, f.params, args, s.env, this_, s.st);
    var b := BindAll(names, fuel, f.params, args, s.env, this_, s.st);
    if b.end.Norm? {
      ExecBodyT(names, fuel, f.body, s.env, s.env, this_, b.st);
    }
  }

  // ------------------------------------------------------------------ patterns

  lemma {:induction false} BindT(names: set<Name>, fuel: nat, p: Pat, v: Val, env: Env, this_: Val, st: State)
    ensures Bind({}, fuel, VisitPat(p, Free(names, env)), v, env, this_, T(names, st))
         == TOut(names, Bind(names, fuel, p, v, env, this_, st))
    decreases fuel, p, 1
  {
    hide TCode, Eval, Visit, BindPlace, BindProps, BindAll, VisitPatProps, VisitPats, Initialize, ElementsOf;
    match p
    case Declared(name) => InitializeT(names, env, st, name, v);
    case Place(e) => BindPlaceT(names, fuel, e, v, env, this_, st);
    case ObjectPat(props) => BindPropsT(names, fuel, props, v, env, this_, st);
    case ArrayPat(elems) => BindAllT(names, fuel, elems, ElementsOf(st.m, v), env, this_, st);
    case Default(q, e) =>
      EvalT(names, fuel, e, env, this_, st);
      var d := Eval(names, fuel, e, env, this_, st);
      BindT(names, fuel, q, v, env, this_, st);
      if d.end.Norm? {
        BindT(names, fuel, q, d.end.v, env, this_, d.st);
      }
  }

  lemma {:induction false} BindPlaceT(names: set<Name>, fuel: nat, e: Expr, v: Val, env: Env, this_: Val, st: State)
    ensures BindPlace({}, fuel, Visit(e, Free(names, env)), v, env, this_, T(names, st))
         == TOut(names, BindPlace(names, fuel, e, v, env, this_, st))
    decreases fuel, Place(e), 0
  {
    hide TCode, Visit, EvalPlace, VisitKey, PutProp, Store;
    VisitIs(e, Free(names, env));
    if e.Member? {
      EvalPlaceT(names, fuel, e.obj, e.key, env, this_, st);
      var at := EvalPlace(names, fuel, e.obj, e.key, env, this_, st);
      if at.end.At? { PutPropT(names, at.st, at.end.obj, at.end.key, v); }
    } else if e.Id? && e.name in Free(names, env) {
      BindRead(names, fuel, e.name, v, env, this_, st);
    } else if e.Id? {
      StoreT(names, env, st, e.name, v);
    }
  }

  /** Writing the property a rewritten name reads is writing the free guest name. */
  lemma BindRead(names: set<Name>, fuel: nat, x: Name, v: Val, env: Env, this_: Val, st: State)
    requires x in Free(names, env)
    ensures BindPlace({}, fuel, Read(x), v, env, this_, T(names, st)) == TOut(names, Store(names, env, st, x, v))
  {
    hide TCode, EvalPlace, PutProp, Store, Eval;
    ReadIs(fuel, x, env, this_, T(names, st));
    StoreFree(names, env, st, x, v);
  }

  lemma StoreFree(names: set<Name>, env: Env, st: State, x: Name, v: Val)
    requires x in Free(names, env)
    ensures Store(names, env, st, x, v) == PutProp(st, GuestGlobal, x, v)
    ensures PutProp(T(names, st), GuestGlobal, x, v) == TOut(names, PutProp(st, GuestGlobal, x, v))
  {
    hide TCode;
  }

  lemma {:induction false} BindAllT(names: set<Name>, fuel: nat, ps: Pats, vs: seq<Val>, env: Env, this_: Val, st: State)
    ensures BindAll({}, fuel, VisitPats(ps, Free(names, env)), vs, env, this_, T(names, st))
         == TOut(names, BindAll(names, fuel, ps, vs, env, this_, st))
    decreases fuel, ps
  {
    hide TCode, Bind, VisitPat;
    match ps
    case PatNil =>
    case PatCons(head, tail) =>
      var v := if vs == [] then Undef else vs[0];
      BindT(names, fuel, head, v, env, this_, st);
      var b := Bind(names, fuel, head, v, env, this_, st);
      BindAllT(names, fuel, tail, if vs == [] then [] else vs[1..], env, this_, b.st);
  }

  lemma {:induction false} BindPropsT(names: set<Name>, fuel: nat, props: PatProps, o: Val, env: Env, this_: Val, st: State)
    ensures BindProps({}, fuel, VisitPatProps(props, Free(names, env)), o, env, this_, T(names, st))
         == TOut(names, BindProps(names, fuel, props, o, env, this_, st))
    decreases fuel, props, 2
  {
    hide TCode, BindFirst, VisitPat, VisitKey, VisitMaybe, Defaulted;
    if props != PPNil {
      BindFirstT(names, fuel, props, o, env, this_, st);
      BindPropsT(names, fuel, props.tail, o, env, this_, BindFirst(names, fuel, props, o, env, this_, st).st);
    }
  }

  lemma {:induction false} BindFirstT(names: set<Name>, fuel: nat, props: PatProps, o: Val, env: Env, this_: Val, st: State)
    requires props != PPNil
    ensures BindFirst({}, fuel, VisitPatProps(props, Free(names, env)), o, env, this_, T(names, st))
         == TOut(names, BindFirst(names, fuel, props, o, env, this_, st))
    decreases fuel, props, 1
  {
    hide TCode, Bind, VisitPat, EvalKey, VisitKey, EvalMaybe, VisitMaybe, GetProp, Initialize, Store, Defaulted;
    match props
    case PatProp(key, value, _) =>
      EvalKeyT(names, fuel, key, env, this_, st);
      var k := EvalKey(names, fuel, key, env, this_, st);
      if k.end.Norm? {
        var g := GetProp(k.st.m, o, k.end.v.s);
        if g.Norm? {
          BindT(names, fuel, value, g.v, env, this_, k.st);
        }
      }
    case ShorthandPat(name, declares, default, tail) =>
      BindShorthandT(names, fuel, name, declares, default, tail, o, env, this_, st);
  }

  lemma {:induction false} BindShorthandT(names: set<Name>, fuel: nat, name: Name, declares: bool, default: MaybeExpr,
                                          tail: PatProps, o: Val, env: Env, this_: Val, st: State)
    ensures BindFirst({}, fuel, VisitPatProps(ShorthandPat(name, declares, default, tail), Free(names, env)), o, env, this_,
                      T(names, st))
         == TOut(names, BindFirst(names, fuel, ShorthandPat(name, declares, default, tail), o, env, this_, st))
    decreases fuel, ShorthandPat(name, declares, default, tail), 0
  {
    hide EvalMaybe, Bind, BindName, BindFirst, VisitMaybe, VisitPat, VisitKey, Defaulted, TCode, GetProp, Free;
    var visited, rest := VisitMaybe(default, Free(names, env)), VisitPatProps(tail, Free(names, env));
    EvalMaybeT(names, fuel, default, env, this_, st);
    FirstShorthand(names, fuel, name, declares, default, tail, o, env, this_, st);
    var g := GetProp(st.m, o, name);
    if !declares && name in Free(names, env) {
      FirstProperty({}, fuel, name, Defaulted(Place(Read(name)), visited), rest, o, env, this_, T(names, st));
      if g.Norm? {
        hide *;
        BindDefaulted(names, fuel, name, default, g.v, env, this_, st);
      }
    } else {
      FirstShorthand({}, fuel, name, declares, visited, rest, o, env, this_, T(names, st));
      if g.Norm? {
        hide VisitPatProps;
        var d := if g.v == Undef then EvalMaybe(names, fuel, default, env, this_, st) else Out(g, st);
        BindNameT(names, name, declares, d, env);
      }
    }
  }

  lemma FirstProperty(guest: set<Name>, fuel: nat, name: Name, value: Pat, tail: PatProps, o: Val, env: Env, this_: Val,
                      st: State)
    ensures BindFirst(guest, fuel, PatProp(Named(name), value, tail), o, env, this_, st)
         == if GetProp(st.m, o, name).Norm? then Bind(guest, fuel, value, GetProp(st.m, o, name).v, env, this_, st)
            else Out(GetProp(st.m, o, name), st)
  {
    hide GetProp, Bind, EvalKey;
    NamedKey(guest, fuel, name, env, this_, st);
  }

  lemma FirstShorthand(guest: set<Name>, fuel: nat, name: Name, declares: bool, default: MaybeExpr, tail: PatProps, o: Val,
                       env: Env, this_: Val, st: State)
    ensures BindFirst(guest, fuel, ShorthandPat(name, declares, default, tail), o, env, this_, st)
         == if GetProp(st.m, o, name).Norm? then
              BindName(guest, name, declares, if GetProp(st.m, o, name).v == Undef
                                              then EvalMaybe(guest, fuel, default, env, this_, st)
                                              else Out(GetProp(st.m, o, name), st), env)
            else Out(GetProp(st.m, o, name), st)
  {
    hide GetProp, BindName, EvalMaybe;
  }

  lemma BindNameT(names: set<Name>, name: Name, declares: bool, d: Out, env: Env)
    requires declares || name !in Free(names, env)
    ensures BindName({}, name, declares, TOut(names, d), env) == TOut(names, BindName(names, name, declares, d, env))
  {
    hide TCode, Free, Initialize, Store;
    if d.end.Norm? {
      if declares {
        InitializeT(names, env, d.st, name, d.end.v);
      } else {
        StoreT(names, env, d.st, name, d.end.v);
      }
    }
  }

  /** A rewritten shorthand place, with its default where it has one, is written as the free guest name is. */
  lemma {:induction false} BindDefaulted(names: set<Name>, fuel: nat, name: Name, default: MaybeExpr, v: Val, env: Env,
                                         this_: Val, st: State)
    requires name in Free(names, env)
    requires EvalMaybe({}, fuel, VisitMaybe(default, Free(names, env)), env, this_, T(names, st))
          == TOut(names, EvalMaybe(names, fuel, default, env, this_, st))
    ensures Bind({}, fuel, Defaulted(Place(Read(name)), VisitMaybe(default, Free(names, env))), v, env, this_, T(names, st))
         == TOut(names, BindName(names, name, false,
                                 if v == Undef then EvalMaybe(names, fuel, default, env, this_, st) else Out(Norm(v), st), env))
  {
    hide TCode, Visit, BindPlace, Store, Eval, Free;
    var d := if v == Undef then EvalMaybe(names, fuel, default, env, this_, st) else Out(Norm(v), st);
    if d.end.Norm? {
      BindRead(names, fuel, name, d.end.v, env, this_, d.st);
    }
  }

  // ------------------------------------------------------------------ classes

  lemma {:induction false} EvalClassT(names: set<Name>, fuel: nat, c: Class, env: Env, this_: Val, st: State)
    ensures EvalClass({}, fuel, VisitClass(c, Free(names, env)), env, this_, T(names, st))
         == TOut(names, EvalClass(names, fuel, c, env, this_, st))
    decreases fuel, c
  {
    hide TCode, EvalMaybe, VisitMaybe, MakeFunction, VisitFunc, DefineMethods, RunStatics, VisitMembers, Enter, Shadow;
    var s := Enter(ClassNames(c), env, st);
    EnterT(names, ClassNames(c), env, st);
    ShadowIs(names, env, s.env, ClassNames(c));
    EvalMaybeT(names, fuel, c.heritage, s.env, this_, s.st);
    var h := EvalMaybe(names, fuel, c.heritage, s.env, this_, s.st);
    if h.end.Norm? {
      MakeFunctionT(names, c.ctor, s.env, Undef, h.st);
      var o := MakeFunction(c.ctor, s.env, Undef, h.st);
      DefineMethodsT(names, fuel, c.members, o.end.v, s.env, this_, o.st);
      var m := DefineMethods(names, fuel, c.members, o.end.v, s.env, this_, o.st);
      var b := if c.name.Some? then Initialize(s.env, m.st, c.name.value, o.end.v) else m;
      RunStaticsT(names, fuel, c.members, o.end.v, s.env, b.st);
    }
  }

  lemma {:induction false} DefineMethodsT(names: set<Name>, fuel: nat, ms: Members, o: Val, env: Env, this_: Val, st: State)
    ensures DefineMethods({}, fuel, VisitMembers(ms, Free(names, env)), o, env, this_, T(names, st))
         == TOut(names, DefineMethods(names, fuel, ms, o, env, this_, st))
    decreases fuel, ms
  {
    hide TCode, EvalKey, VisitKey, DefineMethod, VisitFunc, Visit, VisitStmts, Shadow;
    match ms
    case MNil =>
    case Method(key, f, tail) =>
      EvalKeyT(names, fuel, key, env, this_, st);
      var k := EvalKey(names, fuel, key, env, this_, st);
      DefineMethodT(names, k, f, o, env);
      DefineMethodsT(names, fuel, tail, o, env, this_, DefineMethod(k, f, o, env).st);
    case StaticField(_, _, tail) => DefineMethodsT(names, fuel, tail, o, env, this_, st);
    case StaticBlock(_, tail) => DefineMethodsT(names, fuel, tail, o, env, this_, st);
  }

  lemma DefineMethodT(names: set<Name>, k: Out, f: Func, o: Val, env: Env)
    requires k.end.Norm? ==> k.end.v.Str?
    ensures DefineMethod(TOut(names, k), VisitFunc(f, Free(names, env)), o, env) == TOut(names, DefineMethod(k, f, o, env))
  {
    hide TCode, MakeFunction, VisitFunc, PutProp;
    if k.end.Norm? {
      MakeFunctionT(names, f, env, Undef, k.st);
      var v := MakeFunction(f, env, Undef, k.st);
      PutPropT(names, v.st, o, k.end.v.s, v.end.v);
    }
  }

  lemma {:induction false} RunStaticsT(names: set<Name>, fuel: nat, ms: Members, o: Val, env: Env, st: State)
    ensures RunStatics({}, fuel, VisitMembers(ms, Free(names, env)), o, env, T(names, st))
         == TOut(names, RunStatics(names, fuel, ms, o, env, st))
    decreases fuel, ms
  {
    hide TCode, Eval, Visit, ExecBody, VisitStmts, VisitKey, VisitFunc, BodyNames, Shadow, PutProp;
    match ms
    case MNil =>
    case Method(_, _, tail) => RunStaticsT(names, fuel, tail, o, env, st);
    case StaticField(name, value, tail) =>
      EvalT(names, fuel, value, env, o, st);
      var v := Eval(names, fuel, value, env, o, st);
      if v.end.Norm? {
        PutPropT(names, v.st, o, name, v.end.v);
        RunStaticsT(names, fuel, tail, o, env, PutProp(v.st, o, name, v.end.v).st);
      }
    case StaticBlock(body, tail) =>
      ExecBodyT(names, fuel, body, map[], env, o, st);
      RunStaticsT(names, fuel, tail, o, env, ExecBody(names, fuel, body, map[], env, o, st).st);
  }

  lemma {:induction false} ExecBodyT(names: set<Name>, fuel: nat, body: Stmts, outer: Env, env: Env, this_: Val, st: State)
    ensures ExecBody({}, fuel, VisitStmts(body, Shadow(Free(names, env), BodyNames(body))), outer, env, this_, T(names, st))
         == TOut(names, ExecBody(names, fuel, body, outer, env, this_, st))
    decreases fuel, body, 2
  {
    hide TCode, ExecScope, VisitStmts, EnterVars, VarNames, LexicalNames, Shadow;
    var visible := Free(names, env);
    SameVars(body, Shadow(visible, BodyNames(body)));
    EnterVarsT(names, VarNames(body), outer, env, st);
    var s := EnterVars(VarNames(body), outer, env, st);
    ShadowTwice(visible, VarNames(body), LexicalNames(body));
    ShadowIs(names, env, s.env, VarNames(body));
    ExecScopeT(names, fuel, body, s.env, this_, s.st);
  }

  // ------------------------------------------------------------------ statements

  lemma {:induction false} ExecScopeT(names: set<Name>, fuel: nat, ss: Stmts, env: Env, this_: Val, st: State)
    ensures ExecScope({}, fuel, VisitStmts(ss, Shadow(Free(names, env), LexicalNames(ss))), env, this_, T(names, st))
         == TOut(names, ExecScope(names, fuel, ss, env, this_, st))
    decreases fuel, ss, 1
  {
    hide TCode, ExecAll, VisitStmts, Enter, LexicalNames, Shadow, Hoist;
    SameLexicals(ss, Shadow(Free(names, env), LexicalNames(ss)));
    EnterT(names, LexicalNames(ss), env, st);
    var s := Enter(LexicalNames(ss), env, st);
    ShadowIs(names, env, s.env, LexicalNames(ss));
    HoistT(names, ss, s.env, s.st);
    ExecAllT(names, fuel, ss, s.env, this_, Hoist(ss, s.env, s.st));
  }

  lemma {:induction false} HoistT(names: set<Name>, ss: Stmts, env: Env, st: State)
    ensures Hoist(VisitStmts(ss, Free(names, env)), env, T(names, st)) == T(names, Hoist(ss, env, st))
    decreases ss
  {
    hide TCode, MakeFunction, VisitFunc;
    match ss
    case SNil =>
    case SCons(head, tail) =>
      if head.FunctionDecl? {
        MakeFunctionT(names, head.f, env, Undef, st);
        var v := MakeFunction(head.f, env, Undef, st);
        HoistT(names, tail, env, Initialize(env, v.st, head.name, v.end.v).st);
      } else {
        HoistT(names, tail, env, st);
      }
  }

  lemma {:induction false} HoistCasesT(names: set<Name>, cases: Cases, env: Env, st: State)
    ensures HoistCases(VisitCases(cases, Free(names, env)), env, T(names, st)) == T(names, HoistCases(cases, env, st))
    decreases cases
  {
    hide TCode, Hoist, VisitStmts;
    match cases
    case CNil =>
    case Case(_, body, tail) =>
      HoistT(names, body, env, st);
      HoistCasesT(names, tail, env, Hoist(body, env, st));
  }

  lemma {:induction false} ExecAllT(names: set<Name>, fuel: nat, ss: Stmts, env: Env, this_: Val, st: State)
    ensures ExecAll({}, fuel, VisitStmts(ss, Free(names, env)), env, this_, T(names, st))
         == TOut(names, ExecAll(names, fuel, ss, env, this_, st))
    decreases fuel, ss, 0
  {
    hide TCode, Exec, VisitStmt;
    match ss
    case SNil =>
    case SCons(head, tail) =>
      ExecT(names, fuel, head, env, this_, st);
      ExecAllT(names, fuel, tail, env, this_, Exec(names, fuel, head, env, this_, st).st);
  }

  lemma {:induction false} ExecT(names: set<Name>, fuel: nat, s: Stmt, env: Env, this_: Val, st: State)
    ensures Exec({}, fuel, VisitStmt(s, Free(names, env)), env, this_, T(names, st))
         == TOut(names, Exec(names, fuel, s, env, this_, st))
    decreases fuel, s, 1
  {
    hide TCode, Eval, EvalMaybe, EvalClass, Bind, Initialize, ExecScope, ExecSwitch, ExecCatch, ExecFor, ExecForOf;
    hide Visit, VisitMaybe, VisitPat, VisitFunc, VisitClass, VisitStmts, VisitCases, Shadow, LexicalNames;
    match s
    case ExprStmt(e) => EvalT(names, fuel, e, env, this_, st);
    case Declare(kind, target, init) => DeclareT(names, fuel, kind, target, init, env, this_, st);
    case FunctionDecl(_, _) =>
    case ClassDecl(name, c) =>
      EvalClassT(names, fuel, c, env, this_, st);
      var v := EvalClass(names, fuel, c, env, this_, st);
      if v.end.Norm? { InitializeT(names, env, v.st, name, v.end.v); }
    case Block(body) => ExecScopeT(names, fuel, body, env, this_, st);
    case If(test, yes, no) =>
      EvalT(names, fuel, test, env, this_, st);
      var v := Eval(names, fuel, test, env, this_, st);
      ExecT(names, fuel, yes, env, this_, v.st);
      ExecT(names, fuel, no, env, this_, v.st);
    case For(_, _, _, _) => ForT(names, fuel, s, env, this_, st);
    case ForOf(_, _, _, _) => ForOfT(names, fuel, s, env, this_, st);
    case Switch(value, cases) =>
      EvalT(names, fuel, value, env, this_, st);
      var v := Eval(names, fuel, value, env, this_, st);
      if v.end.Norm? { SwitchT(names, fuel, cases, v.end.v, env, this_, v.st); }
    case Try(block, param, handler) =>
      ExecScopeT(names, fuel, block, env, this_, st);
      var b := ExecScope(names, fuel, block, env, this_, st);
      if b.end.Thr? { CatchT(names, fuel, s, b.end.v, env, this_, b.st); }
    case Return(e) => EvalT(names, fuel, e, env, this_, st);
    case Throw(e) => EvalT(names, fuel, e, env, this_, st);
  }

  lemma {:induction false} DeclareT(names: set<Name>, fuel: nat, kind: Kind, target: Pat, init: MaybeExpr, env: Env,
                                    this_: Val, st: State)
    ensures Exec({}, fuel, Declare(kind, VisitPat(target, Free(names, env)), VisitMaybe(init, Free(names, env))), env, this_,
                 T(names, st))
         == TOut(names, Exec(names, fuel, Declare(kind, target, init), env, this_, st))
    decreases fuel, Declare(kind, target, init), 0
  {
    assert VisitMaybe(init, Free(names, env)).NoExpr? <==> init.NoExpr?;
    hide TCode, EvalMaybe, Bind, VisitMaybe, VisitPat;
    EvalMaybeT(names, fuel, init, env, this_, st);
    var v := EvalMaybe(names, fuel, init, env, this_, st);
    if v.end.Norm? { BindT(names, fuel, target, v.end.v, env, this_, v.st); }
  }

  lemma {:induction false} ForT(names: set<Name>, fuel: nat, s: Stmt, env: Env, this_: Val, st: State)
    requires s.For?
    ensures ExecFor({}, fuel, VisitStmt(s, Free(names, env)), env, this_, T(names, st))
         == TOut(names, ExecFor(names, fuel, s, env, this_, st))
    decreases fuel, s, 0
  {
    var ns := HeadNames(s.first);
    var inner := Shadow(Free(names, env), ns);
    assert VisitStmt(s, Free(names, env))
        == For(VisitStmt(s.first, inner), Visit(s.test, inner), Visit(s.update, inner), VisitStmt(s.loop, inner));
    SameLexical(s.first, inner);
    hide TCode, Exec, Loop, Enter, CopyCells, Visit, VisitStmt, HeadNames, Shadow;
    EnterT(names, ns, env, st);
    var e := Enter(ns, env, st);
    ShadowIs(names, env, e.env, ns);
    ExecT(names, fuel, s.first, e.env, this_, e.st);
    var i := Exec(names, fuel, s.first, e.env, this_, e.st);
    if i.end.Norm? && fuel > 0 {
      CopyCellsT(names, ns, e.env, i.st);
      var c := CopyCells(ns, e.env, i.st);
      SameKeys(names, e.env, c.env, ns);
      LoopT(names, fuel - 1, ns, s.test, s.update, s.loop, c.env, this_, c.st);
    }
  }

  /** Bindings made anew for names an environment has leave the same guest names free. */
  lemma SameKeys(names: set<Name>, env: Env, copied: Env, ns: seq<Name>)
    requires copied.Keys == env.Keys + set n | n in ns
    requires forall n :: n in ns ==> n in env
    ensures Free(names, copied) == Free(names, env)
  {
  }

  lemma {:induction false} LoopT(names: set<Name>, fuel: nat, ns: seq<Name>, test: Expr, update: Expr, loop: Stmt, env: Env,
                                 this_: Val, st: State)
    requires forall n :: n in ns ==> n in env
    ensures Loop({}, fuel, ns, Visit(test, Free(names, env)), Visit(update, Free(names, env)),
                 VisitStmt(loop, Free(names, env)), env, this_, T(names, st))
         == TOut(names, Loop(names, fuel, ns, test, update, loop, env, this_, st))
    decreases fuel
  {
    hide TCode, Eval, Exec, CopyCells, LoopNext, Visit, VisitStmt;
    EvalT(names, fuel, test, env, this_, st);
    var t := Eval(names, fuel, test, env, this_, st);
    ExecT(names, fuel, loop, env, this_, t.st);
    var b := Exec(names, fuel, loop, env, this_, t.st);
    CopyCellsT(names, ns, env, b.st);
    var c := CopyCells(ns, env, b.st);
    SameKeys(names, env, c.env, ns);
    EvalT(names, fuel, update, c.env, this_, c.st);
    var u := Eval(names, fuel, update, c.env, this_, c.st);
    LoopNextT(names, fuel, ns, test, update, loop, c.env, this_, u);
  }

  lemma {:induction false} LoopNextT(names: set<Name>, fuel: nat, ns: seq<Name>, test: Expr, update: Expr, loop: Stmt,
                                     env: Env, this_: Val, u: Out)
    requires forall n :: n in ns ==> n in env
    ensures LoopNext({}, fuel, ns, Visit(test, Free(names, env)), Visit(update, Free(names, env)),
                     VisitStmt(loop, Free(names, env)), env, this_, TOut(names, u))
         == TOut(names, LoopNext(names, fuel, ns, test, update, loop, env, this_, u))
    decreases fuel, loop
  {
    hide TCode, Loop, Visit, VisitStmt;
    if fuel > 0 {
      LoopT(names, fuel - 1, ns, test, update, loop, env, this_, u.st);
    }
  }

  lemma {:induction false} ForOfT(names: set<Name>, fuel: nat, s: Stmt, env: Env, this_: Val, st: State)
    requires s.ForOf?
    ensures ExecForOf({}, fuel, VisitStmt(s, Free(names, env)), env, this_, T(names, st))
         == TOut(names, ExecForOf(names, fuel, s, env, this_, st))
    decreases fuel, s, 0
  {
    var ns := ForOfNames(s.left, s.declares);
    var inner := Shadow(Free(names, env), ns);
    assert VisitStmt(s, Free(names, env))
        == ForOf(VisitPat(s.left, inner), s.declares, Visit(s.right, inner), VisitStmt(s.loop, inner));
    SameBound(s.left, inner);
    assert ForOfNames(VisitPat(s.left, inner), s.declares) == ns;
    hide TCode, Eval, LoopOf, Enter, Visit, VisitPat, VisitStmt, ForOfNames, Shadow;
    EnterT(names, ns, env, st);
    var e := Enter(ns, env, st);
    ShadowIs(names, env, e.env, ns);
    EvalT(names, fuel, s.right, e.env, this_, e.st);
    var v := Eval(names, fuel, s.right, e.env, this_, e.st);
    if v.end.Norm? && fuel > 0 {
      LoopOfT(names, fuel - 1, s.left, ns, s.loop, ElementsOf(v.st.m, v.end.v), env, this_, v.st);
    }
  }

  lemma {:induction false} LoopOfT(names: set<Name>, fuel: nat, left: Pat, ns: seq<Name>, loop: Stmt, vs: seq<Val>, env: Env,
                                   this_: Val, st: State)
    ensures LoopOf({}, fuel, VisitPat(left, Shadow(Free(names, env), ns)), ns, VisitStmt(loop, Shadow(Free(names, env), ns)),
                   vs, env, this_, T(names, st))
         == TOut(names, LoopOf(names, fuel, left, ns, loop, vs, env, this_, st))
    decreases fuel
  {
    hide TCode, Bind, Exec, Enter, LoopOfNext, VisitPat, VisitStmt, Shadow;
    if vs != [] {
      EnterT(names, ns, env, st);
      var s := Enter(ns, env, st);
      ShadowIs(names, env, s.env, ns);
      BindT(names, fuel, left, vs[0], s.env, this_, s.st);
      var p := Bind(names, fuel, left, vs[0], s.env, this_, s.st);
      ExecT(names, fuel, loop, s.env, this_, p.st);
      var b := Exec(names, fuel, loop, s.env, this_, p.st);
      LoopOfNextT(names, fuel, left, ns, loop, vs[1..], env, this_, b);
    }
  }

  lemma {:induction false} LoopOfNextT(names: set<Name>, fuel: nat, left: Pat, ns: seq<Name>, loop: Stmt, vs: seq<Val>,
                                       env: Env, this_: Val, b: Out)
    ensures LoopOfNext({}, fuel, VisitPat(left, Shadow(Free(names, env), ns)), ns,
                       VisitStmt(loop, Shadow(Free(names, env), ns)), vs, env, this_, TOut(names, b))
         == TOut(names, LoopOfNext(names, fuel, left, ns, loop, vs, env, this_, b))
    decreases fuel, loop
  {
    hide TCode, LoopOf, VisitPat, VisitStmt, Shadow;
    if fuel > 0 {
      LoopOfT(names, fuel - 1, left, ns, loop, vs, env, this_, b.st);
    }
  }

  lemma {:induction false} SwitchT(names: set<Name>, fuel: nat, cases: Cases, v: Val, env: Env, this_: Val, st: State)
    ensures ExecSwitch({}, fuel, VisitCases(cases, Shadow(Free(names, env), CaseLexicals(cases))), v, env, this_, T(names, st))
         == TOut(names, ExecSwitch(names, fuel, cases, v, env, this_, st))
    decreases fuel, cases, 2
  {
    var ns := CaseLexicals(cases);
    var inner := Shadow(Free(names, env), ns);
    hide TCode, ExecCases, HoistCases, Enter, VisitCases, CaseLexicals, Shadow;
    SameCaseLexicals(cases, inner);
    EnterT(names, ns, env, st);
    var s := Enter(ns, env, st);
    ShadowIs(names, env, s.env, ns);
    HoistCasesT(names, cases, s.env, s.st);
    ExecCasesT(names, fuel, cases, v, false, s.env, this_, HoistCases(cases, s.env, s.st));
  }

  lemma {:induction false} ExecCasesT(names: set<Name>, fuel: nat, cases: Cases, v: Val, taken: bool, env: Env, this_: Val,
                                      st: State)
    ensures ExecCases({}, fuel, VisitCases(cases, Free(names, env)), v, taken, env, this_, T(names, st))
         == TOut(names, ExecCases(names, fuel, cases, v, taken, env, this_, st))
    decreases fuel, cases, 0
  {
    hide TCode, Eval, ExecAll, NextCase, Visit, VisitStmts;
    match cases
    case CNil =>
    case Case(test, body, tail) =>
      EvalT(names, fuel, test, env, this_, st);
      var t := if taken then Out(Norm(v), st) else Eval(names, fuel, test, env, this_, st);
      ExecAllT(names, fuel, body, env, this_, t.st);
      var matched := t.end.Norm? && t.end.v == v;
      var r := if matched then ExecAll(names, fuel, body, env, this_, t.st) else Out(Norm(Undef), t.st);
      NextCaseT(names, fuel, tail, v, matched, env, this_, r);
  }

  lemma {:induction false} NextCaseT(names: set<Name>, fuel: nat, cases: Cases, v: Val, taken: bool, env: Env, this_: Val,
                                     r: Out)
    ensures NextCase({}, fuel, VisitCases(cases, Free(names, env)), v, taken, env, this_, TOut(names, r))
         == TOut(names, NextCase(names, fuel, cases, v, taken, env, this_, r))
    decreases fuel, cases, 1
  {
    hide TCode, ExecCases, VisitCases;
    ExecCasesT(names, fuel, cases, v, taken, env, this_, r.st);
  }

  lemma {:induction false} CatchT(names: set<Name>, fuel: nat, s: Stmt, thrown: Val, env: Env, this_: Val, st: State)
    requires s.Try?
    ensures ExecCatch({}, fuel, VisitStmt(s, Free(names, env)), thrown, env, this_, T(names, st))
         == TOut(names, ExecCatch(names, fuel, s, thrown, env, this_, st))
    decreases fuel, s, 0
  {
    var ns := BoundNames(s.param);
    var caught := Shadow(Free(names, env), ns);
    var visited := VisitStmt(s, Free(names, env));
    assert visited.Try? && visited.param == VisitPat(s.param, caught)
        && visited.handler == VisitStmts(s.handler, Shadow(caught, LexicalNames(s.handler)));
    SameBound(s.param, caught);
    hide TCode, Bind, ExecScope, Enter, VisitPat, VisitStmt, VisitStmts, Shadow, LexicalNames, BoundNames;
    EnterT(names, ns, env, st);
    var e := Enter(ns, env, st);
    ShadowIs(names, env, e.env, ns);
    BindT(names, fuel, s.param, thrown, e.env, this_, e.st);
    var p := Bind(names, fuel, s.param, thrown, e.env, this_, e.st);
    if p.end.Norm? {
      ExecScopeT(names, fuel, s.handler, e.env, this_, p.st);
    }
  }

  // ------------------------------------------------------------------ module bodies

  /**
   * A rewritten body, run where every free name is the realm's, ends as the body does whose free guest names are the
   * guest's: with the same value, exception or exhaustion, and with every cell, object, guest property and realm global
   * the same. `env` holds the wrapper's parameters, none of which the guest's global is asked for.
   */
  lemma RewritingKeepsMeaning(names: set<Name>, fuel: nat, body: Stmts, env: Env, this_: Val, st: State)
    requires names !! env.Keys
    ensures RunBody({}, fuel, Rewritten(body, names), env, this_, T(names, st))
         == TOut(names, RunBody(names, fuel, body, env, this_, st))
  {
    assert Free(names, env) == names;
    hide ExecBody, VisitStmts, BodyNames, Shadow, TCode;
    ExecBodyT(names, fuel, body, env, env, this_, st);
  }
}
