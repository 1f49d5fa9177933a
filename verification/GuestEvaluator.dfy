/**
 * What a program of the core language does: names resolve lexically, then a guest name on the guest's own global and
 * any other name on the realm's. `guest` is the guest names: with none, every free name is the realm's, as it is for
 * a rewritten body.
 *
 * Every call and every turn of a loop spends one unit of fuel; a run that needs more is Stuck. Code is kept apart from
 * the rest of the memory: a function value is an object that holds the number of its code.
 */
module GuestEvaluator {
  import opened Wrappers
  import opened GuestLanguage

  datatype Val = Undef | Num(n: int) | Str(s: string) | Ref(a: nat) | GuestGlobal | Native(id: nat)

  datatype Cell = Empty | Has(v: Val)

  datatype Obj = Obj(props: map<string, Val>, elems: seq<Val>, code: Option<nat>)

  type Env = map<Name, nat>

  datatype Memory = Memory(cells: seq<Cell>, heap: seq<Obj>, guest: map<Name, Val>, realm: map<Name, Val>)

  datatype Closure = Closure(f: Func, env: Env, receiver: Val)

  datatype State = State(m: Memory, code: seq<Closure>)

  /** How a piece of a program ends: with a value, with the place it names, by returning or throwing, or not in time. */
  datatype End = Norm(v: Val) | At(obj: Val, key: string) | Many(vs: seq<Val>) | Ret(v: Val) | Thr(v: Val) | Stuck

  datatype Out = Out(end: End, st: State)

  const REFERENCE_ERROR := Thr(Str("ReferenceError"))
  const TYPE_ERROR := Thr(Str("TypeError"))

  // ------------------------------------------------------------------ the memory

  function Get<V>(props: map<string, V>, key: string, missing: V): V {
    if key in props then props[key] else missing
  }

  function GetProp(m: Memory, o: Val, key: string): End {
    match o
    case Undef => TYPE_ERROR
    case GuestGlobal => Norm(Get(m.guest, key, Undef))
    case Ref(a) => Norm(if a < |m.heap| then Get(m.heap[a].props, key, Undef) else Undef)
    case _ => Norm(Undef)
  }

  function PutProp(st: State, o: Val, key: string, v: Val): Out {
    match o
    case GuestGlobal => Out(Norm(v), st.(m := st.m.(guest := st.m.guest[key := v])))
    case Ref(a) =>
      if a < |st.m.heap| then
        Out(Norm(v), st.(m := st.m.(heap := st.m.heap[a := st.m.heap[a].(props := st.m.heap[a].props[key := v])])))
      else Out(TYPE_ERROR, st)
    case _ => Out(TYPE_ERROR, st)
  }

  /** A name's value: of its binding, throwing before it is initialized; else of the global that has it. */
  function Lookup(guest: set<Name>, env: Env, m: Memory, x: Name): End {
    if x in env then
      if env[x] < |m.cells| && m.cells[env[x]].Has? then Norm(m.cells[env[x]].v) else REFERENCE_ERROR
    else if x in guest then Norm(Get(m.guest, x, Undef))
    else if x in m.realm then Norm(m.realm[x])
    else REFERENCE_ERROR
  }

  function Store(guest: set<Name>, env: Env, st: State, x: Name, v: Val): Out {
    if x in env then
      if env[x] < |st.m.cells| && st.m.cells[env[x]].Has? then Initialize(env, st, x, v) else Out(REFERENCE_ERROR, st)
    else if x in guest then PutProp(st, GuestGlobal, x, v)
    else if x in st.m.realm then Out(Norm(v), st.(m := st.m.(realm := st.m.realm[x := v])))
    else Out(REFERENCE_ERROR, st)
  }

  function Initialize(env: Env, st: State, x: Name, v: Val): Out {
    if x in env && env[x] < |st.m.cells| then Out(Norm(v), st.(m := st.m.(cells := st.m.cells[env[x] := Has(v)])))
    else Out(REFERENCE_ERROR, st)
  }

  datatype Scoped = Scoped(env: Env, st: State)

  /** New bindings, not yet initialized. */
  function Enter(names: seq<Name>, env: Env, st: State): (s: Scoped)
    ensures s.env.Keys == env.Keys + set n | n in names
    ensures s.st.code == st.code
  {
    if names == [] then Scoped(env, st)
    else
      var one := EnterOne(names[0], Empty, env, st);
      Enter(names[1..], one.env, one.st)
  }

  function EnterOne(name: Name, cell: Cell, env: Env, st: State): Scoped {
    Scoped(env[name := |st.m.cells|], st.(m := st.m.(cells := st.m.cells + [cell])))
  }

  /** New `var` bindings: undefined, or what a parameter of the same name holds. */
  function EnterVars(names: seq<Name>, outer: Env, env: Env, st: State): (s: Scoped)
    ensures s.env.Keys == env.Keys + set n | n in names
    ensures s.st.code == st.code
  {
    if names == [] then Scoped(env, st)
    else
      var held := if names[0] in outer && outer[names[0]] < |st.m.cells| then st.m.cells[outer[names[0]]] else Has(Undef);
      var one := EnterOne(names[0], if held.Has? then held else Has(Undef), env, st);
      EnterVars(names[1..], outer, one.env, one.st)
  }

  /** A loop's own bindings copied for its next turn. */
  function CopyCells(names: seq<Name>, env: Env, st: State): (s: Scoped)
    ensures s.env.Keys == env.Keys + set n | n in names
    ensures s.st.code == st.code
  {
    if names == [] then Scoped(env, st)
    else
      var cell := if names[0] in env && env[names[0]] < |st.m.cells| then st.m.cells[env[names[0]]] else Empty;
      var one := EnterOne(names[0], cell, env, st);
      CopyCells(names[1..], one.env, one.st)
  }

  function Allocate(st: State, o: Obj): (r: Out)
    ensures r.end.Norm?
  {
    Out(Norm(Ref(|st.m.heap|)), st.(m := st.m.(heap := st.m.heap + [o])))
  }

  /** A function value: an object with its code. */
  function MakeFunction(f: Func, env: Env, receiver: Val, st: State): (r: Out)
    ensures r.end.Norm?
  {
    Allocate(st.(code := st.code + [Closure(f, env, receiver)]), Obj(map[], [], Some(|st.code|)))
  }

  function Truthy(v: Val): bool {
    v != Undef && v != Num(0) && v != Str("")
  }

  function TypeName(v: Val): string {
    match v
    case Undef => "undefined"
    case Num(_) => "number"
    case Str(_) => "string"
    case Native(_) => "function"
    case _ => "object"
  }

  function ElementsOf(m: Memory, v: Val): seq<Val> {
    if v.Ref? && v.a < |m.heap| then m.heap[v.a].elems else []
  }

  function CodeOf(st: State, f: Val): Option<nat> {
    if f.Ref? && f.a < |st.m.heap| && st.m.heap[f.a].code.Some? && st.m.heap[f.a].code.value < |st.code|
    then st.m.heap[f.a].code else None
  }

  // ------------------------------------------------------------------ expressions

  function Eval(guest: set<Name>, fuel: nat, e: Expr, env: Env, this_: Val, st: State): Out
    decreases fuel, e
  {
    match e
    case Lit(n) => Out(Norm(Num(n)), st)
    case Id(x) => Out(Lookup(guest, env, st.m, x), st)
    case This => Out(Norm(this_), st)
    case Scope => Out(Norm(GuestGlobal), st)
    case Member(obj, key) =>
      var p := EvalPlace(guest, fuel, obj, key, env, this_, st);
      if p.end.At? then Out(GetProp(p.st.m, p.end.obj, p.end.key), p.st) else p
    case Call(callee, args) => EvalCall(guest, fuel, callee, args, env, this_, st)
    case New(callee, args) => EvalNew(guest, fuel, callee, args, env, this_, st)
    case Construct(callee) => Eval(guest, fuel, callee, env, this_, st)
    case Assign(target, value) => EvalAssign(guest, fuel, target, value, env, this_, st)
    case Update(place) => EvalUpdate(guest, fuel, place, env, this_, st)
    case Typeof(operand) =>
      if Unresolvable(guest, operand, env, st.m) then Out(Norm(Str("undefined")), st)
      else
        var v := Eval(guest, fuel, operand, env, this_, st);
        if v.end.Norm? then Out(Norm(Str(TypeName(v.end.v))), v.st) else v
    case Comma(first, second) =>
      var v := Eval(guest, fuel, first, env, this_, st);
      if v.end.Norm? then Eval(guest, fuel, second, env, this_, v.st) else v
    case Cond(test, yes, no) =>
      var v := Eval(guest, fuel, test, env, this_, st);
      if !v.end.Norm? then v
      else if Truthy(v.end.v) then Eval(guest, fuel, yes, env, this_, v.st)
      else Eval(guest, fuel, no, env, this_, v.st)
    case ObjectLit(props) =>
      var o := Allocate(st, Obj(map[], [], None));
      EvalProps(guest, fuel, props, o.end.v, env, this_, o.st)
    case Lambda(f) => MakeFunction(f, env, this_, st)
    case ClassExpr(c) => EvalClass(guest, fuel, c, env, this_, st)
  }

  /** A name nothing has, whose type is still asked without an error. */
  predicate Unresolvable(guest: set<Name>, operand: Expr, env: Env, m: Memory) {
    operand.Id? && operand.name !in env && operand.name !in guest && operand.name !in m.realm
  }

  /** A call: a member's has its object as receiver, any other none. */
  function EvalCall(guest: set<Name>, fuel: nat, callee: Expr, args: Exprs, env: Env, this_: Val, st: State): Out
    decreases fuel, Call(callee, args), 0
  {
    if callee.Member? then
      var p := EvalPlace(guest, fuel, callee.obj, callee.key, env, this_, st);
      if p.end.At? then
        CallWith(guest, fuel, Out(GetProp(p.st.m, p.end.obj, p.end.key), p.st), p.end.obj, args, env, this_)
      else p
    else CallWith(guest, fuel, Eval(guest, fuel, callee, env, this_, st), Undef, args, env, this_)
  }

  function EvalNew(guest: set<Name>, fuel: nat, callee: Expr, args: Exprs, env: Env, this_: Val, st: State): Out
    decreases fuel, New(callee, args), 0
  {
    NewWith(guest, fuel, Eval(guest, fuel, callee, env, this_, st), args, env, this_)
  }

  function EvalAssign(guest: set<Name>, fuel: nat, target: Pat, value: Expr, env: Env, this_: Val, st: State): Out
    decreases fuel, Assign(target, value), 0
  {
    if target.Place? && target.e.Member? then
      var p := EvalPlace(guest, fuel, target.e.obj, target.e.key, env, this_, st);
      if !p.end.At? then p
      else
        var v := Eval(guest, fuel, value, env, this_, p.st);
        if v.end.Norm? then PutProp(v.st, p.end.obj, p.end.key, v.end.v) else v
    else
      var v := Eval(guest, fuel, value, env, this_, st);
      if v.end.Norm? then Bind(guest, fuel, target, v.end.v, env, this_, v.st) else v
  }

  function EvalUpdate(guest: set<Name>, fuel: nat, place: Expr, env: Env, this_: Val, st: State): Out
    decreases fuel, Update(place), 0
  {
    if place.Member? then
      var p := EvalPlace(guest, fuel, place.obj, place.key, env, this_, st);
      if !p.end.At? then p
      else
        var v := GetProp(p.st.m, p.end.obj, p.end.key);
        if v.Norm? && v.v.Num? then PutProp(p.st, p.end.obj, p.end.key, Num(v.v.n + 1)) else Out(TYPE_ERROR, p.st)
    else if place.Id? then
      var v := Lookup(guest, env, st.m, place.name);
      if !v.Norm? then Out(v, st)
      else if v.v.Num? then Store(guest, env, st, place.name, Num(v.v.n + 1)) else Out(TYPE_ERROR, st)
    else Out(TYPE_ERROR, st)
  }

  function EvalKey(guest: set<Name>, fuel: nat, key: Key, env: Env, this_: Val, st: State): (k: Out)
    ensures k.end.Norm? ==> k.end.v.Str?
    decreases fuel, key
  {
    match key
    case Named(name) => Out(Norm(Str(name)), st)
    case Computed(e) =>
      var v := Eval(guest, fuel, e, env, this_, st);
      if v.end.Norm? && !v.end.v.Str? then Out(TYPE_ERROR, v.st) else v
  }

  /** A member's object and key: its place. */
  function EvalPlace(guest: set<Name>, fuel: nat, obj: Expr, key: Key, env: Env, this_: Val, st: State): (p: Out)
    ensures !p.end.Norm?
    decreases fuel, Member(obj, key), 0
  {
    var o := Eval(guest, fuel, obj, env, this_, st);
    if !o.end.Norm? then o
    else
      var k := EvalKey(guest, fuel, key, env, this_, o.st);
      if k.end.Norm? then Out(At(o.end.v, k.end.v.s), k.st) else k
  }

  function EvalAll(guest: set<Name>, fuel: nat, es: Exprs, env: Env, this_: Val, st: State): Out
    decreases fuel, es, 0
  {
    match es
    case ENil => Out(Many([]), st)
    case ECons(head, tail) =>
      var v := Eval(guest, fuel, head, env, this_, st);
      if !v.end.Norm? then v
      else
        var vs := EvalAll(guest, fuel, tail, env, this_, v.st);
        if vs.end.Many? then Out(Many([v.end.v] + vs.end.vs), vs.st) else vs
  }

  function EvalMaybe(guest: set<Name>, fuel: nat, e: MaybeExpr, env: Env, this_: Val, st: State): Out
    decreases fuel, e
  {
    match e
    case NoExpr => Out(Norm(Undef), st)
    case JustExpr(x) => Eval(guest, fuel, x, env, this_, st)
  }

  function EvalProps(guest: set<Name>, fuel: nat, props: Props, o: Val, env: Env, this_: Val, st: State): Out
    decreases fuel, props, 1
  {
    if props == PNil then Out(Norm(o), st)
    else
      var put := EvalFirst(guest, fuel, props, o, env, this_, st);
      if put.end.Norm? then EvalProps(guest, fuel, props.tail, o, env, this_, put.st) else put
  }

  /** The first property of a list: its key, its value, the property defined. */
  function EvalFirst(guest: set<Name>, fuel: nat, props: Props, o: Val, env: Env, this_: Val, st: State): Out
    requires props != PNil
    decreases fuel, props, 0
  {
    match props
    case Prop(key, value, _) =>
      var p := EvalKey(guest, fuel, key, env, this_, st);
      if !p.end.Norm? then p
      else
        var v := Eval(guest, fuel, value, env, this_, p.st);
        if v.end.Norm? then PutProp(v.st, o, p.end.v.s, v.end.v) else v
    case Shorthand(name, _) =>
      var v := Lookup(guest, env, st.m, name);
      if v.Norm? then PutProp(st, o, name, v.v) else Out(v, st)
  }

  /** What the host's own function answers: a new object of its arguments. */
  function NativeResult(args: seq<Val>, st: State): Out {
    Allocate(st, Obj(map[], args, None))
  }

  function CallWith(guest: set<Name>, fuel: nat, f: Out, receiver: Val, args: Exprs, env: Env, this_: Val): Out
    decreases fuel, args, 1
  {
    if !f.end.Norm? then f
    else
      var vs := EvalAll(guest, fuel, args, env, this_, f.st);
      if !vs.end.Many? then vs
      else if fuel == 0 then Out(Stuck, vs.st)
      else CallValue(guest, fuel - 1, f.end.v, receiver, vs.end.vs, vs.st)
  }

  /** A host's function refuses a receiver, as `fetch` does. */
  function CallValue(guest: set<Name>, fuel: nat, f: Val, receiver: Val, args: seq<Val>, st: State): Out
    decreases fuel
  {
    if f.Native? then if receiver == Undef then NativeResult(args, st) else Out(TYPE_ERROR, st)
    else if CodeOf(st, f) == None then Out(TYPE_ERROR, st)
    else Run(guest, fuel, st.code[CodeOf(st, f).value], f, receiver, args, st)
  }

  function NewWith(guest: set<Name>, fuel: nat, f: Out, args: Exprs, env: Env, this_: Val): Out
    decreases fuel, args, 1
  {
    if !f.end.Norm? then f
    else
      var vs := EvalAll(guest, fuel, args, env, this_, f.st);
      if !vs.end.Many? then vs
      else if fuel == 0 then Out(Stuck, vs.st)
      else NewValue(guest, fuel - 1, f.end.v, vs.end.vs, vs.st)
  }

  /** A construction makes a new object with the function's own properties. */
  function NewValue(guest: set<Name>, fuel: nat, f: Val, args: seq<Val>, st: State): Out
    decreases fuel
  {
    if f.Native? then NativeResult(args, st)
    else if CodeOf(st, f) == None then Out(TYPE_ERROR, st)
    else
      var o := Allocate(st, Obj(st.m.heap[f.a].props, [], None));
      var r := Run(guest, fuel, o.st.code[CodeOf(st, f).value], f, o.end.v, args, o.st);
      if r.end.Norm? && !r.end.v.Ref? then Out(o.end, r.st) else r
  }

  /** The bindings a call begins with: the function's own name, `arguments`, and its parameters, uninitialized. */
  function EnterCall(f: Func, closure: Env, self: Val, args: seq<Val>, st: State): (s: Scoped)
    ensures s.env.Keys == closure.Keys + set n | n in ParameterNames(f)
    ensures s.st.code == st.code
  {
    var s0 := if f.own.Some? then EnterOne(f.own.value, Has(self), closure, st) else Scoped(closure, st);
    var o := Allocate(s0.st, Obj(map[], args, None));
    var s1 := if f.arrow then s0 else EnterOne("arguments", Has(o.end.v), s0.env, o.st);
    Enter(PatsBound(f.params), s1.env, s1.st)
  }

  function Run(guest: set<Name>, fuel: nat, c: Closure, self: Val, receiver: Val, args: seq<Val>, st: State): Out
    decreases fuel, c.f
  {
    var this_ := if c.f.arrow then c.receiver else receiver;
    var s := EnterCall(c.f, c.env, self, args, st);
    var b := BindAll(guest, fuel, c.f.params, args, s.env, this_, s.st);
    if b.end.Norm? then Returned(ExecBody(guest, fuel, c.f.body, s.env, s.env, this_, b.st)) else b
  }

  /** A call's answer, from how its body ended. */
  function Returned(r: Out): Out {
    if r.end.Ret? then Out(Norm(r.end.v), r.st) else if r.end.Norm? then Out(Norm(Undef), r.st) else r
  }

  // ------------------------------------------------------------------ patterns

  function Bind(guest: set<Name>, fuel: nat, p: Pat, v: Val, env: Env, this_: Val, st: State): Out
    decreases fuel, p
  {
    match p
    case Declared(name) => Initialize(env, st, name, v)
    case Place(e) => BindPlace(guest, fuel, e, v, env, this_, st)
    case ObjectPat(props) => if v == Undef then Out(TYPE_ERROR, st) else BindProps(guest, fuel, props, v, env, this_, st)
    case ArrayPat(elems) =>
      if v == Undef then Out(TYPE_ERROR, st) else BindAll(guest, fuel, elems, ElementsOf(st.m, v), env, this_, st)
    case Default(q, e) =>
      if v != Undef then Bind(guest, fuel, q, v, env, this_, st)
      else
        var d := Eval(guest, fuel, e, env, this_, st);
        if d.end.Norm? then Bind(guest, fuel, q, d.end.v, env, this_, d.st) else d
  }

  function BindPlace(guest: set<Name>, fuel: nat, e: Expr, v: Val, env: Env, this_: Val, st: State): Out
    decreases fuel, Place(e), 0
  {
    if e.Id? then Store(guest, env, st, e.name, v)
    else if e.Member? then
      var at := EvalPlace(guest, fuel, e.obj, e.key, env, this_, st);
      if at.end.At? then PutProp(at.st, at.end.obj, at.end.key, v) else at
    else Out(TYPE_ERROR, st)
  }

  function BindAll(guest: set<Name>, fuel: nat, ps: Pats, vs: seq<Val>, env: Env, this_: Val, st: State): Out
    decreases fuel, ps
  {
    match ps
    case PatNil => Out(Norm(Undef), st)
    case PatCons(head, tail) =>
      var b := Bind(guest, fuel, head, if vs == [] then Undef else vs[0], env, this_, st);
      if b.end.Norm? then BindAll(guest, fuel, tail, if vs == [] then [] else vs[1..], env, this_, b.st) else b
  }

  function BindProps(guest: set<Name>, fuel: nat, props: PatProps, o: Val, env: Env, this_: Val, st: State): Out
    decreases fuel, props, 1
  {
    if props == PPNil then Out(Norm(Undef), st)
    else
      var b := BindFirst(guest, fuel, props, o, env, this_, st);
      if b.end.Norm? then BindProps(guest, fuel, props.tail, o, env, this_, b.st) else b
  }

  /** The first property of a pattern: its key, its value read, its default where that is undefined, its own pattern. */
  function BindFirst(guest: set<Name>, fuel: nat, props: PatProps, o: Val, env: Env, this_: Val, st: State): Out
    requires props != PPNil
    decreases fuel, props, 0
  {
    match props
    case PatProp(key, value, _) =>
      var k := EvalKey(guest, fuel, key, env, this_, st);
      if !k.end.Norm? then k
      else
        var g := GetProp(k.st.m, o, k.end.v.s);
        if g.Norm? then Bind(guest, fuel, value, g.v, env, this_, k.st) else Out(g, k.st)
    case ShorthandPat(name, declares, default, _) =>
      var g := GetProp(st.m, o, name);
      if !g.Norm? then Out(g, st)
      else
        BindName(guest, name, declares, if g.v == Undef then EvalMaybe(guest, fuel, default, env, this_, st) else Out(g, st), env)
  }

  /** A shorthand leaf given its value: a declared name is initialized, an assigned one written. */
  function BindName(guest: set<Name>, name: Name, declares: bool, d: Out, env: Env): Out {
    if !d.end.Norm? then d
    else if declares then Initialize(env, d.st, name, d.end.v) else Store(guest, env, d.st, name, d.end.v)
  }

  // ------------------------------------------------------------------ classes

  function EvalClass(guest: set<Name>, fuel: nat, c: Class, env: Env, this_: Val, st: State): Out
    decreases fuel, c
  {
    var s := Enter(ClassNames(c), env, st);
    var h := EvalMaybe(guest, fuel, c.heritage, s.env, this_, s.st);
    if !h.end.Norm? then h
    else
      var o := MakeFunction(c.ctor, s.env, Undef, h.st);
      var m := DefineMethods(guest, fuel, c.members, o.end.v, s.env, this_, o.st);
      if !m.end.Norm? then m
      else
        var b := if c.name.Some? then Initialize(s.env, m.st, c.name.value, o.end.v) else m;
        if !b.end.Norm? then b
        else
          var r := RunStatics(guest, fuel, c.members, o.end.v, s.env, b.st);
          if r.end.Norm? then Out(o.end, r.st) else r
  }

  function DefineMethods(guest: set<Name>, fuel: nat, ms: Members, o: Val, env: Env, this_: Val, st: State): Out
    decreases fuel, ms
  {
    match ms
    case MNil => Out(Norm(Undef), st)
    case Method(key, f, tail) =>
      var put := DefineMethod(EvalKey(guest, fuel, key, env, this_, st), f, o, env);
      if put.end.Norm? then DefineMethods(guest, fuel, tail, o, env, this_, put.st) else put
    case StaticField(_, _, tail) => DefineMethods(guest, fuel, tail, o, env, this_, st)
    case StaticBlock(_, tail) => DefineMethods(guest, fuel, tail, o, env, this_, st)
  }

  function DefineMethod(k: Out, f: Func, o: Val, env: Env): Out
    requires k.end.Norm? ==> k.end.v.Str?
  {
    if !k.end.Norm? then k
    else
      var v := MakeFunction(f, env, Undef, k.st);
      PutProp(v.st, o, k.end.v.s, v.end.v)
  }

  function RunStatics(guest: set<Name>, fuel: nat, ms: Members, o: Val, env: Env, st: State): Out
    decreases fuel, ms
  {
    match ms
    case MNil => Out(Norm(Undef), st)
    case Method(_, _, tail) => RunStatics(guest, fuel, tail, o, env, st)
    case StaticField(name, value, tail) =>
      var v := Eval(guest, fuel, value, env, o, st);
      if !v.end.Norm? then v
      else
        var put := PutProp(v.st, o, name, v.end.v);
        if put.end.Norm? then RunStatics(guest, fuel, tail, o, env, put.st) else put
    case StaticBlock(body, tail) =>
      var r := ExecBody(guest, fuel, body, map[], env, o, st);
      if r.end.Norm? then RunStatics(guest, fuel, tail, o, env, r.st) else r
  }

  // ------------------------------------------------------------------ statements

  function Exec(guest: set<Name>, fuel: nat, s: Stmt, env: Env, this_: Val, st: State): Out
    decreases fuel, s, 1
  {
    match s
    case ExprStmt(e) =>
      var v := Eval(guest, fuel, e, env, this_, st);
      if v.end.Norm? then Out(Norm(Undef), v.st) else v
    case Declare(kind, target, init) =>
      if init.NoExpr? && kind.Var? then Out(Norm(Undef), st)
      else
        var v := EvalMaybe(guest, fuel, init, env, this_, st);
        if v.end.Norm? then Bind(guest, fuel, target, v.end.v, env, this_, v.st) else v
    case FunctionDecl(_, _) => Out(Norm(Undef), st)
    case ClassDecl(name, c) =>
      var v := EvalClass(guest, fuel, c, env, this_, st);
      if v.end.Norm? then Initialize(env, v.st, name, v.end.v) else v
    case Block(body) => ExecScope(guest, fuel, body, env, this_, st)
    case If(test, yes, no) =>
      var v := Eval(guest, fuel, test, env, this_, st);
      if !v.end.Norm? then v
      else if Truthy(v.end.v) then Exec(guest, fuel, yes, env, this_, v.st)
      else Exec(guest, fuel, no, env, this_, v.st)
    case For(_, _, _, _) => ExecFor(guest, fuel, s, env, this_, st)
    case ForOf(_, _, _, _) => ExecForOf(guest, fuel, s, env, this_, st)
    case Switch(value, cases) =>
      var v := Eval(guest, fuel, value, env, this_, st);
      if v.end.Norm? then ExecSwitch(guest, fuel, cases, v.end.v, env, this_, v.st) else v
    case Try(block, param, handler) =>
      var b := ExecScope(guest, fuel, block, env, this_, st);
      if b.end.Thr? then ExecCatch(guest, fuel, s, b.end.v, env, this_, b.st) else b
    case Return(e) =>
      var v := Eval(guest, fuel, e, env, this_, st);
      if v.end.Norm? then Out(Ret(v.end.v), v.st) else v
    case Throw(e) =>
      var v := Eval(guest, fuel, e, env, this_, st);
      if v.end.Norm? then Out(Thr(v.end.v), v.st) else v
  }

  function ExecFor(guest: set<Name>, fuel: nat, s: Stmt, env: Env, this_: Val, st: State): Out
    requires s.For?
    decreases fuel, s, 0
  {
    var names := HeadNames(s.first);
    var e := Enter(names, env, st);
    var i := Exec(guest, fuel, s.first, e.env, this_, e.st);
    if !i.end.Norm? then i
    else if fuel == 0 then Out(Stuck, i.st)
    else
      var c := CopyCells(names, e.env, i.st);
      Loop(guest, fuel - 1, names, s.test, s.update, s.loop, c.env, this_, c.st)
  }

  /** A `for of` loop: what it goes over is evaluated where the loop's names are not yet initialized. */
  function ExecForOf(guest: set<Name>, fuel: nat, s: Stmt, env: Env, this_: Val, st: State): Out
    requires s.ForOf?
    decreases fuel, s, 0
  {
    var names := ForOfNames(s.left, s.declares);
    var e := Enter(names, env, st);
    var v := Eval(guest, fuel, s.right, e.env, this_, e.st);
    if !v.end.Norm? then v
    else if v.end.v == Undef then Out(TYPE_ERROR, v.st)
    else if fuel == 0 then Out(Stuck, v.st)
    else LoopOf(guest, fuel - 1, s.left, names, s.loop, ElementsOf(v.st.m, v.end.v), env, this_, v.st)
  }

  function ExecSwitch(guest: set<Name>, fuel: nat, cases: Cases, v: Val, env: Env, this_: Val, st: State): Out
    decreases fuel, cases, 2
  {
    var s := Enter(CaseLexicals(cases), env, st);
    ExecCases(guest, fuel, cases, v, false, s.env, this_, HoistCases(cases, s.env, s.st))
  }

  /** A catch clause: its parameter, then its block. */
  function ExecCatch(guest: set<Name>, fuel: nat, s: Stmt, thrown: Val, env: Env, this_: Val, st: State): Out
    requires s.Try?
    decreases fuel, s, 0
  {
    var e := Enter(BoundNames(s.param), env, st);
    var p := Bind(guest, fuel, s.param, thrown, e.env, this_, e.st);
    if p.end.Norm? then ExecScope(guest, fuel, s.handler, e.env, this_, p.st) else p
  }

  /** Statements with `var` bindings of their own. */
  function ExecBody(guest: set<Name>, fuel: nat, ss: Stmts, outer: Env, env: Env, this_: Val, st: State): Out
    decreases fuel, ss, 2
  {
    var s := EnterVars(VarNames(ss), outer, env, st);
    ExecScope(guest, fuel, ss, s.env, this_, s.st)
  }

  /** A block: its own bindings, its functions made, its statements. */
  function ExecScope(guest: set<Name>, fuel: nat, ss: Stmts, env: Env, this_: Val, st: State): Out
    decreases fuel, ss, 1
  {
    var s := Enter(LexicalNames(ss), env, st);
    ExecAll(guest, fuel, ss, s.env, this_, Hoist(ss, s.env, s.st))
  }

  function ExecAll(guest: set<Name>, fuel: nat, ss: Stmts, env: Env, this_: Val, st: State): Out
    decreases fuel, ss, 0
  {
    match ss
    case SNil => Out(Norm(Undef), st)
    case SCons(head, tail) =>
      var r := Exec(guest, fuel, head, env, this_, st);
      if r.end.Norm? then ExecAll(guest, fuel, tail, env, this_, r.st) else r
  }

  /** A block's function declarations have their values from its start. */
  function Hoist(ss: Stmts, env: Env, st: State): State {
    match ss
    case SNil => st
    case SCons(head, tail) =>
      if head.FunctionDecl? then
        var v := MakeFunction(head.f, env, Undef, st);
        Hoist(tail, env, Initialize(env, v.st, head.name, v.end.v).st)
      else Hoist(tail, env, st)
  }

  function HoistCases(cases: Cases, env: Env, st: State): State {
    match cases
    case CNil => st
    case Case(_, body, tail) => HoistCases(tail, env, Hoist(body, env, st))
  }

  /** The cases of a switch share one block; the ones after the one taken run too. */
  function ExecCases(guest: set<Name>, fuel: nat, cases: Cases, v: Val, taken: bool, env: Env, this_: Val, st: State): Out
    decreases fuel, cases, 0
  {
    match cases
    case CNil => Out(Norm(Undef), st)
    case Case(test, body, tail) =>
      var t := if taken then Out(Norm(v), st) else Eval(guest, fuel, test, env, this_, st);
      if !t.end.Norm? then t
      else
        var r := if t.end.v == v then ExecAll(guest, fuel, body, env, this_, t.st) else Out(Norm(Undef), t.st);
        NextCase(guest, fuel, tail, v, t.end.v == v, env, this_, r)
  }

  function NextCase(guest: set<Name>, fuel: nat, cases: Cases, v: Val, taken: bool, env: Env, this_: Val, r: Out): Out
    decreases fuel, cases, 1
  {
    if r.end.Norm? then ExecCases(guest, fuel, cases, v, taken, env, this_, r.st) else r
  }

  /** A `for` loop from a test on; every turn has the loop's bindings anew. */
  function Loop(guest: set<Name>, fuel: nat, names: seq<Name>, test: Expr, update: Expr, loop: Stmt, env: Env,
                this_: Val, st: State): Out
    decreases fuel
  {
    var t := Eval(guest, fuel, test, env, this_, st);
    if !t.end.Norm? then t
    else if !Truthy(t.end.v) then Out(Norm(Undef), t.st)
    else
      var b := Exec(guest, fuel, loop, env, this_, t.st);
      if !b.end.Norm? then b
      else
        var c := CopyCells(names, env, b.st);
        LoopNext(guest, fuel, names, test, update, loop, c.env, this_, Eval(guest, fuel, update, c.env, this_, c.st))
  }

  /** The next turn of a loop, from how its update ended. */
  function LoopNext(guest: set<Name>, fuel: nat, names: seq<Name>, test: Expr, update: Expr, loop: Stmt, env: Env,
                    this_: Val, u: Out): Out
    decreases fuel, loop
  {
    if !u.end.Norm? then u
    else if fuel == 0 then Out(Stuck, u.st)
    else Loop(guest, fuel - 1, names, test, update, loop, env, this_, u.st)
  }

  function LoopOf(guest: set<Name>, fuel: nat, left: Pat, names: seq<Name>, loop: Stmt, vs: seq<Val>, env: Env,
                  this_: Val, st: State): Out
    decreases fuel
  {
    if vs == [] then Out(Norm(Undef), st)
    else
      var s := Enter(names, env, st);
      var p := Bind(guest, fuel, left, vs[0], s.env, this_, s.st);
      if !p.end.Norm? then p
      else
        LoopOfNext(guest, fuel, left, names, loop, vs[1..], env, this_, Exec(guest, fuel, loop, s.env, this_, p.st))
  }

  function LoopOfNext(guest: set<Name>, fuel: nat, left: Pat, names: seq<Name>, loop: Stmt, vs: seq<Val>, env: Env,
                      this_: Val, b: Out): Out
    decreases fuel, loop
  {
    if !b.end.Norm? then b
    else if fuel == 0 then Out(Stuck, b.st)
    else LoopOf(guest, fuel - 1, left, names, loop, vs, env, this_, b.st)
  }

  /** A module body, run as the body of the wrapper function whose parameters `env` holds. */
  function RunBody(guest: set<Name>, fuel: nat, body: Stmts, env: Env, this_: Val, st: State): Out {
    Returned(ExecBody(guest, fuel, body, env, env, this_, st))
  }
}
