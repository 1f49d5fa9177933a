/** The environments the evaluator runs the pieces of a program in hold the names those pieces bind, and no others. */
module GuestEnvironments {
  import opened Wrappers
  import opened GuestLanguage
  import opened GuestEvaluator
  import opened GuestScopes
  import opened GuestScopeLaws

  /** A body's statements run with the `var`s that stand in it and the let, function and class names of its own. */
  lemma BodyRunsIn(ss: Stmts, outer: Env, env: Env, st: State, x: Name)
    ensures var vars := EnterVars(VarNames(ss), outer, env, st);
      x in Enter(LexicalNames(ss), vars.env, vars.st).env <==> x in env || HasVar(Body(ss), x) || Lexical(Body(ss), x)
  {
    hide HasVar, Lexical;
    VarNamesAre(ss, x);
    LexicalNamesAre(ss, CNil, x);
  }

  /** A block's, a catch block's and a switch's run with the let, function and class names declared in it. */
  lemma BlockRunsIn(ss: Stmts, cs: Cases, env: Env, st: State, x: Name)
    ensures x in Enter(LexicalNames(ss), env, st).env <==> x in env || Lexical(Blk(ss), x)
    ensures x in Enter(CaseLexicals(cs), env, st).env <==> x in env || Lexical(CaseBlock(cs), x)
  {
    hide Lexical;
    LexicalNamesAre(ss, cs, x);
  }

  /** A call's parameters run with the function's own name, `arguments` but in an arrow, and the names they declare. */
  lemma CallRunsIn(f: Func, closure: Env, self: Val, args: seq<Val>, st: State, x: Name)
    ensures x in EnterCall(f, closure, self, args, st).env <==> x in closure || Binds(F(f), Params(f.params), x)
  {
    hide Binds;
    ParameterNamesAre(f, x);
  }

  /** A loop's head and a catch clause's parameter bind what their patterns declare. */
  lemma PatternRunsIn(p: Pat, env: Env, st: State, x: Name)
    ensures x in Enter(BoundNames(p), env, st).env <==> x in env || Declares(p, x)
  {
    hide Declares;
    BoundNamesAre(p, x);
  }
}
