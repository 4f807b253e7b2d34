/**
 Calls the inliner accepts and gets wrong. In the first five a name does not denote what it did: a
 temporary takes the name of a variable or of a function of the helper, a local of a guarded tail or
 of a branch captures an argument, and a free name the shadow check has missed meets a declaration
 of the caller. Then a called parameter becomes a method, and an argument is read too late, after a
 call of the helper or after a later argument.
 */
module InlinerFailures {
  import opened Wrappers
  import opened JsExpr
  import opened JsSemantics
  import opened GuardInversion
  import opened FreshNames
  import opened Inliner
  import opened InlinerSoundness
  import opened InlinerArguments
  import opened InlinerTheorems
  import opened InlinerBindings

  /** `f(a);` */
  function CallOne(f: string, a: string): Block {
    Then(Do(Call(Name(f), Arg(Name(a), NoArgs))), Done)
  }

  /** `f(a, b);` */
  function CallTwo(f: string, a: string, b: string): Block {
    Then(Do(Call(Name(f), Arg(Name(a), Arg(Name(b), NoArgs)))), Done)
  }

  /** `const y = 1; use(a, y);` */
  function Shadow(use: string, a: string, y: string): Block {
    Then(Let(y, Lit(Number(1))), CallTwo(use, a, y))
  }

  /** A call site whose names all live around it. */
  function Plain(cells: map<string, Cell>): Env {
    Env(Scope({}, cells), map[])
  }

  lemma {:induction false} ThreeCells(a: string, b: string, c: string, w: World)
    requires a != b && a != c && b != c && {0, 1, 2} <= w.cells.Keys
    ensures var env := Plain(map[a := 0, b := 1, c := 2]);
      Lookup(env, a, w) == Ok(w.cells[0]) && Lookup(env, b, w) == Ok(w.cells[1]) && Lookup(env, c, w) == Ok(w.cells[2])
  {
  }

  // ----- Running the pieces -----

  lemma {:induction false} CallRuns(host: Host, scope: Scope, f: Frame, callee: string, args: Args, fn: Value, vs: seq<Value>, w: World)
    requires Lookup(Env(scope, f), callee, w) == Ok(fn) && EvalArgs(host, Env(scope, f), args, w) == (Ok(vs), w)
    ensures ExecBlock(host, scope, Then(Do(Call(Name(callee), args)), Done), f, w).2 == host.apply(fn, Undefined, vs, w).1
  {
    var env := Env(scope, f);
    assert Eval(host, env, Name(callee), w) == (Ok(fn), w);
    assert EvalCallee(host, env, Name(callee), w) == (Ok(Callee(fn, Undefined)), w);
    assert Eval(host, env, Call(Name(callee), args), w) == host.apply(fn, Undefined, vs, w);
  }

  lemma {:induction false} OneRuns(host: Host, scope: Scope, f: Frame, callee: string, a: string, fn: Value, u: Value, w: World)
    requires Lookup(Env(scope, f), callee, w) == Ok(fn) && Lookup(Env(scope, f), a, w) == Ok(u)
    ensures ExecBlock(host, scope, CallOne(callee, a), f, w).2 == host.apply(fn, Undefined, [u], w).1
  {
    var env, args := Env(scope, f), Arg(Name(a), NoArgs);
    assert EvalArgs(host, env, NoArgs, w) == (Ok([]), w);
    assert [u] + [] == [u];
    assert EvalArgs(host, env, args, w) == (Ok([u]), w);
    CallRuns(host, scope, f, callee, args, fn, [u], w);
  }

  lemma {:induction false} TwoRuns(host: Host, scope: Scope, f: Frame, callee: string, a: string, b: string, fn: Value, u: Value, v: Value, w: World)
    requires Lookup(Env(scope, f), callee, w) == Ok(fn)
    requires Lookup(Env(scope, f), a, w) == Ok(u) && Lookup(Env(scope, f), b, w) == Ok(v)
    ensures ExecBlock(host, scope, CallTwo(callee, a, b), f, w).2 == host.apply(fn, Undefined, [u, v], w).1
  {
    var env, last := Env(scope, f), Arg(Name(b), NoArgs);
    assert EvalArgs(host, env, NoArgs, w) == (Ok([]), w);
    assert [v] + [] == [v] && [u] + [v] == [u, v];
    assert EvalArgs(host, env, last, w) == (Ok([v]), w);
    assert EvalArgs(host, env, Arg(Name(a), last), w) == (Ok([u, v]), w);
    CallRuns(host, scope, f, callee, Arg(Name(a), last), fn, [u, v], w);
  }

  lemma {:induction false} ShadowRuns(host: Host, scope: Scope, f: Frame, use: string, a: string, y: string, fn: Value, w: World)
    requires use != y && Lookup(Env(scope, f), use, w) == Ok(fn) && (a != y ==> a in f)
    ensures ExecBlock(host, scope, Shadow(use, a, y), f, w).2 ==
      host.apply(fn, Undefined, [if a == y then Number(1) else f[a], Number(1)], w).1
  {
    var f1 := f[y := Number(1)];
    assert Exec(host, scope, Let(y, Lit(Number(1))), f, w) == (Normal, f1, w);
    TwoRuns(host, scope, f1, use, a, y, fn, f1[a], Number(1), w);
  }

  lemma {:induction false} CallBinds(host: Host, env: Env, cells: map<string, Cell>, h: Helper, p: string, arg: Expr, v: Value, w: World)
    requires h.params == [p] && Eval(host, env, arg, w) == (Ok(v), w)
    ensures var hs, f := HelperScope(h, cells), map[p := v];
      var (run, w1) := RunGuards(host, Env(hs, f), h.guards, w);
      run.Passed? ==> RunCall(host, env, cells, h, [arg], w).1 == ExecBlock(host, hs, h.tail, f, w1).2
  {
    assert [arg][1..] == [] && [p][1..] == [] && [v] + [] == [v];
    assert EvalSeq(host, env, [arg][1..], w) == (Ok([]), w);
    assert EvalSeq(host, env, [arg], w) == (Ok([v]), w);
    assert Bind([p][1..], []) == map[];
    assert Bind([p], [v]) == map[p := v];
  }

  lemma {:induction false} BuildsOne(h: Helper, p: string, arg: Expr, strict: bool, taken: set<string>)
    requires h.params == [p]
    ensures BuildParams(h, h.params, [arg], strict, taken) == BuildParam(p, Some(arg), HelperUses(h, p), strict, taken)
  {
    var b := BuildParam(p, Some(arg), HelperUses(h, p), strict, taken);
    assert [p][1..] == [] && Rest([arg]) == [];
    assert BuildParams(h, [], [], strict, b.taken) == Built([], map[], b.taken);
    assert b.prefix + [] == b.prefix && b.sub + map[] == b.sub;
  }

  function Count(x: string, p: string): nat {
    if x == p then 1 else 0
  }

  lemma {:induction false} NamePieces(x: string, p: string, sub: map<string, Expr>)
    ensures var e := Name(x);
      && Names(e) == {x} && Called(e) == {} && Uses(e, p) == Count(x, p)
      && Subst(e, sub) == (if x in sub then sub[x] else e) && Fits(LEVEL_MEMBER, e)
    ensures ArgNames(NoArgs) == {} && ArgsCalled(NoArgs) == {} && ArgUses(NoArgs, p) == 0 && SubstArgs(NoArgs, sub) == NoArgs
    ensures Locals(Done) == {} && BlockNames(Done) == {} && BlockCalled(Done) == {} && BlockUses(Done, p) == 0
    ensures NoTwice(Done) && BlockWrites({p}, Done) && SubstBlock(Done, sub) == Done && CaptureFree(Done, sub)
  {
  }

  lemma {:induction false} ArgPieces(x: string, t: Args, p: string, sub: map<string, Expr>)
    ensures var args := Arg(Name(x), t);
      && ArgNames(args) == {x} + ArgNames(t) && ArgsCalled(args) == ArgsCalled(t) && ArgUses(args, p) == Count(x, p) + ArgUses(t, p)
      && SubstArgs(args, sub) == Arg(Subst(Name(x), sub), SubstArgs(t, sub))
  {
    NamePieces(x, p, sub);
  }

  /** A statement that is one call. */
  lemma {:induction false} CallPieces(f: string, args: Args, p: string, sub: map<string, Expr>)
    ensures var b := Then(Do(Call(Name(f), args)), Done);
      && Locals(b) == {} && NoTwice(b) && BlockWrites({p}, b)
      && BlockNames(b) == {f} + ArgNames(args) && BlockCalled(b) == {f} + ArgsCalled(args)
      && BlockUses(b, p) == Count(f, p) + ArgUses(args, p)
      && SubstBlock(b, sub) == Then(Do(Call(Subst(Name(f), sub), SubstArgs(args, sub))), Done)
  {
    var call := Call(Name(f), args);
    NamePieces(f, p, sub);
    assert Names(call) == {f} + ArgNames(args) && Called(call) == {f} + ArgsCalled(args);
    assert Uses(call, p) == Count(f, p) + ArgUses(args, p);
  }

  lemma {:induction false} OnePieces(f: string, a: string, p: string, sub: map<string, Expr>)
    ensures var b := CallOne(f, a);
      && Locals(b) == {} && BlockNames(b) == {f, a} && BlockCalled(b) == {f} && NoTwice(b)
      && BlockWrites({p}, b) && BlockUses(b, p) == Count(f, p) + Count(a, p)
      && SubstBlock(b, sub) == Then(Do(Call(Subst(Name(f), sub), Arg(Subst(Name(a), sub), NoArgs))), Done)
  {
    NamePieces(a, p, sub);
    ArgPieces(a, NoArgs, p, sub);
    CallPieces(f, Arg(Name(a), NoArgs), p, sub);
  }

  lemma {:induction false} TwoPieces(use: string, a: string, b: string, p: string, sub: map<string, Expr>)
    ensures Locals(CallTwo(use, a, b)) == {} && BlockNames(CallTwo(use, a, b)) == {use, a, b}
    ensures NoTwice(CallTwo(use, a, b)) && BlockWrites({p}, CallTwo(use, a, b))
    ensures BlockUses(CallTwo(use, a, b), p) == Count(use, p) + Count(a, p) + Count(b, p)
    ensures use !in sub && (a in sub ==> sub[a].Name?) && (b in sub ==> sub[b].Name?) ==>
      SubstBlock(CallTwo(use, a, b), sub) == CallTwo(use, Renamed(a, sub), Renamed(b, sub))
  {
    var last := Arg(Name(b), NoArgs);
    NamePieces(a, p, sub);
    NamePieces(b, p, sub);
    NamePieces(use, p, sub);
    ArgPieces(b, NoArgs, p, sub);
    ArgPieces(a, last, p, sub);
    CallPieces(use, Arg(Name(a), last), p, sub);
  }

  // ----- A temporary named as a variable -----

  /** `h(p) { use(p, __inl_p); }` */
  function TempHelper(use: string, p: string, t: string): Helper {
    Helper([p], [], CallTwo(use, p, t))
  }

  lemma {:induction false} TempBuilds(use: string, p: string, t: string, y: string, taken: set<string>)
    requires use != p && t != p && TempName(p, taken) == t && use != t
    ensures Build(TempHelper(use, p, t), [Name(y)], true, taken) ==
      Replacement([Let(t, Name(y))], None, CallTwo(use, t, t), map[p := Name(t)])
  {
    var h, sub := TempHelper(use, p, t), map[p := Name(t)];
    TwoPieces(use, p, t, p, sub);
    BuildsOne(h, p, Name(y), true, taken);
    assert RenameLocals(Done, taken + {t}) == map[];
    assert RenameLocals(h.tail, taken + {t}) == map[];
    assert sub + AsNames(map[]) == sub;
  }

  lemma {:induction false} TempReplaced(host: Host, use: string, p: string, t: string, y: string, cells: map<string, Cell>, taken: set<string>,
                                        fn: Value, u: Value, w: World)
    requires use != p && t != p && TempName(p, taken) == t && use != t && y != t
    requires Lookup(Plain(cells), use, w) == Ok(fn) && Lookup(Plain(cells), y, w) == Ok(u)
    ensures RunReplacement(host, Plain(cells), Build(TempHelper(use, p, t), [Name(y)], true, taken), w).2 == host.apply(fn, Undefined, [u, u], w).1
  {
    var r, f1 := Build(TempHelper(use, p, t), [Name(y)], true, taken), map[t := u];
    var scope := ReplacementScope(Plain(cells), r);
    TempBuilds(use, p, t, y, taken);
    TwoPieces(use, t, t, p, map[]);
    assert Prefixed(r.prefix[1..], r.tail) == r.tail;
    assert Introduced(r) == {t};
    assert Exec(host, scope, Let(t, Name(y)), map[], w) == (Normal, f1, w);
    TwoRuns(host, scope, f1, use, t, t, fn, u, u, w);
  }

  lemma {:induction false} TempAdmits(use: string, p: string, t: string, y: string, cells: map<string, Cell>, taken: set<string>)
    requires use != p && t != p && y in taken
    ensures var h := TempHelper(use, p, t);
      Locals(h.tail) == {} && Admitted(h) && SiteAdmits(Plain(cells), cells, h, [Name(y)], taken)
  {
    TwoPieces(use, p, t, p, map[]);
    assert ParamSet(TempHelper(use, p, t)) == {p};
  }

  /** The name of the temporary for `p`, unless it is taken. */
  function Temporary(p: string): (t: string)
    ensures t != p
  {
    var t := "__inl_" + p;
    assert |t| == 6 + |p|;
    t
  }

  /**
   Under strict effects the temporary for `p` takes the name of a variable the helper reads:
   `use` receives the argument twice.
   */
  lemma {:induction false} StrictTempCaptures(host: Host, use: string, p: string, y: string, taken: set<string>, fn: Value, w: World)
    requires y in taken && Temporary(p) !in taken && use != p && use != y && use != Temporary(p)
    requires w.cells == map[0 := Number(1), 1 := Number(2), 2 := fn]
    ensures var h, cells := TempHelper(use, p, Temporary(p)), map[Temporary(p) := 0, y := 1, use := 2];
      && Admitted(h) && SiteAdmits(Plain(cells), cells, h, [Name(y)], taken)
      && RunCall(host, Plain(cells), cells, h, [Name(y)], w).1 == host.apply(fn, Undefined, [Number(2), Number(1)], w).1
      && RunReplacement(host, Plain(cells), Build(h, [Name(y)], true, taken), w).2 ==
           host.apply(fn, Undefined, [Number(2), Number(2)], w).1
  {
    var t := Temporary(p);
    var h, cells := TempHelper(use, p, t), map[t := 0, y := 1, use := 2];
    TempAdmits(use, p, t, y, cells, taken);
    CallBinds(host, Plain(cells), cells, h, p, Name(y), Number(2), w);
    TwoRuns(host, HelperScope(h, cells), map[p := Number(2)], use, p, t, fn, Number(2), Number(1), w);
    TempReplaced(host, use, p, t, y, cells, taken, fn, Number(2), w);
  }

  // ----- A temporary named as a function -----

  /** `h(p) { __inl_p(p); }` */
  function CalleeHelper(p: string, t: string): Helper {
    Helper([p], [], CallOne(t, p))
  }

  lemma {:induction false} CalleeBuilds(p: string, t: string, y: string, taken: set<string>)
    requires t != p && TempName(p, taken) == t
    ensures Build(CalleeHelper(p, t), [Name(y)], true, taken) == Replacement([Let(t, Name(y))], None, CallOne(t, t), map[p := Name(t)])
  {
    var h, sub := CalleeHelper(p, t), map[p := Name(t)];
    OnePieces(t, p, p, sub);
    NamePieces(t, p, sub);
    BuildsOne(h, p, Name(y), true, taken);
    assert RenameLocals(Done, taken + {t}) == map[];
    assert RenameLocals(h.tail, taken + {t}) == map[];
    assert sub + AsNames(map[]) == sub;
  }

  lemma {:induction false} CalleeReplaced(host: Host, p: string, t: string, y: string, cells: map<string, Cell>, taken: set<string>, v: Value, w: World)
    requires t != p && TempName(p, taken) == t && y != t && Lookup(Plain(cells), y, w) == Ok(v)
    ensures var r := Build(CalleeHelper(p, t), [Name(y)], true, taken);
      Introduced(r) == {t} && RunReplacement(host, Plain(cells), r, w).2 == host.apply(v, Undefined, [v], w).1
  {
    var r, f1 := Build(CalleeHelper(p, t), [Name(y)], true, taken), map[t := v];
    var scope := ReplacementScope(Plain(cells), r);
    CalleeBuilds(p, t, y, taken);
    OnePieces(t, t, p, map[]);
    assert Prefixed(r.prefix[1..], r.tail) == r.tail;
    assert Introduced(r) == {t};
    assert Exec(host, scope, Let(t, Name(y)), map[], w) == (Normal, f1, w);
    OneRuns(host, scope, f1, t, t, v, v, w);
  }

  lemma {:induction false} CalleeAdmits(p: string, t: string, y: string, cells: map<string, Cell>, taken: set<string>)
    requires t != p && y in taken
    ensures var h := CalleeHelper(p, t);
      Admitted(h) && t in Free(h) && SiteAdmits(Plain(cells), cells, h, [Name(y)], taken)
  {
    OnePieces(t, p, p, map[]);
    assert ParamSet(CalleeHelper(p, t)) == {p};
  }

  /** Under strict effects the temporary takes the name of a function the helper calls: the argument is called instead. */
  lemma {:induction false} StrictCalleeCaptures(host: Host, p: string, y: string, taken: set<string>, fn: Value, v: Value, w: World)
    requires y in taken && Temporary(p) !in taken
    requires w.cells == map[0 := fn, 1 := v]
    ensures var h, cells := CalleeHelper(p, Temporary(p)), map[Temporary(p) := 0, y := 1];
      && Admitted(h) && SiteAdmits(Plain(cells), cells, h, [Name(y)], taken)
      && !NoCapture(h, Build(h, [Name(y)], true, taken))
      && RunCall(host, Plain(cells), cells, h, [Name(y)], w).1 == host.apply(fn, Undefined, [v], w).1
      && RunReplacement(host, Plain(cells), Build(h, [Name(y)], true, taken), w).2 == host.apply(v, Undefined, [v], w).1
  {
    var t := Temporary(p);
    var h, cells := CalleeHelper(p, t), map[t := 0, y := 1];
    OnePieces(t, p, p, map[]);
    CalleeAdmits(p, t, y, cells, taken);
    CallBinds(host, Plain(cells), cells, h, p, Name(y), v, w);
    OneRuns(host, HelperScope(h, cells), map[p := v], t, p, fn, v, w);
    CalleeReplaced(host, p, t, y, cells, taken, v, w);
  }

  // ----- A local of a guarded tail -----

  /** `h(p) { if (g) return; const y = 1; use(p, y); }` */
  function GuardedHelper(use: string, p: string, g: string, y: string): Helper {
    Helper([p], [Name(g)], Shadow(use, p, y))
  }

  predicate AllApart(a: string, b: string, c: string, d: string) {
    a != b && a != c && a != d && b != c && b != d && c != d
  }

  lemma {:induction false} ShadowPieces(use: string, p: string, y: string)
    requires p != y && use != p && use != y
    ensures BlockUses(Shadow(use, p, y), p) == 1 && SubstBlock(Shadow(use, p, y), map[p := Name(y)]) == Shadow(use, y, y)
    ensures Locals(Shadow(use, p, y)) == {y} && NoTwice(Shadow(use, p, y)) && BlockWrites({p}, Shadow(use, p, y))
  {
    TwoPieces(use, p, y, p, map[p := Name(y)]);
  }

  lemma {:induction false} GuardedBuilds(use: string, p: string, g: string, y: string, taken: set<string>)
    requires AllApart(use, p, g, y)
    ensures var sub := map[p := Name(y)];
      Build(GuardedHelper(use, p, g, y), [Name(y)], false, taken) ==
        Replacement([], Some(CombineGuards([Name(g)], sub)), Shadow(use, y, y), sub)
  {
    ShadowPieces(use, p, y);
    assert [Name(g)][1..] == [] && GuardUses([], p) == 0;
    assert HelperUses(GuardedHelper(use, p, g, y), p) == 1;
    BuildsOne(GuardedHelper(use, p, g, y), p, Name(y), false, taken);
  }

  /** By default the local of a guarded tail captures the argument left in place: `use` receives 1 twice. */
  lemma {:induction false} GuardedLocalCaptures(host: Host, use: string, p: string, g: string, y: string, taken: set<string>, fn: Value, w: World)
    requires AllApart(use, p, g, y) && y in taken
    requires w.cells == map[0 := Bool(false), 1 := Number(2), 2 := fn]
    ensures var h, cells := GuardedHelper(use, p, g, y), map[g := 0, y := 1, use := 2];
      && Admitted(h) && SiteAdmits(Plain(cells), cells, h, [Name(y)], taken)
      && RunCall(host, Plain(cells), cells, h, [Name(y)], w).1 == host.apply(fn, Undefined, [Number(2), Number(1)], w).1
      && RunReplacement(host, Plain(cells), Build(h, [Name(y)], false, taken), w).2 ==
           host.apply(fn, Undefined, [Number(1), Number(1)], w).1
  {
    var h, cells, f := GuardedHelper(use, p, g, y), map[g := 0, y := 1, use := 2], map[p := Number(2)];
    GuardedAdmits(use, p, g, y, cells, taken);
    ThreeCells(g, y, use, w);
    var env := Env(HelperScope(h, cells), f);
    assert Eval(host, env, Name(g), w) == (Ok(Bool(false)), w);
    assert RunGuards(host, env, [Name(g)][1..], w) == (Passed, w);
    CallBinds(host, Plain(cells), cells, h, p, Name(y), Number(2), w);
    ShadowRuns(host, env.scope, f, use, p, y, fn, w);
    GuardedReplaced(host, use, p, g, y, cells, taken, fn, w);
  }

  lemma {:induction false} GuardedAdmits(use: string, p: string, g: string, y: string, cells: map<string, Cell>, taken: set<string>)
    requires AllApart(use, p, g, y) && y in taken
    ensures var h := GuardedHelper(use, p, g, y);
      Locals(h.tail) == {y} && Admitted(h) && SiteAdmits(Plain(cells), cells, h, [Name(y)], taken)
  {
    var h := GuardedHelper(use, p, g, y);
    ShadowPieces(use, p, y);
    assert ParamSet(h) == {p};
    assert [Name(g)][1..] == [] && GuardNames([Name(g)]) == {g};
  }

  lemma {:induction false} GuardedReplaced(host: Host, use: string, p: string, g: string, y: string, cells: map<string, Cell>, taken: set<string>,
                                           fn: Value, w: World)
    requires AllApart(use, p, g, y)
    requires Lookup(Plain(cells), g, w) == Ok(Bool(false)) && Lookup(Plain(cells), use, w) == Ok(fn)
    ensures RunReplacement(host, Plain(cells), Build(GuardedHelper(use, p, g, y), [Name(y)], false, taken), w).2 ==
      host.apply(fn, Undefined, [Number(1), Number(1)], w).1
  {
    var sub, env := map[p := Name(y)], Plain(cells);
    var r := Build(GuardedHelper(use, p, g, y), [Name(y)], false, taken);
    GuardedBuilds(use, p, g, y, taken);
    GuardReadsBack(p, g, y);
    assert Introduced(r) == {};
    var scope := ReplacementScope(env, r);
    assert scope == env.scope;
    NegationHolds(host, env, g, w);
    assert ExecBlock(host, scope, Prefixed([], Done), map[], w) == (Normal, map[], w);
    TwoPieces(use, y, y, y, map[]);
    assert Locals(r.tail) == {y};
    ShadowRuns(host, Within(scope, r.tail), env.frame - Locals(r.tail), use, y, y, fn, w);
  }

  lemma {:induction false} GuardReadsBack(p: string, g: string, y: string)
    requires p != g
    ensures ParseAll(CombineGuards([Name(g)], map[p := Name(y)])) == Some(Not(Paren(Name(g))))
  {
    var sub := map[p := Name(y)];
    ConditionReadsBack([Name(g)], sub);
    assert NegatedTree(Name(g), sub) == Not(Paren(Name(g)));
  }

  lemma {:induction false} NegationHolds(host: Host, env: Env, g: string, w: World)
    requires Lookup(env, g, w) == Ok(Bool(false))
    ensures Eval(host, env, Not(Paren(Name(g))), w) == (Ok(Bool(true)), w)
  {
    assert Eval(host, env, Name(g), w) == (Ok(Bool(false)), w);
    assert Eval(host, env, Paren(Name(g)), w) == (Ok(Bool(false)), w);
  }

  // ----- A local of a branch -----

  /** `h(p) { if (c) { const y = 1; use(p, y); } }` */
  function BranchHelper(use: string, p: string, c: string, y: string): Helper {
    Helper([p], [], Then(If(Name(c), Shadow(use, p, y), Done), Done))
  }

  lemma {:induction false} BranchBuilds(use: string, p: string, c: string, y: string, taken: set<string>)
    requires AllApart(use, p, c, y)
    ensures Build(BranchHelper(use, p, c, y), [Name(y)], false, taken) ==
      Replacement([], None, Then(If(Name(c), Shadow(use, y, y), Done), Done), map[p := Name(y)])
  {
    var h, b, sub := BranchHelper(use, p, c, y), Shadow(use, p, y), map[p := Name(y)];
    ShadowPieces(use, p, y);
    assert Locals(Done) == {};
    assert sub - Locals(b) == sub && sub - Locals(Done) == sub;
    BuildsOne(h, p, Name(y), false, taken);
    assert BlockUses(Done, p) == 0;
    assert StmtUses(h.tail.s, p) == 1;
    assert HelperUses(h, p) == 1;
    assert RenameLocals(Done, taken) == map[];
    assert RenameLocals(h.tail, taken) == map[];
    assert SubstBlock(Done, sub) == Done;
    assert SubstBlock(h.tail, sub) == Then(If(Name(c), Shadow(use, y, y), Done), Done);
    assert sub + AsNames(map[]) == sub;
  }

  /** By default the local of a branch captures the argument too, and no renaming looks at it. */
  lemma {:induction false} BranchLocalCaptures(host: Host, use: string, p: string, c: string, y: string, taken: set<string>, fn: Value, w: World)
    requires AllApart(use, p, c, y) && y in taken
    requires w.cells == map[0 := Bool(true), 1 := Number(2), 2 := fn]
    ensures var h, cells := BranchHelper(use, p, c, y), map[c := 0, y := 1, use := 2];
      && Admitted(h) && SiteAdmits(Plain(cells), cells, h, [Name(y)], taken)
      && RunCall(host, Plain(cells), cells, h, [Name(y)], w).1 == host.apply(fn, Undefined, [Number(2), Number(1)], w).1
      && RunReplacement(host, Plain(cells), Build(h, [Name(y)], false, taken), w).2 ==
           host.apply(fn, Undefined, [Number(1), Number(1)], w).1
  {
    var cells := map[c := 0, y := 1, use := 2];
    BranchAdmits(use, p, c, y, cells, taken);
    ThreeCells(c, y, use, w);
    BranchCalled(host, use, p, c, y, cells, fn, Number(2), w);
    BranchReplaced(host, use, p, c, y, cells, taken, fn, w);
  }

  lemma {:induction false} BranchCalled(host: Host, use: string, p: string, c: string, y: string, cells: map<string, Cell>, fn: Value, u: Value, w: World)
    requires AllApart(use, p, c, y)
    requires Lookup(Plain(cells), c, w) == Ok(Bool(true)) && Lookup(Plain(cells), use, w) == Ok(fn) && Lookup(Plain(cells), y, w) == Ok(u)
    ensures RunCall(host, Plain(cells), cells, BranchHelper(use, p, c, y), [Name(y)], w).1 == host.apply(fn, Undefined, [u, Number(1)], w).1
  {
    var h := BranchHelper(use, p, c, y);
    assert Locals(h.tail) == Locals(Done);
    CallBinds(host, Plain(cells), cells, h, p, Name(y), u, w);
    BranchRuns(host, HelperScope(h, cells), map[p := u], use, p, c, y, fn, w);
  }

  lemma {:induction false} BranchReplaced(host: Host, use: string, p: string, c: string, y: string, cells: map<string, Cell>, taken: set<string>, fn: Value, w: World)
    requires AllApart(use, p, c, y)
    requires Lookup(Plain(cells), c, w) == Ok(Bool(true)) && Lookup(Plain(cells), use, w) == Ok(fn)
    ensures RunReplacement(host, Plain(cells), Build(BranchHelper(use, p, c, y), [Name(y)], false, taken), w).2 ==
      host.apply(fn, Undefined, [Number(1), Number(1)], w).1
  {
    var r := Build(BranchHelper(use, p, c, y), [Name(y)], false, taken);
    BranchBuilds(use, p, c, y, taken);
    assert Locals(r.tail) == Locals(Done);
    BranchRuns(host, ReplacementScope(Plain(cells), r), map[], use, y, c, y, fn, w);
  }

  lemma {:induction false} BranchAdmits(use: string, p: string, c: string, y: string, cells: map<string, Cell>, taken: set<string>)
    requires AllApart(use, p, c, y) && y in taken
    ensures var h := BranchHelper(use, p, c, y);
      Locals(h.tail) == {} && Admitted(h) && SiteAdmits(Plain(cells), cells, h, [Name(y)], taken)
  {
    var h, b := BranchHelper(use, p, c, y), Shadow(use, p, y);
    ShadowPieces(use, p, y);
    assert ParamSet(h) == {p} && {p} - Locals(b) == {p} && {p} - Locals(Done) == {p};
    assert BlockWrites({p}, Done) && NoTwice(Done) && Locals(h.tail) == Locals(Done);
    assert StmtWrites({p}, h.tail.s);
    assert BlockWrites({p}, h.tail);
  }

  lemma {:induction false} BranchRuns(host: Host, scope: Scope, f: Frame, use: string, a: string, c: string, y: string, fn: Value, w: World)
    requires use != y && use !in f && use !in scope.declared
    requires Lookup(Env(scope, f), use, w) == Ok(fn) && Lookup(Env(scope, f), c, w) == Ok(Bool(true)) && (a != y ==> a in f)
    ensures ExecBlock(host, scope, Then(If(Name(c), Shadow(use, a, y), Done), Done), f, w).2 ==
      host.apply(fn, Undefined, [if a == y then Number(1) else f[a], Number(1)], w).1
  {
    var b := Shadow(use, a, y);
    TwoPieces(use, a, y, a, map[]);
    assert Locals(b) == {y};
    ShadowRuns(host, Within(scope, b), f - Locals(b), use, a, y, fn, w);
    var run := Exec(host, scope, If(Name(c), b, Done), f, w);
    assert Eval(host, Env(scope, f), Name(c), w) == (Ok(Bool(true)), w);
    assert run == ExecBranch(host, scope, b, f, w);
  }

  // ----- A free name the shadow check misses -----

  /** `h() { if (c) { const y = 1; } use(y); }` */
  function MissedHelper(use: string, c: string, y: string): Helper {
    Helper([], [], Then(If(Name(c), Then(Let(y, Lit(Number(1))), Done), Done), CallOne(use, y)))
  }

  lemma {:induction false} MissedRuns(host: Host, scope: Scope, f: Frame, use: string, c: string, y: string, fn: Value, v: Value, w: World)
    requires Lookup(Env(scope, f), c, w) == Ok(Bool(false)) && Lookup(Env(scope, f), use, w) == Ok(fn) && Lookup(Env(scope, f), y, w) == Ok(v)
    ensures ExecBlock(host, scope, MissedHelper(use, c, y).tail, f, w).2 == host.apply(fn, Undefined, [v], w).1
  {
    var s := MissedHelper(use, c, y).tail.s;
    assert Eval(host, Env(scope, f), Name(c), w) == (Ok(Bool(false)), w);
    assert f - {} == f && Leave(f, f, {}) == f;
    assert ExecBranch(host, scope, Done, f, w) == (Normal, f, w);
    assert Exec(host, scope, s, f, w) == (Normal, f, w);
    OneRuns(host, scope, f, use, y, fn, v, w);
  }

  /**
   The caller has a `y` of its own. The shadow check does not look for `y`, because a branch of the
   helper declares it, and `use` receives the caller's `y` instead of the module's.
   */
  lemma {:induction false} ShadowedFreeName(host: Host, use: string, c: string, y: string, taken: set<string>, fn: Value, w: World)
    requires use != c && use != y && c != y && y in taken
    requires w.cells == map[0 := Bool(false), 1 := Number(1), 2 := fn]
    ensures var h, module_ := MissedHelper(use, c, y), map[c := 0, y := 1, use := 2];
      var env := Env(Scope({y}, module_), map[y := Number(2)]);
      && Admitted(h) && ComputedFree(h) !! {y} && y in Free(h)
      && RunCall(host, env, module_, h, [], w).1 == host.apply(fn, Undefined, [Number(1)], w).1
      && RunReplacement(host, env, Build(h, [], false, taken), w).2 == host.apply(fn, Undefined, [Number(2)], w).1
  {
    var h, module_ := MissedHelper(use, c, y), map[c := 0, y := 1, use := 2];
    var env := Env(Scope({y}, module_), map[y := Number(2)]);
    MissedPieces(use, c, y, taken);
    assert EvalSeq(host, env, [], w) == (Ok([]), w) && Bind([], []) == map[];
    assert RunGuards(host, Env(HelperScope(h, module_), map[]), [], w) == (Passed, w);
    MissedRuns(host, HelperScope(h, module_), map[], use, c, y, fn, Number(1), w);
    var r := Build(h, [], false, taken);
    assert Introduced(r) == {};
    MissedRuns(host, ReplacementScope(env, r), env.frame, use, c, y, fn, Number(2), w);
  }

  lemma {:induction false} MissedPieces(use: string, c: string, y: string, taken: set<string>)
    requires use != c && use != y && c != y
    ensures var h := MissedHelper(use, c, y);
      && Locals(h.tail) == {} && Admitted(h) && y in Free(h) && y in Declared(h.tail)
      && Build(h, [], false, taken) == Replacement([], None, h.tail, map[])
  {
    var h, b := MissedHelper(use, c, y), Then(Let(y, Lit(Number(1))), Done);
    OnePieces(use, y, y, map[]);
    assert Locals(Done) == {} && Locals(b) == {y} && BlockNames(Done) == {} && BlockNames(b) == {y};
    assert BranchNames(b) == {} && StmtNames(h.tail.s) == {c};
    assert ParamSet(h) == {} && {} - Locals(b) == {};
    assert BlockWrites({}, Done) && BlockWrites({}, b) && BlockWrites({}, h.tail.rest);
    assert Declared(Done) == {} && Declared(b) == {y} && Declared(h.tail) == {y} + Declared(h.tail.rest);
    assert BuildParams(h, [], [], false, taken) == Built([], map[], taken);
    assert RenameLocals(Done, taken) == map[] && RenameLocals(h.tail.rest, taken) == map[] && RenameLocals(h.tail, taken) == map[];
    assert map[] + AsNames(map[]) == map[];
    SubstBlockNothing(h.tail);
  }

  lemma {:induction false} SubstBlockNothing(b: Block)
    ensures SubstBlock(b, map[]) == b
    decreases b
  {
    match b
    case Done =>
    case Then(s, rest) =>
      SubstBlockNothing(rest);
      match s {
        case Do(e) => SubstNothing(e);
        case Let(_, e) => SubstNothing(e);
        case Set(_, e) => SubstNothing(e);
        case If(c, t, e) =>
          SubstNothing(c);
          SubstBlockNothing(t);
          SubstBlockNothing(e);
          var none: map<string, Expr> := map[];
          assert none - Locals(t) == map[] && none - Locals(e) == map[];
      }
  }

  // ----- A parameter called as a method -----

  /** `h(p) { p(); }` */
  function CallingHelper(p: string): Helper {
    Helper([p], [], Then(Do(Call(Name(p), NoArgs)), Done))
  }

  lemma {:induction false} CallingPieces(p: string, o: string, m: string, taken: set<string>)
    ensures var h, arg := CallingHelper(p), Get(Name(o), m);
      && Locals(h.tail) == {} && Admitted(h) && Free(h) == {} && HelperCalled(h) == {p}
      && Build(h, [arg], false, taken) == Replacement([], None, Then(Do(Call(arg, NoArgs)), Done), map[p := arg])
  {
    var h, arg := CallingHelper(p), Get(Name(o), m);
    var sub := map[p := arg];
    NamePieces(p, p, sub);
    CallPieces(p, NoArgs, p, sub);
    assert ParamSet(h) == {p} && HelperUses(h, p) == 1;
    assert IsPure(Name(o), false) && IsPure(arg, false);
    BuildsOne(h, p, arg, false, taken);
    assert RenameLocals(Done, taken) == map[] && RenameLocals(h.tail, taken) == map[];
    assert sub + AsNames(map[]) == sub;
  }

  /**
   `h(o.m)` becomes `o.m();`: the function the helper calls plainly is called as a method and
   receives `o`.
   */
  lemma {:induction false} MethodGetsReceiver(host: Host, p: string, o: string, m: string, taken: set<string>, obj: Value, fn: Value, w: World)
    requires o in taken && w.cells == map[0 := obj] && host.get(obj, m, w) == (Ok(fn), w)
    ensures var h, cells, arg := CallingHelper(p), map[o := 0], Get(Name(o), m);
      && Admitted(h) && SiteAdmits(Plain(cells), cells, h, [arg], taken)
      && NoCapture(h, Build(h, [arg], false, taken)) && !NoReceiver(h, Build(h, [arg], false, taken))
      && RunCall(host, Plain(cells), cells, h, [arg], w).1 == host.apply(fn, Undefined, [], w).1
      && RunReplacement(host, Plain(cells), Build(h, [arg], false, taken), w).2 == host.apply(fn, obj, [], w).1
  {
    var h, cells, arg := CallingHelper(p), map[o := 0], Get(Name(o), m);
    var r := Build(h, [arg], false, taken);
    CallingPieces(p, o, m, taken);
    NamePieces(o, o, map[]);
    assert Names(arg) == {o} && Fits(LEVEL_OR, arg) && Method(arg);
    assert Introduced(r) == {};
    assert CaptureFree(Done, r.sub) && CaptureFree(h.tail, r.sub);
    assert Eval(host, Plain(cells), Name(o), w) == (Ok(obj), w);
    CallBinds(host, Plain(cells), cells, h, p, arg, fn, w);
    assert EvalArgs(host, Env(HelperScope(h, cells), map[p := fn]), NoArgs, w) == (Ok([]), w);
    CallRuns(host, HelperScope(h, cells), map[p := fn], p, NoArgs, fn, [], w);
    MethodRuns(host, ReplacementScope(Plain(cells), r), o, m, obj, fn, w);
  }

  lemma {:induction false} MethodRuns(host: Host, scope: Scope, o: string, m: string, obj: Value, fn: Value, w: World)
    requires Lookup(Env(scope, map[]), o, w) == Ok(obj) && host.get(obj, m, w) == (Ok(fn), w)
    ensures ExecBlock(host, scope, Then(Do(Call(Get(Name(o), m), NoArgs)), Done), map[], w).2 == host.apply(fn, obj, [], w).1
  {
    var env, arg := Env(scope, map[]), Get(Name(o), m);
    assert Eval(host, env, Name(o), w) == (Ok(obj), w);
    assert EvalCallee(host, env, arg, w) == (Ok(Callee(fn, obj)), w);
    assert EvalArgs(host, env, NoArgs, w) == (Ok([]), w);
    assert Eval(host, env, Call(arg, NoArgs), w) == host.apply(fn, obj, [], w);
  }

  // ----- An argument read too late -----

  /** `touch(); use(a);` */
  function TouchThenUse(touch: string, use: string, a: string): Block {
    Then(Do(Call(Name(touch), NoArgs)), CallOne(use, a))
  }

  lemma {:induction false} TouchPieces(touch: string, use: string, a: string, p: string, sub: map<string, Expr>)
    requires touch !in sub && use !in sub && (a in sub ==> sub[a].Name?) && p != touch && p != use
    ensures var b := TouchThenUse(touch, use, a);
      && BlockUses(b, p) == Count(a, p) && Locals(b) == {} && BlockNames(b) == {touch, use, a} && BlockCalled(b) == {touch, use}
      && NoTwice(b) && BlockWrites({p}, b) && SubstBlock(b, sub) == TouchThenUse(touch, use, Renamed(a, sub))
  {
    var call := Call(Name(touch), NoArgs);
    NamePieces(touch, p, sub);
    NamePieces(use, p, sub);
    NamePieces(a, p, sub);
    OnePieces(use, a, p, sub);
    CallPieces(touch, NoArgs, p, sub);
    assert Names(call) == {touch} && Called(call) == {touch} && Uses(call, p) == 0 && Subst(call, sub) == call;
  }

  lemma {:induction false} TouchRuns(host: Host, scope: Scope, f: Frame, touch: string, use: string, a: string, w: World, w1: World,
                                     toucher: Value, fn: Value, ok: Value, u: Value)
    requires Lookup(Env(scope, f), touch, w) == Ok(toucher) && host.apply(toucher, Undefined, [], w) == (Ok(ok), w1)
    requires Lookup(Env(scope, f), use, w1) == Ok(fn) && Lookup(Env(scope, f), a, w1) == Ok(u)
    ensures ExecBlock(host, scope, TouchThenUse(touch, use, a), f, w).2 == host.apply(fn, Undefined, [u], w1).1
  {
    var env := Env(scope, f);
    assert EvalArgs(host, env, NoArgs, w) == (Ok([]), w);
    assert Eval(host, env, Name(touch), w) == (Ok(toucher), w);
    assert EvalCallee(host, env, Name(touch), w) == (Ok(Callee(toucher, Undefined)), w);
    assert Exec(host, scope, Do(Call(Name(touch), NoArgs)), f, w) == (Normal, f, w1);
    OneRuns(host, scope, f, use, a, fn, u, w1);
  }

  /**
   `h(p) { touch(); use(p); }` on `h(y)`, where `touch` assigns `y`: by default the variable is
   read after the call, and `use` receives its new value.
   */
  lemma {:induction false} LateReadFails(host: Host, touch: string, use: string, p: string, y: string, w: World, w1: World,
                                         toucher: Value, fn: Value, ok: Value)
    requires AllApart(touch, use, p, y)
    requires w.cells == map[0 := Number(1), 1 := toucher, 2 := fn] && w1.cells == map[0 := Number(2), 1 := toucher, 2 := fn]
    requires host.apply(toucher, Undefined, [], w) == (Ok(ok), w1)
    ensures var h, cells, taken := Helper([p], [], TouchThenUse(touch, use, p)), map[y := 0, touch := 1, use := 2], {y};
      && Admitted(h) && SiteAdmits(Plain(cells), cells, h, [Name(y)], taken)
      && NoCapture(h, Build(h, [Name(y)], false, taken)) && NoReceiver(h, Build(h, [Name(y)], false, taken))
      && RunCall(host, Plain(cells), cells, h, [Name(y)], w).1 == host.apply(fn, Undefined, [Number(1)], w1).1
      && RunReplacement(host, Plain(cells), Build(h, [Name(y)], false, taken), w).2 == host.apply(fn, Undefined, [Number(2)], w1).1
  {
    var cells := map[y := 0, touch := 1, use := 2];
    TouchAdmits(touch, use, p, y, cells);
    ThreeCells(y, touch, use, w);
    ThreeCells(y, touch, use, w1);
    TouchCalled(host, touch, use, p, y, cells, w, w1, toucher, fn, ok, Number(1));
    TouchReplaced(host, touch, use, p, y, cells, w, w1, toucher, fn, ok, Number(2));
  }

  lemma {:induction false} TouchCalled(host: Host, touch: string, use: string, p: string, y: string, cells: map<string, Cell>, w: World, w1: World,
                                       toucher: Value, fn: Value, ok: Value, u: Value)
    requires AllApart(touch, use, p, y) && host.apply(toucher, Undefined, [], w) == (Ok(ok), w1)
    requires Lookup(Plain(cells), touch, w) == Ok(toucher) && Lookup(Plain(cells), y, w) == Ok(u) && Lookup(Plain(cells), use, w1) == Ok(fn)
    ensures var h := Helper([p], [], TouchThenUse(touch, use, p));
      RunCall(host, Plain(cells), cells, h, [Name(y)], w).1 == host.apply(fn, Undefined, [u], w1).1
  {
    var h := Helper([p], [], TouchThenUse(touch, use, p));
    TouchPieces(touch, use, p, p, map[]);
    CallBinds(host, Plain(cells), cells, h, p, Name(y), u, w);
    TouchRuns(host, HelperScope(h, cells), map[p := u], touch, use, p, w, w1, toucher, fn, ok, u);
  }

  lemma {:induction false} TouchReplaced(host: Host, touch: string, use: string, p: string, y: string, cells: map<string, Cell>, w: World, w1: World,
                                         toucher: Value, fn: Value, ok: Value, u: Value)
    requires AllApart(touch, use, p, y) && host.apply(toucher, Undefined, [], w) == (Ok(ok), w1)
    requires Lookup(Plain(cells), touch, w) == Ok(toucher) && Lookup(Plain(cells), y, w1) == Ok(u) && Lookup(Plain(cells), use, w1) == Ok(fn)
    ensures var h := Helper([p], [], TouchThenUse(touch, use, p));
      RunReplacement(host, Plain(cells), Build(h, [Name(y)], false, {y}), w).2 == host.apply(fn, Undefined, [u], w1).1
  {
    var r := Build(Helper([p], [], TouchThenUse(touch, use, p)), [Name(y)], false, {y});
    TouchAdmits(touch, use, p, y, cells);
    TouchPieces(touch, use, y, p, map[]);
    assert Introduced(r) == {};
    TouchRuns(host, ReplacementScope(Plain(cells), r), map[], touch, use, y, w, w1, toucher, fn, ok, u);
  }

  lemma {:induction false} TouchAdmits(touch: string, use: string, p: string, y: string, cells: map<string, Cell>)
    requires AllApart(touch, use, p, y)
    ensures var h, sub := Helper([p], [], TouchThenUse(touch, use, p)), map[p := Name(y)];
      var r := Build(h, [Name(y)], false, {y});
      && Locals(h.tail) == {} && Admitted(h) && SiteAdmits(Plain(cells), cells, h, [Name(y)], {y})
      && r == Replacement([], None, TouchThenUse(touch, use, y), sub) && NoCapture(h, r) && NoReceiver(h, r)
  {
    var h, sub := Helper([p], [], TouchThenUse(touch, use, p)), map[p := Name(y)];
    TouchPieces(touch, use, p, p, sub);
    TouchPieces(touch, use, y, p, map[]);
    assert ParamSet(h) == {p};
    assert HelperUses(h, p) == 1;
    BuildsOne(h, p, Name(y), false, {y});
    assert RenameLocals(Done, {y}) == map[] && RenameLocals(h.tail.rest, {y}) == map[];
    assert RenameLocals(h.tail, {y}) == map[];
    assert sub + AsNames(map[]) == sub;
    assert CaptureFree(Done, sub);
    assert CaptureFree(h.tail.rest, sub);
  }

  // ----- An argument overtaken by a later one -----

  /** `h(p, q) { use(p, q); }` */
  function PairHelper(use: string, p: string, q: string): Helper {
    Helper([p, q], [], CallTwo(use, p, q))
  }

  /** `h(y, bump())` */
  function PairArgs(y: string, bump: string): seq<Expr> {
    [Name(y), Call(Name(bump), NoArgs)]
  }

  lemma {:induction false} PairBuilds(use: string, p: string, q: string, y: string, bump: string, t: string, taken: set<string>)
    requires use != p && use != q && p != q && t == TempName(q, taken)
    ensures Build(PairHelper(use, p, q), PairArgs(y, bump), false, taken) ==
      Replacement([Let(t, Call(Name(bump), NoArgs))], None, CallTwo(use, y, t), map[p := Name(y), q := Name(t)])
  {
    var h, args, last := PairHelper(use, p, q), PairArgs(y, bump), [Call(Name(bump), NoArgs)];
    var sub := map[p := Name(y), q := Name(t)];
    TwoPieces(use, p, q, p, sub);
    TwoPieces(use, p, q, q, sub);
    assert HelperUses(h, p) == 1 && HelperUses(h, q) == 1;
    assert h.params[1..] == [q] && [q][1..] == [] && Rest(args) == last && Rest(last) == [];
    assert BuildParam(p, Some(Name(y)), 1, false, taken) == Built([], map[p := Name(y)], taken);
    assert BuildParam(q, Some(last[0]), 1, false, taken) == Built([Let(t, last[0])], map[q := Name(t)], taken + {t});
    assert BuildParams(h, [], [], false, taken + {t}) == Built([], map[], taken + {t});
    assert BuildParams(h, [q], last, false, taken) == Built([Let(t, last[0])], map[q := Name(t)], taken + {t});
    assert map[p := Name(y)] + map[q := Name(t)] == sub;
    assert BuildParams(h, h.params, args, false, taken) == Built([Let(t, last[0])], sub, taken + {t});
    assert RenameLocals(Done, taken + {t}) == map[] && RenameLocals(h.tail, taken + {t}) == map[];
    assert sub + AsNames(map[]) == sub;
  }

  /** `bump();` calls a function of no arguments. */
  lemma {:induction false} BumpRuns(host: Host, env: Env, bump: string, bumper: Value, w: World)
    requires Lookup(env, bump, w) == Ok(bumper)
    ensures Eval(host, env, Call(Name(bump), NoArgs), w) == host.apply(bumper, Undefined, [], w)
  {
    assert Eval(host, env, Name(bump), w) == (Ok(bumper), w);
    assert EvalCallee(host, env, Name(bump), w) == (Ok(Callee(bumper, Undefined)), w);
    assert EvalArgs(host, env, NoArgs, w) == (Ok([]), w);
  }

  lemma {:induction false} PairCalled(host: Host, use: string, p: string, q: string, y: string, bump: string, cells: map<string, Cell>,
                                      w: World, w1: World, bumper: Value, fn: Value, u: Value, v: Value)
    requires use != p && use != q && p != q && host.apply(bumper, Undefined, [], w) == (Ok(v), w1)
    requires Lookup(Plain(cells), y, w) == Ok(u) && Lookup(Plain(cells), bump, w) == Ok(bumper) && Lookup(Plain(cells), use, w1) == Ok(fn)
    ensures RunCall(host, Plain(cells), cells, PairHelper(use, p, q), PairArgs(y, bump), w).1 == host.apply(fn, Undefined, [u, v], w1).1
  {
    var h, args, last, env := PairHelper(use, p, q), PairArgs(y, bump), [Call(Name(bump), NoArgs)], Plain(cells);
    BumpRuns(host, env, bump, bumper, w);
    assert args[1..] == last && last[1..] == [] && [v] + [] == [v] && [u] + [v] == [u, v];
    assert EvalSeq(host, env, [], w1) == (Ok([]), w1);
    assert EvalSeq(host, env, last, w) == (Ok([v]), w1);
    assert EvalSeq(host, env, args, w) == (Ok([u, v]), w1);
    assert [p, q][1..] == [q] && [q][1..] == [] && [u, v][1..] == [v] && [v][1..] == [];
    assert Bind([], []) == map[] && Bind([q], [v]) == map[q := v];
    var f := map[q := v][p := u];
    assert Bind([p, q], [u, v]) == f;
    assert RunGuards(host, Env(HelperScope(h, cells), f), [], w1) == (Passed, w1);
    TwoPieces(use, p, q, p, map[]);
    TwoRuns(host, HelperScope(h, cells), f, use, p, q, fn, u, v, w1);
  }

  lemma {:induction false} PairReplaced(host: Host, use: string, p: string, q: string, y: string, bump: string, t: string, cells: map<string, Cell>,
                                        taken: set<string>, w: World, w1: World, bumper: Value, fn: Value, u: Value, v: Value)
    requires use != p && use != q && p != q && t == TempName(q, taken) && t != y && t != use && t != bump
    requires host.apply(bumper, Undefined, [], w) == (Ok(v), w1)
    requires Lookup(Plain(cells), bump, w) == Ok(bumper) && Lookup(Plain(cells), y, w1) == Ok(u) && Lookup(Plain(cells), use, w1) == Ok(fn)
    ensures RunReplacement(host, Plain(cells), Build(PairHelper(use, p, q), PairArgs(y, bump), false, taken), w).2 ==
      host.apply(fn, Undefined, [u, v], w1).1
  {
    var r, f1 := Build(PairHelper(use, p, q), PairArgs(y, bump), false, taken), map[t := v];
    var scope := ReplacementScope(Plain(cells), r);
    PairBuilds(use, p, q, y, bump, t, taken);
    TwoPieces(use, y, t, p, map[]);
    assert Prefixed(r.prefix[1..], r.tail) == r.tail;
    assert Introduced(r) == {t};
    BumpRuns(host, Env(scope, map[]), bump, bumper, w);
    assert Exec(host, scope, r.prefix[0], map[], w) == (Normal, f1, w1);
    TwoRuns(host, scope, f1, use, y, t, fn, u, v, w1);
  }

  /**
   `h(y, bump())`, where `bump` assigns `y`: by default the call is made in front and `y` is read
   after it, where the call has read `y` before.
   */
  lemma {:induction false} LaterArgumentOvertakes(host: Host, use: string, p: string, q: string, y: string, bump: string, taken: set<string>,
                                                  w: World, w1: World, bumper: Value, fn: Value, v: Value)
    requires AllApart(use, p, q, y) && y != bump && use != bump && {y, bump, use} <= taken
    requires w.cells == map[0 := Number(1), 1 := bumper, 2 := fn] && w1.cells == map[0 := Number(2), 1 := bumper, 2 := fn]
    requires host.apply(bumper, Undefined, [], w) == (Ok(v), w1)
    ensures var h, args, cells := PairHelper(use, p, q), PairArgs(y, bump), map[y := 0, bump := 1, use := 2];
      && RunCall(host, Plain(cells), cells, h, args, w).1 == host.apply(fn, Undefined, [Number(1), v], w1).1
      && RunReplacement(host, Plain(cells), Build(h, args, false, taken), w).2 == host.apply(fn, Undefined, [Number(2), v], w1).1
  {
    var cells := map[y := 0, bump := 1, use := 2];
    ThreeCells(y, bump, use, w);
    ThreeCells(y, bump, use, w1);
    PairCalled(host, use, p, q, y, bump, cells, w, w1, bumper, fn, Number(1), v);
    PairReplaced(host, use, p, q, y, bump, TempName(q, taken), cells, taken, w, w1, bumper, fn, Number(2), v);
  }
}
