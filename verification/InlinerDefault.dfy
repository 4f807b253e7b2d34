/**
 Inlining with default effects. Member reads and comparisons are taken to have no effect; then
 inlining is exact when, at each read of a parameter left in place, what its argument read is
 unchanged since its turn, and in particular when all those reads come before the helper's
 first call or assignment, whatever the calls do.
 */
module InlinerDefault {
  import opened Wrappers
  import opened JsExpr
  import opened JsSemantics
  import opened GuardInversion
  import opened FreshNames
  import opened Inliner
  import opened InlinerSoundness
  import opened InlinerArguments
  import opened InlinerTheorems

  // ----- What the default mode takes for granted -----

  /** The field a member read looks at, if there is one. */
  function Slot(v: Value, field: string, w: World): Option<Value> {
    if v.Ref? && v.id in w.heap && field in w.heap[v.id] then Some(w.heap[v.id][field]) else None
  }

  /** Member reads have no effect and depend on that field alone. */
  ghost predicate PlainReads(host: Host) {
    && (forall v: Value, field: string, w: World :: host.get(v, field, w).1 == w)
    && (forall v: Value, field: string, w: World, u: World ::
          Slot(v, field, w) == Slot(v, field, u) ==> host.get(v, field, w).0 == host.get(v, field, u).0)
  }

  /** Comparisons have no effect and depend on the heap alone. */
  ghost predicate PlainComparisons(host: Host) {
    && (forall a: Value, b: Value, w: World :: host.looseEq(a, b, w).1 == w)
    && (forall a: Value, b: Value, w: World, u: World :: w.heap == u.heap ==> host.looseEq(a, b, w).0 == host.looseEq(a, b, u).0)
    && (forall a: Value, b: Value, first: bool, w: World :: host.less(a, b, first, w).1 == w)
    && (forall a: Value, b: Value, first: bool, w: World, u: World ::
          w.heap == u.heap ==> host.less(a, b, first, w).0 == host.less(a, b, first, u).0)
  }

  ghost predicate Plain(host: Host) {
    PlainReads(host) && PlainComparisons(host)
  }

  /** `e` calls nothing. */
  predicate Calm(e: Expr)
    decreases e
  {
    match e
    case Lit(_) | Name(_) => true
    case Get(o, _) => Calm(o)
    case Call(_, _) => false
    case Not(x) => Calm(x)
    case Bin(_, l, r) => Calm(l) && Calm(r)
    case Paren(x) => Calm(x)
  }

  lemma {:induction false} PureIsCalm(e: Expr, strict: bool)
    requires IsPure(e, strict)
    ensures Calm(e)
    decreases e
  {
    match e
    case Get(o, _) => PureIsCalm(o, strict);
    case Not(x) => PureIsCalm(x, strict);
    case Bin(_, l, r) => PureIsCalm(l, strict); PureIsCalm(r, strict);
    case Paren(x) => PureIsCalm(x, strict);
    case _ =>
  }

  predicate Converts(op: Op) {
    op != And && op != Or && op != StrictEq && op != StrictNe
  }

  /** What evaluating `e` in `w` reads, variables and fields, is the same in `u`. */
  ghost predicate Agrees(host: Host, env: Env, e: Expr, w: World, u: World)
    decreases e
  {
    match e
    case Lit(_) => true
    case Name(x) => Lookup(env, x, w) == Lookup(env, x, u)
    case Get(o, field) =>
      var r := Eval(host, env, o, w).0;
      Agrees(host, env, o, w, u) && (r.Ok? ==> Slot(r.value, field, w) == Slot(r.value, field, u))
    case Call(_, _) => false
    case Not(x) => Agrees(host, env, x, w, u)
    case Bin(op, l, r) =>
      && Agrees(host, env, l, w, u)
      && (GoesRight(op, Eval(host, env, l, w).0) ==> Agrees(host, env, r, w, u))
      && (Converts(op) ==> w.heap == u.heap)
    case Paren(x) => Agrees(host, env, x, w, u)
  }

  lemma {:induction false} CalmIsQuiet(host: Host, env: Env, e: Expr, w: World)
    requires Plain(host) && Calm(e)
    ensures Eval(host, env, e, w).1 == w
    decreases e
  {
    match e
    case Get(o, _) => CalmIsQuiet(host, env, o, w);
    case Not(x) => CalmIsQuiet(host, env, x, w);
    case Bin(_, l, r) => CalmIsQuiet(host, env, l, w); CalmIsQuiet(host, env, r, w);
    case Paren(x) => CalmIsQuiet(host, env, x, w);
    case _ =>
  }

  /** Where what it read is unchanged, an expression still has its value. */
  lemma {:induction false} AgreesStill(host: Host, env: Env, e: Expr, w: World, u: World)
    requires Plain(host) && Agrees(host, env, e, w, u)
    ensures Eval(host, env, e, w).1 == w && Eval(host, env, e, u) == (Eval(host, env, e, w).0, u)
    decreases e
  {
    match e
    case Get(o, _) => AgreesStill(host, env, o, w, u);
    case Not(x) => AgreesStill(host, env, x, w, u);
    case Bin(op, l, r) =>
      AgreesStill(host, env, l, w, u);
      if GoesRight(op, Eval(host, env, l, w).0) { AgreesStill(host, env, r, w, u); }
    case Paren(x) => AgreesStill(host, env, x, w, u);
    case _ =>
  }

  // ----- Arguments unchanged since their turn -----

  /** The world in which each parameter's argument has its turn. */
  function TurnOf(host: Host, env: Env, params: seq<string>, args: seq<Expr>, w: World): map<string, World>
    decreases |params|
  {
    if params == [] || args == [] then map[]
    else TurnOf(host, env, params[1..], args[1..], Eval(host, env, args[0], w).1)[params[0] := w]
  }

  ghost function Unchanged(host: Host, env: Env, left: map<string, Expr>, turns: map<string, World>): Visit {
    (x, u) => x in left && x in turns && Agrees(host, env, left[x], turns[x], u)
  }

  /** At each read of a parameter left in place, what its argument read is unchanged since its turn. */
  ghost predicate ArgsUnchanged(host: Host, env: Env, module_: map<string, Cell>, h: Helper, args: seq<Expr>, strict: bool, w: World) {
    var (vs, w1) := EvalSeq(host, env, args, w);
    vs.Ok? ==>
      var left, hs, hf := LeftInPlace(h, h.params, args, strict), HelperScope(h, module_), Bind(h.params, vs.value);
      var q := Unchanged(host, env, left, TurnOf(host, env, h.params, args, w));
      var (run, w2) := RunGuards(host, Env(hs, hf), h.guards, w1);
      GuardsRead(host, Env(hs, hf), left.Keys, h.guards, w1, q) && (run.Passed? ==> BlockReads(host, hs, hf, left.Keys, h.tail, w2, q))
  }

  ghost predicate YieldsAtTurn(host: Host, env: Env, arg: Expr, turns: map<string, World>, f: Frame, p: string) {
    p in turns && p in f && Eval(host, env, arg, turns[p]) == (Ok(f[p]), turns[p])
  }

  ghost predicate AllYield(host: Host, env: Env, left: map<string, Expr>, turns: map<string, World>, f: Frame) {
    forall p :: p in left ==> YieldsAtTurn(host, env, left[p], turns, f, p)
  }

  /** At its turn an argument left in place yields the value its parameter is bound to. */
  lemma {:induction false} TurnsYield(host: Host, env: Env, h: Helper, params: seq<string>, args: seq<Expr>, strict: bool, w: World, vs: seq<Value>)
    requires Distinct(params) && |args| <= |params|
    requires ArgsQuiet(host, env, h, params, args, strict, w) && EvalSeq(host, env, args, w).0 == Ok(vs)
    ensures AllYield(host, env, LeftInPlace(h, params, args, strict), TurnOf(host, env, params, args, w), Bind(params, vs))
    decreases |params|
  {
    if args == [] {
      NothingLeft(h, params, strict);
    } else {
      var less, w1 := LeftInPlace(h, params[1..], args[1..], strict), Eval(host, env, args[0], w).1;
      EvalSeqHead(host, env, args, w);
      TurnsYield(host, env, h, params[1..], args[1..], strict, w1, vs[1..]);
      LeftAreParams(h, params[1..], args[1..], strict);
      assert params[0] !in params[1..];
      forall p | p in LeftInPlace(h, params, args, strict) && p != params[0]
        ensures YieldsAtTurn(host, env, less[p], TurnOf(host, env, params, args, w), Bind(params, vs), p)
      {
        assert YieldsAtTurn(host, env, less[p], TurnOf(host, env, params[1..], args[1..], w1), Bind(params[1..], vs[1..]), p);
      }
    }
  }

  lemma {:induction false} NothingLeft(h: Helper, params: seq<string>, strict: bool)
    ensures LeftInPlace(h, params, [], strict) == map[]
    decreases |params|
  {
    if params != [] { NothingLeft(h, params[1..], strict); }
  }

  lemma {:induction false} FewerGuardReads(host: Host, env: Env, ps: set<string>, gs: seq<Expr>, w: World, q: Visit, r: Visit)
    requires GuardsRead(host, env, ps, gs, w, q)
    requires forall x, v: World :: x in ps && q(x, v) ==> r(x, v)
    ensures GuardsRead(host, env, ps, gs, w, r)
    decreases |gs|
  {
    if gs != [] {
      FewerExprReads(host, env, ps, gs[0], w, q, r);
      var (v, w1) := Eval(host, env, gs[0], w);
      if v.Ok? && !Truthy(v.value) { FewerGuardReads(host, env, ps, gs[1..], w1, q, r); }
    }
  }

  lemma {:induction false} UnchangedStill(host: Host, env: Env, module_: map<string, Cell>, h: Helper, args: seq<Expr>, strict: bool, w: World)
    requires Plain(host) && Distinct(h.params) && |args| <= |h.params|
    requires ArgsQuiet(host, env, h, h.params, args, strict, w) && ArgsUnchanged(host, env, module_, h, args, strict, w)
    ensures ArgsStill(host, env, module_, h, args, strict, w)
  {
    var (vs, w1) := EvalSeq(host, env, args, w);
    if vs.Ok? {
      var left, hs, hf := LeftInPlace(h, h.params, args, strict), HelperScope(h, module_), Bind(h.params, vs.value);
      var turns := TurnOf(host, env, h.params, args, w);
      var q, r := Unchanged(host, env, left, turns), StillYields(host, env, left, hf);
      TurnsYield(host, env, h, h.params, args, strict, w, vs.value);
      forall x, u: World | x in left.Keys && q(x, u) ensures r(x, u) {
        assert YieldsAtTurn(host, env, left[x], turns, hf, x);
        AgreesStill(host, env, left[x], turns[x], u);
      }
      FewerGuardReads(host, Env(hs, hf), left.Keys, h.guards, w1, q, r);
      var (run, w2) := RunGuards(host, Env(hs, hf), h.guards, w1);
      if run.Passed? { FewerReads(host, hs, hf, left.Keys, h.tail, w2, q, r); }
    }
  }

  /** Exact, by what the arguments read: effects elsewhere, or after the last read, do not matter. */
  lemma {:induction false} UnchangedExact(host: Host, env: Env, module_: map<string, Cell>, h: Helper, args: seq<Expr>, strict: bool,
                                          taken: set<string>, w: World)
    requires Plain(host) && Admitted(h) && SiteAdmits(env, module_, h, args, taken)
    requires NoCapture(h, Build(h, args, strict, taken)) && NoReceiver(h, Build(h, args, strict, taken))
    requires GuardTextsRead(h, Build(h, args, strict, taken))
    requires GuardsOrdered(host, env, module_, h, args, w)
    requires ArgsQuiet(host, env, h, h.params, args, strict, w) && ArgsUnchanged(host, env, module_, h, args, strict, w)
    ensures SameRun(RunCall(host, env, module_, h, args, w), RunReplacement(host, env, Build(h, args, strict, taken), w), env.frame)
  {
    UnchangedStill(host, env, module_, h, args, strict, w);
    InliningExact(host, env, module_, h, args, strict, taken, w);
  }

  // ----- Helpers that read first -----

  /** All reads of `ps` come before the first call of `e`. */
  predicate ReadsFirst(ps: set<string>, e: Expr)
    decreases e
  {
    match e
    case Lit(_) | Name(_) => true
    case Get(o, _) => ReadsFirst(ps, o)
    case Call(c, args) => if Calm(c) then ArgsReadFirst(ps, args) else ReadsFirst(ps, c) && ArgNames(args) !! ps
    case Not(x) => ReadsFirst(ps, x)
    case Bin(_, l, r) => if Calm(l) then ReadsFirst(ps, r) else ReadsFirst(ps, l) && Names(r) !! ps
    case Paren(x) => ReadsFirst(ps, x)
  }

  predicate ArgsReadFirst(ps: set<string>, args: Args)
    decreases args
  {
    match args
    case NoArgs => true
    case Arg(h, t) => if Calm(h) then ArgsReadFirst(ps, t) else ReadsFirst(ps, h) && ArgNames(t) !! ps
  }

  predicate CalmStmt(s: Stmt)
    decreases s
  {
    match s
    case Do(e) => Calm(e)
    case Let(_, e) => Calm(e)
    case Set(_, _) => false
    case If(c, t, e) => Calm(c) && CalmBlock(t) && CalmBlock(e)
  }

  predicate CalmBlock(b: Block)
    decreases b
  {
    match b
    case Done => true
    case Then(s, rest) => CalmStmt(s) && CalmBlock(rest)
  }

  predicate StmtReadsFirst(ps: set<string>, s: Stmt)
    decreases s
  {
    match s
    case Do(e) => ReadsFirst(ps, e)
    case Let(_, e) => ReadsFirst(ps, e)
    case Set(_, e) => ReadsFirst(ps, e)
    case If(c, t, e) =>
      if Calm(c) then BlockReadsFirst(ps - Locals(t), t) && BlockReadsFirst(ps - Locals(e), e)
      else ReadsFirst(ps, c) && BranchNames(t) !! ps && BranchNames(e) !! ps
  }

  /** All reads of `ps` come before the first call or assignment of `b`. */
  predicate BlockReadsFirst(ps: set<string>, b: Block)
    decreases b
  {
    match b
    case Done => true
    case Then(s, rest) => StmtReadsFirst(ps, s) && if CalmStmt(s) then BlockReadsFirst(ps, rest) else BlockNames(rest) !! ps
  }

  predicate HelperReadsFirst(ps: set<string>, guards: seq<Expr>, tail: Block)
    decreases |guards|
  {
    if guards == [] then BlockReadsFirst(ps, tail)
    else if Calm(guards[0]) then HelperReadsFirst(ps, guards[1..], tail)
    else ReadsFirst(ps, guards[0]) && GuardNames(guards[1..]) + BlockNames(tail) !! ps
  }

  lemma {:induction false} Unread(host: Host, env: Env, ps: set<string>, e: Expr, w: World, q: Visit)
    requires Names(e) !! ps
    ensures Reads(host, env, ps, e, w, q)
    decreases e
  {
    match e
    case Get(o, _) => Unread(host, env, ps, o, w, q);
    case Call(c, args) =>
      Unread(host, env, ps, c, w, q);
      ArgsUnread(host, env, ps, args, EvalCallee(host, env, c, w).1, q);
    case Not(x) => Unread(host, env, ps, x, w, q);
    case Bin(_, l, r) => Unread(host, env, ps, l, w, q); Unread(host, env, ps, r, Eval(host, env, l, w).1, q);
    case Paren(x) => Unread(host, env, ps, x, w, q);
    case _ =>
  }

  lemma {:induction false} ArgsUnread(host: Host, env: Env, ps: set<string>, args: Args, w: World, q: Visit)
    requires ArgNames(args) !! ps
    ensures ArgsRead(host, env, ps, args, w, q)
    decreases args
  {
    match args
    case NoArgs =>
    case Arg(h, t) => Unread(host, env, ps, h, w, q); ArgsUnread(host, env, ps, t, Eval(host, env, h, w).1, q);
  }

  lemma {:induction false} GuardsUnread(host: Host, env: Env, ps: set<string>, gs: seq<Expr>, w: World, q: Visit)
    requires GuardNames(gs) !! ps
    ensures GuardsRead(host, env, ps, gs, w, q)
    decreases |gs|
  {
    if gs != [] {
      Unread(host, env, ps, gs[0], w, q);
      GuardsUnread(host, env, ps, gs[1..], Eval(host, env, gs[0], w).1, q);
    }
  }

  lemma {:induction false} StmtUnread(host: Host, scope: Scope, f: Frame, ps: set<string>, s: Stmt, w: World, q: Visit)
    requires StmtNames(s) !! ps
    ensures StmtReads(host, scope, f, ps, s, w, q)
    decreases s, 0
  {
    var env := Env(scope, f);
    match s
    case Do(e) => Unread(host, env, ps, e, w, q);
    case Let(_, e) => Unread(host, env, ps, e, w, q);
    case Set(_, e) => Unread(host, env, ps, e, w, q);
    case If(c, t, e) =>
      var w1 := Eval(host, env, c, w).1;
      Unread(host, env, ps, c, w, q);
      BlockUnread(host, Within(scope, t), f - Locals(t), ps - Locals(t), t, w1, q);
      BlockUnread(host, Within(scope, e), f - Locals(e), ps - Locals(e), e, w1, q);
  }

  lemma {:induction false} BlockUnread(host: Host, scope: Scope, f: Frame, ps: set<string>, b: Block, w: World, q: Visit)
    requires BlockNames(b) !! ps
    ensures BlockReads(host, scope, f, ps, b, w, q)
    decreases b, 0
  {
    if b.Then? {
      var (_, f1, w1) := Exec(host, scope, b.s, f, w);
      StmtUnread(host, scope, f, ps, b.s, w, q);
      BlockUnread(host, scope, f1, ps, b.rest, w1, q);
    }
  }

  /** Reads that come first happen in the world the evaluation starts in. */
  lemma {:induction false} FirstReads(host: Host, env: Env, ps: set<string>, e: Expr, w: World, q: Visit)
    requires Plain(host) && ReadsFirst(ps, e) && forall x :: x in ps ==> q(x, w)
    ensures Reads(host, env, ps, e, w, q)
    decreases e
  {
    match e
    case Get(o, _) => FirstReads(host, env, ps, o, w, q);
    case Call(c, args) =>
      if Calm(c) {
        CalmReadsFirst(ps, c);
        CalmIsQuiet(host, env, c, w);
        CalleeEvaluates(host, env, c, w);
        FirstArgReads(host, env, ps, args, w, q);
      } else {
        ArgsUnread(host, env, ps, args, EvalCallee(host, env, c, w).1, q);
      }
      FirstReads(host, env, ps, c, w, q);
    case Not(x) => FirstReads(host, env, ps, x, w, q);
    case Bin(_, l, r) =>
      if Calm(l) {
        CalmReadsFirst(ps, l);
        CalmIsQuiet(host, env, l, w);
        FirstReads(host, env, ps, r, w, q);
      } else {
        Unread(host, env, ps, r, Eval(host, env, l, w).1, q);
      }
      FirstReads(host, env, ps, l, w, q);
    case Paren(x) => FirstReads(host, env, ps, x, w, q);
    case _ =>
  }

  lemma {:induction false} FirstArgReads(host: Host, env: Env, ps: set<string>, args: Args, w: World, q: Visit)
    requires Plain(host) && ArgsReadFirst(ps, args) && forall x :: x in ps ==> q(x, w)
    ensures ArgsRead(host, env, ps, args, w, q)
    decreases args
  {
    match args
    case NoArgs =>
    case Arg(h, t) =>
      if Calm(h) {
        CalmReadsFirst(ps, h);
        CalmIsQuiet(host, env, h, w);
        FirstArgReads(host, env, ps, t, w, q);
      } else {
        ArgsUnread(host, env, ps, t, Eval(host, env, h, w).1, q);
      }
      FirstReads(host, env, ps, h, w, q);
  }

  lemma {:induction false} CalmReadsFirst(ps: set<string>, e: Expr)
    requires Calm(e)
    ensures ReadsFirst(ps, e)
    decreases e
  {
    match e
    case Get(o, _) => CalmReadsFirst(ps, o);
    case Not(x) => CalmReadsFirst(ps, x);
    case Bin(_, l, r) => CalmReadsFirst(ps, r);
    case Paren(x) => CalmReadsFirst(ps, x);
    case _ =>
  }

  lemma {:induction false} CalmStmtIsQuiet(host: Host, scope: Scope, f: Frame, s: Stmt, w: World)
    requires Plain(host) && CalmStmt(s)
    ensures Exec(host, scope, s, f, w).2 == w
    decreases s, 0
  {
    match s
    case Do(e) => CalmIsQuiet(host, Env(scope, f), e, w);
    case Let(_, e) => CalmIsQuiet(host, Env(scope, f), e, w);
    case If(c, t, e) =>
      CalmIsQuiet(host, Env(scope, f), c, w);
      CalmBlockIsQuiet(host, Within(scope, t), f - Locals(t), t, w);
      CalmBlockIsQuiet(host, Within(scope, e), f - Locals(e), e, w);
  }

  lemma {:induction false} CalmBlockIsQuiet(host: Host, scope: Scope, f: Frame, b: Block, w: World)
    requires Plain(host) && CalmBlock(b)
    ensures ExecBlock(host, scope, b, f, w).2 == w
    decreases b, 0
  {
    if b.Then? {
      CalmStmtIsQuiet(host, scope, f, b.s, w);
      CalmBlockIsQuiet(host, scope, Exec(host, scope, b.s, f, w).1, b.rest, w);
    }
  }

  lemma {:induction false} FirstStmtReads(host: Host, scope: Scope, f: Frame, ps: set<string>, s: Stmt, w: World, q: Visit)
    requires Plain(host) && StmtReadsFirst(ps, s) && forall x :: x in ps ==> q(x, w)
    ensures StmtReads(host, scope, f, ps, s, w, q)
    decreases s, 0
  {
    var env := Env(scope, f);
    match s
    case Do(e) => FirstReads(host, env, ps, e, w, q);
    case Let(_, e) => FirstReads(host, env, ps, e, w, q);
    case Set(_, e) => FirstReads(host, env, ps, e, w, q);
    case If(c, t, e) =>
      var w1 := Eval(host, env, c, w).1;
      var ft, pt, fe, pe := f - Locals(t), ps - Locals(t), f - Locals(e), ps - Locals(e);
      if Calm(c) {
        CalmReadsFirst(ps, c);
        CalmIsQuiet(host, env, c, w);
        FirstBlockReads(host, Within(scope, t), ft, pt, t, w, q);
        FirstBlockReads(host, Within(scope, e), fe, pe, e, w, q);
      } else {
        BlockUnread(host, Within(scope, t), ft, pt, t, w1, q);
        BlockUnread(host, Within(scope, e), fe, pe, e, w1, q);
      }
      FirstReads(host, env, ps, c, w, q);
  }

  lemma {:induction false} FirstBlockReads(host: Host, scope: Scope, f: Frame, ps: set<string>, b: Block, w: World, q: Visit)
    requires Plain(host) && BlockReadsFirst(ps, b) && forall x :: x in ps ==> q(x, w)
    ensures BlockReads(host, scope, f, ps, b, w, q)
    decreases b, 0
  {
    if b.Then? {
      var (_, f1, w1) := Exec(host, scope, b.s, f, w);
      FirstStmtReads(host, scope, f, ps, b.s, w, q);
      if CalmStmt(b.s) {
        CalmStmtIsQuiet(host, scope, f, b.s, w);
        FirstBlockReads(host, scope, f1, ps, b.rest, w, q);
      } else {
        BlockUnread(host, scope, f1, ps, b.rest, w1, q);
      }
    }
  }

  lemma {:induction false} FirstHelperReads(host: Host, scope: Scope, f: Frame, ps: set<string>, gs: seq<Expr>, tail: Block, w: World, q: Visit)
    requires Plain(host) && HelperReadsFirst(ps, gs, tail) && forall x :: x in ps ==> q(x, w)
    ensures GuardsRead(host, Env(scope, f), ps, gs, w, q)
    ensures var (run, w1) := RunGuards(host, Env(scope, f), gs, w);
      run.Passed? ==> BlockReads(host, scope, f, ps, tail, w1, q)
    decreases |gs|
  {
    var env := Env(scope, f);
    if gs == [] {
      FirstBlockReads(host, scope, f, ps, tail, w, q);
    } else if Calm(gs[0]) {
      CalmReadsFirst(ps, gs[0]);
      FirstReads(host, env, ps, gs[0], w, q);
      CalmIsQuiet(host, env, gs[0], w);
      FirstHelperReads(host, scope, f, ps, gs[1..], tail, w, q);
    } else {
      FirstReads(host, env, ps, gs[0], w, q);
      GuardsUnread(host, env, ps, gs[1..], Eval(host, env, gs[0], w).1, q);
      BlockUnread(host, scope, f, ps, tail, RunGuards(host, env, gs, w).1, q);
    }
  }

  // ----- The theorem for such helpers -----

  /** Every argument is one the default mode takes to have no effect, and yields a value. */
  ghost predicate PureArgs(host: Host, env: Env, args: seq<Expr>, w: World) {
    forall i :: 0 <= i < |args| ==> IsPure(args[i], false) && Eval(host, env, args[i], w).0.Ok?
  }

  lemma {:induction false} PureArgsQuiet(host: Host, env: Env, h: Helper, params: seq<string>, args: seq<Expr>, w: World)
    requires Plain(host) && PureArgs(host, env, args, w)
    ensures EvalSeq(host, env, args, w).0.Ok? && EvalSeq(host, env, args, w).1 == w
    ensures ArgsQuiet(host, env, h, params, args, false, w)
    decreases |args|
  {
    if args != [] {
      PureIsCalm(args[0], false);
      CalmIsQuiet(host, env, args[0], w);
      forall i | 0 <= i < |args[1..]| ensures IsPure(args[1..][i], false) && Eval(host, env, args[1..][i], w).0.Ok? {
        assert args[1..][i] == args[i + 1];
      }
      PureArgsQuiet(host, env, h, if params == [] then [] else params[1..], args[1..], w);
    }
  }

  lemma {:induction false} TurnsAtStart(host: Host, env: Env, params: seq<string>, args: seq<Expr>, w: World)
    requires Plain(host) && PureArgs(host, env, args, w)
    ensures forall p :: p in TurnOf(host, env, params, args, w) ==> TurnOf(host, env, params, args, w)[p] == w
    decreases |params|
  {
    if params != [] && args != [] {
      PureIsCalm(args[0], false);
      CalmIsQuiet(host, env, args[0], w);
      forall i | 0 <= i < |args[1..]| ensures IsPure(args[1..][i], false) && Eval(host, env, args[1..][i], w).0.Ok? {
        assert args[1..][i] == args[i + 1];
      }
      TurnsAtStart(host, env, params[1..], args[1..], w);
    }
  }

  /**
   Whatever the helper's calls and assignments do: if no parameter left in place is read after
   the first of them, the default replacement of a call with pure arguments is exact.
   */
  lemma {:induction false} ReadsFirstExact(host: Host, env: Env, module_: map<string, Cell>, h: Helper, args: seq<Expr>, taken: set<string>, w: World)
    requires Plain(host) && Admitted(h) && SiteAdmits(env, module_, h, args, taken)
    requires NoCapture(h, Build(h, args, false, taken)) && NoReceiver(h, Build(h, args, false, taken))
    requires GuardTextsRead(h, Build(h, args, false, taken))
    requires GuardsOrdered(host, env, module_, h, args, w) && PureArgs(host, env, args, w)
    requires HelperReadsFirst(LeftInPlace(h, h.params, args, false).Keys, h.guards, h.tail)
    ensures SameRun(RunCall(host, env, module_, h, args, w), RunReplacement(host, env, Build(h, args, false, taken), w), env.frame)
  {
    PureArgsQuiet(host, env, h, h.params, args, w);
    var vs := EvalSeq(host, env, args, w).0.value;
    TurnsYield(host, env, h, h.params, args, false, w, vs);
    TurnsAtStart(host, env, h.params, args, w);
    var left, hf := LeftInPlace(h, h.params, args, false), Bind(h.params, vs);
    var q, turns := StillYields(host, env, left, hf), TurnOf(host, env, h.params, args, w);
    forall x | x in left.Keys ensures q(x, w) {
      assert YieldsAtTurn(host, env, left[x], turns, hf, x);
    }
    FirstHelperReads(host, HelperScope(h, module_), hf, left.Keys, h.guards, h.tail, w, q);
    InliningExact(host, env, module_, h, args, false, taken, w);
  }
}
