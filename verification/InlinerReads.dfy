/**
 The reads of the replacement itself. When nothing is captured, every argument standing in the
 replacement yields, each time its run reaches it, the value the call binds to the parameter, and
 without effect, exactly when the arguments keep their values along the helper's own run.
 */
module InlinerReads {
  import opened Wrappers
  import opened JsExpr
  import opened JsSemantics
  import opened GuardInversion
  import opened Inliner
  import opened InlinerSoundness
  import opened InlinerArguments
  import opened InlinerTheorems

  // ----- Along the replacement's run -----

  /** Where evaluating what is written for `e` reads a name of `ps`, its text yields the bound value without effect. */
  ghost predicate TextReads(host: Host, env: Env, sub: map<string, Expr>, ps: set<string>, bound: Frame, e: Expr, w: World)
    decreases e
  {
    match e
    case Lit(_) => true
    case Name(x) => x in ps ==> x in bound && Eval(host, env, Subst(e, sub), w) == (Ok(bound[x]), w)
    case Get(o, _) => TextReads(host, env, sub, ps, bound, o, w)
    case Call(c, args) =>
      var (t, w1) := EvalCallee(host, env, Subst(c, sub), w);
      TextReads(host, env, sub, ps, bound, c, w) && (t.Ok? ==> ArgTextsRead(host, env, sub, ps, bound, args, w1))
    case Not(x) => TextReads(host, env, sub, ps, bound, x, w)
    case Bin(op, l, r) =>
      var (a, w1) := Eval(host, env, Subst(l, sub), w);
      TextReads(host, env, sub, ps, bound, l, w) && (GoesRight(op, a) ==> TextReads(host, env, sub, ps, bound, r, w1))
    case Paren(x) => TextReads(host, env, sub, ps, bound, x, w)
  }

  ghost predicate ArgTextsRead(host: Host, env: Env, sub: map<string, Expr>, ps: set<string>, bound: Frame, args: Args, w: World)
    decreases args
  {
    match args
    case NoArgs => true
    case Arg(h, t) =>
      var (r, w1) := Eval(host, env, Subst(h, sub), w);
      TextReads(host, env, sub, ps, bound, h, w) && (r.Ok? ==> ArgTextsRead(host, env, sub, ps, bound, t, w1))
  }

  ghost predicate GuardsYield(host: Host, env: Env, sub: map<string, Expr>, ps: set<string>, bound: Frame, gs: seq<Expr>, w: World)
    decreases |gs|
  {
    gs != [] ==>
      var (r, w1) := Eval(host, env, Subst(gs[0], sub), w);
      && TextReads(host, env, sub, ps, bound, gs[0], w)
      && (r.Ok? && !Truthy(r.value) ==> GuardsYield(host, env, sub, ps, bound, gs[1..], w1))
  }

  ghost predicate StmtYields(host: Host, scope: Scope, f: Frame, sub: map<string, Expr>, ps: set<string>, bound: Frame, s: Stmt, w: World)
    decreases s, 0
  {
    var env := Env(scope, f);
    match s
    case Do(e) => TextReads(host, env, sub, ps, bound, e, w)
    case Let(_, e) => TextReads(host, env, sub, ps, bound, e, w)
    case Set(_, e) => TextReads(host, env, sub, ps, bound, e, w)
    case If(c, t, e) =>
      var (r, w1) := Eval(host, env, Subst(c, sub), w);
      TextReads(host, env, sub, ps, bound, c, w) &&
      (r.Ok? ==> if Truthy(r.value) then BranchYields(host, scope, f, sub, ps, bound, t, w1)
                 else BranchYields(host, scope, f, sub, ps, bound, e, w1))
  }

  ghost predicate BlockYields(host: Host, scope: Scope, f: Frame, sub: map<string, Expr>, ps: set<string>, bound: Frame, b: Block, w: World)
    decreases b, 0
  {
    match b
    case Done => true
    case Then(s, rest) =>
      var (c, f1, w1) := Exec(host, scope, SubstStmt(s, sub), f, w);
      StmtYields(host, scope, f, sub, ps, bound, s, w) && (c.Normal? ==> BlockYields(host, scope, f1, sub, ps, bound, rest, w1))
  }

  ghost predicate BranchYields(host: Host, scope: Scope, f: Frame, sub: map<string, Expr>, ps: set<string>, bound: Frame, b: Block, w: World)
    decreases b, 1
  {
    BlockYields(host, Within(scope, b), f - Locals(b), sub - Locals(b), ps - Locals(b), bound, b, w)
  }

  // ----- Both runs read alike -----

  lemma {:induction false} ReadsIff(host: Host, site: Env, link: Link, hs: Scope, hf: Frame, cs: Scope, cf: Frame, e: Expr, w: World)
    requires Linked(host, site, link, hs, hf, cs, cf) && ExprIn(link, e)
    ensures TextReads(host, Env(cs, cf), link.sub, link.left.Keys, link.bound, e, w) <==>
      Reads(host, Env(hs, hf), link.left.Keys, e, w, SiteYields(host, site, link))
    decreases e
  {
    match e
    case Lit(_) =>
    case Name(x) =>
      if x in link.left { assert Stands(host, site, link, Env(cs, cf), x); }
    case Get(o, _) => ReadsIff(host, site, link, hs, hf, cs, cf, o, w);
    case Call(c, args) =>
      ReadsIff(host, site, link, hs, hf, cs, cf, c, w);
      if Reads(host, Env(hs, hf), link.left.Keys, c, w, SiteYields(host, site, link)) {
        CalleeSimulates(host, site, link, hs, hf, cs, cf, c, w);
        ArgReadsIff(host, site, link, hs, hf, cs, cf, args, EvalCallee(host, Env(hs, hf), c, w).1);
      }
    case Not(x) => ReadsIff(host, site, link, hs, hf, cs, cf, x, w);
    case Bin(_, l, r) =>
      ReadsIff(host, site, link, hs, hf, cs, cf, l, w);
      if Reads(host, Env(hs, hf), link.left.Keys, l, w, SiteYields(host, site, link)) {
        SubstSimulates(host, site, link, hs, hf, cs, cf, l, w);
        ReadsIff(host, site, link, hs, hf, cs, cf, r, Eval(host, Env(hs, hf), l, w).1);
      }
    case Paren(x) => ReadsIff(host, site, link, hs, hf, cs, cf, x, w);
  }

  lemma {:induction false} ArgReadsIff(host: Host, site: Env, link: Link, hs: Scope, hf: Frame, cs: Scope, cf: Frame, args: Args, w: World)
    requires Linked(host, site, link, hs, hf, cs, cf) && ArgsIn(link, args)
    ensures ArgTextsRead(host, Env(cs, cf), link.sub, link.left.Keys, link.bound, args, w) <==>
      ArgsRead(host, Env(hs, hf), link.left.Keys, args, w, SiteYields(host, site, link))
    decreases args
  {
    match args
    case NoArgs =>
    case Arg(h, t) =>
      ReadsIff(host, site, link, hs, hf, cs, cf, h, w);
      if Reads(host, Env(hs, hf), link.left.Keys, h, w, SiteYields(host, site, link)) {
        SubstSimulates(host, site, link, hs, hf, cs, cf, h, w);
        ArgReadsIff(host, site, link, hs, hf, cs, cf, t, Eval(host, Env(hs, hf), h, w).1);
      }
  }

  lemma {:induction false} GuardReadsIff(host: Host, site: Env, link: Link, hs: Scope, hf: Frame, cs: Scope, cf: Frame, gs: seq<Expr>, w: World)
    requires Linked(host, site, link, hs, hf, cs, cf)
    requires forall i :: 0 <= i < |gs| ==> ExprIn(link, gs[i])
    ensures GuardsYield(host, Env(cs, cf), link.sub, link.left.Keys, link.bound, gs, w) <==>
      GuardsRead(host, Env(hs, hf), link.left.Keys, gs, w, SiteYields(host, site, link))
    decreases |gs|
  {
    if gs != [] {
      ReadsIff(host, site, link, hs, hf, cs, cf, gs[0], w);
      if Reads(host, Env(hs, hf), link.left.Keys, gs[0], w, SiteYields(host, site, link)) {
        SubstSimulates(host, site, link, hs, hf, cs, cf, gs[0], w);
        GuardReadsIff(host, site, link, hs, hf, cs, cf, gs[1..], Eval(host, Env(hs, hf), gs[0], w).1);
      }
    }
  }

  lemma {:induction false} StmtReadsIff(host: Host, site: Env, link: Link, hs: Scope, hf: Frame, cs: Scope, cf: Frame, s: Stmt, w: World)
    requires Linked(host, site, link, hs, hf, cs, cf) && StmtIn(link, s) && StmtWrites(Params(link), s)
    requires s.If? ==> BranchFree(s.thn, link.sub) && BranchFree(s.els, link.sub)
    ensures StmtYields(host, cs, cf, link.sub, link.left.Keys, link.bound, s, w) <==>
      StmtReads(host, hs, hf, link.left.Keys, s, w, SiteYields(host, site, link))
    decreases s, 0
  {
    match s
    case Do(e) => ReadsIff(host, site, link, hs, hf, cs, cf, e, w);
    case Let(_, e) => ReadsIff(host, site, link, hs, hf, cs, cf, e, w);
    case Set(_, e) => ReadsIff(host, site, link, hs, hf, cs, cf, e, w);
    case If(c, t, e) =>
      ReadsIff(host, site, link, hs, hf, cs, cf, c, w);
      if Reads(host, Env(hs, hf), link.left.Keys, c, w, SiteYields(host, site, link)) {
        SubstSimulates(host, site, link, hs, hf, cs, cf, c, w);
        var (r, w1) := Eval(host, Env(hs, hf), c, w);
        if r.Ok? { BranchReadsIff(host, site, link, hs, hf, cs, cf, if Truthy(r.value) then t else e, w1); }
      }
  }

  lemma {:induction false} BlockReadsIff(host: Host, site: Env, link: Link, hs: Scope, hf: Frame, cs: Scope, cf: Frame, b: Block, w: World)
    requires Linked(host, site, link, hs, hf, cs, cf) && BlockIn(link, b) && BlockWrites(Params(link), b)
    requires Locals(b) <= hs.declared && CaptureFree(b, link.sub)
    ensures BlockYields(host, cs, cf, link.sub, link.left.Keys, link.bound, b, w) <==>
      BlockReads(host, hs, hf, link.left.Keys, b, w, SiteYields(host, site, link))
    decreases b, 0
  {
    match b
    case Done =>
    case Then(s, rest) =>
      StmtReadsIff(host, site, link, hs, hf, cs, cf, s, w);
      if StmtReads(host, hs, hf, link.left.Keys, s, w, SiteYields(host, site, link)) {
        StmtSimulates(host, site, link, hs, hf, cs, cf, s, w);
        var (c, hf1, w1) := Exec(host, hs, s, hf, w);
        var (_, cf1, _) := Exec(host, cs, SubstStmt(s, link.sub), cf, w);
        if c.Normal? { BlockReadsIff(host, site, link, hs, hf1, cs, cf1, rest, w1); }
      }
  }

  lemma {:induction false} BranchReadsIff(host: Host, site: Env, link: Link, hs: Scope, hf: Frame, cs: Scope, cf: Frame, b: Block, w: World)
    requires Linked(host, site, link, hs, hf, cs, cf) && BranchIn(link, b) && BlockWrites(Params(link) - Locals(b), b)
    requires BranchFree(b, link.sub)
    ensures BranchYields(host, cs, cf, link.sub, link.left.Keys, link.bound, b, w) <==>
      BranchReads(host, hs, hf, link.left.Keys, b, w, SiteYields(host, site, link))
    decreases b, 1
  {
    var l, inner := Locals(b), BranchLink(link, b);
    EnterBranch(host, site, link, hs, hf, cs, cf, b);
    assert Params(inner) == Params(link) - l && inner.left.Keys == link.left.Keys - l;
    BlockReadsIff(host, site, inner, Within(hs, b), hf - l, Within(cs, b), cf - l, b, w);
    var outerYields, innerYields := SiteYields(host, site, link), SiteYields(host, site, inner);
    if BranchReads(host, hs, hf, link.left.Keys, b, w, outerYields) {
      FewerReads(host, Within(hs, b), hf - l, inner.left.Keys, b, w, outerYields, innerYields);
    }
    if BlockReads(host, Within(hs, b), hf - l, inner.left.Keys, b, w, innerYields) {
      FewerReads(host, Within(hs, b), hf - l, inner.left.Keys, b, w, innerYields, outerYields);
    }
  }

  // ----- The whole replacement -----

  /**
   Along the replacement's own run, after its prefix: in the guards as they are written, and, if
   the condition holds, in the tail.
   */
  ghost predicate TextsYield(host: Host, env: Env, h: Helper, args: seq<Expr>, strict: bool, taken: set<string>, w: World) {
    var vs := EvalSeq(host, env, args, w).0;
    vs.Ok? ==>
      var b, r := BuildParams(h, h.params, args, strict, taken), Build(h, args, strict, taken);
      var scope, ps, bound := ReplacementScope(env, r), LeftInPlace(h, h.params, args, strict).Keys, Bind(h.params, vs.value);
      var (_, f1, w1) := ExecBlock(host, scope, Prefixed(b.prefix, Done), env.frame, w);
      if h.guards == [] then BlockYields(host, scope, f1, r.sub, ps, bound, h.tail, w1)
      else
        && GuardsYield(host, Env(scope, f1), r.sub, ps, bound, h.guards, w1)
        && var (run, w2) := RunGuards(host, Env(scope, f1), SubstAll(h.guards, r.sub), w1);
        (run.Passed? ==> var inner := InnerEnv(env, r, f1); BlockYields(host, inner.scope, inner.frame, r.sub, ps, bound, h.tail, w2))
  }

  lemma {:induction false} TailReadsIff(host: Host, site: Env, h: Helper, module_: map<string, Cell>, left: map<string, Expr>,
                                        sub: map<string, Expr>, hf: Frame, env: Env, w: World)
    requires Admitted(h) && ParamsStand(host, site, h, left, sub, env, BlockNames(h.tail), hf)
    requires FreeSame(h, HelperScope(h, module_), env) && LocalsPlaced(h, sub, env) && CaptureFree(h.tail, sub)
    requires CalledPlain(BlockCalled(h.tail), sub)
    ensures BlockYields(host, env.scope, env.frame, sub, left.Keys, hf, h.tail, w) <==>
      BlockReads(host, HelperScope(h, module_), hf, left.Keys, h.tail, w, StillYields(host, site, left, hf))
  {
    var link, hs := LinkFor(h, BlockNames(h.tail), BlockCalled(h.tail), left, sub, hf), HelperScope(h, module_);
    TailLinked(host, site, h, module_, left, sub, hf, env);
    FewerWrites(ParamSet(h), Params(link), h.tail);
    BlockReadsIff(host, site, link, hs, hf, env.scope, env.frame, h.tail, w);
  }

  lemma {:induction false} GuardlessReadsIff(host: Host, env: Env, module_: map<string, Cell>, h: Helper, args: seq<Expr>, strict: bool,
                                             taken: set<string>, hf: Frame, f1: Frame, w: World)
    requires Admitted(h) && SiteAdmits(env, module_, h, args, taken) && h.guards == []
    requires NoCapture(h, Build(h, args, strict, taken)) && NoReceiver(h, Build(h, args, strict, taken))
    requires f1.Keys <= env.frame.Keys + Locals(Prefixed(BuildParams(h, h.params, args, strict, taken).prefix, Done))
    requires hf.Keys == ParamSet(h)
    requires var b, r := BuildParams(h, h.params, args, strict, taken), Build(h, args, strict, taken);
      UsedAndBound(host, env, h, h.params, LeftInPlace(h, h.params, args, strict), b.sub, Env(ReplacementScope(env, r), f1), hf)
    ensures var r, left := Build(h, args, strict, taken), LeftInPlace(h, h.params, args, strict);
      BlockYields(host, ReplacementScope(env, r), f1, r.sub, left.Keys, hf, h.tail, w) <==>
      BlockReads(host, HelperScope(h, module_), hf, left.Keys, h.tail, w, StillYields(host, env, left, hf))
  {
    var r := Build(h, args, strict, taken);
    var inner, left := Env(ReplacementScope(env, r), f1), LeftInPlace(h, h.params, args, strict);
    TempsFresh(h, h.params, args, strict, taken);
    FreeStaysSame(env, module_, h, args, strict, taken, f1);
    GuardlessPlaced(env, h, args, strict, taken, f1);
    GuardlessStand(host, env, h, args, strict, taken, hf, inner);
    TailReadsIff(host, env, h, module_, left, r.sub, hf, inner, w);
  }

  lemma {:induction false} GuardedReadsIff(host: Host, env: Env, module_: map<string, Cell>, h: Helper, args: seq<Expr>, strict: bool,
                                           taken: set<string>, hf: Frame, f1: Frame, w: World)
    requires Admitted(h) && SiteAdmits(env, module_, h, args, taken) && h.guards != []
    requires NoCapture(h, Build(h, args, strict, taken)) && NoReceiver(h, Build(h, args, strict, taken)) && Extends(env.frame, f1)
    requires f1.Keys <= env.frame.Keys + Locals(Prefixed(BuildParams(h, h.params, args, strict, taken).prefix, Done))
    requires hf.Keys == ParamSet(h)
    requires var left, r := LeftInPlace(h, h.params, args, strict), Build(h, args, strict, taken);
      UsedAndBound(host, env, h, h.params, left, r.sub, Env(ReplacementScope(env, r), f1), hf)
    ensures var r, left := Build(h, args, strict, taken), LeftInPlace(h, h.params, args, strict);
      var inner := InnerEnv(env, r, f1);
      BlockYields(host, inner.scope, inner.frame, r.sub, left.Keys, hf, h.tail, w) <==>
      BlockReads(host, HelperScope(h, module_), hf, left.Keys, h.tail, w, StillYields(host, env, left, hf))
  {
    var r, left := Build(h, args, strict, taken), LeftInPlace(h, h.params, args, strict);
    var outer, inner := Env(ReplacementScope(env, r), f1), InnerEnv(env, r, f1);
    GuardedPlaced(env, module_, h, args, strict, taken, f1);
    InnerStands(host, env, outer, inner, h, left, r.sub, BlockNames(h.tail), hf);
    TailReadsIff(host, env, h, module_, left, r.sub, hf, inner, w);
  }

  /** The guards, read and run on both sides. */
  lemma {:induction false} OuterReadsIff(host: Host, env: Env, module_: map<string, Cell>, h: Helper, args: seq<Expr>, strict: bool,
                                         taken: set<string>, hf: Frame, f1: Frame, w: World)
    requires Admitted(h) && SiteAdmits(env, module_, h, args, taken) && h.guards != []
    requires NoCapture(h, Build(h, args, strict, taken)) && NoReceiver(h, Build(h, args, strict, taken))
    requires f1.Keys <= env.frame.Keys + Locals(Prefixed(BuildParams(h, h.params, args, strict, taken).prefix, Done))
    requires hf.Keys == ParamSet(h)
    requires var left, r := LeftInPlace(h, h.params, args, strict), Build(h, args, strict, taken);
      UsedAndBound(host, env, h, h.params, left, r.sub, Env(ReplacementScope(env, r), f1), hf)
    ensures var r, left := Build(h, args, strict, taken), LeftInPlace(h, h.params, args, strict);
      var outer, he := Env(ReplacementScope(env, r), f1), Env(HelperScope(h, module_), hf);
      && (GuardsYield(host, outer, r.sub, left.Keys, hf, h.guards, w) <==>
          GuardsRead(host, he, left.Keys, h.guards, w, StillYields(host, env, left, hf)))
      && (GuardsYield(host, outer, r.sub, left.Keys, hf, h.guards, w) ==>
          RunGuards(host, outer, SubstAll(h.guards, r.sub), w) == RunGuards(host, he, h.guards, w))
  {
    var r, left := Build(h, args, strict, taken), LeftInPlace(h, h.params, args, strict);
    var outer, hs := Env(ReplacementScope(env, r), f1), HelperScope(h, module_);
    var link := LinkFor(h, GuardNames(h.guards), GuardCalled(h.guards), left, r.sub, hf);
    FreeStaysSame(env, module_, h, args, strict, taken, f1);
    GuardNamesCover(h.guards);
    GuardsLinked(host, env, h, module_, left, r.sub, hf, outer);
    GuardReadsIff(host, env, link, hs, hf, outer.scope, outer.frame, h.guards, w);
    if GuardsYield(host, outer, r.sub, left.Keys, hf, h.guards, w) {
      GuardsSimulate(host, env, link, hs, hf, outer.scope, outer.frame, h.guards, w);
    }
  }

  /**
   When the arguments left in place are quiet at their turns: every read of the replacement's own
   run yields the bound value without effect if and only if every read of the helper's run does.
   */
  lemma {:induction false} TextsYieldIff(host: Host, env: Env, module_: map<string, Cell>, h: Helper, args: seq<Expr>, strict: bool,
                                         taken: set<string>, w: World)
    requires Admitted(h) && SiteAdmits(env, module_, h, args, taken)
    requires NoCapture(h, Build(h, args, strict, taken)) && NoReceiver(h, Build(h, args, strict, taken))
    requires ArgsQuiet(host, env, h, h.params, args, strict, w)
    ensures TextsYield(host, env, h, args, strict, taken, w) <==> ArgsStill(host, env, module_, h, args, strict, w)
  {
    var b, r := BuildParams(h, h.params, args, strict, taken), Build(h, args, strict, taken);
    var scope := ReplacementScope(env, r);
    ArgumentPhase(host, env, module_, h, args, strict, taken, w);
    var (vs, w1) := EvalSeq(host, env, args, w);
    if vs.Ok? {
      var hf, f1 := Bind(h.params, vs.value), ExecBlock(host, scope, Prefixed(b.prefix, Done), env.frame, w).1;
      BindKeys(h.params, vs.value);
      PrefixKinds(h, h.params, args, strict, taken);
      PrefixFrame(host, scope, b.prefix, env.frame, w);
      if h.guards == [] {
        assert RunGuards(host, Env(HelperScope(h, module_), hf), [], w1) == (Passed, w1);
        GuardlessReadsIff(host, env, module_, h, args, strict, taken, hf, f1, w1);
      } else {
        var w2 := RunGuards(host, Env(HelperScope(h, module_), hf), h.guards, w1).1;
        OuterReadsIff(host, env, module_, h, args, strict, taken, hf, f1, w1);
        GuardedReadsIff(host, env, module_, h, args, strict, taken, hf, f1, w2);
      }
    }
  }
}
