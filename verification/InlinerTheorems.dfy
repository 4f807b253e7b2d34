/**
 The main results about inlining: with strict effects the replacement is exact, and by default
 it is exact whenever each argument left in place still has its value wherever the helper's own
 run reads the parameter.
 */
module InlinerTheorems {
  import opened Wrappers
  import opened JsExpr
  import opened JsSemantics
  import opened GuardInversion
  import opened FreshNames
  import opened Inliner
  import opened InlinerSoundness
  import opened InlinerArguments

  // ----- Helpers the analysis admits -----

  function GuardNames(gs: seq<Expr>): set<string> {
    if gs == [] then {} else Names(gs[0]) + GuardNames(gs[1..])
  }

  function GuardCalled(gs: seq<Expr>): set<string> {
    if gs == [] then {} else Called(gs[0]) + GuardCalled(gs[1..])
  }

  /** Names the helper calls as they stand. */
  function HelperCalled(h: Helper): set<string> {
    GuardCalled(h.guards) + BlockCalled(h.tail)
  }

  function HelperNames(h: Helper): set<string> {
    GuardNames(h.guards) + BlockNames(h.tail)
  }

  function ParamSet(h: Helper): set<string> {
    set p | p in h.params
  }

  function Free(h: Helper): set<string> {
    HelperNames(h) - ParamSet(h) - Locals(h.tail)
  }

  ghost predicate Admitted(h: Helper) {
    && Distinct(h.params)
    && h.tail != Done
    && NoTwice(h.tail)
    && Locals(h.tail) !! ParamSet(h)
    && GuardNames(h.guards) !! Locals(h.tail)
    && BlockWrites(ParamSet(h), h.tail)
    && (forall i :: 0 <= i < |h.guards| ==> Fits(LEVEL_OR, h.guards[i]))
  }

  /** The call site: every free name of the helper still denotes the module's own cell there. */
  ghost predicate SiteAdmits(env: Env, module_: map<string, Cell>, h: Helper, args: seq<Expr>, taken: set<string>) {
    && |args| <= |h.params|
    && NamesTaken(args, taken) && env.frame.Keys <= taken
    && (forall i :: 0 <= i < |args| ==> Fits(LEVEL_OR, args[i]))
    && (forall x :: x in Free(h) ==> x !in env.frame && x !in env.scope.declared)
    && (forall x :: x in Free(h) ==> (x in module_ <==> x in env.scope.cells))
    && (forall x :: x in Free(h) && x in module_ ==> module_[x] == env.scope.cells[x])
  }

  /**
   The fresh names are also fresh for the helper's free names, and no name bound in a guarded
   tail, or in a branch, occurs in what stands there for a name of the helper. The inliner
   checks none of it.
   */
  ghost predicate NoCapture(h: Helper, r: Replacement) {
    && Introduced(r) !! Free(h)
    && (h.guards != [] ==> forall p :: p in r.sub && p in BlockNames(h.tail) ==> Names(r.sub[p]) !! Locals(h.tail))
    && CaptureFree(h.tail, r.sub)
  }

  /**
   No parameter the helper calls is replaced by a member access, which would receive its object.
   The inliner does not check this either.
   */
  ghost predicate NoReceiver(h: Helper, r: Replacement) {
    forall p :: p in r.sub && p in HelperCalled(h) ==> !Method(r.sub[p])
  }

  // ----- Names the replacement introduces -----

  lemma {:induction false} PrefixLocals(ps: seq<Stmt>, b: Block)
    ensures Locals(Prefixed(ps, b)) == Locals(Prefixed(ps, Done)) + Locals(b)
    decreases |ps|
  {
    if ps != [] { PrefixLocals(ps[1..], b); }
  }

  lemma {:induction false} PrefixAppendLocals(a: seq<Stmt>, b: seq<Stmt>)
    ensures Locals(Prefixed(a + b, Done)) == Locals(Prefixed(a, Done)) + Locals(Prefixed(b, Done))
    decreases |a|
  {
    if a == [] {
      assert a + b == b;
    } else {
      assert (a + b)[1..] == a[1..] + b;
      PrefixAppendLocals(a[1..], b);
    }
  }

  lemma {:induction false} TempsFresh(h: Helper, params: seq<string>, args: seq<Expr>, strict: bool, taken: set<string>)
    ensures var b := BuildParams(h, params, args, strict, taken);
      taken <= b.taken && Locals(Prefixed(b.prefix, Done)) !! taken && Locals(Prefixed(b.prefix, Done)) <= b.taken
    decreases |params|
  {
    if params != [] {
      var b := BuildParam(params[0], First(args), HelperUses(h, params[0]), strict, taken);
      TempsFresh(h, params[1..], Rest(args), strict, b.taken);
      PrefixAppendLocals(b.prefix, BuildParams(h, params[1..], Rest(args), strict, b.taken).prefix);
      if b.prefix != [] { assert b.prefix[1..] == []; }
    }
  }

  function NewName(y: string, renames: map<string, string>): string {
    if y in renames then renames[y] else y
  }

  /** Renamed locals avoid every taken name and each other. */
  lemma {:induction false} RenamesApart(b: Block, taken: set<string>)
    requires NoTwice(b)
    ensures var ren := RenameLocals(b, taken);
      ren.Keys <= Locals(b) &&
      (forall y :: y in Locals(b) ==> NewName(y, ren) !in taken) &&
      (forall y, z :: y in Locals(b) && z in Locals(b) && NewName(y, ren) == NewName(z, ren) ==> y == z)
    decreases b
  {
    match b
    case Done =>
    case Then(s, rest) =>
      if s.Let? {
        var added := if s.x in taken then FreshName(s.x, taken) else s.x;
        RenamesApart(rest, taken + {added});
        var inner, ren := RenameLocals(rest, taken + {added}), RenameLocals(b, taken);
        forall y | y in Locals(rest) ensures NewName(y, ren) == NewName(y, inner) {
        }
        assert NewName(s.x, ren) == added;
      } else {
        RenamesApart(rest, taken);
      }
  }

  lemma {:induction false} SubstLocals(b: Block, sub: map<string, Expr>)
    ensures Locals(SubstBlock(b, sub)) == set y | y in Locals(b) :: Renamed(y, sub)
    decreases b
  {
    if b.Then? { SubstLocals(b.rest, sub); }
  }

  // ----- Uses and names -----

  lemma {:induction false} UsesNames(e: Expr, x: string)
    ensures Uses(e, x) > 0 <==> x in Names(e)
    decreases e
  {
    match e
    case Lit(_) =>
    case Name(_) =>
    case Get(o, _) => UsesNames(o, x);
    case Call(c, args) => UsesNames(c, x); ArgUsesNames(args, x);
    case Not(i) => UsesNames(i, x);
    case Bin(_, l, r) => UsesNames(l, x); UsesNames(r, x);
    case Paren(i) => UsesNames(i, x);
  }

  lemma {:induction false} ArgUsesNames(args: Args, x: string)
    ensures ArgUses(args, x) > 0 <==> x in ArgNames(args)
    decreases args
  {
    match args
    case NoArgs =>
    case Arg(h, t) => UsesNames(h, x); ArgUsesNames(t, x);
  }

  lemma {:induction false} StmtUsesNames(s: Stmt, x: string)
    requires s.Let? ==> s.x != x
    ensures StmtUses(s, x) > 0 <==> x in StmtNames(s)
    decreases s
  {
    match s
    case Do(e) => UsesNames(e, x);
    case Let(_, e) => UsesNames(e, x);
    case Set(_, e) => UsesNames(e, x);
    case If(c, t, e) =>
      UsesNames(c, x);
      if x !in Locals(t) { BlockUsesNames(t, x); }
      if x !in Locals(e) { BlockUsesNames(e, x); }
  }

  lemma {:induction false} BlockUsesNames(b: Block, x: string)
    requires x !in Locals(b)
    ensures BlockUses(b, x) > 0 <==> x in BlockNames(b)
    decreases b
  {
    match b
    case Done =>
    case Then(s, rest) => StmtUsesNames(s, x); BlockUsesNames(rest, x);
  }

  lemma {:induction false} GuardUsesNames(gs: seq<Expr>, x: string)
    ensures GuardUses(gs, x) > 0 <==> x in GuardNames(gs)
    decreases |gs|
  {
    if gs != [] { UsesNames(gs[0], x); GuardUsesNames(gs[1..], x); }
  }

  /** A parameter counts as used exactly when the helper mentions it. */
  lemma {:induction false} MentionedIsUsed(h: Helper, x: string)
    requires Admitted(h) && x in h.params
    ensures HelperUses(h, x) > 0 <==> x in HelperNames(h)
  {
    GuardUsesNames(h.guards, x);
    BlockUsesNames(h.tail, x);
  }

  // ----- The link for a call -----

  function UsedParams(h: Helper): set<string> {
    set p | p in h.params && HelperUses(h, p) > 0
  }

  /** The link for the part of the helper that mentions `names` and calls those of `called`. */
  function LinkFor(h: Helper, names: set<string>, called: set<string>, left: map<string, Expr>, sub: map<string, Expr>, bound: Frame): Link {
    Link(names, called, left, UsedParams(h) - left.Keys, sub, bound)
  }

  lemma {:induction false} SubTexts(h: Helper, params: seq<string>, args: seq<Expr>, strict: bool, taken: set<string>)
    requires forall i :: 0 <= i < |args| ==> Fits(LEVEL_OR, args[i])
    requires NamesTaken(args, taken)
    ensures var b := BuildParams(h, params, args, strict, taken);
      (forall p :: p in b.sub ==> Names(b.sub[p]) <= b.taken && Fits(LEVEL_MEMBER, b.sub[p])) &&
      taken <= b.taken
    decreases |params|
  {
    if params != [] {
      var b := BuildParam(params[0], First(args), HelperUses(h, params[0]), strict, taken);
      HeadSub(params[0], First(args), HelperUses(h, params[0]), strict, taken);
      forall i | 0 <= i < |Rest(args)| ensures Fits(LEVEL_OR, Rest(args)[i]) && Names(Rest(args)[i]) <= b.taken {
        assert Rest(args)[i] == args[i + 1];
      }
      SubTexts(h, params[1..], Rest(args), strict, b.taken);
    }
  }

  lemma {:induction false} HeadSub(p: string, arg: Option<Expr>, uses: nat, strict: bool, taken: set<string>)
    requires arg.Some? ==> Fits(LEVEL_OR, arg.value) && Names(arg.value) <= taken
    ensures var b := BuildParam(p, arg, uses, strict, taken);
      b.sub.Keys == (if uses > 0 then {p} else {}) && taken <= b.taken &&
      (uses > 0 ==> Names(b.sub[p]) <= b.taken && Fits(LEVEL_MEMBER, b.sub[p]))
  {
    if arg.Some? { FitsMember(arg.value); }
  }

  lemma {:induction false} FitsMember(e: Expr)
    requires Fits(LEVEL_OR, e)
    ensures Fits(LEVEL_MEMBER, if NeedsParens(e) then Paren(e) else e)
  {
  }

  lemma {:induction false} SubstNothing(e: Expr)
    ensures Subst(e, map[]) == e
    decreases e
  {
    match e
    case Get(o, _) => SubstNothing(o);
    case Call(c, args) => SubstNothing(c); SubstArgsNothing(args);
    case Not(x) => SubstNothing(x);
    case Bin(_, l, r) => SubstNothing(l); SubstNothing(r);
    case Paren(x) => SubstNothing(x);
    case _ =>
  }

  lemma {:induction false} SubstArgsNothing(args: Args)
    ensures SubstArgs(args, map[]) == args
    decreases args
  {
    match args
    case NoArgs =>
    case Arg(h, t) => SubstNothing(h); SubstArgsNothing(t);
  }

  // ----- Guards on both sides -----

  lemma {:induction false} OrderedTransfers(host: Host, site: Env, link: Link, hs: Scope, hf: Frame, cs: Scope, cf: Frame, e: Expr, w: World)
    requires Linked(host, site, link, hs, hf, cs, cf) && ExprIn(link, e)
    requires Reads(host, Env(hs, hf), link.left.Keys, e, w, SiteYields(host, site, link))
    requires RunsOrdered(host, Env(hs, hf), e, map[], w)
    ensures RunsOrdered(host, Env(cs, cf), e, link.sub, w)
    decreases e
  {
    if e.Paren? {
      OrderedTransfers(host, site, link, hs, hf, cs, cf, e.inner, w);
    } else if e.Bin? {
      SubstNothing(e.l);
      SubstNothing(e.r);
      SubstSimulates(host, site, link, hs, hf, cs, cf, e.l, w);
      var (a, w1) := Eval(host, Env(hs, hf), e.l, w);
      if GoesRight(e.op, a) { SubstSimulates(host, site, link, hs, hf, cs, cf, e.r, w1); }
      if Flip(e.op).None? {
        OrderedTransfers(host, site, link, hs, hf, cs, cf, e.l, w);
        if a.Ok? && Truthy(a.value) == (e.op == And) { OrderedTransfers(host, site, link, hs, hf, cs, cf, e.r, w1); }
      }
    }
  }

  lemma {:induction false} GuardsOrderedTransfer(host: Host, site: Env, link: Link, hs: Scope, hf: Frame, cs: Scope, cf: Frame,
                                                 gs: seq<Expr>, w: World)
    requires Linked(host, site, link, hs, hf, cs, cf)
    requires forall i :: 0 <= i < |gs| ==> ExprIn(link, gs[i])
    requires GuardsRead(host, Env(hs, hf), link.left.Keys, gs, w, SiteYields(host, site, link))
    requires GuardsRunOrdered(host, Env(hs, hf), gs, map[], w)
    ensures GuardsRunOrdered(host, Env(cs, cf), gs, link.sub, w)
    decreases |gs|
  {
    if gs != [] {
      SubstNothing(gs[0]);
      OrderedTransfers(host, site, link, hs, hf, cs, cf, gs[0], w);
      SubstSimulates(host, site, link, hs, hf, cs, cf, gs[0], w);
      var (r, w1) := Eval(host, Env(hs, hf), gs[0], w);
      if r.Ok? && !Truthy(r.value) { GuardsOrderedTransfer(host, site, link, hs, hf, cs, cf, gs[1..], w1); }
    }
  }

  lemma {:induction false} GuardNamesCover(gs: seq<Expr>)
    ensures forall i :: 0 <= i < |gs| ==> Names(gs[i]) <= GuardNames(gs) && Called(gs[i]) <= GuardCalled(gs)
    decreases |gs|
  {
    if gs != [] {
      GuardNamesCover(gs[1..]);
      forall i | 0 <= i < |gs| ensures Names(gs[i]) <= GuardNames(gs) && Called(gs[i]) <= GuardCalled(gs) {
        if i > 0 { assert gs[i] == gs[1..][i - 1]; }
      }
    }
  }

  // ----- The body -----

  /**
   Wherever the helper's own run reads a parameter whose argument was left in place, the argument,
   evaluated at the call site in that very world, still has its value, without effect.
   */
  ghost predicate ArgsStill(host: Host, env: Env, module_: map<string, Cell>, h: Helper, args: seq<Expr>, strict: bool, w: World) {
    var (vs, w1) := EvalSeq(host, env, args, w);
    vs.Ok? ==>
      var left, hs, hf := LeftInPlace(h, h.params, args, strict), HelperScope(h, module_), Bind(h.params, vs.value);
      var q := StillYields(host, env, left, hf);
      var (run, w2) := RunGuards(host, Env(hs, hf), h.guards, w1);
      GuardsRead(host, Env(hs, hf), left.Keys, h.guards, w1, q) && (run.Passed? ==> BlockReads(host, hs, hf, left.Keys, h.tail, w2, q))
  }

  /** Every used parameter is replaced by what does its work in `env`. */
  ghost predicate ParamsStand(host: Host, site: Env, h: Helper, left: map<string, Expr>, sub: map<string, Expr>, env: Env,
                              names: set<string>, hf: Frame) {
    && hf.Keys == ParamSet(h) && left.Keys <= UsedParams(h)
    && forall p :: p in UsedParams(h) && p in names ==> p in sub && Replaces(host, site, left, env, p, sub[p], hf[p])
  }

  /** Nothing called here is replaced by a member access. */
  predicate CalledPlain(called: set<string>, sub: map<string, Expr>) {
    forall p :: p in sub && p in called ==> !Method(sub[p])
  }

  ghost predicate FreeSame(h: Helper, hs: Scope, env: Env) {
    && (forall x :: x in Free(h) ==> x !in env.frame && x !in env.scope.declared)
    && (forall x :: x in Free(h) ==> (x in hs.cells <==> x in env.scope.cells))
    && (forall x :: x in Free(h) && x in hs.cells ==> hs.cells[x] == env.scope.cells[x])
  }

  /** Each local's new name is declared, unset, and met by nothing else. */
  ghost predicate LocalsPlaced(h: Helper, sub: map<string, Expr>, env: Env) {
    && sub.Keys <= UsedParams(h) + Locals(h.tail)
    && (forall y :: y in Locals(h.tail) && y in sub ==> sub[y].Name?)
    && (forall y :: y in Locals(h.tail) ==>
          Renamed(y, sub) !in env.frame && Renamed(y, sub) in env.scope.declared && Renamed(y, sub) !in Free(h))
    && (forall y, z :: y in Locals(h.tail) && z in Locals(h.tail) && Renamed(y, sub) == Renamed(z, sub) ==> y == z)
    && (forall y, p :: y in Locals(h.tail) && p in UsedParams(h) && p in BlockNames(h.tail) && p in sub ==> Renamed(y, sub) !in Names(sub[p]))
  }

  /** Names of the tail are parameters in use, locals, or free. */
  lemma {:induction false} NamesCovered(h: Helper, x: string)
    requires Admitted(h) && x in HelperNames(h)
    ensures x in UsedParams(h) || x in Locals(h.tail) || x in Free(h)
  {
    if x in h.params { MentionedIsUsed(h, x); }
  }

  lemma {:induction false} TailLinked(host: Host, site: Env, h: Helper, module_: map<string, Cell>, left: map<string, Expr>,
                                      sub: map<string, Expr>, hf: Frame, env: Env)
    requires Admitted(h) && ParamsStand(host, site, h, left, sub, env, BlockNames(h.tail), hf)
    requires FreeSame(h, HelperScope(h, module_), env) && LocalsPlaced(h, sub, env) && CalledPlain(BlockCalled(h.tail), sub)
    ensures Linked(host, site, LinkFor(h, BlockNames(h.tail), BlockCalled(h.tail), left, sub, hf), HelperScope(h, module_), hf, env.scope, env.frame)
  {
    var link, hs := LinkFor(h, BlockNames(h.tail), BlockCalled(h.tail), left, sub, hf), HelperScope(h, module_);
    forall x | x in Vars(link) ensures x in Locals(h.tail) || (x in Free(h) && x !in sub) {
      NamesCovered(h, x);
    }
    forall p | p in link.names && p in Params(link) ensures Stands(host, site, link, env, p) {
      assert Replaces(host, site, left, env, p, sub[p], hf[p]);
    }
  }

  /** Running the substituted tail does what running the helper's tail does. */
  lemma {:induction false} TailSimulates(host: Host, site: Env, h: Helper, module_: map<string, Cell>, left: map<string, Expr>,
                                         sub: map<string, Expr>, hf: Frame, env: Env, w: World)
    requires Admitted(h) && ParamsStand(host, site, h, left, sub, env, BlockNames(h.tail), hf)
    requires FreeSame(h, HelperScope(h, module_), env) && LocalsPlaced(h, sub, env) && CaptureFree(h.tail, sub)
    requires CalledPlain(BlockCalled(h.tail), sub)
    requires BlockReads(host, HelperScope(h, module_), hf, left.Keys, h.tail, w, StillYields(host, site, left, hf))
    ensures var a := ExecBlock(host, HelperScope(h, module_), h.tail, hf, w);
      var b := ExecBlock(host, env.scope, SubstBlock(h.tail, sub), env.frame, w);
      && a.0 == b.0 && a.2 == b.2
      && (forall x :: (forall y :: y in Locals(h.tail) ==> x != Renamed(y, sub)) ==> SameAt(env.frame, b.1, x))
  {
    var link, hs := LinkFor(h, BlockNames(h.tail), BlockCalled(h.tail), left, sub, hf), HelperScope(h, module_);
    TailLinked(host, site, h, module_, left, sub, hf, env);
    FewerWrites(ParamSet(h), Params(link), h.tail);
    BlockSimulates(host, site, link, hs, hf, env.scope, env.frame, h.tail, w);
    forall n | IsTarget(link, hs, n) ensures exists y :: y in Locals(h.tail) && n == Renamed(y, sub) {
      var x :| x in Vars(link) && x in hs.declared && n == Target(link, x);
      NamesCovered(h, x);
    }
  }

  // ----- The two shapes of a replacement -----

  lemma {:induction false} SubDomain(h: Helper, params: seq<string>, args: seq<Expr>, strict: bool, taken: set<string>)
    ensures forall p :: p in BuildParams(h, params, args, strict, taken).sub ==> p in params
    decreases |params|
  {
    if params != [] {
      var b := BuildParam(params[0], First(args), HelperUses(h, params[0]), strict, taken);
      SubDomain(h, params[1..], Rest(args), strict, b.taken);
    }
  }

  /** In a guardless replacement every local carries its new name. */
  lemma {:induction false} PlacedNames(h: Helper, args: seq<Expr>, strict: bool, taken: set<string>)
    requires Admitted(h) && h.guards == []
    ensures var b := BuildParams(h, h.params, args, strict, taken);
      var ren := RenameLocals(h.tail, b.taken);
      forall y :: y in Locals(h.tail) ==> Renamed(y, Build(h, args, strict, taken).sub) == NewName(y, ren) && y !in b.sub
  {
    SubDomain(h, h.params, args, strict, taken);
  }

  lemma {:induction false} IntroducedFresh(h: Helper, args: seq<Expr>, strict: bool, taken: set<string>)
    requires Admitted(h)
    ensures Introduced(Build(h, args, strict, taken)) !! taken
  {
    var b, r := BuildParams(h, h.params, args, strict, taken), Build(h, args, strict, taken);
    TempsFresh(h, h.params, args, strict, taken);
    if h.guards == [] {
      PrefixLocals(b.prefix, r.tail);
      SubstLocals(h.tail, r.sub);
      PlacedNames(h, args, strict, taken);
      RenamesApart(h.tail, b.taken);
    }
  }

  function ReplacementScope(env: Env, r: Replacement): Scope {
    env.scope.(declared := env.scope.declared + Introduced(r))
  }

  lemma {:induction false} ArgumentPhase(host: Host, env: Env, module_: map<string, Cell>, h: Helper, args: seq<Expr>, strict: bool,
                      taken: set<string>, w: World)
    requires Admitted(h) && SiteAdmits(env, module_, h, args, taken)
    requires ArgsQuiet(host, env, h, h.params, args, strict, w)
    ensures var b := BuildParams(h, h.params, args, strict, taken);
      var scope := ReplacementScope(env, Build(h, args, strict, taken));
      PrefixMatches(host, env, h, h.params, LeftInPlace(h, h.params, args, strict), b, taken, scope, env.frame,
        EvalSeq(host, env, args, w), ExecBlock(host, scope, Prefixed(b.prefix, Done), env.frame, w))
  {
    var scope := ReplacementScope(env, Build(h, args, strict, taken));
    IntroducedFresh(h, args, strict, taken);
    forall i | 0 <= i < |args| ensures SameLookup(env, Env(scope, env.frame), Names(args[i])) {
    }
    PrefixSimulates(host, env, h, h.params, args, strict, taken, scope, env.frame, w);
  }

  lemma {:induction false} BindKeys(params: seq<string>, vs: seq<Value>)
    ensures Bind(params, vs).Keys == set p | p in params
    decreases |params|
  {
    if params != [] { BindKeys(params[1..], Rest(vs)); }
  }

  lemma {:induction false} PrefixedRuns(host: Host, scope: Scope, ps: seq<Stmt>, b: Block, f: Frame, w: World)
    ensures var (c, f1, w1) := ExecBlock(host, scope, Prefixed(ps, Done), f, w);
      ExecBlock(host, scope, Prefixed(ps, b), f, w) ==
        if c.Normal? then ExecBlock(host, scope, b, f1, w1) else (c, f1, w1)
    decreases |ps|
  {
    if ps != [] {
      var (c, f1, w1) := Exec(host, scope, ps[0], f, w);
      if c.Normal? { PrefixedRuns(host, scope, ps[1..], b, f1, w1); }
    }
  }

  /** Frame names free of the helper stay out of reach once the prefix has run. */
  lemma {:induction false} FreeStaysSame(env: Env, module_: map<string, Cell>, h: Helper, args: seq<Expr>, strict: bool, taken: set<string>, f1: Frame)
    requires Admitted(h) && SiteAdmits(env, module_, h, args, taken)
    requires Introduced(Build(h, args, strict, taken)) !! Free(h)
    requires f1.Keys <= env.frame.Keys + Locals(Prefixed(BuildParams(h, h.params, args, strict, taken).prefix, Done))
    ensures FreeSame(h, HelperScope(h, module_), Env(ReplacementScope(env, Build(h, args, strict, taken)), f1))
  {
    var b, r := BuildParams(h, h.params, args, strict, taken), Build(h, args, strict, taken);
    PrefixLocals(b.prefix, if r.condition.None? then r.tail else Done);
  }

  lemma {:induction false} PrefixFrame(host: Host, scope: Scope, ps: seq<Stmt>, f: Frame, w: World)
    requires PrefixKind(ps)
    ensures ExecBlock(host, scope, Prefixed(ps, Done), f, w).1.Keys <= f.Keys + Locals(Prefixed(ps, Done))
    decreases |ps|
  {
    if ps != [] {
      var (c, f1, w1) := Exec(host, scope, ps[0], f, w);
      if c.Normal? { PrefixFrame(host, scope, ps[1..], f1, w1); }
    }
  }

  predicate PrefixKind(ps: seq<Stmt>) {
    forall i :: 0 <= i < |ps| ==> ps[i].Do? || ps[i].Let?
  }

  lemma {:induction false} PrefixKinds(h: Helper, params: seq<string>, args: seq<Expr>, strict: bool, taken: set<string>)
    ensures PrefixKind(BuildParams(h, params, args, strict, taken).prefix)
    decreases |params|
  {
    if params != [] {
      var b := BuildParam(params[0], First(args), HelperUses(h, params[0]), strict, taken);
      PrefixKinds(h, params[1..], Rest(args), strict, b.taken);
      assert PrefixKind(b.prefix);
    }
  }

  // ----- Main results -----

  /** The replacement completes as the call does, in the same world, and keeps the caller's frame. */
  ghost predicate SameRun(call: (Completion, World), run: (Completion, Frame, World), frame: Frame) {
    call.0 == run.0 && call.1 == run.2 && Extends(frame, run.1)
  }

  /** Where the helper's guards would start: its own frame once the arguments are bound. */
  ghost predicate GuardsOrdered(host: Host, env: Env, module_: map<string, Cell>, h: Helper, args: seq<Expr>, w: World) {
    var (vs, w1) := EvalSeq(host, env, args, w);
    vs.Ok? ==> GuardsRunOrdered(host, Env(HelperScope(h, module_), Bind(h.params, vs.value)), h.guards, map[], w1)
  }

  lemma {:induction false} GuardlessPlaced(env: Env, h: Helper, args: seq<Expr>, strict: bool, taken: set<string>, f1: Frame)
    requires Admitted(h) && h.guards == []
    requires NamesTaken(args, taken) && forall i :: 0 <= i < |args| ==> Fits(LEVEL_OR, args[i])
    requires NoCapture(h, Build(h, args, strict, taken))
    requires f1.Keys <= BuildParams(h, h.params, args, strict, taken).taken
    requires BuildParams(h, h.params, args, strict, taken).sub.Keys <= UsedParams(h)
    ensures var r := Build(h, args, strict, taken);
      LocalsPlaced(h, r.sub, Env(ReplacementScope(env, r), f1))
  {
    var b, r := BuildParams(h, h.params, args, strict, taken), Build(h, args, strict, taken);
    var ren := RenameLocals(h.tail, b.taken);
    PlacedNames(h, args, strict, taken);
    RenamesApart(h.tail, b.taken);
    SubTexts(h, h.params, args, strict, taken);
    PrefixLocals(b.prefix, r.tail);
    SubstLocals(h.tail, r.sub);
    forall y | y in Locals(h.tail) ensures Renamed(y, r.sub) == NewName(y, ren) && Renamed(y, r.sub) in Introduced(r) {
    }
    forall p | p in UsedParams(h) && p in r.sub ensures Names(r.sub[p]) <= b.taken {
      assert p !in ren;
    }
  }

  /** The tail of a guardless replacement, once the arguments have run. */
  lemma {:induction false} GuardlessTail(host: Host, env: Env, module_: map<string, Cell>, h: Helper, args: seq<Expr>, strict: bool,
                      taken: set<string>, hf: Frame, f1: Frame, w: World)
    requires Admitted(h) && SiteAdmits(env, module_, h, args, taken) && h.guards == []
    requires NoCapture(h, Build(h, args, strict, taken)) && NoReceiver(h, Build(h, args, strict, taken))
    requires Extends(env.frame, f1)
    requires f1.Keys <= env.frame.Keys + Locals(Prefixed(BuildParams(h, h.params, args, strict, taken).prefix, Done))
    requires hf.Keys == ParamSet(h)
    requires var b, r := BuildParams(h, h.params, args, strict, taken), Build(h, args, strict, taken);
      UsedAndBound(host, env, h, h.params, LeftInPlace(h, h.params, args, strict), b.sub, Env(ReplacementScope(env, r), f1), hf)
    requires var left := LeftInPlace(h, h.params, args, strict);
      BlockReads(host, HelperScope(h, module_), hf, left.Keys, h.tail, w, StillYields(host, env, left, hf))
    ensures var r := Build(h, args, strict, taken);
      var run := ExecBlock(host, ReplacementScope(env, r), r.tail, f1, w);
      var call := ExecBlock(host, HelperScope(h, module_), h.tail, hf, w);
      SameRun((call.0, call.2), run, env.frame)
  {
    var b, r := BuildParams(h, h.params, args, strict, taken), Build(h, args, strict, taken);
    var inner, left := Env(ReplacementScope(env, r), f1), LeftInPlace(h, h.params, args, strict);
    TempsFresh(h, h.params, args, strict, taken);
    FreeStaysSame(env, module_, h, args, strict, taken, f1);
    GuardlessPlaced(env, h, args, strict, taken, f1);
    GuardlessStand(host, env, h, args, strict, taken, hf, inner);
    TailSimulates(host, env, h, module_, left, r.sub, hf, inner, w);
    FrameKept(h, r.sub, env.frame, f1, ExecBlock(host, inner.scope, r.tail, f1, w).1);
  }

  lemma {:induction false} GuardlessStand(host: Host, env: Env, h: Helper, args: seq<Expr>, strict: bool, taken: set<string>,
                                          hf: Frame, inner: Env)
    requires Admitted(h) && h.guards == [] && hf.Keys == ParamSet(h)
    requires var b := BuildParams(h, h.params, args, strict, taken);
      UsedAndBound(host, env, h, h.params, LeftInPlace(h, h.params, args, strict), b.sub, inner, hf)
    ensures ParamsStand(host, env, h, LeftInPlace(h, h.params, args, strict), Build(h, args, strict, taken).sub, inner, BlockNames(h.tail), hf)
  {
    var b, r := BuildParams(h, h.params, args, strict, taken), Build(h, args, strict, taken);
    RenamesOnlyLocals(h.tail, b.taken);
    forall p | p in UsedParams(h) ensures p in r.sub && r.sub[p] == b.sub[p] {
      assert p in b.sub && p !in RenameLocals(h.tail, b.taken);
    }
  }

  lemma {:induction false} FrameKept(h: Helper, sub: map<string, Expr>, f: Frame, f1: Frame, f2: Frame)
    requires Extends(f, f1)
    requires forall x :: (forall y :: y in Locals(h.tail) ==> x != Renamed(y, sub)) ==> SameAt(f1, f2, x)
    requires forall y :: y in Locals(h.tail) ==> Renamed(y, sub) !in f
    ensures Extends(f, f2)
  {
    forall x | x in f ensures x in f2 && f2[x] == f[x] {
      assert forall y :: y in Locals(h.tail) ==> x != Renamed(y, sub);
      assert SameAt(f1, f2, x);
    }
  }

  lemma {:induction false} GuardlessExact(host: Host, env: Env, module_: map<string, Cell>, h: Helper, args: seq<Expr>, strict: bool,
                       taken: set<string>, w: World)
    requires Admitted(h) && SiteAdmits(env, module_, h, args, taken) && h.guards == []
    requires NoCapture(h, Build(h, args, strict, taken)) && NoReceiver(h, Build(h, args, strict, taken))
    requires ArgsQuiet(host, env, h, h.params, args, strict, w) && ArgsStill(host, env, module_, h, args, strict, w)
    ensures SameRun(RunCall(host, env, module_, h, args, w), RunReplacement(host, env, Build(h, args, strict, taken), w), env.frame)
  {
    var b, r := BuildParams(h, h.params, args, strict, taken), Build(h, args, strict, taken);
    var scope := ReplacementScope(env, r);
    ArgumentPhase(host, env, module_, h, args, strict, taken, w);
    PrefixedRuns(host, scope, b.prefix, r.tail, env.frame, w);
    var (vs, w1) := EvalSeq(host, env, args, w);
    if vs.Ok? {
      var hf, f1 := Bind(h.params, vs.value), ExecBlock(host, scope, Prefixed(b.prefix, Done), env.frame, w).1;
      BindKeys(h.params, vs.value);
      PrefixKinds(h, h.params, args, strict, taken);
      PrefixFrame(host, scope, b.prefix, env.frame, w);
      assert RunGuards(host, Env(HelperScope(h, module_), hf), h.guards, w1) == (Passed, w1);
      GuardlessTail(host, env, module_, h, args, strict, taken, hf, f1, w1);
    }
  }

  // ----- Guarded replacements -----

  ghost predicate GuardTextsRead(h: Helper, r: Replacement) {
    forall i :: 0 <= i < |h.guards| ==> !DotsNumeral(h.guards[i], r.sub)
  }

  lemma {:induction false} GuardsLinked(host: Host, site: Env, h: Helper, module_: map<string, Cell>, left: map<string, Expr>,
                                        sub: map<string, Expr>, hf: Frame, env: Env)
    requires Admitted(h) && ParamsStand(host, site, h, left, sub, env, GuardNames(h.guards), hf)
    requires FreeSame(h, HelperScope(h, module_), env) && sub.Keys !! Free(h) && CalledPlain(GuardCalled(h.guards), sub)
    ensures Linked(host, site, LinkFor(h, GuardNames(h.guards), GuardCalled(h.guards), left, sub, hf), HelperScope(h, module_), hf, env.scope, env.frame)
  {
    var link := LinkFor(h, GuardNames(h.guards), GuardCalled(h.guards), left, sub, hf);
    forall x | x in Vars(link) ensures x in Free(h) && x !in sub {
      NamesCovered(h, x);
    }
    forall p | p in link.names && p in Params(link) ensures Stands(host, site, link, env, p) {
      assert Replaces(host, site, left, env, p, sub[p], hf[p]);
    }
  }

  /** The emitted condition decides as the helper's guards do, in the same world. */
  lemma {:induction false} ConditionDecides(host: Host, site: Env, env: Env, module_: map<string, Cell>, h: Helper, left: map<string, Expr>,
                         sub: map<string, Expr>, hf: Frame, w: World)
    requires Admitted(h) && h.guards != [] && ParamsStand(host, site, h, left, sub, env, GuardNames(h.guards), hf)
    requires FreeSame(h, HelperScope(h, module_), env) && sub.Keys !! Free(h) && Splices(sub)
    requires CalledPlain(GuardCalled(h.guards), sub)
    requires forall i :: 0 <= i < |h.guards| ==> !DotsNumeral(h.guards[i], sub)
    requires GuardsRead(host, Env(HelperScope(h, module_), hf), left.Keys, h.guards, w, StillYields(host, site, left, hf))
    requires GuardsRunOrdered(host, Env(HelperScope(h, module_), hf), h.guards, map[], w)
    ensures ParseAll(CombineGuards(h.guards, sub)).Some?
    ensures var (v, w1) := Eval(host, env, ParseAll(CombineGuards(h.guards, sub)).value, w);
      var (run, w2) := RunGuards(host, Env(HelperScope(h, module_), hf), h.guards, w);
      w1 == w2 && Decides(v, run)
  {
    var hs, link := HelperScope(h, module_), LinkFor(h, GuardNames(h.guards), GuardCalled(h.guards), left, sub, hf);
    GuardNamesCover(h.guards);
    GuardsLinked(host, site, h, module_, left, sub, hf, env);
    GuardsSimulate(host, site, link, hs, hf, env.scope, env.frame, h.guards, w);
    GuardsOrderedTransfer(host, site, link, hs, hf, env.scope, env.frame, h.guards, w);
    GuardInversionSound(host, env, h.guards, sub, w);
  }

  /** Scope and frame of the block the new `if` opens. */
  function InnerEnv(env: Env, r: Replacement, f1: Frame): Env {
    Env(Within(ReplacementScope(env, r), r.tail), f1 - Locals(r.tail))
  }

  lemma {:induction false} InnerStands(host: Host, site: Env, outer: Env, inner: Env, h: Helper, left: map<string, Expr>,
                                       sub: map<string, Expr>, names: set<string>, hf: Frame)
    requires ParamsStand(host, site, h, left, sub, outer, names, hf)
    requires forall p :: p in sub && p in names ==> SameLookup(outer, inner, Names(sub[p]))
    ensures ParamsStand(host, site, h, left, sub, inner, names, hf)
  {
    forall p | p in UsedParams(h) && p in names ensures Replaces(host, site, left, inner, p, sub[p], hf[p]) {
      assert Replaces(host, site, left, outer, p, sub[p], hf[p]);
      forall u: World ensures Eval(host, inner, sub[p], u) == Eval(host, outer, sub[p], u) {
        EvalSameLookup(host, outer, inner, sub[p], u);
      }
    }
  }

  lemma {:induction false} GuardedPlaced(env: Env, module_: map<string, Cell>, h: Helper, args: seq<Expr>, strict: bool, taken: set<string>, f1: Frame)
    requires Admitted(h) && SiteAdmits(env, module_, h, args, taken) && h.guards != []
    requires NoCapture(h, Build(h, args, strict, taken))
    requires f1.Keys <= env.frame.Keys + Locals(Prefixed(BuildParams(h, h.params, args, strict, taken).prefix, Done))
    requires Build(h, args, strict, taken).sub.Keys <= UsedParams(h)
    ensures var r := Build(h, args, strict, taken);
      var outer, inner := Env(ReplacementScope(env, r), f1), InnerEnv(env, r, f1);
      && Locals(r.tail) == Locals(h.tail)
      && FreeSame(h, HelperScope(h, module_), inner)
      && LocalsPlaced(h, r.sub, inner)
      && (forall p :: p in r.sub && p in BlockNames(h.tail) ==> SameLookup(outer, inner, Names(r.sub[p])))
  {
    var r := Build(h, args, strict, taken);
    SubstKeepsLocals(h.tail, r.sub);
    FreeStaysSame(env, module_, h, args, strict, taken, f1);
    InnerPlaced(h, r.sub, Env(ReplacementScope(env, r), f1));
  }

  /** A block of the tail's own locals places them under their own names, and hides nothing written inside. */
  lemma {:induction false} InnerPlaced(h: Helper, sub: map<string, Expr>, outer: Env)
    requires sub.Keys <= UsedParams(h) && sub.Keys !! Locals(h.tail)
    requires forall p :: p in sub && p in BlockNames(h.tail) ==> Names(sub[p]) !! Locals(h.tail)
    ensures var inner := Env(Within(outer.scope, h.tail), outer.frame - Locals(h.tail));
      && LocalsPlaced(h, sub, inner)
      && (forall p :: p in sub && p in BlockNames(h.tail) ==> SameLookup(outer, inner, Names(sub[p])))
  {
    assert forall y :: y in Locals(h.tail) ==> Renamed(y, sub) == y;
  }

  /** The tail inside the new block, once the condition held. */
  lemma {:induction false} GuardedTail(host: Host, env: Env, module_: map<string, Cell>, h: Helper, args: seq<Expr>, strict: bool,
                    taken: set<string>, left: map<string, Expr>, hf: Frame, f1: Frame, w: World)
    requires Admitted(h) && SiteAdmits(env, module_, h, args, taken) && h.guards != []
    requires NoCapture(h, Build(h, args, strict, taken)) && NoReceiver(h, Build(h, args, strict, taken)) && Extends(env.frame, f1)
    requires f1.Keys <= env.frame.Keys + Locals(Prefixed(BuildParams(h, h.params, args, strict, taken).prefix, Done))
    requires var r := Build(h, args, strict, taken);
      r.sub.Keys <= UsedParams(h) &&
      ParamsStand(host, env, h, left, r.sub, Env(ReplacementScope(env, r), f1), BlockNames(h.tail), hf)
    requires BlockReads(host, HelperScope(h, module_), hf, left.Keys, h.tail, w, StillYields(host, env, left, hf))
    ensures var r := Build(h, args, strict, taken);
      var run := ExecBranch(host, ReplacementScope(env, r), r.tail, f1, w);
      var call := ExecBlock(host, HelperScope(h, module_), h.tail, hf, w);
      SameRun((call.0, call.2), run, env.frame)
  {
    var r := Build(h, args, strict, taken);
    var outer, inner := Env(ReplacementScope(env, r), f1), InnerEnv(env, r, f1);
    GuardedPlaced(env, module_, h, args, strict, taken, f1);
    InnerStands(host, env, outer, inner, h, left, r.sub, BlockNames(h.tail), hf);
    TailSimulates(host, env, h, module_, left, r.sub, hf, inner, w);
    BranchKeepsFrame(h, r.sub, env.frame, f1, ExecBlock(host, inner.scope, r.tail, inner.frame, w).1);
  }

  lemma {:induction false} BranchKeepsFrame(h: Helper, sub: map<string, Expr>, f: Frame, f1: Frame, f2: Frame)
    requires Extends(f, f1) && sub.Keys !! Locals(h.tail)
    requires forall x :: (forall y :: y in Locals(h.tail) ==> x != Renamed(y, sub)) ==> SameAt(f1 - Locals(h.tail), f2, x)
    ensures Extends(f, Leave(f1, f2, Locals(h.tail)))
  {
    forall x | x in f ensures x in Leave(f1, f2, Locals(h.tail)) && Leave(f1, f2, Locals(h.tail))[x] == f[x] {
      if x !in Locals(h.tail) {
        assert forall y :: y in Locals(h.tail) ==> x != Renamed(y, sub);
        assert SameAt(f1 - Locals(h.tail), f2, x);
      }
    }
  }

  lemma {:induction false} GuardedBody(host: Host, env: Env, module_: map<string, Cell>, h: Helper, args: seq<Expr>, strict: bool,
                    taken: set<string>, hf: Frame, f1: Frame, w: World)
    requires Admitted(h) && SiteAdmits(env, module_, h, args, taken) && h.guards != []
    requires NoCapture(h, Build(h, args, strict, taken)) && NoReceiver(h, Build(h, args, strict, taken))
    requires GuardTextsRead(h, Build(h, args, strict, taken))
    requires GuardsRunOrdered(host, Env(HelperScope(h, module_), hf), h.guards, map[], w)
    requires Extends(env.frame, f1)
    requires f1.Keys <= env.frame.Keys + Locals(Prefixed(BuildParams(h, h.params, args, strict, taken).prefix, Done))
    requires hf.Keys == ParamSet(h)
    requires var left, r := LeftInPlace(h, h.params, args, strict), Build(h, args, strict, taken);
      && UsedAndBound(host, env, h, h.params, left, r.sub, Env(ReplacementScope(env, r), f1), hf)
      && var he, q := Env(HelperScope(h, module_), hf), StillYields(host, env, left, hf);
      && GuardsRead(host, he, left.Keys, h.guards, w, q)
      && (RunGuards(host, he, h.guards, w).0.Passed? ==>
            BlockReads(host, he.scope, hf, left.Keys, h.tail, RunGuards(host, he, h.guards, w).1, q))
    ensures var r := Build(h, args, strict, taken);
      var (run, w2) := RunGuards(host, Env(HelperScope(h, module_), hf), h.guards, w);
      var condition := ParseAll(r.condition.value);
      && condition.Some?
      && var (v, w1) := Eval(host, Env(ReplacementScope(env, r), f1), condition.value, w);
      && w1 == w2 && Decides(v, run)
      && (run.Passed? ==>
            var call := ExecBlock(host, HelperScope(h, module_), h.tail, hf, w2);
            SameRun((call.0, call.2), ExecBranch(host, ReplacementScope(env, r), r.tail, f1, w2), env.frame))
  {
    var r, left := Build(h, args, strict, taken), LeftInPlace(h, h.params, args, strict);
    SubTexts(h, h.params, args, strict, taken);
    FreeStaysSame(env, module_, h, args, strict, taken, f1);
    ConditionDecides(host, env, Env(ReplacementScope(env, r), f1), module_, h, left, r.sub, hf, w);
    var (run, w2) := RunGuards(host, Env(HelperScope(h, module_), hf), h.guards, w);
    if run.Passed? { GuardedTail(host, env, module_, h, args, strict, taken, left, hf, f1, w2); }
  }

  lemma {:induction false} GuardedExact(host: Host, env: Env, module_: map<string, Cell>, h: Helper, args: seq<Expr>, strict: bool,
                     taken: set<string>, w: World)
    requires Admitted(h) && SiteAdmits(env, module_, h, args, taken) && h.guards != []
    requires NoCapture(h, Build(h, args, strict, taken)) && NoReceiver(h, Build(h, args, strict, taken))
    requires GuardTextsRead(h, Build(h, args, strict, taken))
    requires GuardsOrdered(host, env, module_, h, args, w)
    requires ArgsQuiet(host, env, h, h.params, args, strict, w) && ArgsStill(host, env, module_, h, args, strict, w)
    ensures SameRun(RunCall(host, env, module_, h, args, w), RunReplacement(host, env, Build(h, args, strict, taken), w), env.frame)
  {
    var b, r := BuildParams(h, h.params, args, strict, taken), Build(h, args, strict, taken);
    var scope := ReplacementScope(env, r);
    ArgumentPhase(host, env, module_, h, args, strict, taken, w);
    var (vs, w1) := EvalSeq(host, env, args, w);
    if vs.Ok? {
      var hf, f1 := Bind(h.params, vs.value), ExecBlock(host, scope, Prefixed(b.prefix, Done), env.frame, w).1;
      BindKeys(h.params, vs.value);
      PrefixKinds(h, h.params, args, strict, taken);
      PrefixFrame(host, scope, b.prefix, env.frame, w);
      GuardedBody(host, env, module_, h, args, strict, taken, hf, f1, w1);
    }
  }

  /**
   Inlining is exact: whenever the arguments left in place have no effect and still have their
   values where the helper reads them, and nothing is captured, the replacement has the effects,
   the outcome and the final store of the call.
   */
  lemma {:induction false} InliningExact(host: Host, env: Env, module_: map<string, Cell>, h: Helper, args: seq<Expr>, strict: bool,
                      taken: set<string>, w: World)
    requires Admitted(h) && SiteAdmits(env, module_, h, args, taken)
    requires NoCapture(h, Build(h, args, strict, taken)) && NoReceiver(h, Build(h, args, strict, taken))
    requires GuardTextsRead(h, Build(h, args, strict, taken))
    requires GuardsOrdered(host, env, module_, h, args, w)
    requires ArgsQuiet(host, env, h, h.params, args, strict, w) && ArgsStill(host, env, module_, h, args, strict, w)
    ensures SameRun(RunCall(host, env, module_, h, args, w), RunReplacement(host, env, Build(h, args, strict, taken), w), env.frame)
  {
    if h.guards == [] {
      GuardlessExact(host, env, module_, h, args, strict, taken, w);
    } else {
      GuardedExact(host, env, module_, h, args, strict, taken, w);
    }
  }

  // ----- Strict effects -----

  /** Under strict effects no argument is left in place. */
  lemma {:induction false} StrictLeavesNone(h: Helper, params: seq<string>, args: seq<Expr>)
    ensures LeftInPlace(h, params, args, true) == map[]
    decreases |params|
  {
    if params != [] { StrictLeavesNone(h, params[1..], Rest(args)); }
  }

  /** Only literals are then never evaluated. */
  lemma {:induction false} StrictQuiet(host: Host, env: Env, h: Helper, params: seq<string>, args: seq<Expr>, w: World)
    ensures ArgsQuiet(host, env, h, params, args, true, w)
    decreases |args|
  {
    if args != [] && params != [] {
      var (r, w1) := Eval(host, env, args[0], w);
      StripEvaluates(host, env, args[0], map[], w);
      SubstNothing(args[0]);
      SubstNothing(StripParens(args[0]));
      StrictQuiet(host, env, h, params[1..], args[1..], w1);
    }
  }

  lemma {:induction false} NoReads(host: Host, env: Env, e: Expr, w: World, q: Visit)
    ensures Reads(host, env, {}, e, w, q)
    decreases e
  {
    match e
    case Get(o, _) => NoReads(host, env, o, w, q);
    case Call(c, args) =>
      NoReads(host, env, c, w, q);
      NoArgReads(host, env, args, EvalCallee(host, env, c, w).1, q);
    case Not(x) => NoReads(host, env, x, w, q);
    case Bin(_, l, r) =>
      NoReads(host, env, l, w, q);
      NoReads(host, env, r, Eval(host, env, l, w).1, q);
    case Paren(x) => NoReads(host, env, x, w, q);
    case _ =>
  }

  lemma {:induction false} NoArgReads(host: Host, env: Env, args: Args, w: World, q: Visit)
    ensures ArgsRead(host, env, {}, args, w, q)
    decreases args
  {
    match args
    case NoArgs =>
    case Arg(h, t) =>
      NoReads(host, env, h, w, q);
      NoArgReads(host, env, t, Eval(host, env, h, w).1, q);
  }

  lemma {:induction false} NoGuardReads(host: Host, env: Env, gs: seq<Expr>, w: World, q: Visit)
    ensures GuardsRead(host, env, {}, gs, w, q)
    decreases |gs|
  {
    if gs != [] {
      NoReads(host, env, gs[0], w, q);
      NoGuardReads(host, env, gs[1..], Eval(host, env, gs[0], w).1, q);
    }
  }

  lemma {:induction false} NoBlockReads(host: Host, scope: Scope, f: Frame, b: Block, w: World, q: Visit)
    ensures BlockReads(host, scope, f, {}, b, w, q)
    decreases b
  {
    match b
    case Done =>
    case Then(s, rest) =>
      var env := Env(scope, f);
      var (_, f1, w1) := Exec(host, scope, s, f, w);
      match s {
        case Do(e) => NoReads(host, env, e, w, q);
        case Let(_, e) => NoReads(host, env, e, w, q);
        case Set(_, e) => NoReads(host, env, e, w, q);
        case If(c, t, e) =>
          NoReads(host, env, c, w, q);
          var w2 := Eval(host, env, c, w).1;
          NoBlockReads(host, Within(scope, t), f - Locals(t), t, w2, q);
          NoBlockReads(host, Within(scope, e), f - Locals(e), e, w2, q);
          assert {} - Locals(t) == {} && {} - Locals(e) == {};
      }
      NoBlockReads(host, scope, f1, rest, w1, q);
  }

  predicate TempOrUndefined(e: Expr, temps: set<string>) {
    e == Lit(Undefined) || (e.Name? && e.x in temps)
  }

  predicate StrictParts(b: Built) {
    forall p :: p in b.sub ==> TempOrUndefined(b.sub[p], Locals(Prefixed(b.prefix, Done)))
  }

  lemma {:induction false} StrictHead(p: string, arg: Option<Expr>, uses: nat, taken: set<string>)
    ensures StrictParts(BuildParam(p, arg, uses, true, taken))
  {
    var b := BuildParam(p, arg, uses, true, taken);
    if b.prefix != [] { assert b.prefix[1..] == []; }
  }

  lemma {:induction false} StrictJoin(b: Built, r: Built)
    requires StrictParts(b) && StrictParts(r)
    ensures StrictParts(Built(b.prefix + r.prefix, b.sub + r.sub, r.taken))
  {
    PrefixAppendLocals(b.prefix, r.prefix);
  }

  /** Under strict effects a parameter becomes a hoisted temporary or `undefined`. */
  lemma {:induction false} StrictSub(h: Helper, params: seq<string>, args: seq<Expr>, taken: set<string>)
    ensures StrictParts(BuildParams(h, params, args, true, taken))
    decreases |params|
  {
    if params != [] {
      var b := BuildParam(params[0], First(args), HelperUses(h, params[0]), true, taken);
      StrictHead(params[0], First(args), HelperUses(h, params[0]), taken);
      StrictSub(h, params[1..], Rest(args), b.taken);
      StrictJoin(b, BuildParams(h, params[1..], Rest(args), true, b.taken));
    }
  }

  lemma {:induction false} NoNumeralToDot(e: Expr, sub: map<string, Expr>)
    requires forall p :: p in sub ==> !Numeral(sub[p])
    ensures !DotsNumeral(e, sub)
    decreases e
  {
    match e
    case Get(o, _) => NoNumeralToDot(o, sub);
    case Call(c, args) => NoNumeralToDot(c, sub); NoArgNumeralToDot(args, sub);
    case Not(x) => NoNumeralToDot(x, sub);
    case Bin(_, l, r) => NoNumeralToDot(l, sub); NoNumeralToDot(r, sub);
    case Paren(x) => NoNumeralToDot(x, sub);
    case _ =>
  }

  lemma {:induction false} NoArgNumeralToDot(args: Args, sub: map<string, Expr>)
    requires forall p :: p in sub ==> !Numeral(sub[p])
    ensures !ArgsDotNumeral(args, sub)
    decreases args
  {
    match args
    case NoArgs =>
    case Arg(h, t) => NoNumeralToDot(h, sub); NoArgNumeralToDot(t, sub);
  }

  /**
   `--strict-effects` is exact for every host, store and argument list, getters, throws and
   later mutations included, once nothing is captured.
   */
  lemma {:induction false} StrictInliningExact(host: Host, env: Env, module_: map<string, Cell>, h: Helper, args: seq<Expr>,
                            taken: set<string>, w: World)
    requires Admitted(h) && SiteAdmits(env, module_, h, args, taken)
    requires NoCapture(h, Build(h, args, true, taken))
    requires GuardsOrdered(host, env, module_, h, args, w)
    ensures SameRun(RunCall(host, env, module_, h, args, w), RunReplacement(host, env, Build(h, args, true, taken), w), env.frame)
  {
    var r := Build(h, args, true, taken);
    StrictSub(h, h.params, args, taken);
    assert h.guards != [] ==> r.sub == BuildParams(h, h.params, args, true, taken).sub;
    StrictReceivers(h, args, taken);
    StrictQuiet(host, env, h, h.params, args, w);
    StrictStill(host, env, module_, h, args, w);
    forall i | 0 <= i < |h.guards| ensures !DotsNumeral(h.guards[i], r.sub) {
      NoNumeralToDot(h.guards[i], r.sub);
    }
    InliningExact(host, env, module_, h, args, true, taken, w);
  }

  lemma {:induction false} StrictReceivers(h: Helper, args: seq<Expr>, taken: set<string>)
    ensures NoReceiver(h, Build(h, args, true, taken))
  {
    StrictSub(h, h.params, args, taken);
  }

  lemma {:induction false} StrictStill(host: Host, env: Env, module_: map<string, Cell>, h: Helper, args: seq<Expr>, w: World)
    ensures ArgsStill(host, env, module_, h, args, true, w)
  {
    StrictLeavesNone(h, h.params, args);
    var (vs, w1) := EvalSeq(host, env, args, w);
    if vs.Ok? {
      var hs, hf := HelperScope(h, module_), Bind(h.params, vs.value);
      var q := StillYields(host, env, map[], hf);
      var none: map<string, Expr> := map[];
      assert none.Keys == {};
      NoGuardReads(host, Env(hs, hf), h.guards, w1, q);
      NoBlockReads(host, hs, hf, h.tail, RunGuards(host, Env(hs, hf), h.guards, w1).1, q);
    }
  }
}
