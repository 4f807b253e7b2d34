/**
 Why inlining preserves meaning. A link relates the helper's frame to the caller's: each
 parameter to what stands for it, each variable to the name it received. Every statement keeps
 the link and does the same to the world, as long as each argument left in place still has its
 value wherever the helper's own run reads the parameter.
 */
module InlinerSoundness {
  import opened Wrappers
  import opened JsExpr
  import opened JsSemantics
  import opened GuardInversion
  import opened FreshNames
  import opened Inliner

  // ----- Names -----

  /** Names a statement refers to, its targets included, less those its branches bind themselves. */
  function StmtNames(s: Stmt): set<string>
    decreases s
  {
    match s
    case Do(e) => Names(e)
    case Let(x, e) => {x} + Names(e)
    case Set(x, e) => {x} + Names(e)
    case If(c, t, e) => Names(c) + (BlockNames(t) - Locals(t)) + (BlockNames(e) - Locals(e))
  }

  function BlockNames(b: Block): set<string>
    decreases b
  {
    match b
    case Done => {}
    case Then(s, rest) => StmtNames(s) + BlockNames(rest)
  }

  function BranchNames(b: Block): set<string> {
    BlockNames(b) - Locals(b)
  }

  /** Names a statement calls as they stand, less those its branches bind themselves. */
  function StmtCalled(s: Stmt): set<string>
    decreases s
  {
    match s
    case Do(e) => Called(e)
    case Let(_, e) => Called(e)
    case Set(_, e) => Called(e)
    case If(c, t, e) => Called(c) + (BlockCalled(t) - Locals(t)) + (BlockCalled(e) - Locals(e))
  }

  function BlockCalled(b: Block): set<string>
    decreases b
  {
    match b
    case Done => {}
    case Then(s, rest) => StmtCalled(s) + BlockCalled(rest)
  }

  lemma {:induction false} LocalsNamed(b: Block)
    ensures Locals(b) <= BlockNames(b)
    decreases b
  {
    if b.Then? { LocalsNamed(b.rest); }
  }

  // ----- Where a run reads its parameters -----

  type Visit = (string, World) -> bool

  /** `q` holds wherever evaluating `e` reads a name of `ps`. */
  ghost predicate Reads(host: Host, env: Env, ps: set<string>, e: Expr, w: World, q: Visit)
    decreases e
  {
    match e
    case Lit(_) => true
    case Name(x) => x in ps ==> q(x, w)
    case Get(o, _) => Reads(host, env, ps, o, w, q)
    case Call(c, args) =>
      var (t, w1) := EvalCallee(host, env, c, w);
      Reads(host, env, ps, c, w, q) && (t.Ok? ==> ArgsRead(host, env, ps, args, w1, q))
    case Not(x) => Reads(host, env, ps, x, w, q)
    case Bin(op, l, r) =>
      var (a, w1) := Eval(host, env, l, w);
      Reads(host, env, ps, l, w, q) && (GoesRight(op, a) ==> Reads(host, env, ps, r, w1, q))
    case Paren(x) => Reads(host, env, ps, x, w, q)
  }

  /** The right operand is evaluated after the left one gave `a`. */
  predicate GoesRight(op: Op, a: Res) {
    a.Ok? && (op == And ==> Truthy(a.value)) && (op == Or ==> !Truthy(a.value))
  }

  ghost predicate ArgsRead(host: Host, env: Env, ps: set<string>, args: Args, w: World, q: Visit)
    decreases args
  {
    match args
    case NoArgs => true
    case Arg(h, t) =>
      var (r, w1) := Eval(host, env, h, w);
      Reads(host, env, ps, h, w, q) && (r.Ok? ==> ArgsRead(host, env, ps, t, w1, q))
  }

  ghost predicate GuardsRead(host: Host, env: Env, ps: set<string>, gs: seq<Expr>, w: World, q: Visit)
    decreases |gs|
  {
    gs != [] ==>
      var (r, w1) := Eval(host, env, gs[0], w);
      Reads(host, env, ps, gs[0], w, q) && (r.Ok? && !Truthy(r.value) ==> GuardsRead(host, env, ps, gs[1..], w1, q))
  }

  ghost predicate StmtReads(host: Host, scope: Scope, f: Frame, ps: set<string>, s: Stmt, w: World, q: Visit)
    decreases s, 0
  {
    match s
    case Do(e) => Reads(host, Env(scope, f), ps, e, w, q)
    case Let(_, e) => Reads(host, Env(scope, f), ps, e, w, q)
    case Set(_, e) => Reads(host, Env(scope, f), ps, e, w, q)
    case If(c, t, e) =>
      var (r, w1) := Eval(host, Env(scope, f), c, w);
      Reads(host, Env(scope, f), ps, c, w, q) &&
      (r.Ok? ==> if Truthy(r.value) then BranchReads(host, scope, f, ps, t, w1, q) else BranchReads(host, scope, f, ps, e, w1, q))
  }

  ghost predicate BlockReads(host: Host, scope: Scope, f: Frame, ps: set<string>, b: Block, w: World, q: Visit)
    decreases b, 0
  {
    match b
    case Done => true
    case Then(s, rest) =>
      var (c, f1, w1) := Exec(host, scope, s, f, w);
      StmtReads(host, scope, f, ps, s, w, q) && (c.Normal? ==> BlockReads(host, scope, f1, ps, rest, w1, q))
  }

  /** In a branch that binds a name, the name is not the parameter. */
  ghost predicate BranchReads(host: Host, scope: Scope, f: Frame, ps: set<string>, b: Block, w: World, q: Visit)
    decreases b, 1
  {
    BlockReads(host, Within(scope, b), f - Locals(b), ps - Locals(b), b, w, q)
  }

  // ----- Evaluation depends on what names denote -----

  ghost predicate SameLookup(a: Env, b: Env, xs: set<string>) {
    forall x, w: World :: x in xs ==> Lookup(a, x, w) == Lookup(b, x, w)
  }

  lemma {:induction false} EvalSameLookup(host: Host, a: Env, b: Env, e: Expr, w: World)
    requires SameLookup(a, b, Names(e))
    ensures Eval(host, a, e, w) == Eval(host, b, e, w)
    decreases e, 0
  {
    match e
    case Lit(_) =>
    case Name(_) =>
    case Get(o, _) => EvalSameLookup(host, a, b, o, w);
    case Call(c, args) =>
      CalleeSameLookup(host, a, b, c, w);
      EvalArgsSameLookup(host, a, b, args, EvalCallee(host, a, c, w).1);
    case Not(x) => EvalSameLookup(host, a, b, x, w);
    case Bin(_, l, r) =>
      EvalSameLookup(host, a, b, l, w);
      EvalSameLookup(host, a, b, r, Eval(host, a, l, w).1);
    case Paren(x) => EvalSameLookup(host, a, b, x, w);
  }

  lemma {:induction false} CalleeSameLookup(host: Host, a: Env, b: Env, e: Expr, w: World)
    requires SameLookup(a, b, Names(e))
    ensures EvalCallee(host, a, e, w) == EvalCallee(host, b, e, w)
    decreases e, 1
  {
    match e
    case Paren(x) => CalleeSameLookup(host, a, b, x, w);
    case Get(o, _) => EvalSameLookup(host, a, b, o, w);
    case _ => EvalSameLookup(host, a, b, e, w);
  }

  lemma {:induction false} EvalArgsSameLookup(host: Host, a: Env, b: Env, args: Args, w: World)
    requires SameLookup(a, b, ArgNames(args))
    ensures EvalArgs(host, a, args, w) == EvalArgs(host, b, args, w)
    decreases args, 0
  {
    match args
    case NoArgs =>
    case Arg(h, t) =>
      EvalSameLookup(host, a, b, h, w);
      EvalArgsSameLookup(host, a, b, t, Eval(host, a, h, w).1);
  }

  // ----- The link between the two frames -----

  /**
   Of the names in use and those called among them: `left` has the arguments of the parameters
   left in place, `fixed` are parameters replaced by a temporary or `undefined`, and `bound` the
   values all of them have.
   */
  datatype Link = Link(names: set<string>, called: set<string>, left: map<string, Expr>, fixed: set<string>, sub: map<string, Expr>, bound: Frame)

  function Params(link: Link): set<string> {
    link.left.Keys + link.fixed
  }

  function Vars(link: Link): set<string> {
    link.names - Params(link)
  }

  function Target(link: Link, x: string): string {
    Renamed(x, link.sub)
  }

  /** At the call site the argument left in place for `x` yields the value `x` was bound to, without effect. */
  ghost function StillYields(host: Host, site: Env, left: map<string, Expr>, bound: Frame): Visit {
    (x, w) => x in left && x in bound && Eval(host, site, left[x], w) == (Ok(bound[x]), w)
  }

  ghost function SiteYields(host: Host, site: Env, link: Link): Visit {
    StillYields(host, site, link.left, link.bound)
  }

  /** `x` of the helper and `n` of the caller are the same variable, as far as can be told. */
  ghost predicate SameVar(hs: Scope, hf: Frame, cs: Scope, cf: Frame, x: string, n: string) {
    && (x in hf <==> n in cf) && (x in hf ==> hf[x] == cf[n])
    && (x !in hf ==>
          && (x in hs.declared <==> n in cs.declared)
          && (x !in hs.declared ==> (x in hs.cells <==> n in cs.cells) && (x in hs.cells ==> hs.cells[x] == cs.cells[n])))
  }

  /** What stands for parameter `p` does what it should, whatever the world. */
  ghost predicate Stands(host: Host, site: Env, link: Link, env: Env, p: string) {
    && p in link.sub
    && (p in link.left ==> forall w: World :: Eval(host, env, link.sub[p], w) == Eval(host, site, link.left[p], w))
    && (p in link.fixed ==> p in link.bound && forall w: World :: Eval(host, env, link.sub[p], w) == (Ok(link.bound[p]), w))
  }

  ghost predicate ParamsLinked(host: Host, site: Env, link: Link, hf: Frame, env: Env) {
    forall p :: p in link.names && p in Params(link) ==>
      p in hf && p in link.bound && hf[p] == link.bound[p] && Stands(host, site, link, env, p)
  }

  ghost predicate VarsLinked(link: Link, hs: Scope, hf: Frame, cs: Scope, cf: Frame) {
    && (forall x :: x in Vars(link) ==> SameVar(hs, hf, cs, cf, x, Target(link, x)))
    && (forall x :: x in Vars(link) && x in link.sub ==> link.sub[x].Name?)
    && (forall x, y :: x in Vars(link) && y in Vars(link) && x in hs.declared && y in hs.declared && Target(link, x) == Target(link, y) ==>
          x == y)
  }

  /** Nothing a parameter stands for mentions a name given to a variable of the helper. */
  ghost predicate TargetsClear(link: Link, hs: Scope) {
    forall x, p :: x in Vars(link) && x in hs.declared && p in link.names && p in Params(link) && p in link.sub ==>
      Target(link, x) !in Names(link.sub[p])
  }

  /** Nothing called stands as a member access, which would pass an object along. */
  predicate PlainCallees(link: Link) {
    forall p :: p in link.called && p in Params(link) && p in link.sub ==> !Method(link.sub[p])
  }

  ghost predicate Linked(host: Host, site: Env, link: Link, hs: Scope, hf: Frame, cs: Scope, cf: Frame) {
    && hf.Keys <= hs.declared
    && ParamsLinked(host, site, link, hf, Env(cs, cf))
    && VarsLinked(link, hs, hf, cs, cf)
    && TargetsClear(link, hs)
    && PlainCallees(link)
  }

  predicate ExprIn(link: Link, e: Expr) {
    Names(e) <= link.names && Called(e) <= link.called
  }

  predicate ArgsIn(link: Link, args: Args) {
    ArgNames(args) <= link.names && ArgsCalled(args) <= link.called
  }

  predicate StmtIn(link: Link, s: Stmt) {
    StmtNames(s) <= link.names && StmtCalled(s) <= link.called
  }

  predicate BlockIn(link: Link, b: Block) {
    BlockNames(b) <= link.names && BlockCalled(b) <= link.called
  }

  predicate BranchIn(link: Link, b: Block) {
    BranchNames(b) <= link.names && BlockCalled(b) - Locals(b) <= link.called
  }

  // ----- Substitution simulates -----

  lemma {:induction false} SubstSimulates(host: Host, site: Env, link: Link, hs: Scope, hf: Frame, cs: Scope, cf: Frame, e: Expr, w: World)
    requires Linked(host, site, link, hs, hf, cs, cf) && ExprIn(link, e)
    requires Reads(host, Env(hs, hf), link.left.Keys, e, w, SiteYields(host, site, link))
    ensures Eval(host, Env(cs, cf), Subst(e, link.sub), w) == Eval(host, Env(hs, hf), e, w)
    decreases e, 0
  {
    match e
    case Lit(_) =>
    case Name(x) => NameSimulates(host, site, link, hs, hf, cs, cf, x, w);
    case Get(o, _) => SubstSimulates(host, site, link, hs, hf, cs, cf, o, w);
    case Call(c, args) =>
      CalleeSimulates(host, site, link, hs, hf, cs, cf, c, w);
      var (t, w1) := EvalCallee(host, Env(hs, hf), c, w);
      if t.Ok? { SubstArgsSimulate(host, site, link, hs, hf, cs, cf, args, w1); }
    case Not(x) => SubstSimulates(host, site, link, hs, hf, cs, cf, x, w);
    case Bin(op, l, r) =>
      SubstSimulates(host, site, link, hs, hf, cs, cf, l, w);
      var (a, w1) := Eval(host, Env(hs, hf), l, w);
      if GoesRight(op, a) { SubstSimulates(host, site, link, hs, hf, cs, cf, r, w1); }
    case Paren(x) => SubstSimulates(host, site, link, hs, hf, cs, cf, x, w);
  }

  /** A callee calls the same function, with the same receiver. */
  lemma {:induction false} CalleeSimulates(host: Host, site: Env, link: Link, hs: Scope, hf: Frame, cs: Scope, cf: Frame, e: Expr, w: World)
    requires Linked(host, site, link, hs, hf, cs, cf) && ExprIn(link, e)
    requires StripParens(e).Name? ==> StripParens(e).x in link.called
    requires Reads(host, Env(hs, hf), link.left.Keys, e, w, SiteYields(host, site, link))
    ensures EvalCallee(host, Env(cs, cf), Subst(e, link.sub), w) == EvalCallee(host, Env(hs, hf), e, w)
    decreases e, 1
  {
    match e
    case Paren(x) => CalleeSimulates(host, site, link, hs, hf, cs, cf, x, w);
    case Get(o, _) => SubstSimulates(host, site, link, hs, hf, cs, cf, o, w);
    case Name(x) =>
      NameSimulates(host, site, link, hs, hf, cs, cf, x, w);
      PlainName(link, x);
      CalleeEvaluates(host, Env(cs, cf), Subst(e, link.sub), w);
    case _ => SubstSimulates(host, site, link, hs, hf, cs, cf, e, w);
  }

  lemma {:induction false} PlainName(link: Link, x: string)
    requires PlainCallees(link) && x in link.called && x in link.names
    requires x in Vars(link) && x in link.sub ==> link.sub[x].Name?
    ensures !Method(Subst(Name(x), link.sub))
  {
  }

  lemma {:induction false} NameSimulates(host: Host, site: Env, link: Link, hs: Scope, hf: Frame, cs: Scope, cf: Frame, x: string, w: World)
    requires Linked(host, site, link, hs, hf, cs, cf) && x in link.names
    requires x in link.left ==> SiteYields(host, site, link)(x, w)
    ensures Eval(host, Env(cs, cf), Subst(Name(x), link.sub), w) == (Lookup(Env(hs, hf), x, w), w)
  {
    if x in Params(link) {
      assert Stands(host, site, link, Env(cs, cf), x);
    } else {
      assert x in Vars(link);
      assert SameVar(hs, hf, cs, cf, x, Target(link, x));
      assert Subst(Name(x), link.sub) == Name(Target(link, x));
    }
  }

  lemma {:induction false} SubstArgsSimulate(host: Host, site: Env, link: Link, hs: Scope, hf: Frame, cs: Scope, cf: Frame, args: Args, w: World)
    requires Linked(host, site, link, hs, hf, cs, cf) && ArgsIn(link, args)
    requires ArgsRead(host, Env(hs, hf), link.left.Keys, args, w, SiteYields(host, site, link))
    ensures EvalArgs(host, Env(cs, cf), SubstArgs(args, link.sub), w) == EvalArgs(host, Env(hs, hf), args, w)
    decreases args, 0
  {
    match args
    case NoArgs =>
    case Arg(h, t) =>
      SubstSimulates(host, site, link, hs, hf, cs, cf, h, w);
      var (r, w1) := Eval(host, Env(hs, hf), h, w);
      if r.Ok? { SubstArgsSimulate(host, site, link, hs, hf, cs, cf, t, w1); }
  }

  lemma {:induction false} GuardsSimulate(host: Host, site: Env, link: Link, hs: Scope, hf: Frame, cs: Scope, cf: Frame, gs: seq<Expr>, w: World)
    requires Linked(host, site, link, hs, hf, cs, cf)
    requires forall i :: 0 <= i < |gs| ==> ExprIn(link, gs[i])
    requires GuardsRead(host, Env(hs, hf), link.left.Keys, gs, w, SiteYields(host, site, link))
    ensures RunGuards(host, Env(cs, cf), SubstAll(gs, link.sub), w) == RunGuards(host, Env(hs, hf), gs, w)
    decreases |gs|
  {
    if gs != [] {
      SubstSimulates(host, site, link, hs, hf, cs, cf, gs[0], w);
      assert SubstAll(gs, link.sub)[1..] == SubstAll(gs[1..], link.sub);
      var (r, w1) := Eval(host, Env(hs, hf), gs[0], w);
      if r.Ok? && !Truthy(r.value) { GuardsSimulate(host, site, link, hs, hf, cs, cf, gs[1..], w1); }
    }
  }

  // ----- Statements keep the link -----

  /** Parameters are never written. */
  predicate StmtWrites(ps: set<string>, s: Stmt)
    decreases s
  {
    match s
    case Do(_) => true
    case Let(x, _) => x !in ps
    case Set(x, _) => x !in ps
    case If(_, t, e) => BlockWrites(ps - Locals(t), t) && BlockWrites(ps - Locals(e), e)
  }

  predicate BlockWrites(ps: set<string>, b: Block)
    decreases b
  {
    match b
    case Done => true
    case Then(s, rest) => StmtWrites(ps, s) && BlockWrites(ps, rest)
  }

  lemma {:induction false} FewerWrites(ps: set<string>, qs: set<string>, b: Block)
    requires BlockWrites(ps, b) && qs <= ps
    ensures BlockWrites(qs, b)
    decreases b
  {
    if b.Then? {
      if b.s.If? {
        FewerWrites(ps - Locals(b.s.thn), qs - Locals(b.s.thn), b.s.thn);
        FewerWrites(ps - Locals(b.s.els), qs - Locals(b.s.els), b.s.els);
      }
      FewerWrites(ps, qs, b.rest);
    }
  }

  /** No branch binds a name of what stands, inside it, for a name of the helper. */
  ghost predicate CaptureFree(b: Block, sub: map<string, Expr>)
    decreases b, 0
  {
    match b
    case Done => true
    case Then(s, rest) =>
      CaptureFree(rest, sub) && (s.If? ==> BranchFree(s.thn, sub) && BranchFree(s.els, sub))
  }

  ghost predicate BranchFree(b: Block, sub: map<string, Expr>)
    decreases b, 1
  {
    (forall x :: x in BranchNames(b) && x in sub ==> Names(sub[x]) !! Locals(b)) && CaptureFree(b, sub - Locals(b))
  }

  predicate SameAt(f: Frame, f': Frame, x: string) {
    (x in f <==> x in f') && (x in f ==> f[x] == f'[x])
  }

  predicate IsTarget(link: Link, hs: Scope, n: string) {
    exists x :: x in Vars(link) && x in hs.declared && n == Target(link, x)
  }

  /** Only variables in use have been written, and only under their own names. */
  ghost predicate OnlyVars(link: Link, hs: Scope, hf: Frame, hf': Frame, cf: Frame, cf': Frame) {
    && (forall x :: x !in Vars(link) ==> SameAt(hf, hf', x))
    && (forall n :: !IsTarget(link, hs, n) ==> SameAt(cf, cf', n))
  }

  /** Result of running related statements. */
  ghost predicate Matches(host: Host, site: Env, link: Link, hs: Scope, hf: Frame, cs: Scope, cf: Frame,
                          h: (Completion, Frame, World), c: (Completion, Frame, World)) {
    && h.0 == c.0 && h.2 == c.2
    && Linked(host, site, link, hs, h.1, cs, c.1)
    && OnlyVars(link, hs, hf, h.1, cf, c.1)
  }

  lemma {:induction false} LinkedUpdate(host: Host, site: Env, link: Link, hs: Scope, hf: Frame, cs: Scope, cf: Frame, x: string, v: Value)
    requires Linked(host, site, link, hs, hf, cs, cf) && x in Vars(link) && x in hs.declared
    ensures Linked(host, site, link, hs, hf[x := v], cs, cf[Target(link, x) := v])
    ensures OnlyVars(link, hs, hf, hf[x := v], cf, cf[Target(link, x) := v])
  {
    var n := Target(link, x);
    var hf', cf' := hf[x := v], cf[n := v];
    forall p | p in link.names && p in Params(link)
      ensures p in hf' && p in link.bound && hf'[p] == link.bound[p] && Stands(host, site, link, Env(cs, cf'), p)
    {
      assert Stands(host, site, link, Env(cs, cf), p);
      StandsStill(host, site, link, Env(cs, cf), Env(cs, cf'), p);
    }
    forall y | y in Vars(link) ensures SameVar(hs, hf', cs, cf', y, Target(link, y)) {
      assert SameVar(hs, hf, cs, cf, y, Target(link, y));
      assert SameVar(hs, hf, cs, cf, x, n);
    }
  }

  lemma {:induction false} StandsStill(host: Host, site: Env, link: Link, env: Env, env': Env, p: string)
    requires Stands(host, site, link, env, p) && SameLookup(env, env', Names(link.sub[p]))
    ensures Stands(host, site, link, env', p)
  {
    forall w: World ensures Eval(host, env', link.sub[p], w) == Eval(host, env, link.sub[p], w) {
      EvalSameLookup(host, env, env', link.sub[p], w);
    }
  }

  lemma {:induction false} LetSimulates(host: Host, site: Env, link: Link, hs: Scope, hf: Frame, cs: Scope, cf: Frame, x: string, e: Expr, w: World)
    requires Linked(host, site, link, hs, hf, cs, cf) && ExprIn(link, e) && x in Vars(link) && x in hs.declared
    requires Reads(host, Env(hs, hf), link.left.Keys, e, w, SiteYields(host, site, link))
    ensures Matches(host, site, link, hs, hf, cs, cf, Exec(host, hs, Let(x, e), hf, w),
                    Exec(host, cs, Let(Target(link, x), Subst(e, link.sub)), cf, w))
  {
    SubstSimulates(host, site, link, hs, hf, cs, cf, e, w);
    var r := Eval(host, Env(hs, hf), e, w).0;
    if r.Ok? { LinkedUpdate(host, site, link, hs, hf, cs, cf, x, r.value); }
  }

  lemma {:induction false} SetSimulates(host: Host, site: Env, link: Link, hs: Scope, hf: Frame, cs: Scope, cf: Frame, x: string, e: Expr, w: World)
    requires Linked(host, site, link, hs, hf, cs, cf) && ExprIn(link, e) && x in Vars(link)
    requires Reads(host, Env(hs, hf), link.left.Keys, e, w, SiteYields(host, site, link))
    ensures Matches(host, site, link, hs, hf, cs, cf, Exec(host, hs, Set(x, e), hf, w),
                    Exec(host, cs, Set(Target(link, x), Subst(e, link.sub)), cf, w))
  {
    SubstSimulates(host, site, link, hs, hf, cs, cf, e, w);
    var r := Eval(host, Env(hs, hf), e, w).0;
    assert SameVar(hs, hf, cs, cf, x, Target(link, x));
    if r.Ok? && x in hf { LinkedUpdate(host, site, link, hs, hf, cs, cf, x, r.value); }
  }

  lemma {:induction false} StmtSimulates(host: Host, site: Env, link: Link, hs: Scope, hf: Frame, cs: Scope, cf: Frame, s: Stmt, w: World)
    requires Linked(host, site, link, hs, hf, cs, cf) && StmtIn(link, s) && StmtWrites(Params(link), s)
    requires s.Let? ==> s.x in hs.declared
    requires s.If? ==> BranchFree(s.thn, link.sub) && BranchFree(s.els, link.sub)
    requires StmtReads(host, hs, hf, link.left.Keys, s, w, SiteYields(host, site, link))
    ensures Matches(host, site, link, hs, hf, cs, cf, Exec(host, hs, s, hf, w), Exec(host, cs, SubstStmt(s, link.sub), cf, w))
    decreases s, 0
  {
    match s
    case Do(e) => SubstSimulates(host, site, link, hs, hf, cs, cf, e, w);
    case Let(x, e) => LetSimulates(host, site, link, hs, hf, cs, cf, x, e, w);
    case Set(x, e) => SetSimulates(host, site, link, hs, hf, cs, cf, x, e, w);
    case If(c, t, e) =>
      SubstSimulates(host, site, link, hs, hf, cs, cf, c, w);
      var (r, w1) := Eval(host, Env(hs, hf), c, w);
      if r.Ok? {
        if Truthy(r.value) {
          BranchSimulates(host, site, link, hs, hf, cs, cf, t, w1);
        } else {
          BranchSimulates(host, site, link, hs, hf, cs, cf, e, w1);
        }
      }
  }

  lemma {:induction false} BlockSimulates(host: Host, site: Env, link: Link, hs: Scope, hf: Frame, cs: Scope, cf: Frame, b: Block, w: World)
    requires Linked(host, site, link, hs, hf, cs, cf) && BlockIn(link, b) && BlockWrites(Params(link), b)
    requires Locals(b) <= hs.declared && CaptureFree(b, link.sub)
    requires BlockReads(host, hs, hf, link.left.Keys, b, w, SiteYields(host, site, link))
    ensures Matches(host, site, link, hs, hf, cs, cf, ExecBlock(host, hs, b, hf, w), ExecBlock(host, cs, SubstBlock(b, link.sub), cf, w))
    decreases b, 0
  {
    match b
    case Done =>
    case Then(s, rest) =>
      StmtSimulates(host, site, link, hs, hf, cs, cf, s, w);
      var (c, hf1, w1) := Exec(host, hs, s, hf, w);
      var (_, cf1, _) := Exec(host, cs, SubstStmt(s, link.sub), cf, w);
      if c.Normal? { BlockSimulates(host, site, link, hs, hf1, cs, cf1, rest, w1); }
  }

  // ----- Entering and leaving a branch -----

  function BranchLink(link: Link, b: Block): Link {
    Link(BlockNames(b), BlockCalled(b), link.left - Locals(b), link.fixed - Locals(b), link.sub - Locals(b), link.bound)
  }

  lemma {:induction false} SubstKeepsLocals(b: Block, sub: map<string, Expr>)
    requires sub.Keys !! Locals(b)
    ensures Locals(SubstBlock(b, sub)) == Locals(b)
    decreases b
  {
    if b.Then? { SubstKeepsLocals(b.rest, sub); }
  }

  lemma {:induction false} EnterBranch(host: Host, site: Env, link: Link, hs: Scope, hf: Frame, cs: Scope, cf: Frame, b: Block)
    requires Linked(host, site, link, hs, hf, cs, cf) && BranchIn(link, b) && BranchFree(b, link.sub)
    ensures Linked(host, site, BranchLink(link, b), Within(hs, b), hf - Locals(b), Within(cs, b), cf - Locals(b))
  {
    EnterParams(host, site, link, hs, hf, cs, cf, b);
    EnterVars(link, hs, hf, cs, cf, b);
  }

  lemma {:induction false} EnterParams(host: Host, site: Env, link: Link, hs: Scope, hf: Frame, cs: Scope, cf: Frame, b: Block)
    requires ParamsLinked(host, site, link, hf, Env(cs, cf)) && BranchNames(b) <= link.names && BranchFree(b, link.sub)
    ensures ParamsLinked(host, site, BranchLink(link, b), hf - Locals(b), Env(Within(cs, b), cf - Locals(b)))
  {
    var l, inner := Locals(b), BranchLink(link, b);
    var cs', cf' := Within(cs, b), cf - l;
    forall p | p in inner.names && p in Params(inner)
      ensures p in hf - l && p in inner.bound && (hf - l)[p] == inner.bound[p] && Stands(host, site, inner, Env(cs', cf'), p)
    {
      assert p in BranchNames(b) && Stands(host, site, link, Env(cs, cf), p);
      StandsStill(host, site, link, Env(cs, cf), Env(cs', cf'), p);
    }
  }

  lemma {:induction false} EnterVars(link: Link, hs: Scope, hf: Frame, cs: Scope, cf: Frame, b: Block)
    requires VarsLinked(link, hs, hf, cs, cf) && TargetsClear(link, hs) && BranchNames(b) <= link.names && BranchFree(b, link.sub)
    ensures VarsLinked(BranchLink(link, b), Within(hs, b), hf - Locals(b), Within(cs, b), cf - Locals(b))
    ensures TargetsClear(BranchLink(link, b), Within(hs, b))
  {
    var l, inner := Locals(b), BranchLink(link, b);
    forall x | x in Vars(inner) ensures SameVar(Within(hs, b), hf - l, Within(cs, b), cf - l, x, Target(inner, x)) {
      if x !in l { BranchVar(link, hs, hf, cs, cf, b, x); }
    }
    forall x | x in Vars(inner) && x !in l ensures x in Vars(link) && Target(inner, x) == Target(link, x) && Target(link, x) !in l {
      assert x in BranchNames(b);
    }
  }

  lemma {:induction false} BranchVar(link: Link, hs: Scope, hf: Frame, cs: Scope, cf: Frame, b: Block, x: string)
    requires VarsLinked(link, hs, hf, cs, cf) && BranchNames(b) <= link.names && BranchFree(b, link.sub)
    requires x in BranchNames(b) && x !in Params(link)
    ensures Target(link, x) !in Locals(b)
    ensures SameVar(Within(hs, b), hf - Locals(b), Within(cs, b), cf - Locals(b), x, Target(link, x))
  {
    assert x in Vars(link);
    assert SameVar(hs, hf, cs, cf, x, Target(link, x));
  }

  lemma {:induction false} BranchSimulates(host: Host, site: Env, link: Link, hs: Scope, hf: Frame, cs: Scope, cf: Frame, b: Block, w: World)
    requires Linked(host, site, link, hs, hf, cs, cf) && BranchIn(link, b) && BlockWrites(Params(link) - Locals(b), b)
    requires BranchFree(b, link.sub)
    requires BranchReads(host, hs, hf, link.left.Keys, b, w, SiteYields(host, site, link))
    ensures Matches(host, site, link, hs, hf, cs, cf, ExecBranch(host, hs, b, hf, w),
                    ExecBranch(host, cs, SubstBlock(b, link.sub - Locals(b)), cf, w))
    decreases b, 1
  {
    var l, inner := Locals(b), BranchLink(link, b);
    EnterBranch(host, site, link, hs, hf, cs, cf, b);
    SubstKeepsLocals(b, inner.sub);
    assert Params(inner) == Params(link) - l && inner.left.Keys == link.left.Keys - l;
    FewerReads(host, Within(hs, b), hf - l, inner.left.Keys, b, w, SiteYields(host, site, link), SiteYields(host, site, inner));
    BlockSimulates(host, site, inner, Within(hs, b), hf - l, Within(cs, b), cf - l, b, w);
    var h := ExecBlock(host, Within(hs, b), b, hf - l, w);
    var c := ExecBlock(host, Within(cs, b), SubstBlock(b, inner.sub), cf - l, w);
    LeaveBranch(host, site, link, hs, hf, cs, cf, b, h.1, c.1);
  }

  lemma {:induction false} LeaveBranch(host: Host, site: Env, link: Link, hs: Scope, hf: Frame, cs: Scope, cf: Frame, b: Block,
                                       hf1: Frame, cf1: Frame)
    requires Linked(host, site, link, hs, hf, cs, cf) && BranchNames(b) <= link.names && BranchFree(b, link.sub)
    requires Linked(host, site, BranchLink(link, b), Within(hs, b), hf1, Within(cs, b), cf1)
    requires OnlyVars(BranchLink(link, b), Within(hs, b), hf - Locals(b), hf1, cf - Locals(b), cf1)
    ensures Linked(host, site, link, hs, Leave(hf, hf1, Locals(b)), cs, Leave(cf, cf1, Locals(b)))
    ensures OnlyVars(link, hs, hf, Leave(hf, hf1, Locals(b)), cf, Leave(cf, cf1, Locals(b)))
  {
    var l := Locals(b);
    var hf', cf' := Leave(hf, hf1, l), Leave(cf, cf1, l);
    LeaveKeeps(link, hs, hf, cf, b, hf1, cf1);
    forall p | p in link.names && p in Params(link)
      ensures p in hf' && p in link.bound && hf'[p] == link.bound[p] && Stands(host, site, link, Env(cs, cf'), p)
    {
      assert Stands(host, site, link, Env(cs, cf), p);
      assert SameAt(hf, hf', p);
      assert forall n :: n in Names(link.sub[p]) ==> !IsTarget(link, hs, n);
      StandsStill(host, site, link, Env(cs, cf), Env(cs, cf'), p);
    }
    forall x | x in Vars(link) ensures SameVar(hs, hf', cs, cf', x, Target(link, x)) {
      LeaveVar(host, site, link, hs, hf, cs, cf, b, hf1, cf1, x);
    }
  }

  /** Outside the variables in use, leaving a branch leaves both frames as they were before it. */
  lemma {:induction false} LeaveKeeps(link: Link, hs: Scope, hf: Frame, cf: Frame, b: Block, hf1: Frame, cf1: Frame)
    requires hf.Keys <= hs.declared && BranchNames(b) <= link.names && BranchFree(b, link.sub)
    requires forall x :: x in Vars(link) && x in link.sub ==> link.sub[x].Name?
    requires OnlyVars(BranchLink(link, b), Within(hs, b), hf - Locals(b), hf1, cf - Locals(b), cf1)
    ensures OnlyVars(link, hs, hf, Leave(hf, hf1, Locals(b)), cf, Leave(cf, cf1, Locals(b)))
  {
    var l, inner := Locals(b), BranchLink(link, b);
    forall x | x !in Vars(link) ensures SameAt(hf, Leave(hf, hf1, l), x) {
      if x !in l { assert SameAt(hf - l, hf1, x); }
    }
    forall n | !IsTarget(link, hs, n) ensures SameAt(cf, Leave(cf, cf1, l), n) {
      if n !in l {
        assert !IsTarget(inner, Within(hs, b), n) by { InnerTargets(link, hs, b, n); }
        assert SameAt(cf - l, cf1, n);
      }
    }
  }

  /** A name written in the branch under a name it does not bind is a target outside as well. */
  lemma {:induction false} InnerTargets(link: Link, hs: Scope, b: Block, n: string)
    requires BranchNames(b) <= link.names && n !in Locals(b)
    ensures IsTarget(BranchLink(link, b), Within(hs, b), n) ==> IsTarget(link, hs, n)
    ensures IsTarget(BranchLink(link, b), Within(hs, b), n) ==>
              exists x :: x in BranchNames(b) && x in Vars(link) && x in hs.declared && n == Target(link, x)
  {
    var inner := BranchLink(link, b);
    if IsTarget(inner, Within(hs, b), n) {
      var x :| x in Vars(inner) && x in Within(hs, b).declared && n == Target(inner, x);
      assert x in Locals(b) ==> Target(inner, x) == x;
      assert x in BranchNames(b) && x in Vars(link) && x in hs.declared && n == Target(link, x);
    }
  }

  lemma {:induction false} LeaveVar(host: Host, site: Env, link: Link, hs: Scope, hf: Frame, cs: Scope, cf: Frame, b: Block,
                                    hf1: Frame, cf1: Frame, x: string)
    requires Linked(host, site, link, hs, hf, cs, cf) && BranchNames(b) <= link.names && BranchFree(b, link.sub)
    requires Linked(host, site, BranchLink(link, b), Within(hs, b), hf1, Within(cs, b), cf1)
    requires OnlyVars(BranchLink(link, b), Within(hs, b), hf - Locals(b), hf1, cf - Locals(b), cf1)
    requires x in Vars(link)
    ensures SameVar(hs, Leave(hf, hf1, Locals(b)), cs, Leave(cf, cf1, Locals(b)), x, Target(link, x))
  {
    var l, inner, n := Locals(b), BranchLink(link, b), Target(link, x);
    assert SameVar(hs, hf, cs, cf, x, n);
    if x in BranchNames(b) {
      assert x in Vars(inner) && Target(inner, x) == n;
      BranchVar(link, hs, hf, cs, cf, b, x);
      assert SameVar(Within(hs, b), hf1, Within(cs, b), cf1, x, n);
    } else {
      UntouchedVar(link, hs, hf, cs, cf, b, hf1, cf1, x);
    }
  }

  /** A variable the branch does not refer to is left alone, and so is its name at the caller. */
  lemma {:induction false} UntouchedVar(link: Link, hs: Scope, hf: Frame, cs: Scope, cf: Frame, b: Block,
                                        hf1: Frame, cf1: Frame, x: string)
    requires hf.Keys <= hs.declared && VarsLinked(link, hs, hf, cs, cf) && BranchNames(b) <= link.names && BranchFree(b, link.sub)
    requires OnlyVars(BranchLink(link, b), Within(hs, b), hf - Locals(b), hf1, cf - Locals(b), cf1)
    requires x in Vars(link) && x !in BranchNames(b)
    ensures SameAt(hf, Leave(hf, hf1, Locals(b)), x) && SameAt(cf, Leave(cf, cf1, Locals(b)), Target(link, x))
  {
    var l, inner, n := Locals(b), BranchLink(link, b), Target(link, x);
    if x !in l {
      assert x !in Vars(inner);
      assert SameAt(hf - l, hf1, x);
    }
    if n !in l {
      InnerTargets(link, hs, b, n);
      OthersTarget(link, hs, hf, cs, cf, x);
      assert SameAt(cf - l, cf1, n);
    }
  }

  /** No other variable has the name given to `x`. */
  lemma {:induction false} OthersTarget(link: Link, hs: Scope, hf: Frame, cs: Scope, cf: Frame, x: string)
    requires hf.Keys <= hs.declared && VarsLinked(link, hs, hf, cs, cf) && x in Vars(link)
    ensures forall y :: y in Vars(link) && y in hs.declared && Target(link, y) == Target(link, x) ==> y == x
  {
    forall y | y in Vars(link) && y in hs.declared && Target(link, y) == Target(link, x) ensures x in hs.declared {
      assert SameVar(hs, hf, cs, cf, x, Target(link, x)) && SameVar(hs, hf, cs, cf, y, Target(link, y));
    }
  }

  // ----- Reads that ask less -----

  /** What holds at every read may be weakened, for fewer names. */
  lemma {:induction false} FewerReads(host: Host, scope: Scope, f: Frame, ps: set<string>, b: Block, w: World, q: Visit, r: Visit)
    requires BlockReads(host, scope, f, ps, b, w, q)
    requires forall x, v: World :: x in ps && q(x, v) ==> r(x, v)
    ensures BlockReads(host, scope, f, ps, b, w, r)
    decreases b, 0
  {
    match b
    case Done =>
    case Then(s, rest) =>
      var (c, f1, w1) := Exec(host, scope, s, f, w);
      FewerStmtReads(host, scope, f, ps, s, w, q, r);
      if c.Normal? { FewerReads(host, scope, f1, ps, rest, w1, q, r); }
  }

  lemma {:induction false} FewerStmtReads(host: Host, scope: Scope, f: Frame, ps: set<string>, s: Stmt, w: World, q: Visit, r: Visit)
    requires StmtReads(host, scope, f, ps, s, w, q)
    requires forall x, v: World :: x in ps && q(x, v) ==> r(x, v)
    ensures StmtReads(host, scope, f, ps, s, w, r)
    decreases s, 0
  {
    var env := Env(scope, f);
    match s
    case Do(e) => FewerExprReads(host, env, ps, e, w, q, r);
    case Let(_, e) => FewerExprReads(host, env, ps, e, w, q, r);
    case Set(_, e) => FewerExprReads(host, env, ps, e, w, q, r);
    case If(c, t, e) =>
      FewerExprReads(host, env, ps, c, w, q, r);
      var (v, w1) := Eval(host, env, c, w);
      if v.Ok? {
        if Truthy(v.value) {
          FewerReads(host, Within(scope, t), f - Locals(t), ps - Locals(t), t, w1, q, r);
        } else {
          FewerReads(host, Within(scope, e), f - Locals(e), ps - Locals(e), e, w1, q, r);
        }
      }
  }

  lemma {:induction false} FewerExprReads(host: Host, env: Env, ps: set<string>, e: Expr, w: World, q: Visit, r: Visit)
    requires Reads(host, env, ps, e, w, q)
    requires forall x, v: World :: x in ps && q(x, v) ==> r(x, v)
    ensures Reads(host, env, ps, e, w, r)
    decreases e
  {
    match e
    case Lit(_) =>
    case Name(_) =>
    case Get(o, _) => FewerExprReads(host, env, ps, o, w, q, r);
    case Call(c, args) =>
      FewerExprReads(host, env, ps, c, w, q, r);
      var (t, w1) := EvalCallee(host, env, c, w);
      if t.Ok? { FewerArgsReads(host, env, ps, args, w1, q, r); }
    case Not(x) => FewerExprReads(host, env, ps, x, w, q, r);
    case Bin(op, l, m) =>
      FewerExprReads(host, env, ps, l, w, q, r);
      var (a, w1) := Eval(host, env, l, w);
      if GoesRight(op, a) { FewerExprReads(host, env, ps, m, w1, q, r); }
    case Paren(x) => FewerExprReads(host, env, ps, x, w, q, r);
  }

  lemma {:induction false} FewerArgsReads(host: Host, env: Env, ps: set<string>, args: Args, w: World, q: Visit, r: Visit)
    requires ArgsRead(host, env, ps, args, w, q)
    requires forall x, v: World :: x in ps && q(x, v) ==> r(x, v)
    ensures ArgsRead(host, env, ps, args, w, r)
    decreases args
  {
    match args
    case NoArgs =>
    case Arg(h, t) =>
      FewerExprReads(host, env, ps, h, w, q, r);
      var (v, w1) := Eval(host, env, h, w);
      if v.Ok? { FewerArgsReads(host, env, ps, t, w1, q, r); }
  }
}
