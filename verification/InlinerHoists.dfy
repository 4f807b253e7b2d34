/**
 What becomes of each argument. By default an argument stays in place only if it calls nothing and
 is used once or is a chain of member reads; every other one is evaluated in front, in argument
 order, so that argument lists mixing calls and plain reads are inlined exactly when what stays in
 place is undisturbed.
 */
module InlinerHoists {
  import opened Wrappers
  import opened JsExpr
  import opened JsSemantics
  import opened GuardInversion
  import opened FreshNames
  import opened Inliner
  import opened InlinerSoundness
  import opened InlinerArguments
  import opened InlinerTheorems
  import opened InlinerDefault

  // ----- How often a name is used -----

  /** The names an expression mentions, one by one, from left to right. */
  function Mentions(e: Expr): seq<string>
    decreases e
  {
    match e
    case Lit(_) => []
    case Name(x) => [x]
    case Get(o, _) => Mentions(o)
    case Call(c, args) => Mentions(c) + ArgMentions(args)
    case Not(x) => Mentions(x)
    case Bin(_, l, r) => Mentions(l) + Mentions(r)
    case Paren(x) => Mentions(x)
  }

  function ArgMentions(args: Args): seq<string>
    decreases args
  {
    match args
    case NoArgs => []
    case Arg(h, t) => Mentions(h) + ArgMentions(t)
  }

  /** The mentions that refer to a name of the helper, a branch's own names left out. */
  function StmtMentions(s: Stmt): seq<string>
    decreases s
  {
    match s
    case Do(e) => Mentions(e)
    case Let(_, e) => Mentions(e)
    case Set(x, e) => [x] + Mentions(e)
    case If(c, t, e) => Mentions(c) + Outside(BlockMentions(t), Locals(t)) + Outside(BlockMentions(e), Locals(e))
  }

  function BlockMentions(b: Block): seq<string>
    decreases b
  {
    match b
    case Done => []
    case Then(s, rest) => StmtMentions(s) + BlockMentions(rest)
  }

  function Outside(names: seq<string>, own: set<string>): seq<string> {
    if names == [] then [] else (if names[0] in own then [] else [names[0]]) + Outside(names[1..], own)
  }

  function GuardMentions(gs: seq<Expr>): seq<string> {
    if gs == [] then [] else Mentions(gs[0]) + GuardMentions(gs[1..])
  }

  lemma {:induction false} OutsideCount(names: seq<string>, own: set<string>, x: string)
    ensures multiset(Outside(names, own))[x] == if x in own then 0 else multiset(names)[x]
    decreases |names|
  {
    if names != [] {
      OutsideCount(names[1..], own, x);
      assert names == [names[0]] + names[1..];
    }
  }

  lemma {:induction false} UsesCount(e: Expr, x: string)
    ensures Uses(e, x) == multiset(Mentions(e))[x]
    decreases e
  {
    match e
    case Get(o, _) => UsesCount(o, x);
    case Call(c, args) => UsesCount(c, x); ArgUsesCount(args, x);
    case Not(i) => UsesCount(i, x);
    case Bin(_, l, r) => UsesCount(l, x); UsesCount(r, x);
    case Paren(i) => UsesCount(i, x);
    case _ =>
  }

  lemma {:induction false} ArgUsesCount(args: Args, x: string)
    ensures ArgUses(args, x) == multiset(ArgMentions(args))[x]
    decreases args
  {
    if args.Arg? {
      UsesCount(args.hd, x);
      ArgUsesCount(args.tl, x);
    }
  }

  lemma {:induction false} StmtUsesCount(s: Stmt, x: string)
    ensures StmtUses(s, x) == multiset(StmtMentions(s))[x]
    decreases s
  {
    match s
    case Do(e) => UsesCount(e, x);
    case Let(_, e) => UsesCount(e, x);
    case Set(y, e) => UsesCount(e, x);
    case If(c, t, e) =>
      UsesCount(c, x);
      BlockUsesCount(t, x);
      BlockUsesCount(e, x);
      OutsideCount(BlockMentions(t), Locals(t), x);
      OutsideCount(BlockMentions(e), Locals(e), x);
  }

  lemma {:induction false} BlockUsesCount(b: Block, x: string)
    ensures BlockUses(b, x) == multiset(BlockMentions(b))[x]
    decreases b
  {
    if b.Then? {
      StmtUsesCount(b.s, x);
      BlockUsesCount(b.rest, x);
    }
  }

  lemma {:induction false} GuardUsesCount(gs: seq<Expr>, x: string)
    ensures GuardUses(gs, x) == multiset(GuardMentions(gs))[x]
    decreases |gs|
  {
    if gs != [] {
      UsesCount(gs[0], x);
      GuardUsesCount(gs[1..], x);
    }
  }

  /** The helper's uses of a name are the mentions of it in guards and tail. */
  lemma {:induction false} UsesAreMentions(h: Helper, x: string)
    ensures HelperUses(h, x) == multiset(GuardMentions(h.guards) + BlockMentions(h.tail))[x]
  {
    GuardUsesCount(h.guards, x);
    BlockUsesCount(h.tail, x);
  }

  // ----- What stays in place by default -----

  /** As a parser gives it: literals are numbers, strings, booleans and `null`. */
  predicate Sourced(e: Expr)
    decreases e
  {
    match e
    case Lit(v) => v.Number? || v.Str? || v.Bool? || v.Null?
    case Name(_) => true
    case Get(o, _) => Sourced(o)
    case Call(c, args) => Sourced(c) && ArgsSourced(args)
    case Not(x) => Sourced(x)
    case Bin(_, l, r) => Sourced(l) && Sourced(r)
    case Paren(x) => Sourced(x)
  }

  predicate ArgsSourced(args: Args)
    decreases args
  {
    match args
    case NoArgs => true
    case Arg(h, t) => Sourced(h) && ArgsSourced(t)
  }

  predicate AllSourced(args: seq<Expr>) {
    forall i :: 0 <= i < |args| ==> Sourced(args[i])
  }

  /** A literal, a name, or member reads from one. */
  predicate Chain(e: Expr)
    decreases e
  {
    match e
    case Lit(_) | Name(_) => true
    case Get(o, _) => Chain(o)
    case Paren(x) => Chain(x)
    case _ => false
  }

  predicate StaysPut(arg: Expr, uses: nat) {
    Calm(arg) && (uses == 1 || (uses > 1 && Chain(arg)))
  }

  lemma {:induction false} PureIffCalm(e: Expr)
    requires Sourced(e)
    ensures IsPure(e, false) <==> Calm(e)
    decreases e
  {
    match e
    case Get(o, _) => PureIffCalm(o);
    case Not(x) => PureIffCalm(x);
    case Bin(_, l, r) => PureIffCalm(l); PureIffCalm(r);
    case Paren(x) => PureIffCalm(x);
    case _ =>
  }

  lemma {:induction false} DuplicableIffChain(e: Expr)
    requires Sourced(e)
    ensures IsDuplicable(e, false) <==> Chain(e)
    decreases e
  {
    match e
    case Get(o, _) => DuplicableIffChain(o);
    case Paren(x) => DuplicableIffChain(x);
    case _ =>
  }

  /** In front: the argument as a temporary if its parameter is used, and for its effect if not. */
  function InFront(arg: Expr, used: bool, text: Option<Expr>): seq<Stmt> {
    if !used then [Do(arg)]
    else if text.Some? && text.value.Name? then [Let(text.value.x, arg)]
    else []
  }

  function TextOf(sub: map<string, Expr>, p: string): Option<Expr> {
    if p in sub then Some(sub[p]) else None
  }

  /** The prefix: by argument, in order, what `kept` does not keep out of it. */
  function Fronted(h: Helper, params: seq<string>, args: seq<Expr>, sub: map<string, Expr>, kept: (Expr, nat) -> bool): seq<Stmt>
    decreases |params|
  {
    if params == [] || args == [] then []
    else
      var uses, rest := HelperUses(h, params[0]), Fronted(h, params[1..], args[1..], sub, kept);
      if kept(args[0], uses) then rest else InFront(args[0], uses > 0, TextOf(sub, params[0])) + rest
  }

  /** By default: what stays in place, and what nobody uses and calls nothing. */
  function DefaultKept(): (Expr, nat) -> bool {
    (arg: Expr, uses: nat) => if uses == 0 then Calm(arg) else StaysPut(arg, uses)
  }

  /** Under strict effects: unused literals. */
  function StrictKept(): (Expr, nat) -> bool {
    (arg: Expr, uses: nat) => uses == 0 && StripParens(arg).Lit?
  }

  function KeptBy(strict: bool): (Expr, nat) -> bool {
    if strict then StrictKept() else DefaultKept()
  }

  /** What stands for a used parameter: its argument, a name of its own, or `undefined`. */
  predicate TextFits(arg: Option<Expr>, uses: nat, text: Expr, kept: (Expr, nat) -> bool) {
    if arg.None? then text == Lit(Undefined)
    else if kept(arg.value, uses) then text == arg.value || text == Paren(arg.value)
    else text.Name?
  }

  ghost predicate TextsFit(h: Helper, params: seq<string>, args: seq<Expr>, sub: map<string, Expr>, kept: (Expr, nat) -> bool)
    decreases |params|
  {
    params != [] ==>
      && (HelperUses(h, params[0]) > 0 ==>
            params[0] in sub && TextFits(First(args), HelperUses(h, params[0]), sub[params[0]], kept))
      && TextsFit(h, params[1..], Rest(args), sub, kept)
  }

  lemma {:induction false} SameTexts(h: Helper, params: seq<string>, args: seq<Expr>, sub: map<string, Expr>, more: map<string, Expr>,
                                     kept: (Expr, nat) -> bool)
    requires forall p :: p in params ==> TextOf(sub, p) == TextOf(more, p)
    ensures Fronted(h, params, args, sub, kept) == Fronted(h, params, args, more, kept)
    ensures TextsFit(h, params, args, sub, kept) ==> TextsFit(h, params, args, more, kept)
    decreases |params|
  {
    if params != [] {
      assert forall p :: p in params[1..] ==> p in params;
      assert params[0] in params && TextOf(sub, params[0]) == TextOf(more, params[0]);
      SameTexts(h, params[1..], Rest(args), sub, more, kept);
    }
  }

  /** The decision for one argument. */
  lemma {:induction false} OneIsPlanned(p: string, arg: Option<Expr>, uses: nat, strict: bool, taken: set<string>)
    requires arg.Some? ==> Sourced(arg.value)
    ensures var b, kept := BuildParam(p, arg, uses, strict, taken), KeptBy(strict);
      && b.prefix == (if arg.None? || kept(arg.value, uses) then [] else InFront(arg.value, uses > 0, TextOf(b.sub, p)))
      && b.sub.Keys == (if uses > 0 then {p} else {})
      && (uses > 0 ==> TextFits(arg, uses, b.sub[p], kept))
  {
    if arg.Some? {
      PureIffCalm(arg.value);
      DuplicableIffChain(arg.value);
      StrictLiteral(arg.value);
    }
  }

  /** A literal, in parentheses or not, has no effect to preserve; and only literals strip to one. */
  lemma {:induction false} StrictLiteral(e: Expr)
    requires Sourced(e)
    ensures StripParens(e).Lit? ==> IsLiteral(StripParens(e)) && IsPure(e, true)
    decreases e
  {
    if e.Paren? { StrictLiteral(e.inner); }
  }

  ghost predicate Planned(h: Helper, params: seq<string>, args: seq<Expr>, b: Built, kept: (Expr, nat) -> bool) {
    && (forall p :: p in b.sub ==> p in params)
    && b.prefix == Fronted(h, params, args, b.sub, kept) && TextsFit(h, params, args, b.sub, kept)
  }

  lemma {:induction false} PlanJoins(h: Helper, params: seq<string>, args: seq<Expr>, b: Built, r: Built, kept: (Expr, nat) -> bool)
    requires params != [] && params[0] !in params[1..]
    requires Planned(h, params[1..], Rest(args), r, kept)
    requires b.prefix ==
      if args == [] || kept(args[0], HelperUses(h, params[0])) then [] else InFront(args[0], HelperUses(h, params[0]) > 0, TextOf(b.sub, params[0]))
    requires b.sub.Keys == if HelperUses(h, params[0]) > 0 then {params[0]} else {}
    requires HelperUses(h, params[0]) > 0 ==> TextFits(First(args), HelperUses(h, params[0]), b.sub[params[0]], kept)
    ensures Planned(h, params, args, Append(b, r), kept)
  {
    var p, sub := params[0], b.sub + r.sub;
    SameTexts(h, params[1..], Rest(args), r.sub, sub, kept);
    assert TextOf(sub, p) == TextOf(b.sub, p);
    if args == [] { NothingFronted(h, params[1..], sub, kept); }
  }

  lemma {:induction false} NothingFronted(h: Helper, params: seq<string>, sub: map<string, Expr>, kept: (Expr, nat) -> bool)
    ensures Fronted(h, params, [], sub, kept) == []
  {
  }

  /**
   The plan of all arguments. In front stand, in argument order, exactly those not kept, each as
   the temporary its parameter became if that is used; the others stand in place or are dropped.
   */
  lemma {:induction false} ArgumentsPlanned(h: Helper, params: seq<string>, args: seq<Expr>, strict: bool, taken: set<string>)
    requires Distinct(params) && AllSourced(args)
    ensures Planned(h, params, args, BuildParams(h, params, args, strict, taken), KeptBy(strict))
    decreases |params|
  {
    if params != [] {
      var p, uses := params[0], HelperUses(h, params[0]);
      var b := BuildParam(p, First(args), uses, strict, taken);
      OneIsPlanned(p, First(args), uses, strict, taken);
      forall i | 0 <= i < |Rest(args)| ensures Sourced(Rest(args)[i]) { assert Rest(args)[i] == args[i + 1]; }
      ArgumentsPlanned(h, params[1..], Rest(args), strict, b.taken);
      assert p !in params[1..];
      PlanJoins(h, params, args, b, BuildParams(h, params[1..], Rest(args), strict, b.taken), KeptBy(strict));
    }
  }

  // ----- Calls are made in front -----

  /** The statements of a prefix that call something. */
  function Calling(prefix: seq<Stmt>): seq<Stmt> {
    if prefix == [] then [] else OneCalling(prefix[0]) + Calling(prefix[1..])
  }

  function OneCalling(s: Stmt): seq<Stmt> {
    if (s.Do? && !Calm(s.e)) || (s.Let? && !Calm(s.init)) then [s] else []
  }

  /** The arguments that call something, each as its temporary or for its effect. */
  function CallsOf(h: Helper, params: seq<string>, args: seq<Expr>, sub: map<string, Expr>): seq<Stmt>
    decreases |params|
  {
    if params == [] || args == [] then []
    else
      var rest := CallsOf(h, params[1..], args[1..], sub);
      if Calm(args[0]) then rest else InFront(args[0], HelperUses(h, params[0]) > 0, TextOf(sub, params[0])) + rest
  }

  lemma {:induction false} CallingJoins(a: seq<Stmt>, b: seq<Stmt>)
    ensures Calling(a + b) == Calling(a) + Calling(b)
    decreases |a|
  {
    if a == [] {
      assert a + b == b;
    } else {
      CallingJoins(a[1..], b);
      var rest := Calling(a[1..]) + Calling(b);
      assert (a + b)[1..] == a[1..] + b && (a + b)[0] == a[0];
      assert OneCalling(a[0]) + rest == Calling(a) + Calling(b);
    }
  }

  lemma {:induction false} CallingFronted(h: Helper, params: seq<string>, args: seq<Expr>, sub: map<string, Expr>)
    ensures Calling(Fronted(h, params, args, sub, DefaultKept())) == CallsOf(h, params, args, sub)
    decreases |params|
  {
    if params != [] && args != [] {
      var uses := HelperUses(h, params[0]);
      var front := if DefaultKept()(args[0], uses) then [] else InFront(args[0], uses > 0, TextOf(sub, params[0]));
      CallingJoins(front, Fronted(h, params[1..], args[1..], sub, DefaultKept()));
      CallingFronted(h, params[1..], args[1..], sub);
      if front != [] { assert front[1..] == []; }
    }
  }

  /** By default no text that stands for a parameter calls anything, and all calls stand in front, in argument order. */
  lemma {:induction false} CallsInFront(h: Helper, args: seq<Expr>, taken: set<string>)
    requires Distinct(h.params) && AllSourced(args)
    ensures var b := BuildParams(h, h.params, args, false, taken);
      && Calling(b.prefix) == CallsOf(h, h.params, args, b.sub)
      && (forall p :: p in b.sub ==> Calm(b.sub[p]))
      && TextsFit(h, h.params, args, b.sub, DefaultKept())
  {
    ArgumentsPlanned(h, h.params, args, false, taken);
    CallingFronted(h, h.params, args, BuildParams(h, h.params, args, false, taken).sub);
    TextsCalm(h, h.params, args, taken);
  }

  lemma {:induction false} TextsCalm(h: Helper, params: seq<string>, args: seq<Expr>, taken: set<string>)
    requires AllSourced(args)
    ensures forall p :: p in BuildParams(h, params, args, false, taken).sub ==> Calm(BuildParams(h, params, args, false, taken).sub[p])
    decreases |params|
  {
    if params != [] {
      var b := BuildParam(params[0], First(args), HelperUses(h, params[0]), false, taken);
      OneIsPlanned(params[0], First(args), HelperUses(h, params[0]), false, taken);
      forall i | 0 <= i < |Rest(args)| ensures Sourced(Rest(args)[i]) { assert Rest(args)[i] == args[i + 1]; }
      TextsCalm(h, params[1..], Rest(args), b.taken);
    }
  }

  // ----- Mixed argument lists -----

  /** The arguments that stay in place, by parameter. */
  function InPlace(h: Helper, params: seq<string>, args: seq<Expr>): map<string, Expr>
    decreases |params|
  {
    if params == [] then map[]
    else
      var rest := InPlace(h, params[1..], Rest(args));
      if args != [] && StaysPut(args[0], HelperUses(h, params[0])) then rest[params[0] := args[0]] else rest
  }

  lemma {:induction false} InPlaceIsLeft(h: Helper, params: seq<string>, args: seq<Expr>)
    requires AllSourced(args)
    ensures InPlace(h, params, args) == LeftInPlace(h, params, args, false)
    decreases |params|
  {
    if params != [] {
      if args != [] {
        PureIffCalm(args[0]);
        DuplicableIffChain(args[0]);
      }
      forall i | 0 <= i < |Rest(args)| ensures Sourced(Rest(args)[i]) { assert Rest(args)[i] == args[i + 1]; }
      InPlaceIsLeft(h, params[1..], Rest(args));
    }
  }

  /** An argument that stays in place, or is dropped, has a value at its turn; calls may do as they like. */
  ghost predicate PlainTurns(host: Host, env: Env, h: Helper, params: seq<string>, args: seq<Expr>, w: World)
    decreases |args|
  {
    args != [] && params != [] ==>
      var (r, w1) := Eval(host, env, args[0], w);
      && (DefaultKept()(args[0], HelperUses(h, params[0])) ==> r.Ok?)
      && (r.Ok? ==> PlainTurns(host, env, h, params[1..], args[1..], w1))
  }

  lemma {:induction false} PlainTurnsQuiet(host: Host, env: Env, h: Helper, params: seq<string>, args: seq<Expr>, w: World)
    requires Plain(host) && AllSourced(args) && PlainTurns(host, env, h, params, args, w)
    ensures ArgsQuiet(host, env, h, params, args, false, w)
    decreases |args|
  {
    if args != [] && params != [] {
      var (r, w1) := Eval(host, env, args[0], w);
      PureIffCalm(args[0]);
      DuplicableIffChain(args[0]);
      if Calm(args[0]) { CalmIsQuiet(host, env, args[0], w); }
      if r.Ok? {
        forall i | 0 <= i < |args[1..]| ensures Sourced(args[1..][i]) { assert args[1..][i] == args[i + 1]; }
        PlainTurnsQuiet(host, env, h, params[1..], args[1..], w1);
      }
    }
  }

  /** At each read of a parameter whose argument stays in place, what the argument read is unchanged since its turn. */
  ghost predicate InPlaceUnchanged(host: Host, env: Env, module_: map<string, Cell>, h: Helper, args: seq<Expr>, w: World) {
    var (vs, w1) := EvalSeq(host, env, args, w);
    vs.Ok? ==>
      var left, hs, hf := InPlace(h, h.params, args), HelperScope(h, module_), Bind(h.params, vs.value);
      var q := Unchanged(host, env, left, TurnOf(host, env, h.params, args, w));
      var (run, w2) := RunGuards(host, Env(hs, hf), h.guards, w1);
      GuardsRead(host, Env(hs, hf), left.Keys, h.guards, w1, q) && (run.Passed? ==> BlockReads(host, hs, hf, left.Keys, h.tail, w2, q))
  }

  /**
   Default mode on any argument list. Arguments that call something, and all that are moved in front,
   may throw and have any effects; those that stay in place must have a value at their turn, and what
   they read must be unchanged where the helper reads the parameter.
   */
  lemma {:induction false} MixedExact(host: Host, env: Env, module_: map<string, Cell>, h: Helper, args: seq<Expr>, taken: set<string>, w: World)
    requires Plain(host) && Admitted(h) && SiteAdmits(env, module_, h, args, taken) && AllSourced(args)
    requires NoCapture(h, Build(h, args, false, taken)) && NoReceiver(h, Build(h, args, false, taken))
    requires GuardTextsRead(h, Build(h, args, false, taken)) && GuardsOrdered(host, env, module_, h, args, w)
    requires PlainTurns(host, env, h, h.params, args, w) && InPlaceUnchanged(host, env, module_, h, args, w)
    ensures SameRun(RunCall(host, env, module_, h, args, w), RunReplacement(host, env, Build(h, args, false, taken), w), env.frame)
  {
    InPlaceIsLeft(h, h.params, args);
    PlainTurnsQuiet(host, env, h, h.params, args, w);
    UnchangedExact(host, env, module_, h, args, false, taken, w);
  }

  // ----- Calls before everything that stays -----

  predicate AllCalm(args: seq<Expr>) {
    forall i :: 0 <= i < |args| ==> Calm(args[i])
  }

  /** After the first argument that stays in place no argument calls anything. */
  predicate CallsComeFirst(h: Helper, params: seq<string>, args: seq<Expr>)
    decreases |args|
  {
    args == [] || params == [] ||
    if StaysPut(args[0], HelperUses(h, params[0])) then AllCalm(args[1..])
    else CallsComeFirst(h, params[1..], args[1..])
  }

  lemma {:induction false} AllCalmQuiet(host: Host, env: Env, params: seq<string>, args: seq<Expr>, w: World)
    requires Plain(host) && AllCalm(args)
    ensures EvalSeq(host, env, args, w).1 == w
    ensures forall p :: p in TurnOf(host, env, params, args, w) ==> TurnOf(host, env, params, args, w)[p] == w
    decreases |args|
  {
    if args != [] {
      CalmIsQuiet(host, env, args[0], w);
      forall i | 0 <= i < |args[1..]| ensures Calm(args[1..][i]) { assert args[1..][i] == args[i + 1]; }
      AllCalmQuiet(host, env, if params == [] then [] else params[1..], args[1..], w);
    }
  }

  ghost predicate TurnsAt(turns: map<string, World>, ps: set<string>, w: World) {
    forall p :: p in ps && p in turns ==> turns[p] == w
  }

  /** Then everything that stays has its turn in the world the helper starts in. */
  lemma {:induction false} LateTurns(host: Host, env: Env, h: Helper, params: seq<string>, args: seq<Expr>, w: World)
    requires Plain(host) && Distinct(params) && CallsComeFirst(h, params, args) && EvalSeq(host, env, args, w).0.Ok?
    requires |args| <= |params|
    ensures TurnsAt(TurnOf(host, env, params, args, w), InPlace(h, params, args).Keys, EvalSeq(host, env, args, w).1)
    decreases |args|
  {
    if args == [] {
      InPlaceNothing(h, params);
    } else {
      InPlaceAreParams(h, params[1..], args[1..]);
      assert params[0] !in params[1..];
      if StaysPut(args[0], HelperUses(h, params[0])) {
        CalmIsQuiet(host, env, args[0], w);
        AllCalmQuiet(host, env, params[1..], args[1..], w);
      } else {
        LateTurns(host, env, h, params[1..], args[1..], Eval(host, env, args[0], w).1);
      }
    }
  }

  lemma {:induction false} InPlaceNothing(h: Helper, params: seq<string>)
    ensures InPlace(h, params, []) == map[]
    decreases |params|
  {
    if params != [] { InPlaceNothing(h, params[1..]); }
  }

  lemma {:induction false} InPlaceAreParams(h: Helper, params: seq<string>, args: seq<Expr>)
    ensures forall p :: p in InPlace(h, params, args) ==> p in params
    decreases |params|
  {
    if params != [] { InPlaceAreParams(h, params[1..], Rest(args)); }
  }

  /**
   Whatever its calls do: exact for a helper that reads the parameters left in place before its first
   call or assignment, on arguments of which those with calls come first.
   */
  lemma {:induction false} MixedReadsFirst(host: Host, env: Env, module_: map<string, Cell>, h: Helper, args: seq<Expr>, taken: set<string>, w: World)
    requires Plain(host) && Admitted(h) && SiteAdmits(env, module_, h, args, taken) && AllSourced(args)
    requires NoCapture(h, Build(h, args, false, taken)) && NoReceiver(h, Build(h, args, false, taken))
    requires GuardTextsRead(h, Build(h, args, false, taken)) && GuardsOrdered(host, env, module_, h, args, w)
    requires PlainTurns(host, env, h, h.params, args, w) && CallsComeFirst(h, h.params, args)
    requires HelperReadsFirst(InPlace(h, h.params, args).Keys, h.guards, h.tail)
    ensures SameRun(RunCall(host, env, module_, h, args, w), RunReplacement(host, env, Build(h, args, false, taken), w), env.frame)
  {
    InPlaceIsLeft(h, h.params, args);
    PlainTurnsQuiet(host, env, h, h.params, args, w);
    var (vs, w1) := EvalSeq(host, env, args, w);
    if vs.Ok? {
      var left, hf, turns := InPlace(h, h.params, args), Bind(h.params, vs.value), TurnOf(host, env, h.params, args, w);
      var q := StillYields(host, env, left, hf);
      TurnsYield(host, env, h, h.params, args, false, w, vs.value);
      LateTurns(host, env, h, h.params, args, w);
      forall x | x in left.Keys ensures q(x, w1) {
        assert YieldsAtTurn(host, env, left[x], turns, hf, x);
      }
      FirstHelperReads(host, HelperScope(h, module_), hf, left.Keys, h.guards, h.tail, w1, q);
    }
    InliningExact(host, env, module_, h, args, false, taken, w);
  }

  // ----- Renamed locals -----

  /** The name with the first free number from 2 on. */
  ghost predicate Numbered(base: string, name: string) {
    exists k: nat :: 2 <= k && name == base + "_" + Decimal(k)
  }

  /** A local of the tail is renamed when its name is taken, or was given to an earlier local, and then gets a number. */
  lemma {:induction false} RenamesWhatIsTaken(b: Block, taken: set<string>)
    requires NoTwice(b)
    ensures var ren := RenameLocals(b, taken);
            && ren.Keys <= Locals(b)
            && (forall x :: x in Locals(b) && x in taken ==> x in ren)
            && (forall x :: x in ren ==> (x in taken || x in ren.Values) && Numbered(x, ren[x]))
    decreases b
  {
    match b
    case Done =>
    case Then(s, rest) =>
      if s.Let? {
        FreshNameIs(s.x, taken);
        var added := if s.x in taken then FreshName(s.x, taken) else s.x;
        RenamesWhatIsTaken(rest, taken + {added});
        var inner, ren := RenameLocals(rest, taken + {added}), RenameLocals(b, taken);
        forall x | x in inner ensures x in ren && ren[x] == inner[x] {
        }
        forall x | x in inner ensures x in taken || x in ren.Values {
          if x == added && x !in taken {
            assert x != s.x;
            assert ren[s.x] == x;
          } else if x in inner.Values {
            var y :| y in inner && inner[y] == x;
            assert ren[y] == x;
          }
        }
      } else {
        RenamesWhatIsTaken(rest, taken);
      }
  }
}
