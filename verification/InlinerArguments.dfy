/**
 The argument phase of inlining: running the hoisted prefix does what evaluating the
 arguments does, and afterwards everything that stands for a parameter does what it should.
 */
module InlinerArguments {
  import opened Wrappers
  import opened JsExpr
  import opened JsSemantics
  import opened GuardInversion
  import opened FreshNames
  import opened Inliner
  import opened InlinerSoundness

  // ----- Arguments left in place -----

  predicate Kept(arg: Expr, uses: nat, strict: bool) {
    uses > 0 && !Hoists(arg, uses, strict)
  }

  predicate Dropped(arg: Expr, uses: nat, strict: bool) {
    uses == 0 && BuildParam("", Some(arg), uses, strict, {}).prefix == []
  }

  /** Arguments evaluated later or not at all have, at their turn, a value and no effect. */
  ghost predicate ArgsQuiet(host: Host, env: Env, h: Helper, params: seq<string>, args: seq<Expr>, strict: bool, w: World)
    decreases |args|
  {
    args != [] && params != [] ==>
      var (r, w1) := Eval(host, env, args[0], w);
      var uses := HelperUses(h, params[0]);
      && (Kept(args[0], uses, strict) || Dropped(args[0], uses, strict) ==> r.Ok? && w1 == w)
      && (r.Ok? ==> ArgsQuiet(host, env, h, params[1..], args[1..], strict, w1))
  }

  /** The arguments that stand in the replacement themselves, by parameter. */
  function LeftInPlace(h: Helper, params: seq<string>, args: seq<Expr>, strict: bool): map<string, Expr>
    decreases |params|
  {
    if params == [] then map[]
    else
      var rest := LeftInPlace(h, params[1..], Rest(args), strict);
      if args != [] && Kept(args[0], HelperUses(h, params[0]), strict) then rest[params[0] := args[0]] else rest
  }

  ghost predicate Distinct(params: seq<string>) {
    forall i, j :: 0 <= i < j < |params| ==> params[i] != params[j]
  }

  /** An argument left in place means what it means at the call site; all else has the bound value. */
  ghost predicate Replaces(host: Host, site: Env, left: map<string, Expr>, env: Env, p: string, e: Expr, v: Value) {
    if p in left then forall u: World :: Eval(host, env, e, u) == Eval(host, site, left[p], u)
    else forall u: World :: Eval(host, env, e, u) == (Ok(v), u)
  }

  ghost predicate UsedAndBound(host: Host, site: Env, h: Helper, params: seq<string>, left: map<string, Expr>,
                               sub: map<string, Expr>, env: Env, f: Frame) {
    && left.Keys <= sub.Keys
    && (forall p :: p in sub <==> p in params && HelperUses(h, p) > 0)
    && (forall p :: p in sub ==> p in f && Replaces(host, site, left, env, p, sub[p], f[p]))
  }

  predicate Extends(f: Frame, f': Frame) {
    f.Keys <= f'.Keys && forall x :: x in f ==> f'[x] == f[x]
  }

  ghost predicate NamesTaken(args: seq<Expr>, taken: set<string>) {
    forall i :: 0 <= i < |args| ==> Names(args[i]) <= taken
  }

  ghost predicate LooksUpAlike(a: Env, b: Env, args: seq<Expr>) {
    forall i :: 0 <= i < |args| ==> SameLookup(a, b, Names(args[i]))
  }

  /** Adding names nobody refers to leaves every lookup as it was. */
  lemma {:induction false} ExtendedLookup(host: Host, a: Env, scope: Scope, f: Frame, f': Frame, e: Expr, taken: set<string>, w: World)
    requires Names(e) <= taken && SameLookup(a, Env(scope, f), Names(e))
    requires Extends(f, f') && f'.Keys - f.Keys !! taken
    ensures SameLookup(a, Env(scope, f'), Names(e))
    ensures Eval(host, Env(scope, f'), e, w) == Eval(host, a, e, w)
  {
    forall x, u: World | x in Names(e) ensures Lookup(a, x, u) == Lookup(Env(scope, f'), x, u) {
      assert Lookup(Env(scope, f'), x, u) == Lookup(Env(scope, f), x, u);
    }
    EvalSameLookup(host, a, Env(scope, f'), e, w);
  }

  /** What running the prefix leaves, compared with evaluating the arguments. */
  ghost predicate PrefixMatches(host: Host, site: Env, h: Helper, params: seq<string>, left: map<string, Expr>, b: Built,
                                taken: set<string>, scope: Scope, f: Frame,
                                call: (Result<seq<Value>, Value>, World), run: (Completion, Frame, World)) {
    && run.2 == call.1
    && (call.0.Err? ==> run.0 == Thrown(call.0.error))
    && Extends(f, run.1) && run.1.Keys - f.Keys !! taken
    && (call.0.Ok? ==>
          run.0.Normal? && run.1.Keys <= b.taken
          && UsedAndBound(host, site, h, params, left, b.sub, Env(scope, run.1), Bind(params, call.0.value)))
  }

  lemma {:induction false} PrefixSimulates(host: Host, env: Env, h: Helper, params: seq<string>, args: seq<Expr>, strict: bool,
                                           taken: set<string>, scope: Scope, f: Frame, w: World)
    requires Distinct(params) && |args| <= |params|
    requires NamesTaken(args, taken) && f.Keys <= taken
    requires LooksUpAlike(env, Env(scope, f), args)
    requires ArgsQuiet(host, env, h, params, args, strict, w)
    ensures var b := BuildParams(h, params, args, strict, taken);
      PrefixMatches(host, env, h, params, LeftInPlace(h, params, args, strict), b, taken, scope, f, EvalSeq(host, env, args, w),
        ExecBlock(host, scope, Prefixed(b.prefix, Done), f, w))
    decreases |params|
  {
    if params != [] {
      var p := params[0];
      var b := BuildParam(p, First(args), HelperUses(h, p), strict, taken);
      var (c, f', _) := ExecBlock(host, scope, Prefixed(b.prefix, Done), f, w);
      HeadRuns(host, env, p, args, HelperUses(h, p), strict, taken, scope, f, w);
      if c.Normal? {
        var rest := Rest(args);
        forall i | 0 <= i < |rest| ensures SameLookup(env, Env(scope, f'), Names(rest[i])) && Names(rest[i]) <= taken {
          assert rest[i] == args[i + 1];
          ExtendedLookup(host, env, scope, f, f', rest[i], taken, w);
        }
        HeadSteps(host, env, h, params, args, strict, taken, scope, f, w);
        PrefixSimulates(host, env, h, params[1..], rest, strict, b.taken, scope, f', AfterHead(host, env, args, w));
        var br := BuildParams(h, params[1..], rest, strict, b.taken);
        PrefixSplits(host, scope, b.prefix, br.prefix, f, w);
        PrefixCombines(host, env, h, params, args, strict, taken, scope, f, f', w, br,
          ExecBlock(host, scope, Prefixed(br.prefix, Done), f', AfterHead(host, env, args, w)));
      } else {
        PrefixFails(host, env, h, params, args, strict, taken, scope, f, w);
      }
    }
  }

  function AfterHead(host: Host, env: Env, args: seq<Expr>, w: World): World {
    if args == [] then w else Eval(host, env, args[0], w).1
  }

  /** A first statement that completes leaves the world where the first argument does. */
  lemma {:induction false} HeadSteps(host: Host, env: Env, h: Helper, params: seq<string>, args: seq<Expr>, strict: bool, taken: set<string>,
                  scope: Scope, f: Frame, w: World)
    requires params != [] && f.Keys <= taken
    requires args != [] ==> Names(args[0]) <= taken && SameLookup(env, Env(scope, f), Names(args[0]))
    requires ArgsQuiet(host, env, h, params, args, strict, w)
    requires var b := BuildParam(params[0], First(args), HelperUses(h, params[0]), strict, taken);
      ExecBlock(host, scope, Prefixed(b.prefix, Done), f, w).0.Normal?
    ensures var b := BuildParam(params[0], First(args), HelperUses(h, params[0]), strict, taken);
      ExecBlock(host, scope, Prefixed(b.prefix, Done), f, w).2 == AfterHead(host, env, args, w)
    ensures args != [] ==> Eval(host, env, args[0], w).0.Ok?
    ensures ArgsQuiet(host, env, h, params[1..], Rest(args), strict, AfterHead(host, env, args, w))
  {
    var b := BuildParam(params[0], First(args), HelperUses(h, params[0]), strict, taken);
    HeadRuns(host, env, params[0], args, HelperUses(h, params[0]), strict, taken, scope, f, w);
    if args != [] && b.prefix == [] {
      assert Kept(args[0], HelperUses(h, params[0]), strict) || Dropped(args[0], HelperUses(h, params[0]), strict);
    }
  }

  lemma {:induction false} PrefixFails(host: Host, env: Env, h: Helper, params: seq<string>, args: seq<Expr>, strict: bool, taken: set<string>,
                    scope: Scope, f: Frame, w: World)
    requires params != [] && f.Keys <= taken
    requires args != [] ==> Names(args[0]) <= taken && SameLookup(env, Env(scope, f), Names(args[0]))
    requires var b := BuildParam(params[0], First(args), HelperUses(h, params[0]), strict, taken);
      !ExecBlock(host, scope, Prefixed(b.prefix, Done), f, w).0.Normal?
    ensures var b := BuildParams(h, params, args, strict, taken);
      PrefixMatches(host, env, h, params, LeftInPlace(h, params, args, strict), b, taken, scope, f, EvalSeq(host, env, args, w),
        ExecBlock(host, scope, Prefixed(b.prefix, Done), f, w))
  {
    var b := BuildParam(params[0], First(args), HelperUses(h, params[0]), strict, taken);
    HeadRuns(host, env, params[0], args, HelperUses(h, params[0]), strict, taken, scope, f, w);
    PrefixSplits(host, scope, b.prefix, BuildParams(h, params[1..], Rest(args), strict, b.taken).prefix, f, w);
    var (r, w1) := Eval(host, env, args[0], w);
    assert r.Err? && EvalSeq(host, env, args, w) == (Err(r.error), w1);
  }

  lemma {:induction false} PrefixCombines(host: Host, env: Env, h: Helper, params: seq<string>, args: seq<Expr>, strict: bool, taken: set<string>,
                       scope: Scope, f: Frame, f': Frame, w: World, br: Built, run: (Completion, Frame, World))
    requires params != [] && Distinct(params) && f.Keys <= taken
    requires args != [] ==> Names(args[0]) <= taken && SameLookup(env, Env(scope, f), Names(args[0]))
    requires args != [] ==> Eval(host, env, args[0], w).0.Ok?
    requires var b := BuildParam(params[0], First(args), HelperUses(h, params[0]), strict, taken);
      ExecBlock(host, scope, Prefixed(b.prefix, Done), f, w).1 == f' &&
      PrefixMatches(host, env, h, params[1..], LeftInPlace(h, params[1..], Rest(args), strict), br, b.taken, scope, f',
        EvalSeq(host, env, Rest(args), AfterHead(host, env, args, w)), run)
    ensures var b := BuildParam(params[0], First(args), HelperUses(h, params[0]), strict, taken);
      PrefixMatches(host, env, h, params, LeftInPlace(h, params, args, strict), Append(b, br), taken, scope, f,
        EvalSeq(host, env, args, w), run)
  {
    var b := BuildParam(params[0], First(args), HelperUses(h, params[0]), strict, taken);
    HeadRuns(host, env, params[0], args, HelperUses(h, params[0]), strict, taken, scope, f, w);
    EvalSeqHead(host, env, args, w);
    var rest, call := EvalSeq(host, env, Rest(args), AfterHead(host, env, args, w)), EvalSeq(host, env, args, w);
    if rest.0.Ok? {
      BoundCombines(host, env, h, params, args, strict, taken, scope, f, f', run.1, br.sub, w, call.0.value);
    }
    MatchesCombine(host, env, h, params, LeftInPlace(h, params, args, strict), LeftInPlace(h, params[1..], Rest(args), strict),
      b, br, taken, scope, f, f', rest, call, run);
  }

  lemma {:induction false} EvalSeqHead(host: Host, env: Env, args: seq<Expr>, w: World)
    requires args != [] ==> Eval(host, env, args[0], w).0.Ok?
    ensures var rest, call := EvalSeq(host, env, Rest(args), AfterHead(host, env, args, w)), EvalSeq(host, env, args, w);
      call.1 == rest.1 && (rest.0.Err? ==> call.0 == rest.0) && (rest.0.Ok? ==> call.0.Ok?)
    ensures var rest, call := EvalSeq(host, env, Rest(args), AfterHead(host, env, args, w)).0, EvalSeq(host, env, args, w).0;
      rest.Ok? ==> Rest(call.value) == rest.value
    ensures var call := EvalSeq(host, env, args, w).0;
      call.Ok? ==> if args == [] then call.value == []
                   else call.value != [] && call.value[0] == Eval(host, env, args[0], w).0.value
  {
  }

  lemma {:induction false} BoundCombines(host: Host, env: Env, h: Helper, params: seq<string>, args: seq<Expr>, strict: bool, taken: set<string>,
                      scope: Scope, f: Frame, f': Frame, f1: Frame, rest: map<string, Expr>, w: World, vs: seq<Value>)
    requires params != [] && Distinct(params) && f.Keys <= taken
    requires args != [] ==> Names(args[0]) <= taken && SameLookup(env, Env(scope, f), Names(args[0]))
    requires args != [] ==> Eval(host, env, args[0], w).0.Ok?
    requires var b := BuildParam(params[0], First(args), HelperUses(h, params[0]), strict, taken);
      ExecBlock(host, scope, Prefixed(b.prefix, Done), f, w).1 == f' &&
      Extends(f', f1) && f1.Keys - f'.Keys !! b.taken
    requires UsedAndBound(host, env, h, params[1..], LeftInPlace(h, params[1..], Rest(args), strict), rest, Env(scope, f1),
                          Bind(params[1..], Rest(vs)))
    requires if args == [] then vs == [] else vs != [] && vs[0] == Eval(host, env, args[0], w).0.value
    ensures var b := BuildParam(params[0], First(args), HelperUses(h, params[0]), strict, taken);
      UsedAndBound(host, env, h, params, LeftInPlace(h, params, args, strict), b.sub + rest, Env(scope, f1), Bind(params, vs))
  {
    var b := BuildParam(params[0], First(args), HelperUses(h, params[0]), strict, taken);
    HeadReplaces(host, env, h, params, args, strict, taken, scope, f, f', f1, w, vs);
    Combine(host, env, h, params, args, strict, rest, b.sub, Env(scope, f1), vs);
  }

  lemma {:induction false} HeadReplaces(host: Host, env: Env, h: Helper, params: seq<string>, args: seq<Expr>, strict: bool, taken: set<string>,
                      scope: Scope, f: Frame, f': Frame, f1: Frame, w: World, vs: seq<Value>)
    requires params != [] && Distinct(params) && f.Keys <= taken
    requires args != [] ==> Names(args[0]) <= taken && SameLookup(env, Env(scope, f), Names(args[0]))
    requires args != [] ==> Eval(host, env, args[0], w).0.Ok?
    requires var b := BuildParam(params[0], First(args), HelperUses(h, params[0]), strict, taken);
      ExecBlock(host, scope, Prefixed(b.prefix, Done), f, w).1 == f' &&
      Extends(f', f1) && f1.Keys - f'.Keys !! b.taken
    requires if args == [] then vs == [] else vs != [] && vs[0] == Eval(host, env, args[0], w).0.value
    ensures var b := BuildParam(params[0], First(args), HelperUses(h, params[0]), strict, taken);
      && b.sub.Keys == (if HelperUses(h, params[0]) > 0 then {params[0]} else {})
      && (HelperUses(h, params[0]) > 0 ==>
            Replaces(host, env, LeftInPlace(h, params, args, strict), Env(scope, f1), params[0], b.sub[params[0]],
                     if vs == [] then Undefined else vs[0]))
  {
    var uses := HelperUses(h, params[0]);
    HeadRuns(host, env, params[0], args, uses, strict, taken, scope, f, w);
    LeftAreParams(h, params[1..], Rest(args), strict);
    assert params[0] !in params[1..];
    if uses > 0 {
      HeadStands(host, env, h, params, args, strict, taken, scope, f, f', f1, w);
    }
  }

  lemma {:induction false} MatchesCombine(host: Host, site: Env, h: Helper, params: seq<string>, left: map<string, Expr>, less: map<string, Expr>,
                       b: Built, br: Built, taken: set<string>, scope: Scope,
                       f: Frame, f': Frame, rest: (Result<seq<Value>, Value>, World),
                       call: (Result<seq<Value>, Value>, World), run: (Completion, Frame, World))
    requires params != []
    requires Extends(f, f') && f'.Keys - f.Keys !! taken && taken <= b.taken
    requires PrefixMatches(host, site, h, params[1..], less, br, b.taken, scope, f', rest, run)
    requires call.1 == rest.1 && (rest.0.Err? ==> call.0 == rest.0)
    requires rest.0.Ok? ==> call.0.Ok?
    requires rest.0.Ok? ==>
      UsedAndBound(host, site, h, params, left, b.sub + br.sub, Env(scope, run.1), Bind(params, call.0.value))
    ensures PrefixMatches(host, site, h, params, left, Append(b, br), taken, scope, f, call, run)
  {
  }

  lemma {:induction false} PrefixSplits(host: Host, scope: Scope, a: seq<Stmt>, b: seq<Stmt>, f: Frame, w: World)
    requires |a| <= 1
    ensures var (c, f1, w1) := ExecBlock(host, scope, Prefixed(a, Done), f, w);
      ExecBlock(host, scope, Prefixed(a + b, Done), f, w) ==
        if c.Normal? then ExecBlock(host, scope, Prefixed(b, Done), f1, w1) else (c, f1, w1)
  {
    if a == [] {
      assert a + b == b;
    } else {
      assert (a + b)[1..] == b && a[1..] == [];
    }
  }

  /** The first parameter's prefix statement evaluates its argument as the call does. */
  lemma {:induction false} HeadRuns(host: Host, env: Env, p: string, args: seq<Expr>, uses: nat, strict: bool,
                 taken: set<string>, scope: Scope, f: Frame, w: World)
    requires args != [] ==> Names(args[0]) <= taken && SameLookup(env, Env(scope, f), Names(args[0]))
    requires f.Keys <= taken
    ensures var b := BuildParam(p, First(args), uses, strict, taken);
      var (c, f', w') := ExecBlock(host, scope, Prefixed(b.prefix, Done), f, w);
      && Extends(f, f') && f'.Keys - f.Keys !! taken && f'.Keys <= b.taken && taken <= b.taken
      && (b.prefix == [] ==> (c, f', w') == (Normal, f, w))
      && (b.prefix != [] ==>
            args != [] &&
            var (r, w1) := Eval(host, env, args[0], w);
            w' == w1 && c == (if r.Ok? then Normal else Thrown(r.error))
            && (r.Ok? && uses > 0 ==>
                  b.sub == map[p := Name(TempName(p, taken))] && TempName(p, taken) in f' && f'[TempName(p, taken)] == r.value))
  {
    if args != [] { EvalSameLookup(host, env, Env(scope, f), args[0], w); }
    var b := BuildParam(p, First(args), uses, strict, taken);
    if b.prefix != [] {
      assert b.prefix[1..] == [];
    }
  }

  /** What replaces the first parameter still does so once the whole prefix has run. */
  lemma {:induction false} HeadStands(host: Host, env: Env, h: Helper, params: seq<string>, args: seq<Expr>, strict: bool, taken: set<string>,
                   scope: Scope, f: Frame, f': Frame, f1: Frame, w: World)
    requires params != [] && HelperUses(h, params[0]) > 0
    requires args != [] ==> Names(args[0]) <= taken && SameLookup(env, Env(scope, f), Names(args[0]))
    requires args != [] ==> Eval(host, env, args[0], w).0.Ok?
    requires Extends(f, f') && f'.Keys - f.Keys !! taken && Extends(f', f1) && f1.Keys - f'.Keys !! taken
    requires args != [] && Hoists(args[0], HelperUses(h, params[0]), strict) ==>
      TempName(params[0], taken) in f' && f'[TempName(params[0], taken)] == Eval(host, env, args[0], w).0.value
    ensures var b := BuildParam(params[0], First(args), HelperUses(h, params[0]), strict, taken);
      params[0] in b.sub &&
      if args != [] && Kept(args[0], HelperUses(h, params[0]), strict)
      then forall u: World :: Eval(host, Env(scope, f1), b.sub[params[0]], u) == Eval(host, env, args[0], u)
      else forall u: World ::
        Eval(host, Env(scope, f1), b.sub[params[0]], u) == (Ok(if args == [] then Undefined else Eval(host, env, args[0], w).0.value), u)
  {
    var uses := HelperUses(h, params[0]);
    if args != [] && !Hoists(args[0], uses, strict) {
      forall u: World ensures Eval(host, Env(scope, f1), args[0], u) == Eval(host, env, args[0], u) {
        ExtendedLookup(host, env, scope, f, f1, args[0], taken, u);
      }
    }
  }

  lemma {:induction false} LeftAreParams(h: Helper, params: seq<string>, args: seq<Expr>, strict: bool)
    ensures forall p :: p in LeftInPlace(h, params, args, strict) ==> p in params && HelperUses(h, p) > 0
    decreases |params|
  {
    if params != [] { LeftAreParams(h, params[1..], Rest(args), strict); }
  }

  lemma {:induction false} Combine(host: Host, site: Env, h: Helper, params: seq<string>, args: seq<Expr>, strict: bool,
                rest: map<string, Expr>, head: map<string, Expr>, env: Env, vs: seq<Value>)
    requires params != [] && Distinct(params)
    requires UsedAndBound(host, site, h, params[1..], LeftInPlace(h, params[1..], Rest(args), strict), rest, env, Bind(params[1..], Rest(vs)))
    requires head.Keys == if HelperUses(h, params[0]) > 0 then {params[0]} else {}
    requires HelperUses(h, params[0]) > 0 ==>
      Replaces(host, site, LeftInPlace(h, params, args, strict), env, params[0], head[params[0]], if vs == [] then Undefined else vs[0])
    ensures UsedAndBound(host, site, h, params, LeftInPlace(h, params, args, strict), head + rest, env, Bind(params, vs))
  {
    var p, sub, f := params[0], head + rest, Bind(params, vs);
    var left, less := LeftInPlace(h, params, args, strict), LeftInPlace(h, params[1..], Rest(args), strict);
    LeftAreParams(h, params[1..], Rest(args), strict);
    assert f == Bind(params[1..], Rest(vs))[p := if vs == [] then Undefined else vs[0]];
    assert p !in params[1..];
    forall q | q in sub ensures q in f && Replaces(host, site, left, env, q, sub[q], f[q]) {
      if q != p {
        assert q in rest && sub[q] == rest[q];
        assert Replaces(host, site, less, env, q, rest[q], Bind(params[1..], Rest(vs))[q]);
      }
    }
    forall q ensures q in sub <==> q in params && HelperUses(h, q) > 0 {
      if q in params && q != p { assert q in params[1..]; }
      if q in params[1..] { assert q in params; }
    }
  }
}
