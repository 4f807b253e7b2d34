/**
 The handler the inliner was written for, with any names: what its call becomes, and that the
 result is exact whatever the called function does to the store. A host whose member reads of
 `null` give `undefined` makes the guard's read the optional one of the original.
 */
module InlinerExample {
  import opened Wrappers
  import opened JsExpr
  import opened JsSemantics
  import opened GuardInversion
  import opened FreshNames
  import opened Inliner
  import opened InlinerSoundness
  import opened InlinerArguments
  import opened InlinerTheorems
  import opened InlinerDefault

  /** The words of the example: `currentItem`, `rawEvent`, `runtime`, `type`, `"reasoning"`, `part`, `appendPart`. */
  datatype Words = Words(item: string, event: string, runtime: string, kind: string, wanted: string, part: string, append: string)

  /** `appendPart(item, event.part);` */
  function Tail(d: Words, item: Expr): Block {
    Then(Do(Call(Name(d.append), Arg(item, Arg(Get(Name(d.event), d.part), NoArgs)))), Done)
  }

  /** `currentItem.type !== "reasoning"` */
  function Guard(d: Words): Expr {
    Bin(StrictNe, Get(Name(d.item), d.kind), Lit(Str(d.wanted)))
  }

  /** `function handleX(currentItem, rawEvent) { if (..) return; appendPart(currentItem, rawEvent.part); }` */
  function HandleX(d: Words): Helper {
    Helper([d.item, d.event], [Guard(d)], Tail(d, Name(d.item)))
  }

  /** `runtime.currentItem` */
  function Current(d: Words): Expr {
    Get(Name(d.runtime), d.item)
  }

  /** `handleX(runtime.currentItem, rawEvent)` */
  function CallArgs(d: Words): seq<Expr> {
    [Current(d), Name(d.event)]
  }

  function Edits(d: Words): map<string, Expr> {
    map[d.item := Current(d), d.event := Name(d.event)]
  }

  /** `runtime.currentItem.type === "reasoning"` */
  function Condition(d: Words): Expr {
    Bin(StrictEq, Get(Current(d), d.kind), Lit(Str(d.wanted)))
  }

  predicate Apart(d: Words) {
    d.item != d.event && d.append != d.item && d.append != d.event
  }

  lemma {:induction false} FieldRead(x: string, field: string, y: string, sub: map<string, Expr>)
    ensures var e := Get(Name(x), field);
      && Names(e) == {x} && Called(e) == {} && Uses(e, y) == (if x == y then 1 else 0)
      && Subst(e, sub) == Get(Subst(Name(x), sub), field)
      && IsPure(e, false) && IsDuplicable(e, false) && Calm(e)
      && Fits(LEVEL_MEMBER, e) && (DotsNumeral(e, sub) <==> x in sub && Numeral(sub[x]))
  {
  }

  lemma {:induction false} TailPieces(d: Words)
    requires Apart(d)
    ensures var b := Tail(d, Name(d.item));
      && BlockUses(b, d.item) == 1 && BlockUses(b, d.event) == 1
      && Locals(b) == {} && BlockNames(b) == {d.append, d.item, d.event} && BlockCalled(b) == {d.append} && NoTwice(b)
      && SubstBlock(b, Edits(d)) == Tail(d, Current(d))
  {
    var part := Arg(Get(Name(d.event), d.part), NoArgs);
    var args := Arg(Name(d.item), part);
    var call := Call(Name(d.append), args);
    FieldRead(d.event, d.part, d.item, Edits(d));
    FieldRead(d.event, d.part, d.event, Edits(d));
    assert ArgUses(part, d.item) == 0 && ArgUses(part, d.event) == 1;
    assert ArgUses(args, d.item) == 1 && ArgUses(args, d.event) == 1;
    assert ArgNames(part) == {d.event} && ArgNames(args) == {d.item, d.event};
    assert ArgsCalled(part) == {} && ArgsCalled(args) == {};
    assert SubstArgs(part, Edits(d)) == part;
    assert SubstArgs(args, Edits(d)) == Arg(Current(d), part);
    assert Names(Name(d.append)) == {d.append} && Called(Name(d.append)) == {};
    assert Uses(Name(d.append), d.item) == 0 && Uses(Name(d.append), d.event) == 0;
    assert Names(call) == {d.append, d.item, d.event} && Called(call) == {d.append};
    assert Uses(call, d.item) == 1 && Uses(call, d.event) == 1;
    assert Subst(Name(d.append), Edits(d)) == Name(d.append);
    assert Subst(call, Edits(d)) == Call(Name(d.append), Arg(Current(d), part));
    assert BlockUses(Done, d.item) == 0 && BlockUses(Done, d.event) == 0 && BlockNames(Done) == {} && BlockCalled(Done) == {};
    assert SubstBlock(Done, Edits(d)) == Done;
  }

  lemma {:induction false} GuardPieces(d: Words)
    requires Apart(d)
    ensures var gs := HandleX(d).guards;
      && GuardUses(gs, d.item) == 1 && GuardUses(gs, d.event) == 0 && GuardNames(gs) == {d.item} && GuardCalled(gs) == {}
      && CombineGuards(gs, Edits(d)) == Print(Condition(d))
  {
    var g, gs := Guard(d), HandleX(d).guards;
    assert gs[1..] == [] && GuardUses([], d.item) == 0 && GuardUses([], d.event) == 0 && GuardNames([]) == {} && GuardCalled([]) == {};
    FieldRead(d.item, d.kind, d.item, Edits(d));
    FieldRead(d.item, d.kind, d.event, Edits(d));
    assert Called(g) == {} && Names(g) == {d.item} && Uses(g, d.item) == 1 && Uses(g, d.event) == 0;
    assert Subst(g.l, Edits(d)) == Get(Current(d), d.kind) && Subst(g.r, Edits(d)) == g.r;
    assert StripParens(g) == g;
  }

  /** Two parameters, each left in place. */
  lemma {:induction false} BuildsTwo(d: Words, taken: set<string>)
    requires Apart(d) && HelperUses(HandleX(d), d.item) == 2 && HelperUses(HandleX(d), d.event) == 1
    ensures BuildParams(HandleX(d), HandleX(d).params, CallArgs(d), false, taken) == Built([], Edits(d), taken)
    ensures LeftInPlace(HandleX(d), HandleX(d).params, CallArgs(d), false) == Edits(d)
  {
    var h, args, last := HandleX(d), CallArgs(d), [Name(d.event)];
    FieldRead(d.runtime, d.item, d.item, map[]);
    assert h.params[1..] == [d.event] && [d.event][1..] == [] && Rest(args) == last && Rest(last) == [];
    assert BuildParams(h, [], [], false, taken) == Built([], map[], taken) && LeftInPlace(h, [], [], false) == map[];
    var b := BuildParams(h, [d.event], last, false, taken);
    assert BuildParam(d.event, Some(Name(d.event)), 1, false, taken) == Built([], map[d.event := Name(d.event)], taken);
    assert b == Built([], map[d.event := Name(d.event)], taken);
    assert BuildParam(d.item, Some(Current(d)), 2, false, taken) == Built([], map[d.item := Current(d)], taken);
    assert map[d.item := Current(d)] + b.sub == Edits(d);
    assert LeftInPlace(h, [d.event], last, false) == map[d.event := Name(d.event)];
    assert Kept(Current(d), 2, false);
  }

  /**
   The call becomes `if (runtime.currentItem.type === "reasoning") { appendPart(runtime.currentItem,
   rawEvent.part); }`: no temporary, the guard inverted, both arguments in place.
   */
  lemma {:induction false} HandlerBecomes(d: Words, taken: set<string>)
    requires Apart(d)
    ensures Build(HandleX(d), CallArgs(d), false, taken) == Replacement([], Some(Print(Condition(d))), Tail(d, Current(d)), Edits(d))
  {
    TailPieces(d);
    GuardPieces(d);
    BuildsTwo(d, taken);
  }

  lemma {:induction false} HandlerAdmitted(d: Words)
    requires Apart(d)
    ensures Admitted(HandleX(d)) && Free(HandleX(d)) == {d.append}
  {
    var h := HandleX(d);
    TailPieces(d);
    GuardPieces(d);
    FieldRead(d.item, d.kind, d.item, map[]);
    assert Fits(LEVEL_EQ, Guard(d).l) && Fits(LEVEL_EQ + 1, Guard(d).r);
    assert ParamSet(h) == {d.item, d.event};
    assert BlockWrites(ParamSet(h), Done);
    assert Fits(LEVEL_OR, Guard(d));
  }

  /**
   The result is exact for every function called, as long as the two arguments have values and
   `appendPart` is the module's at the call site, as the shadow check sees to.
   */
  lemma {:induction false} HandlerInlinedExactly(d: Words, host: Host, env: Env, module_: map<string, Cell>, taken: set<string>, w: World)
    requires Apart(d) && Plain(host) && SiteAdmits(env, module_, HandleX(d), CallArgs(d), taken)
    requires Eval(host, env, Current(d), w).0.Ok? && Lookup(env, d.event, w).Ok?
    ensures SameRun(RunCall(host, env, module_, HandleX(d), CallArgs(d), w),
                    RunReplacement(host, env, Build(HandleX(d), CallArgs(d), false, taken), w), env.frame)
  {
    HandlerAdmitted(d);
    HandlerUncaptured(d, taken);
    HandlerOrdered(d, host, env, module_, w);
    HandlerReadsFirst(d, LeftInPlace(HandleX(d), HandleX(d).params, CallArgs(d), false).Keys);
    FieldRead(d.runtime, d.item, d.item, map[]);
    assert PureArgs(host, env, CallArgs(d), w);
    ReadsFirstExact(host, env, module_, HandleX(d), CallArgs(d), taken, w);
  }

  lemma {:induction false} HandlerUncaptured(d: Words, taken: set<string>)
    requires Apart(d)
    ensures var r := Build(HandleX(d), CallArgs(d), false, taken);
      NoCapture(HandleX(d), r) && NoReceiver(HandleX(d), r) && GuardTextsRead(HandleX(d), r)
  {
    var r := Build(HandleX(d), CallArgs(d), false, taken);
    TailPieces(d);
    GuardPieces(d);
    HandlerBecomes(d, taken);
    assert Introduced(r) == {};
    assert CaptureFree(Done, r.sub);
    FieldRead(d.item, d.kind, d.item, r.sub);
    assert !DotsNumeral(Guard(d), r.sub);
  }

  lemma {:induction false} HandlerOrdered(d: Words, host: Host, env: Env, module_: map<string, Cell>, w: World)
    ensures GuardsOrdered(host, env, module_, HandleX(d), CallArgs(d), w)
  {
    var gs := HandleX(d).guards;
    assert gs[1..] == [];
    assert StripParens(Guard(d)) == Guard(d) && Level(StrictNe) != LEVEL_REL;
    forall e: Env, u: World ensures GuardsRunOrdered(host, e, gs, map[], u) {
      assert RunsOrdered(host, e, gs[0], map[], u);
      assert forall v: World :: GuardsRunOrdered(host, e, gs[1..], map[], v);
    }
  }

  lemma {:induction false} HandlerReadsFirst(d: Words, ps: set<string>)
    ensures HelperReadsFirst(ps, HandleX(d).guards, HandleX(d).tail)
  {
    var h, part := HandleX(d), Arg(Get(Name(d.event), d.part), NoArgs);
    assert Calm(Guard(d)) && h.guards[1..] == [];
    assert ArgsReadFirst(ps, NoArgs) && Calm(part.hd);
    assert Calm(Name(d.append)) && ArgsReadFirst(ps, part);
    assert ArgsReadFirst(ps, Arg(Name(d.item), part));
    assert BlockNames(Done) == {};
    assert HelperReadsFirst(ps, [], h.tail);
  }
}
