/**
 Evaluation of the expression language: operands left to right, short-circuit logic, and
 every external operation (calls, member reads, loose equality, ordering) supplied by an
 arbitrary host that may change the world or throw.
 */
module JsSemantics {
  import opened Wrappers
  import opened JsExpr

  type Cell = nat
  type Frame = map<string, Value>
  type Res = Result<Value, Value>

  /** Variables the program had before inlining, the object heap, and what was observed. */
  datatype World = World(cells: map<Cell, Value>, heap: map<nat, map<string, Value>>, trace: seq<string>)

  datatype Host = Host(
    // The function, its receiver, its arguments.
    apply: (Value, Value, seq<Value>, World) -> (Res, World),
    get: (Value, string, World) -> (Res, World),
    looseEq: (Value, Value, World) -> (Result<bool, Value>, World),
    // IsLessThan with its leftFirst flag; no answer for an unordered pair (NaN).
    less: (Value, Value, bool, World) -> (Result<Option<bool>, Value>, World))

  /** Static view of a block: the names it declares, and the cells all other names denote. */
  datatype Scope = Scope(declared: set<string>, cells: map<string, Cell>)

  datatype Env = Env(scope: Scope, frame: Frame)

  const REFERENCE_ERROR: Value := Str("ReferenceError")

  predicate Truthy(v: Value) {
    match v
    case Undefined | Null | NaN => false
    case Bool(b) => b
    case Number(n) => n != 0
    case Str(s) => s != ""
    case Ref(_) => true
  }

  function StrictEquals(a: Value, b: Value): bool {
    a == b && !a.NaN?
  }

  /** A declared name without a value yet is in its temporal dead zone. */
  function Lookup(env: Env, x: string, w: World): Res {
    if x in env.frame then Ok(env.frame[x])
    else if x in env.scope.declared then Err(REFERENCE_ERROR)
    else if x in env.scope.cells && env.scope.cells[x] in w.cells then Ok(w.cells[env.scope.cells[x]])
    else Err(REFERENCE_ERROR)
  }

  function Negation(r: Result<bool, Value>, flip: bool): Res {
    match r
    case Ok(b) => Ok(Bool(b != flip))
    case Err(e) => Err(e)
  }

  function Ordering(r: Result<Option<bool>, Value>, want: bool): Res {
    match r
    case Ok(o) => Ok(Bool(o == Some(want)))
    case Err(e) => Err(e)
  }

  /** `a > b` and `a <= b` ask whether `b` is less than `a`, still converting `a` first. */
  function OrderingCall(host: Host, op: Op, a: Value, b: Value, w: World): (Result<Option<bool>, Value>, World) {
    if op == Lt || op == Ge then host.less(a, b, true, w) else host.less(b, a, false, w)
  }

  function Compare(host: Host, op: Op, a: Value, b: Value, w: World): (Res, World)
    requires op != And && op != Or
  {
    match op
    case StrictEq => (Ok(Bool(StrictEquals(a, b))), w)
    case StrictNe => (Ok(Bool(!StrictEquals(a, b))), w)
    case LooseEq => var (r, w') := host.looseEq(a, b, w); (Negation(r, false), w')
    case LooseNe => var (r, w') := host.looseEq(a, b, w); (Negation(r, true), w')
    case Lt | Gt => var (r, w') := OrderingCall(host, op, a, b, w); (Ordering(r, true), w')
    case Le | Ge => var (r, w') := OrderingCall(host, op, a, b, w); (Ordering(r, false), w')
  }

  function Eval(host: Host, env: Env, e: Expr, w: World): (Res, World)
    decreases e, 0
  {
    match e
    case Lit(v) => (Ok(v), w)
    case Name(x) => (Lookup(env, x, w), w)
    case Get(o, f) =>
      var (r, w1) := Eval(host, env, o, w);
      if r.Err? then (r, w1) else host.get(r.value, f, w1)
    case Call(c, args) =>
      var (t, w1) := EvalCallee(host, env, c, w);
      if t.Err? then (Err(t.error), w1)
      else
        var (rs, w2) := EvalArgs(host, env, args, w1);
        if rs.Err? then (Err(rs.error), w2) else host.apply(t.value.fn, t.value.receiver, rs.value, w2)
    case Not(x) =>
      var (r, w1) := Eval(host, env, x, w);
      if r.Err? then (r, w1) else (Ok(Bool(!Truthy(r.value))), w1)
    case Bin(op, l, r) =>
      var (a, w1) := Eval(host, env, l, w);
      if a.Err? then (a, w1)
      else if op == And then (if Truthy(a.value) then Eval(host, env, r, w1) else (a, w1))
      else if op == Or then (if Truthy(a.value) then (a, w1) else Eval(host, env, r, w1))
      else
        var (b, w2) := Eval(host, env, r, w1);
        if b.Err? then (b, w2) else Compare(host, op, a.value, b.value, w2)
    case Paren(x) => Eval(host, env, x, w)
  }

  datatype Callee = Callee(fn: Value, receiver: Value)

  /** What a call calls, before its arguments. A member access, also in parentheses, passes its object along. */
  function EvalCallee(host: Host, env: Env, e: Expr, w: World): (Result<Callee, Value>, World)
    decreases e, 1
  {
    match e
    case Paren(x) => EvalCallee(host, env, x, w)
    case Get(o, f) =>
      var (r, w1) := Eval(host, env, o, w);
      if r.Err? then (Err(r.error), w1)
      else
        var (v, w2) := host.get(r.value, f, w1);
        if v.Err? then (Err(v.error), w2) else (Ok(Callee(v.value, r.value)), w2)
    case _ =>
      var (v, w1) := Eval(host, env, e, w);
      if v.Err? then (Err(v.error), w1) else (Ok(Callee(v.value, Undefined)), w1)
  }

  function EvalArgs(host: Host, env: Env, args: Args, w: World): (Result<seq<Value>, Value>, World)
    decreases args, 0
  {
    match args
    case NoArgs => (Ok([]), w)
    case Arg(h, t) =>
      var (r, w1) := Eval(host, env, h, w);
      if r.Err? then (Err(r.error), w1)
      else
        var (rs, w2) := EvalArgs(host, env, t, w1);
        if rs.Err? then (rs, w2) else (Ok([r.value] + rs.value), w2)
  }

  function StripParens(e: Expr): (r: Expr)
    ensures !r.Paren?
    ensures e == r || r < e
    ensures Fits(LEVEL_OR, e) ==> Fits(LEVEL_OR, r)
    decreases e
  {
    if e.Paren? then StripParens(e.inner) else e
  }

  /** Called, `e` is a method: it receives an object. */
  predicate Method(e: Expr) {
    StripParens(e).Get?
  }

  /** A callee has the value and the effects of the expression; only methods have a receiver. */
  lemma {:induction false} CalleeEvaluates(host: Host, env: Env, e: Expr, w: World)
    ensures var (t, w1) := EvalCallee(host, env, e, w);
      var (v, w2) := Eval(host, env, e, w);
      && w1 == w2 && (t.Err? ==> v == Err(t.error)) && (t.Ok? ==> v == Ok(t.value.fn))
      && (t.Ok? && !Method(e) ==> t.value.receiver == Undefined)
    decreases e
  {
    if e.Paren? { CalleeEvaluates(host, env, e.inner, w); }
  }

  /** Names an expression calls as they stand. */
  function Called(e: Expr): set<string>
    decreases e
  {
    match e
    case Lit(_) | Name(_) => {}
    case Get(o, _) => Called(o)
    case Call(c, args) => (if StripParens(c).Name? then {StripParens(c).x} else {}) + Called(c) + ArgsCalled(args)
    case Not(x) => Called(x)
    case Bin(_, l, r) => Called(l) + Called(r)
    case Paren(x) => Called(x)
  }

  function ArgsCalled(args: Args): set<string>
    decreases args
  {
    match args
    case NoArgs => {}
    case Arg(h, t) => Called(h) + ArgsCalled(t)
  }

  /** Names an expression refers to. */
  function Names(e: Expr): set<string>
    decreases e
  {
    match e
    case Lit(_) => {}
    case Name(x) => {x}
    case Get(o, _) => Names(o)
    case Call(c, args) => Names(c) + ArgNames(args)
    case Not(x) => Names(x)
    case Bin(_, l, r) => Names(l) + Names(r)
    case Paren(x) => Names(x)
  }

  function ArgNames(args: Args): set<string>
    decreases args
  {
    match args
    case NoArgs => {}
    case Arg(h, t) => Names(h) + ArgNames(t)
  }

  /** Replaces names by expressions, as the text edits at each reference do. */
  function Subst(e: Expr, sub: map<string, Expr>): Expr
    decreases e
  {
    match e
    case Lit(_) => e
    case Name(x) => if x in sub then sub[x] else e
    case Get(o, f) => Get(Subst(o, sub), f)
    case Call(c, args) => Call(Subst(c, sub), SubstArgs(args, sub))
    case Not(x) => Not(Subst(x, sub))
    case Bin(op, l, r) => Bin(op, Subst(l, sub), Subst(r, sub))
    case Paren(x) => Paren(Subst(x, sub))
  }

  function SubstArgs(args: Args, sub: map<string, Expr>): Args
    decreases args
  {
    match args
    case NoArgs => NoArgs
    case Arg(h, t) => Arg(Subst(h, sub), SubstArgs(t, sub))
  }

  /** Every replacement text stands where an identifier stood without parentheses. */
  ghost predicate Splices(sub: map<string, Expr>) {
    forall x :: x in sub ==> Fits(LEVEL_MEMBER, sub[x])
  }

  /** Some member access would read a field of a substituted numeric literal. */
  predicate DotsNumeral(e: Expr, sub: map<string, Expr>)
    decreases e
  {
    match e
    case Lit(_) | Name(_) => false
    case Get(o, _) => DotsNumeral(o, sub) || (o.Name? && o.x in sub && Numeral(sub[o.x]))
    case Call(c, args) => DotsNumeral(c, sub) || ArgsDotNumeral(args, sub)
    case Not(x) => DotsNumeral(x, sub)
    case Bin(_, l, r) => DotsNumeral(l, sub) || DotsNumeral(r, sub)
    case Paren(x) => DotsNumeral(x, sub)
  }

  predicate ArgsDotNumeral(args: Args, sub: map<string, Expr>)
    decreases args
  {
    match args
    case NoArgs => false
    case Arg(h, t) => DotsNumeral(h, sub) || ArgsDotNumeral(t, sub)
  }

  lemma {:induction false} SubstFits(k: nat, e: Expr, sub: map<string, Expr>)
    requires Fits(k, e) && Splices(sub) && k <= LEVEL_MEMBER
    ensures Fits(k, Subst(e, sub)) <==> !DotsNumeral(e, sub)
    decreases e
  {
    match e
    case Lit(_) =>
    case Name(x) => if x in sub { FitsLower(k, LEVEL_MEMBER, sub[x]); }
    case Get(o, _) => SubstFits(LEVEL_MEMBER, o, sub);
    case Call(c, args) => SubstFits(LEVEL_MEMBER, c, sub); SubstArgsFit(args, sub);
    case Not(x) => SubstFits(LEVEL_UNARY, x, sub);
    case Bin(op, l, r) => SubstFits(Level(op), l, sub); SubstFits(Level(op) + 1, r, sub);
    case Paren(x) => SubstFits(LEVEL_OR, x, sub);
  }

  lemma {:induction false} SubstArgsFit(args: Args, sub: map<string, Expr>)
    requires FitsArgs(args) && Splices(sub)
    ensures FitsArgs(SubstArgs(args, sub)) <==> !ArgsDotNumeral(args, sub)
    decreases args
  {
    match args
    case NoArgs =>
    case Arg(h, t) => SubstFits(LEVEL_OR, h, sub); SubstArgsFit(t, sub);
  }

  /**
   The text an edit pass leaves reads back as the substituted tree, except when a numeric
   literal lands in front of a dot.
   */
  lemma {:induction false} SubstReadsBack(e: Expr, sub: map<string, Expr>)
    requires Fits(LEVEL_OR, e) && Splices(sub)
    ensures ParseAll(Print(Subst(e, sub))) == Some(Subst(e, sub)) <==> !DotsNumeral(e, sub)
  {
    SubstFits(LEVEL_OR, e, sub);
    ReadsBackIffFits(Subst(e, sub));
  }
}
