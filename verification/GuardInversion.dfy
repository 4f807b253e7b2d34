/**
 Inversion of leading guard clauses into one positive condition, as text. The text is built
 piece by piece with parentheses chosen from a remembered precedence; the theorems read it
 back with the grammar of JsExpr and compare its evaluation with the guards' own.
 */
module GuardInversion {
  import opened Wrappers
  import opened JsExpr
  import opened JsSemantics

  const PREC_OR: nat := 1
  const PREC_AND: nat := 2
  const PREC_ATOM: nat := 3

  datatype Negated = Negated(text: seq<Token>, prec: nat)

  /** The comparator whose result is written for the complement of `op`. */
  function Flip(op: Op): Option<Op> {
    match op
    case StrictEq => Some(StrictNe)
    case StrictNe => Some(StrictEq)
    case LooseEq => Some(LooseNe)
    case LooseNe => Some(LooseEq)
    case Lt => Some(Ge)
    case Gt => Some(Le)
    case Le => Some(Gt)
    case Ge => Some(Lt)
    case And | Or => None
  }

  function LogicalPrec(e: Expr): nat {
    var n := StripParens(e);
    if n.Bin? && n.op == Or then PREC_OR
    else if n.Bin? && n.op == And then PREC_AND
    else PREC_ATOM
  }

  function Text(e: Expr, sub: map<string, Expr>): seq<Token> {
    Print(Subst(e, sub))
  }

  function Wrap(part: Negated, minPrec: nat): seq<Token> {
    if part.prec < minPrec then [TOpen] + part.text + [TClose] else part.text
  }

  function Negate(e: Expr, sub: map<string, Expr>): Negated
    decreases e
  {
    var n := StripParens(e);
    if n.Not? then
      Negated(Text(n.e, sub), LogicalPrec(n.e))
    else if n.Bin? then
      match Flip(n.op)
      case Some(flipped) => Negated(Text(n.l, sub) + [TOp(flipped)] + Text(n.r, sub), PREC_ATOM)
      case None =>
        var l, r := Negate(n.l, sub), Negate(n.r, sub);
        if n.op == And then Negated(l.text + [TOp(Or)] + r.text, PREC_OR)
        else Negated(Wrap(l, PREC_AND) + [TOp(And)] + Wrap(r, PREC_AND), PREC_AND)
    else
      Negated([TNot, TOpen] + Text(n, sub) + [TClose], PREC_ATOM)
  }

  function JoinAnd(parts: seq<seq<Token>>): seq<Token> {
    if parts == [] then []
    else if |parts| == 1 then parts[0]
    else parts[0] + [TOp(And)] + JoinAnd(parts[1..])
  }

  function CombineGuards(guards: seq<Expr>, sub: map<string, Expr>): seq<Token> {
    if |guards| == 1 then Negate(guards[0], sub).text
    else JoinAnd(seq(|guards|, i requires 0 <= i < |guards| => Wrap(Negate(guards[i], sub), PREC_AND)))
  }

  // ----- The tree the text denotes -----

  /** `l op r` as the left-associative reader sees it when `r` is itself an `op` chain. */
  function Join(op: Op, l: Expr, r: Expr): Expr
    decreases r
  {
    if r.Bin? && r.op == op then Bin(op, Join(op, l, r.l), r.r) else Bin(op, l, r)
  }

  function Grouped(n: Negated, t: Expr): Expr {
    if n.prec < PREC_AND then Paren(t) else t
  }

  function NegatedTree(e: Expr, sub: map<string, Expr>): Expr
    decreases e
  {
    var n := StripParens(e);
    if n.Not? then Subst(n.e, sub)
    else if n.Bin? then
      match Flip(n.op)
      case Some(flipped) => Bin(flipped, Subst(n.l, sub), Subst(n.r, sub))
      case None =>
        var l, r := NegatedTree(n.l, sub), NegatedTree(n.r, sub);
        if n.op == And then Join(Or, l, r)
        else Join(And, Grouped(Negate(n.l, sub), l), Grouped(Negate(n.r, sub), r))
    else Not(Paren(Subst(n, sub)))
  }

  function PartTree(g: Expr, sub: map<string, Expr>): Expr {
    Grouped(Negate(g, sub), NegatedTree(g, sub))
  }

  function PartsTree(guards: seq<Expr>, sub: map<string, Expr>): Expr
    requires guards != []
  {
    if |guards| == 1 then PartTree(guards[0], sub)
    else Join(And, PartTree(guards[0], sub), PartsTree(guards[1..], sub))
  }

  function ConditionTree(guards: seq<Expr>, sub: map<string, Expr>): Expr
    requires guards != []
  {
    if |guards| == 1 then NegatedTree(guards[0], sub) else PartsTree(guards, sub)
  }

  lemma {:induction false} Regroup(a: seq<Token>, o: seq<Token>, b: seq<Token>, p: seq<Token>, c: seq<Token>)
    ensures a + o + b + p + c == a + o + (b + p + c)
  {
  }

  lemma {:induction false} JoinPrints(op: Op, l: Expr, r: Expr)
    ensures Print(Join(op, l, r)) == Print(l) + [TOp(op)] + Print(r)
    decreases r
  {
    if r.Bin? && r.op == op {
      JoinPrints(op, l, r.l);
      Regroup(Print(l), [TOp(op)], Print(r.l), [TOp(op)], Print(r.r));
    }
  }

  lemma {:induction false} JoinFits(op: Op, l: Expr, r: Expr)
    requires op == And || op == Or
    requires Fits(Level(op), l) && Fits(Level(op), r)
    ensures Fits(Level(op), Join(op, l, r))
    decreases r
  {
    if r.Bin? && r.op == op {
      JoinFits(op, l, r.l);
    } else if r.Bin? {
      assert Level(op) + 1 <= Level(r.op);
    }
  }

  lemma {:induction false} JoinEvaluates(host: Host, env: Env, op: Op, l: Expr, r: Expr, w: World)
    requires op == And || op == Or
    ensures Eval(host, env, Join(op, l, r), w) == Eval(host, env, Bin(op, l, r), w)
    decreases r
  {
    if r.Bin? && r.op == op {
      JoinEvaluates(host, env, op, l, r.l, w);
      var (a, w1) := Eval(host, env, l, w);
      if a.Ok? {
        assert Eval(host, env, Bin(op, Bin(op, l, r.l), r.r), w) == Eval(host, env, Bin(op, l, r), w);
      }
    }
  }

  // ----- Text and tree agree -----

  /** The level at which text of remembered precedence `prec` may stand. */
  function LevelOfPrec(prec: nat): nat {
    if prec <= PREC_OR then LEVEL_OR else if prec == PREC_AND then LEVEL_AND else LEVEL_EQ
  }

  lemma {:induction false} GroupedPrints(n: Negated, t: Expr)
    requires Print(t) == n.text && Fits(LevelOfPrec(n.prec), t)
    ensures Print(Grouped(n, t)) == Wrap(n, PREC_AND) && Fits(LEVEL_AND, Grouped(n, t))
  {
    if n.prec >= PREC_AND { FitsLower(LEVEL_AND, LevelOfPrec(n.prec), t); }
    else { FitsLower(LEVEL_OR, LevelOfPrec(n.prec), t); }
  }

  ghost predicate GuardReads(e: Expr, sub: map<string, Expr>) {
    Fits(LEVEL_OR, e) && Splices(sub) && !DotsNumeral(e, sub)
  }

  lemma {:induction false} StripKeeps(e: Expr, sub: map<string, Expr>)
    requires GuardReads(e, sub)
    ensures GuardReads(StripParens(e), sub)
    decreases e
  {
    if e.Paren? { StripKeeps(e.inner, sub); }
  }

  lemma {:induction false} NegatedTreePrints(e: Expr, sub: map<string, Expr>)
    requires GuardReads(e, sub)
    ensures Print(NegatedTree(e, sub)) == Negate(e, sub).text
    ensures Fits(LevelOfPrec(Negate(e, sub).prec), NegatedTree(e, sub))
    decreases e
  {
    StripKeeps(e, sub);
    var n := StripParens(e);
    if n.Not? {
      SubstFits(LEVEL_UNARY, n.e, sub);
      FitsLower(LevelOfPrec(LogicalPrec(n.e)), LEVEL_UNARY, Subst(n.e, sub));
    } else if n.Bin? {
      if Flip(n.op).Some? {
        NegatedComparisonPrints(n, sub);
      } else {
        FitsLower(LEVEL_OR, Level(n.op), n.l);
        FitsLower(LEVEL_OR, Level(n.op) + 1, n.r);
        NegatedTreePrints(n.l, sub);
        NegatedTreePrints(n.r, sub);
        NegatedChainPrints(n, sub);
      }
    } else {
      SubstFits(LEVEL_OR, n, sub);
      WrappedPrints(Subst(n, sub));
    }
  }

  lemma {:induction false} WrappedPrints(e: Expr)
    ensures Print(Not(Paren(e))) == [TNot, TOpen] + Print(e) + [TClose]
  {
  }

  lemma {:induction false} NegatedComparisonPrints(n: Expr, sub: map<string, Expr>)
    requires n.Bin? && Flip(n.op).Some? && GuardReads(n, sub)
    ensures Print(NegatedTree(n, sub)) == Negate(n, sub).text
    ensures Fits(LevelOfPrec(Negate(n, sub).prec), NegatedTree(n, sub))
  {
    SubstFits(Level(n.op), n.l, sub);
    SubstFits(Level(n.op) + 1, n.r, sub);
  }

  lemma {:induction false} NegatedChainPrints(n: Expr, sub: map<string, Expr>)
    requires n.Bin? && (n.op == And || n.op == Or)
    requires forall c :: c == n.l || c == n.r ==>
      Print(NegatedTree(c, sub)) == Negate(c, sub).text && Fits(LevelOfPrec(Negate(c, sub).prec), NegatedTree(c, sub))
    ensures Print(NegatedTree(n, sub)) == Negate(n, sub).text
    ensures Fits(LevelOfPrec(Negate(n, sub).prec), NegatedTree(n, sub))
  {
    var l, r := NegatedTree(n.l, sub), NegatedTree(n.r, sub);
    if n.op == And {
      FitsLower(LEVEL_OR, LevelOfPrec(Negate(n.l, sub).prec), l);
      FitsLower(LEVEL_OR, LevelOfPrec(Negate(n.r, sub).prec), r);
      JoinPrints(Or, l, r);
      JoinFits(Or, l, r);
    } else {
      GroupedPrints(Negate(n.l, sub), l);
      GroupedPrints(Negate(n.r, sub), r);
      var gl, gr := Grouped(Negate(n.l, sub), l), Grouped(Negate(n.r, sub), r);
      JoinPrints(And, gl, gr);
      JoinFits(And, gl, gr);
    }
  }

  lemma {:induction false} PartsTreePrints(guards: seq<Expr>, sub: map<string, Expr>, parts: seq<seq<Token>>)
    requires guards != [] && |parts| == |guards|
    requires forall i :: 0 <= i < |guards| ==> GuardReads(guards[i], sub)
    requires forall i :: 0 <= i < |guards| ==> parts[i] == Wrap(Negate(guards[i], sub), PREC_AND)
    ensures Print(PartsTree(guards, sub)) == JoinAnd(parts) && Fits(LEVEL_AND, PartsTree(guards, sub))
    decreases |guards|
  {
    NegatedTreePrints(guards[0], sub);
    GroupedPrints(Negate(guards[0], sub), NegatedTree(guards[0], sub));
    if |guards| > 1 {
      PartsTreePrints(guards[1..], sub, parts[1..]);
      JoinPrints(And, PartTree(guards[0], sub), PartsTree(guards[1..], sub));
      JoinFits(And, PartTree(guards[0], sub), PartsTree(guards[1..], sub));
    }
  }

  /** The combined condition, re-read from its text, is the intended tree. */
  lemma {:induction false} ConditionReadsBack(guards: seq<Expr>, sub: map<string, Expr>)
    requires guards != []
    requires forall i :: 0 <= i < |guards| ==> GuardReads(guards[i], sub)
    ensures ParseAll(CombineGuards(guards, sub)) == Some(ConditionTree(guards, sub))
  {
    if |guards| == 1 {
      NegatedTreePrints(guards[0], sub);
      FitsLower(LEVEL_OR, LevelOfPrec(Negate(guards[0], sub).prec), NegatedTree(guards[0], sub));
    } else {
      var parts := seq(|guards|, i requires 0 <= i < |guards| => Wrap(Negate(guards[i], sub), PREC_AND));
      PartsTreePrints(guards, sub, parts);
      FitsLower(LEVEL_OR, LEVEL_AND, PartsTree(guards, sub));
    }
    PrintThenParse(ConditionTree(guards, sub));
  }

  // ----- Meaning -----

  /** Outcome of a run of `if (g) return;` clauses. */
  datatype GuardRun = Fired | Passed | Threw(err: Value)

  function RunGuards(host: Host, env: Env, guards: seq<Expr>, w: World): (GuardRun, World) {
    if guards == [] then (Passed, w)
    else
      var (r, w1) := Eval(host, env, guards[0], w);
      if r.Err? then (Threw(r.error), w1)
      else if Truthy(r.value) then (Fired, w1)
      else RunGuards(host, env, guards[1..], w1)
  }

  /** A condition's outcome `r` says what the guard run says: truthy exactly when none fired. */
  predicate Decides(r: Res, run: GuardRun) {
    match run
    case Threw(err) => r == Err(err)
    case Fired => r.Ok? && !Truthy(r.value)
    case Passed => r.Ok? && Truthy(r.value)
  }

  predicate Complement(r: Res, original: Res) {
    Decides(r, if original.Err? then Threw(original.error) else if Truthy(original.value) then Fired else Passed)
  }

  /** Ordering this comparison's operands gives an answer (or throws before it could). */
  predicate ComparesOrdered(host: Host, env: Env, op: Op, l: Expr, r: Expr, w: World)
    requires op != And && op != Or
  {
    var (a, w1) := Eval(host, env, l, w);
    a.Ok? ==>
      var (b, w2) := Eval(host, env, r, w1);
      b.Ok? && Level(op) == LEVEL_REL ==> OrderingCall(host, op, a.value, b.value, w2).0 != Ok(None)
  }

  /** No comparator that inversion flips meets an unordered pair while `e` runs. */
  predicate RunsOrdered(host: Host, env: Env, e: Expr, sub: map<string, Expr>, w: World)
    decreases e
  {
    var n := StripParens(e);
    if n.Bin? then
      if Flip(n.op).Some? then ComparesOrdered(host, env, n.op, Subst(n.l, sub), Subst(n.r, sub), w)
      else
        RunsOrdered(host, env, n.l, sub, w) &&
        var (a, w1) := Eval(host, env, Subst(n.l, sub), w);
        a.Ok? && Truthy(a.value) == (n.op == And) ==> RunsOrdered(host, env, n.r, sub, w1)
    else true
  }

  /** The inverted condition runs as the guard did: same world, complementary truth, same throw. */
  predicate Inverts(host: Host, env: Env, e: Expr, sub: map<string, Expr>, w: World) {
    var (r, w1) := Eval(host, env, Subst(e, sub), w);
    var (r', w1') := Eval(host, env, NegatedTree(e, sub), w);
    w1' == w1 && Complement(r', r)
  }

  lemma {:induction false} StripEvaluates(host: Host, env: Env, e: Expr, sub: map<string, Expr>, w: World)
    ensures Eval(host, env, Subst(StripParens(e), sub), w) == Eval(host, env, Subst(e, sub), w)
    decreases e
  {
    if e.Paren? { StripEvaluates(host, env, e.inner, sub, w); }
  }

  /** One flipped comparator is exact exactly when its operands are ordered; equality always is. */
  lemma {:induction false} FlipExactIffOrdered(host: Host, env: Env, e: Expr, sub: map<string, Expr>, w: World)
    requires e.Bin? && Flip(e.op).Some?
    ensures Inverts(host, env, e, sub, w) <==> ComparesOrdered(host, env, e.op, Subst(e.l, sub), Subst(e.r, sub), w)
  {
    assert StripParens(e) == e;
    var (a, w1) := Eval(host, env, Subst(e.l, sub), w);
    if a.Ok? {
      var (b, w2) := Eval(host, env, Subst(e.r, sub), w1);
      if b.Ok? {
        assert Eval(host, env, Subst(e, sub), w) == Compare(host, e.op, a.value, b.value, w2);
        assert Eval(host, env, NegatedTree(e, sub), w) == Compare(host, Flip(e.op).value, a.value, b.value, w2);
        FlippedComparison(host, e.op, a.value, b.value, w2);
      }
    }
  }

  lemma {:induction false} FlippedComparison(host: Host, op: Op, a: Value, b: Value, w: World)
    requires Flip(op).Some?
    ensures var (r, w1) := Compare(host, op, a, b, w);
      var (r', w1') := Compare(host, Flip(op).value, a, b, w);
      w1' == w1 &&
      (Complement(r', r) <==> (Level(op) == LEVEL_REL ==> OrderingCall(host, op, a, b, w).0 != Ok(None)))
  {
    var (c, w1) := OrderingCall(host, op, a, b, w);
    if c.Ok? && c.value.Some? {
      if c.value.value { assert c.value == Some(true); } else { assert c.value == Some(false); }
    }
    match op
    case StrictEq | StrictNe => assert Complement(Compare(host, Flip(op).value, a, b, w).0, Compare(host, op, a, b, w).0);
    case LooseEq | LooseNe => var (q, w2) := host.looseEq(a, b, w);
    case Lt | Gt =>
      assert Compare(host, op, a, b, w) == (Ordering(c, true), w1);
      assert Compare(host, Flip(op).value, a, b, w) == (Ordering(c, false), w1);
    case Le | Ge => assert Compare(host, op, a, b, w) == (Ordering(c, false), w1);
  }

  lemma {:induction false} NegationInverts(host: Host, env: Env, e: Expr, sub: map<string, Expr>, w: World)
    requires RunsOrdered(host, env, e, sub, w)
    ensures Inverts(host, env, e, sub, w)
    decreases e
  {
    StripEvaluates(host, env, e, sub, w);
    var n := StripParens(e);
    if n.Bin? {
      if Flip(n.op).Some? {
        FlipExactIffOrdered(host, env, n, sub, w);
        assert NegatedTree(n, sub) == NegatedTree(e, sub);
      } else {
        NegationInverts(host, env, n.l, sub, w);
        var (a, w1) := Eval(host, env, Subst(n.l, sub), w);
        if a.Ok? && Truthy(a.value) == (n.op == And) {
          NegationInverts(host, env, n.r, sub, w1);
        }
        ChainInverts(host, env, n, sub, w);
        assert NegatedTree(n, sub) == NegatedTree(e, sub);
      }
    } else if n.Not? {
      assert NegatedTree(e, sub) == Subst(n.e, sub);
      NotInverts(host, env, Subst(n.e, sub), w);
    } else {
      assert NegatedTree(e, sub) == Not(Paren(Subst(n, sub)));
      NotInverts(host, env, Paren(Subst(n, sub)), w);
    }
  }

  lemma {:induction false} NotInverts(host: Host, env: Env, x: Expr, w: World)
    ensures var (r, w1) := Eval(host, env, x, w);
      var (r', w1') := Eval(host, env, Not(x), w);
      w1' == w1 && Complement(r', r) && Complement(r, r')
  {
    var (r, w1) := Eval(host, env, x, w);
    assert Eval(host, env, Not(x), w) == if r.Err? then (r, w1) else (Ok(Bool(!Truthy(r.value))), w1);
    if r.Ok? {
      assert Truthy(Bool(!Truthy(r.value))) == !Truthy(r.value);
    }
  }

  lemma {:induction false} GroupedEvaluates(host: Host, env: Env, n: Negated, t: Expr, w: World)
    ensures Eval(host, env, Grouped(n, t), w) == Eval(host, env, t, w)
  {
  }

  lemma {:induction false} ChainInverts(host: Host, env: Env, n: Expr, sub: map<string, Expr>, w: World)
    requires n.Bin? && (n.op == And || n.op == Or)
    requires Inverts(host, env, n.l, sub, w)
    requires var (a, w1) := Eval(host, env, Subst(n.l, sub), w);
      a.Ok? && Truthy(a.value) == (n.op == And) ==> Inverts(host, env, n.r, sub, w1)
    ensures Inverts(host, env, n, sub, w)
  {
    var l, r := NegatedTree(n.l, sub), NegatedTree(n.r, sub);
    var (a, w1) := Eval(host, env, Subst(n.l, sub), w);
    if n.op == And {
      JoinEvaluates(host, env, Or, l, r, w);
    } else {
      var gl, gr := Grouped(Negate(n.l, sub), l), Grouped(Negate(n.r, sub), r);
      JoinEvaluates(host, env, And, gl, gr, w);
      GroupedEvaluates(host, env, Negate(n.l, sub), l, w);
      GroupedEvaluates(host, env, Negate(n.r, sub), r, w1);
    }
  }

  /** A host whose orderings always answer makes every inversion exact, and only such a host does. */
  lemma {:induction false} InversionExactIffOrdered(host: Host, env: Env, sub: map<string, Expr>)
    ensures (forall e: Expr, w: World :: Inverts(host, env, e, sub, w)) <==>
            (forall e: Expr, w: World :: RunsOrdered(host, env, e, sub, w))
  {
    if forall e: Expr, w: World :: RunsOrdered(host, env, e, sub, w) {
      forall e: Expr, w: World ensures Inverts(host, env, e, sub, w) {
        NegationInverts(host, env, e, sub, w);
      }
    } else {
      var e: Expr, w: World :| !RunsOrdered(host, env, e, sub, w);
      var c, v := FindUnordered(host, env, e, sub, w);
      FlipExactIffOrdered(host, env, c, sub, v);
    }
  }

  lemma {:induction false} FindUnordered(host: Host, env: Env, e: Expr, sub: map<string, Expr>, w: World)
      returns (c: Expr, v: World)
    requires !RunsOrdered(host, env, e, sub, w)
    ensures c.Bin? && Flip(c.op).Some?
    ensures !ComparesOrdered(host, env, c.op, Subst(c.l, sub), Subst(c.r, sub), v)
    decreases e
  {
    var n := StripParens(e);
    if Flip(n.op).Some? {
      c, v := n, w;
    } else if !RunsOrdered(host, env, n.l, sub, w) {
      c, v := FindUnordered(host, env, n.l, sub, w);
    } else {
      c, v := FindUnordered(host, env, n.r, sub, Eval(host, env, Subst(n.l, sub), w).1);
    }
  }

  // ----- Sequences of guards -----

  function SubstAll(guards: seq<Expr>, sub: map<string, Expr>): (r: seq<Expr>)
    ensures |r| == |guards|
  {
    seq(|guards|, i requires 0 <= i < |guards| => Subst(guards[i], sub))
  }

  predicate GuardsRunOrdered(host: Host, env: Env, guards: seq<Expr>, sub: map<string, Expr>, w: World) {
    guards != [] ==>
      RunsOrdered(host, env, guards[0], sub, w) &&
      var (r, w1) := Eval(host, env, Subst(guards[0], sub), w);
      r.Ok? && !Truthy(r.value) ==> GuardsRunOrdered(host, env, guards[1..], sub, w1)
  }

  lemma {:induction false} PartsInvert(host: Host, env: Env, guards: seq<Expr>, sub: map<string, Expr>, w: World)
    requires guards != [] && GuardsRunOrdered(host, env, guards, sub, w)
    ensures var (r, w1) := Eval(host, env, PartsTree(guards, sub), w);
      var (run, w2) := RunGuards(host, env, SubstAll(guards, sub), w);
      w1 == w2 && Decides(r, run)
    decreases |guards|
  {
    var g, rest := guards[0], guards[1..];
    NegationInverts(host, env, g, sub, w);
    GroupedEvaluates(host, env, Negate(g, sub), NegatedTree(g, sub), w);
    assert SubstAll(guards, sub)[1..] == SubstAll(rest, sub);
    var (r, w1) := Eval(host, env, Subst(g, sub), w);
    if rest == [] {
      assert RunGuards(host, env, [], w1) == (Passed, w1);
    } else {
      JoinEvaluates(host, env, And, PartTree(g, sub), PartsTree(rest, sub), w);
      if r.Ok? && !Truthy(r.value) { PartsInvert(host, env, rest, sub, w1); }
    }
  }

  /**
   Guard inversion keeps the meaning of the printed program: the emitted condition, re-read
   from its text, performs the same effects in the same order as the sequence of guards, and
   is truthy exactly when no guard would have returned.
   */
  lemma {:induction false} GuardInversionSound(host: Host, env: Env, guards: seq<Expr>, sub: map<string, Expr>, w: World)
    requires guards != []
    requires forall i :: 0 <= i < |guards| ==> GuardReads(guards[i], sub)
    requires GuardsRunOrdered(host, env, guards, sub, w)
    ensures ParseAll(CombineGuards(guards, sub)).Some?
    ensures var (r, w1) := Eval(host, env, ParseAll(CombineGuards(guards, sub)).value, w);
      var (run, w2) := RunGuards(host, env, SubstAll(guards, sub), w);
      w1 == w2 && Decides(r, run)
  {
    ConditionReadsBack(guards, sub);
    PartsInvert(host, env, guards, sub, w);
    GroupedEvaluates(host, env, Negate(guards[0], sub), NegatedTree(guards[0], sub), w);
  }

  /** `if (NaN < 1) return;` does not fire, yet its inversion `NaN >= 1` is falsy as well. */
  lemma {:induction false} UnorderedFlipFails(host: Host, env: Env, w: World)
    requires host.less(NaN, Number(1), true, w) == (Ok(None), w)
    ensures var g := Bin(Lt, Lit(NaN), Lit(Number(1)));
      RunGuards(host, env, [g], w) == (Passed, w) &&
      ParseAll(CombineGuards([g], map[])) == Some(Bin(Ge, Lit(NaN), Lit(Number(1)))) &&
      Eval(host, env, Bin(Ge, Lit(NaN), Lit(Number(1))), w) == (Ok(Bool(false)), w)
  {
    var g := Bin(Lt, Lit(NaN), Lit(Number(1)));
    ComparisonReadsBack(Lit(NaN), Lit(Number(1)));
    NeitherHolds(host, env, w);
    assert [g][1..] == [] && RunGuards(host, env, [], w) == (Passed, w);
  }

  lemma {:induction false} NeitherHolds(host: Host, env: Env, w: World)
    requires host.less(NaN, Number(1), true, w) == (Ok(None), w)
    ensures Eval(host, env, Bin(Lt, Lit(NaN), Lit(Number(1))), w) == (Ok(Bool(false)), w)
    ensures Eval(host, env, Bin(Ge, Lit(NaN), Lit(Number(1))), w) == (Ok(Bool(false)), w)
  {
    assert Eval(host, env, Lit(NaN), w) == (Ok(NaN), w) && Eval(host, env, Lit(Number(1)), w) == (Ok(Number(1)), w);
  }

  lemma {:induction false} ComparisonReadsBack(l: Expr, r: Expr)
    requires l.Lit? && r.Lit?
    ensures ParseAll(CombineGuards([Bin(Lt, l, r)], map[])) == Some(Bin(Ge, l, r))
  {
    assert Fits(LEVEL_REL, l) && Fits(LEVEL_UNARY, r);
    assert GuardReads(Bin(Lt, l, r), map[]);
    ConditionReadsBack([Bin(Lt, l, r)], map[]);
    assert NegatedTree(Bin(Lt, l, r), map[]) == Bin(Ge, l, r);
  }
}
