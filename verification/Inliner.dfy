/**
 Inlining of a void helper at one call site: hoisted or substituted arguments, inverted
 guards, renamed tail locals. The theorems compare running the replacement with running
 the call, for every host, store and argument list.
 */
module Inliner {
  import opened Wrappers
  import opened JsExpr
  import opened JsSemantics
  import opened GuardInversion
  import opened FreshNames

  /** Statements of a helper's tail. `Set` writes a variable that already exists. */
  datatype Stmt =
    | Do(e: Expr)
    | Let(x: string, init: Expr)
    | Set(x: string, rhs: Expr)
    | If(c: Expr, thn: Block, els: Block)

  datatype Block = Done | Then(s: Stmt, rest: Block)

  /** `if (g) return;` clauses, then a tail that leaves the helper only at its end. */
  datatype Helper = Helper(params: seq<string>, guards: seq<Expr>, tail: Block)

  // ----- Running -----

  datatype Completion = Normal | Thrown(err: Value) | Garbled

  function Exec(host: Host, scope: Scope, s: Stmt, f: Frame, w: World): (Completion, Frame, World)
    decreases s
  {
    match s
    case Do(e) =>
      var (r, w1) := Eval(host, Env(scope, f), e, w);
      (if r.Ok? then Normal else Thrown(r.error), f, w1)
    case Let(x, e) =>
      var (r, w1) := Eval(host, Env(scope, f), e, w);
      if r.Ok? then (Normal, f[x := r.value], w1) else (Thrown(r.error), f, w1)
    case Set(x, e) =>
      var (r, w1) := Eval(host, Env(scope, f), e, w);
      if r.Err? then (Thrown(r.error), f, w1)
      else if x in f then (Normal, f[x := r.value], w1)
      else if x !in scope.declared && x in scope.cells && scope.cells[x] in w1.cells then
        (Normal, f, w1.(cells := w1.cells[scope.cells[x] := r.value]))
      else (Thrown(REFERENCE_ERROR), f, w1)
    case If(c, t, e) =>
      var (r, w1) := Eval(host, Env(scope, f), c, w);
      if r.Err? then (Thrown(r.error), f, w1)
      else ExecBranch(host, scope, if Truthy(r.value) then t else e, f, w1)
  }

  /** The scope of a block inside `scope`. */
  function Within(scope: Scope, b: Block): Scope {
    scope.(declared := scope.declared + Locals(b))
  }

  /** A frame after a block that bound `names`: what they were outside, and all else as the block left it. */
  function Leave(f: Frame, f1: Frame, names: set<string>): Frame {
    (f1 - names) + (map x | x in f && x in names :: f[x])
  }

  /** A branch is a block of its own: its locals start unset and are gone afterwards. */
  function ExecBranch(host: Host, scope: Scope, b: Block, f: Frame, w: World): (Completion, Frame, World)
    decreases b, 1
  {
    var (c, f1, w1) := ExecBlock(host, Within(scope, b), b, f - Locals(b), w);
    (c, Leave(f, f1, Locals(b)), w1)
  }

  function ExecBlock(host: Host, scope: Scope, b: Block, f: Frame, w: World): (Completion, Frame, World)
    decreases b, 0
  {
    match b
    case Done => (Normal, f, w)
    case Then(s, rest) =>
      var (c, f1, w1) := Exec(host, scope, s, f, w);
      if c.Normal? then ExecBlock(host, scope, rest, f1, w1) else (c, f1, w1)
  }

  function EvalSeq(host: Host, env: Env, args: seq<Expr>, w: World): (Result<seq<Value>, Value>, World)
  {
    if args == [] then (Ok([]), w)
    else
      var (r, w1) := Eval(host, env, args[0], w);
      if r.Err? then (Err(r.error), w1)
      else
        var (rs, w2) := EvalSeq(host, env, args[1..], w1);
        if rs.Err? then (rs, w2) else (Ok([r.value] + rs.value), w2)
  }

  /** Names the block itself binds. */
  function Locals(b: Block): set<string> {
    match b
    case Done => {}
    case Then(s, rest) => (if s.Let? then {s.x} else {}) + Locals(rest)
  }

  function Bind(params: seq<string>, vs: seq<Value>): Frame {
    if params == [] then map[]
    else Bind(params[1..], if vs == [] then [] else vs[1..])
      [params[0] := if vs == [] then Undefined else vs[0]]
  }

  function HelperScope(h: Helper, cells: map<string, Cell>): Scope {
    Scope((set p | p in h.params) + Locals(h.tail), cells)
  }

  /** The call: arguments left to right, then guards, then the tail, in the helper's own frame. */
  function RunCall(host: Host, env: Env, module_: map<string, Cell>, h: Helper, args: seq<Expr>, w: World)
    : (Completion, World)
  {
    var (vs, w1) := EvalSeq(host, env, args, w);
    if vs.Err? then (Thrown(vs.error), w1)
    else
      var scope, f := HelperScope(h, module_), Bind(h.params, vs.value);
      var (g, w2) := RunGuards(host, Env(scope, f), h.guards, w1);
      match g
      case Threw(err) => (Thrown(err), w2)
      case Fired => (Normal, w2)
      case Passed => var (c, _, w3) := ExecBlock(host, scope, h.tail, f, w2); (c, w3)
  }

  // ----- Building the replacement -----

  function Uses(e: Expr, x: string): nat
    decreases e
  {
    match e
    case Lit(_) => 0
    case Name(y) => if x == y then 1 else 0
    case Get(o, _) => Uses(o, x)
    case Call(c, args) => Uses(c, x) + ArgUses(args, x)
    case Not(i) => Uses(i, x)
    case Bin(_, l, r) => Uses(l, x) + Uses(r, x)
    case Paren(i) => Uses(i, x)
  }

  function ArgUses(args: Args, x: string): nat
    decreases args
  {
    match args
    case NoArgs => 0
    case Arg(h, t) => Uses(h, x) + ArgUses(t, x)
  }

  /** References to a name of the helper; inside a branch that binds the name there are none. */
  function StmtUses(s: Stmt, x: string): nat
    decreases s
  {
    match s
    case Do(e) => Uses(e, x)
    case Let(_, e) => Uses(e, x)
    case Set(y, e) => Uses(e, x) + (if x == y then 1 else 0)
    case If(c, t, e) =>
      Uses(c, x) + (if x in Locals(t) then 0 else BlockUses(t, x)) + (if x in Locals(e) then 0 else BlockUses(e, x))
  }

  function BlockUses(b: Block, x: string): nat
    decreases b
  {
    match b
    case Done => 0
    case Then(s, rest) => StmtUses(s, x) + BlockUses(rest, x)
  }

  function GuardUses(gs: seq<Expr>, x: string): nat {
    if gs == [] then 0 else Uses(gs[0], x) + GuardUses(gs[1..], x)
  }

  function HelperUses(h: Helper, x: string): nat {
    GuardUses(h.guards, x) + BlockUses(h.tail, x)
  }

  predicate IsLiteral(e: Expr) {
    e.Lit? && !e.v.Undefined? && !e.v.NaN? && !e.v.Ref?
  }

  predicate IsPure(e: Expr, strict: bool)
    decreases e
  {
    match e
    case Paren(i) => IsPure(i, strict)
    case Name(_) => true
    case Lit(_) => IsLiteral(e)
    case Get(o, _) => !strict && IsPure(o, strict)
    case Not(i) => IsPure(i, strict)
    case Bin(_, l, r) => IsPure(l, strict) && IsPure(r, strict)
    case Call(_, _) => false
  }

  predicate IsDuplicable(e: Expr, strict: bool)
    decreases e
  {
    match e
    case Paren(i) => IsDuplicable(i, strict)
    case Name(_) => true
    case Lit(_) => IsLiteral(e)
    case Get(o, _) => !strict && IsDuplicable(o, strict)
    case _ => false
  }

  predicate NeedsParens(e: Expr) {
    e.Bin? || e.Not?
  }

  predicate Hoists(arg: Expr, uses: nat, strict: bool) {
    strict || !IsPure(arg, strict) || (uses >= 2 && !IsDuplicable(arg, strict))
  }

  datatype Built = Built(prefix: seq<Stmt>, sub: map<string, Expr>, taken: set<string>)

  function TempName(p: string, taken: set<string>): string {
    FreshName("__inl_" + p, taken)
  }

  /** What one parameter contributes: a hoisted temporary, a bare effect, a substitution, or nothing. */
  function BuildParam(p: string, arg: Option<Expr>, uses: nat, strict: bool, taken: set<string>): Built {
    if uses == 0 then
      if arg.Some? && (!IsPure(arg.value, strict) || (strict && !IsLiteral(StripParens(arg.value)))) then
        Built([Do(arg.value)], map[], taken)
      else Built([], map[], taken)
    else if arg.None? then Built([], map[p := Lit(Undefined)], taken)
    else if Hoists(arg.value, uses, strict) then
      var temp := TempName(p, taken);
      Built([Let(temp, arg.value)], map[p := Name(temp)], taken + {temp})
    else Built([], map[p := if NeedsParens(arg.value) then Paren(arg.value) else arg.value], taken)
  }

  function First<T>(s: seq<T>): Option<T> {
    if s == [] then None else Some(s[0])
  }

  function Rest<T>(s: seq<T>): seq<T> {
    if s == [] then [] else s[1..]
  }

  function BuildParams(h: Helper, params: seq<string>, args: seq<Expr>, strict: bool, taken: set<string>): Built
    decreases |params|
  {
    if params == [] then Built([], map[], taken)
    else
      var b := BuildParam(params[0], First(args), HelperUses(h, params[0]), strict, taken);
      var r := BuildParams(h, params[1..], Rest(args), strict, b.taken);
      Built(b.prefix + r.prefix, b.sub + r.sub, r.taken)
  }

  function Append(a: Built, b: Built): Built {
    Built(a.prefix + b.prefix, a.sub + b.sub, b.taken)
  }

  /** The argument loop of the inliner: one pass over the parameters, growing the reserved names. */
  method BuildArguments(h: Helper, args: seq<Expr>, strict: bool, reserved: set<string>) returns (b: Built)
    ensures b == BuildParams(h, h.params, args, strict, reserved)
  {
    b := Built([], map[], reserved);
    var i := 0;
    while i < |h.params|
      invariant 0 <= i <= |h.params|
      invariant BuildParams(h, h.params, args, strict, reserved) ==
        Append(b, BuildParams(h, h.params[i..], Drop(args, i), strict, b.taken))
    {
      BuildStep(h, args, i, strict, b);
      var one := BuildArgument(h, i, args, strict, b.taken);
      b := Append(b, one);
      i := i + 1;
    }
  }

  method BuildArgument(h: Helper, i: nat, args: seq<Expr>, strict: bool, taken: set<string>) returns (b: Built)
    requires i < |h.params|
    ensures b == BuildParam(h.params[i], First(Drop(args, i)), HelperUses(h, h.params[i]), strict, taken)
  {
    var p := h.params[i];
    var uses := HelperUses(h, p);
    if uses == 0 {
      if i < |args| && (!IsPure(args[i], strict) || (strict && !IsLiteral(StripParens(args[i])))) {
        b := Built([Do(args[i])], map[], taken);
      } else {
        b := Built([], map[], taken);
      }
    } else if i >= |args| {
      b := Built([], map[p := Lit(Undefined)], taken);
    } else if Hoists(args[i], uses, strict) {
      var temp := PickFresh("__inl_" + p, taken);
      b := Built([Let(temp, args[i])], map[p := Name(temp)], taken + {temp});
    } else {
      b := Built([], map[p := if NeedsParens(args[i]) then Paren(args[i]) else args[i]], taken);
    }
  }

  lemma {:induction false} AppendAssociates(a: Built, b: Built, c: Built)
    ensures Append(a, Append(b, c)) == Append(Append(a, b), c)
  {
  }

  lemma {:induction false} BuildUnfolds(h: Helper, params: seq<string>, args: seq<Expr>, strict: bool, taken: set<string>)
    requires params != []
    ensures var one := BuildParam(params[0], First(args), HelperUses(h, params[0]), strict, taken);
      BuildParams(h, params, args, strict, taken) == Append(one, BuildParams(h, params[1..], Rest(args), strict, one.taken))
  {
  }

  lemma {:induction false} BuildStep(h: Helper, args: seq<Expr>, i: nat, strict: bool, b: Built)
    requires i < |h.params|
    ensures var one := BuildParam(h.params[i], First(Drop(args, i)), HelperUses(h, h.params[i]), strict, b.taken);
      Append(b, BuildParams(h, h.params[i..], Drop(args, i), strict, b.taken)) ==
      Append(Append(b, one), BuildParams(h, h.params[i + 1..], Drop(args, i + 1), strict, one.taken))
  {
    var one := BuildParam(h.params[i], First(Drop(args, i)), HelperUses(h, h.params[i]), strict, b.taken);
    assert h.params[i..][1..] == h.params[i + 1..] && Rest(Drop(args, i)) == Drop(args, i + 1);
    BuildUnfolds(h, h.params[i..], Drop(args, i), strict, b.taken);
    AppendAssociates(b, one, BuildParams(h, h.params[i + 1..], Drop(args, i + 1), strict, one.taken));
  }

  function Drop<T>(s: seq<T>, n: nat): seq<T> {
    if n <= |s| then s[n..] else []
  }

  /** Fresh names for the tail locals already taken in the target block. */
  function RenameLocals(b: Block, taken: set<string>): map<string, string>
  {
    match b
    case Done => map[]
    case Then(s, rest) =>
      if !s.Let? then RenameLocals(rest, taken)
      else if s.x !in taken then RenameLocals(rest, taken + {s.x})
      else
        var name := FreshName(s.x, taken);
        RenameLocals(rest, taken + {name})[s.x := name]
  }

  /** The renaming loop over the tail's own declarations. */
  method RenameCollidingLocals(tail: Block, reserved: set<string>) returns (renames: map<string, string>)
    requires NoTwice(tail)
    ensures renames == RenameLocals(tail, reserved)
  {
    renames := map[];
    var taken, rest := reserved, tail;
    while rest.Then?
      invariant NoTwice(rest) && renames.Keys !! Locals(rest)
      invariant RenameLocals(tail, reserved) == renames + RenameLocals(rest, taken)
      decreases rest
    {
      RenamesOnlyLocals(rest, taken);
      if rest.s.Let? {
        var original := rest.s.x;
        if original !in taken {
          taken := taken + {original};
        } else {
          var name := PickFresh(original, taken);
          RenamesOnlyLocals(rest.rest, taken + {name});
          taken := taken + {name};
          renames := renames[original := name];
        }
      }
      rest := rest.rest;
    }
  }

  /** A block declares no name twice. */
  predicate NoTwice(b: Block) {
    match b
    case Done => true
    case Then(s, rest) => (s.Let? ==> s.x !in Locals(rest)) && NoTwice(rest)
  }

  lemma {:induction false} RenamesOnlyLocals(b: Block, taken: set<string>)
    ensures RenameLocals(b, taken).Keys <= Locals(b)
    decreases b
  {
    match b
    case Done =>
    case Then(s, rest) =>
      RenamesOnlyLocals(rest, taken);
      if s.Let? {
        RenamesOnlyLocals(rest, taken + {s.x});
        RenamesOnlyLocals(rest, taken + {FreshName(s.x, taken)});
      }
  }

  function AsNames(names: map<string, string>): map<string, Expr> {
    map x | x in names :: Name(names[x])
  }

  function Renamed(x: string, sub: map<string, Expr>): string {
    if x in sub && sub[x].Name? then sub[x].x else x
  }

  /** Edits at the references to each name: a branch that binds the name holds none. */
  function SubstStmt(s: Stmt, sub: map<string, Expr>): Stmt
    decreases s
  {
    match s
    case Do(e) => Do(Subst(e, sub))
    case Let(x, e) => Let(Renamed(x, sub), Subst(e, sub))
    case Set(x, e) => Set(Renamed(x, sub), Subst(e, sub))
    case If(c, t, e) => If(Subst(c, sub), SubstBlock(t, sub - Locals(t)), SubstBlock(e, sub - Locals(e)))
  }

  function SubstBlock(b: Block, sub: map<string, Expr>): Block
    decreases b
  {
    match b
    case Done => Done
    case Then(s, rest) => Then(SubstStmt(s, sub), SubstBlock(rest, sub))
  }

  datatype Replacement = Replacement(prefix: seq<Stmt>, condition: Option<seq<Token>>, tail: Block, sub: map<string, Expr>)

  function Build(h: Helper, args: seq<Expr>, strict: bool, taken: set<string>): Replacement {
    var b := BuildParams(h, h.params, args, strict, taken);
    if h.guards != [] then
      Replacement(b.prefix, Some(CombineGuards(h.guards, b.sub)), SubstBlock(h.tail, b.sub), b.sub)
    else
      var all := b.sub + AsNames(RenameLocals(h.tail, b.taken));
      Replacement(b.prefix, None, SubstBlock(h.tail, all), all)
  }

  function Prefixed(prefix: seq<Stmt>, b: Block): Block {
    if prefix == [] then b else Then(prefix[0], Prefixed(prefix[1..], b))
  }

  /** Names the replacement adds to the block the call stood in. */
  function Introduced(r: Replacement): set<string> {
    Locals(Prefixed(r.prefix, if r.condition.None? then r.tail else Done))
  }

  /** Runs the replacement in the caller's block; the condition is read from its text. */
  function RunReplacement(host: Host, env: Env, r: Replacement, w: World): (Completion, Frame, World) {
    var scope := env.scope.(declared := env.scope.declared + Introduced(r));
    if r.condition.None? then ExecBlock(host, scope, Prefixed(r.prefix, r.tail), env.frame, w)
    else
      var (c, f1, w1) := ExecBlock(host, scope, Prefixed(r.prefix, Done), env.frame, w);
      if !c.Normal? then (c, f1, w1)
      else
        match ParseAll(r.condition.value)
        case None => (Garbled, f1, w1)
        case Some(condition) =>
          var (v, w2) := Eval(host, Env(scope, f1), condition, w1);
          if v.Err? then (Thrown(v.error), f1, w2)
          else if !Truthy(v.value) then (Normal, f1, w2)
          else ExecBranch(host, scope, r.tail, f1, w2)
  }
}
